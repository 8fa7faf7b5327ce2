/** The roster lookup of add-user.go (`searchUserAndGetPublicKey`): the
    roster is read line by line, and the public key is field 2 of the first
    line that mentions the user and splits into at least three fields. */
module Roster {
  import opened GoStrings

  /** The literal field delimiter of a roster line. */
  const Delimiter: string := ";;;"

  /** The 0-based index of the public-key field. */
  const KeyField: nat := 2

  /** What the lookup returns: the key and whether one was found. */
  datatype LookupResult = LookupResult(key: string, found: bool)

  /** The roster file as the lookup sees it: it could not be opened, or it
      yielded these lines, in order (a read error ends the sequence early). */
  datatype RosterFile = OpenFailed | Opened(lines: seq<string>)

  /** The outcome "no key": an empty key and `false`. */
  const Missing := LookupResult("", false)

  /** The fields of a roster line. */
  function Fields(line: string): seq<string> {
    Split(line, Delimiter)
  }

  /** A line the lookup accepts for `username`: it contains the name as a
      substring and has a key field. */
  predicate Qualifies(line: string, username: string) {
    Contains(line, username) && |Fields(line)| > KeyField
  }

  /** The key field of a line that has one. */
  function KeyOf(line: string): (key: string)
    requires |Fields(line)| > KeyField
    ensures !Contains(key, Delimiter)
  {
    Fields(line)[KeyField]
  }

  /** The result of scanning `lines` in order for `username`. */
  function Lookup(lines: seq<string>, username: string): (r: LookupResult)
    ensures !r.found ==> r == Missing
    ensures r.found ==> !Contains(r.key, Delimiter)
  {
    if lines == [] then Missing
    else if Qualifies(lines[0], username) then LookupResult(KeyOf(lines[0]), true)
    else Lookup(lines[1..], username)
  }

  /** A key is found exactly when some line qualifies. */
  lemma {:induction false} LookupFoundIff(lines: seq<string>, username: string)
    ensures Lookup(lines, username).found
        <==> exists i :: 0 <= i < |lines| && Qualifies(lines[i], username)
  {
    if lines != [] && !Qualifies(lines[0], username) {
      LookupFoundIff(lines[1..], username);
      if exists i :: 0 <= i < |lines| && Qualifies(lines[i], username) {
        var i :| 0 <= i < |lines| && Qualifies(lines[i], username);
        assert lines[1..][i - 1] == lines[i];
      }
      if exists i :: 0 <= i < |lines| - 1 && Qualifies(lines[1..][i], username) {
        var i :| 0 <= i < |lines| - 1 && Qualifies(lines[1..][i], username);
        assert lines[i + 1] == lines[1..][i];
      }
    }
  }

  /** The lookup of the whole function, including a file that cannot be opened. */
  function Search(file: RosterFile, username: string): (r: LookupResult)
    ensures file.OpenFailed? ==> r == Missing
    ensures r.found ==> file.Opened?
  {
    match file
    case OpenFailed => Missing
    case Opened(lines) => Lookup(lines, username)
  }

  /** The lookup returns the key of the first qualifying line. */
  lemma {:induction false} LookupFirstMatch(lines: seq<string>, username: string, i: nat)
    requires i < |lines| && Qualifies(lines[i], username)
    requires forall j :: 0 <= j < i ==> !Qualifies(lines[j], username)
    ensures Lookup(lines, username) == LookupResult(KeyOf(lines[i]), true)
  {
    if i > 0 {
      assert !Qualifies(lines[0], username);
      assert forall j :: 0 <= j < i - 1 ==> lines[1..][j] == lines[j + 1];
      LookupFirstMatch(lines[1..], username, i - 1);
    }
  }

  /** Conversely, a key that is found comes from the first qualifying line. */
  lemma {:induction false} LookupFoundIsFirst(lines: seq<string>, username: string)
    requires Lookup(lines, username).found
    ensures exists i :: 0 <= i < |lines| && Qualifies(lines[i], username)
                        && (forall j :: 0 <= j < i ==> !Qualifies(lines[j], username))
                        && Lookup(lines, username).key == KeyOf(lines[i])
  {
    if !Qualifies(lines[0], username) {
      var rest := lines[1..];
      LookupFoundIsFirst(rest, username);
      var i :| 0 <= i < |rest| && Qualifies(rest[i], username)
               && (forall j :: 0 <= j < i ==> !Qualifies(rest[j], username))
               && Lookup(rest, username).key == KeyOf(rest[i]);
      assert lines[i + 1] == rest[i];
      assert forall j :: 1 <= j < i + 1 ==> lines[j] == rest[j - 1];
    } else {
      assert Qualifies(lines[0], username);
    }
  }

  /** A line that mentions the user but has fewer than three fields is skipped
      and the scan goes on with the next line. */
  lemma ShortLineSkipped(line: string, rest: seq<string>, username: string)
    requires Contains(line, username) && |Fields(line)| < 3
    ensures Lookup([line] + rest, username) == Lookup(rest, username)
  {
    assert ([line] + rest)[1..] == rest;
  }

  /** One step of the scan: the first line decides, or the scan goes on. */
  lemma LookupStep(lines: seq<string>, username: string)
    requires lines != []
    ensures Lookup(lines, username)
         == if Qualifies(lines[0], username) then LookupResult(KeyOf(lines[0]), true)
            else Lookup(lines[1..], username)
  {
  }

  /** First match wins: lines after a qualifying one never change the result. */
  lemma {:induction false} FirstMatchWins(lines: seq<string>, more: seq<string>, username: string)
    requires Lookup(lines, username).found
    ensures Lookup(lines + more, username) == Lookup(lines, username)
  {
    var all := lines + more;
    assert all[0] == lines[0];
    LookupStep(all, username);
    LookupStep(lines, username);
    if !Qualifies(lines[0], username) {
      assert all[1..] == lines[1..] + more;
      FirstMatchWins(lines[1..], more, username);
    }
  }

  /** A prefix with no qualifying line leaves the result of the lines after it. */
  lemma {:induction false} NonQualifyingPrefix(skipped: seq<string>, lines: seq<string>, username: string)
    requires forall j :: 0 <= j < |skipped| ==> !Qualifies(skipped[j], username)
    ensures Lookup(skipped + lines, username) == Lookup(lines, username)
  {
    if skipped != [] {
      var all := skipped + lines;
      assert all[0] == skipped[0];
      assert all[1..] == skipped[1..] + lines;
      LookupStep(all, username);
      NonQualifyingPrefix(skipped[1..], lines, username);
    } else {
      assert skipped + lines == lines;
    }
  }

  /** Matching is by substring: a user matches a line where the name is only
      part of a longer field (`bob` matches `bobby;;;x;;;KEY`). */
  lemma SubstringMatches(pre: string, username: string, post: string)
    requires |Fields(pre + username + post)| >= 3
    ensures Lookup([pre + username + post], username)
         == LookupResult(KeyOf(pre + username + post), true)
  {
    ContainsInfix(pre, username, post);
  }

  /** The empty user name matches every line, so the lookup returns the key of
      the first line that has three fields. */
  lemma {:induction false} EmptyUsernameMatchesAll(lines: seq<string>, i: nat)
    requires i < |lines| && |Fields(lines[i])| >= 3
    requires forall j :: 0 <= j < i ==> |Fields(lines[j])| < 3
    ensures Lookup(lines, "") == LookupResult(KeyOf(lines[i]), true)
  {
    ContainsEmpty(lines[i]);
    LookupFirstMatch(lines, "", i);
  }

  /** A roster line whose three fields hold no `;`: the lookup of a user it
      mentions finds the third field. */
  lemma ThreeFieldLine(id: string, other: string, key: string, username: string)
    requires ';' !in id && ';' !in other && ';' !in key
    requires Contains(id + ";;;" + other + ";;;" + key, username)
    ensures Lookup([id + ";;;" + other + ";;;" + key], username) == LookupResult(key, true)
  {
    var line := id + ";;;" + other + ";;;" + key;
    var fields := [id, other, key];
    assert fields[1..] == [other, key] && fields[1..][1..] == [key];
    assert Join([key], Delimiter) == key;
    assert Join([other, key], Delimiter) == other + Delimiter + key;
    assert Join(fields, Delimiter) == id + Delimiter + (other + Delimiter + key);
    assert Join(fields, Delimiter) == line;
    SplitJoin([id, other, key], Delimiter);
  }

  /** The key found is a field of the line: joining the line's fields with the
      delimiter gives the line back, and field 2 is the key. */
  lemma KeyIsField(line: string)
    requires |Fields(line)| >= 3
    ensures Join(Fields(line), Delimiter) == line
    ensures Fields(line)[KeyField] == KeyOf(line)
  {
    JoinSplit(line, Delimiter);
  }

  /** The scan of add-user.go: lines in order, early return on the first line
      that qualifies. */
  method SearchUserAndGetPublicKey(file: RosterFile, username: string)
    returns (key: string, found: bool)
    ensures LookupResult(key, found) == Search(file, username)
  {
    if file.OpenFailed? {
      return "", false;
    }
    var lines := file.lines;
    var i := 0;
    while i < |lines|
      invariant 0 <= i <= |lines|
      invariant Lookup(lines[i..], username) == Lookup(lines, username)
    {
      var line := lines[i];
      assert lines[i..][1..] == lines[i + 1..];
      if Contains(line, username) {
        var parts := Split(line, Delimiter);
        if |parts| >= 3 {
          return parts[2], true;
        }
      }
      i := i + 1;
    }
    return "", false;
  }
}
