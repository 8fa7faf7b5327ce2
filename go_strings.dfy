/** The three operations of Go's `strings` package that the roster lookup
    relies on: `Index`, `Contains` and `Split`, together with `Join`, the
    inverse of `Split`. Strings are sequences of characters. */
module GoStrings {
  import opened Wrappers

  /** `sub` occurs in `s` starting at position `i`. */
  ghost predicate OccursAt(s: string, sub: string, i: int) {
    0 <= i && i + |sub| <= |s| && s[i..i + |sub|] == sub
  }

  /** The first position at or after `from` where `sub` occurs in `s`. */
  function IndexFrom(s: string, sub: string, from: nat): (r: Option<nat>)
    ensures r.Some? ==> from <= r.value && OccursAt(s, sub, r.value)
    ensures r.Some? ==> forall j :: from <= j < r.value ==> !OccursAt(s, sub, j)
    ensures r.None? ==> forall j :: from <= j ==> !OccursAt(s, sub, j)
    decreases |s| - from
  {
    if from + |sub| > |s| then None
    else if s[from..from + |sub|] == sub then Some(from)
    else IndexFrom(s, sub, from + 1)
  }

  /** `strings.Index`: the first occurrence of `sub` in `s` (Go's -1 is None). */
  function Index(s: string, sub: string): (r: Option<nat>)
    ensures r.Some? ==> OccursAt(s, sub, r.value)
    ensures r.Some? ==> forall j :: 0 <= j < r.value ==> !OccursAt(s, sub, j)
    ensures r.None? ==> forall j :: !OccursAt(s, sub, j)
  {
    IndexFrom(s, sub, 0)
  }

  /** `strings.Contains`: `sub` is a substring of `s`. */
  function Contains(s: string, sub: string): bool {
    Index(s, sub).Some?
  }

  /** `Contains` holds exactly when `sub` occurs at some position of `s`. */
  lemma ContainsIff(s: string, sub: string)
    ensures Contains(s, sub) <==> exists i :: OccursAt(s, sub, i)
  {
    if Contains(s, sub) {
      assert OccursAt(s, sub, Index(s, sub).value);
    }
  }

  /** A prefix of `s` that ends before the first occurrence of `sep` does not
      contain `sep`. */
  lemma PrefixBeforeFirst(s: string, sep: string, i: nat)
    requires sep != [] && i <= |s|
    requires forall j :: 0 <= j < i ==> !OccursAt(s, sep, j)
    ensures !Contains(s[..i], sep)
  {
    ContainsIff(s[..i], sep);
    if Contains(s[..i], sep) {
      var j :| OccursAt(s[..i], sep, j);
      assert s[..i][j..j + |sep|] == s[j..j + |sep|];
      assert OccursAt(s, sep, j);
    }
  }

  /** `strings.Split` for a non-empty separator: the pieces of `s` between the
      non-overlapping occurrences of `sep`, found from left to right. */
  function Split(s: string, sep: string): (parts: seq<string>)
    requires sep != []
    ensures |parts| >= 1
    ensures forall k :: 0 <= k < |parts| ==> !Contains(parts[k], sep)
    decreases |s|
  {
    match Index(s, sep)
    case None =>
      assert s[..|s|] == s;
      PrefixBeforeFirst(s, sep, |s|);
      [s]
    case Some(i) =>
      PrefixBeforeFirst(s, sep, i);
      [s[..i]] + Split(s[i + |sep|..], sep)
  }

  /** `strings.Join`: the pieces with `sep` between each two neighbours. */
  function Join(parts: seq<string>, sep: string): string
  {
    if |parts| == 0 then ""
    else if |parts| == 1 then parts[0]
    else parts[0] + sep + Join(parts[1..], sep)
  }

  /** Joining the pieces of a split gives back the original string. */
  lemma {:induction false} JoinSplit(s: string, sep: string)
    requires sep != []
    ensures Join(Split(s, sep), sep) == s
    decreases |s|
  {
    match Index(s, sep)
    case None =>
    case Some(i) =>
      var rest := s[i + |sep|..];
      var tail := Split(rest, sep);
      JoinSplit(rest, sep);
      var parts := [s[..i]] + tail;
      assert Split(s, sep) == parts;
      assert parts[1..] == tail;
      assert Join(parts, sep) == s[..i] + sep + Join(tail, sep);
      assert s[i..i + |sep|] == sep;
      assert s == s[..i] + s[i..i + |sep|] + rest;
  }

  /** A split with more than one piece cut at the first occurrence of `sep`
      and split the rest after it. */
  lemma SplitFirstPiece(s: string, sep: string)
    requires sep != []
    ensures var parts := Split(s, sep);
      |parts| >= 2 ==>
        && Index(s, sep) == Some(|parts[0]|)
        && parts[1..] == Split(s[|parts[0]| + |sep|..], sep)
  {
    match Index(s, sep)
    case None =>
      assert Split(s, sep) == [s];
    case Some(i) =>
      var tail := Split(s[i + |sep|..], sep);
      var parts := [s[..i]] + tail;
      assert Split(s, sep) == parts;
      assert |parts[0]| == i;
      assert s[|parts[0]| + |sep|..] == s[i + |sep|..];
      assert parts[1..] == tail;
  }

  /** Each piece but the last ends at the leftmost occurrence of `sep` in
      what is left of the string from that piece on; with `JoinSplit` this
      fixes the pieces of `s` uniquely. */
  lemma {:induction false} SplitAtLeftmost(s: string, sep: string)
    requires sep != []
    ensures var parts := Split(s, sep);
      forall k :: 0 <= k < |parts| - 1 ==> Index(Join(parts[k..], sep), sep) == Some(|parts[k]|)
    decreases |s|
  {
    var parts := Split(s, sep);
    if |parts| >= 2 {
      SplitFirstPiece(s, sep);
      var rest := s[|parts[0]| + |sep|..];
      SplitAtLeftmost(rest, sep);
      JoinSplit(s, sep);
      LeftmostFromTail(parts, Split(rest, sep), sep);
      assert parts[0..] == parts;
    }
  }

  /** The claim for the pieces after the first carries over from the split of
      the rest. */
  lemma LeftmostFromTail(parts: seq<string>, tail: seq<string>, sep: string)
    requires |parts| >= 2 && parts[1..] == tail
    requires forall k :: 0 <= k < |tail| - 1 ==> Index(Join(tail[k..], sep), sep) == Some(|tail[k]|)
    ensures forall k :: 1 <= k < |parts| - 1 ==> Index(Join(parts[k..], sep), sep) == Some(|parts[k]|)
  {
    forall k | 1 <= k < |parts| - 1
      ensures Index(Join(parts[k..], sep), sep) == Some(|parts[k]|)
    {
      assert parts[k..] == tail[k - 1..];
      assert parts[k] == tail[k - 1];
    }
  }

  /** When `a` holds no character that starts `sep`, the first occurrence of
      `sep` in `a + sep + rest` is the one right after `a`. */
  lemma IndexAfterField(a: string, sep: string, rest: string)
    requires sep != [] && sep[0] !in a
    ensures Index(a + sep + rest, sep) == Some(|a|)
  {
    var s := a + sep + rest;
    assert s[|a|..|a| + |sep|] == sep;
    assert OccursAt(s, sep, |a|);
    forall j | 0 <= j < |a|
      ensures !OccursAt(s, sep, j)
    {
      assert s[j] == a[j];
      assert s[j..j + |sep|][0] == s[j];
    }
  }

  /** A string that does not contain `sep` is one piece. */
  lemma SplitWithoutOccurrence(s: string, sep: string)
    requires sep != [] && !Contains(s, sep)
    ensures Split(s, sep) == [s]
  {
  }

  /** A string that holds no character that starts `sep` is one piece. */
  lemma SplitWithoutSeparator(s: string, sep: string)
    requires sep != [] && sep[0] !in s
    ensures Split(s, sep) == [s]
  {
    forall j | 0 <= j < |s| && j + |sep| <= |s|
      ensures !OccursAt(s, sep, j)
    {
      assert s[j..j + |sep|][0] == s[j];
    }
    assert Index(s, sep).None?;
  }

  /** Splitting the join of fields gives the fields back, provided no field
      holds the first character of the separator (for `;;;`: no field holds
      a `;`). */
  lemma {:induction false} SplitJoin(parts: seq<string>, sep: string)
    requires |parts| >= 1 && sep != []
    requires forall k :: 0 <= k < |parts| ==> sep[0] !in parts[k]
    ensures Split(Join(parts, sep), sep) == parts
  {
    if |parts| == 1 {
      SplitWithoutSeparator(parts[0], sep);
    } else {
      var rest := Join(parts[1..], sep);
      IndexAfterField(parts[0], sep, rest);
      var s := parts[0] + sep + rest;
      assert s[|parts[0]| + |sep|..] == rest;
      assert s[..|parts[0]|] == parts[0];
      SplitJoin(parts[1..], sep);
      assert [parts[0]] + parts[1..] == parts;
    }
  }

  /** Every string contains the empty string. */
  lemma ContainsEmpty(s: string)
    ensures Contains(s, "")
  {
    assert OccursAt(s, "", 0);
    ContainsIff(s, "");
  }

  /** Whatever surrounds `sub`, the result contains it: matching is by
      substring, without regard to word or field boundaries. */
  lemma ContainsInfix(pre: string, sub: string, post: string)
    ensures Contains(pre + sub + post, sub)
  {
    var s := pre + sub + post;
    assert s[|pre|..|pre| + |sub|] == sub;
    assert OccursAt(s, sub, |pre|);
    ContainsIff(s, sub);
  }
}
