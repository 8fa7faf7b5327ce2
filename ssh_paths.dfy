/** Where `createUserAndSetupSSH` installs a user's key, and what it writes:
    the directory `/home/<user>/.ssh`, the file `authorized_keys` inside it,
    and the key followed by a newline. */
module SshPaths {

  /** A permission value written as its three octal digits (owner, group,
      other), as Go's `0700` and `0400` literals are. */
  function Mode(owner: nat, group: nat, other: nat): (m: nat)
    requires owner < 8 && group < 8 && other < 8
    ensures m / 64 == owner && m / 8 % 8 == group && m % 8 == other
  {
    owner * 64 + group * 8 + other
  }

  /** `0700`: read, write and search for the owner only. */
  const SshDirMode: nat := Mode(7, 0, 0)

  /** `0400`: read for the owner only. */
  const KeyFileMode: nat := Mode(4, 0, 0)

  const HomeRoot: string := "/home/"
  const SshSuffix: string := "/.ssh"
  const KeyFileSuffix: string := "/authorized_keys"

  function HomeDir(username: string): string {
    HomeRoot + username
  }

  function SshDir(username: string): (path: string)
    ensures |path| == |HomeRoot| + |username| + |SshSuffix|
    ensures path[..|HomeRoot| + |username|] == HomeDir(username)
    ensures path[|HomeRoot| + |username|..] == SshSuffix
  {
    HomeDir(username) + SshSuffix
  }

  function AuthorizedKeysPath(username: string): (path: string)
    ensures |path| == |SshDir(username)| + |KeyFileSuffix|
    ensures path[..|SshDir(username)|] == SshDir(username)
    ensures path[|SshDir(username)|..] == KeyFileSuffix
  {
    SshDir(username) + KeyFileSuffix
  }

  /** The bytes written to the key file. */
  function KeyFileContent(key: string): (content: string)
    ensures |content| == |key| + 1 && content[|key|] == '\n'
  {
    key + "\n"
  }

  /** The user name a key directory path was built from. */
  function UserOfSshDir(path: string): string
    requires |path| >= |HomeRoot| + |SshSuffix|
  {
    path[|HomeRoot|..|path| - |SshSuffix|]
  }

  /** The key written back out of the file content. */
  function KeyOfContent(content: string): string
    requires |content| >= 1
  {
    content[..|content| - 1]
  }

  /** The user name can be read back from the key directory, so different
      users never share one. */
  lemma SshDirRoundTrip(username: string)
    ensures UserOfSshDir(SshDir(username)) == username
  {
    var path := SshDir(username);
    assert path == HomeRoot + username + SshSuffix;
    assert path[|HomeRoot|..|path| - |SshSuffix|] == username;
  }

  lemma SshDirInjective(u: string, v: string)
    requires SshDir(u) == SshDir(v)
    ensures u == v
  {
    SshDirRoundTrip(u);
    SshDirRoundTrip(v);
  }

  /** The key can be read back from the file content. */
  lemma KeyFileContentRoundTrip(key: string)
    ensures KeyOfContent(KeyFileContent(key)) == key
  {
    assert KeyFileContent(key)[..|key|] == key;
  }

  /** The key file lies inside the user's home directory. */
  lemma KeyFileUnderHome(username: string)
    ensures AuthorizedKeysPath(username)[..|HomeDir(username)|] == HomeDir(username)
  {
    var home := HomeDir(username);
    var dir := SshDir(username);
    assert AuthorizedKeysPath(username)[..|home|] == dir[..|home|];
  }

  /** The paths for the user `alice`, written out. */
  lemma AlicePaths()
    ensures SshDir("alice") == "/home/alice/.ssh"
    ensures AuthorizedKeysPath("alice") == "/home/alice/.ssh/authorized_keys"
  {
  }
}
