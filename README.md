# add-user: a verified model

`add-user` provisions a local account from a roster of users and public keys
kept on a web server. It downloads the roster to `Pub-keys-users.txt`. It
finds the first roster line that mentions the user and has at least three
`;;;`-separated fields, and takes field 2 as the key. It creates the account
with `useradd -m`, or with `adduser -D` when `useradd` is not installed. It
sets a default password, creates `/home/<user>/.ssh` (mode 0700), writes the
key and a newline to `authorized_keys` (mode 0400), and gives both to the
user's numeric ids. The downloaded roster is removed on every exit after a
successful download.

The model has five modules:

- `GoStrings` (go_strings.dfy): `Index`, `Contains`, `Split` and `Join` with
  the meaning of Go's `strings` functions. `Index`, `Contains` and `Split`
  are specified by the positions where the separator occurs (`Split` by its
  leftmost occurrences). `Join` is defined directly and serves as `Split`'s
  inverse.
- `Roster` (roster.dfy): the roster lookup. `Lookup` is the specification
  over the lines in order. `SearchUserAndGetPublicKey` is the scanning loop
  with its early return, proved equal to it.
- `SshPaths` (ssh_paths.dfy): the key directory, the key file, the file
  content and the two permission values.
- `Provision` (provision.dfy): `createUserAndSetupSSH` over abstract step
  outcomes. A step ends `Ok`, `NotFound` (the program is not installed) or
  `Err(msg)`. The specification is a small state machine, `RunSteps`. It
  performs the planned steps in order and stops at the first one that fails,
  returning that step's error. The methods `CreateAccount` (the `useradd`
  call and its fallback), `SetPasswordAndWriteKey` (the password, the key
  directory and the key file), `ChownToUser` (the id lookup and the two
  ownership changes) and `CreateUserAndSetupSsh` (the three in sequence)
  follow the Go code's early returns and are proved equal to it.
- `MainFlow` (main_flow.dfy): `main`'s control flow as a sequence of events
  (download, roster read, provisioning steps, roster removal) plus the final
  report. `MainBody` has the early returns; the
  part after the removal is armed (lookup and provisioning) is the method
  `LookUpAndProvision`. `RunMain` adds Go's `defer`: the
  removal runs after whichever return `MainBody` took, once it is armed.

The environment is a parameter: whether the download succeeds, what the
roster file reads as, the outcome of every provisioning step, and the uid and
gid the id lookup yields.

Three details of the code's behaviour are easy to misread:

- extra command-line arguments after the user name are ignored; only fewer
  than two arguments cause the usage message (add-user.go:20);
- the removal of the roster file is deferred until `main` returns, so it
  happens after provisioning, on every path after a successful download
  (add-user.go:33-39);
- the key is field index 2, the third field, although the comment at
  add-user.go:96 says "second part".

## Model

| member | source | states |
|---|---|---|
| GoStrings.IndexFrom | add-user.go:94 | the result is a position at or after `from` where the separator occurs, with no occurrence between `from` and it; None means no occurrence at or after `from` |
| GoStrings.Index | add-user.go:94 | the result is the first position where `sub` occurs; None means it occurs nowhere |
| GoStrings.Contains | add-user.go:93 | `strings.Contains`: whether `Index` finds `sub`; `ContainsIff` states its meaning |
| GoStrings.ContainsIff | add-user.go:93 | `Contains` is true exactly when `sub` occurs at some position of `s` (substring match) |
| GoStrings.PrefixBeforeFirst | add-user.go:94 | the text before the first occurrence of the separator does not contain it |
| GoStrings.Split | add-user.go:94 | there is at least one piece, and no piece contains the separator |
| GoStrings.SplitFirstPiece | add-user.go:94 | a split into two or more pieces cuts at the first occurrence of the separator and splits what follows it |
| GoStrings.SplitAtLeftmost | add-user.go:94 | every piece but the last ends at the leftmost occurrence of the separator in the text from that piece on; with `JoinSplit` this fixes the pieces uniquely, as Go's left-to-right split does |
| GoStrings.JoinSplit | add-user.go:94 | joining the pieces with the separator gives back the original line |
| GoStrings.IndexAfterField | add-user.go:94 | if `a` holds no character that starts the separator, the first separator in `a + sep + rest` starts right after `a` |
| GoStrings.SplitWithoutOccurrence | add-user.go:94 | a line that does not contain the separator splits into the single piece that is the whole line |
| GoStrings.SplitWithoutSeparator | add-user.go:94 | a line that holds no character that starts the separator (for `;;;`, no `;`) is one piece |
| GoStrings.SplitJoin | add-user.go:94 | splitting the join of fields that hold no `;` gives back those fields |
| GoStrings.ContainsEmpty | add-user.go:93 | every line contains the empty user name |
| GoStrings.ContainsInfix | add-user.go:93 | a name surrounded by any text is contained, regardless of word or field boundaries |
| Roster.Fields | add-user.go:94 | `strings.Split(line, ";;;")`: at least one field, none holding `;;;` (from `Split`), and `KeyIsField` joins them back into the line |
| Roster.Qualifies | add-user.go:93-95 | the test a line must pass: it contains the user name and splits into at least three fields; `LookupFoundIff`, `LookupFirstMatch` and `ShortLineSkipped` state how the scan uses it |
| Roster.KeyOf | add-user.go:94-96 | the key taken from field 2 never contains `;;;` |
| Roster.Lookup | add-user.go:91-104 | a miss is exactly `("", false)`; a key that is found never contains `;;;` |
| Roster.LookupFoundIff | add-user.go:91-104 | a key is found exactly when some line contains the name and has at least 3 fields |
| Roster.LookupFirstMatch | add-user.go:91-97 | the first qualifying line gives the result: `(field 2, true)` |
| Roster.LookupFoundIsFirst | add-user.go:91-97 | a key that is found is field 2 of a qualifying line, and no line before that one qualifies |
| Roster.LookupStep | add-user.go:91-98 | each line either decides the result or passes the scan on to the next line |
| Roster.ShortLineSkipped | add-user.go:93-98 | a line that contains the name but has fewer than 3 fields is skipped, and the scan continues |
| Roster.FirstMatchWins | add-user.go:91-97 | lines after the first qualifying line never change the result |
| Roster.NonQualifyingPrefix | add-user.go:91-99 | lines that do not qualify, wherever they come before, leave the result of the later lines unchanged |
| Roster.SubstringMatches | add-user.go:93-96 | `bob` matches a line where it is only part of a field, such as `bobby;;;x;;;KEY` |
| Roster.EmptyUsernameMatchesAll | add-user.go:93-96 | the empty name returns field 2 of the first line with at least three fields |
| Roster.ThreeFieldLine | add-user.go:93-96 | for a line `id;;;other;;;key` whose fields hold no `;` and that contains the name, the key is found |
| Roster.KeyIsField | add-user.go:94-96 | joining a qualifying line's fields with `;;;` gives back the line, so the key is one of the line's own fields |
| Roster.Search | add-user.go:82-105 | a roster that cannot be opened gives `("", false)`, and a key is found only in an opened roster; otherwise it is `Lookup` over the lines |
| Roster.SearchUserAndGetPublicKey | add-user.go:82-105 | the scan with early return gives exactly `Lookup`'s result; a file that cannot be opened gives `("", false)` |
| SshPaths.Mode | add-user.go:140-143 | the three octal digits of a permission value are recovered from it (0700, 0400) |
| SshPaths.HomeDir | add-user.go:136 | `/home/` followed by the user name; `SshDir` and `KeyFileUnderHome` state that both paths start with it |
| SshPaths.SshDir | add-user.go:136-137 | the key directory is `/home/<user>` followed by `/.ssh` |
| SshPaths.AuthorizedKeysPath | add-user.go:138 | the key file is the key directory followed by `/authorized_keys` |
| SshPaths.KeyFileContent | add-user.go:143 | the content is one character longer than the key and ends with a newline |
| SshPaths.SshDirRoundTrip | add-user.go:136-137 | the user name can be read back from the key directory path |
| SshPaths.SshDirInjective | add-user.go:136-137 | two users never share a key directory |
| SshPaths.KeyFileContentRoundTrip | add-user.go:143 | dropping the final newline of the content gives back the key |
| SshPaths.KeyFileUnderHome | add-user.go:136-138 | the key file lies under the user's home directory |
| Provision.ErrorText | add-user.go:119-158 | `err.Error()`: the message of a failed outcome, `executable file not found in $PATH` for a missing program; `NotFoundTriggersFallback` and `Reported` use it |
| Provision.FallbackApplies | add-user.go:117-119 | the `adduser` fallback is chosen when `useradd` failed and its error text contains "executable file not found"; `NotFoundTriggersFallback` and `FallbackOnlyWhenMissing` state its effect |
| Provision.Handled | add-user.go:116-159 | a step lets the run go on when it succeeded, or, for `useradd` only, when the fallback applies; `RunStepsSucceeds` and `StopsAtFirstFailure` state its role |
| Provision.Reported | add-user.go:122-158 | the error a failing step returns: the password and id errors are wrapped with the user name (add-user.go:132, :150), every other error is returned as it is; `FailureIsLastStep` ties it to the failing step |
| Provision.AccountSteps | add-user.go:116-127 | `useradd`, followed by `adduser` exactly when the fallback applies; `FallbackTried` and `FallbackNotTried` state it |
| Provision.KeySteps | add-user.go:129-145 | password, key directory with 0700, key file with the key and a newline at 0400, in that order; `SetPasswordAndWriteKey` is proved to run them |
| Provision.OwnershipSteps | add-user.go:147-159 | id lookup, then ownership of the directory and of the key file; `ChownToUser` is proved to run them |
| Provision.SetupSteps | add-user.go:129-159 | the six steps after account creation: password, key directory, key file, id lookup, ownership of the directory, then of the file; `ProvisionSucceeds` states that they are the last six steps of a successful run |
| Provision.Plan | add-user.go:116-161 | the account steps followed by the six setup steps; `ProvisionSucceeds` states that a successful run performs all of them, the setup steps last |
| Provision.RunSteps | add-user.go:116-161 | the state machine: perform the steps in order and stop at the first one that is not handled, returning its error; `RunStepsPrefix`, `RunStepsSucceeds`, `StopsAtFirstFailure` and `FailureIsLastStep` state its behaviour |
| Provision.Provision | add-user.go:108-162 | the run of the whole plan; `ProvisionSucceeds`, the fallback lemmas and `CreateUserAndSetupSsh` are about it |
| Provision.RunStepsPrefix | add-user.go:116-161 | a run performs a prefix of the planned steps, and at least one step when it fails |
| Provision.RunStepsSucceeds | add-user.go:116-161 | a run succeeds exactly when every planned step is handled, and then it performed all of them |
| Provision.StopsAtFirstFailure | add-user.go:116-161 | the first failing step ends the run: the steps up to it are performed, none after, and its error is returned |
| Provision.FailureIsLastStep | add-user.go:116-161 | in a failed run the last step performed failed, every earlier one was handled, and the error is that step's |
| Provision.RunStepsFailedPrefix | add-user.go:116-127 | a failure among the first steps means no later step is reached |
| Provision.RunStepsAppend | add-user.go:116-161 | a run through the account steps goes on with the setup steps |
| Provision.NotFoundTriggersFallback | add-user.go:119 | a missing `useradd` program always selects the `adduser` fallback |
| Provision.ProvisionSucceeds | add-user.go:116-161 | success exactly when every planned step is handled; then the last six steps are, in order: password, mkdir of the key directory with 0700, write of key plus newline with 0400, id lookup, chown of the directory, chown of the file |
| Provision.UserAddErrorReturned | add-user.go:116-126 | a `useradd` error without "executable file not found" is returned unchanged, and nothing else runs |
| Provision.FallbackErrorReturned | add-user.go:119-123 | when the fallback is tried and `adduser` fails, its error is returned, and nothing else runs |
| Provision.FallbackTried | add-user.go:116-120 | a `useradd` error that mentions a missing executable is followed by the `adduser` step |
| Provision.FallbackNotTried | add-user.go:116-127 | any other `useradd` outcome leaves `adduser` out of the run |
| Provision.FallbackOnlyWhenMissing | add-user.go:116-127 | `adduser` is run exactly when `useradd` failed with an error text containing "executable file not found" |
| Provision.AllStepsSucceed | add-user.go:116-161 | when every step succeeds, `useradd` alone creates the account and every setup step runs |
| Provision.CreateAccount | add-user.go:116-127 | the `useradd`/`adduser` code with its early returns; its steps and error are those of the state machine on the account steps |
| Provision.SetPasswordAndWriteKey | add-user.go:129-145 | the password, directory and key-file code with its early returns; its steps and error are those of the state machine on these three steps (the password error wrapped with the user name) |
| Provision.ChownToUser | add-user.go:147-161 | the id lookup and the two ownership changes with their early returns; its steps and error are those of the state machine on these three steps (the id error wrapped with the user name) |
| Provision.CreateUserAndSetupSsh | add-user.go:108-162 | the whole function; its steps and error are those of the state machine on the full plan |
| MainFlow.Performed | add-user.go:49 | provisioning steps appear as events one for one, in order |
| MainFlow.AfterDownload | add-user.go:41-55 | the roster read, then the miss report, or the provisioning events and their report; `MissingUserReported`, `SuccessReported` and `FoundUserBody` state its outcomes |
| MainFlow.AddUserProgram | add-user.go:18-56 | `main` as a whole: usage, download, then the body with the removal last; `RunMain` is proved equal to it and the `MainFlow` lemmas state its properties |
| MainFlow.LookUpAndProvision | add-user.go:41-55 | the lookup and provisioning with their early returns: the roster read, then either the miss report or the performed steps and their report |
| MainFlow.MainBody | add-user.go:18-56 | `main`'s returns produce the specified events and report; the removal is armed exactly when there is a user name and the download succeeded |
| MainFlow.RunMain | add-user.go:18-56 | with the deferred removal run after any return once armed, `main`'s events and report are exactly those of `AddUserProgram` |
| MainFlow.UsageDoesNothing | add-user.go:20-23 | with fewer than two arguments, only the usage report; there is no event at all |
| MainFlow.ExtraArgumentsIgnored | add-user.go:20-24 | arguments after the user name do not change anything |
| MainFlow.DownloadComesFirst | add-user.go:20-31 | there are events exactly when a user name is given, and the first one is the download |
| MainFlow.RemovalAfterSuccessfulDownload | add-user.go:27-53 | the roster is removed exactly when the download succeeded, and then the removal is the last event on every path (miss, setup failure, success) |
| MainFlow.DownloadFailureStops | add-user.go:27-31 | a failed download is reported, and nothing is read, performed or removed after it |
| MainFlow.MissingUserReported | add-user.go:42-46 | with no qualifying line, the program reports the user missing, runs no step and still removes the roster |
| MainFlow.SuccessReported | add-user.go:42-55 | success is reported exactly when the download worked, the key was found and every provisioning step was handled |
| MainFlow.FoundUserBody | add-user.go:41-55 | after the download, a found user in an environment where every step succeeds gets the roster read, `useradd` and all setup steps, and success |
| MainFlow.FoundUserProvisioned | add-user.go:18-55 | the same run seen from `main`: download first, the removal last, success reported |
| SshPaths.AlicePaths | add-user.go:136-138 | alice's key directory is `/home/alice/.ssh` and her key file is `/home/alice/.ssh/authorized_keys` |
| MainFlow.AliceFound | add-user.go:91-96 | for a key without `;`, the line `alice;;;ignored;;;<key>` gives alice's key |
| MainFlow.ProvisionAlice | add-user.go:18-161 | for alice, a key without `;` and every step succeeding: the key plus newline is written to her key file with 0400, both paths are given to her ids, the roster is removed last, and success is reported |

## Left out

- The HTTPS download and its TLS settings (add-user.go:59-79) are network I/O. The model has only their outcome, `World.download`.
- Processes run with `exec.Command`, and `os.Mkdir`, `os.WriteFile`, `os.Chown` and `os.Remove`, are abstract steps. The environment decides each step's outcome. Permission bits and ownership appear only as values carried by the steps; there is no file-system state.
- Go's error for a missing program reads `exec: "<program>": executable file not found in $PATH`. The model's text for `NotFound` drops the `exec: "<program>": ` prefix for every program: `useradd`, `adduser`, `sh` and `id`. So a returned error such as `exec: "adduser": executable file not found in $PATH`, or the password error wrapping `exec: "sh": …` (add-user.go:132), lacks that prefix in the model. The fallback test looks for a substring, so the prefix does not change its result.
- The `bufio.Scanner` internals are left out: line splitting, `\r\n` handling and the 64 KiB token limit. The roster is the sequence of lines the scanner delivers. If a read error occurs, the scan sees only the lines before the error. The `scanner.Err()` branch (add-user.go:101-103) only prints, so the result there is still `("", false)`.
- The fixed default password and the shell quoting of the `chpasswd` command (add-user.go:129-130) are strings handed to a shell. The step is `SetPassword(user)`.
- `getUserIDs` (add-user.go:164-190) is the single step `ResolveIds`: two `id` runs, `strings.TrimSpace`, `strconv.Atoi` and the reused output buffer. Its uid and gid are environment values, used only when the step succeeds.
- All printed messages are left out, including the message about the roster removal's own outcome. That outcome affects nothing else.
- GoStrings.Split: requires a non-empty separator. Go's split into single characters for an empty separator is not modelled, because the program only uses `;;;`.
- Strings are sequences of characters, while Go compares UTF-8 bytes. The model does not capture that difference.
- The process exit status is not modelled. The Go program always returns normally from `main`.
