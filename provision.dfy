/** `createUserAndSetupSSH` of add-user.go over abstract effects: each
    external step (a process run, a directory or file written, an ownership
    change) is named by a `Step` and the environment says how it ends. The
    steps run in a fixed order and the first failure ends the run. */
module Provision {
  import opened Wrappers
  import opened GoStrings
  import opened SshPaths

  /** How an external step ends: success, the program to run is not
      installed, or any other error with its text. */
  datatype Outcome = Ok | NotFound | Err(msg: string)

  /** The text of Go's error for a program that is not on the search path. */
  const ExecNotFoundText: string := "executable file not found in $PATH"

  /** The phrase whose presence in the `useradd` error selects `adduser`. */
  const FallbackTrigger: string := "executable file not found"

  /** The text of a failed step's error. */
  function ErrorText(o: Outcome): string {
    match o
    case Ok => ""
    case NotFound => ExecNotFoundText
    case Err(msg) => msg
  }

  /** `useradd` failed in a way that makes the program try `adduser -D`. */
  predicate FallbackApplies(o: Outcome) {
    o != Ok && Contains(ErrorText(o), FallbackTrigger)
  }

  /** The external effects of provisioning, with their arguments. */
  datatype Step =
    | UserAdd(user: string)                                // useradd -m <user>
    | AddUser(user: string)                                // adduser -D <user>
    | SetPassword(user: string)                            // echo '<user>:<password>' | chpasswd
    | MakeDir(path: string, mode: nat)                     // os.Mkdir
    | WriteFile(path: string, content: string, mode: nat)  // os.WriteFile
    | ResolveIds(user: string)                             // id -u <user>, id -g <user>
    | Chown(path: string, uid: int, gid: int)              // os.Chown

  /** The world the steps run in: the outcome of every step, and the numeric
      ids `ResolveIds` yields when it succeeds. */
  datatype Env = Env(outcome: Step -> Outcome, uid: int, gid: int)

  /** What a run did: the steps it performed, in order, and the error it
      returned (None for Go's nil). */
  datatype Run = Run(trace: seq<Step>, err: Option<string>)

  /** A step after which the run goes on: it succeeded, or it is the
      `useradd` whose failure hands over to `adduser`. */
  predicate Handled(env: Env, s: Step) {
    match s
    case UserAdd(_) => env.outcome(s) == Ok || FallbackApplies(env.outcome(s))
    case _ => env.outcome(s) == Ok
  }

  /** The error returned when step `s` fails with `o`: the password and id
      steps wrap it with the user name, the others return it unchanged. */
  function Reported(s: Step, o: Outcome): string {
    match s
    case SetPassword(u) => "failed to set password for user " + u + ": " + ErrorText(o)
    case ResolveIds(u) => "failed to get UID and GID for user " + u + ": " + ErrorText(o)
    case _ => ErrorText(o)
  }

  /** Account creation: `useradd`, then `adduser` only if `useradd` is absent. */
  function AccountSteps(username: string, env: Env): seq<Step> {
    if FallbackApplies(env.outcome(UserAdd(username))) then [UserAdd(username), AddUser(username)]
    else [UserAdd(username)]
  }

  /** The password, then the key directory and the key file. */
  function KeySteps(username: string, key: string): seq<Step> {
    [ SetPassword(username),
      MakeDir(SshDir(username), SshDirMode),
      WriteFile(AuthorizedKeysPath(username), KeyFileContent(key), KeyFileMode) ]
  }

  /** The id lookup, then the ownership changes of the directory and the file. */
  function OwnershipSteps(username: string, uid: int, gid: int): seq<Step> {
    [ ResolveIds(username),
      Chown(SshDir(username), uid, gid),
      Chown(AuthorizedKeysPath(username), uid, gid) ]
  }

  /** Everything after the account exists, in the order of add-user.go. */
  function SetupSteps(username: string, key: string, uid: int, gid: int): seq<Step> {
    KeySteps(username, key) + OwnershipSteps(username, uid, gid)
  }

  /** The steps a provisioning run attempts when nothing goes wrong. */
  function Plan(username: string, key: string, env: Env): seq<Step> {
    AccountSteps(username, env) + SetupSteps(username, key, env.uid, env.gid)
  }

  /** The state machine: perform the steps in order and stop at the first one
      that is not handled, returning its reported error. */
  function RunSteps(steps: seq<Step>, env: Env): Run
  {
    if steps == [] then Run([], None)
    else if Handled(env, steps[0]) then
      var r := RunSteps(steps[1..], env);
      Run([steps[0]] + r.trace, r.err)
    else Run([steps[0]], Some(Reported(steps[0], env.outcome(steps[0]))))
  }

  /** A run performs a prefix of its steps, at least one if it fails. */
  lemma {:induction false} RunStepsPrefix(steps: seq<Step>, env: Env)
    ensures var r := RunSteps(steps, env);
      && |r.trace| <= |steps| && r.trace == steps[..|r.trace|]
      && (r.err.Some? ==> |r.trace| >= 1)
  {
    if steps != [] && Handled(env, steps[0]) {
      RunStepsPrefix(steps[1..], env);
    }
  }

  /** A run succeeds exactly when each of its steps is handled, and then it
      has performed all of them. */
  lemma {:induction false} RunStepsSucceeds(steps: seq<Step>, env: Env)
    ensures var r := RunSteps(steps, env);
      && (r.err.None? <==> forall k :: 0 <= k < |steps| ==> Handled(env, steps[k]))
      && (r.err.None? ==> r.trace == steps)
  {
    if steps != [] && Handled(env, steps[0]) {
      RunStepsSucceeds(steps[1..], env);
      assert forall k :: 1 <= k < |steps| ==> steps[k] == steps[1..][k - 1];
    }
  }

  /** The run of `createUserAndSetupSSH` for `username` and `key`. */
  function Provision(username: string, key: string, env: Env): Run {
    RunSteps(Plan(username, key, env), env)
  }

  /** The run of `steps` that already performed `done` and has `rest` to go. */
  ghost predicate Resumes(steps: seq<Step>, done: seq<Step>, rest: seq<Step>, env: Env) {
    var r := RunSteps(rest, env);
    RunSteps(steps, env) == Run(done + r.trace, r.err)
  }

  /** One transition of the state machine. */
  lemma RunStepsStep(steps: seq<Step>, env: Env)
    requires steps != []
    ensures var r := RunSteps(steps[1..], env);
      RunSteps(steps, env)
        == if Handled(env, steps[0]) then Run([steps[0]] + r.trace, r.err)
           else Run([steps[0]], Some(Reported(steps[0], env.outcome(steps[0]))))
  {
  }

  /** The first step that is not handled ends the run with its error, and no
      later step is performed. */
  lemma {:induction false} StopsAtFirstFailure(steps: seq<Step>, env: Env, k: nat)
    requires k < |steps| && !Handled(env, steps[k])
    requires forall j :: 0 <= j < k ==> Handled(env, steps[j])
    ensures RunSteps(steps, env) == Run(steps[..k + 1], Some(Reported(steps[k], env.outcome(steps[k]))))
  {
    RunStepsStep(steps, env);
    if k > 0 {
      var tail := steps[1..];
      assert Handled(env, steps[0]);
      forall j | 0 <= j < k - 1
        ensures Handled(env, tail[j])
      {
        assert tail[j] == steps[j + 1];
      }
      StopsAtFirstFailure(tail, env, k - 1);
      assert [steps[0]] + tail[..k] == steps[..k + 1];
    }
  }

  /** A failed run ends with the step that failed, every step before it was
      handled, and the error is that step's. */
  lemma {:induction false} FailureIsLastStep(steps: seq<Step>, env: Env)
    requires RunSteps(steps, env).err.Some?
    ensures var r := RunSteps(steps, env);
      var last := r.trace[|r.trace| - 1];
      && !Handled(env, last)
      && r.err == Some(Reported(last, env.outcome(last)))
      && forall j :: 0 <= j < |r.trace| - 1 ==> Handled(env, r.trace[j])
  {
    if Handled(env, steps[0]) {
      var rest := RunSteps(steps[1..], env);
      FailureIsLastStep(steps[1..], env);
      var r := RunSteps(steps, env);
      assert r.trace == [steps[0]] + rest.trace;
      assert forall j :: 1 <= j < |r.trace| ==> r.trace[j] == rest.trace[j - 1];
    }
  }

  /** The `useradd` error text contains the trigger phrase whenever the
      program is missing. */
  lemma NotFoundTriggersFallback()
    ensures FallbackApplies(NotFound)
  {
    assert ExecNotFoundText == FallbackTrigger + " in $PATH";
    ContainsInfix("", FallbackTrigger, " in $PATH");
    assert "" + FallbackTrigger + " in $PATH" == ExecNotFoundText;
  }

  /** Provisioning succeeds exactly when every planned step is handled, and
      then it has made the key directory (0700), written the key and a
      newline to `authorized_keys` (0400), and given both to the user's ids,
      in that order, as its last steps. */
  lemma ProvisionSucceeds(username: string, key: string, env: Env)
    ensures var r := Provision(username, key, env);
      var plan := Plan(username, key, env);
      && (r.err.None? <==> forall k :: 0 <= k < |plan| ==> Handled(env, plan[k]))
      && (r.err.None? ==>
            r.trace == plan && r.trace[|r.trace| - 6..] == SetupSteps(username, key, env.uid, env.gid))
  {
    var plan := Plan(username, key, env);
    RunStepsSucceeds(plan, env);
    assert plan[|plan| - 6..] == SetupSteps(username, key, env.uid, env.gid);
  }

  /** Any `useradd` error without the trigger phrase is returned unchanged and
      nothing else runs. */
  lemma UserAddErrorReturned(username: string, key: string, env: Env)
    requires env.outcome(UserAdd(username)) != Ok
    requires !Contains(ErrorText(env.outcome(UserAdd(username))), FallbackTrigger)
    ensures Provision(username, key, env)
         == Run([UserAdd(username)], Some(ErrorText(env.outcome(UserAdd(username)))))
  {
    var plan := Plan(username, key, env);
    assert plan[0] == UserAdd(username);
    StopsAtFirstFailure(plan, env, 0);
    assert plan[..1] == [UserAdd(username)];
  }

  /** When `useradd` is missing and `adduser` then fails, the `adduser` error
      is returned and nothing else runs. */
  lemma FallbackErrorReturned(username: string, key: string, env: Env)
    requires FallbackApplies(env.outcome(UserAdd(username)))
    requires env.outcome(AddUser(username)) != Ok
    ensures Provision(username, key, env)
         == Run([UserAdd(username), AddUser(username)], Some(ErrorText(env.outcome(AddUser(username)))))
  {
    var plan := Plan(username, key, env);
    assert plan[0] == UserAdd(username) && plan[1] == AddUser(username);
    StopsAtFirstFailure(plan, env, 1);
    assert plan[..2] == [UserAdd(username), AddUser(username)];
  }

  /** A `useradd` error that mentions a missing executable makes the run go
      on with `adduser`. */
  lemma FallbackTried(username: string, key: string, env: Env)
    requires FallbackApplies(env.outcome(UserAdd(username)))
    ensures var r := Provision(username, key, env);
      |r.trace| >= 2 && r.trace[1] == AddUser(username)
  {
    var plan := Plan(username, key, env);
    assert plan[0] == UserAdd(username) && Handled(env, plan[0]);
    RunStepsStep(plan, env);
    var tail := plan[1..];
    assert tail[0] == AddUser(username);
    RunStepsStep(tail, env);
  }

  /** Without that mention the plan holds no `adduser` step, so none is run. */
  lemma FallbackNotTried(username: string, key: string, env: Env)
    requires !FallbackApplies(env.outcome(UserAdd(username)))
    ensures AddUser(username) !in Provision(username, key, env).trace
  {
    var plan := Plan(username, key, env);
    var r := Provision(username, key, env);
    assert plan == [UserAdd(username)] + SetupSteps(username, key, env.uid, env.gid);
    assert AddUser(username) !in plan;
    RunStepsPrefix(plan, env);
    assert r.trace == plan[..|r.trace|];
  }

  /** `adduser` is tried exactly when the `useradd` error mentions a missing
      executable. */
  lemma FallbackOnlyWhenMissing(username: string, key: string, env: Env)
    ensures AddUser(username) in Provision(username, key, env).trace
        <==> FallbackApplies(env.outcome(UserAdd(username)))
  {
    if FallbackApplies(env.outcome(UserAdd(username))) {
      FallbackTried(username, key, env);
    } else {
      FallbackNotTried(username, key, env);
    }
  }

  /** The state machine moves past a handled step. */
  lemma Advance(steps: seq<Step>, done: seq<Step>, rest: seq<Step>, env: Env)
    requires Resumes(steps, done, rest, env)
    requires rest != [] && Handled(env, rest[0])
    ensures Resumes(steps, done + [rest[0]], rest[1..], env)
  {
    RunStepsStep(rest, env);
    var r := RunSteps(rest[1..], env);
    assert done + ([rest[0]] + r.trace) == (done + [rest[0]]) + r.trace;
  }

  /** The state machine stops at a step that is not handled. */
  lemma Stop(steps: seq<Step>, done: seq<Step>, rest: seq<Step>, env: Env)
    requires Resumes(steps, done, rest, env)
    requires rest != [] && !Handled(env, rest[0])
    ensures RunSteps(steps, env) == Run(done + [rest[0]], Some(Reported(rest[0], env.outcome(rest[0]))))
  {
    RunStepsStep(rest, env);
  }

  /** The state machine at the end of its steps. */
  lemma Finish(steps: seq<Step>, done: seq<Step>, env: Env)
    requires Resumes(steps, done, [], env)
    ensures RunSteps(steps, env) == Run(done, None)
  {
    assert done + [] == done;
  }

  /** A run that gets through `first` goes on with `second`. */
  lemma {:induction false} RunStepsAppend(first: seq<Step>, second: seq<Step>, env: Env)
    requires RunSteps(first, env).err.None?
    ensures RunSteps(first + second, env)
         == Run(first + RunSteps(second, env).trace, RunSteps(second, env).err)
  {
    var tail := RunSteps(second, env);
    if first == [] {
      assert first + second == second;
    } else {
      var all := first + second;
      assert Handled(env, first[0]);
      assert all[0] == first[0];
      assert all[1..] == first[1..] + second;
      RunStepsAppend(first[1..], second, env);
      assert [first[0]] + (first[1..] + tail.trace) == first + tail.trace;
    }
  }

  /** A run that fails within `first` never reaches `second`. */
  lemma {:induction false} RunStepsFailedPrefix(first: seq<Step>, second: seq<Step>, env: Env)
    requires RunSteps(first, env).err.Some?
    ensures RunSteps(first + second, env) == RunSteps(first, env)
  {
    assert (first + second)[0] == first[0];
    if Handled(env, first[0]) {
      assert (first + second)[1..] == first[1..] + second;
      RunStepsFailedPrefix(first[1..], second, env);
    }
  }

  /** When every step succeeds, `useradd` alone creates the account and all
      the setup steps run. */
  lemma AllStepsSucceed(username: string, key: string, env: Env)
    requires forall s :: env.outcome(s) == Ok
    ensures Provision(username, key, env)
         == Run([UserAdd(username)] + SetupSteps(username, key, env.uid, env.gid), None)
  {
    var plan := Plan(username, key, env);
    assert plan == [UserAdd(username)] + SetupSteps(username, key, env.uid, env.gid);
    RunStepsSucceeds(plan, env);
  }

  /** Account creation, add-user.go's `useradd` call and its `adduser`
      fallback. */
  method CreateAccount(username: string, env: Env) returns (trace: seq<Step>, err: Option<string>)
    ensures Run(trace, err) == RunSteps(AccountSteps(username, env), env)
  {
    trace := [UserAdd(username)];
    var o := env.outcome(UserAdd(username));
    if o != Ok {
      if Contains(ErrorText(o), FallbackTrigger) {
        trace := trace + [AddUser(username)];
        o := env.outcome(AddUser(username));
        if o != Ok {
          return trace, Some(ErrorText(o));
        }
      } else {
        return trace, Some(ErrorText(o));
      }
    }
    ghost var steps := AccountSteps(username, env);
    RunStepsStep(steps, env);
    if |steps| == 2 {
      RunStepsStep(steps[1..], env);
      assert steps[1..][1..] == [];
    }
    return trace, None;
  }

  /** add-user.go's password, directory and key-file code, with an early
      return on the first error. */
  method SetPasswordAndWriteKey(username: string, publicKey: string, env: Env)
    returns (trace: seq<Step>, err: Option<string>)
    ensures Run(trace, err) == RunSteps(KeySteps(username, publicKey), env)
  {
    ghost var steps := KeySteps(username, publicKey);
    ghost var rest := steps;
    trace := [];
    assert Resumes(steps, trace, rest, env);

    var o := env.outcome(SetPassword(username));
    if o != Ok {
      Stop(steps, trace, rest, env);
      return trace + [SetPassword(username)],
        Some("failed to set password for user " + username + ": " + ErrorText(o));
    }
    Advance(steps, trace, rest, env);
    trace, rest := trace + [SetPassword(username)], rest[1..];

    var sshDir := SshDir(username);
    var authKeysFile := AuthorizedKeysPath(username);

    assert rest[0] == MakeDir(sshDir, SshDirMode);
    o := env.outcome(MakeDir(sshDir, SshDirMode));
    if o != Ok {
      Stop(steps, trace, rest, env);
      return trace + [MakeDir(sshDir, SshDirMode)], Some(ErrorText(o));
    }
    Advance(steps, trace, rest, env);
    trace, rest := trace + [MakeDir(sshDir, SshDirMode)], rest[1..];

    assert rest[0] == WriteFile(authKeysFile, KeyFileContent(publicKey), KeyFileMode);
    o := env.outcome(WriteFile(authKeysFile, KeyFileContent(publicKey), KeyFileMode));
    if o != Ok {
      Stop(steps, trace, rest, env);
      return trace + [WriteFile(authKeysFile, KeyFileContent(publicKey), KeyFileMode)], Some(ErrorText(o));
    }
    Advance(steps, trace, rest, env);
    trace, rest := trace + [WriteFile(authKeysFile, KeyFileContent(publicKey), KeyFileMode)], rest[1..];
    assert rest == [];
    Finish(steps, trace, env);
    return trace, None;
  }

  /** add-user.go's id lookup and ownership changes, with an early return on
      the first error. */
  method ChownToUser(username: string, env: Env) returns (trace: seq<Step>, err: Option<string>)
    ensures Run(trace, err) == RunSteps(OwnershipSteps(username, env.uid, env.gid), env)
  {
    ghost var steps := OwnershipSteps(username, env.uid, env.gid);
    ghost var rest := steps;
    trace := [];
    assert Resumes(steps, trace, rest, env);

    var o := env.outcome(ResolveIds(username));
    if o != Ok {
      Stop(steps, trace, rest, env);
      return trace + [ResolveIds(username)],
        Some("failed to get UID and GID for user " + username + ": " + ErrorText(o));
    }
    var uid, gid := env.uid, env.gid;
    Advance(steps, trace, rest, env);
    trace, rest := trace + [ResolveIds(username)], rest[1..];

    var sshDir := SshDir(username);
    var authKeysFile := AuthorizedKeysPath(username);

    assert rest[0] == Chown(sshDir, uid, gid);
    o := env.outcome(Chown(sshDir, uid, gid));
    if o != Ok {
      Stop(steps, trace, rest, env);
      return trace + [Chown(sshDir, uid, gid)], Some(ErrorText(o));
    }
    Advance(steps, trace, rest, env);
    trace, rest := trace + [Chown(sshDir, uid, gid)], rest[1..];

    assert rest[0] == Chown(authKeysFile, uid, gid);
    o := env.outcome(Chown(authKeysFile, uid, gid));
    if o != Ok {
      Stop(steps, trace, rest, env);
      return trace + [Chown(authKeysFile, uid, gid)], Some(ErrorText(o));
    }
    Advance(steps, trace, rest, env);
    trace, rest := trace + [Chown(authKeysFile, uid, gid)], rest[1..];
    assert rest == [];
    Finish(steps, trace, env);
    return trace, None;
  }

  /** `createUserAndSetupSSH`: create the account, set the password, install
      the key and hand it over; the first error is returned. */
  method CreateUserAndSetupSsh(username: string, publicKey: string, env: Env)
    returns (trace: seq<Step>, err: Option<string>)
    ensures Run(trace, err) == Provision(username, publicKey, env)
  {
    ghost var account := AccountSteps(username, env);
    ghost var keys := KeySteps(username, publicKey);
    ghost var owner := OwnershipSteps(username, env.uid, env.gid);
    assert Plan(username, publicKey, env) == account + (keys + owner);

    trace, err := CreateAccount(username, env);
    if err.Some? {
      RunStepsFailedPrefix(account, keys + owner, env);
      return;
    }
    RunStepsSucceeds(account, env);
    RunStepsAppend(account, keys + owner, env);

    var more;
    more, err := SetPasswordAndWriteKey(username, publicKey, env);
    if err.Some? {
      RunStepsFailedPrefix(keys, owner, env);
      return trace + more, err;
    }
    RunStepsSucceeds(keys, env);
    RunStepsAppend(keys, owner, env);
    assert trace + (more + RunSteps(owner, env).trace) == (trace + more) + RunSteps(owner, env).trace;
    trace := trace + more;

    more, err := ChownToUser(username, env);
    trace := trace + more;
  }
}
