/** The control flow of add-user.go's `main` over abstract outcomes: the
    usage check, the download of the roster, the deferred removal of the
    roster file, the lookup and the provisioning. */
module MainFlow {
  import opened Wrappers
  import opened GoStrings
  import opened SshPaths
  import opened Roster
  import opened Provision

  /** The fixed local name of the downloaded roster. */
  const RosterPath: string := "Pub-keys-users.txt"

  /** What `main` does to the outside world, in order. */
  datatype Event =
    | Download(path: string)        // fetch the roster into `path`
    | ReadRoster(path: string)      // open and scan the roster
    | Perform(step: Step)           // one provisioning step
    | RemoveRoster(path: string)    // the deferred os.Remove

  /** The terminal message `main` prints. */
  datatype Report =
    | Usage                         // "Usage: add-user <username>"
    | DownloadFailed(err: string)   // "Error downloading the file: ..."
    | UserNotFound                  // "User not found. ..."
    | SetupFailed(err: string)      // "Error setting up user: ..."
    | SetupSucceeded                // "User setup successfully."

  /** The world `main` runs in: how the download ends, what the downloaded
      roster reads as, and the provisioning environment. */
  datatype World = World(download: Outcome, roster: RosterFile, env: Env)

  /** What a run of the program did. */
  datatype Execution = Execution(events: seq<Event>, report: Report)

  /** Provisioning steps as events. */
  function Performed(trace: seq<Step>): (events: seq<Event>)
    ensures |events| == |trace|
    ensures forall k :: 0 <= k < |trace| ==> events[k] == Perform(trace[k])
  {
    if trace == [] then [] else [Perform(trace[0])] + Performed(trace[1..])
  }

  /** What happens between arming the removal and leaving `main`. */
  function AfterDownload(username: string, w: World): Execution {
    var found := Search(w.roster, username);
    if !found.found then Execution([ReadRoster(RosterPath)], UserNotFound)
    else
      var run := Provision.Provision(username, found.key, w.env);
      Execution([ReadRoster(RosterPath)] + Performed(run.trace),
                if run.err.Some? then SetupFailed(run.err.value) else SetupSucceeded)
  }

  /** The program run on `args` (the command line, program name first). */
  function AddUserProgram(args: seq<string>, w: World): Execution {
    if |args| < 2 then Execution([], Usage)
    else if w.download != Ok then Execution([Download(RosterPath)], DownloadFailed(ErrorText(w.download)))
    else
      var body := AfterDownload(args[1], w);
      Execution([Download(RosterPath)] + body.events + [RemoveRoster(RosterPath)], body.report)
  }

  /** The part of `main` after the removal is armed: the lookup and the
      provisioning, with their early returns. */
  method LookUpAndProvision(username: string, w: World) returns (events: seq<Event>, report: Report)
    ensures Execution(events, report) == AfterDownload(username, w)
  {
    events := [ReadRoster(RosterPath)];
    var publicKey, found := SearchUserAndGetPublicKey(w.roster, username);
    if !found {
      return events, UserNotFound;
    }

    var trace, err := CreateUserAndSetupSsh(username, publicKey, w.env);
    events := events + Performed(trace);
    if err.Some? {
      return events, SetupFailed(err.value);
    }
    return events, SetupSucceeded;
  }

  /** `main` up to its exit, with its early returns; `armed` says whether the
      deferred removal was registered. */
  method MainBody(args: seq<string>, w: World)
    returns (events: seq<Event>, report: Report, armed: bool)
    ensures armed <==> |args| >= 2 && w.download == Ok
    ensures Execution(events + (if armed then [RemoveRoster(RosterPath)] else []), report)
         == AddUserProgram(args, w)
  {
    events, armed := [], false;
    if |args| < 2 {
      return events, Usage, armed;
    }
    var username := args[1];

    events := events + [Download(RosterPath)];
    if w.download != Ok {
      return events, DownloadFailed(ErrorText(w.download)), armed;
    }
    armed := true;

    var more;
    more, report := LookUpAndProvision(username, w);
    events := events + more;
  }

  /** `main`, with Go's `defer`: once armed, the removal runs on whichever
      path `main` leaves by. */
  method RunMain(args: seq<string>, w: World) returns (events: seq<Event>, report: Report)
    ensures Execution(events, report) == AddUserProgram(args, w)
  {
    var armed;
    events, report, armed := MainBody(args, w);
    if armed {
      events := events + [RemoveRoster(RosterPath)];
    }
  }

  /** Without a user name the program prints its usage and does nothing
      else: no download, no removal, no step. */
  lemma UsageDoesNothing(args: seq<string>, w: World)
    requires |args| < 2
    ensures AddUserProgram(args, w) == Execution([], Usage)
  {
  }

  /** Arguments after the user name are ignored. */
  lemma ExtraArgumentsIgnored(args: seq<string>, w: World)
    requires |args| >= 2
    ensures AddUserProgram(args, w) == AddUserProgram(args[..2], w)
  {
  }

  /** The download is the first thing the program does, and only after the
      usage check passed. */
  lemma DownloadComesFirst(args: seq<string>, w: World)
    ensures var e := AddUserProgram(args, w).events;
      e != [] <==> |args| >= 2
    ensures var e := AddUserProgram(args, w).events;
      e != [] ==> e[0] == Download(RosterPath)
  {
  }

  /** The roster is removed exactly when the download succeeded, and then the
      removal is the last event, whatever the lookup and the provisioning did. */
  lemma RemovalAfterSuccessfulDownload(args: seq<string>, w: World)
    ensures var e := AddUserProgram(args, w).events;
      RemoveRoster(RosterPath) in e <==> |args| >= 2 && w.download == Ok
    ensures var e := AddUserProgram(args, w).events;
      |args| >= 2 && w.download == Ok ==> e[|e| - 1] == RemoveRoster(RosterPath)
  {
    if |args| >= 2 && w.download == Ok {
      var body := AfterDownload(args[1], w);
      assert RemoveRoster(RosterPath) !in body.events by {
        var found := Search(w.roster, args[1]);
        if found.found {
          var run := Provision.Provision(args[1], found.key, w.env);
          assert forall k :: 0 <= k < |Performed(run.trace)| ==> Performed(run.trace)[k].Perform?;
        }
      }
    }
  }

  /** A failed download performs nothing after it and removes nothing. */
  lemma DownloadFailureStops(args: seq<string>, w: World)
    requires |args| >= 2 && w.download != Ok
    ensures AddUserProgram(args, w)
         == Execution([Download(RosterPath)], DownloadFailed(ErrorText(w.download)))
  {
  }

  /** A user missing from the roster is reported, no step is performed, and
      the roster is still removed. */
  lemma MissingUserReported(args: seq<string>, w: World)
    requires |args| >= 2 && w.download == Ok
    requires w.roster.Opened? ==>
               forall i :: 0 <= i < |w.roster.lines| ==> !Qualifies(w.roster.lines[i], args[1])
    ensures AddUserProgram(args, w)
         == Execution([Download(RosterPath), ReadRoster(RosterPath), RemoveRoster(RosterPath)], UserNotFound)
  {
    if w.roster.Opened? {
      LookupFoundIff(w.roster.lines, args[1]);
    }
  }

  /** The program reports success exactly when the download succeeded, the
      user was found and every provisioning step was handled; the key it
      installs is the one the lookup found. */
  lemma SuccessReported(args: seq<string>, w: World)
    ensures AddUserProgram(args, w).report == SetupSucceeded
        <==> |args| >= 2 && w.download == Ok && Search(w.roster, args[1]).found
             && Provision.Provision(args[1], Search(w.roster, args[1]).key, w.env).err.None?
  {
  }

  /** After the download, a user whose key is found, in an environment where
      every step succeeds, gets the roster read and the whole plan performed,
      and success is reported. */
  lemma FoundUserBody(username: string, roster: RosterFile, key: string, env: Env)
    requires Search(roster, username) == LookupResult(key, true)
    requires forall s :: env.outcome(s) == Ok
    ensures AfterDownload(username, World(Ok, roster, env))
         == Execution([ReadRoster(RosterPath)]
                      + Performed([UserAdd(username)] + SetupSteps(username, key, env.uid, env.gid)),
                      SetupSucceeded)
  {
    AllStepsSucceed(username, key, env);
  }

  /** A user whose key is found, in an environment where every step
      succeeds, gets the whole plan performed between the roster read and
      the roster removal, and success is reported. */
  lemma FoundUserProvisioned(args: seq<string>, roster: RosterFile, key: string, env: Env)
    requires |args| >= 2 && Search(roster, args[1]) == LookupResult(key, true)
    requires forall s :: env.outcome(s) == Ok
    ensures AddUserProgram(args, World(Ok, roster, env))
         == Execution([Download(RosterPath), ReadRoster(RosterPath)]
                      + Performed([UserAdd(args[1])] + SetupSteps(args[1], key, env.uid, env.gid))
                      + [RemoveRoster(RosterPath)],
                      SetupSucceeded)
  {
    var performed := Performed([UserAdd(args[1])] + SetupSteps(args[1], key, env.uid, env.gid));
    FoundUserBody(args[1], roster, key, env);
    assert [Download(RosterPath)] + ([ReadRoster(RosterPath)] + performed)
        == [Download(RosterPath), ReadRoster(RosterPath)] + performed;
  }

  /** The roster holds `alice;;;ignored;;;<key>`, the program is run for
      `alice` and every step succeeds: the same key, with a newline, is
      written to /home/alice/.ssh/authorized_keys with mode 0400, that file
      and the directory are given to alice's ids, the roster is removed and
      success is reported. */
  lemma ProvisionAlice(key: string, env: Env)
    requires ';' !in key
    requires forall s :: env.outcome(s) == Ok
    ensures var e := AddUserProgram(["add-user", "alice"],
                                    World(Ok, Opened(["alice;;;ignored;;;" + key]), env));
      && e.report == SetupSucceeded
      && Perform(WriteFile("/home/alice/.ssh/authorized_keys", key + "\n", KeyFileMode)) in e.events
      && Perform(Chown("/home/alice/.ssh", env.uid, env.gid)) in e.events
      && Perform(Chown("/home/alice/.ssh/authorized_keys", env.uid, env.gid)) in e.events
      && e.events[|e.events| - 1] == RemoveRoster(RosterPath)
  {
    var args := ["add-user", "alice"];
    var roster := Opened(["alice;;;ignored;;;" + key]);
    AliceFound(key);
    FoundUserProvisioned(args, roster, key, env);
    AlicePaths();
    var setup := SetupSteps("alice", key, env.uid, env.gid);
    var performed := Performed([UserAdd("alice")] + setup);
    var e := [Download(RosterPath), ReadRoster(RosterPath)] + performed + [RemoveRoster(RosterPath)];
    assert e[5] == performed[3] == Perform(setup[2]);
    assert e[7] == performed[5] == Perform(setup[4]);
    assert e[8] == performed[6] == Perform(setup[5]);
  }

  /** alice's key is found on her roster line. */
  lemma AliceFound(key: string)
    requires ';' !in key
    ensures Search(Opened(["alice;;;ignored;;;" + key]), "alice") == LookupResult(key, true)
  {
    var line := "alice;;;ignored;;;" + key;
    assert line == "alice" + ";;;" + "ignored" + ";;;" + key;
    ContainsInfix("", "alice", ";;;ignored;;;" + key);
    assert "" + "alice" + (";;;ignored;;;" + key) == line;
    ThreeFieldLine("alice", "ignored", key, "alice");
  }
}
