/**
 * The session manager of ClaudeCodeCommandService.cs: the process session
 * (`EnsureProcessStarted`, `StopProcess`), the orchestration of one run
 * (`RunAsync`) and the modified-files set, as a state machine over the
 * service's fields.
 *
 * The specification functions take and give a `ServiceState`; the class
 * `CommandService` holds the same fields and each of its methods is proved to
 * change them exactly as the matching function says.
 */
module Session {
  import opened Wrappers
  import opened Text
  import opened Events
  import opened Faults
  import opened ResponseLoop

  /** `_process`: none, a `Process` object whose `Start` threw (so `HasExited`
      throws), or a started process and whether the system reports it exited. */
  datatype ProcessSlot =
    | NoProcess
    | Created(id: nat)
    | Running(id: nat, exited: bool)

  /** `_process != null && !_process.HasExited`, when that test does not throw. */
  predicate Live(p: ProcessSlot) {
    p.Running? && !p.exited
  }

  /** The service's fields. A handle field holds the identity of the process it
      belongs to; `launches` counts the `Process` objects created so far, so the next
      one gets a fresh identity; `killed` lists, in order, the processes that
      `StopProcess` found running and killed. */
  datatype ServiceState = ServiceState(
    process: ProcessSlot,
    stdin: Option<nat>,
    stdout: Option<nat>,
    stderr: Option<nat>,
    stderrPump: Option<nat>,
    workingDirectory: Option<string>,
    disposed: bool,
    modifiedFiles: set<string>,
    launches: nat,
    killed: seq<nat>)

  /** Process identities come from the counter, and a started process owns the
      stream handles and the stderr pump. */
  predicate Valid(s: ServiceState) {
    && (s.process.Created? ==> s.process.id < s.launches)
    && (s.process.Running? ==>
          (&& s.process.id < s.launches
           && s.stdin == Some(s.process.id) && s.stdout == Some(s.process.id)
           && s.stderr == Some(s.process.id) && s.stderrPump == Some(s.process.id)))
    && CaseDistinct(s.modifiedFiles)
  }

  const Initial := ServiceState(NoProcess, None, None, None, None, None, false, {}, 0, [])

  /** How a launch of `claude` goes: `WindowsCommandResolver.Resolve` throws the
      `ArgumentException` of `Path.Combine` (`Resolver.Resolution` is `None`), or it
      resolves a file name and `Process.Start` starts it or fails to find it. */
  datatype Launch = Launches | NotFound(details: string) | PathRejected

  /** What the environment decides during one `RunAsync`: the process's current
      directory, whether the caller's token cancels the wait for the run lock, and
      how a launch (if one is needed) goes. */
  datatype RunEnv = RunEnv(currentDirectory: string, lockWaitCanceled: bool, launch: Launch)

  /** How `RunAsync` ends: returns, throws, or is still awaiting output. */
  datatype Completion = Returned | Raised(fault: Fault) | Pending

  /** The request envelope written to the process's standard input. */
  datatype ContentPart = ContentPart(kind: string, text: string)
  datatype UserMessage = UserMessage(role: string, content: seq<ContentPart>)
  datatype Envelope = Envelope(kind: string, message: UserMessage)

  /** `{type:"user", message:{role:"user", content:[{type:"text", text:prompt}]}}`. */
  function UserEnvelope(prompt: string): (e: Envelope)
    ensures e.kind == "user" && e.message.role == "user"
    ensures |e.message.content| == 1 && e.message.content[0] == ContentPart("text", prompt)
  {
    Envelope("user", UserMessage("user", [ContentPart("text", prompt)]))
  }

  /** What one `RunAsync` produced: its completion, the envelope written (if it got
      that far) and the read loop's result (if the loop ran). */
  datatype RunReport = RunReport(outcome: Completion, request: Option<Envelope>, loop: Option<LoopResult>)

  /** `StopProcess`: a live process is killed (a dead one, or a `Process` object whose
      `HasExited` throws, is not); whatever the kill and the waits do, every process
      and stream handle ends up null; the working directory and the modified files stay. */
  function Stop(s: ServiceState): (t: ServiceState)
    ensures t.process == NoProcess
    ensures t.stdin.None? && t.stdout.None? && t.stderr.None? && t.stderrPump.None?
    ensures Live(s.process) ==> t.killed == s.killed + [s.process.id]
    ensures !Live(s.process) ==> t.killed == s.killed
    ensures t == s.(process := t.process, stdin := t.stdin, stdout := t.stdout,
                    stderr := t.stderr, stderrPump := t.stderrPump, killed := t.killed)
    ensures Valid(s) ==> Valid(t)
  {
    var killed := if Live(s.process) then s.killed + [s.process.id] else s.killed;
    s.(process := NoProcess, stdin := None, stdout := None, stderr := None, stderrPump := None,
       killed := killed)
  }

  /** The second half of `EnsureProcessStarted`: record the directory, resolve the
      executable, create a `Process` object and start it; on success the streams and
      the pump belong to it. A resolver that throws leaves no new `Process` object. */
  function Start(s: ServiceState, wd: string, launch: Launch): (ServiceState, Option<Fault>) {
    var id := s.launches;
    var recorded := s.(workingDirectory := Some(wd));
    var created := recorded.(process := Created(id), launches := id + 1);
    match launch
    case PathRejected => (recorded, Some(Argument(IllegalPathMessage)))
    case NotFound(details) => (created, Some(LaunchFailed(details)))
    case Launches =>
      (created.(process := Running(id, false), stdin := Some(id), stdout := Some(id),
                stderr := Some(id), stderrPump := Some(id)), None)
  }

  /** `EnsureProcessStarted`. */
  function EnsureStarted(s: ServiceState, wd: string, launch: Launch): (ServiceState, Option<Fault>) {
    match s.process
    case Created(_) => (s, Some(InvalidOperation(NoAssociatedProcessMessage)))
    case Running(_, exited) =>
      if !exited && s.workingDirectory.Some? && EqualsIgnoreCase(s.workingDirectory.value, wd) then (s, None)
      else if !exited then Start(Stop(s), wd, launch)
      else Start(s, wd, launch)
    case NoProcess => Start(s, wd, launch)
  }

  /** The working directory a run uses: the caller's, or the current directory when
      the caller's is null or blank. */
  function ResolveWorkingDirectory(wd: Option<string>, currentDirectory: string): (r: string)
    ensures IsNullOrWhiteSpace(wd) ==> r == currentDirectory
    ensures !IsNullOrWhiteSpace(wd) ==> r == wd.value
  {
    if IsNullOrWhiteSpace(wd) then currentDirectory else wd.value
  }

  /** The service after the read loop: the set the loop tracked into and, when the
      health check found the process gone, the process recorded as exited. */
  function AfterLoop(s: ServiceState, r: LoopResult): ServiceState {
    var exited := r.end == Threw(InvalidOperation(TerminatedMessage)) && s.process.Running?;
    s.(modifiedFiles := r.progress.files,
       process := if exited then Running(s.process.id, true) else s.process)
  }

  /** `RunAsync`. */
  function Run(s: ServiceState, prompt: string, workingDirectory: Option<string>, env: RunEnv,
               turns: seq<Turn>, parse: string -> ParsedLine, callbackFault: string -> Option<CallbackThrow>)
    : (ServiceState, RunReport)
  {
    if s.disposed then (s, RunReport(Raised(ObjectDisposed), None, None))
    else if env.lockWaitCanceled then (s, RunReport(Raised(OperationCanceled), None, None))
    else
      var cleared := s.(modifiedFiles := {});
      var wd := ResolveWorkingDirectory(workingDirectory, env.currentDirectory);
      var (started, fault) := EnsureStarted(cleared, wd, env.launch);
      if fault.Some? then (started, RunReport(Raised(fault.value), None, None))
      else
        var request := Some(UserEnvelope(prompt));
        var r := Respond(turns, started.modifiedFiles, parse, callbackFault);
        var after := AfterLoop(started, r);
        match r.end
        case ResultReceived => (after, RunReport(Returned, request, Some(r)))
        case CancelSeen => (after, RunReport(Returned, request, Some(r)))
        case Waiting => (after, RunReport(Pending, request, Some(r)))
        case ReadCanceled(byCaller) => (Stop(after), CanceledReport(byCaller, request, r))
        case CallbackCanceled(byCaller) => (Stop(after), CanceledReport(byCaller, request, r))
        case Threw(f) => (after, RunReport(Raised(f), request, Some(r)))
  }

  /** The two `OperationCanceledException` handlers of `RunAsync`, which choose by the
      caller's token alone: a rethrow, or the timeout exception. */
  function CanceledReport(byCaller: bool, request: Option<Envelope>, r: LoopResult): RunReport {
    if byCaller then RunReport(Raised(OperationCanceled), request, Some(r))
    else RunReport(Raised(Timeout(TimeoutMessage)), request, Some(r))
  }

  /** `Dispose()`: the first call stops the process and marks the service disposed. */
  function Disposed(s: ServiceState): ServiceState {
    if s.disposed then s else Stop(s).(disposed := true)
  }

  // ---------------------------------------------------------------------------
  // Properties of the session lifecycle

  /** A live process whose directory matches the request ignoring case is reused as it is. */
  lemma EnsureStartedReuses(s: ServiceState, wd: string, launch: Launch)
    requires Live(s.process) && s.workingDirectory.Some? && EqualsIgnoreCase(s.workingDirectory.value, wd)
    ensures EnsureStarted(s, wd, launch) == (s, None)
  {
  }

  /** Otherwise the requested directory is recorded and a live process is killed
      first (its handles released), a dead one just left to be replaced. Unless the
      resolver throws, a new process object with a fresh identity is created; when it
      throws, the slot keeps no process object of this call's making. */
  lemma EnsureStartedRestarts(s: ServiceState, wd: string, launch: Launch)
    requires Valid(s) && !s.process.Created?
    requires !(Live(s.process) && s.workingDirectory.Some? && EqualsIgnoreCase(s.workingDirectory.value, wd))
    ensures var (t, fault) := EnsureStarted(s, wd, launch);
      && Valid(t)
      && t.workingDirectory == Some(wd)
      && (launch.Launches? <==> fault.None?)
      && (fault.None? ==> Live(t.process))
      && (!launch.PathRejected? ==>
            && t.launches == s.launches + 1
            && t.process.id == s.launches
            && (s.process.Running? ==> t.process.id != s.process.id))
      && (launch.NotFound? ==> t.process == Created(s.launches) && fault == Some(LaunchFailed(launch.details)))
      && (launch.PathRejected? ==>
            && fault == Some(Argument(IllegalPathMessage))
            && t.launches == s.launches
            && t.process == (if Live(s.process) then NoProcess else s.process))
      && (fault.Some? && Live(s.process) ==> t.stdin.None? && t.stdout.None? && t.stderr.None? && t.stderrPump.None?)
      && (Live(s.process) ==> t.killed == s.killed + [s.process.id])
      && (!Live(s.process) ==> t.killed == s.killed)
      && t.modifiedFiles == s.modifiedFiles && t.disposed == s.disposed
  {
  }

  /** After a successful `EnsureProcessStarted` there is a live process that owns the
      streams, and its directory equals the requested one ignoring case. */
  lemma EnsureStartedSucceeds(s: ServiceState, wd: string, launch: Launch)
    requires Valid(s)
    ensures Valid(EnsureStarted(s, wd, launch).0)
    ensures var (t, fault) := EnsureStarted(s, wd, launch);
      fault.None? ==>
        && Live(t.process)
        && t.workingDirectory.Some? && EqualsIgnoreCase(t.workingDirectory.value, wd)
  {
    EqualsIgnoreCaseIsEquivalence(wd, wd, wd);
  }

  /** A failed `EnsureProcessStarted` leaves no live process: the unstarted `Process`
      object already there, the one whose `Start` just threw, or, when the resolver
      threw, no new object at all (so `HasExited` will not throw on the next run). */
  lemma EnsureStartedFailures(s: ServiceState, wd: string, launch: Launch)
    ensures var (t, fault) := EnsureStarted(s, wd, launch);
      && (fault.Some? ==> !Live(t.process) && t.disposed == s.disposed)
      && (fault.Some? ==>
            || fault == Some(InvalidOperation(NoAssociatedProcessMessage))
            || fault.value.LaunchFailed?
            || fault == Some(Argument(IllegalPathMessage)))
      && (fault.Some? && fault.value.LaunchFailed? ==> t.process.Created? && t.process.id + 1 == t.launches)
      && (fault == Some(Argument(IllegalPathMessage)) ==> !t.process.Created? && t.launches == s.launches)
      && (s.process.Created? ==> t == s && fault == Some(InvalidOperation(NoAssociatedProcessMessage)))
  {
  }

  // ---------------------------------------------------------------------------
  // Properties of one run

  /** A disposed service rejects the run and changes nothing. */
  lemma RunRejectedWhenDisposed(s: ServiceState, prompt: string, wd: Option<string>, env: RunEnv,
                                turns: seq<Turn>, parse: string -> ParsedLine, cb: string -> Option<CallbackThrow>)
    requires s.disposed
    ensures Run(s, prompt, wd, env, turns, parse, cb) == (s, RunReport(Raised(ObjectDisposed), None, None))
  {
  }

  /** Once the run lock is held, the service's set is the one the read loop tracked
      into, starting from the cleared set; it stays cleared when the loop never runs. */
  lemma RunKeepsLoopFiles(s: ServiceState, prompt: string, wd: Option<string>, env: RunEnv,
                          turns: seq<Turn>, parse: string -> ParsedLine, cb: string -> Option<CallbackThrow>)
    requires !s.disposed && !env.lockWaitCanceled
    ensures var (t, report) := Run(s, prompt, wd, env, turns, parse, cb);
      && (report.loop.None? ==> t.modifiedFiles == {})
      && (report.loop.Some? ==>
            && report.loop.value == Respond(turns, {}, parse, cb)
            && t.modifiedFiles == report.loop.value.progress.files)
  {
    var cleared := s.(modifiedFiles := {});
    var (started, fault) := EnsureStarted(cleared, ResolveWorkingDirectory(wd, env.currentDirectory), env.launch);
    assert started.modifiedFiles == {};
  }

  /** Once the run lock is held, the modified-files set is cleared before anything is
      tracked: afterwards it holds only paths named by lines this run delivered, with
      no two spellings of one path. */
  lemma RunTracksOnlyItsOwnFiles(s: ServiceState, prompt: string, wd: Option<string>, env: RunEnv,
                                 turns: seq<Turn>, parse: string -> ParsedLine, cb: string -> Option<CallbackThrow>, x: string)
    requires !s.disposed && !env.lockWaitCanceled
    ensures var (t, report) := Run(s, prompt, wd, env, turns, parse, cb);
      && CaseDistinct(t.modifiedFiles)
      && (report.loop.None? ==> t.modifiedFiles == {})
      && (report.loop.Some? && x in t.modifiedFiles ==>
            exists k :: 0 <= k < |report.loop.value.progress.delivered|
                          && TrackedPath(parse(report.loop.value.progress.delivered[k])) == Some(x))
  {
    var (t, report) := Run(s, prompt, wd, env, turns, parse, cb);
    RunKeepsLoopFiles(s, prompt, wd, env, turns, parse, cb);
    if report.loop.Some? {
      var r := report.loop.value;
      RespondDelivers(turns, 0, Progress({}, [], []), parse, cb);
      var lines := DeliveredLines(turns[0..r.consumed], parse);
      assert r.progress.delivered == lines;
      assert t.modifiedFiles == TrackAll({}, lines, parse);
      TrackAllContents({}, lines, parse, x);
      if x in t.modifiedFiles {
        TrackAllFromEmpty(lines, parse, x);
      }
    }
  }

  /** A run keeps the service's invariant. */
  lemma RunPreservesValid(s: ServiceState, prompt: string, wd: Option<string>, env: RunEnv,
                          turns: seq<Turn>, parse: string -> ParsedLine, cb: string -> Option<CallbackThrow>)
    requires Valid(s)
    ensures Valid(Run(s, prompt, wd, env, turns, parse, cb).0)
  {
    if !s.disposed && !env.lockWaitCanceled {
      RunTracksOnlyItsOwnFiles(s, prompt, wd, env, turns, parse, cb, "");
      EnsureStartedSucceeds(s.(modifiedFiles := {}), ResolveWorkingDirectory(wd, env.currentDirectory), env.launch);
    }
  }

  /** Exactly one request envelope, holding the prompt, is written in a run that gets
      its process; a run that fails before that writes nothing and reads nothing. */
  lemma RunWritesOneRequest(s: ServiceState, prompt: string, wd: Option<string>, env: RunEnv,
                            turns: seq<Turn>, parse: string -> ParsedLine, cb: string -> Option<CallbackThrow>)
    ensures var (t, report) := Run(s, prompt, wd, env, turns, parse, cb);
      && (report.request.Some? <==> report.loop.Some?)
      && (report.request.Some? ==> report.request == Some(UserEnvelope(prompt)))
      && (report.request.None? ==> report.outcome.Raised?)
  {
  }

  /** An `OperationCanceledException`, from a read or from the callback, tears the
      session down; when the caller's token is cancelled it is rethrown, otherwise it
      becomes a timeout naming ten minutes. */
  lemma RunCancelOrTimeoutStops(s: ServiceState, prompt: string, wd: Option<string>, env: RunEnv,
                                turns: seq<Turn>, parse: string -> ParsedLine, cb: string -> Option<CallbackThrow>)
    ensures var (t, report) := Run(s, prompt, wd, env, turns, parse, cb);
      report.loop.Some? && Canceled(report.loop.value.end) ==>
        && t.process == NoProcess
        && t.stdin.None? && t.stdout.None? && t.stderr.None? && t.stderrPump.None?
        && (report.loop.value.end.byCaller ==> report.outcome == Raised(OperationCanceled))
        && (!report.loop.value.end.byCaller ==>
              report.outcome == Raised(Timeout("Claude CLI request timed out after 10 minutes.")))
  {
    TimeoutMessageNamesTenMinutes();
  }

  /** A timeout is reported only when an `OperationCanceledException` (a read that lost
      the race, or the callback's own) met a caller's token that was not cancelled; the
      process is then stopped. */
  lemma TimeoutOnlyFromTimer(s: ServiceState, prompt: string, wd: Option<string>, env: RunEnv,
                             turns: seq<Turn>, parse: string -> ParsedLine, cb: string -> Option<CallbackThrow>)
    ensures var (t, report) := Run(s, prompt, wd, env, turns, parse, cb);
      report.outcome.Raised? && report.outcome.fault.Timeout? ==>
        && report.loop.Some?
        && report.loop.value.end in {ReadCanceled(false), CallbackCanceled(false)}
        && t.process == NoProcess
  {
    EnsureStartedFailures(s.(modifiedFiles := {}), ResolveWorkingDirectory(wd, env.currentDirectory), env.launch);
    RespondFaults(turns, {}, parse, cb);
  }

  /** Every exception the loop throws (process gone, stream closed, a non-scalar event
      type, a callback exception other than a cancellation) is rethrown without
      stopping the process. */
  lemma RunOtherFaultsKeepProcess(s: ServiceState, prompt: string, wd: Option<string>, env: RunEnv,
                                  turns: seq<Turn>, parse: string -> ParsedLine, cb: string -> Option<CallbackThrow>)
    requires Valid(s)
    ensures var (t, report) := Run(s, prompt, wd, env, turns, parse, cb);
      report.loop.Some? && report.loop.value.end.Threw? ==>
        && report.outcome == Raised(report.loop.value.end.fault)
        && t.process.Running?
        && t.stdin == Some(t.process.id)
        && (t.process.exited <==> report.loop.value.end.fault == InvalidOperation(TerminatedMessage))
  {
    var cleared := s.(modifiedFiles := {});
    EnsureStartedSucceeds(cleared, ResolveWorkingDirectory(wd, env.currentDirectory), env.launch);
  }

  /** A cancellation seen at the loop head ends the run normally: no exception and the
      process is left running. */
  lemma RunCancelAtHeadReturns(s: ServiceState, prompt: string, wd: Option<string>, env: RunEnv,
                               turns: seq<Turn>, parse: string -> ParsedLine, cb: string -> Option<CallbackThrow>)
    requires Valid(s)
    ensures var (t, report) := Run(s, prompt, wd, env, turns, parse, cb);
      report.loop.Some? && report.loop.value.end == CancelSeen ==>
        report.outcome == Returned && Live(t.process)
  {
    var cleared := s.(modifiedFiles := {});
    EnsureStartedSucceeds(cleared, ResolveWorkingDirectory(wd, env.currentDirectory), env.launch);
  }

  /** After a run whose launch failed, every later run fails in `EnsureProcessStarted`
      (the failed `Process` object stays in `_process` and `HasExited` throws on it),
      whatever the directory and the launch, until the service is disposed. */
  lemma LaunchFailureIsSticky(s: ServiceState, prompt: string, wd: Option<string>, env: RunEnv,
                              turns: seq<Turn>, parse: string -> ParsedLine, cb: string -> Option<CallbackThrow>,
                              prompt2: string, wd2: Option<string>, env2: RunEnv, turns2: seq<Turn>)
    requires env.launch.NotFound?
    requires Run(s, prompt, wd, env, turns, parse, cb).1.outcome == Raised(LaunchFailed(env.launch.details))
    requires !env2.lockWaitCanceled
    ensures var t := Run(s, prompt, wd, env, turns, parse, cb).0;
      Run(t, prompt2, wd2, env2, turns2, parse, cb).1 ==
        RunReport(Raised(InvalidOperation(NoAssociatedProcessMessage)), None, None)
  {
    var cleared := s.(modifiedFiles := {});
    EnsureStartedFailures(cleared, ResolveWorkingDirectory(wd, env.currentDirectory), env.launch);
    RespondFaults(turns, {}, parse, cb);
  }

  /** Unlike a failed `Process.Start`, a resolver that throws leaves no `Process` object
      behind, so a later run whose launch succeeds starts a process and sends its request. */
  lemma PathRejectionIsNotSticky(s: ServiceState, prompt: string, wd: Option<string>, env: RunEnv,
                                 turns: seq<Turn>, parse: string -> ParsedLine, cb: string -> Option<CallbackThrow>,
                                 prompt2: string, wd2: Option<string>, env2: RunEnv, turns2: seq<Turn>)
    requires Run(s, prompt, wd, env, turns, parse, cb).1.outcome == Raised(Argument(IllegalPathMessage))
    requires !env2.lockWaitCanceled && env2.launch.Launches?
    ensures var t := Run(s, prompt, wd, env, turns, parse, cb).0;
      Run(t, prompt2, wd2, env2, turns2, parse, cb).1.request == Some(UserEnvelope(prompt2))
  {
    var cleared := s.(modifiedFiles := {});
    EnsureStartedFailures(cleared, ResolveWorkingDirectory(wd, env.currentDirectory), env.launch);
    RespondFaults(turns, {}, parse, cb);
  }

  /** A run from a live process whose directory differs (ignoring case) from the
      requested one: the live process is killed before the new one starts. */
  lemma RunInOtherDirectory(t: ServiceState, prompt: string, wd: string, env: RunEnv,
                            turns: seq<Turn>, parse: string -> ParsedLine, cb: string -> Option<CallbackThrow>)
    requires Valid(t) && !t.disposed && Live(t.process) && !env.lockWaitCanceled && env.launch.Launches?
    requires !IsBlank(wd) && t.workingDirectory.Some? && !EqualsIgnoreCase(t.workingDirectory.value, wd)
    ensures var (u, report) := Run(t, prompt, Some(wd), env, turns, parse, cb);
      && report.request == Some(UserEnvelope(prompt))
      && u.launches == t.launches + 1
      && u.workingDirectory == Some(wd)
      && (u.process.Running? ==> u.process.id == t.launches)
      && u.killed == t.killed + [t.process.id]
                     + (if report.loop.Some? && Canceled(report.loop.value.end) then [t.launches] else [])
  {
    var cleared := t.(modifiedFiles := {});
    EnsureStartedRestarts(cleared, wd, env.launch);
    var (started, fault) := EnsureStarted(cleared, wd, env.launch);
    assert fault.None? && Live(started.process);
    assert started.killed == t.killed + [t.process.id];
    var r := Respond(turns, started.modifiedFiles, parse, cb);
    assert Canceled(r.end) ==> Live(AfterLoop(started, r).process);
    assert ResolveWorkingDirectory(Some(wd), env.currentDirectory) == wd;
  }

  /** Two consecutive runs in directories that differ (ignoring case): the second
      kills the first run's live process before it writes its request to a new one,
      whose identity is fresh; that new process is killed in turn only when the run
      ends in a cancellation or a timeout. */
  lemma DirectoryChangeRestarts(s: ServiceState, prompt: string, wd: string, env: RunEnv,
                                turns: seq<Turn>, parse: string -> ParsedLine, cb: string -> Option<CallbackThrow>,
                                prompt2: string, wd2: string, env2: RunEnv, turns2: seq<Turn>)
    requires Valid(s) && !s.disposed && !env.lockWaitCanceled && !env2.lockWaitCanceled
    requires !IsBlank(wd) && !IsBlank(wd2) && !EqualsIgnoreCase(wd, wd2)
    requires env2.launch.Launches?
    requires var (t, report) := Run(s, prompt, Some(wd), env, turns, parse, cb);
      report.outcome == Returned && Live(t.process)
    ensures var (t, report) := Run(s, prompt, Some(wd), env, turns, parse, cb);
      var (u, report2) := Run(t, prompt2, Some(wd2), env2, turns2, parse, cb);
      && report2.request == Some(UserEnvelope(prompt2))
      && u.launches == t.launches + 1
      && t.process.id < t.launches
      && u.workingDirectory == Some(wd2)
      && (u.process.Running? ==> u.process.id == t.launches)
      && u.killed == t.killed + [t.process.id]
                     + (if report2.loop.Some? && Canceled(report2.loop.value.end) then [t.launches] else [])
  {
    var (t, report) := Run(s, prompt, Some(wd), env, turns, parse, cb);
    var cleared := s.(modifiedFiles := {});
    EnsureStartedSucceeds(cleared, wd, env.launch);
    var (started, fault) := EnsureStarted(cleared, wd, env.launch);
    assert fault.None?;
    assert t.workingDirectory == started.workingDirectory;
    RunPreservesValid(s, prompt, Some(wd), env, turns, parse, cb);
    assert !EqualsIgnoreCase(t.workingDirectory.value, wd2) by {
      EqualsIgnoreCaseIsEquivalence(t.workingDirectory.value, wd, wd2);
      EqualsIgnoreCaseIsEquivalence(wd, t.workingDirectory.value, wd2);
    }
    RunInOtherDirectory(t, prompt2, wd2, env2, turns2, parse, cb);
  }

  /** A dead process is replaced without `StopProcess`: nothing is killed, and a
      later failed launch leaves the dead process's stream handles in place. */
  lemma DeadProcessReplacedWithoutStop(s: ServiceState, wd: string, details: string)
    requires Valid(s) && s.process.Running? && s.process.exited
    ensures var (t, fault) := EnsureStarted(s, wd, NotFound(details));
      && fault == Some(LaunchFailed(details)) && t.stdin == s.stdin && t.stdin == Some(s.process.id)
      && t.killed == s.killed
  {
  }

  /** `Dispose` stops the process once and makes every later run fail. */
  lemma DisposeStopsAndRejects(s: ServiceState, prompt: string, wd: Option<string>, env: RunEnv,
                               turns: seq<Turn>, parse: string -> ParsedLine, cb: string -> Option<CallbackThrow>)
    requires !s.disposed
    ensures Disposed(s).process == NoProcess && Disposed(s).stdin.None? && Disposed(s).disposed
    ensures Disposed(s).killed == s.killed + (if Live(s.process) then [s.process.id] else [])
    ensures Disposed(Disposed(s)) == Disposed(s)
    ensures Run(Disposed(s), prompt, wd, env, turns, parse, cb).1.outcome == Raised(ObjectDisposed)
  {
  }

  // ---------------------------------------------------------------------------
  // The service object

  class CommandService {
    var process: ProcessSlot
    var stdin: Option<nat>
    var stdout: Option<nat>
    var stderr: Option<nat>
    var stderrPump: Option<nat>
    var workingDirectory: Option<string>
    var disposed: bool
    var modifiedFiles: set<string>
    var launches: nat
    var killed: seq<nat>

    /** The fields as a value. */
    function Snapshot(): ServiceState
      reads this
    {
      ServiceState(process, stdin, stdout, stderr, stderrPump, workingDirectory, disposed, modifiedFiles, launches, killed)
    }

    constructor ()
      ensures Snapshot() == Initial && Valid(Snapshot())
    {
      process, stdin, stdout, stderr, stderrPump := NoProcess, None, None, None, None;
      workingDirectory, disposed, modifiedFiles, launches, killed := None, false, {}, 0, [];
    }

    /** `ClearModifiedFiles`. */
    method ClearModifiedFiles()
      modifies this
      ensures Snapshot() == old(Snapshot()).(modifiedFiles := {})
    {
      modifiedFiles := {};
    }

    /** Not a member of the service: the operating system reporting that the child
        process has exited, which is what makes `HasExited` true from then on. */
    method ChildExited()
      requires process.Running?
      modifies this
      ensures Snapshot() == old(Snapshot()).(process := Running(old(process).id, true))
    {
      process := Running(process.id, true);
    }

    /** `TrackModifiedFile`. */
    method TrackModifiedFile(p: ParsedLine)
      modifies this
      ensures Snapshot() == old(Snapshot()).(modifiedFiles := match ToolPath(p)
                                                            case Some(x) => AddPath(old(modifiedFiles), x)
                                                            case None => old(modifiedFiles))
    {
      if p.Unparsed? || p.eventKind != Scalar(ContentBlockStart) {
        return;
      }
      if p.toolName != Some("Write") && p.toolName != Some("Edit") && p.toolName != Some("MultiEdit") {
        return;
      }
      if p.input.None? {
        return;
      }
      var filePath := if p.input.value.filePath.Some? then p.input.value.filePath else p.input.value.path;
      if !IsNullOrEmpty(filePath) {
        modifiedFiles := AddPath(modifiedFiles, filePath.value);
      }
    }

    /** `StopProcess`. */
    method StopProcess()
      modifies this
      ensures Snapshot() == Stop(old(Snapshot()))
    {
      if process.Running? && !process.exited {
        // `Kill`, then `WaitForExit(1000)`
        killed := killed + [process.id];
      }
      stdin, stdout, stderr := None, None, None;
      process := NoProcess;
      stderrPump := None;
    }

    /** `EnsureProcessStarted`. */
    method EnsureProcessStarted(wd: string, launch: Launch) returns (fault: Option<Fault>)
      modifies this
      ensures (Snapshot(), fault) == EnsureStarted(old(Snapshot()), wd, launch)
    {
      if process.Created? {
        // HasExited on a Process that was never started
        return Some(InvalidOperation(NoAssociatedProcessMessage));
      }
      if process.Running? && !process.exited {
        if !(workingDirectory.Some? && EqualsIgnoreCase(workingDirectory.value, wd)) {
          StopProcess();
        } else {
          return None;
        }
      }
      workingDirectory := Some(wd);
      if launch.PathRejected? {
        // `Path.Combine` inside `WindowsCommandResolver.Resolve` threw
        return Some(Argument(IllegalPathMessage));
      }
      var id := launches;
      process := Created(id);
      launches := launches + 1;
      if launch.NotFound? {
        return Some(LaunchFailed(launch.details));
      }
      process := Running(id, false);
      stdin, stdout, stderr := Some(id), Some(id), Some(id);
      stderrPump := Some(id);
      fault := None;
    }

    /** `ProcessResponseAsync`: the read loop, over a script of turns. The lines handed
        to the callback and written to the log are returned in `r.progress`. */
    method ProcessResponse(turns: seq<Turn>, parse: string -> ParsedLine, callbackFault: string -> Option<CallbackThrow>)
      returns (r: LoopResult)
      modifies this
      ensures r == Respond(turns, old(modifiedFiles), parse, callbackFault)
      ensures Snapshot() == AfterLoop(old(Snapshot()), r)
    {
      ghost var spec := Respond(turns, modifiedFiles, parse, callbackFault);
      var delivered: seq<string> := [];
      var logged: seq<string> := [];
      var stopped: Option<LoopEnd> := None;
      var i := 0;
      while i < |turns| && stopped.None?
        invariant 0 <= i <= |turns|
        invariant stopped.None? ==>
          RespondFrom(turns, i, Progress(modifiedFiles, delivered, logged), parse, callbackFault) == spec
        invariant stopped.Some? ==> spec == LoopResult(Progress(modifiedFiles, delivered, logged), stopped.value, i)
        invariant stopped != Some(Threw(InvalidOperation(TerminatedMessage))) ==>
          Snapshot() == old(Snapshot()).(modifiedFiles := modifiedFiles)
        invariant stopped == Some(Threw(InvalidOperation(TerminatedMessage))) ==>
          Snapshot() == AfterLoop(old(Snapshot()), spec)
        decreases |turns| - i
      {
        ghost var acc := Progress(modifiedFiles, delivered, logged);
        match turns[i] {
          case HeadCancelled =>
            stopped := Some(CancelSeen);
          case ProcessGone =>
            if process.Running? {
              process := Running(process.id, true);
            }
            stopped := Some(Threw(InvalidOperation(TerminatedMessage)));
          case Read(Closed) =>
            stopped := Some(Threw(InvalidOperation(StreamClosedMessage)));
          case Read(Cancelled(byCaller)) =>
            stopped := Some(ReadCanceled(byCaller));
          case Read(Line(text)) =>
            if !IsBlank(text) {
              var p := TryParseJsonLine(Some(text), parse);
              var log := ShouldLogEvent(p);
              if log.None? {
                stopped := Some(Threw(CastFault(p)));
              } else {
                if log.value {
                  logged := logged + [text];
                }
                if p.Parsed? && p.kind == Some(StreamEvent) {
                  TrackModifiedFile(p);
                }
                delivered := delivered + [text];
                assert Progress(modifiedFiles, delivered, logged) == Deliver(acc, text, parse);
                var thrown := callbackFault(text);
                if thrown.Some? {
                  stopped := Some(CallbackEnd(thrown.value));
                } else if IsResult(p) {
                  stopped := Some(ResultReceived);
                }
              }
            }
        }
        i := i + 1;
      }
      r := LoopResult(Progress(modifiedFiles, delivered, logged), stopped.GetOr(Waiting), i);
    }

    /** `RunAsync`: one request and its response. */
    method RunAsync(prompt: string, workingDirectory: Option<string>, env: RunEnv, turns: seq<Turn>,
                    parse: string -> ParsedLine, callbackFault: string -> Option<CallbackThrow>)
      returns (report: RunReport)
      modifies this
      ensures (Snapshot(), report) == Run(old(Snapshot()), prompt, workingDirectory, env, turns, parse, callbackFault)
    {
      if disposed {
        return RunReport(Raised(ObjectDisposed), None, None);
      }
      if env.lockWaitCanceled {
        return RunReport(Raised(OperationCanceled), None, None);
      }
      modifiedFiles := {};
      var wd := ResolveWorkingDirectory(workingDirectory, env.currentDirectory);
      var fault := EnsureProcessStarted(wd, env.launch);
      if fault.Some? {
        return RunReport(Raised(fault.value), None, None);
      }
      var request := Some(UserEnvelope(prompt));
      var r := ProcessResponse(turns, parse, callbackFault);
      match r.end {
        case ReadCanceled(byCaller) =>
          StopProcess();
          report := CanceledReport(byCaller, request, r);
        case CallbackCanceled(byCaller) =>
          StopProcess();
          report := CanceledReport(byCaller, request, r);
        case Threw(f) =>
          report := RunReport(Raised(f), request, Some(r));
        case Waiting =>
          report := RunReport(Pending, request, Some(r));
        case _ =>
          report := RunReport(Returned, request, Some(r));
      }
    }

    /** `Dispose()`. */
    method Dispose()
      modifies this
      ensures Snapshot() == Disposed(old(Snapshot()))
    {
      if disposed {
        return;
      }
      StopProcess();
      disposed := true;
    }
  }
}
