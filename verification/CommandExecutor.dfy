/**
 * Supervision of one foreground command. The operating system answers every signal, probe and wait
 * as it likes, and time passes as it likes; every answer is logged in order.
 */
module CommandExecutor {
  import opened Options
  import opened CommandResult

  const POLL_INTERVAL: nat := 10
  const TERMINATION_GRACE: nat := 1000
  const GROUP_SETTLE_DEADLINE: nat := 1000

  /** How the kernel answers a signal or a null-signal probe of the process group. */
  datatype GroupAnswer = Delivered | NoSuchGroup | NotPermitted | OtherErrno

  datatype Status = ExitCode(code: int) | BySignal(signal: int) | Neither

  datatype WaitAnswer = NotYet | Gone(status: Status) | WaitFailed

  /** One act of supervision with the answer it got. */
  datatype Act =
    | Terminated(answer: GroupAnswer, at: nat)
    | Killed(answer: GroupAnswer, at: nat)
    | Probed(answer: GroupAnswer)
    | Tried(wait: WaitAnswer)
    | Waited(wait: WaitAnswer)
    | KilledRoot(ok: bool)

  datatype ExecutionError =
    | SpawnFailed
    | MissingProcessId
    | MissingPipe
    | InspectGroup
    | SignalGroup(kill: bool)
    | WaitError
    | ProcessGroupSurvived
    | UnclassifiedExit
    | DrainTask(first: bool)
    | StreamRead(first: bool)

  datatype Outcome<+T> = Good(value: T) | Bad(error: ExecutionError)

  datatype Trigger = Completed(wait: WaitAnswer) | DeadlinePassed | CancelRequested

  datatype JoinAnswer = TaskFailed | ReadFailed | Captured(bytes: string)

  datatype Output = Output(cause: ExitCause, stdout: string, stderr: string)

  function Classify(status: Status): Outcome<ExitCause> {
    match status
    case ExitCode(code) => Good(Exited(code))
    case BySignal(signal) => Good(Signaled(signal))
    case Neither => Bad(UnclassifiedExit)
  }

  // ------------------------------------------------------------------ what a log certifies

  predicate Reaps(act: Act) {
    (act.Tried? || act.Waited?) && act.wait.Gone?
  }

  /** Some wait for the root returned its exit status. */
  ghost predicate RootReaped(log: seq<Act>) {
    exists i :: 0 <= i < |log| && Reaps(log[i])
  }

  /** The very last act was a probe that found no such group. */
  predicate GroupSeenGone(log: seq<Act>) {
    log != [] && log[|log| - 1] == Probed(NoSuchGroup)
  }

  /** What a successful result vouches for. */
  ghost predicate Certified(log: seq<Act>) {
    RootReaped(log) && GroupSeenGone(log)
  }

  /** Some wait for the root was carried through, whatever it returned. */
  ghost predicate RootAwaited(log: seq<Act>) {
    RootReaped(log) || exists i :: 0 <= i < |log| && log[i].Waited?
  }

  /** From `start` on: the group killed, the root killed, the root awaited, and then only probes. */
  predicate Released(log: seq<Act>, start: nat) {
    && start + 3 <= |log|
    && log[start].Killed? && log[start + 1].KilledRoot? && log[start + 2].Waited?
    && forall i :: start + 3 <= i < |log| ==> log[i].Probed?
  }

  lemma LogGrows(before: seq<Act>, after: seq<Act>)
    requires before <= after
    ensures RootReaped(before) ==> RootReaped(after)
    ensures RootAwaited(before) ==> RootAwaited(after)
  {
    assert forall i :: 0 <= i < |before| ==> before[i] == after[i];
  }

  /** From `start` on, the group is killed only after it was signalled and given its full grace. */
  ghost predicate GraceGiven(log: seq<Act>, start: nat) {
    forall i :: start <= i < |log| && log[i].Killed? ==>
      exists j :: start <= j < i && log[j].Terminated? && log[j].at + TERMINATION_GRACE <= log[i].at
  }

  lemma GraceKept(before: seq<Act>, after: seq<Act>, start: nat)
    requires GraceGiven(before, start) && before <= after
    requires forall i :: |before| <= i < |after| ==> !after[i].Killed?
    ensures GraceGiven(after, start)
  {
    forall i | start <= i < |after| && after[i].Killed?
      ensures exists j :: start <= j < i && after[j].Terminated? && after[j].at + TERMINATION_GRACE <= after[i].at
    {
      var j :| start <= j < i && before[j].Terminated? && before[j].at + TERMINATION_GRACE <= before[i].at;
      assert after[j] == before[j];
    }
  }

  /** The acts from `start` on that did not kill anything. */
  ghost predicate NothingKilled(log: seq<Act>, start: nat) {
    forall i :: start <= i < |log| ==> !log[i].Killed?
  }

  lemma GraceAfter(before: seq<Act>, after: seq<Act>, start: nat, answer: GroupAnswer, now: nat)
    requires start < |before| && NothingKilled(before, start)
    requires before[start].Terminated? && before[start].at + TERMINATION_GRACE <= now
    requires after == before + [Killed(answer, now)]
    ensures GraceGiven(after, start)
  {
    assert after[start] == before[start];
  }

  lemma GraceFromLater(log: seq<Act>, start: nat, later: nat)
    requires start <= later <= |log| && GraceGiven(log, later)
    requires forall i :: start <= i < later ==> !log[i].Killed?
    ensures GraceGiven(log, start)
  {
  }

  lemma NoKillNoGrace(log: seq<Act>, start: nat)
    requires NothingKilled(log, start)
    ensures GraceGiven(log, start)
  {
  }

  lemma LastReaps(log: seq<Act>)
    requires log != [] && Reaps(log[|log| - 1])
    ensures RootReaped(log)
  {
  }

  /** A probe refused for lack of permission is evidence that the group exists. */
  predicate Exists(answer: GroupAnswer) {
    answer.Delivered? || answer.NotPermitted?
  }

  /** Both captures, or the failure of the first stream that has one. */
  function Drained(stdout: JoinAnswer, stderr: JoinAnswer): Outcome<(string, string)> {
    match (stdout, stderr)
    case (TaskFailed, _) => Bad(DrainTask(true))
    case (ReadFailed, _) => Bad(StreamRead(true))
    case (Captured(_), TaskFailed) => Bad(DrainTask(false))
    case (Captured(_), ReadFailed) => Bad(StreamRead(false))
    case (Captured(a), Captured(b)) => Good((a, b))
  }

  /** The cause a trigger may lead to. */
  predicate Matches(trigger: Trigger, cause: ExitCause) {
    match trigger
    case CancelRequested => cause.Cancelled?
    case DeadlinePassed => cause.TimedOut?
    case Completed(Gone(ExitCode(code))) => cause == Exited(code)
    case Completed(Gone(BySignal(signal))) => cause == Signaled(signal)
    case Completed(_) => false
  }

  /** What a drain failed with, on its own stream. */
  ghost predicate DrainFailed(answer: JoinAnswer, stdout: bool, error: ExecutionError) {
    || (answer.TaskFailed? && error == DrainTask(stdout))
    || (answer.ReadFailed? && error == StreamRead(stdout))
  }

  /** Both streams' captures, each its own, or the failure of the first stream that has one. */
  ghost predicate DrainsSay(
    stdout: JoinAnswer, stderr: JoinAnswer, drains: Outcome<(string, string)>)
  {
    if stdout.Captured? && stderr.Captured? then
      drains.Good? && drains.value.0 == stdout.bytes && drains.value.1 == stderr.bytes
    else
      && drains.Bad?
      && (if stdout.Captured? then DrainFailed(stderr, false, drains.error)
          else DrainFailed(stdout, true, drains.error))
  }

  /** A command's output is both captures, each its own stream's; otherwise the first failure of the two. */
  ghost predicate ResultSays(
    cause: ExitCause, stdout: JoinAnswer, stderr: JoinAnswer, result: Outcome<Output>)
  {
    if stdout.Captured? && stderr.Captured? then
      result == Good(Output(cause, stdout.bytes, stderr.bytes))
    else
      && result.Bad?
      && (if stdout.Captured? then DrainFailed(stderr, false, result.error)
          else DrainFailed(stdout, true, result.error))
  }

  /** The first act shows the cause: the root's own exit, or the signal a cancellation or deadline sends. */
  ghost predicate CauseSeen(log: seq<Act>, start: nat, cause: ExitCause) {
    && start < |log|
    && match cause
       case Exited(code) => log[start] == Waited(Gone(ExitCode(code)))
       case Signaled(signal) => log[start] == Waited(Gone(BySignal(signal)))
       case TimedOut => log[start].Terminated?
       case Cancelled => log[start].Terminated?
  }

  class Supervisor {
    var log: seq<Act>
    var now: nat
    var stdoutJoins: nat
    var stderrJoins: nat
    /** What each stream's own drain answered when it was joined. */
    var stdoutAnswer: Option<JoinAnswer>
    var stderrAnswer: Option<JoinAnswer>
    var sealed: bool

    constructor ()
      ensures log == [] && stdoutJoins == stderrJoins == 0 && !sealed
      ensures stdoutAnswer == stderrAnswer == None
    {
      log, now := [], 0;
      stdoutJoins, stderrJoins, sealed := 0, 0, false;
      stdoutAnswer, stderrAnswer := None, None;
    }

    // ---------------------------------------------------------------- single acts

    method Probe() returns (exists_: Outcome<bool>)
      modifies this`log
      ensures |log| == |old(log)| + 1 && old(log) < log && log[|log| - 1].Probed?
      ensures exists_ == Good(false) <==> GroupSeenGone(log)
      ensures exists_ == Good(true) <==> Exists(log[|log| - 1].answer)
      ensures exists_.Bad? ==> exists_.error == InspectGroup
    {
      var answer: GroupAnswer := *;
      log := log + [Probed(answer)];
      exists_ := match answer
        case Delivered => Good(true)
        case NotPermitted => Good(true)
        case NoSuchGroup => Good(false)
        case OtherErrno => Bad(InspectGroup);
    }

    /** Sends the first signal; a group that is already gone is no failure. */
    method Terminate() returns (sent: Outcome<()>, answer: GroupAnswer)
      modifies this`log
      ensures log == old(log) + [Terminated(answer, now)]
      ensures sent.Good? <==> answer.Delivered? || answer.NoSuchGroup?
      ensures sent.Bad? ==> sent.error == SignalGroup(false)
    {
      answer := *;
      log := log + [Terminated(answer, now)];
      sent := if answer.Delivered? || answer.NoSuchGroup? then Good(()) else Bad(SignalGroup(false));
    }

    method KillIfPresent() returns (sent: Outcome<bool>, answer: GroupAnswer)
      modifies this`log
      ensures log == old(log) + [Killed(answer, now)]
      ensures sent == Good(true) <==> answer.Delivered?
      ensures sent == Good(false) <==> answer.NoSuchGroup?
      ensures sent.Bad? ==> sent.error == SignalGroup(true)
    {
      answer := *;
      log := log + [Killed(answer, now)];
      sent := match answer
        case Delivered => Good(true)
        case NoSuchGroup => Good(false)
        case _ => Bad(SignalGroup(true));
    }

    method TryWait() returns (answer: WaitAnswer)
      modifies this`log
      ensures log == old(log) + [Tried(answer)]
    {
      answer := *;
      log := log + [Tried(answer)];
    }

    /** Waits until the root is gone or the wait itself fails. */
    method WaitForRoot() returns (answer: WaitAnswer)
      modifies this`log
      ensures log == old(log) + [Waited(answer)] && !answer.NotYet?
    {
      var failed: bool := *;
      var status: Status := *;
      answer := if failed then WaitFailed else Gone(status);
      log := log + [Waited(answer)];
    }

    method KillRoot() returns (ok: bool)
      modifies this`log
      ensures log == old(log) + [KilledRoot(ok)]
    {
      ok := *;
      log := log + [KilledRoot(ok)];
    }

    method Sleep()
      modifies this`now
      ensures now >= old(now) + POLL_INTERVAL
    {
      var late: int := *;
      now := now + POLL_INTERVAL + (if late < 0 then 0 else late);
    }

    // ---------------------------------------------------------------- group protocols

    /**
     * Success means the last probe saw the group gone. Otherwise the last probe saw it alive when the
     * whole settling time had passed, or could not tell.
     */
    method AwaitGroupDisappearance() returns (gone: Outcome<()>)
      modifies this`log, this`now
      ensures old(log) < log && NothingKilled(log, |old(log)|) && log[|log| - 1].Probed?
      ensures gone.Good? <==> GroupSeenGone(log)
      ensures gone == Bad(ProcessGroupSurvived) <==> Exists(log[|log| - 1].answer)
      ensures gone == Bad(ProcessGroupSurvived) ==> old(now) + GROUP_SETTLE_DEADLINE <= now
      ensures gone == Bad(InspectGroup) <==> log[|log| - 1].answer.OtherErrno?
    {
      var deadline := now + GROUP_SETTLE_DEADLINE;
      while true
        invariant old(log) <= log && NothingKilled(log, |old(log)|)
        decreases if now < deadline then deadline - now else 0
      {
        var found := Probe();
        if found.Bad? { return Bad(found.error); }
        if !found.value { return Good(()); }
        if now >= deadline { return Bad(ProcessGroupSurvived); }
        Sleep();
      }
    }

    /** Signals the group, waits out the grace, then kills what is left of it. */
    method TerminateGroup() returns (report: Outcome<bool>)
      modifies this`log, this`now
      ensures old(log) <= log && GraceGiven(log, |old(log)|)
      ensures report.Good? ==> GroupSeenGone(log)
    {
      ghost var start, signalledAt := |log|, now;
      var sent, _ := Terminate();
      if sent.Bad? { return Bad(sent.error); }
      var deadline := now + TERMINATION_GRACE;
      while true
        invariant old(log) < log && NothingKilled(log, start)
        invariant log[start].Terminated? && log[start].at == signalledAt
        decreases if now < deadline then deadline - now else 0
      {
        var found := Probe();
        if found.Bad? { return Bad(found.error); }
        if !found.value { return Good(false); }
        if now >= deadline { break; }
        Sleep();
      }
      ghost var waited := log;
      var killed, answer := KillIfPresent();
      GraceAfter(waited, log, start, answer, now);
      if killed.Bad? { return Bad(killed.error); }
      ghost var escalated := log;
      var gone := AwaitGroupDisappearance();
      GraceKept(escalated, log, start);
      return if gone.Bad? then Bad(gone.error) else Good(killed.value);
    }

    method TerminateRemaining() returns (report: Outcome<bool>)
      modifies this`log, this`now
      ensures old(log) <= log && GraceGiven(log, |old(log)|)
      ensures report.Good? ==> GroupSeenGone(log)
    {
      var found := Probe();
      if found.Bad? { return Bad(found.error); }
      ghost var probed := |log|;
      if found.value {
        report := TerminateGroup();
        GraceFromLater(log, |old(log)|, probed);
      } else {
        report := Good(false);
      }
    }

    /** Ends the group and reaps the root; success certifies both. */
    method TerminateAndReap() returns (report: Outcome<bool>)
      modifies this`log, this`now
      ensures old(log) <= log && GraceGiven(log, |old(log)|)
      ensures old(log) < log && log[|old(log)|].Terminated?
      ensures report.Good? ==> Certified(log)
    {
      hide GraceGiven, RootReaped, Exists;
      ghost var start, signalledAt := |log|, now;
      var sent, _ := Terminate();
      NoKillNoGrace(log, start);
      if sent.Bad? { return Bad(sent.error); }
      var deadline := now + TERMINATION_GRACE;
      var rootReaped := false;
      while true
        invariant old(log) < log && NothingKilled(log, start)
        invariant log[start].Terminated? && log[start].at == signalledAt
        invariant rootReaped ==> RootReaped(log)
        decreases if now < deadline then deadline - now else 0
      {
        if !rootReaped {
          var answer := TryWait();
          NoKillNoGrace(log, start);
          if answer.WaitFailed? { return Bad(WaitError); }
          rootReaped := answer.Gone?;
          if rootReaped { LastReaps(log); }
        }
        if rootReaped {
          ghost var reaped := log;
          var found := Probe();
          LogGrows(reaped, log);
          NoKillNoGrace(log, start);
          if found.Bad? { return Bad(found.error); }
          if !found.value { return Good(false); }
        }
        if now >= deadline { break; }
        Sleep();
      }
      report := KillAndReap(rootReaped, start);
    }

    /** The second phase: kill the group, and the root itself when it was not reaped yet. */
    method KillAndReap(rootReaped: bool, ghost start: nat) returns (report: Outcome<bool>)
      requires rootReaped ==> RootReaped(log)
      requires start < |log| && NothingKilled(log, start)
      requires log[start].Terminated? && log[start].at + TERMINATION_GRACE <= now
      modifies this`log, this`now
      ensures old(log) <= log && GraceGiven(log, start)
      ensures report.Good? ==> Certified(log)
      ensures report.Good? && !rootReaped ==> report.value
    {
      ghost var before := log;
      var killed, answer := KillIfPresent();
      GraceAfter(before, log, start, answer, now);
      LogGrows(before, log);
      ghost var escalated := log;
      if killed.Bad? { return Bad(killed.error); }
      var sentKill := killed.value;
      if !rootReaped {
        var ok := KillRoot();
        GraceKept(escalated, log, start);
        if !ok { return Bad(WaitError); }
        sentKill := true;
        var status := WaitForRoot();
        GraceKept(escalated, log, start);
        if !status.Gone? { return Bad(WaitError); }
        assert Reaps(log[|log| - 1]);
      }
      ghost var reaped := log;
      var gone := AwaitGroupDisappearance();
      LogGrows(reaped, log);
      GraceKept(reaped, log, start);
      report := if gone.Bad? then Bad(gone.error) else Good(sentKill);
    }

    /** Tries every release in order after a failure; nothing here replaces that failure. */
    method BestEffortCleanup()
      modifies this`log, this`now
      ensures old(log) <= log && RootAwaited(log) && Released(log, |old(log)|)
    {
      var _, _ := KillIfPresent();
      var _ := KillRoot();
      var _ := WaitForRoot();
      assert log[|log| - 1].Waited?;
      ghost var awaited := log;
      var deadline := now + GROUP_SETTLE_DEADLINE;
      var watching := true;
      while watching
        invariant old(log) <= awaited <= log && Released(log, |old(log)|)
        decreases watching, if now < deadline then deadline - now else 0
      {
        var found := Probe();
        if found == Good(false) || now >= deadline {
          watching := false;
        } else {
          Sleep();
        }
      }
      LogGrows(awaited, log);
    }

    // ---------------------------------------------------------------- drains

    /** The handle of stdout's drain is consumed, and what it answered is recorded as stdout's. */
    method JoinStdout() returns (answer: JoinAnswer)
      modifies this`stdoutJoins, this`stdoutAnswer
      ensures stdoutAnswer == Some(answer) && stdoutJoins == old(stdoutJoins) + 1
    {
      answer := *;
      stdoutAnswer, stdoutJoins := Some(answer), stdoutJoins + 1;
    }

    method JoinStderr() returns (answer: JoinAnswer)
      modifies this`stderrJoins, this`stderrAnswer
      ensures stderrAnswer == Some(answer) && stderrJoins == old(stderrJoins) + 1
    {
      answer := *;
      stderrAnswer, stderrJoins := Some(answer), stderrJoins + 1;
    }

    /**
     * Joins both drains, sealing them when the grace runs out. A drain that finished is not polled
     * again, so each handle is consumed exactly once.
     */
    method JoinDrains() returns (drains: Outcome<(string, string)>)
      requires !sealed
      modifies this`stdoutJoins, this`stderrJoins, this`stdoutAnswer, this`stderrAnswer, this`sealed
      ensures stdoutAnswer.Some? && stderrAnswer.Some?
      ensures DrainsSay(stdoutAnswer.value, stderrAnswer.value, drains)
      ensures stdoutJoins == old(stdoutJoins) + 1 && stderrJoins == old(stderrJoins) + 1
    {
      var stdout: Option<JoinAnswer> := None;
      var stderr: Option<JoinAnswer> := None;
      while stdout.None? || stderr.None?
        invariant stdoutJoins == old(stdoutJoins) + (if stdout.Some? then 1 else 0)
        invariant stderrJoins == old(stderrJoins) + (if stderr.Some? then 1 else 0)
        invariant stdout.Some? ==> stdoutAnswer == stdout
        invariant stderr.Some? ==> stderrAnswer == stderr
        decreases (if stdout.None? then 1 else 0) + (if stderr.None? then 1 else 0) + (if sealed then 0 else 1)
      {
        var stdoutReady: bool, stderrReady: bool := *, *;
        // The first ready branch wins; once sealed, a drain that is still open returns.
        if stdout.None? && (stdoutReady || (sealed && stderr.Some?)) {
          var answer := JoinStdout();
          stdout := Some(answer);
        } else if stderr.None? && (stderrReady || sealed) {
          var answer := JoinStderr();
          stderr := Some(answer);
        } else if !sealed {
          sealed := true;
        }
      }
      drains := Drained(stdout.value, stderr.value);
    }

    // ---------------------------------------------------------------- one command

    /** Cancellation is looked at first, and again when the deadline fires. */
    method WaitForTrigger() returns (trigger: Trigger)
      modifies this`log
      ensures old(log) <= log
      ensures !trigger.Completed? ==> log == old(log)
      ensures trigger.Completed? ==> log == old(log) + [Waited(trigger.wait)] && !trigger.wait.NotYet?
    {
      var cancelled: bool, deadlinePassed: bool, cancelledMeanwhile: bool := *, *, *;
      if cancelled || (deadlinePassed && cancelledMeanwhile) { return CancelRequested; }
      if deadlinePassed { return DeadlinePassed; }
      var answer := WaitForRoot();
      return Completed(answer);
    }

    /** Supervises a running command to its cause; a cause certifies the group gone. */
    method Supervise() returns (trigger: Trigger, supervision: Outcome<ExitCause>)
      modifies this`log, this`now
      ensures old(log) <= log && GraceGiven(log, |old(log)|)
      ensures supervision.Good? ==> Certified(log) && Matches(trigger, supervision.value)
      ensures supervision.Good? ==> CauseSeen(log, |old(log)|, supervision.value)
      ensures trigger == Completed(WaitFailed) ==> supervision == Bad(WaitError)
    {
      trigger := WaitForTrigger();
      match trigger {
        case CancelRequested =>
          var report := TerminateAndReap();
          supervision := if report.Bad? then Bad(report.error) else Good(Cancelled);
        case DeadlinePassed =>
          var report := TerminateAndReap();
          supervision := if report.Bad? then Bad(report.error) else Good(TimedOut);
        case Completed(Gone(status)) =>
          assert Reaps(log[|log| - 1]);
          ghost var reaped := log;
          var report := TerminateRemaining();
          LogGrows(reaped, log);
          GraceFromLater(log, |old(log)|, |reaped|);
          supervision := if report.Bad? then Bad(report.error) else Classify(status);
        case Completed(_) =>
          supervision := Bad(WaitError);
      }
    }

    /**
     * Runs one command. Success certifies that the root was reaped and the group was last seen gone;
     * the first supervision failure is the one reported; and once drains exist, each is joined
     * exactly once on every path.
     */
    method Execute() returns (
        result: Outcome<Output>, spawned: bool, drained: bool, supervision: Outcome<ExitCause>)
      requires log == [] && stdoutJoins == stderrJoins == 0 && !sealed
      modifies this
      ensures result.Good? && spawned ==>
        Certified(log) && drained && supervision == Good(result.value.cause)
      ensures result.Good? && !spawned ==> result.value == Output(Cancelled, "", "") && log == []
      ensures spawned ==> RootAwaited(log)
      ensures !spawned ==> log == []
      ensures drained ==> spawned && stdoutJoins == 1 && stderrJoins == 1
      ensures !drained ==> stdoutJoins == 0 && stderrJoins == 0
      ensures drained && supervision.Bad? ==> result == Bad(supervision.error)
      ensures drained ==> stdoutAnswer.Some? && stderrAnswer.Some?
      ensures drained && supervision.Good? ==>
        ResultSays(supervision.value, stdoutAnswer.value, stderrAnswer.value, result)
      ensures drained && supervision.Good? ==> CauseSeen(log, 0, supervision.value)
      ensures !spawned && result.Bad? ==> result == Bad(SpawnFailed)
      ensures spawned && !drained ==> result == Bad(MissingProcessId) || result == Bad(MissingPipe)
    {
      spawned, drained, supervision := false, false, Bad(SpawnFailed);
      var cancelledBefore: bool, spawns: bool, hasId: bool, hasPipes: bool := *, *, *, *;
      if cancelledBefore {
        return Good(Output(Cancelled, "", "")), false, false, Good(Cancelled);
      }
      if !spawns { return Bad(SpawnFailed), false, false, supervision; }
      spawned := true;
      if !hasId {
        var _ := KillRoot();
        var _ := WaitForRoot();
        assert log[|log| - 1].Waited?;
        return Bad(MissingProcessId), true, false, supervision;
      }
      if !hasPipes {
        BestEffortCleanup();
        return Bad(MissingPipe), true, false, supervision;
      }
      drained := true;
      var trigger;
      trigger, supervision := Supervise();
      if supervision.Bad? {
        BestEffortCleanup();
      }
      var drains := JoinDrains();
      if supervision.Bad? {
        result := Bad(supervision.error);
      } else if drains.Bad? {
        result := Bad(drains.error);
      } else {
        result := Good(Output(supervision.value, drains.value.0, drains.value.1));
      }
    }
  }
}
