/**
 * The owner of one preparation child: one retained operation, at most one pending batch, and an
 * operating system that may answer every spawn, wait and kill as it likes.
 */
module Preparation {
  import opened Options

  type Child = nat
  type Ticket = nat

  datatype Failure =
    | NotAbsolute
    | Protocol
    | Io
    | Exited
    | TimedOut
    | Cleanup
    | Unavailable
    | Exhausted

  datatype Prepared = Reply | CancelledWork

  datatype Result = Ok(prepared: Prepared) | Err(failure: Failure)

  /** How far the retained operation has come; it owns its child while it runs. */
  datatype Phase =
    | Created(process: Option<Child>)
    | Exchanging(child: Child)
    | Reaping(child: Child, result: Result)

  datatype Work = Work(ticket: Ticket, cancelled: bool, phase: Phase, pending: Option<Ticket>)

  datatype State =
    | Idle(process: Option<Child>)
    | Active(work: Work)
    | Quarantined(process: Option<Child>)
    | Stopped

  /** What a shutdown still waits for, once the owner's state says stopped. */
  datatype Closing = Finishing(work: Work) | Stopping(child: Child, result: Result)

  datatype Completion =
    | Ready(ticket: Ticket)
    | CancelledBatch(ticket: Ticket)
    | FailedBatch(batch: Option<Ticket>, failure: Failure)

  /** What the operating system or the child answers when the owner waits. */
  datatype Answer =
    | NothingYet
    | Spawned
    | SpawnFailed
    | Replied
    | BadReply
    | DeadlinePassed
    | ChildExited
    | WaitFailed
    | Reaped
    | ReapFailed

  /** The owner with the children that exist: spawned and not reaped. */
  datatype Owner = Owner(
    absolute: bool,
    state: State,
    closing: Option<Closing>,
    sequence: nat,
    alive: set<Child>,
    spawned: nat,
    completed: seq<Ticket>)

  function NewOwner(absolute: bool): Owner {
    Owner(absolute, Idle(None), None, 0, {}, 0, [])
  }

  // ------------------------------------------------------------------ the operation

  datatype Progress =
    | Waiting(phase: Phase, alive: set<Child>, spawned: nat)
    | Done(process: Option<Child>, result: Result, alive: set<Child>, spawned: nat)

  /** One wait of the operation. Cancellation is looked at before anything the child says. */
  function Operate(phase: Phase, cancelled: bool, alive: set<Child>, spawned: nat, answer: Answer): Progress {
    match phase
    case Created(None) =>
      if cancelled then Done(None, Ok(CancelledWork), alive, spawned)
      else if answer.Spawned? then Waiting(Exchanging(spawned), alive + {spawned}, spawned + 1)
      else if answer.SpawnFailed? then Done(None, Err(Io), alive, spawned)
      else Waiting(phase, alive, spawned)
    case Created(Some(child)) =>
      if cancelled then Waiting(Reaping(child, Ok(CancelledWork)), alive, spawned)
      else Waiting(Exchanging(child), alive, spawned)
    case Exchanging(child) =>
      if cancelled then Waiting(Reaping(child, Ok(CancelledWork)), alive, spawned)
      else (
        match answer
        case Replied => Done(Some(child), Ok(Reply), alive, spawned)
        case BadReply => Waiting(Reaping(child, Err(Protocol)), alive, spawned)
        case DeadlinePassed => Waiting(Reaping(child, Err(TimedOut)), alive, spawned)
        case ChildExited => Waiting(Reaping(child, Err(Exited)), alive - {child}, spawned)
        case WaitFailed => Waiting(Reaping(child, Err(Io)), alive, spawned)
        case _ => Waiting(phase, alive, spawned)
      )
    case Reaping(child, result) =>
      if answer.Reaped? then Done(None, result, alive - {child}, spawned)
      else if answer.ReapFailed? then Done(Some(child), Err(Cleanup), alive, spawned)
      else Waiting(phase, alive, spawned)
  }

  function Start(ticket: Ticket, process: Option<Child>): State {
    Active(Work(ticket, false, Created(process), None))
  }

  // ------------------------------------------------------------------ the owner's methods

  datatype Admission = Admitted(ticket: Ticket) | Rejected(failure: Failure)

  function Admit(s: Owner, encodable: bool): Admission {
    if !s.absolute then Rejected(NotAbsolute)
    else if s.state.Quarantined? || s.state.Stopped? then Rejected(Unavailable)
    else if s.sequence >= U64_MAX then Rejected(Exhausted)
    else if !encodable then Rejected(Protocol)
    else Admitted(s.sequence + 1)
  }

  function Submit(s: Owner, encodable: bool): Owner {
    if Admit(s, encodable).Rejected? then s
    else
      var ticket := s.sequence + 1;
      match s.state
      case Active(work) =>
        s.(sequence := ticket, state := Active(work.(cancelled := true, pending := Some(ticket))))
      case Idle(process) => s.(sequence := ticket, state := Start(ticket, process))
      case _ => s
  }

  function Cancel(s: Owner): Owner {
    if s.state.Active?
    then s.(state := Active(s.state.work.(cancelled := true, pending := None)))
    else s
  }

  function CompletionOf(ticket: Ticket, result: Result): Completion {
    match result
    case Err(failure) => FailedBatch(Some(ticket), failure)
    case Ok(CancelledWork) => CancelledBatch(ticket)
    case Ok(Reply) => Ready(ticket)
  }

  /** Where the owner stands after its operation ended, and the pending batch it may start. */
  function Settle(process: Option<Child>, result: Result, pending: Option<Ticket>): State {
    if result == Err(Cleanup) then Quarantined(process)
    else if pending.Some? then Start(pending.value, None)
    else Idle(process)
  }

  datatype Waited = Waited(owner: Owner, completion: Option<Completion>)

  /** One wait for the next completion. */
  function Next(s: Owner, answer: Answer): Waited {
    match s.state
    case Active(work) => (
      match Operate(work.phase, work.cancelled, s.alive, s.spawned, answer)
      case Waiting(phase, alive, spawned) =>
        Waited(s.(state := Active(work.(phase := phase)), alive := alive, spawned := spawned), None)
      case Done(process, result, alive, spawned) =>
        Waited(s.(state := Settle(process, result, work.pending), alive := alive, spawned := spawned,
                  completed := s.completed + [work.ticket]),
               Some(CompletionOf(work.ticket, result)))
    )
    case Idle(Some(child)) => (
      match answer
      case ChildExited =>
        Waited(s.(state := Idle(None), alive := s.alive - {child}), Some(FailedBatch(None, Exited)))
      case Reaped =>
        // Waiting failed, and the child was then killed and reaped.
        Waited(s.(state := Idle(None), alive := s.alive - {child}), Some(FailedBatch(None, Io)))
      case ReapFailed =>
        Waited(s.(state := Quarantined(Some(child))), Some(FailedBatch(None, Cleanup)))
      case _ => Waited(s, None)
    )
    case _ => Waited(s, None)
  }

  /** A shutdown stops the owner at once; what it then awaits is in `closing`. */
  function Shutdown(s: Owner): Owner {
    match s.state
    case Active(work) =>
      s.(state := Stopped, closing := Some(Finishing(work.(cancelled := true, pending := None))))
    case Idle(Some(child)) => s.(state := Stopped, closing := Some(Stopping(child, Ok(CancelledWork))))
    case Quarantined(Some(child)) =>
      s.(state := Stopped, closing := Some(Stopping(child, Ok(CancelledWork))))
    case _ => s.(state := Stopped)
  }

  /** One wait of a shutdown. */
  function Close(s: Owner, answer: Answer): Owner {
    match s.closing
    case Some(Finishing(work)) => (
      match Operate(work.phase, work.cancelled, s.alive, s.spawned, answer)
      case Waiting(phase, alive, spawned) =>
        s.(closing := Some(Finishing(work.(phase := phase))), alive := alive, spawned := spawned)
      case Done(process, result, alive, spawned) =>
        s.(closing := if process.Some? then Some(Stopping(process.value, result)) else None,
           alive := alive, spawned := spawned)
    )
    case Some(Stopping(child, _)) =>
      if answer.Reaped? then s.(closing := None, alive := s.alive - {child})
      else if answer.ReapFailed? then s.(closing := None, state := Quarantined(Some(child)))
      else s
    case None => s
  }

  function FailureOf(result: Result): Option<Failure> {
    match result
    case Ok(_) => None
    case Err(failure) => Some(failure)
  }

  /** What a shutdown returns at once: nothing yet while a child or an operation is still awaited. */
  function ShutdownReturns(s: Owner): Option<Option<Failure>> {
    match s.state
    case Quarantined(None) => Some(Some(Unavailable))
    case Idle(None) => Some(None)
    case Stopped => Some(None)
    case _ => None
  }

  /** What a shutdown returns after one more wait: a failure to reap replaces any earlier result. */
  function CloseReturns(s: Owner, answer: Answer): Option<Option<Failure>> {
    match s.closing
    case Some(Finishing(work)) => (
      match Operate(work.phase, work.cancelled, s.alive, s.spawned, answer)
      case Waiting(_, _, _) => None
      case Done(process, result, _, _) => if process.Some? then None else Some(FailureOf(result))
    )
    case Some(Stopping(_, result)) =>
      if answer.Reaped? then Some(FailureOf(result))
      else if answer.ReapFailed? then Some(Some(Cleanup))
      else None
    case None => None
  }

  // ------------------------------------------------------------------ the invariant

  function Held(process: Option<Child>): set<Child> {
    if process.Some? then {process.value} else {}
  }

  function PhaseChild(phase: Phase): set<Child> {
    match phase
    case Created(process) => Held(process)
    case Exchanging(child) => {child}
    case Reaping(child, _) => {child}
  }

  /** The child the owner is answerable for, if any. */
  function Owned(s: Owner): set<Child> {
    (match s.state
     case Idle(process) => Held(process)
     case Active(work) => PhaseChild(work.phase)
     case Quarantined(process) => Held(process)
     case Stopped => {}) +
    (match s.closing
     case Some(Finishing(work)) => PhaseChild(work.phase)
     case Some(Stopping(child, _)) => {child}
     case None => {})
  }

  /** An operation reaps with a success in hand only when it was cancelled. */
  ghost predicate WorkHolds(work: Work) {
    && (work.phase.Reaping? && work.phase.result.Ok? ==>
          work.cancelled && work.phase.result.prepared.CancelledWork?)
    && (work.pending.Some? ==> work.cancelled)
  }

  ghost predicate TicketsRise(completed: seq<Ticket>) {
    forall i, j :: 0 <= i < j < |completed| ==> completed[i] < completed[j]
  }

  /** Tickets complete in order; the one in work is newer, and what is pending is the newest. */
  ghost predicate TicketsHold(s: Owner) {
    && TicketsRise(s.completed)
    && (forall t <- s.completed :: t <= s.sequence)
    && (s.state.Active? ==>
          var work := s.state.work;
          && (forall t <- s.completed :: t < work.ticket) && work.ticket <= s.sequence
          && (!work.cancelled ==> work.ticket == s.sequence)
          && (work.pending.Some? ==> work.pending.value == s.sequence && work.ticket < s.sequence))
  }

  ghost predicate OwnerHolds(s: Owner) {
    && s.alive <= Owned(s)
    && (forall c <- Owned(s) :: c < s.spawned)
    && (s.closing.Some? ==> s.state.Stopped?)
    && (s.state.Active? ==> WorkHolds(s.state.work))
    && (s.closing.Some? && s.closing.value.Finishing? ==>
          s.closing.value.work.cancelled && WorkHolds(s.closing.value.work))
    && TicketsHold(s)
  }

  lemma NewOwnerHolds(absolute: bool)
    ensures OwnerHolds(NewOwner(absolute))
  {
  }

  /** At most one child exists, because every child alive is the one the owner answers for. */
  lemma AtMostOneChild(s: Owner)
    requires OwnerHolds(s)
    ensures forall c, d :: c in s.alive && d in s.alive ==> c == d
    ensures |s.alive| <= 1
  {
    forall c, d | c in s.alive && d in s.alive ensures c == d {
      assert c in Owned(s) && d in Owned(s);
    }
    if c :| c in s.alive {
      assert s.alive == {c};
    }
  }

  // ------------------------------------------------------------------ the operation's promise

  /** A cancelled operation hands back no process, unless it could not reap the child. */
  lemma CancelledHandsNothingBack(work: Work, alive: set<Child>, spawned: nat, answer: Answer)
    requires WorkHolds(work)
    ensures var p := Operate(work.phase, work.cancelled, alive, spawned, answer);
            p.Done? && work.cancelled && p.process.Some? ==> p.result == Err(Cleanup)
    ensures var p := Operate(work.phase, work.cancelled, alive, spawned, answer);
            p.Waiting? ==> WorkHolds(work.(phase := p.phase))
  {
  }

  /** Whatever the answer, the operation owns the one child it works with, and reaps before it ends. */
  lemma OperateOwnsItsChild(work: Work, alive: set<Child>, spawned: nat, answer: Answer)
    requires alive <= PhaseChild(work.phase) && forall c <- PhaseChild(work.phase) :: c < spawned
    ensures var p := Operate(work.phase, work.cancelled, alive, spawned, answer);
            if p.Waiting?
            then p.alive <= PhaseChild(p.phase) && forall c <- PhaseChild(p.phase) :: c < p.spawned
            else p.alive <= Held(p.process) && forall c <- Held(p.process) :: c < p.spawned
    ensures work.cancelled ==>
              Operate(work.phase, work.cancelled, alive, spawned, answer).spawned == spawned
  {
  }

  // ------------------------------------------------------------------ what each call answers, said over states

  /** The active work has ended with this child in hand and this result, by this answer. */
  ghost predicate EndsWith(work: Work, answer: Answer, process: Option<Child>, result: Result) {
    || (work.phase == Created(None) && work.cancelled
        && process == None && result == Ok(CancelledWork))
    || (work.phase == Created(None) && !work.cancelled && answer.SpawnFailed?
        && process == None && result == Err(Io))
    || (work.phase.Exchanging? && !work.cancelled && answer.Replied?
        && process == Some(work.phase.child) && result == Ok(Reply))
    || (work.phase.Reaping? && answer.Reaped? && process == None && result == work.phase.result)
    || (work.phase.Reaping? && answer.ReapFailed?
        && process == Some(work.phase.child) && result == Err(Cleanup))
  }

  /** Exactly then the work ends with this answer. */
  ghost predicate Ending(work: Work, answer: Answer) {
    match work.phase
    case Created(None) => work.cancelled || answer.SpawnFailed?
    case Created(Some(_)) => false
    case Exchanging(_) => !work.cancelled && answer.Replied?
    case Reaping(_, _) => answer.Reaped? || answer.ReapFailed?
  }

  /** The failure an answer stands for while a child is working. */
  ghost predicate StandsFor(answer: Answer, failure: Failure) {
    || (answer.BadReply? && failure.Protocol?)
    || (answer.DeadlinePassed? && failure.TimedOut?)
    || (answer.ChildExited? && failure.Exited?)
    || (answer.WaitFailed? && failure.Io?)
  }

  /** The work turns to reaping its child: it was cancelled, or the child failed it. */
  ghost predicate TurnsToReap(work: Work, answer: Answer, child: Child, result: Result) {
    || (work.cancelled && result == Ok(CancelledWork)
        && (work.phase == Created(Some(child)) || work.phase == Exchanging(child)))
    || (!work.cancelled && work.phase == Exchanging(child)
        && result.Err? && StandsFor(answer, result.failure))
  }

  /** The work goes on to this phase; only spawning makes a child, only an exit seen takes one away. */
  ghost predicate GoesOn(
    work: Work, answer: Answer, phase: Phase, alive: set<Child>, spawned: nat, alive': set<Child>, spawned': nat)
  {
    match phase
    case Created(process) =>
      && phase == work.phase && process.None? && !work.cancelled
      && !answer.Spawned? && !answer.SpawnFailed? && alive' == alive && spawned' == spawned
    case Exchanging(child) =>
      && !work.cancelled
      && (match work.phase
         case Created(None) =>
           answer.Spawned? && child == spawned && alive' == alive + {spawned} && spawned' == spawned + 1
         case Created(Some(own)) => child == own && alive' == alive && spawned' == spawned
         case Exchanging(own) =>
           && child == own && alive' == alive && spawned' == spawned && !answer.Replied?
           && forall failure :: !StandsFor(answer, failure)
         case Reaping(_, _) => false)
    case Reaping(child, result) =>
      && spawned' == spawned
      && if work.phase.Reaping?
         then phase == work.phase && !answer.Reaped? && !answer.ReapFailed? && alive' == alive
         else
           && TurnsToReap(work, answer, child, result)
           && alive' == if result == Err(Exited) then alive - {child} else alive
  }

  /** The children left when an operation ends: a reaped one is gone. */
  ghost predicate LeftAlive(work: Work, answer: Answer, alive: set<Child>, alive': set<Child>) {
    alive' == if work.phase.Reaping? && answer.Reaped? then alive - {work.phase.child} else alive
  }

  lemma OperateIsSaid(work: Work, alive: set<Child>, spawned: nat, answer: Answer)
    ensures var p := Operate(work.phase, work.cancelled, alive, spawned, answer);
            if p.Done?
            then EndsWith(work, answer, p.process, p.result)
                 && LeftAlive(work, answer, alive, p.alive) && p.spawned == spawned
            else GoesOn(work, answer, p.phase, alive, spawned, p.alive, p.spawned)
    ensures Operate(work.phase, work.cancelled, alive, spawned, answer).Done? <==> Ending(work, answer)
  {
  }

  /** Exactly then a wait reports the batch ready: its own child answered it before any cancellation. */
  ghost predicate ReadyNow(s: Owner, answer: Answer, ticket: Ticket) {
    && s.state.Active? && s.state.work.ticket == ticket && !s.state.work.cancelled
    && s.state.work.phase.Exchanging? && answer.Replied?
  }

  /** It was cancelled and had no child, or its child is now reaped with the cancellation in hand. */
  ghost predicate CancelledNow(s: Owner, answer: Answer, ticket: Ticket) {
    && s.state.Active? && s.state.work.ticket == ticket && s.state.work.cancelled
    && (s.state.work.phase == Created(None)
        || (s.state.work.phase.Reaping? && s.state.work.phase.result.Ok? && answer.Reaped?))
  }

  /** The work failed for this reason, or the idle child did, which no ticket is charged for. */
  ghost predicate FailedNow(s: Owner, answer: Answer, batch: Option<Ticket>, failure: Failure) {
    match s.state
    case Active(work) =>
      && batch == Some(work.ticket)
      && (|| (work.phase == Created(None) && !work.cancelled && answer.SpawnFailed? && failure.Io?)
          || (work.phase.Reaping? && answer.Reaped? && work.phase.result == Err(failure))
          || (work.phase.Reaping? && answer.ReapFailed? && failure.Cleanup?))
    case Idle(Some(_)) =>
      && batch == None
      && (|| (answer.ChildExited? && failure.Exited?)
          || (answer.Reaped? && failure.Io?)
          || (answer.ReapFailed? && failure.Cleanup?))
    case _ => false
  }

  /** What one wait reports, each report with the exact condition it stands for. */
  ghost predicate ReportSays(s: Owner, answer: Answer, completion: Option<Completion>) {
    && (forall t :: completion == Some(Ready(t)) <==> ReadyNow(s, answer, t))
    && (forall t :: completion == Some(CancelledBatch(t)) <==> CancelledNow(s, answer, t))
    && (forall batch, failure ::
          completion == Some(FailedBatch(batch, failure)) <==> FailedNow(s, answer, batch, failure))
  }

  /** Where one wait leaves the owner. */
  ghost predicate WaitSays(s: Owner, s': Owner, answer: Answer) {
    && s' == s.(state := s'.state, alive := s'.alive, spawned := s'.spawned, completed := s'.completed)
    && match s.state
       case Active(work) =>
         if s'.completed == s.completed then
           && s'.state.Active? && s'.state.work == work.(phase := s'.state.work.phase)
           && GoesOn(work, answer, s'.state.work.phase, s.alive, s.spawned, s'.alive, s'.spawned)
         else
           && s'.completed == s.completed + [work.ticket] && s'.spawned == s.spawned
           && LeftAlive(work, answer, s.alive, s'.alive)
           && exists process, result :: EndsWith(work, answer, process, result)
                && s'.state ==
                     if result == Err(Cleanup) then Quarantined(process)
                     else if work.pending.Some?
                     then Active(Work(work.pending.value, false, Created(None), None))
                     else Idle(process)
       case Idle(Some(child)) =>
         && s'.completed == s.completed && s'.spawned == s.spawned
         && (if answer.ChildExited? || answer.Reaped?
             then s'.state == Idle(None) && s'.alive == s.alive - {child}
             else if answer.ReapFailed? then s'.state == Quarantined(Some(child)) && s'.alive == s.alive
             else s' == s)
       case _ => s' == s
  }

  lemma WaitIsReported(s: Owner, answer: Answer)
    requires s.state.Active? ==> WorkHolds(s.state.work)
    ensures ReportSays(s, answer, Next(s, answer).completion)
  {
    hide Operate, Settle, GoesOn, LeftAlive;
    if s.state.Active? {
      OperateIsSaid(s.state.work, s.alive, s.spawned, answer);
    }
  }

  lemma WaitLeaves(s: Owner, answer: Answer)
    ensures WaitSays(s, Next(s, answer).owner, answer)
  {
    hide Operate, GoesOn, LeftAlive, EndsWith, CompletionOf;
    if s.state.Active? {
      OperateIsSaid(s.state.work, s.alive, s.spawned, answer);
    }
  }

  lemma WaitIsSaid(s: Owner, answer: Answer)
    requires OwnerHolds(s)
    ensures ReportSays(s, answer, Next(s, answer).completion)
    ensures WaitSays(s, Next(s, answer).owner, answer)
  {
    hide Next, ReportSays, WaitSays, TicketsHold, Owned, WorkHolds;
    WaitIsReported(s, answer);
    WaitLeaves(s, answer);
  }

  ghost predicate RejectedFor(s: Owner, encodable: bool, failure: Failure) {
    match failure
    case NotAbsolute => !s.absolute
    case Unavailable => s.absolute && (s.state.Quarantined? || s.state.Stopped?)
    case Exhausted => s.absolute && (s.state.Idle? || s.state.Active?) && s.sequence >= U64_MAX
    case Protocol =>
      s.absolute && (s.state.Idle? || s.state.Active?) && s.sequence < U64_MAX && !encodable
    case _ => false
  }

  /**
   * A rejected batch changes nothing. An admitted one takes the next ticket: it starts on the idle
   * child, or cancels the active work and becomes the only one pending.
   */
  ghost predicate SubmitSays(s: Owner, s': Owner, encodable: bool, admission: Admission) {
    match admission
    case Rejected(failure) => s' == s && RejectedFor(s, encodable, failure)
    case Admitted(ticket) =>
      && s.absolute && encodable && s.sequence < U64_MAX && ticket == s.sequence + 1
      && s' == s.(sequence := ticket, state := s'.state)
      && match s.state
         case Idle(process) => s'.state == Active(Work(ticket, false, Created(process), None))
         case Active(work) =>
           s'.state == Active(Work(work.ticket, true, work.phase, Some(ticket)))
         case _ => false
  }

  lemma SubmitIsSaid(s: Owner, encodable: bool)
    ensures SubmitSays(s, Submit(s, encodable), encodable, Admit(s, encodable))
  {
  }

  /** Active work is told to end, and nothing follows it; anything else is left alone. */
  ghost predicate CancelSays(s: Owner, s': Owner) {
    match s.state
    case Active(work) => s' == s.(state := Active(Work(work.ticket, true, work.phase, None)))
    case _ => s' == s
  }

  /** The owner is stopped at once; it returns at once exactly when nothing is left to await. */
  ghost predicate ShutdownSays(s: Owner, s': Owner, returned: Option<Option<Failure>>) {
    && s' == s.(state := Stopped, closing := s'.closing)
    && match s.state
       case Active(work) =>
         returned == None && s'.closing == Some(Finishing(Work(work.ticket, true, work.phase, None)))
       case Idle(Some(child)) => returned == None && s'.closing == Some(Stopping(child, Ok(CancelledWork)))
       case Quarantined(Some(child)) =>
         returned == None && s'.closing == Some(Stopping(child, Ok(CancelledWork)))
       case Quarantined(None) => returned == Some(Some(Unavailable)) && s'.closing == s.closing
       case _ => returned == Some(None) && s'.closing == s.closing
  }

  /** Success and failure of a result, as a shutdown returns them. */
  ghost predicate Returns(result: Result, returned: Option<Option<Failure>>) {
    && returned.Some?
    && (returned.value.None? <==> result.Ok?)
    && (result.Err? ==> returned.value == Some(result.failure))
  }

  /** One wait of a shutdown: the operation is finished first, then its child is stopped. */
  ghost predicate CloseSays(s: Owner, s': Owner, answer: Answer, returned: Option<Option<Failure>>)
    requires s.closing.Some?
  {
    && s' == s.(state := s'.state, closing := s'.closing, alive := s'.alive, spawned := s'.spawned)
    && match s.closing.value
       case Finishing(work) =>
         && s'.state == s.state
         && (if s'.closing.Some? && s'.closing.value.Finishing? then
               && returned == None && s'.closing.value.work == work.(phase := s'.closing.value.work.phase)
               && GoesOn(work, answer, s'.closing.value.work.phase, s.alive, s.spawned, s'.alive, s'.spawned)
             else
               && s'.spawned == s.spawned && LeftAlive(work, answer, s.alive, s'.alive)
               && exists process, result :: EndsWith(work, answer, process, result)
                    && if process.Some?
                       then returned == None && s'.closing == Some(Stopping(process.value, result))
                       else Returns(result, returned) && s'.closing == None)
       case Stopping(child, result) =>
         && s'.spawned == s.spawned
         && (if answer.Reaped? then
               && Returns(result, returned) && s'.closing == None && s'.state == s.state
               && s'.alive == s.alive - {child}
             else if answer.ReapFailed? then
               && returned == Some(Some(Cleanup)) && s'.closing == None
               && s'.state == Quarantined(Some(child)) && s'.alive == s.alive
             else s' == s && returned == None)
  }

  lemma ShutdownIsSaid(s: Owner)
    ensures ShutdownSays(s, Shutdown(s), ShutdownReturns(s)) && CancelSays(s, Cancel(s))
  {
  }

  lemma CloseIsSaid(s: Owner, answer: Answer)
    requires s.closing.Some?
    ensures CloseSays(s, Close(s, answer), answer, CloseReturns(s, answer))
  {
    if s.closing.value.Finishing? {
      OperateIsSaid(s.closing.value.work, s.alive, s.spawned, answer);
      hide Operate, GoesOn, LeftAlive;
    }
  }

  // ------------------------------------------------------------------ every step keeps it

  datatype Step =
    | Submitting(encodable: bool)
    | Waits(answer: Answer)
    | Cancelling
    | ShuttingDown
    | ClosingWaits(answer: Answer)

  /** While a shutdown is awaited it holds the owner, so nothing but its own waiting can happen. */
  predicate Possible(s: Owner, step: Step) {
    if s.closing.Some? then step.ClosingWaits? else !step.ClosingWaits?
  }

  function Take(s: Owner, step: Step): Owner {
    match step
    case Submitting(encodable) => Submit(s, encodable)
    case Waits(answer) => Next(s, answer).owner
    case Cancelling => Cancel(s)
    case ShuttingDown => Shutdown(s)
    case ClosingWaits(answer) => Close(s, answer)
  }

  lemma SubmitHolds(s: Owner, encodable: bool)
    requires OwnerHolds(s) && s.closing.None?
    ensures OwnerHolds(Submit(s, encodable))
  {
  }

  lemma RiseNext(completed: seq<Ticket>, next: Ticket)
    requires TicketsRise(completed) && forall t <- completed :: t < next
    ensures TicketsRise(completed + [next])
    ensures forall t <- completed + [next] :: t in completed || t == next
  {
    assert forall i :: 0 <= i < |completed| ==> completed[i] in completed;
  }

  lemma NextHolds(s: Owner, answer: Answer)
    requires OwnerHolds(s) && s.closing.None?
    ensures OwnerHolds(Next(s, answer).owner)
  {
    if s.state.Active? {
      var work := s.state.work;
      RiseNext(s.completed, work.ticket);
      CancelledHandsNothingBack(work, s.alive, s.spawned, answer);
      OperateOwnsItsChild(work, s.alive, s.spawned, answer);
      hide Operate;
    }
  }

  lemma ShutdownHolds(s: Owner)
    requires OwnerHolds(s) && s.closing.None?
    ensures OwnerHolds(Shutdown(s)) && OwnerHolds(Cancel(s))
  {
  }

  lemma CloseHolds(s: Owner, answer: Answer)
    requires OwnerHolds(s) && s.closing.Some?
    ensures OwnerHolds(Close(s, answer))
  {
    if s.closing.value.Finishing? {
      var work := s.closing.value.work;
      CancelledHandsNothingBack(work, s.alive, s.spawned, answer);
      OperateOwnsItsChild(work, s.alive, s.spawned, answer);
      hide Operate;
    }
  }

  lemma TakeHolds(s: Owner, step: Step)
    requires OwnerHolds(s) && Possible(s, step)
    ensures OwnerHolds(Take(s, step))
  {
    hide OwnerHolds;
    match step
    case Submitting(encodable) => SubmitHolds(s, encodable);
    case Waits(answer) => NextHolds(s, answer);
    case Cancelling => ShutdownHolds(s);
    case ShuttingDown => ShutdownHolds(s);
    case ClosingWaits(answer) => CloseHolds(s, answer);
  }

  // ------------------------------------------------------------------ whole runs

  ghost predicate Feasible(s: Owner, steps: seq<Step>)
    decreases |steps|
  {
    steps == [] || (Possible(s, steps[0]) && Feasible(Take(s, steps[0]), steps[1..]))
  }

  function Run(s: Owner, steps: seq<Step>): Owner
    decreases |steps|
  {
    if steps == [] then s else Run(Take(s, steps[0]), steps[1..])
  }

  /**
   * Across every interleaving of submissions, waits, cancellations and shutdowns, and whatever the
   * operating system answers: at most one child exists, and no ticket completes twice or out of order.
   */
  lemma {:induction false} EveryRunHolds(s: Owner, steps: seq<Step>)
    requires OwnerHolds(s) && Feasible(s, steps)
    ensures OwnerHolds(Run(s, steps))
    ensures |Run(s, steps).alive| <= 1 && TicketsRise(Run(s, steps).completed)
    decreases |steps|
  {
    if steps == [] {
      AtMostOneChild(s);
    } else {
      TakeHolds(s, steps[0]);
      EveryRunHolds(Take(s, steps[0]), steps[1..]);
    }
  }

  /** The ticket is behind the owner: done, or cancelled if it is still in work. */
  ghost predicate Superseded(s: Owner, t: Ticket) {
    && t <= s.sequence
    && (s.state.Active? ==>
          && t <= s.state.work.ticket
          && (s.state.work.ticket == t ==> s.state.work.cancelled)
          && (s.state.work.pending.Some? ==> t < s.state.work.pending.value))
  }

  lemma SupersededStays(s: Owner, step: Step, t: Ticket)
    requires OwnerHolds(s) && Possible(s, step) && Superseded(s, t)
    ensures Superseded(Take(s, step), t)
  {
    match step
    case Waits(answer) => WaitIsSaid(s, answer);
    case Submitting(encodable) => SubmitIsSaid(s, encodable);
    case _ =>
  }

  lemma {:induction false} SupersededForGood(s: Owner, steps: seq<Step>, t: Ticket)
    requires OwnerHolds(s) && Feasible(s, steps) && Superseded(s, t)
    ensures Superseded(Run(s, steps), t)
    decreases |steps|
  {
    if steps != [] {
      TakeHolds(s, steps[0]);
      SupersededStays(s, steps[0], t);
      hide OwnerHolds, Superseded, Take, Possible;
      SupersededForGood(Take(s, steps[0]), steps[1..], t);
    }
  }

  /**
   * A batch that is replaced or cancelled before its reply never completes as ready, however long the
   * owner is driven afterwards and whatever the child still answers.
   */
  lemma SupersededIsNeverReady(s: Owner, step: Step, steps: seq<Step>, answer: Answer)
    requires OwnerHolds(s) && s.closing.None? && s.state.Active?
    requires step.Cancelling? || (step.Submitting? && Admit(s, step.encodable).Admitted?)
    requires Feasible(Take(s, step), steps) && Run(Take(s, step), steps).closing.None?
    ensures Next(Run(Take(s, step), steps), answer).completion != Some(Ready(s.state.work.ticket))
  {
    var t := s.state.work.ticket;
    TakeHolds(s, step);
    assert Superseded(Take(s, step), t) by {
      if step.Submitting? { SubmitIsSaid(s, step.encodable); }
    }
    SupersededForGood(Take(s, step), steps, t);
    EveryRunHolds(Take(s, step), steps);
    var last := Run(Take(s, step), steps);
    WaitIsSaid(last, answer);
    hide OwnerHolds, Next;
    assert last.state.Active? && last.state.work.ticket == t ==> last.state.work.cancelled;
  }

  predicate Ended(s: Owner) {
    s.state.Quarantined? || s.state.Stopped?
  }

  lemma EndedStaysEnded(s: Owner, step: Step)
    requires OwnerHolds(s) && Possible(s, step) && Ended(s)
    ensures var s' := Take(s, step);
            Ended(s') && s'.spawned == s.spawned && s'.completed == s.completed && s'.alive <= s.alive
  {
  }

  /** After quarantine or stop nothing is started and nothing completes, however long it is driven. */
  lemma {:induction false} NothingStartsAfterTheEnd(s: Owner, steps: seq<Step>)
    requires OwnerHolds(s) && Feasible(s, steps) && Ended(s)
    ensures var s' := Run(s, steps);
            Ended(s') && s'.spawned == s.spawned && s'.completed == s.completed && s'.alive <= s.alive
    decreases |steps|
  {
    if steps != [] {
      TakeHolds(s, steps[0]);
      EndedStaysEnded(s, steps[0]);
      NothingStartsAfterTheEnd(Take(s, steps[0]), steps[1..]);
    }
  }

  /** A shutdown that returns leaves no child, unless it quarantined the one it could not reap. */
  lemma ClosedLeavesNoChild(s: Owner, answer: Answer)
    requires OwnerHolds(s) && s.closing.Some? && Close(s, answer).closing.None?
    ensures Close(s, answer).state.Stopped? ==> Close(s, answer).alive == {}
    ensures Close(s, answer).state.Quarantined? ==> answer.ReapFailed?
  {
    CloseHolds(s, answer);
  }

  /** A shutdown returns exactly when nothing is left to await; success means no child is left. */
  lemma ShutdownReturnsWhenDone(s: Owner, answer: Answer)
    requires OwnerHolds(s) && s.closing.Some?
    ensures CloseReturns(s, answer).Some? <==> Close(s, answer).closing.None?
    ensures CloseReturns(s, answer) == Some(None) ==>
              Close(s, answer).alive == {} && Close(s, answer).state.Stopped?
  {
    CloseHolds(s, answer);
  }

  /** The batch that runs next is always the latest one submitted; what it replaced never completes. */
  lemma LatestReplaces(s: Owner, answer: Answer)
    requires OwnerHolds(s) && s.state.Active? && s.state.work.pending.Some?
    requires Next(s, answer).completion.Some? && !Next(s, answer).owner.state.Quarantined?
    ensures Next(s, answer).owner.state == Start(s.sequence, None)
    ensures Next(s, answer).owner.alive == {}
  {
    var work := s.state.work;
    CancelledHandsNothingBack(work, s.alive, s.spawned, answer);
    OperateOwnsItsChild(work, s.alive, s.spawned, answer);
    hide Operate;
  }

  // ------------------------------------------------------------------ the owner

  class PreparationOwner {
    const absolute: bool
    var state: State
    var closing: Option<Closing>
    var sequence: nat
    /** The operating system's record of the children spawned and not reaped, and the next one. */
    var alive: set<Child>
    var spawned: nat
    ghost var completed: seq<Ticket>

    ghost function Abstract(): Owner
      reads this
    {
      Owner(absolute, state, closing, sequence, alive, spawned, completed)
    }

    ghost predicate Valid()
      reads this
    {
      OwnerHolds(Abstract())
    }

    constructor (absolute: bool)
      ensures Abstract() == NewOwner(absolute) && Valid()
    {
      this.absolute := absolute;
      state, closing, sequence := Idle(None), None, 0;
      alive, spawned, completed := {}, 0, [];
      new;
      NewOwnerHolds(absolute);
    }

    /** Admits a batch before cancelling prior work; a replacement keeps only the latest. */
    method SubmitBatch(encodable: bool) returns (admission: Admission)
      requires Valid() && closing.None?
      modifies this`state, this`sequence
      ensures Abstract() == Submit(old(Abstract()), encodable) && Valid()
      ensures admission == Admit(old(Abstract()), encodable)
      ensures SubmitSays(old(Abstract()), Abstract(), encodable, admission)
    {
      SubmitIsSaid(Abstract(), encodable);
      SubmitHolds(Abstract(), encodable);
      hide OwnerHolds;
      if !absolute { return Rejected(NotAbsolute); }
      if state.Quarantined? || state.Stopped? { return Rejected(Unavailable); }
      if sequence >= U64_MAX { return Rejected(Exhausted); }
      if !encodable { return Rejected(Protocol); }
      var ticket := sequence + 1;
      sequence := ticket;
      match state {
        case Active(work) =>
          state := Active(work.(cancelled := true, pending := Some(ticket)));
        case Idle(process) =>
          StartBatch(ticket, process);
      }
      return Admitted(ticket);
    }

    method StartBatch(ticket: Ticket, process: Option<Child>)
      modifies this`state
      ensures state == Start(ticket, process)
    {
      state := Active(Work(ticket, false, Created(process), None));
    }

    /** Waits once for the next completion; an unfinished operation is kept for the next wait. */
    method Wait(answer: Answer) returns (completion: Option<Completion>)
      requires Valid() && closing.None?
      modifies this`state, this`alive, this`spawned, this`completed
      ensures Abstract() == Next(old(Abstract()), answer).owner && Valid()
      ensures completion == Next(old(Abstract()), answer).completion
      ensures ReportSays(old(Abstract()), answer, completion)
      ensures WaitSays(old(Abstract()), Abstract(), answer)
    {
      hide OwnerHolds, Operate, ReportSays, WaitSays;
      WaitIsSaid(Abstract(), answer);
      NextHolds(Abstract(), answer);
      completion := None;
      match state {
        case Active(work) =>
          var progress := Operate(work.phase, work.cancelled, alive, spawned, answer);
          alive, spawned := progress.alive, progress.spawned;
          if progress.Waiting? {
            state := Active(work.(phase := progress.phase));
          } else {
            completed := completed + [work.ticket];
            var quarantined := progress.result == Err(Cleanup);
            state := if quarantined then Quarantined(progress.process) else Idle(progress.process);
            completion := Some(CompletionOf(work.ticket, progress.result));
            if !quarantined && work.pending.Some? {
              StartBatch(work.pending.value, None);
            }
          }
        case Idle(Some(child)) =>
          if answer.ChildExited? || answer.Reaped? {
            state, alive := Idle(None), alive - {child};
            completion := Some(FailedBatch(None, if answer.Reaped? then Io else Exited));
          } else if answer.ReapFailed? {
            state := Quarantined(Some(child));
            completion := Some(FailedBatch(None, Cleanup));
          }
        case _ =>
      }
    }

    /** The operation is told to end; its child is reaped by a later wait, not here. */
    method CancelWork()
      requires Valid() && closing.None?
      modifies this`state
      ensures Abstract() == Cancel(old(Abstract())) && Valid()
      ensures CancelSays(old(Abstract()), Abstract())
    {
      ShutdownIsSaid(Abstract());
      ShutdownHolds(Abstract());
      hide OwnerHolds;
      if state.Active? {
        state := Active(state.work.(cancelled := true, pending := None));
      }
    }

    /** Stops the owner; what is left to await is one operation or one child. */
    method BeginShutdown() returns (returned: Option<Option<Failure>>)
      requires Valid() && closing.None?
      modifies this`state, this`closing
      ensures Abstract() == Shutdown(old(Abstract())) && Valid()
      ensures returned == ShutdownReturns(old(Abstract()))
      ensures ShutdownSays(old(Abstract()), Abstract(), returned)
    {
      ShutdownIsSaid(Abstract());
      returned := None;
      ShutdownHolds(Abstract());
      hide OwnerHolds;
      var was := state;
      state := Stopped;
      match was {
        case Active(work) =>
          closing := Some(Finishing(work.(cancelled := true, pending := None)));
        case Idle(Some(child)) =>
          closing := Some(Stopping(child, Ok(CancelledWork)));
        case Quarantined(Some(child)) =>
          closing := Some(Stopping(child, Ok(CancelledWork)));
        case Quarantined(None) =>
          returned := Some(Some(Unavailable));
        case _ =>
          returned := Some(None);
      }
    }

    /** Waits once for the shutdown; a child that cannot be reaped is quarantined. */
    method AwaitShutdown(answer: Answer) returns (returned: Option<Option<Failure>>)
      requires Valid() && closing.Some?
      modifies this`state, this`closing, this`alive, this`spawned
      ensures Abstract() == Close(old(Abstract()), answer) && Valid()
      ensures returned == CloseReturns(old(Abstract()), answer)
      ensures CloseSays(old(Abstract()), Abstract(), answer, returned)
    {
      hide OwnerHolds, Operate, CloseSays;
      CloseIsSaid(Abstract(), answer);
      returned := None;
      CloseHolds(Abstract(), answer);
      match closing.value {
        case Finishing(work) =>
          var progress := Operate(work.phase, work.cancelled, alive, spawned, answer);
          alive, spawned := progress.alive, progress.spawned;
          if progress.Waiting? {
            closing := Some(Finishing(work.(phase := progress.phase)));
          } else if progress.process.Some? {
            closing := Some(Stopping(progress.process.value, progress.result));
          } else {
            closing, returned := None, Some(FailureOf(progress.result));
          }
        case Stopping(child, result) =>
          if answer.Reaped? {
            closing, alive, returned := None, alive - {child}, Some(FailureOf(result));
          } else if answer.ReapFailed? {
            closing, state, returned := None, Quarantined(Some(child)), Some(Some(Cleanup));
          }
      }
    }
  }
}
