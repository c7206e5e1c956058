/** Validation and reduction of one record. */
module JournalRules {
  import opened Options
  import opened ModelOutput
  import opened JournalModel
  import opened JournalInvariant

  /** Why a record is refused; only the values another rule reads are kept. */
  datatype JournalError =
    | UnexpectedSequence
    | DuplicateRecord
    | SequenceExhausted
    | DuplicateEntry
    | MissingEntry
    | MissingHead
    | StaleHead
    | ParentMismatch
    | UnavailableHeadName
    | SelectedHeadMismatch
    | CannotAbandonSelectedHead
    | RevisionExhausted
    | InvalidInitialAgentStatus
    | InvalidReference
    | MalformedReference
    | ForeignReference
    | DuplicateTurn
    | MissingTurn
    | WrongTurnAgent
    | DuplicateTurnFinish
    | InvalidTurnBoundary
    | InvalidTurnFinishTime
    | ClosedTurnInput
    | InvalidSkillActivationOrder
    | RetryUnavailable
    | DuplicateModelStep
    | UnexpectedModelStep
    | ModelStepSequenceExhausted
    | UnstableTurnTarget(turn: TurnId)
    | DuplicateRequestAttempt
    | RequestAttemptOwnerActive(attempt: AttemptId)
    | InvalidRequestAttemptBoundary
    | MissingRequestAttempt
    | DuplicateRequestAttemptTerminal
    | InvalidRequestAttemptTerminal
    | InvalidCompactionAttempt
    | RequestAttemptIsNotCompaction
    | CompactionSourceChanged
    | MissingCompactionAgent
    | MissingCompactionAttempt
    | CompactionOwnerMismatch
    | CompactionEnvironmentMismatch
    | CompactionAttemptFailed
    | InvalidCompactionCut
    | EmptyCompactionSource

  type Check = Verdict<JournalError>

  // ------------------------------------------------------------------ ancestry

  /** Entries from the root to `target`, in provider order. */
  function Ancestry(s: JournalState, target: Option<EntryId>): (path: seq<Entry>)
    requires Forest(s)
    requires target.Some? ==> target.value in s.entries
    decreases if target.Some? then s.entrySequences[target.value] else 0
  {
    if target.None? then []
    else
      var entry := s.entries[target.value];
      assert ParentPrecedes(s, target.value);
      Ancestry(s, entry.parent) + [entry]
  }

  function PathOf(s: JournalState, head: HeadName): seq<Entry>
    requires Shape(s) && head in s.heads
  {
    Ancestry(s, s.heads[head].target)
  }

  /** The last index at which `p` holds, if any. */
  function LastIndex(path: seq<Entry>, p: Payload -> bool): (index: Option<nat>)
    ensures index.Some? ==> index.value < |path| && p(path[index.value].payload)
    ensures index.Some? ==> forall k :: index.value < k < |path| ==> !p(path[k].payload)
    ensures index.None? ==> forall k :: 0 <= k < |path| ==> !p(path[k].payload)
  {
    if path == [] then None
    else if p(path[|path| - 1].payload) then Some(|path| - 1)
    else LastIndex(path[..|path| - 1], p)
  }

  // ------------------------------------------------------------------ heads

  function ValidateTarget(s: JournalState, target: Option<EntryId>): Check {
    Need(target.Some? ==> target.value in s.entries, MissingEntry)
  }

  function ValidateHead(s: JournalState, head: HeadName, expected: nat): Check {
    if head !in s.heads then Refused(MissingHead)
    else
      Need(s.heads[head].revision == expected, StaleHead)
  }

  function ValidateAvailable(s: JournalState, head: HeadName): Check {
    Need(head !in s.heads && head !in s.retired, UnavailableHeadName)
  }

  function ValidateIncrement(revision: nat): Check {
    Need(revision < U64_MAX, RevisionExhausted)
  }

  /** A branch operation may only use completed work; a refusal names the turn still open there. */
  function ValidateStableTarget(s: JournalState, target: Option<EntryId>): Check
    requires Partition(s)
    requires target.Some? ==> target.value in s.entries
  {
    if target.None? || target.value in s.stable then Accepted
    else
      assert target.value in s.stable + s.unstable.Keys;
      Refused(UnstableTurnTarget(s.unstable[target.value]))
  }

  function ValidateBranchPoint(s: JournalState, at: Option<EntryId>): Check
    requires Partition(s)
  {
    var first := ValidateTarget(s, at);
    if first.Refused? then first
    else
      ValidateStableTarget(s, at)
  }

  function ValidateNamedHead(s: JournalState, r: Record): Check
    requires Shape(s)
  {
    match r
    case CreateHead(_, _, head, at) =>
      :- ValidateAvailable(s, head);
      ValidateBranchPoint(s, at)
    case MoveHead(_, _, head, expected, to) =>
      :- ValidateHead(s, head, expected);
      :- ValidateBranchPoint(s, to);
      ValidateIncrement(s.heads[head].revision)
    case RenameHead(_, _, head, expected, renamed) =>
      :- ValidateHead(s, head, expected);
      :- ValidateAvailable(s, renamed);
      ValidateIncrement(s.heads[head].revision)
    case AbandonHead(_, _, head, expected) =>
      :- ValidateHead(s, head, expected);
      :- Need(s.selected != head, CannotAbandonSelectedHead);
      ValidateStableTarget(s, s.heads[head].target)
    case ForkAndSelectHead(_, _, source, expected, destination, at) =>
      :- Need(s.selected == source, SelectedHeadMismatch);
      :- ValidateHead(s, source, expected);
      :- ValidateAvailable(s, destination);
      ValidateBranchPoint(s, at)
    case SelectHead(_, _, expectedSelected, destination, expected) =>
      :- Need(s.selected == expectedSelected, SelectedHeadMismatch);
      ValidateHead(s, destination, expected)
    case _ => Accepted
  }

  // ------------------------------------------------------------------ turns

  function ValidateNewTurn(s: JournalState, turn: TurnId, open: Option<TurnId>): Check {
    if turn in s.starts then Refused(DuplicateTurn)
    else
      if open.Some? then Refused(UnstableTurnTarget(open.value)) else Accepted
  }

  function ValidateSteering(
    s: JournalState, agent: AgentId, turn: TurnId, open: Option<TurnId>): Check
  {
    if turn !in s.starts then Refused(MissingTurn)
    else
      :- Need(s.starts[turn].agent == agent, WrongTurnAgent);
      :- Need(turn !in s.finishes, ClosedTurnInput);
      Need(open == Some(turn), InvalidTurnBoundary)
  }

  predicate FollowsInput(s: JournalState, agent: AgentId, turn: TurnId) {
    && |s.records| > 0
    && s.records[|s.records| - 1].AppendEntry?
    && var payload := s.records[|s.records| - 1].entry.payload;
       payload == TurnStarted(agent, turn) || payload == SteeringAccepted(agent, turn)
  }

  function ValidateFinish(s: JournalState, fact: TurnFinish, open: Option<TurnId>): Check {
    if fact.turn !in s.starts then Refused(MissingTurn)
    else
      :- Need(fact.turn !in s.finishes, DuplicateTurnFinish);
      :- Need(s.starts[fact.turn].agent == fact.agent, WrongTurnAgent);
      :- Need(open == Some(fact.turn), InvalidTurnBoundary);
      Need(fact.at.Recovered? <==> fact.outcome.ProcessDied?, InvalidTurnFinishTime)
  }

  /** The one index a next step of `turn` may carry, unless 65535 steps are recorded. */
  function ExpectedStep(s: JournalState, turn: TurnId): Option<nat> {
    if turn !in s.lastSteps then Some(1)
    else if s.lastSteps[turn] < U16_MAX then Some(s.lastSteps[turn] + 1)
    else None
  }

  function ValidateStepIndex(s: JournalState, step: StepId): Check {
    var expected := ExpectedStep(s, step.turn);
    :- Need(expected.Some?, ModelStepSequenceExhausted);
    Need(step.index == expected.value, UnexpectedModelStep)
  }

  // ------------------------------------------------------------------ retry

  predicate StartsAnyTurn(p: Payload) { StartedTurn(p).Some? }

  predicate IsQuestion(p: Payload) { p.TurnStarted? }

  predicate ReportsError(p: Payload) { p.RuntimeError? }

  predicate AnswersQuestion(p: Payload) {
    p.AssistantOutput? || p.SteeringAccepted? || p.ToolCallRequested? || p.ToolCallChanged?
  }

  datatype RetryCandidate = RetryCandidate(
    turn: TurnId, revision: nat, beforeQuestion: Option<EntryId>)

  predicate AttemptOfTurn(s: JournalState, a: AttemptId, turn: TurnId)
    requires a in s.attempts
  {
    var owner := s.attempts[a].authorization.owner;
    owner.AgentStep? && owner.step.turn == turn
  }

  /** The last attempt, in authorization order, made for a step of `turn`. */
  function LastAttempt(s: JournalState, order: seq<AttemptId>, turn: TurnId): Option<AttemptId>
    requires forall a :: a in order ==> a in s.attempts
  {
    if order == [] then None
    else
      var a := order[|order| - 1];
      if AttemptOfTurn(s, a, turn) then Some(a) else LastAttempt(s, order[..|order| - 1], turn)
  }

  function Candidate(s: JournalState, head: HeadName): (c: Option<RetryCandidate>)
    requires Shape(s)
  {
    if head !in s.heads || s.heads[head].open.Some? then None
    else
      var path := PathOf(s, head);
      var latest := LastIndex(path, StartsAnyTurn);
      if latest.None? || path[latest.value].payload.CollaborationTurnStarted? then None
      else
        var turn := StartedTurn(path[latest.value].payload).value.1;
        if turn !in s.finishes || s.finishes[turn].outcome != Failed then None
        else
          var attempt := LastAttempt(s, s.attemptOrder, turn);
          if attempt.None? || attempt.value !in s.attempts
             || s.attempts[attempt.value].terminal.None?
             || !s.attempts[attempt.value].terminal.value.rateLimited
          then None
          else
            var question := LastIndex(path, IsQuestion);
            if question.None? then None
            else
              var after := path[question.value + 1..];
              if LastIndex(after, AnswersQuestion).Some? then None
              else if LastIndex(after, ReportsError).None? then None
              else Some(RetryCandidate(turn, s.heads[head].revision, path[question.value].parent))
  }

  function ValidateRetry(
    s: JournalState, head: HeadName, agent: AgentId, sourceTurn: TurnId, turn: TurnId): Check
    requires Shape(s)
  {
    var candidate := Candidate(s, head);
    :- Need(candidate.Some?, RetryUnavailable);
    :- Need(candidate.value.turn == sourceTurn, RetryUnavailable);
    :- Need(sourceTurn in s.starts && s.starts[sourceTurn].agent == agent, RetryUnavailable);
    Need(turn !in s.starts, DuplicateTurn)
  }

  // ------------------------------------------------------------------ collaboration, compaction

  predicate Announced(path: seq<Entry>, agent: AgentId) {
    exists k :: 0 <= k < |path| && path[k].payload.AgentCreated? && path[k].payload.agent == agent
  }

  function ValidateLink(
    s: JournalState, agent: AgentId, reference: Reference, parent: Option<EntryId>): Check
    requires Shape(s) && (parent.Some? ==> parent.value in s.entries)
  {
    if !reference.wellFormed then Refused(MalformedReference)
    else
      var path := Ancestry(s, parent);
      :- Need(forall k :: 0 <= k < |path| ==>
                !(path[k].payload.CollaborationItemLinked? && path[k].payload.reference == reference),
              InvalidReference);
      Need(Announced(path, agent), ForeignReference)
  }

  function ValidateCollaborationStart(
    s: JournalState, reference: Reference, turn: TurnId, open: Option<TurnId>): Check
  {
    if !reference.wellFormed then Refused(MalformedReference)
    else
      :- ValidateNewTurn(s, turn, open);
      Need(forall e <- s.entries ::
             !(s.entries[e].payload.CollaborationTurnStarted?
               && s.entries[e].payload.reference == reference),
           InvalidReference)
  }

  function EpochOf(path: seq<Entry>): Epoch {
    var checkpoint := LastIndex(path, (p: Payload) => p.CompactionCheckpoint?);
    if checkpoint.Some? then AtCheckpoint(path[checkpoint.value].id) else Original
  }

  function ValidateCheckpoint(
    s: JournalState, head: HeadName, agent: AgentId, checkpoint: Checkpoint): Check
    requires Shape(s) && head in s.heads
  {
    var target := s.heads[head].target;
    var path := PathOf(s, head);
    :- Need(target.Some?, EmptyCompactionSource);
    :- Need(checkpoint.source ==
              Source(head, s.heads[head].revision, target.value, EpochOf(path)),
            CompactionSourceChanged);
    :- Need(Announced(path, agent), MissingCompactionAgent);
    :- Need(checkpoint.attempt in s.compactions, MissingCompactionAttempt);
    var authorization := s.attempts[checkpoint.attempt].authorization;
    var collected := s.records[s.compactions[checkpoint.attempt]].collected;
    :- Need(authorization.owner == Compaction(checkpoint.compaction), CompactionOwnerMismatch);
    :- Need(authorization.boundary == checkpoint.source.boundary, CompactionSourceChanged);
    :- Need(authorization.environment == checkpoint.environment, CompactionEnvironmentMismatch);
    :- Need(collected.complete, CompactionAttemptFailed);
    :- Need(collected.replayMatches, CompactionEnvironmentMismatch);
    Need(checkpoint.cutResolves, InvalidCompactionCut)
  }

  // ------------------------------------------------------------------ attempts

  function ValidateAttemptStep(s: JournalState, step: StepId, open: Option<TurnId>): Check {
    if step.turn !in s.starts then Refused(MissingTurn)
    else
      :- Need(open == Some(step.turn), InvalidTurnBoundary);
      ValidateStepIndex(s, step)
  }

  function ValidateAuthorization(
    s: JournalState, head: HeadName, expected: nat, fact: Authorization): Check
  {
    if fact.attempt in s.attempts then Refused(DuplicateRequestAttempt)
    else
      if fact.owner in s.activeOwners
      then Refused(RequestAttemptOwnerActive(s.activeOwners[fact.owner]))
      else
        :- ValidateHead(s, head, expected);
        :- Need(s.heads[head].target == Some(fact.boundary), InvalidRequestAttemptBoundary);
        if fact.owner.AgentStep? then ValidateAttemptStep(s, fact.owner.step, s.heads[head].open)
        else Accepted
  }

  function ValidateTerminal(s: JournalState, fact: Terminal): Check {
    if fact.attempt !in s.attempts then Refused(MissingRequestAttempt)
    else
      :- Need(s.attempts[fact.attempt].terminal.None?, DuplicateRequestAttemptTerminal);
      Need(fact.consistent, InvalidRequestAttemptTerminal)
  }

  function ValidateCollected(s: JournalState, fact: Collected): Check {
    var first := ValidateTerminal(s, fact.terminal);
    if first.Refused? then first
    else
      :- Need(fact.bounded, InvalidCompactionAttempt);
      Need(s.attempts[fact.terminal.attempt].authorization.owner.Compaction?,
           RequestAttemptIsNotCompaction)
  }

  // ------------------------------------------------------------------ one record

  function ValidatePayload(s: JournalState, head: HeadName, entry: Entry): Check
    requires Shape(s) && head in s.heads
    requires entry.parent == s.heads[head].target
  {
    var open := s.heads[head].open;
    match entry.payload
    case AgentCreated(_, idle) => Need(idle, InvalidInitialAgentStatus)
    case CollaborationTurnStarted(_, turn, reference) =>
      ValidateCollaborationStart(s, reference, turn, open)
    case CollaborationItemLinked(agent, reference) => ValidateLink(s, agent, reference, entry.parent)
    case TurnStarted(_, turn) => ValidateNewTurn(s, turn, open)
    case TurnRetried(agent, sourceTurn, turn) => ValidateRetry(s, head, agent, sourceTurn, turn)
    case SteeringAccepted(agent, turn) => ValidateSteering(s, agent, turn, open)
    case SkillActivated(agent, turn) =>
      :- ValidateSteering(s, agent, turn, open);
      Need(FollowsInput(s, agent, turn), InvalidSkillActivationOrder)
    case TurnStatusChanged(agent, turn) => ValidateSteering(s, agent, turn, open)
    case AssistantOutput(agent, step, _) =>
      :- Need(step !in s.steps, DuplicateModelStep);
      :- ValidateStepIndex(s, step);
      ValidateSteering(s, agent, step.turn, open)
    case CompactionCheckpoint(agent, checkpoint) => ValidateCheckpoint(s, head, agent, checkpoint)
    case _ => Accepted
  }

  function ValidateAppend(s: JournalState, head: HeadName, expected: nat, entry: Entry): Check
    requires Shape(s)
  {
    if entry.id in s.entries then Refused(DuplicateEntry)
    else
      :- ValidateTarget(s, entry.parent);
      :- ValidateHead(s, head, expected);
      :- Need(entry.parent == s.heads[head].target, ParentMismatch);
      :- ValidatePayload(s, head, entry);
      ValidateIncrement(s.heads[head].revision)
  }

  function ValidateEnvelope(s: JournalState, r: Record): Check {
    if r.sequence != s.nextSequence then Refused(UnexpectedSequence)
    else
      :- Need(r.id !in s.recordIds, DuplicateRecord);
      Need(s.nextSequence < U64_MAX, SequenceExhausted)
  }

  function ValidateMutation(s: JournalState, r: Record): Check
    requires Shape(s)
  {
    match r
    case AppendEntry(_, _, head, expected, entry) => ValidateAppend(s, head, expected, entry)
    case SetEntryLabel(_, _, target, _) => ValidateTarget(s, Some(target))
    case FinishTurn(_, _, head, expected, fact) =>
      :- ValidateHead(s, head, expected);
      :- Need(s.heads[head].target == Some(fact.boundary), InvalidTurnBoundary);
      ValidateFinish(s, fact, s.heads[head].open)
    case AuthorizeAttempt(_, _, head, expected, fact) =>
      ValidateAuthorization(s, head, expected, fact)
    case FinishAttempt(_, _, fact) => ValidateTerminal(s, fact)
    case FinishCompaction(_, _, fact) => ValidateCollected(s, fact)
    case _ => ValidateNamedHead(s, r)
  }

  function Validate(s: JournalState, r: Record): Check
    requires Shape(s)
  {
    var first := ValidateEnvelope(s, r);
    if first.Refused? then first
    else
      ValidateMutation(s, r)
  }

  // ------------------------------------------------------------------ reduction

  function NextOpen(s: JournalState, head: HeadName, payload: Payload): Option<TurnId>
    requires head in s.heads
  {
    if StartedTurn(payload).Some? then Some(StartedTurn(payload).value.1) else s.heads[head].open
  }

  function Appended(s: JournalState, head: HeadName, entry: Entry, sequence: nat): JournalState
    requires head in s.heads
  {
    var open := NextOpen(s, head, entry.payload);
    var started := StartedTurn(entry.payload);
    s.(starts := if started.Some?
                 then s.starts[started.value.1 := TurnStart(started.value.0, entry.id)]
                 else s.starts,
       steps := if entry.payload.AssistantOutput? then s.steps + {entry.payload.step} else s.steps,
       lastSteps := if entry.payload.AssistantOutput?
                    then s.lastSteps[entry.payload.step.turn := entry.payload.step.index]
                    else s.lastSteps,
       entries := s.entries[entry.id := entry],
       entrySequences := s.entrySequences[entry.id := sequence],
       stable := if open.None? then s.stable + {entry.id} else s.stable,
       unstable := if open.Some? then s.unstable[entry.id := open.value] else s.unstable,
       heads := s.heads[head := Head(Some(entry.id), s.heads[head].revision + 1, open)])
  }

  function HeadMutated(s: JournalState, r: Record): JournalState
    requires (r.MoveHead? || r.RenameHead?) ==> r.head in s.heads
  {
    match r
    case CreateHead(_, _, head, at) => s.(heads := s.heads[head := Head(at, 0, None)])
    case MoveHead(_, _, head, _, to) =>
      s.(heads := s.heads[head := Head(to, s.heads[head].revision + 1, None)])
    case RenameHead(_, _, head, _, renamed) =>
      var moved := s.heads[head].(revision := s.heads[head].revision + 1);
      s.(heads := (s.heads - {head})[renamed := moved],
         retired := s.retired + {head},
         selected := if s.selected == head then renamed else s.selected)
    case AbandonHead(_, _, head, _) =>
      s.(heads := s.heads - {head}, retired := s.retired + {head})
    case ForkAndSelectHead(_, _, _, _, destination, at) =>
      s.(heads := s.heads[destination := Head(at, 0, None)], selected := destination)
    case SelectHead(_, _, _, destination, _) => s.(selected := destination)
    case _ => s
  }

  function Finished(s: JournalState, head: HeadName, fact: TurnFinish): JournalState
    requires head in s.heads
  {
    s.(finishes := s.finishes[fact.turn := fact],
       stable := s.stable + {fact.boundary},
       unstable := s.unstable - {fact.boundary},
       heads := s.heads[head := s.heads[head].(open := None)])
  }

  function Authorized(s: JournalState, fact: Authorization): JournalState {
    s.(attemptOrder := s.attemptOrder + [fact.attempt],
       activeOwners := s.activeOwners[fact.owner := fact.attempt],
       attempts := s.attempts[fact.attempt := Attempt(fact, None)])
  }

  function Terminated(s: JournalState, fact: Terminal): JournalState
    requires fact.attempt in s.attempts
  {
    var attempt := s.attempts[fact.attempt];
    s.(attempts := s.attempts[fact.attempt := attempt.(terminal := Some(fact))],
       activeOwners := s.activeOwners - {attempt.authorization.owner})
  }

  function Collect(s: JournalState, fact: Collected): JournalState
    requires fact.terminal.attempt in s.attempts
  {
    Terminated(s, fact.terminal).(
      compactions := s.compactions[fact.terminal.attempt := |s.records|])
  }

  function Labelled(s: JournalState, target: EntryId, text: Option<string>): JournalState {
    s.(labels := if text.Some? then s.labels[target := text.value] else s.labels - {target})
  }

  /** The lookups the mutation of `r` makes are present; acceptance implies it. */
  ghost predicate Reducible(s: JournalState, r: Record) {
    match r
    case AppendEntry(_, _, head, _, _) => head in s.heads
    case MoveHead(_, _, head, _, _) => head in s.heads
    case RenameHead(_, _, head, _, _) => head in s.heads
    case FinishTurn(_, _, head, _, _) => head in s.heads
    case FinishAttempt(_, _, fact) => fact.attempt in s.attempts
    case FinishCompaction(_, _, fact) => fact.terminal.attempt in s.attempts
    case _ => true
  }

  ghost predicate Accepts(s: JournalState, r: Record)
    ensures Accepts(s, r) ==> Reducible(s, r)
  {
    Shape(s) && Validate(s, r).Accepted?
  }

  /** The mutation a record describes, before it is retained. */
  function Mutated(s: JournalState, r: Record): JournalState
    requires Reducible(s, r)
  {
    match r
    case AppendEntry(sequence, _, head, _, entry) => Appended(s, head, entry, sequence)
    case SetEntryLabel(_, _, target, text) => Labelled(s, target, text)
    case FinishTurn(_, _, head, _, fact) => Finished(s, head, fact)
    case AuthorizeAttempt(_, _, _, _, fact) => Authorized(s, fact)
    case FinishAttempt(_, _, fact) => Terminated(s, fact)
    case FinishCompaction(_, _, fact) => Collect(s, fact)
    case _ => HeadMutated(s, r)
  }

  /** The record is retained after its mutation; a refused record changes nothing. */
  function Retained(s: JournalState, r: Record): JournalState {
    s.(recordIds := s.recordIds + {r.id},
       records := s.records + [r],
       nextSequence := s.nextSequence + 1)
  }

  function Reduce(s: JournalState, r: Record): JournalState
    requires Reducible(s, r)
  {
    Retained(Mutated(s, r), r)
  }
}
