/** Why the journal refuses a record: the first thing it retains that stands against it. */
module JournalRefusals {
  import opened Options
  import opened Refusals
  import opened ModelOutput
  import opened JournalModel
  import opened JournalInvariant
  import opened JournalRules
  import opened JournalRetry

  type Obstacles = seq<Obstacle<JournalError>>

  // ------------------------------------------------------------------ heads and turns

  ghost function HeadObstacles(s: JournalState, head: HeadName, expected: nat): Obstacles {
    [Obstacle(MissingHead, head !in s.heads),
     Obstacle(StaleHead, head in s.heads && s.heads[head].revision != expected)]
  }

  ghost predicate NameTaken(s: JournalState, head: HeadName) {
    head in s.heads || head in s.retired
  }

  /** A branch point is the root or a known entry of no unfinished turn. */
  ghost function BranchObstacles(s: JournalState, at: Option<EntryId>): Obstacles {
    [Obstacle(MissingEntry, at.Some? && at.value !in s.entries)] +
    (if at.Some? && at.value in s.unstable
     then [Obstacle(UnstableTurnTarget(s.unstable[at.value]), true)] else [])
  }

  ghost function NewTurnObstacles(s: JournalState, head: HeadName, turn: TurnId): Obstacles
    requires head in s.heads
  {
    [Obstacle(DuplicateTurn, turn in s.starts)] +
    (match s.heads[head].open
     case Some(open) => [Obstacle(UnstableTurnTarget(open), true)]
     case None => [])
  }

  /** Input reaches the turn of its own agent that is open on the head. */
  ghost function InputObstacles(s: JournalState, head: HeadName, agent: AgentId, turn: TurnId): Obstacles
    requires head in s.heads
  {
    [Obstacle(MissingTurn, turn !in s.starts),
     Obstacle(WrongTurnAgent, turn in s.starts && s.starts[turn].agent != agent),
     Obstacle(ClosedTurnInput, turn in s.finishes),
     Obstacle(InvalidTurnBoundary, s.heads[head].open != Some(turn))]
  }

  /** The last record appended a question or a steering input of this turn. */
  ghost predicate JustAsked(s: JournalState, agent: AgentId, turn: TurnId) {
    exists r <- s.records ::
      && r == s.records[|s.records| - 1] && r.AppendEntry?
      && (|| r.entry.payload == TurnStarted(agent, turn)
          || r.entry.payload == SteeringAccepted(agent, turn))
  }

  /** The step is the one after all the steps recorded for its turn. */
  ghost predicate NextInLine(s: JournalState, step: StepId) {
    && 1 <= step.index && step !in s.steps
    && (1 < step.index ==> StepId(step.turn, step.index - 1) in s.steps)
  }

  ghost function StepObstacles(s: JournalState, step: StepId): Obstacles {
    [Obstacle(ModelStepSequenceExhausted, StepId(step.turn, U16_MAX) in s.steps),
     Obstacle(UnexpectedModelStep, !NextInLine(s, step))]
  }

  // ------------------------------------------------------------------ what an entry says

  ghost predicate RetryOffered(s: JournalState, head: HeadName, source: TurnId) {
    exists path: seq<Entry>, i: nat, k: nat, q: nat ::
      Retryable(s, head, path, i, k, q) && path[i].payload.turn == source
  }

  ghost predicate Links(path: seq<Entry>, reference: Reference) {
    exists e <- path :: e.payload.CollaborationItemLinked? && e.payload.reference == reference
  }

  ghost predicate Names(path: seq<Entry>, agent: AgentId) {
    exists e <- path :: e.payload.AgentCreated? && e.payload.agent == agent
  }

  ghost predicate StartsFrom(s: JournalState, reference: Reference) {
    exists e <- s.entries ::
      s.entries[e].payload.CollaborationTurnStarted? && s.entries[e].payload.reference == reference
  }

  /** The nearest checkpoint on the branch, or none at all. */
  ghost predicate EpochIs(path: seq<Entry>, epoch: Epoch) {
    match epoch
    case Original => forall e <- path :: !e.payload.CompactionCheckpoint?
    case AtCheckpoint(id) =>
      exists i :: 0 <= i < |path| && path[i].id == id && path[i].payload.CompactionCheckpoint?
                  && forall k :: i < k < |path| ==> !path[k].payload.CompactionCheckpoint?
  }

  ghost predicate SourceIs(s: JournalState, head: HeadName, source: Source)
    requires Shape(s) && head in s.heads
  {
    && source.head == head && source.revision == s.heads[head].revision
    && s.heads[head].target == Some(source.boundary) && EpochIs(PathOf(s, head), source.epoch)
  }

  ghost function CheckpointObstacles(
    s: JournalState, head: HeadName, agent: AgentId, checkpoint: Checkpoint): Obstacles
    requires Shape(s) && head in s.heads
  {
    [Obstacle(EmptyCompactionSource, s.heads[head].target.None?),
     Obstacle(CompactionSourceChanged, !SourceIs(s, head, checkpoint.source)),
     Obstacle(MissingCompactionAgent, !Names(PathOf(s, head), agent)),
     Obstacle(MissingCompactionAttempt, checkpoint.attempt !in s.compactions)]
  }

  /** What the collected attempt must be for the checkpoint made of it. */
  ghost function CollectedObstacles(s: JournalState, checkpoint: Checkpoint): Obstacles
    requires Shape(s) && checkpoint.attempt in s.compactions
  {
    var authorization := s.attempts[checkpoint.attempt].authorization;
    var collected := s.records[s.compactions[checkpoint.attempt]].collected;
    [Obstacle(CompactionOwnerMismatch, authorization.owner != Compaction(checkpoint.compaction)),
     Obstacle(CompactionSourceChanged, authorization.boundary != checkpoint.source.boundary),
     Obstacle(CompactionEnvironmentMismatch, authorization.environment != checkpoint.environment),
     Obstacle(CompactionAttemptFailed, !collected.complete),
     Obstacle(CompactionEnvironmentMismatch, !collected.replayMatches),
     Obstacle(InvalidCompactionCut, !checkpoint.cutResolves)]
  }

  ghost function PayloadObstacles(s: JournalState, head: HeadName, payload: Payload): Obstacles
    requires Shape(s) && head in s.heads
  {
    match payload
    case AgentCreated(_, idle) => [Obstacle(InvalidInitialAgentStatus, !idle)]
    case TurnStarted(_, turn) => NewTurnObstacles(s, head, turn)
    case CollaborationTurnStarted(_, turn, reference) =>
      [Obstacle(MalformedReference, !reference.wellFormed)] +
      (NewTurnObstacles(s, head, turn) + [Obstacle(InvalidReference, StartsFrom(s, reference))])
    case CollaborationItemLinked(agent, reference) =>
      [Obstacle(MalformedReference, !reference.wellFormed),
       Obstacle(InvalidReference, Links(PathOf(s, head), reference)),
       Obstacle(ForeignReference, !Names(PathOf(s, head), agent))]
    case TurnRetried(agent, source, turn) =>
      [Obstacle(RetryUnavailable, !RetryOffered(s, head, source)),
       Obstacle(RetryUnavailable, source !in s.starts || s.starts[source].agent != agent),
       Obstacle(DuplicateTurn, turn in s.starts)]
    case SteeringAccepted(agent, turn) => InputObstacles(s, head, agent, turn)
    case TurnStatusChanged(agent, turn) => InputObstacles(s, head, agent, turn)
    case SkillActivated(agent, turn) =>
      InputObstacles(s, head, agent, turn) +
      [Obstacle(InvalidSkillActivationOrder, !JustAsked(s, agent, turn))]
    case AssistantOutput(agent, step, _) =>
      [Obstacle(DuplicateModelStep, step in s.steps)] +
      (StepObstacles(s, step) + InputObstacles(s, head, agent, step.turn))
    case CompactionCheckpoint(agent, checkpoint) =>
      CheckpointObstacles(s, head, agent, checkpoint) +
      (if checkpoint.attempt in s.compactions then CollectedObstacles(s, checkpoint) else [])
    case ToolCallRequested(_, _) => []
    case ToolCallChanged(_, _) => []
    case RuntimeError(_, _) => []
    case OtherFact(_, _) => []
  }

  // ------------------------------------------------------------------ one record

  ghost function AppendObstacles(s: JournalState, head: HeadName, expected: nat, entry: Entry): Obstacles
    requires Shape(s)
  {
    [Obstacle(DuplicateEntry, entry.id in s.entries),
     Obstacle(MissingEntry, entry.parent.Some? && entry.parent.value !in s.entries)] +
    (HeadObstacles(s, head, expected) +
     ([Obstacle(ParentMismatch, head in s.heads && entry.parent != s.heads[head].target)] +
      (if head in s.heads then PayloadObstacles(s, head, entry.payload) else [])))
  }

  ghost function FinishObstacles(s: JournalState, head: HeadName, fact: TurnFinish): Obstacles {
    [Obstacle(InvalidTurnBoundary, head in s.heads && s.heads[head].target != Some(fact.boundary)),
     Obstacle(MissingTurn, fact.turn !in s.starts),
     Obstacle(DuplicateTurnFinish, fact.turn in s.finishes),
     Obstacle(WrongTurnAgent, fact.turn in s.starts && s.starts[fact.turn].agent != fact.agent),
     Obstacle(InvalidTurnBoundary, head in s.heads && s.heads[head].open != Some(fact.turn)),
     Obstacle(InvalidTurnFinishTime, fact.at.Recovered? != fact.outcome.ProcessDied?)]
  }

  ghost predicate Waits(s: JournalState, owner: AttemptOwner, a: AttemptId) {
    a in s.attempts && s.attempts[a].terminal.None? && s.attempts[a].authorization.owner == owner
  }

  /** An owner has one unfinished attempt at most, and a refusal names it. */
  ghost function OwnerObstacles(s: JournalState, owner: AttemptOwner): Obstacles {
    if a :| Waits(s, owner, a) then [Obstacle(RequestAttemptOwnerActive(a), true)] else []
  }

  ghost function OwnerStepObstacles(s: JournalState, head: HeadName, owner: AttemptOwner): Obstacles {
    match owner
    case AgentStep(step) =>
      [Obstacle(MissingTurn, step.turn !in s.starts),
       Obstacle(InvalidTurnBoundary, head in s.heads && s.heads[head].open != Some(step.turn))] +
      StepObstacles(s, step)
    case Compaction(_) => []
  }

  ghost function AuthorizationObstacles(
    s: JournalState, head: HeadName, expected: nat, fact: Authorization): Obstacles
  {
    [Obstacle(DuplicateRequestAttempt, fact.attempt in s.attempts)] +
    (OwnerObstacles(s, fact.owner) +
     (HeadObstacles(s, head, expected) +
      ([Obstacle(InvalidRequestAttemptBoundary,
                 head in s.heads && s.heads[head].target != Some(fact.boundary))] +
       OwnerStepObstacles(s, head, fact.owner))))
  }

  ghost function TerminalObstacles(s: JournalState, fact: Terminal): Obstacles {
    [Obstacle(MissingRequestAttempt, fact.attempt !in s.attempts),
     Obstacle(DuplicateRequestAttemptTerminal,
              fact.attempt in s.attempts && s.attempts[fact.attempt].terminal.Some?),
     Obstacle(InvalidRequestAttemptTerminal, !fact.consistent)]
  }

  ghost function MutationObstacles(s: JournalState, r: Record): Obstacles
    requires Shape(s)
  {
    match r
    case AppendEntry(_, _, head, expected, entry) => AppendObstacles(s, head, expected, entry)
    case CreateHead(_, _, head, at) =>
      [Obstacle(UnavailableHeadName, NameTaken(s, head))] + BranchObstacles(s, at)
    case MoveHead(_, _, head, expected, to) => HeadObstacles(s, head, expected) + BranchObstacles(s, to)
    case RenameHead(_, _, head, expected, renamed) =>
      HeadObstacles(s, head, expected) + [Obstacle(UnavailableHeadName, NameTaken(s, renamed))]
    case AbandonHead(_, _, head, expected) =>
      HeadObstacles(s, head, expected) +
      ([Obstacle(CannotAbandonSelectedHead, s.selected == head)] +
       (if head in s.heads then BranchObstacles(s, s.heads[head].target) else []))
    case ForkAndSelectHead(_, _, source, expected, destination, at) =>
      [Obstacle(SelectedHeadMismatch, s.selected != source)] +
      (HeadObstacles(s, source, expected) +
       ([Obstacle(UnavailableHeadName, NameTaken(s, destination))] + BranchObstacles(s, at)))
    case SelectHead(_, _, expectedSelected, destination, expected) =>
      [Obstacle(SelectedHeadMismatch, s.selected != expectedSelected)] +
      HeadObstacles(s, destination, expected)
    case SetEntryLabel(_, _, target, _) => [Obstacle(MissingEntry, target !in s.entries)]
    case FinishTurn(_, _, head, expected, fact) =>
      HeadObstacles(s, head, expected) + FinishObstacles(s, head, fact)
    case AuthorizeAttempt(_, _, head, expected, fact) =>
      AuthorizationObstacles(s, head, expected, fact)
    case FinishAttempt(_, _, fact) => TerminalObstacles(s, fact)
    case FinishCompaction(_, _, fact) =>
      TerminalObstacles(s, fact.terminal) +
      [Obstacle(InvalidCompactionAttempt, !fact.bounded),
       Obstacle(RequestAttemptIsNotCompaction,
                fact.terminal.attempt in s.attempts
                && !s.attempts[fact.terminal.attempt].authorization.owner.Compaction?)]
  }

  /** Every record continues the numbering under an identity of its own. */
  ghost function EnvelopeObstacles(s: JournalState, r: Record): Obstacles {
    [Obstacle(UnexpectedSequence, r.sequence != |s.records| + 1),
     Obstacle(DuplicateRecord, exists old_ <- s.records :: old_.id == r.id),
     Obstacle(SequenceExhausted, |s.records| + 1 == U64_MAX)]
  }

  ghost function RecordObstacles(s: JournalState, r: Record): Obstacles
    requires Shape(s)
  {
    EnvelopeObstacles(s, r) + MutationObstacles(s, r)
  }

  // ------------------------------------------------------------------ every check is decided by them

  lemma EnvelopeDecided(s: JournalState, r: Record)
    requires RecordsNumbered(s)
    ensures Decided(EnvelopeObstacles(s, r), ValidateEnvelope(s, r))
  {
    assert (exists old_ <- s.records :: old_.id == r.id) <==> r.id in s.recordIds;
    hide RecordsNumbered, Decided;
    Listed(EnvelopeObstacles(s, r), ValidateEnvelope(s, r));
  }

  lemma HeadDecided(s: JournalState, head: HeadName, expected: nat)
    ensures Decided(HeadObstacles(s, head, expected), ValidateHead(s, head, expected))
  {
    Listed(HeadObstacles(s, head, expected), ValidateHead(s, head, expected));
  }

  lemma OneDecided(error: JournalError, stands: bool)
    ensures Decided([Obstacle(error, stands)], Need(!stands, error))
  {
    Listed([Obstacle(error, stands)], Need(!stands, error));
  }

  lemma BranchDecided(s: JournalState, at: Option<EntryId>)
    requires Partition(s)
    ensures Decided(BranchObstacles(s, at), ValidateBranchPoint(s, at))
  {
    assert at.Some? && at.value in s.entries ==> at.value in s.stable + s.unstable.Keys;
    assert at.Some? && at.value in s.unstable ==> at.value in s.entries;
    assert at.Some? && at.value in s.unstable ==> at.value !in s.stable;
    hide Partition, Decided;
    Listed(BranchObstacles(s, at), ValidateBranchPoint(s, at));
  }

  lemma NewTurnDecided(s: JournalState, head: HeadName, turn: TurnId)
    requires head in s.heads
    ensures Decided(NewTurnObstacles(s, head, turn), ValidateNewTurn(s, turn, s.heads[head].open))
  {
    hide Decided;
    Listed(NewTurnObstacles(s, head, turn), ValidateNewTurn(s, turn, s.heads[head].open));
  }

  lemma InputDecided(s: JournalState, head: HeadName, agent: AgentId, turn: TurnId)
    requires head in s.heads
    ensures Decided(InputObstacles(s, head, agent, turn),
                    ValidateSteering(s, agent, turn, s.heads[head].open))
  {
    hide Decided;
    Listed(InputObstacles(s, head, agent, turn), ValidateSteering(s, agent, turn, s.heads[head].open));
  }

  lemma StepDecided(s: JournalState, step: StepId)
    requires StepsContiguous(s)
    ensures Decided(StepObstacles(s, step), ValidateStepIndex(s, step))
  {
    var expected := ExpectedStep(s, step.turn);
    assert StepId(step.turn, U16_MAX) in s.steps <==> expected.None?;
    assert expected.Some? ==> (NextInLine(s, step) <==> step.index == expected.value) by {
      if expected.Some? && 1 < step.index {
        assert StepId(step.turn, step.index - 1) in s.steps <==>
                 step.turn in s.lastSteps && step.index - 1 <= s.lastSteps[step.turn];
      }
    }
    hide StepsContiguous, Decided, NextInLine;
    Listed(StepObstacles(s, step), ValidateStepIndex(s, step));
  }

  // ------------------------------------------------------------------ payloads

  lemma InvParts(s: JournalState)
    requires Inv(s)
    ensures Shape(s) && StepsContiguous(s) && RecordsNumbered(s)
  {
    hide Shape, StepsContiguous, RecordsNumbered, TurnChain, TurnsKnown, OpenMatches, OpenUnique;
  }

  lemma RetryOfferIff(s: JournalState, head: HeadName, source: TurnId)
    requires Inv(s)
    ensures Shape(s)
    ensures RetryOffered(s, head, source) <==>
              Candidate(s, head).Some? && Candidate(s, head).value.turn == source
  {
    hide Inv, Shape, Retryable, Candidate;
    InvParts(s);
    RetryOfferedIff(s, head);
    if Candidate(s, head).Some? {
      var path, i, k, q := OfferedIsRetryable(s, head);
    }
  }

  lemma RetryDecided(s: JournalState, head: HeadName, agent: AgentId, source: TurnId, turn: TurnId)
    requires Inv(s) && head in s.heads
    ensures Decided(PayloadObstacles(s, head, TurnRetried(agent, source, turn)),
                    ValidateRetry(s, head, agent, source, turn))
  {
    hide Inv, Shape, Candidate, Decided, RetryOffered;
    InvParts(s);
    RetryOfferIff(s, head, source);
    Listed(PayloadObstacles(s, head, TurnRetried(agent, source, turn)),
           ValidateRetry(s, head, agent, source, turn));
  }

  lemma NamesIff(path: seq<Entry>, agent: AgentId)
    ensures Names(path, agent) <==> Announced(path, agent)
  {
    if Announced(path, agent) {
      var k :| 0 <= k < |path| && path[k].payload.AgentCreated? && path[k].payload.agent == agent;
      assert path[k] in path;
    }
  }

  lemma LinkDecided(s: JournalState, head: HeadName, agent: AgentId, reference: Reference)
    requires Shape(s) && head in s.heads
    ensures Decided(PayloadObstacles(s, head, CollaborationItemLinked(agent, reference)),
                    ValidateLink(s, agent, reference, s.heads[head].target))
  {
    var path := PathOf(s, head);
    NamesIff(path, agent);
    forall k | 0 <= k < |path| ensures path[k] in path {}
    hide Names, Announced, Ancestry, Decided, Shape;
    Listed(PayloadObstacles(s, head, CollaborationItemLinked(agent, reference)),
           ValidateLink(s, agent, reference, s.heads[head].target));
  }

  lemma StartsFromIff(s: JournalState, reference: Reference, turn: TurnId, open: Option<TurnId>)
    ensures ValidateCollaborationStart(s, reference, turn, open) ==
              if !reference.wellFormed then Refused(MalformedReference)
              else if ValidateNewTurn(s, turn, open).Refused? then ValidateNewTurn(s, turn, open)
              else Need(!StartsFrom(s, reference), InvalidReference)
  {
    hide ValidateNewTurn;
  }

  lemma CollaborationDecided(s: JournalState, head: HeadName, agent: AgentId, turn: TurnId, reference: Reference)
    requires Shape(s) && head in s.heads
    ensures Decided(PayloadObstacles(s, head, CollaborationTurnStarted(agent, turn, reference)),
                    ValidateCollaborationStart(s, reference, turn, s.heads[head].open))
  {
    var open := s.heads[head].open;
    hide Decided, NewTurnObstacles, ValidateNewTurn, StartsFrom;
    NewTurnDecided(s, head, turn);
    OneDecided(MalformedReference, !reference.wellFormed);
    OneDecided(InvalidReference, StartsFrom(s, reference));
    var last := Need(!StartsFrom(s, reference), InvalidReference);
    Then(NewTurnObstacles(s, head, turn), ValidateNewTurn(s, turn, open),
         [Obstacle(InvalidReference, StartsFrom(s, reference))], last);
    var rest := if ValidateNewTurn(s, turn, open).Refused? then ValidateNewTurn(s, turn, open) else last;
    Then([Obstacle(MalformedReference, !reference.wellFormed)],
         Need(reference.wellFormed, MalformedReference),
         NewTurnObstacles(s, head, turn) + [Obstacle(InvalidReference, StartsFrom(s, reference))], rest);
    StartsFromIff(s, reference, turn, open);
  }

  lemma EpochIff(path: seq<Entry>, epoch: Epoch)
    ensures EpochIs(path, epoch) <==> EpochOf(path) == epoch
  {
    var p := (p: Payload) => p.CompactionCheckpoint?;
    var last := LastIndex(path, p);
    forall k | 0 <= k < |path| ensures path[k] in path {}
    if last.Some? { assert path[last.value].payload.CompactionCheckpoint?; }
  }

  /** What the branch must be for a checkpoint on it. */
  ghost function SourceVerdict(
    s: JournalState, head: HeadName, agent: AgentId, checkpoint: Checkpoint): Check
    requires Shape(s) && head in s.heads
  {
    if s.heads[head].target.None? then Refused(EmptyCompactionSource)
    else if !SourceIs(s, head, checkpoint.source) then Refused(CompactionSourceChanged)
    else if !Names(PathOf(s, head), agent) then Refused(MissingCompactionAgent)
    else Need(checkpoint.attempt in s.compactions, MissingCompactionAttempt)
  }

  ghost function CollectedVerdict(s: JournalState, checkpoint: Checkpoint): Check
    requires Shape(s) && checkpoint.attempt in s.compactions
  {
    var authorization := s.attempts[checkpoint.attempt].authorization;
    var collected := s.records[s.compactions[checkpoint.attempt]].collected;
    if authorization.owner != Compaction(checkpoint.compaction) then Refused(CompactionOwnerMismatch)
    else if authorization.boundary != checkpoint.source.boundary then Refused(CompactionSourceChanged)
    else if authorization.environment != checkpoint.environment then Refused(CompactionEnvironmentMismatch)
    else if !collected.complete then Refused(CompactionAttemptFailed)
    else if !collected.replayMatches then Refused(CompactionEnvironmentMismatch)
    else Need(checkpoint.cutResolves, InvalidCompactionCut)
  }

  lemma SourceIff(s: JournalState, head: HeadName, source: Source)
    requires Shape(s) && head in s.heads && s.heads[head].target.Some?
    ensures SourceIs(s, head, source) <==>
              source == Source(head, s.heads[head].revision, s.heads[head].target.value,
                               EpochOf(PathOf(s, head)))
  {
    EpochIff(PathOf(s, head), source.epoch);
    hide PathOf, Shape, EpochOf, EpochIs;
  }

  lemma CheckpointSplits(s: JournalState, head: HeadName, agent: AgentId, checkpoint: Checkpoint)
    requires Shape(s) && head in s.heads
    ensures var first := SourceVerdict(s, head, agent, checkpoint);
            ValidateCheckpoint(s, head, agent, checkpoint) ==
              if first.Refused? then first else CollectedVerdict(s, checkpoint)
  {
    hide PathOf, Names, Announced, EpochOf, SourceIs, Forest, Partition, AttemptsIndexed;
    if s.heads[head].target.Some? { SourceIff(s, head, checkpoint.source); }
    NamesIff(PathOf(s, head), agent);
  }

  lemma CollectedDecided(s: JournalState, checkpoint: Checkpoint)
    requires Shape(s) && checkpoint.attempt in s.compactions
    ensures Decided(CollectedObstacles(s, checkpoint), CollectedVerdict(s, checkpoint))
  {
    hide Shape, Decided;
    Listed(CollectedObstacles(s, checkpoint), CollectedVerdict(s, checkpoint));
  }

  lemma SourceDecided(s: JournalState, head: HeadName, agent: AgentId, checkpoint: Checkpoint)
    requires Shape(s) && head in s.heads
    ensures var first := SourceVerdict(s, head, agent, checkpoint);
            && Decided(CheckpointObstacles(s, head, agent, checkpoint), first)
            && (first.Accepted? ==> checkpoint.attempt in s.compactions)
  {
    hide PathOf, Names, SourceIs, Shape, Decided;
    Listed(CheckpointObstacles(s, head, agent, checkpoint), SourceVerdict(s, head, agent, checkpoint));
  }

  lemma CheckpointDecided(s: JournalState, head: HeadName, agent: AgentId, checkpoint: Checkpoint)
    requires Shape(s) && head in s.heads
    ensures Decided(PayloadObstacles(s, head, CompactionCheckpoint(agent, checkpoint)),
                    ValidateCheckpoint(s, head, agent, checkpoint))
  {
    hide PathOf, Names, SourceIs, Shape, Decided, ValidateCheckpoint;
    CheckpointSplits(s, head, agent, checkpoint);
    var first := SourceVerdict(s, head, agent, checkpoint);
    SourceDecided(s, head, agent, checkpoint);
    hide CheckpointObstacles, CollectedObstacles, SourceVerdict, CollectedVerdict;
    if checkpoint.attempt in s.compactions {
      CollectedDecided(s, checkpoint);
      Then(CheckpointObstacles(s, head, agent, checkpoint), first,
           CollectedObstacles(s, checkpoint), CollectedVerdict(s, checkpoint));
    } else {
      var obstacles := CheckpointObstacles(s, head, agent, checkpoint);
      assert obstacles + [] == obstacles;
    }
  }

  lemma SkillDecided(s: JournalState, head: HeadName, agent: AgentId, turn: TurnId)
    requires head in s.heads
    ensures var first := ValidateSteering(s, agent, turn, s.heads[head].open);
            Decided(InputObstacles(s, head, agent, turn) +
                    [Obstacle(InvalidSkillActivationOrder, !JustAsked(s, agent, turn))],
                    if first.Refused? then first
                    else Need(FollowsInput(s, agent, turn), InvalidSkillActivationOrder))
  {
    InputDecided(s, head, agent, turn);
    OneDecided(InvalidSkillActivationOrder, !JustAsked(s, agent, turn));
    assert JustAsked(s, agent, turn) <==> FollowsInput(s, agent, turn);
    hide InputObstacles, ValidateSteering, JustAsked, FollowsInput, Decided;
    Then(InputObstacles(s, head, agent, turn), ValidateSteering(s, agent, turn, s.heads[head].open),
         [Obstacle(InvalidSkillActivationOrder, !JustAsked(s, agent, turn))],
         Need(FollowsInput(s, agent, turn), InvalidSkillActivationOrder));
  }

  lemma OutputDecided(s: JournalState, head: HeadName, agent: AgentId, step: StepId)
    requires head in s.heads && StepsContiguous(s)
    ensures var index := ValidateStepIndex(s, step);
            Decided([Obstacle(DuplicateModelStep, step in s.steps)] +
                    (StepObstacles(s, step) + InputObstacles(s, head, agent, step.turn)),
                    if step in s.steps then Refused(DuplicateModelStep)
                    else if index.Refused? then index
                    else ValidateSteering(s, agent, step.turn, s.heads[head].open))
  {
    StepDecided(s, step);
    InputDecided(s, head, agent, step.turn);
    var index := ValidateStepIndex(s, step);
    var input := ValidateSteering(s, agent, step.turn, s.heads[head].open);
    hide InputObstacles, StepObstacles, ValidateSteering, ValidateStepIndex, StepsContiguous, Decided;
    Then(StepObstacles(s, step), index, InputObstacles(s, head, agent, step.turn), input);
    First(Obstacle(DuplicateModelStep, step in s.steps),
          StepObstacles(s, step) + InputObstacles(s, head, agent, step.turn),
          if step in s.steps then Refused(DuplicateModelStep)
          else if index.Refused? then index else input);
  }

  lemma NothingStands()
    ensures Decided([], Verdict<JournalError>.Accepted)
  {
  }

  lemma PayloadDecided(s: JournalState, head: HeadName, entry: Entry)
    requires Inv(s) && head in s.heads && entry.parent == s.heads[head].target
    ensures Decided(PayloadObstacles(s, head, entry.payload), ValidatePayload(s, head, entry))
  {
    hide Inv, Shape, StepsContiguous, Decided, InputObstacles, NewTurnObstacles, StepObstacles;
    hide CheckpointObstacles, ValidateSteering, ValidateNewTurn, ValidateStepIndex, ValidateRetry;
    hide ValidateCheckpoint, ValidateLink, ValidateCollaborationStart, JustAsked, FollowsInput;
    hide CollectedObstacles, RetryOffered, StartsFrom, Links, Names, PathOf, SourceIs;
    InvParts(s);
    match entry.payload
    case AgentCreated(_, idle) => OneDecided(InvalidInitialAgentStatus, !idle);
    case TurnStarted(_, turn) => NewTurnDecided(s, head, turn);
    case CollaborationTurnStarted(agent, turn, reference) =>
      CollaborationDecided(s, head, agent, turn, reference);
    case CollaborationItemLinked(agent, reference) => LinkDecided(s, head, agent, reference);
    case TurnRetried(agent, source, turn) => RetryDecided(s, head, agent, source, turn);
    case SteeringAccepted(agent, turn) => InputDecided(s, head, agent, turn);
    case TurnStatusChanged(agent, turn) => InputDecided(s, head, agent, turn);
    case SkillActivated(agent, turn) => SkillDecided(s, head, agent, turn);
    case AssistantOutput(agent, step, _) => OutputDecided(s, head, agent, step);
    case CompactionCheckpoint(agent, checkpoint) => CheckpointDecided(s, head, agent, checkpoint);
    case _ => NothingStands();
  }

  // ------------------------------------------------------------------ mutations

  /** No head's revision ever reaches the end of its range. */
  lemma RevisionsFit(s: JournalState, head: HeadName)
    requires Inv(s)
    ensures head in s.heads ==> ValidateIncrement(s.heads[head].revision).Accepted?
  {
  }

  lemma HeadPasses(s: JournalState, head: HeadName, expected: nat)
    ensures ValidateHead(s, head, expected).Accepted? ==> head in s.heads
  {
  }

  /** What an append is answered once its identity and parent are known. */
  ghost function ValidateAppendPlaced(s: JournalState, head: HeadName, expected: nat, entry: Entry): Check
    requires Shape(s)
  {
    if ValidateHead(s, head, expected).Refused? then ValidateHead(s, head, expected)
    else if head !in s.heads then Accepted
    else if entry.parent != s.heads[head].target then Refused(ParentMismatch)
    else ValidatePayload(s, head, entry)
  }

  lemma AppendDecided(s: JournalState, head: HeadName, expected: nat, entry: Entry)
    requires Inv(s)
    ensures Shape(s) && Decided(AppendObstacles(s, head, expected, entry), ValidateAppend(s, head, expected, entry))
  {
    hide Inv, Shape, Decided, HeadObstacles, PayloadObstacles, ValidatePayload, ValidateHead;
    InvParts(s);
    RevisionsFit(s, head);
    HeadDecided(s, head, expected);
    HeadPasses(s, head, expected);
    var known := [Obstacle(DuplicateEntry, entry.id in s.entries),
                  Obstacle(MissingEntry, entry.parent.Some? && entry.parent.value !in s.entries)];
    var first := if entry.id in s.entries then Refused(DuplicateEntry) else ValidateTarget(s, entry.parent);
    Listed(known, first);
    var placed := ValidateHead(s, head, expected);
    var mismatch := Obstacle(ParentMismatch, head in s.heads && entry.parent != s.heads[head].target);
    var said := if head in s.heads then PayloadObstacles(s, head, entry.payload) else [];
    if head in s.heads && entry.parent == s.heads[head].target { PayloadDecided(s, head, entry); }
    if placed.Accepted? {
      var last := if mismatch.stands then Refused(ParentMismatch) else ValidatePayload(s, head, entry);
      First(mismatch, said, last);
      Then(HeadObstacles(s, head, expected), placed, [mismatch] + said, last);
    } else {
      Then(HeadObstacles(s, head, expected), placed, [mismatch] + said, Accepted);
    }
    Then(known, first, HeadObstacles(s, head, expected) + ([mismatch] + said),
         ValidateAppendPlaced(s, head, expected, entry));
  }

  lemma FinishDecided(s: JournalState, head: HeadName, expected: nat, fact: TurnFinish)
    ensures Decided(
      HeadObstacles(s, head, expected) + FinishObstacles(s, head, fact),
      if ValidateHead(s, head, expected).Refused? then ValidateHead(s, head, expected)
      else if head !in s.heads || s.heads[head].target != Some(fact.boundary)
      then Refused(InvalidTurnBoundary)
      else ValidateFinish(s, fact, s.heads[head].open))
  {
    hide Decided, HeadObstacles;
    HeadDecided(s, head, expected);
    HeadPasses(s, head, expected);
    hide ValidateHead;
    var placed := ValidateHead(s, head, expected);
    if placed.Accepted? {
      var last := if s.heads[head].target != Some(fact.boundary) then Refused(InvalidTurnBoundary)
                  else ValidateFinish(s, fact, s.heads[head].open);
      Listed(FinishObstacles(s, head, fact), last);
      Then(HeadObstacles(s, head, expected), placed, FinishObstacles(s, head, fact), last);
    } else {
      Then(HeadObstacles(s, head, expected), placed, FinishObstacles(s, head, fact), Accepted);
    }
  }

  lemma OwnerDecided(s: JournalState, owner: AttemptOwner)
    requires Shape(s)
    ensures Decided(OwnerObstacles(s, owner),
                    if owner in s.activeOwners then Refused(RequestAttemptOwnerActive(s.activeOwners[owner]))
                    else Accepted)
  {
    if owner in s.activeOwners { assert Waits(s, owner, s.activeOwners[owner]); }
    assert forall a :: Waits(s, owner, a) ==> owner in s.activeOwners && s.activeOwners[owner] == a;
    hide Shape, Waits, Decided;
    var busy: Check := if owner in s.activeOwners
                       then Refused(RequestAttemptOwnerActive(s.activeOwners[owner])) else Accepted;
    Listed(OwnerObstacles(s, owner), busy);
  }

  /** What an owner's step is answered once the head and the boundary are right. */
  ghost function OwnerStepVerdict(s: JournalState, owner: AttemptOwner, open: Option<TurnId>): Check {
    if owner.AgentStep? then ValidateAttemptStep(s, owner.step, open) else Accepted
  }

  lemma OwnerStepDecided(s: JournalState, head: HeadName, owner: AttemptOwner)
    requires head in s.heads && StepsContiguous(s)
    ensures Decided(OwnerStepObstacles(s, head, owner), OwnerStepVerdict(s, owner, s.heads[head].open))
  {
    hide Decided, StepObstacles, ValidateStepIndex, StepsContiguous;
    match owner
    case AgentStep(step) =>
      StepDecided(s, step);
      var turn := [Obstacle(MissingTurn, step.turn !in s.starts),
                   Obstacle(InvalidTurnBoundary, head in s.heads && s.heads[head].open != Some(step.turn))];
      var first: Check := if step.turn !in s.starts then Refused(MissingTurn)
                          else Need(s.heads[head].open == Some(step.turn), InvalidTurnBoundary);
      Listed(turn, first);
      Then(turn, first, StepObstacles(s, step), ValidateStepIndex(s, step));
    case Compaction(_) => NothingStands();
  }

  lemma AuthorizationDecided(s: JournalState, head: HeadName, expected: nat, fact: Authorization)
    requires Inv(s)
    ensures Decided(AuthorizationObstacles(s, head, expected, fact),
                    ValidateAuthorization(s, head, expected, fact))
  {
    hide Inv, Shape, Decided, HeadObstacles, StepObstacles, ValidateHead, ValidateAttemptStep, OwnerObstacles;
    hide StepsContiguous, RecordsNumbered;
    InvParts(s);
    HeadDecided(s, head, expected);
    HeadPasses(s, head, expected);
    OwnerDecided(s, fact.owner);
    var placed := ValidateHead(s, head, expected);
    var boundary := Obstacle(InvalidRequestAttemptBoundary,
                             head in s.heads && s.heads[head].target != Some(fact.boundary));
    var step := OwnerStepObstacles(s, head, fact.owner);
    var rest: Check := if placed.Refused? then placed
                       else if boundary.stands then Refused(InvalidRequestAttemptBoundary)
                       else OwnerStepVerdict(s, fact.owner, s.heads[head].open);
    if placed.Accepted? {
      OwnerStepDecided(s, head, fact.owner);
      First(boundary, step, rest);
    }
    Then(HeadObstacles(s, head, expected), placed, [boundary] + step, rest);
    var busy: Check := if fact.owner in s.activeOwners
                       then Refused(RequestAttemptOwnerActive(s.activeOwners[fact.owner])) else Accepted;
    Then(OwnerObstacles(s, fact.owner), busy, HeadObstacles(s, head, expected) + ([boundary] + step), rest);
    First(Obstacle(DuplicateRequestAttempt, fact.attempt in s.attempts),
          OwnerObstacles(s, fact.owner) + (HeadObstacles(s, head, expected) + ([boundary] + step)),
          ValidateAuthorization(s, head, expected, fact));
  }

  lemma TerminalDecided(s: JournalState, fact: Terminal)
    ensures Decided(TerminalObstacles(s, fact), ValidateTerminal(s, fact))
  {
    hide Decided;
    Listed(TerminalObstacles(s, fact), ValidateTerminal(s, fact));
  }

  lemma CollectionDecided(s: JournalState, fact: Collected)
    ensures Decided(
      TerminalObstacles(s, fact.terminal) +
      [Obstacle(InvalidCompactionAttempt, !fact.bounded),
       Obstacle(RequestAttemptIsNotCompaction,
                fact.terminal.attempt in s.attempts
                && !s.attempts[fact.terminal.attempt].authorization.owner.Compaction?)],
      ValidateCollected(s, fact))
  {
    TerminalDecided(s, fact.terminal);
    var rest := [Obstacle(InvalidCompactionAttempt, !fact.bounded),
                 Obstacle(RequestAttemptIsNotCompaction,
                          fact.terminal.attempt in s.attempts
                          && !s.attempts[fact.terminal.attempt].authorization.owner.Compaction?)];
    var last: Check :=
      if !fact.bounded then Refused(InvalidCompactionAttempt)
      else Need(fact.terminal.attempt in s.attempts
                && s.attempts[fact.terminal.attempt].authorization.owner.Compaction?,
                RequestAttemptIsNotCompaction);
    hide Decided, TerminalObstacles;
    if ValidateTerminal(s, fact.terminal).Accepted? { Listed(rest, last); }
    Then(TerminalObstacles(s, fact.terminal), ValidateTerminal(s, fact.terminal), rest, last);
  }

  // ------------------------------------------------------------------ named heads

  lemma CreateDecided(s: JournalState, head: HeadName, at: Option<EntryId>)
    requires Partition(s)
    ensures Decided([Obstacle(UnavailableHeadName, NameTaken(s, head))] + BranchObstacles(s, at),
                    if ValidateAvailable(s, head).Refused? then ValidateAvailable(s, head)
                    else ValidateBranchPoint(s, at))
  {
    hide Decided, BranchObstacles, ValidateBranchPoint;
    BranchDecided(s, at);
    First(Obstacle(UnavailableHeadName, NameTaken(s, head)), BranchObstacles(s, at),
          if ValidateAvailable(s, head).Refused? then ValidateAvailable(s, head)
          else ValidateBranchPoint(s, at));
  }

  lemma AbandonDecided(s: JournalState, head: HeadName, expected: nat)
    requires Inv(s)
    ensures Shape(s)
    ensures Decided(
      HeadObstacles(s, head, expected) +
      ([Obstacle(CannotAbandonSelectedHead, s.selected == head)] +
       (if head in s.heads then BranchObstacles(s, s.heads[head].target) else [])),
      if ValidateHead(s, head, expected).Refused? then ValidateHead(s, head, expected)
      else if head !in s.heads then Accepted
      else if s.selected == head then Refused(CannotAbandonSelectedHead)
      else ValidateStableTarget(s, s.heads[head].target))
  {
    hide Inv, Decided, HeadObstacles, BranchObstacles, ValidateHead, ValidateStableTarget;
    hide Forest, AttemptsIndexed, CompactionsIndexed, StepsContiguous, RecordsNumbered;
    InvParts(s);
    HeadDecided(s, head, expected);
    HeadPasses(s, head, expected);
    var placed := ValidateHead(s, head, expected);
    var chosen := Obstacle(CannotAbandonSelectedHead, s.selected == head);
    if placed.Accepted? {
      var target := s.heads[head].target;
      BranchDecided(s, target);
      assert ValidateTarget(s, target).Accepted?;
      assert ValidateBranchPoint(s, target) == ValidateStableTarget(s, target);
      var last := if s.selected == head then Refused(CannotAbandonSelectedHead)
                  else ValidateStableTarget(s, target);
      First(chosen, BranchObstacles(s, target), last);
      Then(HeadObstacles(s, head, expected), placed, [chosen] + BranchObstacles(s, target), last);
    } else {
      Then(HeadObstacles(s, head, expected), placed,
           [chosen] + (if head in s.heads then BranchObstacles(s, s.heads[head].target) else []), placed);
    }
  }

  lemma HeadMutationDecided(s: JournalState, r: Record)
    requires Inv(s)
    requires r.CreateHead? || r.MoveHead? || r.RenameHead? || r.AbandonHead? || r.ForkAndSelectHead?
             || r.SelectHead?
    ensures Shape(s) && Decided(MutationObstacles(s, r), ValidateNamedHead(s, r))
  {
    hide Inv, Decided, HeadObstacles, BranchObstacles, ValidateHead, ValidateBranchPoint;
    hide Forest, HeadsAnchored, AttemptsIndexed, CompactionsIndexed, StepsContiguous, RecordsNumbered;
    InvParts(s);
    match r
    case CreateHead(_, _, head, at) => CreateDecided(s, head, at);
    case MoveHead(_, _, head, expected, to) =>
      HeadDecided(s, head, expected);
      HeadPasses(s, head, expected);
      RevisionsFit(s, head);
      BranchDecided(s, to);
      Then(HeadObstacles(s, head, expected), ValidateHead(s, head, expected),
           BranchObstacles(s, to), ValidateBranchPoint(s, to));
    case RenameHead(_, _, head, expected, renamed) =>
      HeadDecided(s, head, expected);
      HeadPasses(s, head, expected);
      RevisionsFit(s, head);
      OneDecided(UnavailableHeadName, NameTaken(s, renamed));
      Then(HeadObstacles(s, head, expected), ValidateHead(s, head, expected),
           [Obstacle(UnavailableHeadName, NameTaken(s, renamed))], ValidateAvailable(s, renamed));
    case AbandonHead(_, _, head, expected) =>
      HeadPasses(s, head, expected);
      AbandonDecided(s, head, expected);
    case ForkAndSelectHead(_, _, source, expected, destination, at) =>
      var placed := ValidateHead(s, source, expected);
      var new_ := [Obstacle(UnavailableHeadName, NameTaken(s, destination))] + BranchObstacles(s, at);
      var last := if ValidateAvailable(s, destination).Refused? then ValidateAvailable(s, destination)
                  else ValidateBranchPoint(s, at);
      HeadDecided(s, source, expected);
      CreateDecided(s, destination, at);
      Then(HeadObstacles(s, source, expected), placed, new_, last);
      First(Obstacle(SelectedHeadMismatch, s.selected != source),
            HeadObstacles(s, source, expected) + new_, ValidateNamedHead(s, r));
    case SelectHead(_, _, expectedSelected, destination, expected) =>
      HeadDecided(s, destination, expected);
      First(Obstacle(SelectedHeadMismatch, s.selected != expectedSelected),
            HeadObstacles(s, destination, expected), ValidateNamedHead(s, r));
  }

  // ------------------------------------------------------------------ one record

  lemma MutationDecided(s: JournalState, r: Record)
    requires Inv(s)
    ensures Shape(s) && Decided(MutationObstacles(s, r), ValidateMutation(s, r))
  {
    hide Inv, Decided, HeadObstacles, FinishObstacles, AppendObstacles, AuthorizationObstacles;
    hide TerminalObstacles, BranchObstacles, ValidateHead, ValidateFinish, ValidateAppend, Shape;
    hide ValidateAuthorization, ValidateTerminal, ValidateCollected, ValidateNamedHead;
    InvParts(s);
    match r
    case AppendEntry(_, _, head, expected, entry) => AppendDecided(s, head, expected, entry);
    case SetEntryLabel(_, _, target, _) => OneDecided(MissingEntry, target !in s.entries);
    case FinishTurn(_, _, head, expected, fact) =>
      HeadPasses(s, head, expected);
      FinishDecided(s, head, expected, fact);
    case AuthorizeAttempt(_, _, head, expected, fact) => AuthorizationDecided(s, head, expected, fact);
    case FinishAttempt(_, _, fact) => TerminalDecided(s, fact);
    case FinishCompaction(_, _, fact) => CollectionDecided(s, fact);
    case _ => HeadMutationDecided(s, r);
  }

  /**
   * Whatever is offered to a journal is answered by the first thing it retains that stands against
   * it, and accepted exactly when nothing does.
   */
  lemma RecordDecided(s: JournalState, r: Record)
    requires Inv(s)
    ensures Shape(s) && Decided(RecordObstacles(s, r), Validate(s, r))
  {
    hide Inv, Decided, Shape, EnvelopeObstacles, MutationObstacles, ValidateEnvelope, ValidateMutation;
    hide RecordsNumbered, StepsContiguous;
    InvParts(s);
    EnvelopeDecided(s, r);
    MutationDecided(s, r);
    Then(EnvelopeObstacles(s, r), ValidateEnvelope(s, r), MutationObstacles(s, r), ValidateMutation(s, r));
  }
}
