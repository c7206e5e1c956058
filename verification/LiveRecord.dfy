/**
 * The live writer over the journal: it prepares each mutation from the current state, so that its
 * own records are never refused, and hands the same records and numbered events outward.
 */
module LiveRecord {
  import opened Options
  import opened ModelOutput
  import opened JournalModel
  import opened JournalInvariant
  import opened JournalRules
  import opened JournalPreservation
  import opened JournalHistory
  import opened JournalPaths
  import opened ConversationJournal
  import opened LiveEvents
  import Decimal

  // ------------------------------------------------------------------ prepared identities

  function RecordIdFor(session: string, ordinal: nat): RecordId {
    session + "-record-" + Decimal.Text(ordinal)
  }

  function EntryIdFor(session: string, ordinal: nat): EntryId {
    session + "-entry-" + Decimal.Text(ordinal)
  }

  lemma OrdinalIdsInjective(session: string, m: nat, n: nat)
    ensures RecordIdFor(session, m) == RecordIdFor(session, n) ==> m == n
    ensures EntryIdFor(session, m) == EntryIdFor(session, n) ==> m == n
  {
    var a := session + "-record-";
    var b := session + "-entry-";
    assert RecordIdFor(session, m)[|a|..] == Decimal.Text(m);
    assert RecordIdFor(session, n)[|a|..] == Decimal.Text(n);
    assert EntryIdFor(session, m)[|b|..] == Decimal.Text(m);
    assert EntryIdFor(session, n)[|b|..] == Decimal.Text(n);
    if Decimal.Text(m) == Decimal.Text(n) { Decimal.TextInjective(m, n); }
  }

  /** Every identity in the journal was derived from the ordinal of its record. */
  ghost predicate OrdinalIds(s: JournalState) {
    && (forall i :: 0 <= i < |s.records| ==> s.records[i].id == RecordIdFor(s.session, i + 1))
    && (forall e <- s.entries :: e in s.entrySequences
          && e == EntryIdFor(s.session, s.entrySequences[e]))
  }

  ghost predicate OrdinalRecord(s: JournalState, r: Record) {
    && r.id == RecordIdFor(s.session, s.nextSequence)
    && (r.AppendEntry? ==>
          r.sequence == s.nextSequence && r.entry.id == EntryIdFor(s.session, s.nextSequence))
  }

  /** The two identities the next mutation would use are unused. */
  ghost predicate NextIdsFree(s: JournalState) {
    && RecordIdFor(s.session, s.nextSequence) !in s.recordIds
    && EntryIdFor(s.session, s.nextSequence) !in s.entries
  }

  lemma OrdinalIdsLeaveNextFree(s: JournalState)
    requires Inv(s) && OrdinalIds(s)
    ensures NextIdsFree(s)
  {
    if RecordIdFor(s.session, s.nextSequence) in s.recordIds {
      var i :| 0 <= i < |s.records| && s.records[i].id == RecordIdFor(s.session, s.nextSequence);
      OrdinalIdsInjective(s.session, i + 1, s.nextSequence);
    }
    var e := EntryIdFor(s.session, s.nextSequence);
    if e in s.entries {
      OrdinalIdsInjective(s.session, s.entrySequences[e], s.nextSequence);
    }
  }

  lemma EntriesAfter(s: JournalState, r: Record)
    requires Reducible(s, r)
    ensures var s' := Reduce(s, r);
            if r.AppendEntry?
            then s'.entries == s.entries[r.entry.id := r.entry]
                 && s'.entrySequences == s.entrySequences[r.entry.id := r.sequence]
            else s'.entries == s.entries && s'.entrySequences == s.entrySequences
  {
  }

  lemma OrdinalIdsKept(s: JournalState, r: Record)
    requires RecordsNumbered(s) && Forest(s) && OrdinalIds(s)
    requires Reducible(s, r) && OrdinalRecord(s, r)
    ensures OrdinalIds(Reduce(s, r))
  {
    hide Reduce, RecordIdFor, EntryIdFor, Reducible;
    EntriesAfter(s, r);
    RetainedFields(s, r);
    var s' := Reduce(s, r);
    forall i | 0 <= i < |s'.records| ensures s'.records[i].id == RecordIdFor(s'.session, i + 1) {
      if i < |s.records| { assert s'.records[i] == s.records[i]; }
    }
  }

  /** Every record of the run took its identities from its own ordinal, as the live writer's do. */
  ghost predicate OrdinalNamed(session: string, records: seq<Record>) {
    forall i :: 0 <= i < |records| ==>
      && records[i].id == RecordIdFor(session, i + 1)
      && (records[i].AppendEntry? ==> records[i].entry.id == EntryIdFor(session, i + 1))
  }

  lemma EmptyIsOrdinal(session: string)
    ensures OrdinalIds(Empty(session))
  {
  }

  lemma AcceptedIsOrdinal(s: JournalState, records: seq<Record>, r: Record)
    requires Inv(s) && Accepts(s, r) && s.records == records
    requires OrdinalNamed(s.session, records + [r])
    ensures OrdinalRecord(s, r)
  {
    hide Accepts, RecordIdFor, EntryIdFor;
    assert (records + [r])[|records|] == r;
    EnvelopeAccepted(s, r);
  }

  lemma ReplayLast(session: string, records: seq<Record>)
    requires records != [] && Replay(session, records).Some?
    ensures var last := |records| - 1;
            && Replay(session, records[..last]).Some?
            && var s := Replay(session, records[..last]).value;
               Accepts(s, records[last]) && Replay(session, records).value == Reduce(s, records[last])
  {
    hide Accepts, Reduce;
  }

  lemma OrdinalNamedPrefix(session: string, records: seq<Record>)
    requires records != [] && OrdinalNamed(session, records)
    ensures var last := |records| - 1;
            && OrdinalNamed(session, records[..last])
            && OrdinalNamed(session, records[..last] + [records[last]])
  {
    var last := |records| - 1;
    assert records[..last] + [records[last]] == records;
    hide RecordIdFor, EntryIdFor;
  }

  lemma LiveStep(s: JournalState, records: seq<Record>, r: Record)
    requires Inv(s) && OrdinalIds(s) && Accepts(s, r) && s.records == records
    requires OrdinalNamed(s.session, records + [r])
    ensures OrdinalIds(Reduce(s, r))
  {
    hide Accepts, Reduce, OrdinalIds, OrdinalRecord, OrdinalNamed;
    AcceptedIsOrdinal(s, records, r);
    OrdinalIdsKept(s, r);
  }

  /** After any run whose identities come from ordinals, every identity in the journal still does. */
  lemma {:induction false} LiveRunsStayOrdinal(session: string, records: seq<Record>)
    requires Replay(session, records).Some? && OrdinalNamed(session, records)
    ensures OrdinalIds(Replay(session, records).value)
  {
    if records == [] {
      EmptyIsOrdinal(session);
      hide OrdinalIds;
    } else {
      hide *;
      var front := records[..|records| - 1];
      ReplayLast(session, records);
      OrdinalNamedPrefix(session, records);
      LiveRunsStayOrdinal(session, front);
      ReplayHolds(session, front);
      LiveStep(Replay(session, front).value, front, records[|records| - 1]);
    }
  }

  /** The journal of a live writer: some run led to it, and every identity came from an ordinal. */
  ghost predicate Live(s: JournalState) {
    Reachable(s) && OrdinalIds(s)
  }

  lemma RunIsLive(session: string, records: seq<Record>, s: JournalState)
    requires Replay(session, records) == Some(s) && s.session == session && OrdinalIds(s)
    ensures Live(s)
  {
    hide Replay, OrdinalIds;
  }

  /** After any such run the journal is live, and the two identities of the next mutation are unused. */
  lemma LiveRunsLeaveNextFree(session: string, records: seq<Record>)
    requires Replay(session, records).Some? && OrdinalNamed(session, records)
    ensures Live(Replay(session, records).value)
    ensures Inv(Replay(session, records).value) && NextIdsFree(Replay(session, records).value)
  {
    hide *;
    LiveRunsStayOrdinal(session, records);
    ReplayHolds(session, records);
    RunIsLive(session, records, Replay(session, records).value);
    OrdinalIdsLeaveNextFree(Replay(session, records).value);
  }

  // ------------------------------------------------------------------ prepared mutations

  function PreparedAppend(s: JournalState, payload: Payload): Record
    requires s.selected in s.heads
  {
    var head := s.heads[s.selected];
    AppendEntry(s.nextSequence, RecordIdFor(s.session, s.nextSequence), s.selected, head.revision,
                Entry(EntryIdFor(s.session, s.nextSequence), head.target, payload))
  }

  /** The terminal fact of `turn` on the selected head, unless that head is on the empty root. */
  function PreparedFinish(
    s: JournalState, agent: AgentId, turn: TurnId, outcome: TurnOutcome, at: FinishedAt)
    : Option<Record>
    requires s.selected in s.heads
  {
    var head := s.heads[s.selected];
    if head.target.None? then None
    else
      Some(FinishTurn(s.nextSequence, RecordIdFor(s.session, s.nextSequence), s.selected,
                      head.revision,
                      TurnFinish(agent, turn, head.target.value, outcome, at)))
  }

  /** The stream has room, and what the payload says passes on the selected head. */
  ghost predicate PayloadAccepted(s: JournalState, payload: Payload) {
    && Shape(s) && s.nextSequence < U64_MAX
    && ValidatePayload(s, s.selected, PreparedAppend(s, payload).entry).Accepted?
  }

  /**
   * A prepared append is refused only for what its payload says, or at the end of the stream:
   * identities, parent and revision are always right.
   */
  lemma PreparedAppendAccepted(s: JournalState, payload: Payload)
    requires Inv(s) && NextIdsFree(s)
    ensures Accepts(s, PreparedAppend(s, payload)) <==> PayloadAccepted(s, payload)
  {
    hide ValidatePayload;
    var r := PreparedAppend(s, payload);
    assert s.nextSequence < U64_MAX ==> ValidateIncrement(s.heads[s.selected].revision).Accepted?;
    assert ValidateEnvelope(s, r).Accepted? <==> s.nextSequence < U64_MAX;
    assert s.nextSequence < U64_MAX ==>
      (ValidateAppend(s, r.head, r.expected, r.entry).Accepted? <==>
       ValidatePayload(s, s.selected, r.entry).Accepted?);
  }

  lemma SelectedFacts(s: JournalState)
    requires Inv(s)
    ensures Shape(s) && StepsContiguous(s) && s.selected in s.heads
    ensures s.heads[s.selected].open.Some? ==>
      && s.heads[s.selected].target.Some?
      && s.heads[s.selected].open.value in s.starts
      && s.heads[s.selected].open.value !in s.finishes
  {
    assert HeadMatches(s, s.heads[s.selected]);
    hide Forest, Partition, AttemptsIndexed, CompactionsIndexed, TurnChain, StepsContiguous;
  }

  /** The payloads a live turn appends are accepted exactly while that turn is open for its agent. */
  lemma TurnPayloadAccepted(s: JournalState, payload: Payload, agent: AgentId, turn: TurnId)
    requires Inv(s) && NextIdsFree(s) && s.nextSequence < U64_MAX
    requires payload == SteeringAccepted(agent, turn) || payload == TurnStatusChanged(agent, turn)
    ensures Accepts(s, PreparedAppend(s, payload)) <==>
      s.heads[s.selected].open == Some(turn) && s.starts[turn].agent == agent
  {
    hide Accepts, Inv, Shape, NextIdsFree, RecordIdFor, EntryIdFor, ValidateRetry, ValidateLink;
    hide ValidateCollaborationStart, ValidateCheckpoint;
    SelectedFacts(s);
    PreparedAppendAccepted(s, payload);
  }

  /** A new turn is accepted exactly when its identity is new and no turn is open on the head. */
  lemma TurnStartAccepted(s: JournalState, agent: AgentId, turn: TurnId)
    requires Inv(s) && NextIdsFree(s) && s.nextSequence < U64_MAX
    ensures Accepts(s, PreparedAppend(s, TurnStarted(agent, turn))) <==>
      turn !in s.starts && s.heads[s.selected].open.None?
  {
    hide Accepts, Inv, Shape, NextIdsFree, RecordIdFor, EntryIdFor, ValidateRetry, ValidateLink;
    hide ValidateCollaborationStart, ValidateCheckpoint;
    SelectedFacts(s);
    PreparedAppendAccepted(s, TurnStarted(agent, turn));
  }

  /** The selected head is open on the step's turn, and this very step comes next. */
  ghost predicate ExpectsOutput(s: JournalState, agent: AgentId, step: StepId) {
    && s.nextSequence < U64_MAX
    && s.selected in s.heads && s.heads[s.selected].open == Some(step.turn)
    && step.turn in s.starts && s.starts[step.turn].agent == agent
    && ExpectedStep(s, step.turn) == Some(step.index)
  }

  lemma NextStepIsNew(s: JournalState, step: StepId)
    requires StepsContiguous(s)
    ensures ExpectedStep(s, step.turn) == Some(step.index) ==> step !in s.steps
  {
  }

  /** A step's output is accepted exactly when it is the next step of the open turn of its agent. */
  lemma OutputAccepted(s: JournalState, agent: AgentId, step: StepId, output: Output)
    requires Inv(s) && NextIdsFree(s)
    ensures Accepts(s, PreparedAppend(s, AssistantOutput(agent, step, output))) <==>
              ExpectsOutput(s, agent, step)
  {
    hide Accepts, Inv, Shape, NextIdsFree, RecordIdFor, EntryIdFor, ValidateRetry, ValidateLink;
    hide ValidateCollaborationStart, ValidateCheckpoint;
    SelectedFacts(s);
    NextStepIsNew(s, step);
    PreparedAppendAccepted(s, AssistantOutput(agent, step, output));
  }

  /** The selected head is open on the turn of this agent, and only a dead process recovers it. */
  ghost predicate TurnEnds(
    s: JournalState, agent: AgentId, turn: TurnId, outcome: TurnOutcome, at: FinishedAt)
  {
    && s.nextSequence < U64_MAX
    && s.selected in s.heads && s.heads[s.selected].open == Some(turn)
    && turn in s.starts && s.starts[turn].agent == agent
    && (at.Recovered? <==> outcome.ProcessDied?)
  }

  lemma FinishPasses(s: JournalState, r: Record)
    requires Shape(s) && r.FinishTurn?
    requires r.sequence == s.nextSequence && r.id !in s.recordIds && r.head in s.heads
    requires r.expected == s.heads[r.head].revision
    requires s.heads[r.head].target == Some(r.finish.boundary)
    ensures Accepts(s, r) <==>
      s.nextSequence < U64_MAX && ValidateFinish(s, r.finish, s.heads[r.head].open).Accepted?
  {
    hide Shape, ValidateFinish;
  }

  lemma PreparedFinishFits(
    s: JournalState, agent: AgentId, turn: TurnId, outcome: TurnOutcome, at: FinishedAt)
    requires s.selected in s.heads && NextIdsFree(s)
    ensures var r := PreparedFinish(s, agent, turn, outcome, at);
            var head := s.heads[s.selected];
            && (r.Some? <==> head.target.Some?)
            && (r.Some? ==>
                  && r.value.FinishTurn? && r.value.head == s.selected
                  && r.value.sequence == s.nextSequence && r.value.id !in s.recordIds
                  && r.value.expected == head.revision
                  && r.value.finish == TurnFinish(agent, turn, head.target.value, outcome, at))
  {
    hide RecordIdFor, EntryIdFor;
  }

  lemma TurnEndsIff(
    s: JournalState, agent: AgentId, turn: TurnId, outcome: TurnOutcome, at: FinishedAt,
    boundary: EntryId)
    requires s.selected in s.heads
    requires s.heads[s.selected].open.Some? ==>
      s.heads[s.selected].open.value in s.starts && s.heads[s.selected].open.value !in s.finishes
    ensures var fact := TurnFinish(agent, turn, boundary, outcome, at);
            s.nextSequence < U64_MAX && ValidateFinish(s, fact, s.heads[s.selected].open).Accepted?
            <==> TurnEnds(s, agent, turn, outcome, at)
  {
  }

  lemma NoTurnEnds(
    s: JournalState, agent: AgentId, turn: TurnId, outcome: TurnOutcome, at: FinishedAt)
    requires s.selected in s.heads && s.heads[s.selected].open.None?
    ensures !TurnEnds(s, agent, turn, outcome, at)
  {
  }

  /**
   * A prepared terminal fact is accepted exactly when the selected head is open on the turn, the turn
   * belongs to the agent, and recovery is claimed exactly for a dead process.
   */
  lemma PreparedFinishAccepted(
    s: JournalState, agent: AgentId, turn: TurnId, outcome: TurnOutcome, at: FinishedAt)
    requires Inv(s) && NextIdsFree(s)
    ensures var r := PreparedFinish(s, agent, turn, outcome, at);
            (r.Some? && Accepts(s, r.value)) <==> TurnEnds(s, agent, turn, outcome, at)
  {
    hide *;
    SelectedFacts(s);
    PreparedFinishFits(s, agent, turn, outcome, at);
    var r := PreparedFinish(s, agent, turn, outcome, at);
    if r.Some? {
      FinishPasses(s, r.value);
      TurnEndsIff(s, agent, turn, outcome, at, r.value.finish.boundary);
    } else {
      NoTurnEnds(s, agent, turn, outcome, at);
    }
  }

  // ------------------------------------------------------------------ prepared attempts

  /** Authorization of a request at the selected head's boundary, unless it is on the empty root. */
  function PreparedAuthorization(
    s: JournalState, attempt: AttemptId, owner: AttemptOwner, environment: string): Option<Record>
    requires s.selected in s.heads
  {
    var head := s.heads[s.selected];
    if head.target.None? then None
    else
      Some(AuthorizeAttempt(s.nextSequence, RecordIdFor(s.session, s.nextSequence), s.selected,
                            head.revision,
                            Authorization(attempt, owner, head.target.value, environment)))
  }

  function PreparedTerminal(s: JournalState, terminal: Terminal): Record {
    FinishAttempt(s.nextSequence, RecordIdFor(s.session, s.nextSequence), terminal)
  }

  lemma AuthorizationPasses(s: JournalState, r: Record)
    requires Shape(s) && r.AuthorizeAttempt?
    requires r.sequence == s.nextSequence && r.id !in s.recordIds && r.head in s.heads
    requires r.expected == s.heads[r.head].revision
    requires s.heads[r.head].target == Some(r.authorization.boundary)
    ensures Accepts(s, r) <==>
      && s.nextSequence < U64_MAX
      && r.authorization.attempt !in s.attempts && r.authorization.owner !in s.activeOwners
      && (r.authorization.owner.AgentStep? ==>
            ValidateAttemptStep(s, r.authorization.owner.step, s.heads[r.head].open).Accepted?)
  {
    hide Shape, ValidateAttemptStep;
  }

  lemma PreparedAuthorizationFits(
    s: JournalState, attempt: AttemptId, owner: AttemptOwner, environment: string)
    requires s.selected in s.heads && NextIdsFree(s)
    ensures var r := PreparedAuthorization(s, attempt, owner, environment);
            var head := s.heads[s.selected];
            && (r.Some? <==> head.target.Some?)
            && (r.Some? ==>
                  && r.value.AuthorizeAttempt? && r.value.head == s.selected
                  && r.value.sequence == s.nextSequence && r.value.id !in s.recordIds
                  && r.value.expected == head.revision
                  && r.value.authorization ==
                       Authorization(attempt, owner, head.target.value, environment))
  {
    hide RecordIdFor, EntryIdFor;
  }

  lemma AttemptStepIff(s: JournalState, step: StepId, open: Option<TurnId>)
    requires open.Some? ==> open.value in s.starts
    ensures ValidateAttemptStep(s, step, open).Accepted? <==>
              open == Some(step.turn) && ValidateStepIndex(s, step).Accepted?
  {
    hide ValidateStepIndex;
  }

  /**
   * An authorization is accepted exactly when the attempt is new, its owner has none unfinished, and
   * a step's attempt is for the next step of the turn that is open on the selected head.
   */
  lemma AuthorizationAccepted(
    s: JournalState, attempt: AttemptId, owner: AttemptOwner, environment: string)
    requires Inv(s) && NextIdsFree(s) && s.nextSequence < U64_MAX
    ensures var r := PreparedAuthorization(s, attempt, owner, environment);
            (r.Some? && Accepts(s, r.value)) <==>
              && s.heads[s.selected].target.Some?
              && attempt !in s.attempts && owner !in s.activeOwners
              && (owner.AgentStep? ==>
                    s.heads[s.selected].open == Some(owner.step.turn)
                    && ValidateStepIndex(s, owner.step).Accepted?)
  {
    hide *;
    SelectedFacts(s);
    PreparedAuthorizationFits(s, attempt, owner, environment);
    var r := PreparedAuthorization(s, attempt, owner, environment);
    if r.Some? {
      AuthorizationPasses(s, r.value);
      if owner.AgentStep? { AttemptStepIff(s, owner.step, s.heads[s.selected].open); }
    }
  }

  /** A terminal is accepted exactly for an attempt that has none, when its own times are in order. */
  lemma TerminalAccepted(s: JournalState, terminal: Terminal)
    requires Inv(s) && NextIdsFree(s) && s.nextSequence < U64_MAX
    ensures Accepts(s, PreparedTerminal(s, terminal)) <==>
      && terminal.attempt in s.attempts && s.attempts[terminal.attempt].terminal.None?
      && terminal.consistent
  {
    assert ValidateEnvelope(s, PreparedTerminal(s, terminal)).Accepted?;
  }

  /** An accepted attempt occupies its owner until its one terminal, which frees the owner. */
  lemma AttemptEndsOnce(s: JournalState, r: Record, terminal: Terminal)
    requires Inv(s) && r.AuthorizeAttempt? && Accepts(s, r)
    requires terminal.attempt == r.authorization.attempt && terminal.consistent
    ensures var s1 := Reduce(s, r);
            && r.authorization.owner in s1.activeOwners
            && ValidateTerminal(s1, terminal).Accepted?
            && var s2 := Terminated(s1, terminal);
               && r.authorization.owner !in s2.activeOwners
               && ValidateTerminal(s2, terminal) == Refused(DuplicateRequestAttemptTerminal)
  {
    hide Inv, Accepts;
    AttemptAccepted(s, r);
  }

  // ------------------------------------------------------------------ branch before a retry

  /** The two records of a retry branch: archive the failed tail, then move before its question. */
  function ArchiveRecord(s: JournalState): Record
    requires s.selected in s.heads
  {
    CreateHead(s.nextSequence, RecordIdFor(s.session, s.nextSequence),
               "before-edit-" + Decimal.Text(s.nextSequence), s.heads[s.selected].target)
  }

  function RetryMove(s: JournalState, candidate: RetryCandidate): Record {
    MoveHead(s.nextSequence, RecordIdFor(s.session, s.nextSequence), s.selected,
             candidate.revision, candidate.beforeQuestion)
  }

  lemma SelectedSurvivesCreate(s: JournalState, r: Record)
    requires r.CreateHead? && s.selected in s.heads && r.head !in s.heads
    ensures var s' := Reduce(s, r);
            s'.selected == s.selected && s.selected in s'.heads
            && s'.heads[s.selected] == s.heads[s.selected]
  {
  }

  /**
   * Checking both records first makes the pair atomic: once both pass against the same state, the
   * move is accepted after the archive exactly when the record stream has room for a second record
   * under a free identity.
   */
  lemma PreflightMakesBranchAtomic(s: JournalState, candidate: RetryCandidate)
    requires Inv(s)
    requires Accepts(s, ArchiveRecord(s)) && Accepts(s, RetryMove(s, candidate))
    ensures var s' := Reduce(s, ArchiveRecord(s));
            Accepts(s', RetryMove(s', candidate)) <==>
              && s.nextSequence + 1 < U64_MAX
              && RecordIdFor(s.session, s.nextSequence + 1) !in s'.recordIds
  {
    var create := ArchiveRecord(s);
    var s' := Reduce(s, create);
    ReduceKeepsInv(s, create);
    HeadMutationAccepted(s, create);
    HeadMutationAccepted(s, RetryMove(s, candidate));
    ContentUnmoved(s, create);
    RetainedFields(s, create);
    var move := RetryMove(s', candidate);
    assert ValidateNamedHead(s, RetryMove(s, candidate)).Accepted?;
    SelectedSurvivesCreate(s, create);
    hide Reduce, RecordIdFor;
    assert ValidateNamedHead(s', move) == ValidateNamedHead(s, RetryMove(s, candidate));
  }

  // ------------------------------------------------------------------ what the writer keeps

  lemma EmptyIsLive(session: string)
    ensures Live(Empty(session))
  {
    assert Replay(session, []) == Some(Empty(session));
  }

  lemma LiveFacts(s: JournalState)
    requires Live(s)
    ensures Inv(s) && NextIdsFree(s) && s.selected in s.heads
  {
    hide NextIdsFree, Forest, Partition, AttemptsIndexed, CompactionsIndexed;
    ReachableInv(s);
    OrdinalIdsLeaveNextFree(s);
  }

  /** Any accepted record with identities of its own ordinal keeps the journal live. */
  lemma LiveKept(s: JournalState, r: Record)
    requires Live(s) && Accepts(s, r) && OrdinalRecord(s, r)
    ensures Live(Reduce(s, r))
  {
    hide Accepts, Reduce, OrdinalIds, OrdinalRecord, Reachable, NextIdsFree;
    LiveFacts(s);
    ReachableStep(s, r);
    OrdinalIdsKept(s, r);
  }

  lemma AppendIsOrdinal(s: JournalState, payload: Payload)
    requires s.selected in s.heads
    ensures OrdinalRecord(s, PreparedAppend(s, payload))
  {
    hide RecordIdFor, EntryIdFor;
  }

  /** A live writer never prepares an append the journal refuses, unless its payload is. */
  lemma LiveAppend(s: JournalState, payload: Payload)
    requires Live(s) && PayloadAccepted(s, payload)
    ensures s.selected in s.heads
    ensures Accepts(s, PreparedAppend(s, payload)) && OrdinalRecord(s, PreparedAppend(s, payload))
  {
    hide *;
    LiveFacts(s);
    PreparedAppendAccepted(s, payload);
    AppendIsOrdinal(s, payload);
  }

  lemma FinishIsOrdinal(
    s: JournalState, agent: AgentId, turn: TurnId, outcome: TurnOutcome, at: FinishedAt)
    requires s.selected in s.heads
    ensures var r := PreparedFinish(s, agent, turn, outcome, at);
            r.Some? ==> OrdinalRecord(s, r.value)
  {
    hide RecordIdFor, EntryIdFor;
  }

  /** A live writer's terminal fact is not refused while its selected head is open on the turn. */
  lemma LiveFinish(
    s: JournalState, agent: AgentId, turn: TurnId, outcome: TurnOutcome, at: FinishedAt)
    requires Live(s) && TurnEnds(s, agent, turn, outcome, at)
    ensures s.selected in s.heads
    ensures var r := PreparedFinish(s, agent, turn, outcome, at);
            r.Some? && Accepts(s, r.value) && OrdinalRecord(s, r.value)
  {
    hide *;
    LiveFacts(s);
    PreparedFinishAccepted(s, agent, turn, outcome, at);
    FinishIsOrdinal(s, agent, turn, outcome, at);
  }

  lemma AttemptsAreOrdinal(
    s: JournalState, attempt: AttemptId, owner: AttemptOwner, environment: string, terminal: Terminal)
    requires s.selected in s.heads
    ensures var r := PreparedAuthorization(s, attempt, owner, environment);
            r.Some? ==> OrdinalRecord(s, r.value)
    ensures OrdinalRecord(s, PreparedTerminal(s, terminal))
  {
    hide RecordIdFor, EntryIdFor;
  }

  ghost predicate Applied(s: JournalState, s': JournalState, r: Record) {
    Reducible(s, r) && s' == Reduce(s, r)
  }

  lemma AppliedIs(s: JournalState, s': JournalState, r: Record)
    requires Applied(s, s', r)
    ensures Reducible(s, r) && s' == Reduce(s, r)
  {
    hide Reducible, Reduce;
  }

  /** One record offered to the journal: accepted, applied and handed outward, or nothing at all. */
  ghost predicate Attempted(
    s: JournalState, s': JournalState, r: Record, verdict: Check,
    before: seq<Record>, after: seq<Record>)
  {
    && Shape(s) && verdict == Validate(s, r)
    && (verdict.Accepted? ==> Applied(s, s', r) && after == before + [r])
    && (verdict.Refused? ==> s' == s && after == before)
  }

  lemma TryingIsDefined(s: JournalState, r: Record)
    requires Reachable(s)
    ensures Shape(s) && (Validate(s, r).Accepted? <==> Accepts(s, r))
  {
    hide Validate, Reducible, Reachable;
    ReachableInv(s);
  }

  lemma AttemptedIs(
    s: JournalState, s': JournalState, r: Record, verdict: Check, before: seq<Record>, after: seq<Record>)
    requires Attempted(s, s', r, verdict, before, after)
    ensures Shape(s) && verdict == Validate(s, r)
  {
    hide Applied, Shape, Validate;
  }

  lemma AttemptedSo(
    s: JournalState, s': JournalState, r: Record, verdict: Check, before: seq<Record>, after: seq<Record>)
    requires Shape(s) && verdict == Validate(s, r)
    requires verdict.Accepted? ==> Applied(s, s', r) && after == before + [r]
    requires verdict.Refused? ==> s' == s && after == before
    ensures Attempted(s, s', r, verdict, before, after)
  {
    hide Applied, Shape;
  }

  lemma AppliedSo(s: JournalState, s': JournalState, r: Record)
    requires Accepts(s, r) && s' == Reduce(s, r)
    ensures Applied(s, s', r)
  {
    hide Reduce, Accepts;
  }

  lemma TerminalIsTried(s: JournalState, terminal: Terminal)
    requires Live(s)
    ensures Shape(s) && OrdinalRecord(s, PreparedTerminal(s, terminal))
  {
    hide RecordIdFor, EntryIdFor, Reachable, OrdinalIds;
    LiveFacts(s);
  }

  // ------------------------------------------------------------------ what each transition leaves

  lemma FinishEffects(s: JournalState, r: Record)
    requires r.FinishTurn? && r.head in s.heads
    ensures var s' := Reduce(s, r);
            && s'.selected == s.selected && r.head in s'.heads && s'.heads[r.head].open == None
            && s'.heads[r.head].target == s.heads[r.head].target
            && SameAttempts(s, s') && s'.starts == s.starts
            && s'.finishes == s.finishes[r.finish.turn := r.finish]
  {
  }

  lemma PathKept(s: JournalState, s': JournalState, head: HeadName)
    requires Inv(s) && Inv(s') && Continues(s, s')
    requires head in s.heads && head in s'.heads && s'.heads[head].target == s.heads[head].target
    ensures PathOf(s', head) == PathOf(s, head)
  {
    AncestryNeverChanges(s, s', s.heads[head].target);
  }

  lemma AuthorizeEffects(s: JournalState, r: Record)
    requires r.AuthorizeAttempt?
    ensures var s' := Reduce(s, r);
            && s'.attemptOrder == s.attemptOrder + [r.authorization.attempt]
            && s'.attempts == s.attempts[r.authorization.attempt := Attempt(r.authorization, None)]
            && s'.activeOwners == s.activeOwners[r.authorization.owner := r.authorization.attempt]
  {
  }

  lemma TerminalEffects(s: JournalState, r: Record)
    requires r.FinishAttempt? && r.terminal.attempt in s.attempts
    ensures var s' := Reduce(s, r);
            && s'.attemptOrder == s.attemptOrder
            && s'.attempts == s.attempts[r.terminal.attempt :=
                 Attempt(s.attempts[r.terminal.attempt].authorization, Some(r.terminal))]
            && s'.activeOwners ==
                 s.activeOwners - {s.attempts[r.terminal.attempt].authorization.owner}
  {
  }

  /** One record was handed outward, and it is the one the journal retained. */
  ghost predicate HandedOut(
    s: JournalState, s': JournalState, before: seq<Record>, after: seq<Record>, r: Record)
  {
    after == before + [r] && s'.records == s.records + [r]
  }

  /** The fact ends the branch of the selected head under a new identity, and nothing else moved. */
  ghost predicate FactAdded(
    s: JournalState, s': JournalState, payload: Payload, before: seq<Record>, after: seq<Record>)
  {
    && |after| == |before| + 1
    && var r := after[|before|];
       && HandedOut(s, s', before, after, r)
       && r.AppendEntry? && r.head == s.selected && r.entry.payload == payload
       && r.entry.id !in s.entries
       && s.selected in s.heads && s'.selected == s.selected && s.selected in s'.heads
       && Shape(s) && Shape(s')
       && PathOf(s', s.selected) == PathOf(s, s.selected) + [r.entry]
  }

  /** The turn is finished once, at the end of the selected branch, which stays as it was, closed. */
  ghost predicate TurnEnded(
    s: JournalState, s': JournalState, fact: TurnFinish, before: seq<Record>, after: seq<Record>)
  {
    && |after| == |before| + 1
    && var r := after[|before|];
       && HandedOut(s, s', before, after, r) && r.FinishTurn? && r.finish == fact
       && fact.turn !in s.finishes && s'.finishes == s.finishes[fact.turn := fact]
       && s.selected in s.heads && s'.selected == s.selected && s.selected in s'.heads
       && s.heads[s.selected].open == Some(fact.turn) && s'.heads[s.selected].open.None?
       && s.heads[s.selected].target == Some(fact.boundary)
       && Shape(s) && Shape(s')
       && PathOf(s', s.selected) == PathOf(s, s.selected)
  }

  /** The attempt is the newest, unfinished, at the end of the selected branch, and owns its request. */
  ghost predicate RequestOpened(
    s: JournalState, s': JournalState, fact: Authorization, before: seq<Record>, after: seq<Record>)
  {
    && |after| == |before| + 1
    && var r := after[|before|];
       && HandedOut(s, s', before, after, r) && r.AuthorizeAttempt? && r.authorization == fact
       && fact.attempt !in s.attempts && s'.attempts == s.attempts[fact.attempt := Attempt(fact, None)]
       && s'.attemptOrder == s.attemptOrder + [fact.attempt]
       && fact.owner !in s.activeOwners
       && s'.activeOwners == s.activeOwners[fact.owner := fact.attempt]
       && s.selected in s.heads && s.heads[s.selected].target == Some(fact.boundary)
  }

  /** The attempt got this terminal, its first, and its owner may ask again. */
  ghost predicate RequestEnded(
    s: JournalState, s': JournalState, terminal: Terminal, before: seq<Record>, after: seq<Record>)
  {
    && |after| == |before| + 1
    && var r := after[|before|];
       && HandedOut(s, s', before, after, r) && r.FinishAttempt? && r.terminal == terminal
       && terminal.attempt in s.attempts && s.attempts[terminal.attempt].terminal.None?
       && var fact := s.attempts[terminal.attempt].authorization;
          && s'.attempts == s.attempts[terminal.attempt := Attempt(fact, Some(terminal))]
          && s'.attemptOrder == s.attemptOrder && s'.activeOwners == s.activeOwners - {fact.owner}
  }

  lemma InvHasShape(s: JournalState)
    requires Inv(s)
    ensures Shape(s)
  {
    hide Forest, Partition, AttemptsIndexed, CompactionsIndexed;
  }

  lemma AppendNew(s: JournalState, r: Record)
    requires Accepts(s, r) && r.AppendEntry? && r.head in s.heads
    ensures r.entry.id !in s.entries
    ensures Reduce(s, r).selected == s.selected && r.head in Reduce(s, r).heads
  {
    AppendAccepted(s, r);
  }

  lemma FactIsAdded(
    s: JournalState, s': JournalState, payload: Payload, before: seq<Record>, after: seq<Record>)
    requires Live(s) && PayloadAccepted(s, payload) && s.selected in s.heads
    requires Applied(s, s', PreparedAppend(s, payload))
    requires after == before + [PreparedAppend(s, payload)]
    ensures FactAdded(s, s', payload, before, after)
  {
    hide Live, PayloadAccepted, Inv, Accepts, Reduce, PathOf, Reducible, NextIdsFree, OrdinalRecord;
    hide RecordIdFor, EntryIdFor, AppendGuard;
    var r := PreparedAppend(s, payload);
    LiveFacts(s);
    LiveAppend(s, payload);
    RetainedFields(s, r);
    InvHasShape(s);
    AppendExtendsPath(s, r);
    InvHasShape(s');
    AppendNew(s, r);
  }

  lemma TurnIsEnded(
    s: JournalState, s': JournalState, agent: AgentId, turn: TurnId, outcome: TurnOutcome,
    at: FinishedAt, before: seq<Record>, after: seq<Record>)
    requires Live(s) && TurnEnds(s, agent, turn, outcome, at)
    requires var r := PreparedFinish(s, agent, turn, outcome, at);
             r.Some? && Applied(s, s', r.value) && after == before + [r.value]
    ensures s.selected in s.heads && s.heads[s.selected].target.Some?
    ensures TurnEnded(s, s', TurnFinish(agent, turn, s.heads[s.selected].target.value, outcome, at),
                      before, after)
  {
    hide Live, Inv, Accepts, Reduce, PathOf, Reducible, NextIdsFree, OrdinalRecord, RecordIdFor;
    hide Continues;
    var r := PreparedFinish(s, agent, turn, outcome, at).value;
    LiveFacts(s);
    LiveFinish(s, agent, turn, outcome, at);
    RetainedFields(s, r);
    FinishAccepted(s, r);
    FinishEffects(s, r);
    ReduceKeepsInv(s, r);
    StepContinues(s, r);
    InvHasShape(s);
    InvHasShape(s');
    PathKept(s, s', s.selected);
  }

  lemma RequestIsOpened(
    s: JournalState, s': JournalState, attempt: AttemptId, owner: AttemptOwner, environment: string,
    verdict: Check, before: seq<Record>, after: seq<Record>)
    requires Live(s) && s.selected in s.heads
    requires var r := PreparedAuthorization(s, attempt, owner, environment);
             r.Some? && Attempted(s, s', r.value, verdict, before, after)
    ensures s.heads[s.selected].target.Some?
    ensures verdict.Accepted? ==>
      RequestOpened(s, s', Authorization(attempt, owner, s.heads[s.selected].target.value, environment),
                    before, after)
  {
    hide Inv, Reduce, Reducible, NextIdsFree, RecordIdFor, Validate, Shape, Reachable, OrdinalIds;
    hide Accepts;
    var r := PreparedAuthorization(s, attempt, owner, environment).value;
    LiveFacts(s);
    if verdict.Accepted? {
      RetainedFields(s, r);
      TryingIsDefined(s, r);
      AttemptAccepted(s, r);
      AuthorizeEffects(s, r);
    }
  }

  lemma RequestIsEnded(
    s: JournalState, s': JournalState, terminal: Terminal, verdict: Check,
    before: seq<Record>, after: seq<Record>)
    requires Live(s) && Attempted(s, s', PreparedTerminal(s, terminal), verdict, before, after)
    ensures verdict.Accepted? ==> RequestEnded(s, s', terminal, before, after)
  {
    hide Inv, Reduce, Reducible, NextIdsFree, RecordIdFor, Validate, Shape, Reachable, OrdinalIds;
    hide Accepts;
    var r := PreparedTerminal(s, terminal);
    LiveFacts(s);
    if verdict.Accepted? {
      RetainedFields(s, r);
      TryingIsDefined(s, r);
      AttemptAccepted(s, r);
      TerminalEffects(s, r);
    }
  }

  // ------------------------------------------------------------------ the retry branch as one step

  ghost function BranchRecords(s: JournalState, candidate: RetryCandidate): seq<Record> {
    if s.selected !in s.heads then []
    else
      var s1 := Reduce(s, ArchiveRecord(s));
      [ArchiveRecord(s), RetryMove(s1, candidate)]
  }

  /** Both records were accepted: the tail is archived and the selection stands before the question. */
  ghost predicate Branched(s: JournalState, s': JournalState, candidate: RetryCandidate) {
    && s.selected in s.heads
    && Accepts(s, ArchiveRecord(s))
    && var s1 := Reduce(s, ArchiveRecord(s));
       Accepts(s1, RetryMove(s1, candidate)) && s' == Reduce(s1, RetryMove(s1, candidate))
  }

  lemma BranchIsOrdinal(s: JournalState, candidate: RetryCandidate)
    requires s.selected in s.heads
    ensures OrdinalRecord(s, ArchiveRecord(s)) && OrdinalRecord(s, RetryMove(s, candidate))
  {
    hide RecordIdFor, EntryIdFor;
  }

  lemma NextRecordIdFree(s: JournalState)
    requires NextIdsFree(s)
    ensures RecordIdFor(s.session, s.nextSequence) !in s.recordIds
  {
  }

  /** When both records of a branch pass against one state, the second passes after the first. */
  lemma BranchContract(s: JournalState, candidate: RetryCandidate)
    requires Live(s) && s.nextSequence + 1 < U64_MAX && s.selected in s.heads
    requires Accepts(s, ArchiveRecord(s)) && Accepts(s, RetryMove(s, candidate))
    ensures Reduce(s, ArchiveRecord(s)).selected in Reduce(s, ArchiveRecord(s)).heads
    ensures var s1 := Reduce(s, ArchiveRecord(s));
            && OrdinalRecord(s, ArchiveRecord(s)) && OrdinalRecord(s1, RetryMove(s1, candidate))
            && Accepts(s1, RetryMove(s1, candidate))
  {
    hide *;
    LiveFacts(s);
    BranchIsOrdinal(s, candidate);
    LiveKept(s, ArchiveRecord(s));
    var s1 := Reduce(s, ArchiveRecord(s));
    LiveFacts(s1);
    BranchIsOrdinal(s1, candidate);
    RetainedFields(s, ArchiveRecord(s));
    NextRecordIdFree(s1);
    PreflightMakesBranchAtomic(s, candidate);
  }

  lemma BranchHeads(s: JournalState, create: Record, candidate: RetryCandidate)
    requires s.selected in s.heads && create == ArchiveRecord(s) && create.head !in s.heads
    ensures var s1 := Reduce(s, create);
            var move := RetryMove(s1, candidate);
            && Reducible(s1, move)
            && var s' := Reduce(s1, move);
               && s'.selected == s.selected && s.selected in s'.heads && create.head in s'.heads
               && s'.heads[s.selected].target == candidate.beforeQuestion
               && s'.heads[s.selected].revision == s.heads[s.selected].revision + 1
               && s'.heads[create.head].target == s.heads[s.selected].target
  {
  }

  /** What a retry branch leaves behind: the old tail under a new name, and the moved selection. */
  lemma BranchKeepsTail(s: JournalState, s': JournalState, candidate: RetryCandidate)
    requires Inv(s) && Branched(s, s', candidate)
    ensures Inv(s') && Continues(s, s')
    ensures var archived := "before-edit-" + Decimal.Text(s.nextSequence);
            && archived !in s.heads && archived in s'.heads && s'.selected == s.selected
            && PathOf(s', archived) == PathOf(s, s.selected)
            && s.selected in s'.heads
            && s'.heads[s.selected].target == candidate.beforeQuestion
            && s'.heads[s.selected].revision == s.heads[s.selected].revision + 1
  {
    var create := ArchiveRecord(s);
    var s1 := Reduce(s, create);
    var move := RetryMove(s1, candidate);
    ReduceKeepsInv(s, create);
    ReduceKeepsInv(s1, move);
    StepContinues(s, create);
    StepContinues(s1, move);
    ContinuesTransitive(s, s1, s');
    HeadMutationAccepted(s, create);
    BranchHeads(s, create, candidate);
    AncestryNeverChanges(s, s', s.heads[s.selected].target);
  }

  lemma BranchIsTried(s: JournalState, candidate: RetryCandidate)
    requires Live(s)
    ensures Shape(s) && s.selected in s.heads
    ensures Validate(s, ArchiveRecord(s)).Accepted? ==> Accepts(s, ArchiveRecord(s))
    ensures Validate(s, RetryMove(s, candidate)).Accepted? ==> Accepts(s, RetryMove(s, candidate))
  {
    hide Validate, Live, ArchiveRecord, RetryMove;
    LiveFacts(s);
  }

  /**
   * The selected head is where the candidate saw it, its tail and the place before the question are
   * completed work, and the name the tail is archived under was never used.
   */
  ghost predicate MayBranch(s: JournalState, candidate: RetryCandidate) {
    var archived := "before-edit-" + Decimal.Text(s.nextSequence);
    && s.selected in s.heads && s.heads[s.selected].revision == candidate.revision
    && archived !in s.heads && archived !in s.retired
    && StableOrRoot(s, s.heads[s.selected].target) && StableOrRoot(s, candidate.beforeQuestion)
  }

  lemma BranchPassesIff(s: JournalState, candidate: RetryCandidate)
    requires Live(s) && s.nextSequence + 1 < U64_MAX
    ensures Shape(s) && s.selected in s.heads
    ensures MayBranch(s, candidate) <==>
      && Validate(s, ArchiveRecord(s)).Accepted? && Validate(s, RetryMove(s, candidate)).Accepted?
  {
    hide Inv, Validate, Reachable, OrdinalIds, RecordIdFor, Accepts, Shape, StableOrRoot;
    LiveFacts(s);
    InvHasShape(s);
    NextRecordIdFree(s);
    TryingIsDefined(s, ArchiveRecord(s));
    TryingIsDefined(s, RetryMove(s, candidate));
    HeadMutationIff(s, ArchiveRecord(s));
    HeadMutationIff(s, RetryMove(s, candidate));
  }

  lemma BranchedSo(s: JournalState, candidate: RetryCandidate)
    requires s.selected in s.heads && Accepts(s, ArchiveRecord(s))
    requires var s1 := Reduce(s, ArchiveRecord(s)); Accepts(s1, RetryMove(s1, candidate))
    ensures var s1 := Reduce(s, ArchiveRecord(s));
            var move := RetryMove(s1, candidate);
            && Branched(s, Reduce(s1, move), candidate)
            && BranchRecords(s, candidate) == [ArchiveRecord(s), move]
            && Reduce(s1, move).records == s.records + [ArchiveRecord(s), move]
  {
    var s1 := Reduce(s, ArchiveRecord(s));
    RetainedFields(s, ArchiveRecord(s));
    RetainedFields(s1, RetryMove(s1, candidate));
    hide Accepts, Reduce, ArchiveRecord, RetryMove;
  }

  // ------------------------------------------------------------------ the writer

  /** What one transition hands to the runtime. */
  class Reaction {
    var records: seq<Record>
    var events: seq<Envelope>

    constructor ()
      ensures records == [] && events == []
    {
      records, events := [], [];
    }
  }

  class LiveWriter {
    const agent: AgentId
    const journal: Journal
    var announced: bool
    var nextEvent: nat

    /** The writer's journal stays reachable, and the next identities stay free. */
    ghost predicate Valid()
      reads journal
    {
      Live(journal.State())
    }

    lemma IsLive()
      requires Valid()
      ensures Live(journal.State())
    {
    }

    constructor (agent: AgentId, session: string)
      ensures Valid() && fresh(journal) && journal.State() == Empty(session)
      ensures !announced && nextEvent == 1 && this.agent == agent
    {
      this.agent := agent;
      var empty := new Journal(session);
      journal := empty;
      announced := false;
      nextEvent := 1;
      new;
      EmptyIsLive(session);
    }

    /** Numbers one event; the event stream is as long as 64 bits allow. */
    method Emit(reaction: Reaction, event: Event)
      requires nextEvent < U64_MAX
      modifies this`nextEvent, reaction`events
      ensures nextEvent == old(nextEvent) + 1
      ensures reaction.events == old(reaction.events) + [Envelope(old(nextEvent), event)]
      ensures Contiguous(old(reaction.events), old(nextEvent)) ==>
                Contiguous(reaction.events, nextEvent)
    {
      reaction.events := reaction.events + [Envelope(nextEvent, event)];
      nextEvent := nextEvent + 1;
    }

    /** Applies one prepared record; the runtime is handed exactly the retained mutation. */
    method ApplyPrepared(r: Record, reaction: Reaction)
      requires Valid() && Accepts(journal.State(), r) && OrdinalRecord(journal.State(), r)
      modifies journal, reaction`records
      ensures Valid() && Applied(old(journal.State()), journal.State(), r)
      ensures reaction.records == old(reaction.records) + [r]
    {
      hide Reduce, Inv, Continues, Accepts, Validate, OrdinalRecord, Applied, OrdinalIds, Reachable;
      ghost var s := journal.State();
      TryingIsDefined(s, r);
      LiveKept(s, r);
      AppliedSo(s, Reduce(s, r), r);
      var verdict := journal.Apply(r);
      reaction.records := reaction.records + [r];
    }

    /** Appends one fact to the selected head and returns exactly that mutation outward. */
    method Commit(payload: Payload, reaction: Reaction)
      requires Valid() && PayloadAccepted(journal.State(), payload)
      modifies this`announced, journal, reaction`records
      ensures Valid()
      ensures var s := old(journal.State());
              && s.selected in s.heads
              && Applied(s, journal.State(), PreparedAppend(s, payload))
              && reaction.records == old(reaction.records) + [PreparedAppend(s, payload)]
      ensures FactAdded(old(journal.State()), journal.State(), payload,
                        old(reaction.records), reaction.records)
      ensures announced <==> old(announced) || (payload.AgentCreated? && payload.agent == agent)
    {
      hide *;
      ghost var s := journal.State();
      IsLive();
      LiveAppend(journal.State(), payload);
      var r := PreparedAppend(journal.State(), payload);
      ApplyPrepared(r, reaction);
      FactIsAdded(s, journal.State(), payload, old(reaction.records), reaction.records);
      announced := announced || (payload.AgentCreated? && payload.agent == agent);
    }

    /** Finishes the open turn of the selected head, then reports usage and the idle agent. */
    method FinishOpenTurn(
      turn: TurnId, outcome: TurnOutcome, at: FinishedAt, usage: Option<nat>, reaction: Reaction)
      requires Valid() && TurnEnds(journal.State(), agent, turn, outcome, at)
      requires nextEvent + 1 < U64_MAX
      modifies this`nextEvent, journal, reaction
      ensures Valid()
      ensures var s := old(journal.State());
              && s.selected in s.heads && PreparedFinish(s, agent, turn, outcome, at).Some?
              && var r := PreparedFinish(s, agent, turn, outcome, at).value;
                 Applied(s, journal.State(), r) && reaction.records == old(reaction.records) + [r]
      ensures old(journal.State()).heads[old(journal.State()).selected].target.Some?
      ensures var s := old(journal.State());
              TurnEnded(s, journal.State(),
                        TurnFinish(agent, turn, s.heads[s.selected].target.value, outcome, at),
                        old(reaction.records), reaction.records)
      ensures usage.Some? ==>
        reaction.events == old(reaction.events) +
          [Envelope(old(nextEvent), UsageReported(usage.value)), Envelope(old(nextEvent) + 1, AgentIdle)]
        && nextEvent == old(nextEvent) + 2
      ensures usage.None? ==>
        reaction.events == old(reaction.events) + [Envelope(old(nextEvent), AgentIdle)]
        && nextEvent == old(nextEvent) + 1
    {
      hide *;
      ghost var s := journal.State();
      IsLive();
      LiveFinish(journal.State(), agent, turn, outcome, at);
      var r := PreparedFinish(journal.State(), agent, turn, outcome, at).value;
      ApplyPrepared(r, reaction);
      TurnIsEnded(s, journal.State(), agent, turn, outcome, at, old(reaction.records), reaction.records);
      ReportFinish(usage, reaction);
    }

    /** Usage, when there is any, is shown before the agent goes idle. */
    method ReportFinish(usage: Option<nat>, reaction: Reaction)
      requires nextEvent + 1 < U64_MAX
      modifies this`nextEvent, reaction`events
      ensures usage.Some? ==>
        reaction.events == old(reaction.events) +
          [Envelope(old(nextEvent), UsageReported(usage.value)), Envelope(old(nextEvent) + 1, AgentIdle)]
        && nextEvent == old(nextEvent) + 2
      ensures usage.None? ==>
        reaction.events == old(reaction.events) + [Envelope(old(nextEvent), AgentIdle)]
        && nextEvent == old(nextEvent) + 1
    {
      hide Contiguous;
      if usage.Some? {
        Emit(reaction, UsageReported(usage.value));
      }
      Emit(reaction, AgentIdle);
    }

    /** Applies a record the journal may refuse; a refusal hands nothing outward. */
    method TryApply(r: Record, reaction: Reaction) returns (verdict: Check)
      requires Valid() && OrdinalRecord(journal.State(), r)
      modifies journal, reaction`records
      ensures Valid()
      ensures Attempted(old(journal.State()), journal.State(), r, verdict,
                        old(reaction.records), reaction.records)
    {
      hide Reduce, Inv, Continues, Accepts, Validate, OrdinalRecord, Applied, OrdinalIds, Reachable;
      hide Attempted, Shape;
      ghost var s := journal.State();
      TryingIsDefined(s, r);
      if Accepts(s, r) {
        LiveKept(s, r);
        AppliedSo(s, Reduce(s, r), r);
      }
      verdict := journal.Apply(r);
      if verdict.Accepted? {
        reaction.records := reaction.records + [r];
      }
      AttemptedSo(s, journal.State(), r, verdict, old(reaction.records), reaction.records);
    }

    /** Authorizes one model request; nothing is owned or shown when the journal refuses it. */
    method AuthorizeRequestAttempt(
      attempt: AttemptId, owner: AttemptOwner, environment: string, reaction: Reaction)
      returns (verdict: Check)
      requires Valid()
      modifies journal, reaction`records
      ensures Valid() && old(journal.State()).selected in old(journal.State()).heads
      ensures var r := PreparedAuthorization(old(journal.State()), attempt, owner, environment);
              if r.None?
              then verdict == Refused(MissingTurn) && journal.State() == old(journal.State())
                   && reaction.records == old(reaction.records)
              else Attempted(old(journal.State()), journal.State(), r.value, verdict,
                             old(reaction.records), reaction.records)
      ensures verdict.Accepted? ==>
                var s := old(journal.State());
                && s.heads[s.selected].target.Some?
                && RequestOpened(s, journal.State(),
                                 Authorization(attempt, owner, s.heads[s.selected].target.value, environment),
                                 old(reaction.records), reaction.records)
    {
      hide *;
      ghost var s := journal.State();
      IsLive();
      LiveFacts(journal.State());
      AttemptsAreOrdinal(journal.State(), attempt, owner, environment, Terminal(attempt, false, true));
      var r := PreparedAuthorization(journal.State(), attempt, owner, environment);
      if r.None? { return Refused(MissingTurn); }
      verdict := TryApply(r.value, reaction);
      RequestIsOpened(s, journal.State(), attempt, owner, environment, verdict,
                      old(reaction.records), reaction.records);
    }

    /**
     * Finishes one request. The usage it adds is worked out before anything is applied, so a total
     * that cannot be formed refuses the terminal and changes nothing.
     */
    method FinishRequestAttempt(terminal: Terminal, usage: Option<Option<nat>>, reaction: Reaction)
      returns (verdict: Check)
      requires Valid() && nextEvent < U64_MAX
      modifies this`nextEvent, journal, reaction
      ensures Valid() && Shape(old(journal.State()))
      ensures var s := old(journal.State());
              var r := PreparedTerminal(s, terminal);
              if usage.None? && Validate(s, r).Accepted?
              then verdict == Refused(InvalidRequestAttemptTerminal)
                   && journal.State() == s && reaction.records == old(reaction.records)
              else Attempted(s, journal.State(), r, verdict, old(reaction.records), reaction.records)
      ensures usage.None? ==> verdict.Refused?
      ensures verdict.Accepted? ==>
        RequestEnded(old(journal.State()), journal.State(), terminal,
                     old(reaction.records), reaction.records)
      ensures verdict.Refused? || usage == Some(None) ==>
                reaction.events == old(reaction.events) && nextEvent == old(nextEvent)
      ensures verdict.Accepted? && usage.Some? && usage.value.Some? ==>
                reaction.events == old(reaction.events) +
                  [Envelope(old(nextEvent), UsageReported(usage.value.value))]
                && nextEvent == old(nextEvent) + 1
    {
      hide *;
      ghost var s := journal.State();
      IsLive();
      TerminalIsTried(s, terminal);
      var r := PreparedTerminal(journal.State(), terminal);
      if Validate(journal.State(), r).Accepted? && usage.None? {
        return Refused(InvalidRequestAttemptTerminal);
      }
      verdict := TryApply(r, reaction);
      AttemptedIs(s, journal.State(), r, verdict, old(reaction.records), reaction.records);
      RequestIsEnded(s, journal.State(), terminal, verdict, old(reaction.records), reaction.records);
      if verdict.Accepted? && usage.value.Some? {
        Emit(reaction, UsageReported(usage.value.value));
      }
    }

    /**
     * Archives the failed tail under a new head and moves the selected head before its question. The
     * two records are checked before either is applied, so a refusal changes nothing.
     */
    method BranchBeforeRetry(candidate: RetryCandidate, reaction: Reaction) returns (verdict: Check)
      requires Valid() && journal.State().nextSequence + 1 < U64_MAX
      modifies journal, reaction`records
      ensures Valid()
      ensures verdict.Accepted? <==> MayBranch(old(journal.State()), candidate)
      ensures verdict.Refused? ==>
        journal.State() == old(journal.State()) && reaction.records == old(reaction.records)
      ensures verdict.Accepted? ==>
        && Branched(old(journal.State()), journal.State(), candidate)
        && reaction.records == old(reaction.records) + BranchRecords(old(journal.State()), candidate)
        && journal.State().records ==
             old(journal.State()).records + BranchRecords(old(journal.State()), candidate)
    {
      hide *;
      ghost var s := journal.State();
      IsLive();
      BranchIsTried(s, candidate);
      BranchPassesIff(s, candidate);
      var create := ArchiveRecord(journal.State());
      verdict := Validate(journal.State(), create);
      if verdict.Accepted? {
        verdict := Validate(journal.State(), RetryMove(journal.State(), candidate));
        if verdict.Accepted? {
          BranchContract(s, candidate);
          ApplyPrepared(create, reaction);
          ghost var s1 := journal.State();
          AppliedIs(s, s1, create);
          ApplyPrepared(RetryMove(journal.State(), candidate), reaction);
          AppliedIs(s1, journal.State(), RetryMove(s1, candidate));
          BranchedSo(s, candidate);
        }
      }
    }
  }
}
