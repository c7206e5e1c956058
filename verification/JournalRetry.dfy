/** When a failed turn may be retried, said over the branch and the attempts, and a run that is. */
module JournalRetry {
  import opened Options
  import opened ModelOutput
  import opened JournalModel
  import opened JournalInvariant
  import opened JournalRules
  import opened JournalPreservation
  import opened JournalHistory
  import opened JournalPaths
  import opened JournalRecords
  import opened LiveRecord

  // ------------------------------------------------------------------ the condition

  ghost predicate Answers(p: Payload) {
    p.AssistantOutput? || p.SteeringAccepted? || p.ToolCallRequested? || p.ToolCallChanged?
  }

  /** The last turn begun on the branch: what answers a message retries, collaboration turns do not. */
  ghost predicate LastBegun(path: seq<Entry>, i: nat) {
    && i < |path| && Begins(path[i].payload)
    && forall k :: i < k < |path| ==> !Begins(path[k].payload)
  }

  ghost predicate LastQuestion(path: seq<Entry>, q: nat) {
    && q < |path| && path[q].payload.TurnStarted?
    && forall k :: q < k < |path| ==> !path[k].payload.TurnStarted?
  }

  ghost predicate StepOf(s: JournalState, a: AttemptId, turn: TurnId) {
    && a in s.attempts && s.attempts[a].authorization.owner.AgentStep?
    && s.attempts[a].authorization.owner.step.turn == turn
  }

  /** The last attempt authorized for a step of the turn. */
  ghost predicate LastStepOf(s: JournalState, order: seq<AttemptId>, k: nat, turn: TurnId) {
    && k < |order| && StepOf(s, order[k], turn)
    && forall m :: k < m < |order| ==> !StepOf(s, order[m], turn)
  }

  ghost predicate RateLimited(s: JournalState, a: AttemptId) {
    a in s.attempts && s.attempts[a].terminal.Some? && s.attempts[a].terminal.value.rateLimited
  }

  /** The question was met with a reported error and with nothing else. */
  ghost predicate OnlyErrors(path: seq<Entry>, q: nat) {
    && q < |path|
    && (exists e :: q < e < |path| && path[e].payload.RuntimeError?)
    && forall k :: q < k < |path| ==> !Answers(path[k].payload)
  }

  /**
   * A closed head whose branch last began at `i` a turn that failed, whose last request `k` was rate
   * limited, and whose question `q` nothing has answered.
   */
  ghost predicate Retryable(
    s: JournalState, head: HeadName, path: seq<Entry>, i: nat, k: nat, q: nat)
  {
    && head in s.heads && s.heads[head].open.None?
    && RootToTarget(s, path, s.heads[head].target)
    && LastBegun(path, i) && !path[i].payload.CollaborationTurnStarted?
    && path[i].payload.turn in s.finishes && s.finishes[path[i].payload.turn].outcome == Failed
    && LastStepOf(s, s.attemptOrder, k, path[i].payload.turn)
    && RateLimited(s, s.attemptOrder[k])
    && LastQuestion(path, q) && OnlyErrors(path, q)
  }

  // ------------------------------------------------------------------ it decides what is offered

  lemma LastIndexIs(path: seq<Entry>, p: Payload -> bool, i: nat)
    requires i < |path| && p(path[i].payload) && forall k :: i < k < |path| ==> !p(path[k].payload)
    ensures LastIndex(path, p) == Some(i)
  {
  }

  lemma {:induction false} LastAttemptIs(s: JournalState, order: seq<AttemptId>, turn: TurnId)
    requires forall a :: a in order ==> a in s.attempts
    ensures forall k: nat :: LastStepOf(s, order, k, turn) ==> LastAttempt(s, order, turn) == Some(order[k])
    ensures LastAttempt(s, order, turn).Some? ==>
              exists k: nat :: LastStepOf(s, order, k, turn) && LastAttempt(s, order, turn) == Some(order[k])
  {
    if order != [] {
      var n := |order| - 1;
      var front := order[..n];
      LastAttemptIs(s, front, turn);
      assert order[n] in order;
      if StepOf(s, order[n], turn) {
        assert LastStepOf(s, order, n, turn);
      } else {
        forall k: nat ensures LastStepOf(s, order, k, turn) <==> LastStepOf(s, front, k, turn) {
          if LastStepOf(s, front, k, turn) { assert order[k] == front[k]; }
          if LastStepOf(s, order, k, turn) {
            assert k < n && front[k] == order[k];
            assert forall m :: k < m < n ==> front[m] == order[m];
          }
        }
      }
    }
  }

  /** What the source reads off the branch, for the two positions that decide it. */
  ghost predicate Read(path: seq<Entry>, i: nat, q: nat) {
    && i < |path| && q < |path|
    && LastIndex(path, StartsAnyTurn) == Some(i) && LastIndex(path, IsQuestion) == Some(q)
    && LastIndex(path[q + 1..], AnswersQuestion).None?
    && LastIndex(path[q + 1..], ReportsError).Some?
  }

  lemma AfterQuestion(path: seq<Entry>, q: nat)
    requires q < |path|
    requires LastIndex(path[q + 1..], AnswersQuestion).None? && LastIndex(path[q + 1..], ReportsError).Some?
    ensures OnlyErrors(path, q)
  {
    var after := path[q + 1..];
    assert forall j :: q < j < |path| ==> after[j - q - 1] == path[j];
    assert forall j :: q < j < |path| ==> !AnswersQuestion(path[j].payload);
    assert path[q + 1 + LastIndex(after, ReportsError).value].payload.RuntimeError?;
  }

  lemma ErrorsAfter(path: seq<Entry>, q: nat)
    requires OnlyErrors(path, q)
    ensures LastIndex(path[q + 1..], AnswersQuestion).None? && LastIndex(path[q + 1..], ReportsError).Some?
  {
    var after := path[q + 1..];
    var e :| q < e < |path| && path[e].payload.RuntimeError?;
    assert after[e - q - 1] == path[e] && ReportsError(after[e - q - 1].payload);
    assert forall j :: 0 <= j < |after| ==> after[j] == path[q + 1 + j];
  }

  lemma IsRead(path: seq<Entry>, i: nat, q: nat)
    requires LastBegun(path, i) && LastQuestion(path, q) && OnlyErrors(path, q)
    ensures Read(path, i, q)
  {
    LastIndexIs(path, StartsAnyTurn, i);
    LastIndexIs(path, IsQuestion, q);
    hide OnlyErrors, LastIndex;
    ErrorsAfter(path, q);
  }

  lemma ReadSays(path: seq<Entry>, i: nat, q: nat)
    requires Read(path, i, q)
    ensures LastBegun(path, i) && LastQuestion(path, q) && OnlyErrors(path, q)
  {
    AfterQuestion(path, q);
    hide OnlyErrors;
    assert forall k :: i < k < |path| ==> !StartsAnyTurn(path[k].payload);
    assert forall k :: q < k < |path| ==> !IsQuestion(path[k].payload);
  }

  lemma ReadIff(path: seq<Entry>, i: nat, q: nat)
    ensures Read(path, i, q) <==> LastBegun(path, i) && LastQuestion(path, q) && OnlyErrors(path, q)
  {
    hide *;
    if Read(path, i, q) { ReadSays(path, i, q); }
    if LastBegun(path, i) && LastQuestion(path, q) && OnlyErrors(path, q) { IsRead(path, i, q); }
  }

  /** What is offered, from the branch that was read and the last attempt. */
  lemma OfferedFrom(s: JournalState, head: HeadName, i: nat, q: nat)
    requires Shape(s) && head in s.heads && s.heads[head].open.None? && Read(PathOf(s, head), i, q)
    ensures StartedTurn(PathOf(s, head)[i].payload).Some?
    ensures var path := PathOf(s, head);
            var turn := StartedTurn(path[i].payload).value.1;
            Candidate(s, head) ==
              if && !path[i].payload.CollaborationTurnStarted?
                 && turn in s.finishes && s.finishes[turn].outcome == Failed
                 && LastAttempt(s, s.attemptOrder, turn).Some?
                 && RateLimited(s, LastAttempt(s, s.attemptOrder, turn).value)
              then Some(RetryCandidate(turn, s.heads[head].revision, path[q].parent)) else None
  {
    hide PathOf, LastAttempt, Shape;
  }

  lemma BegunTurn(p: Payload)
    requires Begins(p)
    ensures StartedTurn(p).Some? && StartedTurn(p).value.1 == p.turn
  {
  }

  lemma AttemptsListed(s: JournalState)
    requires Shape(s)
    ensures forall a :: a in s.attemptOrder ==> a in s.attempts
  {
  }

  lemma RetryableIsOffered(
    s: JournalState, head: HeadName, path: seq<Entry>, i: nat, k: nat, q: nat)
    requires Shape(s) && Retryable(s, head, path, i, k, q)
    ensures Candidate(s, head) ==
              Some(RetryCandidate(path[i].payload.turn, s.heads[head].revision, path[q].parent))
  {
    assert Retryable(s, head, path, i, k, q);
    AncestryIsThePath(s, path, s.heads[head].target);
    assert path == PathOf(s, head);
    hide Ancestry, LastAttempt, RootToTarget, Candidate, Read, LastQuestion, OnlyErrors, Shape, PathOf;
    ReadIff(path, i, q);
    OfferedFrom(s, head, i, q);
    BegunTurn(path[i].payload);
    LastAttemptIs(s, s.attemptOrder, path[i].payload.turn) by { AttemptsListed(s); }
  }

  lemma OfferedReads(s: JournalState, head: HeadName) returns (i: nat, q: nat)
    requires Shape(s) && Candidate(s, head).Some?
    ensures head in s.heads && s.heads[head].open.None? && Read(PathOf(s, head), i, q)
  {
    hide PathOf, LastAttempt, Shape;
    i := LastIndex(PathOf(s, head), StartsAnyTurn).value;
    q := LastIndex(PathOf(s, head), IsQuestion).value;
  }

  lemma OfferedIsRetryable(s: JournalState, head: HeadName)
    returns (path: seq<Entry>, i: nat, k: nat, q: nat)
    requires Shape(s) && Candidate(s, head).Some?
    ensures Retryable(s, head, path, i, k, q)
  {
    i, q := OfferedReads(s, head);
    path := PathOf(s, head);
    AncestryIsThePath(s, path, s.heads[head].target);
    hide Ancestry, LastAttempt, RootToTarget, Candidate, Read, LastQuestion, OnlyErrors, Shape, PathOf;
    ReadIff(path, i, q);
    OfferedFrom(s, head, i, q);
    BegunTurn(path[i].payload);
    var turn := path[i].payload.turn;
    LastAttemptIs(s, s.attemptOrder, turn) by { AttemptsListed(s); }
    k :| LastStepOf(s, s.attemptOrder, k, turn) && LastAttempt(s, s.attemptOrder, turn) == Some(s.attemptOrder[k]);
  }

  /** A retry is offered exactly when the head is retryable, and then for that turn and question. */
  lemma RetryOfferedIff(s: JournalState, head: HeadName)
    requires Inv(s)
    ensures Candidate(s, head).Some? <==>
              exists path: seq<Entry>, i: nat, k: nat, q: nat :: Retryable(s, head, path, i, k, q)
    ensures forall path: seq<Entry>, i: nat, k: nat, q: nat :: Retryable(s, head, path, i, k, q) ==>
              Candidate(s, head) ==
                Some(RetryCandidate(path[i].payload.turn, s.heads[head].revision, path[q].parent))
  {
    assert Shape(s);
    hide Inv, Shape, Candidate;
    forall path: seq<Entry>, i: nat, k: nat, q: nat | Retryable(s, head, path, i, k, q)
      ensures Candidate(s, head) ==
                Some(RetryCandidate(path[i].payload.turn, s.heads[head].revision, path[q].parent))
    {
      RetryableIsOffered(s, head, path, i, k, q);
    }
    hide Retryable;
    if Candidate(s, head).Some? {
      var path, i, k, q := OfferedIsRetryable(s, head);
    }
  }

  /**
   * A prepared retry is accepted exactly when its source turn is what the selected head offers to
   * retry, belongs to the agent, and the turn it would start is new.
   */
  lemma RetryAccepted(s: JournalState, agent: AgentId, source: TurnId, turn: TurnId)
    requires Inv(s) && NextIdsFree(s) && s.nextSequence < U64_MAX
    ensures Accepts(s, PreparedAppend(s, TurnRetried(agent, source, turn))) <==>
      && turn !in s.starts && source in s.starts && s.starts[source].agent == agent
      && exists path: seq<Entry>, i: nat, k: nat, q: nat ::
           Retryable(s, s.selected, path, i, k, q) && path[i].payload.turn == source
  {
    hide Accepts, Inv, Shape, NextIdsFree, RecordIdFor, EntryIdFor, Retryable, Candidate;
    SelectedFacts(s);
    RetryOfferedIff(s, s.selected);
    PreparedAppendAccepted(s, TurnRetried(agent, source, turn));
    if Candidate(s, s.selected).Some? {
      var path, i, k, q := OfferedIsRetryable(s, s.selected);
    }
  }

  // ------------------------------------------------------------------ a run that offers one

  /** A live journal whose selected head has this branch and is open on this turn. */
  ghost predicate Stage(s: JournalState, head: HeadName, path: seq<Entry>, open: Option<TurnId>) {
    && Live(s) && Inv(s) && s.selected == head && head in s.heads
    && PathOf(s, head) == path && s.heads[head].open == open
  }

  /** The two states hold the same turns and attempts. */
  ghost predicate SameWork(s: JournalState, s': JournalState) {
    && s'.starts == s.starts && s'.finishes == s.finishes && s'.lastSteps == s.lastSteps
    && SameAttempts(s, s')
  }

  lemma AppendEffects(s: JournalState, r: Record)
    requires r.AppendEntry? && r.head in s.heads && !r.entry.payload.AssistantOutput?
    ensures var s' := Reduce(s, r);
            && s'.selected == s.selected && r.head in s'.heads
            && s'.heads[r.head].open == NextOpen(s, r.head, r.entry.payload)
            && SameAttempts(s, s') && s'.finishes == s.finishes && s'.lastSteps == s.lastSteps
            && s'.starts == if StartedTurn(r.entry.payload).Some?
                            then s.starts[StartedTurn(r.entry.payload).value.1 :=
                                   TurnStart(StartedTurn(r.entry.payload).value.0, r.entry.id)]
                            else s.starts
  {
  }

  lemma AppendStage(
    s: JournalState, head: HeadName, path: seq<Entry>, open: Option<TurnId>, payload: Payload)
    requires Stage(s, head, path, open) && PayloadAccepted(s, payload) && !payload.AssistantOutput?
    ensures var r := PreparedAppend(s, payload);
            var s' := Reduce(s, r);
            && Stage(s', head, path + [r.entry],
                     if StartedTurn(payload).Some? then Some(StartedTurn(payload).value.1) else open)
            && s'.nextSequence == s.nextSequence + 1
            && r.entry.payload == payload
            && SameAttempts(s, s') && s'.finishes == s.finishes && s'.lastSteps == s.lastSteps
            && s'.starts == if StartedTurn(payload).Some?
                            then s.starts[StartedTurn(payload).value.1 :=
                                   TurnStart(StartedTurn(payload).value.0, r.entry.id)]
                            else s.starts
  {
    hide Live, Inv, PayloadAccepted, Accepts, Reduce, PathOf, OrdinalRecord, StartedTurn, SameAttempts;
    hide RecordIdFor, EntryIdFor;
    var r := PreparedAppend(s, payload);
    LiveAppend(s, payload);
    LiveKept(s, r);
    LiveFacts(Reduce(s, r));
    AppendExtendsPath(s, r);
    AppendEffects(s, r);
    RetainedFields(s, r);
  }

  lemma FactStage(s: JournalState, head: HeadName, path: seq<Entry>, open: Option<TurnId>, r: Record)
    requires Stage(s, head, path, open) && Accepts(s, r) && OrdinalRecord(s, r)
    requires r.AuthorizeAttempt? || r.FinishAttempt?
    ensures Stage(Reduce(s, r), head, path, open)
    ensures Reduce(s, r).nextSequence == s.nextSequence + 1
    ensures var s' := Reduce(s, r);
            s'.starts == s.starts && s'.finishes == s.finishes && s'.lastSteps == s.lastSteps
  {
    hide Live, Inv, Accepts, Reduce, PathOf, OrdinalRecord, Ancestry;
    LiveKept(s, r);
    LiveFacts(Reduce(s, r));
    OtherHeadsKeepPath(s, r, head);
    AttemptFrame(s, r);
    RetainedFields(s, r);
  }

  lemma FinishStage(s: JournalState, head: HeadName, path: seq<Entry>, open: Option<TurnId>, r: Record)
    requires Stage(s, head, path, open) && Accepts(s, r) && OrdinalRecord(s, r)
    requires r.FinishTurn? && r.head == head
    ensures Stage(Reduce(s, r), head, path, None)
    ensures Reduce(s, r).nextSequence == s.nextSequence + 1
  {
    hide Live, Inv, Accepts, Reduce, OrdinalRecord, Ancestry;
    LiveKept(s, r);
    LiveFacts(Reduce(s, r));
    FinishEffects(s, r);
    StepContinues(s, r);
    RetainedFields(s, r);
    PathKept(s, Reduce(s, r), head);
  }

  /** The record is accepted and leads from one state to the other. */
  ghost predicate Leads(s: JournalState, r: Option<Record>, s': JournalState) {
    r.Some? && Accepts(s, r.value) && s' == Reduce(s, r.value)
  }

  lemma StageFacts(s: JournalState, head: HeadName, path: seq<Entry>, open: Option<TurnId>)
    requires Stage(s, head, path, open)
    ensures Live(s) && Inv(s) && Shape(s) && s.selected == head && head in s.heads
    ensures s.heads[head].open == open && PathOf(s, head) == path
    ensures open.Some? ==> s.heads[head].target.Some?
  {
    if open.Some? { assert HeadMatches(s, s.heads[head]); }
    hide Live, PathOf, Forest, Partition, AttemptsIndexed, CompactionsIndexed, TurnChain;
  }

  /** A turn asks on a closed head: its question ends the branch. */
  lemma Asks(s: JournalState, path: seq<Entry>, agent: AgentId, t: TurnId) returns (s': JournalState)
    requires Stage(s, s.selected, path, None) && s.nextSequence < U64_MAX && t !in s.starts
    ensures Leads(s, Some(PreparedAppend(s, TurnStarted(agent, t))), s')
    ensures Stage(s', s.selected, path + [PreparedAppend(s, TurnStarted(agent, t)).entry], Some(t))
    ensures s'.nextSequence == s.nextSequence + 1 && s'.lastSteps == s.lastSteps
    ensures s'.attempts == s.attempts && s'.activeOwners == s.activeOwners
    ensures s'.starts == s.starts[t := TurnStart(agent, PreparedAppend(s, TurnStarted(agent, t)).entry.id)]
  {
    hide Live, Inv, Accepts, Reduce, PathOf, PayloadAccepted, Stage, PreparedAppend, NextIdsFree;
    StageFacts(s, s.selected, path, None);
    LiveFacts(s);
    TurnStartAccepted(s, agent, t);
    PreparedAppendAccepted(s, TurnStarted(agent, t));
    AppendStage(s, s.selected, path, None, TurnStarted(agent, t));
    s' := Reduce(s, PreparedAppend(s, TurnStarted(agent, t)));
  }

  /** The last request of the turn was rate limited. */
  ghost predicate Limited(s: JournalState, t: TurnId) {
    && s.attemptOrder != []
    && LastStepOf(s, s.attemptOrder, |s.attemptOrder| - 1, t)
    && RateLimited(s, s.attemptOrder[|s.attemptOrder| - 1])
  }

  /** Its first request is authorized. */
  lemma IsAuthorized(
    s: JournalState, path: seq<Entry>, t: TurnId, attempt: AttemptId, environment: string)
    returns (s': JournalState)
    requires s.selected in s.heads && Stage(s, s.selected, path, Some(t)) && s.nextSequence < U64_MAX
    requires t !in s.lastSteps && attempt !in s.attempts && AgentStep(StepId(t, 1)) !in s.activeOwners
    ensures Leads(s, PreparedAuthorization(s, attempt, AgentStep(StepId(t, 1)), environment), s')
    ensures Stage(s', s.selected, path, Some(t)) && s'.nextSequence == s.nextSequence + 1
    ensures s'.starts == s.starts && s'.finishes == s.finishes
    ensures attempt in s'.attempts && s'.attempts[attempt].terminal.None?
    ensures s'.attemptOrder == s.attemptOrder + [attempt]
    ensures StepOf(s', attempt, t)
  {
    hide Live, Inv, Accepts, Reduce, PathOf, Stage, OrdinalRecord, RecordIdFor, NextIdsFree;
    var owner := AgentStep(StepId(t, 1));
    StageFacts(s, s.selected, path, Some(t));
    LiveFacts(s);
    AuthorizationAccepted(s, attempt, owner, environment);
    AttemptsAreOrdinal(s, attempt, owner, environment, Terminal(attempt, true, true));
    var r := PreparedAuthorization(s, attempt, owner, environment).value;
    FactStage(s, s.selected, path, Some(t), r);
    s' := Reduce(s, r);
    AuthorizeEffects(s, r);
  }

  lemma EndsLimited(s: JournalState, r: Record, t: TurnId)
    requires r.FinishAttempt? && r.terminal.rateLimited
    requires StepOf(s, r.terminal.attempt, t)
    requires s.attemptOrder != [] && s.attemptOrder[|s.attemptOrder| - 1] == r.terminal.attempt
    ensures Limited(Reduce(s, r), t)
  {
    TerminalEffects(s, r);
    hide Reduce;
  }

  /** And it ends rate limited. */
  lemma IsLimited(s: JournalState, path: seq<Entry>, t: TurnId, attempt: AttemptId)
    returns (s': JournalState)
    requires s.selected in s.heads && Stage(s, s.selected, path, Some(t)) && s.nextSequence < U64_MAX
    requires attempt in s.attempts && s.attempts[attempt].terminal.None? && StepOf(s, attempt, t)
    requires s.attemptOrder != [] && s.attemptOrder[|s.attemptOrder| - 1] == attempt
    ensures Leads(s, Some(PreparedTerminal(s, Terminal(attempt, true, true))), s')
    ensures Stage(s', s.selected, path, Some(t)) && s'.nextSequence == s.nextSequence + 1
    ensures s'.starts == s.starts && s'.finishes == s.finishes && Limited(s', t)
  {
    hide Live, Inv, Accepts, Reduce, PathOf, Stage, OrdinalRecord, RecordIdFor, NextIdsFree, Limited;
    var terminal := Terminal(attempt, true, true);
    StageFacts(s, s.selected, path, Some(t));
    LiveFacts(s);
    TerminalAccepted(s, terminal);
    AttemptsAreOrdinal(s, attempt, AgentStep(StepId(t, 1)), "", terminal);
    FactStage(s, s.selected, path, Some(t), PreparedTerminal(s, terminal));
    s' := Reduce(s, PreparedTerminal(s, terminal));
    EndsLimited(s, PreparedTerminal(s, terminal), t);
  }

  lemma ErrorAccepted(s: JournalState, agent: AgentId, message: string)
    requires Shape(s) && s.nextSequence < U64_MAX
    ensures PayloadAccepted(s, RuntimeError(agent, message))
  {
    hide Shape, RecordIdFor, EntryIdFor;
  }

  /** The error is reported and the turn fails. */
  lemma Fails(
    s: JournalState, path: seq<Entry>, agent: AgentId, t: TurnId, message: string, at: nat)
    returns (s1: JournalState, s2: JournalState)
    requires Stage(s, s.selected, path, Some(t)) && s.nextSequence + 1 < U64_MAX
    requires t in s.starts && s.starts[t].agent == agent
    ensures Leads(s, Some(PreparedAppend(s, RuntimeError(agent, message))), s1)
    ensures s1.selected in s1.heads
    ensures Leads(s1, PreparedFinish(s1, agent, t, Failed, Observed(at)), s2)
    ensures Stage(s2, s.selected, path + [PreparedAppend(s, RuntimeError(agent, message)).entry], None)
    ensures s2.nextSequence == s.nextSequence + 2 && SameAttempts(s, s2) && s2.starts == s.starts
    ensures t in s2.finishes && s2.finishes[t].outcome == Failed
  {
    hide Live, Inv, Accepts, Reduce, PathOf, Stage, OrdinalRecord, RecordIdFor, NextIdsFree, PayloadAccepted;
    var payload := RuntimeError(agent, message);
    StageFacts(s, s.selected, path, Some(t));
    ErrorAccepted(s, agent, message);
    LiveAppend(s, payload);
    AppendStage(s, s.selected, path, Some(t), payload);
    var more := path + [PreparedAppend(s, payload).entry];
    s1 := Reduce(s, PreparedAppend(s, payload));
    StageFacts(s1, s.selected, more, Some(t));
    LiveFinish(s1, agent, t, Failed, Observed(at));
    var r := PreparedFinish(s1, agent, t, Failed, Observed(at)).value;
    FinishStage(s1, s.selected, more, Some(t), r);
    FinishEffects(s1, r);
    s2 := Reduce(s1, r);
  }

  lemma PathAtFirst(s: JournalState) returns (path: seq<Entry>)
    requires Live(s) && Inv(s) && s.selected in s.heads
    ensures Stage(s, s.selected, path, s.heads[s.selected].open)
  {
    hide Live, Inv;
    assert Shape(s) by { SelectedFacts(s); }
    path := PathOf(s, s.selected);
  }

  lemma PreparedKeepsPayload(s: JournalState, payload: Payload)
    requires s.selected in s.heads
    ensures PreparedAppend(s, payload).AppendEntry? && PreparedAppend(s, payload).entry.payload == payload
  {
    hide RecordIdFor, EntryIdFor;
  }

  lemma LimitedStays(s: JournalState, s': JournalState, t: TurnId)
    requires Limited(s, t) && SameAttempts(s, s')
    ensures Limited(s', t)
  {
  }

  lemma PathIsChain(s: JournalState, head: HeadName)
    requires Shape(s) && head in s.heads
    ensures RootToTarget(s, PathOf(s, head), s.heads[head].target)
  {
    AncestryIsThePath(s, PathOf(s, head), s.heads[head].target);
    hide RootToTarget, Ancestry;
  }

  lemma FailedIsRetryable(s: JournalState, path: seq<Entry>, q: nat, t: TurnId)
    requires Stage(s, s.selected, path, None) && Limited(s, t)
    requires t in s.finishes && s.finishes[t].outcome == Failed
    requires |path| == q + 2 && path[q].payload.TurnStarted? && path[q].payload.turn == t
    requires path[q + 1].payload.RuntimeError?
    ensures Retryable(s, s.selected, path, q, |s.attemptOrder| - 1, q)
  {
    hide Live, Inv, Stage, RootToTarget, PathOf, Shape, LastStepOf, RateLimited;
    StageFacts(s, s.selected, path, None);
    PathIsChain(s, s.selected);
    assert OnlyErrors(path, q) by { assert path[q + 1].payload.RuntimeError?; }
  }

  /**
   * On any live journal: a new turn that asks on the closed selected head, is rate limited, reports
   * its error and fails may be retried, and the retry is accepted.
   */
  lemma RateLimitedTurnIsRetried(
    s: JournalState, agent: AgentId, t: TurnId, retry: TurnId, attempt: AttemptId,
    environment: string, message: string, at: nat)
    returns (s1: JournalState, s2: JournalState, s3: JournalState, s4: JournalState, s5: JournalState)
    requires Live(s) && s.selected in s.heads && s.nextSequence + 5 < U64_MAX
    requires s.heads[s.selected].open.None? && attempt !in s.attempts
    requires t !in s.starts && retry !in s.starts && retry != t && t !in s.lastSteps
    requires AgentStep(StepId(t, 1)) !in s.activeOwners
    ensures Leads(s, Some(PreparedAppend(s, TurnStarted(agent, t))), s1) && s1.selected in s1.heads
    ensures Leads(s1, PreparedAuthorization(s1, attempt, AgentStep(StepId(t, 1)), environment), s2)
    ensures Leads(s2, Some(PreparedTerminal(s2, Terminal(attempt, true, true))), s3)
    ensures s3.selected in s3.heads
    ensures Leads(s3, Some(PreparedAppend(s3, RuntimeError(agent, message))), s4)
    ensures s4.selected in s4.heads
    ensures Leads(s4, PreparedFinish(s4, agent, t, Failed, Observed(at)), s5) && s5.selected in s5.heads
    ensures Accepts(s5, PreparedAppend(s5, TurnRetried(agent, t, retry)))
  {
    hide *;
    LiveFacts(s);
    var path := PathAtFirst(s);
    PreparedKeepsPayload(s, TurnStarted(agent, t));
    s1 := Asks(s, path, agent, t);
    var asked := path + [PreparedAppend(s, TurnStarted(agent, t)).entry];
    StageFacts(s1, s.selected, asked, Some(t));
    s2 := IsAuthorized(s1, asked, t, attempt, environment);
    StageFacts(s2, s.selected, asked, Some(t));
    s3 := IsLimited(s2, asked, t, attempt);
    StageFacts(s3, s.selected, asked, Some(t));
    s4, s5 := Fails(s3, asked, agent, t, message, at);
    PreparedKeepsPayload(s3, RuntimeError(agent, message));
    var all := asked + [PreparedAppend(s3, RuntimeError(agent, message)).entry];
    StageFacts(s5, s.selected, all, None);
    LiveFacts(s5);
    LimitedStays(s3, s5, t);
    FailedIsRetryable(s5, all, |path|, t);
    RetryAccepted(s5, agent, t, retry);
  }

  lemma LeadsOn(session: string, records: seq<Record>, s: JournalState, r: Option<Record>, s': JournalState)
    returns (more: seq<Record>)
    requires Replay(session, records) == Some(s) && Leads(s, r, s')
    ensures Replay(session, more) == Some(s') && |more| == |records| + 1
  {
    hide Replay, Accepts, Reduce;
    ReplayNext(session, records, s, r.value);
    more := records + [r.value];
  }

  lemma EmptyIsClosed(session: string, turn: TurnId, attempt: AttemptId, owner: AttemptOwner)
    ensures var s := Empty(session);
            && s.selected in s.heads && s.heads[s.selected].open.None? && s.nextSequence + 5 < U64_MAX
            && attempt !in s.attempts && turn !in s.starts && turn !in s.lastSteps
            && owner !in s.activeOwners
  {
  }

  /** Such a run exists in any conversation: its sixth record is the accepted retry. */
  lemma RetriedRun(
    session: string, agent: AgentId, t: TurnId, retry: TurnId, attempt: AttemptId, message: string)
    returns (records: seq<Record>)
    requires retry != t
    ensures |records| == 6 && Replay(session, records).Some?
    ensures records[5].AppendEntry? && records[5].entry.payload == TurnRetried(agent, t, retry)
  {
    hide *;
    var s := Empty(session);
    EmptyIsLive(session);
    EmptyIsClosed(session, t, attempt, AgentStep(StepId(t, 1)));
    EmptyIsClosed(session, retry, attempt, AgentStep(StepId(t, 1)));
    var s1, s2, s3, s4, s5 := RateLimitedTurnIsRetried(s, agent, t, retry, attempt, "", message, 0);
    ReplayNothing(session);
    var f1 := LeadsOn(session, [], s, Some(PreparedAppend(s, TurnStarted(agent, t))), s1);
    var f2 := LeadsOn(session, f1, s1, PreparedAuthorization(s1, attempt, AgentStep(StepId(t, 1)), ""), s2);
    var f3 := LeadsOn(session, f2, s2, Some(PreparedTerminal(s2, Terminal(attempt, true, true))), s3);
    var f4 := LeadsOn(session, f3, s3, Some(PreparedAppend(s3, RuntimeError(agent, message))), s4);
    var f5 := LeadsOn(session, f4, s4, PreparedFinish(s4, agent, t, Failed, Observed(0)), s5);
    var r6 := PreparedAppend(s5, TurnRetried(agent, t, retry));
    ReplayNext(session, f5, s5, r6);
    PreparedKeepsPayload(s5, TurnRetried(agent, t, retry));
    records := f5 + [r6];
  }
}
