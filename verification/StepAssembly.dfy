/** One model step: what arrives by position, what is refused, and what is retained meanwhile. */
module StepAssembly {
  import opened Options
  import opened ModelOutput
  import opened LiveEvents
  import opened Positions

  const MAX_TEXT_BYTES: nat := 1024 * 1024
  const MAX_ARGUMENT_BYTES: nat := 512 * 1024
  const MAX_REQUESTED_BYTES: nat := 64 * 1024
  const MAX_IDENTITY_BYTES: nat := 1024
  const MAX_REPLAY_BYTES: nat := 256 * 1024

  datatype Streamed = Streamed(role: Role, item: ItemId, shown: bool, revision: nat, text: string)

  /** What one position holds so far. */
  datatype Pending =
    | PendingReplay(item: ItemId)
    | PendingText(streamed: Streamed)
    | PendingReasoning(streamed: Streamed)
    | PendingCall(item: ItemId, call: ToolCall)
    | PendingServerCall(item: ItemId, serverCall: ServerCall)
    | PendingServerStarted(item: ItemId, tool: string)
  {
    predicate IsText() { PendingText? || PendingReasoning? }

    function ItemOf(): ItemId {
      if IsText() then streamed.item else item
    }
  }

  datatype StepState = StepState(
    agent: AgentId,
    step: StepId,
    outputs: map<Position, Pending>,
    replay: map<Position, ProviderReplay>,
    textBytes: nat,
    argumentBytes: nat,
    replayBytes: nat,
    lastVisible: Option<Position>)

  datatype StepError =
    | ConflictingPosition
    | DuplicateReplayPosition
    | MixedReplayCompatibility
    | DuplicateToolCallId
    | TextTooLarge
    | ToolIdentityTooLarge
    | ToolArgumentsTooLarge
    | ReplayTooLarge
    | TooManyOutputBlocks
    | OutOfOrderOutputPosition

  datatype Outcome = Declined(error: StepError) | Taken(state: StepState, events: seq<Event>)

  /** One event of the provider's stream, addressed by position. */
  datatype Input =
    | TextArrived(position: Position, role: Role, delta: string)
    | ReplayArrived(position: Position, replay: ProviderReplay)
    | CallArrived(position: Position, call: ToolCall)
    | ServerToolBegan(position: Position, tool: string)
    | ServerToolRan(position: Position, serverCall: ServerCall)
  {
    /** An empty replay payload cannot be built. */
    predicate WellTyped() {
      ReplayArrived? ==> replay.payload != ""
    }
  }

  function NewStep(agent: AgentId, step: StepId): StepState {
    StepState(agent, step, map[], map[], 0, 0, 0, None)
  }

  // ------------------------------------------------------------------ the operations

  predicate Vacant(s: StepState, p: Position) {
    p !in s.outputs || s.outputs[p].PendingReplay?
  }

  predicate NoRoom(s: StepState, p: Position) {
    p !in s.outputs && |s.outputs| >= U16_MAX
  }

  predicate BehindVisible(s: StepState, p: Position) {
    s.lastVisible.Some? && p.Less(s.lastVisible.value)
  }

  predicate ContainsCall(s: StepState, id: CallId) {
    exists p <- s.outputs :: s.outputs[p].PendingCall? && s.outputs[p].call.id == id
  }

  function StreamedAt(s: StepState, p: Position, role: Role): Pending {
    if !Vacant(s, p) then s.outputs[p]
    else
      var streamed := Streamed(role, StreamItem(s.step, role, p), false, 0, "");
      if role.Assistant? then PendingText(streamed) else PendingReasoning(streamed)
  }

  function Grown(t: Streamed, delta: string): Streamed {
    t.(shown := true, revision := SaturatingNext(t.revision), text := t.text + delta)
  }

  function GrowthEvents(t: Streamed, delta: string): seq<Event> {
    (if t.shown then [] else [ItemStarted(t.item, t.role)]) +
    [Delta(t.item, SaturatingNext(t.revision), delta)]
  }

  predicate RoleMatches(o: Pending, role: Role) {
    (role.Assistant? && o.PendingText?) || (role.Reasoning? && o.PendingReasoning?)
  }

  /** Whether text of this size may be appended at the position, and why not. */
  function TextVerdict(s: StepState, p: Position, role: Role, size: nat): Verdict<StepError> {
    if s.textBytes + size > MAX_TEXT_BYTES then Refused(TextTooLarge)
    else if NoRoom(s, p) then Refused(TooManyOutputBlocks)
    else if Vacant(s, p) && BehindVisible(s, p) then Refused(OutOfOrderOutputPosition)
    else if !RoleMatches(StreamedAt(s, p, role), role) then Refused(ConflictingPosition)
    else Accepted
  }

  function AppendText(s: StepState, p: Position, role: Role, delta: string): Outcome {
    var verdict := TextVerdict(s, p, role, |delta|);
    if verdict.Refused? then Declined(verdict.error)
    else
      var o := StreamedAt(s, p, role);
      Taken(
        s.(outputs := s.outputs[p := o.(streamed := Grown(o.streamed, delta))],
           textBytes := s.textBytes + |delta|,
           lastVisible := if Vacant(s, p) then Some(p) else s.lastVisible),
        GrowthEvents(o.streamed, delta))
  }

  predicate OtherRealm(s: StepState, replay: ProviderReplay) {
    exists p <- s.replay :: s.replay[p].realm != replay.realm
  }

  function OutputsWithReplay(s: StepState, p: Position): map<Position, Pending> {
    if p in s.outputs then s.outputs
    else s.outputs[p := PendingReplay(StreamItem(s.step, Reasoning, p))]
  }

  function ReplayVerdict(s: StepState, p: Position, replay: ProviderReplay): Verdict<StepError> {
    if NoRoom(s, p) then Refused(TooManyOutputBlocks)
    else if OtherRealm(s, replay) then Refused(MixedReplayCompatibility)
    else if p in s.replay then Refused(DuplicateReplayPosition)
    else if s.replayBytes + |replay.payload| > MAX_REPLAY_BYTES then Refused(ReplayTooLarge)
    else Accepted
  }

  function RetainReplay(s: StepState, p: Position, replay: ProviderReplay): Outcome {
    var verdict := ReplayVerdict(s, p, replay);
    if verdict.Refused? then Declined(verdict.error)
    else
      Taken(s.(outputs := OutputsWithReplay(s, p), replay := s.replay[p := replay],
               replayBytes := s.replayBytes + |replay.payload|), [])
  }

  function CallVerdict(s: StepState, p: Position, call: ToolCall): Verdict<StepError> {
    if ContainsCall(s, call.id) then Refused(DuplicateToolCallId)
    else if |call.id| > MAX_IDENTITY_BYTES || |call.name| > MAX_IDENTITY_BYTES
    then Refused(ToolIdentityTooLarge)
    else if s.argumentBytes + |call.arguments| > MAX_ARGUMENT_BYTES
    then Refused(ToolArgumentsTooLarge)
    else if NoRoom(s, p) then Refused(TooManyOutputBlocks)
    else if p in s.outputs then Refused(ConflictingPosition)
    else Accepted
  }

  function Collect(s: StepState, p: Position, call: ToolCall): Outcome {
    var verdict := CallVerdict(s, p, call);
    if verdict.Refused? then Declined(verdict.error)
    else
      Taken(s.(outputs := s.outputs[p := PendingCall(ToolItem(s.agent, call.id), call)],
               argumentBytes := s.argumentBytes + |call.arguments|), [])
  }

  function RowVerdict(s: StepState, p: Position): Verdict<StepError> {
    if NoRoom(s, p) then Refused(TooManyOutputBlocks)
    else if !Vacant(s, p) then Refused(ConflictingPosition)
    else Accepted
  }

  function NoteServerToolStarted(s: StepState, p: Position, tool: string): Outcome {
    var verdict := RowVerdict(s, p);
    if verdict.Refused? then Declined(verdict.error)
    else
      var item := StreamItem(s.step, Assistant, p);
      Taken(s.(outputs := s.outputs[p := PendingServerStarted(item, tool)]),
            [ServerToolStarted(item, tool)])
  }

  predicate Finishes(s: StepState, p: Position, call: ServerCall) {
    p in s.outputs && s.outputs[p].PendingServerStarted? && s.outputs[p].tool == call.tool
  }

  function ServerVerdict(s: StepState, p: Position, call: ServerCall): Verdict<StepError> {
    if |call.text| > MAX_REQUESTED_BYTES || s.argumentBytes + |call.text| > MAX_ARGUMENT_BYTES
    then Refused(ToolArgumentsTooLarge)
    else if NoRoom(s, p) then Refused(TooManyOutputBlocks)
    else if !Vacant(s, p) && !Finishes(s, p, call) then Refused(ConflictingPosition)
    else Accepted
  }

  function NoteServerTool(s: StepState, p: Position, call: ServerCall): Outcome {
    var verdict := ServerVerdict(s, p, call);
    if verdict.Refused? then Declined(verdict.error)
    else
      var item := StreamItem(s.step, Assistant, p);
      Taken(s.(outputs := s.outputs[p := PendingServerCall(item, call)],
               argumentBytes := s.argumentBytes + |call.text|),
            [ServerToolCalled(item, if Vacant(s, p) then 0 else 1, call)])
  }

  function Take(s: StepState, input: Input): Outcome {
    match input
    case TextArrived(p, role, delta) => AppendText(s, p, role, delta)
    case ReplayArrived(p, replay) => RetainReplay(s, p, replay)
    case CallArrived(p, call) => Collect(s, p, call)
    case ServerToolBegan(p, tool) => NoteServerToolStarted(s, p, tool)
    case ServerToolRan(p, call) => NoteServerTool(s, p, call)
  }

  // ------------------------------------------------------------------ the invariant

  function TextWeight(o: Pending): nat {
    if o.IsText() then |o.streamed.text| else 0
  }

  function ArgumentWeight(o: Pending): nat {
    match o
    case PendingCall(_, call) => |call.arguments|
    case PendingServerCall(_, call) => |call.text|
    case _ => 0
  }

  function TextWeights(outputs: map<Position, Pending>): map<Position, nat> {
    map p <- outputs :: TextWeight(outputs[p])
  }

  function ArgumentWeights(outputs: map<Position, Pending>): map<Position, nat> {
    map p <- outputs :: ArgumentWeight(outputs[p])
  }

  function ReplayWeights(replay: map<Position, ProviderReplay>): map<Position, nat> {
    map p <- replay :: |replay[p].payload|
  }

  ghost predicate StreamWellPlaced(step: StepId, p: Position, t: Streamed, role: Role) {
    && t.role == role && t.item == StreamItem(step, role, p)
    && t.shown && 1 <= t.revision
  }

  /** What is true of the output at `p` whatever else the step holds. */
  ghost predicate WellPlaced(agent: AgentId, step: StepId, p: Position, o: Pending) {
    match o
    case PendingReplay(item) => item == StreamItem(step, Reasoning, p)
    case PendingText(t) => StreamWellPlaced(step, p, t, Assistant)
    case PendingReasoning(t) => StreamWellPlaced(step, p, t, Reasoning)
    case PendingCall(item, call) =>
      item == ToolItem(agent, call.id)
      && |call.id| <= MAX_IDENTITY_BYTES && |call.name| <= MAX_IDENTITY_BYTES
    case PendingServerCall(item, call) =>
      item == StreamItem(step, Assistant, p) && |call.text| <= MAX_REQUESTED_BYTES
    case PendingServerStarted(item, _) => item == StreamItem(step, Assistant, p)
  }

  ghost predicate AllWellPlaced(agent: AgentId, step: StepId, outputs: map<Position, Pending>) {
    forall p <- outputs :: WellPlaced(agent, step, p, outputs[p])
  }

  ghost predicate CallsDistinct(outputs: map<Position, Pending>) {
    forall p <- outputs, q <- outputs ::
      (outputs[p].PendingCall? && outputs[q].PendingCall? && outputs[p].call.id == outputs[q].call.id
       ==> p == q)
  }

  ghost predicate ReplayAnchored(
    outputs: map<Position, Pending>, replay: map<Position, ProviderReplay>)
  {
    && (forall p <- replay :: p in outputs && replay[p].payload != "")
    && (forall p <- outputs :: outputs[p].PendingReplay? ==> p in replay)
    && (forall p <- replay, q <- replay :: replay[p].realm == replay[q].realm)
  }

  ghost predicate CountersExact(s: StepState) {
    && s.textBytes == Sum(TextWeights(s.outputs)) <= MAX_TEXT_BYTES
    && s.argumentBytes == Sum(ArgumentWeights(s.outputs)) <= MAX_ARGUMENT_BYTES
    && s.replayBytes == Sum(ReplayWeights(s.replay)) <= MAX_REPLAY_BYTES
  }

  ghost predicate VisibleIsLast(s: StepState) {
    && (s.lastVisible.Some? ==>
          s.lastVisible.value in s.outputs && s.outputs[s.lastVisible.value].IsText())
    && (forall p <- s.outputs :: s.outputs[p].IsText() ==>
          s.lastVisible.Some? && (p == s.lastVisible.value || p.Less(s.lastVisible.value)))
  }

  ghost predicate StepInv(s: StepState) {
    && |s.outputs| <= U16_MAX
    && AllWellPlaced(s.agent, s.step, s.outputs)
    && CallsDistinct(s.outputs)
    && ReplayAnchored(s.outputs, s.replay)
    && CountersExact(s)
    && VisibleIsLast(s)
  }

  lemma NewStepKeeps(agent: AgentId, step: StepId)
    ensures StepInv(NewStep(agent, step))
  {
    assert TextWeights(map[]) == map[] && ArgumentWeights(map[]) == map[];
    assert ReplayWeights(map[]) == map[];
  }

  // ------------------------------------------------------------------ every operation keeps it

  lemma OutputCountersMove(outputs: map<Position, Pending>, p: Position, o: Pending)
    ensures Sum(TextWeights(outputs[p := o])) ==
      Sum(TextWeights(outputs)) - (if p in outputs then TextWeight(outputs[p]) else 0) + TextWeight(o)
    ensures Sum(ArgumentWeights(outputs[p := o])) ==
      Sum(ArgumentWeights(outputs))
      - (if p in outputs then ArgumentWeight(outputs[p]) else 0) + ArgumentWeight(o)
  {
    assert TextWeights(outputs[p := o]) == TextWeights(outputs)[p := TextWeight(o)];
    assert ArgumentWeights(outputs[p := o]) == ArgumentWeights(outputs)[p := ArgumentWeight(o)];
    SumSet(TextWeights(outputs), p, TextWeight(o));
    SumSet(ArgumentWeights(outputs), p, ArgumentWeight(o));
  }

  lemma ReplayCounterMoves(replay: map<Position, ProviderReplay>, p: Position, r: ProviderReplay)
    requires p !in replay
    ensures Sum(ReplayWeights(replay[p := r])) == Sum(ReplayWeights(replay)) + |r.payload|
  {
    assert ReplayWeights(replay[p := r]) == ReplayWeights(replay)[p := |r.payload|];
    SumSet(ReplayWeights(replay), p, |r.payload|);
  }

  /** Placing one well-formed semantic output, over nothing or over what it may take over. */
  lemma PutKeepsContents(s: StepState, p: Position, o: Pending)
    requires StepInv(s) && !NoRoom(s, p)
    requires WellPlaced(s.agent, s.step, p, o) && !o.PendingReplay?
    requires o.PendingCall? ==> !ContainsCall(s, o.call.id)
    ensures var outputs := s.outputs[p := o];
            && |outputs| <= U16_MAX
            && AllWellPlaced(s.agent, s.step, outputs)
            && CallsDistinct(outputs)
            && ReplayAnchored(outputs, s.replay)
  {
    hide Sum, TextWeights, ArgumentWeights, ReplayWeights, VisibleIsLast, CountersExact;
  }

  lemma AppendTextKeeps(s: StepState, p: Position, role: Role, delta: string)
    requires StepInv(s) && AppendText(s, p, role, delta).Taken?
    ensures StepInv(AppendText(s, p, role, delta).state)
  {
    hide Sum, TextWeights, ArgumentWeights, ReplayWeights, CallsDistinct, ReplayAnchored;
    var o := StreamedAt(s, p, role);
    var grown := o.(streamed := Grown(o.streamed, delta));
    PutKeepsContents(s, p, grown);
    OutputCountersMove(s.outputs, p, grown);
    if s.lastVisible.Some? { Trichotomy(p, s.lastVisible.value); }
  }

  lemma RetainReplayAnchors(s: StepState, p: Position, replay: ProviderReplay)
    requires StepInv(s) && replay.payload != "" && RetainReplay(s, p, replay).Taken?
    ensures var s' := RetainReplay(s, p, replay).state;
            ReplayAnchored(s'.outputs, s'.replay)
  {
    hide Sum, TextWeights, ArgumentWeights, ReplayWeights, WellPlaced, CallsDistinct, VisibleIsLast;
  }

  lemma RetainReplayPlaces(s: StepState, p: Position, replay: ProviderReplay)
    requires StepInv(s) && RetainReplay(s, p, replay).Taken?
    ensures var s' := RetainReplay(s, p, replay).state;
            && |s'.outputs| <= U16_MAX
            && AllWellPlaced(s'.agent, s'.step, s'.outputs)
            && CallsDistinct(s'.outputs)
            && VisibleIsLast(s')
  {
    hide Sum, TextWeights, ArgumentWeights, ReplayWeights, ReplayAnchored;
  }

  lemma ReplayPlaceWeighsNothing(s: StepState, p: Position)
    ensures Sum(TextWeights(OutputsWithReplay(s, p))) == Sum(TextWeights(s.outputs))
    ensures Sum(ArgumentWeights(OutputsWithReplay(s, p))) == Sum(ArgumentWeights(s.outputs))
  {
    if p !in s.outputs {
      OutputCountersMove(s.outputs, p, PendingReplay(StreamItem(s.step, Reasoning, p)));
    }
  }

  lemma RetainReplayCounts(s: StepState, p: Position, replay: ProviderReplay)
    requires CountersExact(s) && RetainReplay(s, p, replay).Taken?
    ensures CountersExact(RetainReplay(s, p, replay).state)
  {
    hide Sum, TextWeights, ArgumentWeights, ReplayWeights, OtherRealm, OutputsWithReplay;
    ReplayCounterMoves(s.replay, p, replay);
    ReplayPlaceWeighsNothing(s, p);
  }

  lemma RetainReplayKeeps(s: StepState, p: Position, replay: ProviderReplay)
    requires StepInv(s) && replay.payload != "" && RetainReplay(s, p, replay).Taken?
    ensures StepInv(RetainReplay(s, p, replay).state)
  {
    RetainReplayAnchors(s, p, replay);
    RetainReplayPlaces(s, p, replay);
    RetainReplayCounts(s, p, replay);
    hide RetainReplay, CountersExact, AllWellPlaced, CallsDistinct, ReplayAnchored, VisibleIsLast;
  }

  lemma CollectKeeps(s: StepState, p: Position, call: ToolCall)
    requires StepInv(s) && Collect(s, p, call).Taken?
    ensures StepInv(Collect(s, p, call).state)
  {
    hide Sum, TextWeights, ArgumentWeights, ReplayWeights, CallsDistinct, ReplayAnchored;
    PutKeepsContents(s, p, PendingCall(ToolItem(s.agent, call.id), call));
    OutputCountersMove(s.outputs, p, PendingCall(ToolItem(s.agent, call.id), call));
  }

  lemma NoteServerToolStartedKeeps(s: StepState, p: Position, tool: string)
    requires StepInv(s) && NoteServerToolStarted(s, p, tool).Taken?
    ensures StepInv(NoteServerToolStarted(s, p, tool).state)
  {
    hide Sum, TextWeights, ArgumentWeights, ReplayWeights, CallsDistinct, ReplayAnchored;
    PutKeepsContents(s, p, PendingServerStarted(StreamItem(s.step, Assistant, p), tool));
    OutputCountersMove(s.outputs, p, PendingServerStarted(StreamItem(s.step, Assistant, p), tool));
  }

  lemma NoteServerToolKeeps(s: StepState, p: Position, call: ServerCall)
    requires StepInv(s) && NoteServerTool(s, p, call).Taken?
    ensures StepInv(NoteServerTool(s, p, call).state)
  {
    hide Sum, TextWeights, ArgumentWeights, ReplayWeights, CallsDistinct, ReplayAnchored;
    PutKeepsContents(s, p, PendingServerCall(StreamItem(s.step, Assistant, p), call));
    OutputCountersMove(s.outputs, p, PendingServerCall(StreamItem(s.step, Assistant, p), call));
  }

  /**
   * Every accepted input keeps the counters equal to the sums over what is retained and under their
   * limits, the call identities distinct, and every retained replay at an occupied position.
   */
  lemma TakeKeepsStep(s: StepState, input: Input)
    requires StepInv(s) && input.WellTyped() && Take(s, input).Taken?
    ensures StepInv(Take(s, input).state)
  {
    hide StepInv, AppendText, RetainReplay, Collect, NoteServerToolStarted, NoteServerTool;
    match input
    case TextArrived(p, role, delta) => AppendTextKeeps(s, p, role, delta);
    case ReplayArrived(p, replay) => RetainReplayKeeps(s, p, replay);
    case CallArrived(p, call) => CollectKeeps(s, p, call);
    case ServerToolBegan(p, tool) => NoteServerToolStartedKeeps(s, p, tool);
    case ServerToolRan(p, call) => NoteServerToolKeeps(s, p, call);
  }
}
