/** When a step takes an arrival: decided by what it retains, one obstacle after another. */
module StepArrivals {
  import opened Options
  import opened ModelOutput
  import opened Positions
  import opened Refusals
  import opened StepAssembly

  /** The position holds nothing anyone can see: at most a replay that arrived first. */
  ghost predicate Unseen(s: StepState, p: Position) {
    p in s.outputs ==> s.outputs[p].PendingReplay?
  }

  /** A new position would not fit the 16 bits a block index has. */
  ghost predicate Crowded(s: StepState, p: Position) {
    p !in s.outputs && |s.outputs| == U16_MAX
  }

  ghost predicate TextBeyond(s: StepState, p: Position) {
    exists q <- s.outputs :: s.outputs[q].IsText() && p.Less(q)
  }

  ghost predicate HoldsTextOf(s: StepState, p: Position, role: Role) {
    && p in s.outputs
    && match role
       case Assistant => s.outputs[p].PendingText?
       case Reasoning => s.outputs[p].PendingReasoning?
  }

  ghost predicate HoldsRowOf(s: StepState, p: Position, tool: string) {
    exists item :: p in s.outputs && s.outputs[p] == PendingServerStarted(item, tool)
  }

  ghost predicate CallKnown(s: StepState, id: CallId) {
    exists p <- s.outputs :: s.outputs[p].PendingCall? && s.outputs[p].call.id == id
  }

  /** What can stand against an arrival, in the order it is looked at. */
  ghost function Obstacles(s: StepState, input: Input): seq<Obstacle<StepError>> {
    match input
    case TextArrived(p, role, delta) =>
      [Obstacle(TextTooLarge, Sum(TextWeights(s.outputs)) + |delta| > MAX_TEXT_BYTES),
       Obstacle(TooManyOutputBlocks, Crowded(s, p)),
       Obstacle(OutOfOrderOutputPosition, Unseen(s, p) && TextBeyond(s, p)),
       Obstacle(ConflictingPosition, !Unseen(s, p) && !HoldsTextOf(s, p, role))]
    case ReplayArrived(p, replay) =>
      [Obstacle(TooManyOutputBlocks, Crowded(s, p)),
       Obstacle(MixedReplayCompatibility, exists q <- s.replay :: s.replay[q].realm != replay.realm),
       Obstacle(DuplicateReplayPosition, p in s.replay),
       Obstacle(ReplayTooLarge, Sum(ReplayWeights(s.replay)) + |replay.payload| > MAX_REPLAY_BYTES)]
    case CallArrived(p, call) =>
      [Obstacle(DuplicateToolCallId, CallKnown(s, call.id)),
       Obstacle(ToolIdentityTooLarge, |call.id| > MAX_IDENTITY_BYTES || |call.name| > MAX_IDENTITY_BYTES),
       Obstacle(ToolArgumentsTooLarge,
                Sum(ArgumentWeights(s.outputs)) + |call.arguments| > MAX_ARGUMENT_BYTES),
       Obstacle(TooManyOutputBlocks, Crowded(s, p)),
       Obstacle(ConflictingPosition, p in s.outputs)]
    case ServerToolBegan(p, tool) =>
      [Obstacle(TooManyOutputBlocks, Crowded(s, p)),
       Obstacle(ConflictingPosition, !Unseen(s, p))]
    case ServerToolRan(p, call) =>
      [Obstacle(ToolArgumentsTooLarge,
                |call.text| > MAX_REQUESTED_BYTES
                || Sum(ArgumentWeights(s.outputs)) + |call.text| > MAX_ARGUMENT_BYTES),
       Obstacle(TooManyOutputBlocks, Crowded(s, p)),
       Obstacle(ConflictingPosition, !Unseen(s, p) && !HoldsRowOf(s, p, call.tool))]
  }

  ghost function Answer(outcome: Outcome): Verdict<StepError> {
    if outcome.Taken? then Accepted else Refused(outcome.error)
  }

  /** Some visible text lies beyond a position exactly when the last visible one does. */
  lemma BeyondIsBehind(s: StepState, p: Position)
    requires VisibleIsLast(s)
    ensures TextBeyond(s, p) <==> BehindVisible(s, p)
  {
    if BehindVisible(s, p) {
      var q := s.lastVisible.value;
      assert s.outputs[q].IsText();
    }
  }

  lemma TextDecided(s: StepState, input: Input)
    requires StepInv(s) && input.TextArrived?
    ensures Decided(Obstacles(s, input), Answer(Take(s, input)))
  {
    BeyondIsBehind(s, input.position);
    hide Sum, TextWeights, ArgumentWeights, ReplayWeights, AllWellPlaced, CallsDistinct;
    hide ReplayAnchored, VisibleIsLast, TextBeyond, BehindVisible, Decided;
    Listed(Obstacles(s, input), Answer(Take(s, input)));
  }

  lemma ReplayDecided(s: StepState, input: Input)
    requires StepInv(s) && input.ReplayArrived?
    ensures Decided(Obstacles(s, input), Answer(Take(s, input)))
  {
    hide Sum, TextWeights, ArgumentWeights, ReplayWeights, AllWellPlaced, CallsDistinct;
    hide ReplayAnchored, VisibleIsLast, TextBeyond, BehindVisible, Decided;
    Listed(Obstacles(s, input), Answer(Take(s, input)));
  }

  lemma CallDecided(s: StepState, input: Input)
    requires StepInv(s) && input.CallArrived?
    ensures Decided(Obstacles(s, input), Answer(Take(s, input)))
  {
    hide Sum, TextWeights, ArgumentWeights, ReplayWeights, AllWellPlaced, CallsDistinct;
    hide ReplayAnchored, VisibleIsLast, TextBeyond, BehindVisible, Decided;
    Listed(Obstacles(s, input), Answer(Take(s, input)));
  }

  lemma RowDecided(s: StepState, input: Input)
    requires StepInv(s) && input.ServerToolBegan?
    ensures Decided(Obstacles(s, input), Answer(Take(s, input)))
  {
    hide Sum, TextWeights, ArgumentWeights, ReplayWeights, AllWellPlaced, CallsDistinct;
    hide ReplayAnchored, VisibleIsLast, TextBeyond, BehindVisible, Decided;
    Listed(Obstacles(s, input), Answer(Take(s, input)));
  }

  lemma ServerCallDecided(s: StepState, input: Input)
    requires StepInv(s) && input.ServerToolRan?
    ensures Decided(Obstacles(s, input), Answer(Take(s, input)))
  {
    hide Sum, TextWeights, ArgumentWeights, ReplayWeights, AllWellPlaced, CallsDistinct;
    hide ReplayAnchored, VisibleIsLast, TextBeyond, BehindVisible, Decided;
    Listed(Obstacles(s, input), Answer(Take(s, input)));
  }

  /** Every arrival is answered by the first thing that stands against it, and taken if nothing does. */
  lemma ArrivalDecided(s: StepState, input: Input)
    requires StepInv(s)
    ensures Decided(Obstacles(s, input), Answer(Take(s, input)))
  {
    hide *;
    match input
    case TextArrived(_, _, _) => TextDecided(s, input);
    case ReplayArrived(_, _) => ReplayDecided(s, input);
    case CallArrived(_, _) => CallDecided(s, input);
    case ServerToolBegan(_, _) => RowDecided(s, input);
    case ServerToolRan(_, _) => ServerCallDecided(s, input);
  }

  /** Text is taken when it opens beyond every visible text or extends its own, within the limits. */
  lemma TextTakenIff(s: StepState, p: Position, role: Role, delta: string)
    requires StepInv(s)
    ensures Take(s, TextArrived(p, role, delta)).Taken? <==>
              && Sum(TextWeights(s.outputs)) + |delta| <= MAX_TEXT_BYTES
              && (p in s.outputs || |s.outputs| < U16_MAX)
              && (|| HoldsTextOf(s, p, role)
                  || (Unseen(s, p) && forall q <- s.outputs :: s.outputs[q].IsText() ==> q.Less(p)))
  {
    BeyondIsBehind(s, p);
    forall q ensures p.Less(q) || p == q || q.Less(p) { Trichotomy(p, q); }
    hide Sum, TextWeights, ArgumentWeights, ReplayWeights, AllWellPlaced, CallsDistinct;
    hide ReplayAnchored, VisibleIsLast;
  }
}
