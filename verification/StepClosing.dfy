/** Closing a step: the ordered output it commits, and exactly when that output cannot be built. */
module StepClosing {
  import opened Options
  import opened ModelOutput
  import opened LiveEvents
  import opened Positions
  import opened StepAssembly

  // ------------------------------------------------------------------ what one output may be

  function BlockText(b: Block): nat {
    match b
    case Text(_, text) => |text|
    case ReasoningText(_, text) => |text|
    case _ => 0
  }

  function TextBytes(blocks: seq<Block>): nat {
    if blocks == [] then 0
    else TextBytes(blocks[..|blocks| - 1]) + BlockText(blocks[|blocks| - 1])
  }

  function BlockArguments(b: Block): nat {
    match b
    case Call(_, call) => |call.arguments|
    case ServerToolCall(_, call) => |call.text|
    case _ => 0
  }

  function ArgumentBytes(blocks: seq<Block>): nat {
    if blocks == [] then 0
    else ArgumentBytes(blocks[..|blocks| - 1]) + BlockArguments(blocks[|blocks| - 1])
  }

  /** What the constructor of an output checks of one block on its own. */
  predicate BlockAllowed(b: Block) {
    match b
    case Text(_, text) => text != ""
    case Call(_, call) =>
      |call.id| <= MAX_IDENTITY_BYTES && |call.name| <= MAX_IDENTITY_BYTES
      && |call.arguments| <= MAX_REQUESTED_BYTES
    case ServerToolCall(_, call) => |call.text| <= MAX_REQUESTED_BYTES
    case _ => true
  }

  /** The checks of one block against everything before it, in the order they are made. */
  predicate NextAllowed(before: seq<Block>, b: Block) {
    && (forall i :: 0 <= i < |before| ==> before[i].item != b.item)
    && BlockAllowed(b)
    && (b.Text? || b.ReasoningText? ==> TextBytes(before) + BlockText(b) <= MAX_TEXT_BYTES)
    && (b.Call? ==> forall i :: 0 <= i < |before| && before[i].Call? ==> before[i].call.id != b.call.id)
    && (b.Call? || b.ServerToolCall? ==>
          ArgumentBytes(before) + BlockArguments(b) <= MAX_ARGUMENT_BYTES)
  }

  predicate BlocksAllowed(blocks: seq<Block>) {
    blocks == []
    || (BlocksAllowed(blocks[..|blocks| - 1])
        && NextAllowed(blocks[..|blocks| - 1], blocks[|blocks| - 1]))
  }

  function ReplayBytes(attachments: seq<Attachment>): nat {
    if attachments == [] then 0
    else ReplayBytes(attachments[..|attachments| - 1]) + |attachments[|attachments| - 1].payload|
  }

  predicate ReplayAllowed(replay: AssistantReplay) {
    && replay.attachments != []
    && (forall i :: 0 <= i < |replay.attachments| ==> replay.attachments[i].payload != "")
    && (forall i :: 0 < i < |replay.attachments| ==>
          replay.attachments[i - 1].block < replay.attachments[i].block)
    && ReplayBytes(replay.attachments) <= MAX_REPLAY_BYTES
  }

  predicate Anchored(replay: Option<AssistantReplay>, index: nat) {
    && replay.Some?
    && exists k :: 0 <= k < |replay.value.attachments| && replay.value.attachments[k].block == index
  }

  /** Every attachment names a block, and the attachments are in order and within their limit. */
  predicate ReplayFits(output: Output) {
    output.replay.Some? ==>
      && ReplayAllowed(output.replay.value)
      && forall k :: 0 <= k < |output.replay.value.attachments| ==>
           output.replay.value.attachments[k].block < |output.blocks|
  }

  /** A block with nothing to show has something to replay. */
  predicate ReplayCovers(output: Output) {
    forall i :: 0 <= i < |output.blocks| ==>
      var b := output.blocks[i];
      (b.ReplayOnly? || (b.ReasoningText? && b.text == "") ==> Anchored(output.replay, i))
  }

  /** An output is built from these parts, or not at all. */
  predicate OutputAllowed(output: Output) {
    && 0 < |output.blocks| <= U16_MAX
    && BlocksAllowed(output.blocks)
    && ReplayFits(output)
    && ReplayCovers(output)
  }

  // ------------------------------------------------------------------ closing

  /** A position leaves a block unless its text never opened or its provider-run tool never ended. */
  predicate Survives(o: Pending) {
    !o.PendingServerStarted? && (o.IsText() ==> o.streamed.shown)
  }

  function BlockOf(o: Pending): Block
    requires Survives(o)
  {
    match o
    case PendingReplay(item) => ReplayOnly(item)
    case PendingText(t) => Text(t.item, t.text)
    case PendingReasoning(t) => ReasoningText(t.item, t.text)
    case PendingCall(item, call) => Call(item, call)
    case PendingServerCall(item, call) => ServerToolCall(item, call)
  }

  ghost predicate Keeps(kept: seq<Position>, outputs: map<Position, Pending>) {
    forall i :: 0 <= i < |kept| ==> kept[i] in outputs && Survives(outputs[kept[i]])
  }

  function Kept(ps: seq<Position>, outputs: map<Position, Pending>): (kept: seq<Position>)
    requires forall p <- ps :: p in outputs
    ensures forall p :: p in kept <==> p in ps && Survives(outputs[p])
    ensures Keeps(kept, outputs)
    ensures |kept| <= |ps|
  {
    if ps == [] then []
    else
      var rest := Kept(ps[..|ps| - 1], outputs);
      var p := ps[|ps| - 1];
      assert ps == ps[..|ps| - 1] + [p];
      if Survives(outputs[p]) then rest + [p] else rest
  }

  function Blocks(kept: seq<Position>, outputs: map<Position, Pending>): (blocks: seq<Block>)
    requires Keeps(kept, outputs)
    ensures |blocks| == |kept|
    ensures forall i :: 0 <= i < |kept| ==> blocks[i] == BlockOf(outputs[kept[i]])
  {
    seq(|kept|, i requires 0 <= i < |kept| => BlockOf(outputs[kept[i]]))
  }

  /** A provider-run tool still running when the step ends is shown as failed. */
  function FailedRow(o: Pending): Event
    requires o.PendingServerStarted?
  {
    ServerToolCalled(o.item, 1, ServerCall(o.tool, "", ToolFailed))
  }

  function FailedRows(ps: seq<Position>, outputs: map<Position, Pending>): seq<Event>
    requires forall p <- ps :: p in outputs
  {
    if ps == [] then []
    else
      var o := outputs[ps[|ps| - 1]];
      FailedRows(ps[..|ps| - 1], outputs) + (if o.PendingServerStarted? then [FailedRow(o)] else [])
  }

  function Finals(kept: seq<Position>, outputs: map<Position, Pending>): seq<Event>
    requires Keeps(kept, outputs)
  {
    if kept == [] then []
    else
      var o := outputs[kept[|kept| - 1]];
      Finals(kept[..|kept| - 1], outputs) +
      (if o.IsText() then [Finalized(o.streamed.item, SaturatingNext(o.streamed.revision))] else [])
  }

  function IndexOf(kept: seq<Position>, p: Position): (index: nat)
    requires p in kept
    ensures index < |kept| && kept[index] == p
  {
    if kept[0] == p then 0 else 1 + IndexOf(kept[1..], p)
  }

  /** Every retained replay, anchored at the block made from its own position. */
  function Anchors(
    rs: seq<Position>, kept: seq<Position>, replay: map<Position, ProviderReplay>)
    : (attachments: seq<Attachment>)
    requires forall p <- rs :: p in replay && p in kept
    ensures |attachments| == |rs|
    ensures forall i :: 0 <= i < |rs| ==>
              attachments[i] == Attachment(IndexOf(kept, rs[i]), replay[rs[i]].payload)
  {
    seq(|rs|, i requires 0 <= i < |rs| => Attachment(IndexOf(kept, rs[i]), replay[rs[i]].payload))
  }

  datatype Closing =
    | Nothing(rows: seq<Event>)
    | Panicked(rows: seq<Event>)
    | Committed(output: Output, rows: seq<Event>, finals: seq<Event>)

  function Attached(s: StepState, kept: seq<Position>): Option<AssistantReplay>
    requires forall p <- s.replay :: p in kept
  {
    var rs := Sorted(s.replay.Keys);
    if rs == [] then None
    else Some(AssistantReplay(s.replay[rs[0]].realm, Anchors(rs, kept, s.replay)))
  }

  predicate OneRealm(replay: map<Position, ProviderReplay>) {
    forall p <- replay, q <- replay :: replay[p].realm == replay[q].realm
  }

  /** The output committed for the kept positions, or the panic of a step the source calls unreachable. */
  function CloseKept(s: StepState, kept: seq<Position>, rows: seq<Event>): Closing
    requires Keeps(kept, s.outputs)
  {
    if (exists p <- s.replay :: p !in kept) || !OneRealm(s.replay) then Panicked(rows)
    else
      var output := Output(Blocks(kept, s.outputs), Attached(s, kept));
      if !OutputAllowed(output) then Panicked(rows)
      else Committed(output, rows, Finals(kept, s.outputs))
  }

  function Close(s: StepState): Closing {
    var ps := Sorted(s.outputs.Keys);
    var kept := Kept(ps, s.outputs);
    var rows := FailedRows(ps, s.outputs);
    if kept == [] then Nothing(rows) else CloseKept(s, kept, rows)
  }

  /** Aborting drops the calls nobody will run, and the replay of every dropped position. */
  function Aborted(s: StepState): StepState {
    var outputs := map p | p in s.outputs && !s.outputs[p].PendingCall? :: s.outputs[p];
    s.(outputs := outputs, replay := map p | p in s.replay && p in outputs :: s.replay[p])
  }

  // ------------------------------------------------------------------ when it can be built

  /** What closing needs of a step; aborting keeps it. */
  ghost predicate Closable(s: StepState) {
    && |s.outputs| <= U16_MAX
    && AllWellPlaced(s.agent, s.step, s.outputs)
    && CallsDistinct(s.outputs)
    && ReplayAnchored(s.outputs, s.replay)
    && Sum(TextWeights(s.outputs)) <= MAX_TEXT_BYTES
    && Sum(ArgumentWeights(s.outputs)) <= MAX_ARGUMENT_BYTES
    && Sum(ReplayWeights(s.replay)) <= MAX_REPLAY_BYTES
  }

  predicate AnyBlock(s: StepState) {
    exists p <- s.outputs :: !s.outputs[p].PendingServerStarted?
  }

  predicate UnfinishedHoldsReplay(s: StepState) {
    exists p <- s.replay :: p in s.outputs && s.outputs[p].PendingServerStarted?
  }

  predicate Oversized(o: Pending) {
    o.PendingCall? && |o.call.arguments| > MAX_REQUESTED_BYTES
  }

  predicate OversizedCall(s: StepState) {
    exists p <- s.outputs :: Oversized(s.outputs[p])
  }

  /** A text that only empty deltas made. */
  predicate Empty(o: Pending) {
    o.IsText() && o.streamed.text == ""
  }

  /** An empty answer, or empty reasoning without a replay to stand for it. */
  predicate HollowText(s: StepState) {
    exists p <- s.outputs :: Empty(s.outputs[p]) && (s.outputs[p].PendingText? || p !in s.replay)
  }
}
