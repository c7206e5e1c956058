/** What was shown while a step streamed is what its committed output keeps; aborting a step. */
module StepDurable {
  import opened Options
  import opened ModelOutput
  import opened LiveEvents
  import opened Positions
  import opened StepAssembly
  import opened StepClosing
  import opened StepTrace
  import opened StepOutput

  // ------------------------------------------------------------------ order and anchors

  /** One block per position whose tool, if it had one, ended: in ascending order of position. */
  ghost predicate InOrder(s: StepState, blocks: seq<Block>) {
    var kept := KeptOf(s);
    && Ascends(kept)
    && (forall p :: p in kept <==> p in s.outputs && !s.outputs[p].PendingServerStarted?)
    && blocks == Blocks(kept, s.outputs)
  }

  lemma CommittedKeeps(s: StepState)
    requires Close(s).Committed?
    ensures forall p <- s.replay :: p in KeptOf(s)
    ensures Close(s).output.replay == Attached(s, KeptOf(s))
    ensures Close(s).output.blocks == Blocks(KeptOf(s), s.outputs)
    ensures Close(s).rows == FailedRows(Sorted(s.outputs.Keys), s.outputs)
    ensures Close(s).finals == Finals(KeptOf(s), s.outputs)
  {
    hide OutputAllowed, Attached, Blocks, FailedRows, Finals, Sorted, OneRealm;
  }

  lemma CommittedFits(s: StepState)
    requires Close(s).Committed?
    ensures OutputAllowed(Close(s).output)
    ensures 0 < |Close(s).output.blocks| <= U16_MAX
  {
    hide BlocksAllowed, ReplayFits, ReplayCovers, Attached, Blocks, FailedRows, Finals, Sorted;
  }

  /** A committed output is in order, and every block's index fits the 16 bits it is stored in. */
  lemma CommittedInOrder(s: StepState)
    requires Closable(s) && Close(s).Committed?
    ensures InOrder(s, Close(s).output.blocks)
    ensures 0 < |Close(s).output.blocks| <= U16_MAX
  {
    hide Close, Blocks, KeptOf, Survives, OutputAllowed, AllWellPlaced, CallsDistinct;
    hide ReplayAnchored, Sum, Keeps;
    KeptFacts(s);
    CommittedKeeps(s);
    CommittedFits(s);
  }

  /** Every retained replay is attached to the block of its own position, in rising block order. */
  lemma CommittedReplay(s: StepState)
    requires Closable(s) && Close(s).Committed?
    ensures var kept := KeptOf(s);
            var replay := Close(s).output.replay;
            && (replay.Some? <==> s.replay != map[])
            && (forall i :: 0 <= i < |kept| && kept[i] in s.replay ==>
                  replay.Some?
                  && Attachment(i, s.replay[kept[i]].payload) in replay.value.attachments)
            && (replay.Some? ==> ReplayAllowed(replay.value)
                                 && |replay.value.attachments| == |s.replay|)
  {
    var kept := KeptOf(s);
    KeptFacts(s);
    BlocksSurvive(s);
    assert forall p <- s.replay :: p in kept by { CommittedKeeps(s); }
    assert Close(s).output.replay == Attached(s, kept) by { CommittedKeeps(s); }
    AttachedAllowed(s, kept);
    forall i | 0 <= i < |kept| && kept[i] in s.replay
      ensures Attached(s, kept).Some?
              && Attachment(i, s.replay[kept[i]].payload) in Attached(s, kept).value.attachments
    {
      AnchoredAtOwn(s, kept, i);
    }
    assert |s.replay.Keys| == |s.replay|;
    hide Close, Closable, ReplayAllowed, KeptOf, AllWellPlaced, ReplayAnchored;
  }

  // ------------------------------------------------------------------ aborting

  lemma {:induction false} SumOfPart(part: map<Position, nat>, whole: map<Position, nat>)
    requires forall p <- part :: p in whole && part[p] == whole[p]
    ensures Sum(part) <= Sum(whole)
    decreases |whole|
  {
    if part != map[] {
      var p :| p in part;
      SumOfPart(part - {p}, whole - {p});
      SumRemove(part, p);
      SumRemove(whole, p);
    }
  }

  lemma {:induction false} KeysShrink(part: set<Position>, whole: set<Position>)
    requires part <= whole
    ensures |part| <= |whole|
  {
    if part != {} {
      var p :| p in part;
      KeysShrink(part - {p}, whole - {p});
    }
  }

  lemma AbortedFits(s: StepState)
    requires StepInv(s)
    ensures var s' := Aborted(s);
            && |s'.outputs| <= U16_MAX
            && Sum(TextWeights(s'.outputs)) <= MAX_TEXT_BYTES
            && Sum(ArgumentWeights(s'.outputs)) <= MAX_ARGUMENT_BYTES
            && Sum(ReplayWeights(s'.replay)) <= MAX_REPLAY_BYTES
  {
    var s' := Aborted(s);
    SumOfPart(TextWeights(s'.outputs), TextWeights(s.outputs));
    SumOfPart(ArgumentWeights(s'.outputs), ArgumentWeights(s.outputs));
    SumOfPart(ReplayWeights(s'.replay), ReplayWeights(s.replay));
    KeysShrink(s'.outputs.Keys, s.outputs.Keys);
    assert |s'.outputs.Keys| == |s'.outputs| && |s.outputs.Keys| == |s.outputs|;
  }

  lemma AbortedShape(s: StepState)
    requires StepInv(s)
    ensures var s' := Aborted(s);
            && AllWellPlaced(s'.agent, s'.step, s'.outputs)
            && CallsDistinct(s'.outputs)
            && ReplayAnchored(s'.outputs, s'.replay)
  {
    hide Sum, WellPlaced;
  }

  lemma AbortedClosable(s: StepState)
    requires StepInv(s)
    ensures Closable(Aborted(s))
  {
    AbortedFits(s);
    AbortedShape(s);
    hide Sum, AllWellPlaced, CallsDistinct, ReplayAnchored, Aborted;
  }

  predicate Sheds(o: Pending) {
    o.PendingServerStarted? || o.PendingCall?
  }

  /** A block survives the abort, and a tool that never ended holds a replay or a text is hollow. */
  predicate AbortPanics(s: StepState) {
    && (UnfinishedHoldsReplay(s) || HollowText(s))
    && exists p <- s.outputs :: !Sheds(s.outputs[p])
  }

  lemma AbortedUnfinished(s: StepState)
    requires StepInv(s)
    ensures UnfinishedHoldsReplay(Aborted(s)) <==> UnfinishedHoldsReplay(s)
    ensures HollowText(Aborted(s)) <==> HollowText(s)
    ensures !OversizedCall(Aborted(s))
    ensures AnyBlock(Aborted(s)) <==> exists p <- s.outputs :: !Sheds(s.outputs[p])
  {
    var s' := Aborted(s);
    hide StepInv;
    if UnfinishedHoldsReplay(s) {
      var p :| p in s.replay && p in s.outputs && s.outputs[p].PendingServerStarted?;
      assert p in s'.replay && p in s'.outputs;
    }
    if HollowText(s) {
      var p :| p in s.outputs && Empty(s.outputs[p]) && (s.outputs[p].PendingText? || p !in s.replay);
      assert p in s'.outputs && s'.outputs[p] == s.outputs[p];
    }
    if HollowText(s') {
      var p :| p in s'.outputs && Empty(s'.outputs[p]) && (s'.outputs[p].PendingText? || p !in s'.replay);
      assert p in s.outputs && s.outputs[p] == s'.outputs[p];
    }
    if p :| p in s.outputs && !Sheds(s.outputs[p]) {
      assert p in s'.outputs;
    }
  }

  /** Aborting reaches a step the source calls unreachable exactly under that condition. */
  lemma AbortPanicsIff(s: StepState)
    requires StepInv(s)
    ensures Close(Aborted(s)).Panicked? <==> AbortPanics(s)
  {
    hide Closable, Close, Sum, StepInv, Aborted, UnfinishedHoldsReplay, AnyBlock;
    hide OversizedCall, HollowText;
    AbortedClosable(s);
    AbortedUnfinished(s);
    ClosePanicsIff(Aborted(s));
  }

  lemma NoCallKept(outputs: map<Position, Pending>, kept: seq<Position>)
    requires forall p <- outputs :: !outputs[p].PendingCall?
    requires Keeps(kept, outputs)
    ensures forall b <- Blocks(kept, outputs) :: !b.Call?
  {
  }

  /** Nothing an aborted step commits asks for a tool to be run. */
  lemma AbortKeepsNoCall(s: StepState)
    requires StepInv(s) && Close(Aborted(s)).Committed?
    ensures forall b <- Close(Aborted(s)).output.blocks :: !b.Call?
  {
    hide Close, KeptOf, StepInv, Blocks;
    CommittedKeeps(Aborted(s));
    NoCallKept(Aborted(s).outputs, KeptOf(Aborted(s)));
  }

  // ------------------------------------------------------------------ the closing events

  /** What a stream or a running tool says is said of an item at its own position. */
  ghost predicate AtOwn(ps: seq<Position>, outputs: map<Position, Pending>) {
    forall p <- ps :: p in outputs &&
      (outputs[p].IsText() || outputs[p].PendingServerStarted? ==>
         outputs[p].ItemOf().StreamItem? && outputs[p].ItemOf().position == p)
  }

  predicate Belongs(ps: seq<Position>, outputs: map<Position, Pending>, item: ItemId) {
    item.StreamItem? && item.position in ps && item.position in outputs
    && outputs[item.position].ItemOf() == item
  }

  function RowStory(ps: seq<Position>, outputs: map<Position, Pending>, item: ItemId, story: Story): Story {
    if Belongs(ps, outputs, item) && outputs[item.position].PendingServerStarted?
    then story.(calls := story.calls + [(1, ServerCall(outputs[item.position].tool, "", ToolFailed))])
    else story
  }

  lemma RowStoryNext(
    front: seq<Position>, last: Position, outputs: map<Position, Pending>, item: ItemId, story: Story)
    requires AtOwn(front + [last], outputs) && last !in front
    ensures last in outputs
    ensures var o := outputs[last];
            RowStory(front + [last], outputs, item, story) ==
              if o.PendingServerStarted?
              then Heard(RowStory(front, outputs, item, story), FailedRow(o), item)
              else RowStory(front, outputs, item, story)
  {
    assert last in front + [last];
  }

  lemma {:induction false} RowsTold(
    ps: seq<Position>, outputs: map<Position, Pending>, events: seq<Event>, item: ItemId)
    requires Ascends(ps) && AtOwn(ps, outputs)
    ensures var shown := events + FailedRows(ps, outputs);
            && Tell(shown, item) == RowStory(ps, outputs, item, Tell(events, item))
            && StartedItems(shown) == StartedItems(events)
  {
    if ps == [] {
      assert events + [] == events;
    } else {
      var front, last := ps[..|ps| - 1], ps[|ps| - 1];
      assert last !in front && ps == front + [last];
      RowsTold(front, outputs, events, item);
      RowStoryNext(front, last, outputs, item, Tell(events, item));
      var before := events + FailedRows(front, outputs);
      var o := outputs[last];
      assert events + FailedRows(ps, outputs) ==
               if o.PendingServerStarted? then before + [FailedRow(o)] else before;
      if o.PendingServerStarted? { TellNext(before, FailedRow(o), item); }
      hide Tell, Heard, FailedRows, StartedItems, Ascends, AtOwn, RowStory;
    }
  }

  function FinalStory(kept: seq<Position>, outputs: map<Position, Pending>, item: ItemId, story: Story): Story {
    if Belongs(kept, outputs, item) && outputs[item.position].IsText()
    then story.(finals := story.finals + [SaturatingNext(outputs[item.position].streamed.revision)])
    else story
  }

  function FinalEvent(o: Pending): Event
    requires o.IsText()
  {
    Finalized(o.streamed.item, SaturatingNext(o.streamed.revision))
  }

  lemma FinalStoryNext(
    front: seq<Position>, last: Position, outputs: map<Position, Pending>, item: ItemId, story: Story)
    requires AtOwn(front + [last], outputs) && last !in front
    ensures last in outputs
    ensures var o := outputs[last];
            FinalStory(front + [last], outputs, item, story) ==
              if o.IsText()
              then Heard(FinalStory(front, outputs, item, story), FinalEvent(o), item)
              else FinalStory(front, outputs, item, story)
  {
    assert last in front + [last];
  }

  lemma {:induction false} FinalsTold(
    kept: seq<Position>, outputs: map<Position, Pending>, events: seq<Event>, item: ItemId)
    requires Ascends(kept) && AtOwn(kept, outputs) && Keeps(kept, outputs)
    ensures var shown := events + Finals(kept, outputs);
            && Tell(shown, item) == FinalStory(kept, outputs, item, Tell(events, item))
            && StartedItems(shown) == StartedItems(events)
  {
    if kept == [] {
      assert events + [] == events;
    } else {
      var front, last := kept[..|kept| - 1], kept[|kept| - 1];
      assert last !in front && kept == front + [last];
      FinalsTold(front, outputs, events, item);
      FinalStoryNext(front, last, outputs, item, Tell(events, item));
      var before := events + Finals(front, outputs);
      var o := outputs[last];
      assert events + Finals(kept, outputs) ==
               if o.IsText() then before + [FinalEvent(o)] else before;
      if o.IsText() { TellNext(before, FinalEvent(o), item); }
      hide Tell, Heard, Finals, StartedItems, Ascends, AtOwn, FinalStory, Keeps;
    }
  }

  // ------------------------------------------------------------------ order on screen

  function TextItems(blocks: seq<Block>): seq<ItemId> {
    if blocks == [] then []
    else
      var b := blocks[|blocks| - 1];
      TextItems(blocks[..|blocks| - 1]) + (if b.Text? || b.ReasoningText? then [b.item] else [])
  }

  function TextPositions(kept: seq<Position>, outputs: map<Position, Pending>): (ps: seq<Position>)
    requires Keeps(kept, outputs)
    ensures forall p :: p in ps <==> p in kept && p in outputs && outputs[p].IsText()
  {
    if kept == [] then []
    else
      var last := kept[|kept| - 1];
      assert kept == kept[..|kept| - 1] + [last];
      TextPositions(kept[..|kept| - 1], outputs) + (if outputs[last].IsText() then [last] else [])
  }

  lemma {:induction false} TextPositionsAscend(kept: seq<Position>, outputs: map<Position, Pending>)
    requires Keeps(kept, outputs) && Ascends(kept)
    ensures Ascends(TextPositions(kept, outputs))
  {
    if kept != [] {
      var front, last := kept[..|kept| - 1], kept[|kept| - 1];
      TextPositionsAscend(front, outputs);
      assert forall q <- TextPositions(front, outputs) :: q.Less(last);
      StartsAppend(TextPositions(front, outputs), last);
    }
  }

  lemma {:induction false} TextItemsFollow(kept: seq<Position>, outputs: map<Position, Pending>)
    requires Keeps(kept, outputs)
    ensures var items := TextItems(Blocks(kept, outputs));
            var ps := TextPositions(kept, outputs);
            && |items| == |ps|
            && forall i :: 0 <= i < |ps| ==> ps[i] in outputs && items[i] == outputs[ps[i]].ItemOf()
  {
    if kept != [] {
      hide Blocks;
      var front, last := kept[..|kept| - 1], kept[|kept| - 1];
      TextItemsFollow(front, outputs);
      assert kept == front + [last];
      BlocksNext(front, last, outputs);
      var blocks := Blocks(kept, outputs);
      assert blocks[..|blocks| - 1] == Blocks(front, outputs);
      hide Keeps;
    }
  }

  // ------------------------------------------------------------------ live equals durable

  /** Everything shown of a step that committed: its stream, the failed rows, the finalizations. */
  ghost function Shown(s: StepState, events: seq<Event>): seq<Event>
    requires Close(s).Committed?
  {
    events + Close(s).rows + Close(s).finals
  }

  /** Deltas numbered in order spell the text, and it is finalized once, as the revision after. */
  ghost predicate TextShown(text: string, story: Story) {
    var n := |story.revisions|;
    1 <= n && story == Story(1, text, Upto(n), [Saturated(n + 1)], [], [])
  }

  /** What the screen was told about the item of a committed block. */
  ghost predicate BlockShown(b: Block, story: Story) {
    match b
    case Text(_, text) => TextShown(text, story)
    case ReasoningText(_, text) => TextShown(text, story)
    case ServerToolCall(_, call) =>
      || story == SILENT.(calls := [(0, call)])
      || story == SILENT.(rows := [call.tool], calls := [(1, call)])
    case ReplayOnly(_) => story == SILENT
    case Call(_, _) => story == SILENT
  }

  lemma AllAtOwn(s: StepState, ps: seq<Position>)
    requires AllWellPlaced(s.agent, s.step, s.outputs) && forall p <- ps :: p in s.outputs
    ensures AtOwn(ps, s.outputs)
  {
    forall p <- ps ensures WellPlaced(s.agent, s.step, p, s.outputs[p]) {}
  }

  lemma ShownStory(s: StepState, events: seq<Event>, item: ItemId)
    requires Closable(s) && Close(s).Committed?
    ensures Tell(Shown(s, events), item) ==
              FinalStory(KeptOf(s), s.outputs, item,
                RowStory(Sorted(s.outputs.Keys), s.outputs, item, Tell(events, item)))
    ensures StartedItems(Shown(s, events)) == StartedItems(events)
  {
    var ps, kept := Sorted(s.outputs.Keys), KeptOf(s);
    CommittedKeeps(s);
    KeptFacts(s);
    AllAtOwn(s, ps);
    AllAtOwn(s, kept);
    hide Close, Closable, KeptOf, AtOwn, FinalStory, RowStory, AllWellPlaced;
    RowsTold(ps, s.outputs, events, item);
    FinalsTold(kept, s.outputs, events + FailedRows(ps, s.outputs), item);
  }

  lemma KeptBlockShown(s: StepState, p: Position, kept: seq<Position>, ps: seq<Position>, story: Story)
    requires AllWellPlaced(s.agent, s.step, s.outputs)
    requires p in s.outputs && p in kept && Survives(s.outputs[p])
    requires StoryAgrees(s, story, BlockOf(s.outputs[p]).item)
    ensures var b := BlockOf(s.outputs[p]);
            BlockShown(b, FinalStory(kept, s.outputs, b.item, RowStory(ps, s.outputs, b.item, story)))
  {
    assert WellPlaced(s.agent, s.step, p, s.outputs[p]);
    hide AllWellPlaced;
    assert [] + [s.outputs[p].ItemOf()] == [s.outputs[p].ItemOf()];
  }

  lemma BlockIsShown(s: StepState, events: seq<Event>, p: Position)
    requires Closable(s) && StoriesAgree(s, events) && Close(s).Committed?
    requires p in KeptOf(s) && p in s.outputs && Survives(s.outputs[p])
    ensures var b := BlockOf(s.outputs[p]);
            BlockShown(b, Tell(Shown(s, events), b.item))
  {
    var item := BlockOf(s.outputs[p]).item;
    assert StoryAgrees(s, Tell(events, item), item);
    hide Close, KeptOf, Tell, Shown, BlockShown, FinalStory, RowStory, StoryAgrees, AllWellPlaced;
    hide CallsDistinct, ReplayAnchored, Sum, BlockOf, Survives;
    ShownStory(s, events, item);
    KeptBlockShown(s, p, KeptOf(s), Sorted(s.outputs.Keys), Tell(events, item));
  }

  lemma KeptBlock(s: StepState, b: Block)
    requires b in Blocks(KeptOf(s), s.outputs)
    ensures exists p :: p in KeptOf(s) && p in s.outputs && Survives(s.outputs[p])
                        && b == BlockOf(s.outputs[p])
  {
    hide KeptOf, BlockOf, Survives;
    var kept := KeptOf(s);
    var i :| 0 <= i < |kept| && b == Blocks(kept, s.outputs)[i];
    assert kept[i] in kept;
  }

  lemma StartsAreTexts(
    kept: seq<Position>, outputs: map<Position, Pending>, items: seq<ItemId>, started: seq<Position>)
    requires StartsMatch(outputs, items, started) && Ascends(kept) && Keeps(kept, outputs)
    requires forall p <- outputs :: outputs[p].IsText() ==> p in kept
    ensures TextItems(Blocks(kept, outputs)) == items
  {
    TextPositionsAscend(kept, outputs);
    TextItemsFollow(kept, outputs);
    hide TextItems, Blocks, Keeps;
    AscendingIsUnique(TextPositions(kept, outputs), started);
  }

  lemma TextsInOrder(s: StepState, events: seq<Event>)
    requires Closable(s) && StartsAgree(s, events) && Close(s).Committed?
    ensures TextItems(Close(s).output.blocks) == StartedItems(Shown(s, events))
  {
    hide Close, KeptOf, Shown, StartsMatch, StartedItems, StartedAt, Sum, AllWellPlaced, TextItems;
    hide CallsDistinct, ReplayAnchored, Blocks, Keeps, Ascends;
    CommittedKeeps(s);
    KeptFacts(s);
    ShownStory(s, events, StreamItem(s.step, Assistant, Position(0, 0)));
    StartsAreTexts(KeptOf(s), s.outputs, StartedItems(events), StartedAt(events));
  }

  /**
   * The live stream is the durable output: a committed text is exactly the concatenation of what was
   * streamed for its item, with unbroken revisions and one finalization; a committed provider-run
   * call is the one that was shown; and texts first appeared in the order of their blocks.
   */
  lemma LiveIsDurable(s: StepState, events: seq<Event>)
    requires Closable(s) && Agrees(s, events) && Close(s).Committed?
    ensures forall b <- Close(s).output.blocks :: BlockShown(b, Tell(Shown(s, events), b.item))
    ensures TextItems(Close(s).output.blocks) == StartedItems(Shown(s, events))
  {
    hide Close, Closable, KeptOf, Blocks, BlockOf, Survives, Shown, Tell, BlockShown;
    hide StoriesAgree, StartsAgree, TextItems, StartedItems;
    CommittedKeeps(s);
    forall b <- Close(s).output.blocks ensures BlockShown(b, Tell(Shown(s, events), b.item)) {
      KeptBlock(s, b);
      var p :| p in KeptOf(s) && p in s.outputs && Survives(s.outputs[p]) && b == BlockOf(s.outputs[p]);
      BlockIsShown(s, events, p);
    }
    TextsInOrder(s, events);
  }

  lemma UnfinishedLeavesNoBlock(s: StepState, p: Position, kept: seq<Position>)
    requires AllWellPlaced(s.agent, s.step, s.outputs) && Keeps(kept, s.outputs)
    requires p in s.outputs && s.outputs[p].PendingServerStarted?
    ensures forall b <- Blocks(kept, s.outputs) :: b.item != s.outputs[p].item
  {
    assert WellPlaced(s.agent, s.step, p, s.outputs[p]);
    forall i | 0 <= i < |kept| ensures Blocks(kept, s.outputs)[i].item != s.outputs[p].item {
      assert WellPlaced(s.agent, s.step, kept[i], s.outputs[kept[i]]);
    }
  }

  lemma UnfinishedStory(s: StepState, p: Position, kept: seq<Position>, ps: seq<Position>, story: Story)
    requires AllWellPlaced(s.agent, s.step, s.outputs) && p in ps
    requires p in s.outputs && s.outputs[p].PendingServerStarted?
    requires StoryAgrees(s, story, s.outputs[p].item)
    ensures var o := s.outputs[p];
            FinalStory(kept, s.outputs, o.item, RowStory(ps, s.outputs, o.item, story)) ==
              SILENT.(rows := [o.tool], calls := [(1, ServerCall(o.tool, "", ToolFailed))])
  {
    assert WellPlaced(s.agent, s.step, p, s.outputs[p]);
    hide AllWellPlaced;
  }

  /** A tool still running when the step closes is shown as failed, once, and leaves no block. */
  lemma UnfinishedIsShownFailed(s: StepState, events: seq<Event>, p: Position)
    requires Closable(s) && StoriesAgree(s, events) && Close(s).Committed?
    requires p in s.outputs && s.outputs[p].PendingServerStarted?
    ensures var o := s.outputs[p];
            && Tell(Shown(s, events), o.item) ==
                 SILENT.(rows := [o.tool], calls := [(1, ServerCall(o.tool, "", ToolFailed))])
            && forall b <- Close(s).output.blocks :: b.item != o.item
  {
    hide Close, KeptOf, Shown, Tell, AllWellPlaced, Sum, CallsDistinct, ReplayAnchored, Blocks, Keeps;
    hide FinalStory, RowStory, StoryAgrees, TextWeights, ArgumentWeights, ReplayWeights;
    var item := s.outputs[p].item;
    assert StoryAgrees(s, Tell(events, item), item);
    UnfinishedLeavesNoBlock(s, p, KeptOf(s));
    CommittedKeeps(s);
    ShownStory(s, events, item);
    UnfinishedStory(s, p, KeptOf(s), Sorted(s.outputs.Keys), Tell(events, item));
  }

  /** For every run of a step that closes with an output, what was shown is what is kept. */
  lemma EveryRunIsDurable(agent: AgentId, step: StepId, inputs: seq<Input>)
    requires forall input <- inputs :: input.WellTyped()
    ensures var run := Feed(StepRun(NewStep(agent, step), []), inputs);
            Close(run.state).Committed? ==>
              && (forall b <- Close(run.state).output.blocks ::
                    BlockShown(b, Tell(Shown(run.state, run.events), b.item)))
              && TextItems(Close(run.state).output.blocks) ==
                   StartedItems(Shown(run.state, run.events))
  {
    hide Close, Feed, Agrees, AllWellPlaced, CallsDistinct, ReplayAnchored;
    var run := Feed(StepRun(NewStep(agent, step), []), inputs);
    EveryRunHolds(agent, step, inputs);
    if Close(run.state).Committed? {
      LiveIsDurable(run.state, run.events);
    }
  }

  /** Dropping the calls nobody will run takes nothing from what was shown. */
  lemma AbortedAgrees(s: StepState, events: seq<Event>)
    requires AllWellPlaced(s.agent, s.step, s.outputs) && Agrees(s, events)
    ensures Agrees(Aborted(s), events)
  {
    var s' := Aborted(s);
    forall item ensures StoryAgrees(s', Tell(events, item), item) {
      assert StoryAgrees(s, Tell(events, item), item);
      if item.StreamItem? && item.position in s.outputs {
        assert WellPlaced(s.agent, s.step, item.position, s.outputs[item.position]);
      }
    }
    hide StartedItems, StartedAt;
  }

  /** For every run of a step that is aborted with an output, what was shown is what is kept. */
  lemma EveryAbortIsDurable(agent: AgentId, step: StepId, inputs: seq<Input>)
    requires forall input <- inputs :: input.WellTyped()
    ensures var run := Feed(StepRun(NewStep(agent, step), []), inputs);
            var s := Aborted(run.state);
            Close(s).Committed? ==>
              && (forall b <- Close(s).output.blocks ::
                    BlockShown(b, Tell(Shown(s, run.events), b.item)))
              && TextItems(Close(s).output.blocks) == StartedItems(Shown(s, run.events))
  {
    hide Close, Feed, Agrees, AllWellPlaced, CallsDistinct, ReplayAnchored, CountersExact;
    hide VisibleIsLast, Aborted, Closable;
    var run := Feed(StepRun(NewStep(agent, step), []), inputs);
    EveryRunHolds(agent, step, inputs);
    AbortedClosable(run.state);
    AbortedAgrees(run.state, run.events);
    if Close(Aborted(run.state)).Committed? {
      LiveIsDurable(Aborted(run.state), run.events);
    }
  }

  lemma {:induction false} RevisionsAreShown(events: seq<Event>, item: ItemId)
    ensures var story := Tell(events, item);
            |story.revisions| + |story.finals| <= |events|
  {
    if events != [] {
      RevisionsAreShown(events[..|events| - 1], item);
    }
  }

  /**
   * Revisions never saturate while the stream itself can be numbered: the deltas of a shown text are
   * numbered one to n exactly, and it is finalized as n plus one.
   */
  lemma RevisionsAreExact(text: string, events: seq<Event>, item: ItemId)
    requires TextShown(text, Tell(events, item)) && |events| <= U64_MAX
    ensures var story := Tell(events, item);
            && (forall k :: 0 <= k < |story.revisions| ==> story.revisions[k] == k + 1)
            && story.finals == [|story.revisions| + 1]
  {
    RevisionsAreShown(events, item);
    hide Tell;
  }

  // ------------------------------------------------------------------ the panics are reachable

  /** A tool begins, its replay arrives, text follows, and the tool never ends. */
  function UnfinishedRun(replay: ProviderReplay): seq<Input> {
    [ServerToolBegan(Position(0, 0), "search"), ReplayArrived(Position(0, 0), replay),
     TextArrived(Position(1, 0), Assistant, "done")]
  }

  lemma FeedTaken(run: StepRun, input: Input, rest: seq<Input>)
    requires Take(run.state, input).Taken?
    ensures var taken := Take(run.state, input);
            Feed(run, [input] + rest) == Feed(StepRun(taken.state, run.events + taken.events), rest)
  {
    assert ([input] + rest)[1..] == rest;
    hide Take;
  }

  lemma ToolTaken(s: StepState, p: Position, tool: string)
    requires s.outputs == map[]
    ensures var taken := Take(s, ServerToolBegan(p, tool));
            && taken.Taken?
            && taken.state ==
                 s.(outputs := map[p := PendingServerStarted(StreamItem(s.step, Assistant, p), tool)])
  {
  }

  lemma ReplayTaken(s: StepState, p: Position, replay: ProviderReplay)
    requires p in s.outputs && s.replay == map[]
    requires s.replayBytes + |replay.payload| <= MAX_REPLAY_BYTES
    ensures var taken := Take(s, ReplayArrived(p, replay));
            taken.Taken? && taken.state == s.(replay := map[p := replay],
                                              replayBytes := s.replayBytes + |replay.payload|)
  {
  }

  lemma TextTaken(s: StepState, q: Position, delta: string)
    requires q !in s.outputs && |s.outputs| < U16_MAX && s.lastVisible.None?
    requires s.textBytes + |delta| <= MAX_TEXT_BYTES
    ensures var taken := Take(s, TextArrived(q, Assistant, delta));
            && taken.Taken? && taken.state.replay == s.replay && q in taken.state.outputs
            && taken.state.outputs[q].PendingText?
            && forall p <- s.outputs :: p in taken.state.outputs
                 && taken.state.outputs[p] == s.outputs[p]
  {
  }

  lemma FeedThree(run: StepRun, a: Input, b: Input, c: Input)
    requires Take(run.state, a).Taken?
    requires Take(Take(run.state, a).state, b).Taken?
    requires Take(Take(Take(run.state, a).state, b).state, c).Taken?
    ensures Feed(run, [a, b, c]).state == Take(Take(Take(run.state, a).state, b).state, c).state
  {
    hide Take;
    var one := Take(run.state, a);
    var two := Take(one.state, b);
    assert [a, b, c] == [a] + [b, c] && [b, c] == [b] + [c] && [c] == [c] + [];
    FeedTaken(run, a, [b, c]);
    FeedTaken(StepRun(one.state, run.events + one.events), b, [c]);
    FeedTaken(StepRun(two.state, run.events + one.events + two.events), c, []);
  }

  /** Whatever a fitting replay holds, that run is accepted input by input and its close panics. */
  lemma UnfinishedRunPanics(agent: AgentId, step: StepId, replay: ProviderReplay)
    requires replay.payload != "" && |replay.payload| <= MAX_REPLAY_BYTES
    ensures Close(Feed(StepRun(NewStep(agent, step), []), UnfinishedRun(replay)).state).Panicked?
  {
    hide Take, Close, Agrees, AllWellPlaced, CallsDistinct, ReplayAnchored, Sum;
    var p, q := Position(0, 0), Position(1, 0);
    var s0, inputs := NewStep(agent, step), UnfinishedRun(replay);
    EveryRunHolds(agent, step, inputs);
    ToolTaken(s0, p, "search");
    var s1 := Take(s0, inputs[0]).state;
    ReplayTaken(s1, p, replay);
    var s2 := Take(s1, inputs[1]).state;
    TextTaken(s2, q, "done");
    var s3 := Take(s2, inputs[2]).state;
    FeedThree(StepRun(s0, []), inputs[0], inputs[1], inputs[2]);
    assert p in s2.outputs && p in s3.replay && q in s3.outputs;
    assert AnyBlock(s3) && UnfinishedHoldsReplay(s3);
    ClosePanicsIff(s3);
  }

  lemma CallTaken(s: StepState, p: Position, call: ToolCall)
    requires s.outputs == map[] && s.argumentBytes == 0
    requires |call.id| <= MAX_IDENTITY_BYTES && |call.name| <= MAX_IDENTITY_BYTES
    requires |call.arguments| <= MAX_ARGUMENT_BYTES
    ensures var taken := Take(s, CallArrived(p, call));
            taken.Taken? && taken.state.outputs == map[p := PendingCall(ToolItem(s.agent, call.id), call)]
  {
  }

  lemma RunCloses(agent: AgentId, step: StepId, inputs: seq<Input>)
    requires forall input <- inputs :: input.WellTyped()
    ensures Closable(Feed(StepRun(NewStep(agent, step), []), inputs).state)
  {
    hide Feed, Sum, AllWellPlaced, CallsDistinct, ReplayAnchored, Agrees;
    EveryRunHolds(agent, step, inputs);
  }

  lemma FeedNothing(run: StepRun)
    ensures Feed(run, []) == run
  {
  }

  lemma FeedOne(s: StepState, input: Input)
    requires Take(s, input).Taken?
    ensures Feed(StepRun(s, []), [input]).state == Take(s, input).state
  {
    var taken := Take(s, input);
    assert [input] == [input] + [];
    FeedTaken(StepRun(s, []), input, []);
    FeedNothing(StepRun(taken.state, [] + taken.events));
  }

  /** A call the step accepts although its arguments exceed what one call may carry. */
  lemma OversizedCallPanics(agent: AgentId, step: StepId, call: ToolCall)
    requires |call.id| <= MAX_IDENTITY_BYTES && |call.name| <= MAX_IDENTITY_BYTES
    requires MAX_REQUESTED_BYTES < |call.arguments| <= MAX_ARGUMENT_BYTES
    ensures Close(Feed(StepRun(NewStep(agent, step), []), [CallArrived(Position(0, 0), call)]).state).Panicked?
  {
    var p, s0, input := Position(0, 0), NewStep(agent, step), CallArrived(Position(0, 0), call);
    RunCloses(agent, step, [input]);
    CallTaken(s0, p, call);
    hide Close, Take, Feed, Closable;
    var s1 := Take(s0, input).state;
    FeedOne(s0, input);
    assert p in s1.outputs;
    assert AnyBlock(s1) && OversizedCall(s1);
    ClosePanicsIff(s1);
  }

  lemma EmptyTextTaken(s: StepState, p: Position)
    requires s.outputs == map[] && s.textBytes == 0 && s.lastVisible.None?
    ensures var taken := Take(s, TextArrived(p, Assistant, ""));
            && taken.Taken? && p in taken.state.outputs
            && taken.state.outputs[p].PendingText? && taken.state.outputs[p].streamed.text == ""
  {
  }

  /** An answer made of an empty delta is accepted by the step and refused by its output. */
  lemma EmptyTextPanics(agent: AgentId, step: StepId, p: Position)
    ensures var run := Feed(StepRun(NewStep(agent, step), []), [TextArrived(p, Assistant, "")]);
            Close(run.state).Panicked?
  {
    var s0, input := NewStep(agent, step), TextArrived(p, Assistant, "");
    RunCloses(agent, step, [input]);
    EmptyTextTaken(s0, p);
    var s1 := Take(s0, input).state;
    assert Empty(s1.outputs[p]);
    hide Close, Take, Feed, Closable, Empty;
    FeedOne(s0, input);
    assert AnyBlock(s1) && HollowText(s1);
    ClosePanicsIff(s1);
  }
}
