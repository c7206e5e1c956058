/** The output a step commits: when it can be built, how it is ordered, and what was shown of it. */
module StepOutput {
  import opened ModelOutput
  import opened Positions
  import opened StepAssembly
  import opened StepClosing
  import opened StepTrace

  // ------------------------------------------------------------------ the blocks

  lemma {:induction false} KeptAscends(ps: seq<Position>, outputs: map<Position, Pending>)
    requires Ascends(ps) && forall p <- ps :: p in outputs
    ensures Ascends(Kept(ps, outputs))
  {
    if ps != [] {
      var front, last := ps[..|ps| - 1], ps[|ps| - 1];
      KeptAscends(front, outputs);
      var rest := Kept(front, outputs);
      assert forall q <- rest :: q.Less(last);
      StartsAppend(rest, last);
    }
  }

  lemma BytesNext(blocks: seq<Block>, b: Block)
    ensures TextBytes(blocks + [b]) == TextBytes(blocks) + BlockText(b)
    ensures ArgumentBytes(blocks + [b]) == ArgumentBytes(blocks) + BlockArguments(b)
  {
    assert (blocks + [b])[..|blocks|] == blocks;
  }

  lemma BlockWeighs(o: Pending)
    requires Survives(o)
    ensures BlockText(BlockOf(o)) == TextWeight(o)
    ensures BlockArguments(BlockOf(o)) == ArgumentWeight(o)
  {
  }

  lemma BlocksNext(kept: seq<Position>, p: Position, outputs: map<Position, Pending>)
    requires Keeps(kept, outputs) && p in outputs && Survives(outputs[p])
    ensures Keeps(kept + [p], outputs)
    ensures Blocks(kept + [p], outputs) == Blocks(kept, outputs) + [BlockOf(outputs[p])]
  {
  }

  /** How the bytes of the kept blocks grow with one more position. */
  lemma BytesOfOneMore(front: seq<Position>, last: Position, outputs: map<Position, Pending>)
    requires forall p <- front + [last] :: p in outputs
    requires outputs[last].IsText() ==> outputs[last].streamed.shown
    ensures var before := Blocks(Kept(front, outputs), outputs);
            var after := Blocks(Kept(front + [last], outputs), outputs);
            && TextBytes(after) == TextBytes(before) + TextWeight(outputs[last])
            && ArgumentBytes(after) == ArgumentBytes(before) + ArgumentWeight(outputs[last])
  {
    var rest := Kept(front, outputs);
    assert (front + [last])[..|front|] == front;
    if Survives(outputs[last]) {
      BlocksNext(rest, last, outputs);
      BlockWeighs(outputs[last]);
      BytesNext(Blocks(rest, outputs), BlockOf(outputs[last]));
      hide Blocks, TextBytes, ArgumentBytes, BlockOf, BlockText, BlockArguments, Survives, Keeps;
    }
  }

  lemma {:induction false} BytesOfKept(
    ps: seq<Position>, outputs: map<Position, Pending>,
    texts: map<Position, nat>, arguments: map<Position, nat>)
    requires forall p <- ps :: p in outputs && (outputs[p].IsText() ==> outputs[p].streamed.shown)
    requires texts == TextWeights(outputs) && arguments == ArgumentWeights(outputs)
    ensures var blocks := Blocks(Kept(ps, outputs), outputs);
            TextBytes(blocks) == SumAlong(ps, texts) && ArgumentBytes(blocks) == SumAlong(ps, arguments)
  {
    if ps != [] {
      hide Blocks, TextBytes, ArgumentBytes, Survives, Keeps, Kept, TextWeight, ArgumentWeight;
      var front, last := ps[..|ps| - 1], ps[|ps| - 1];
      assert last in ps && ps == front + [last];
      BytesOfKept(front, outputs, texts, arguments);
      BytesOfOneMore(front, last, outputs);
    }
  }

  lemma {:induction false} PrefixBytes(blocks: seq<Block>, i: nat)
    requires i < |blocks|
    ensures TextBytes(blocks[..i]) + BlockText(blocks[i]) <= TextBytes(blocks)
    ensures ArgumentBytes(blocks[..i]) + BlockArguments(blocks[i]) <= ArgumentBytes(blocks)
  {
    var front := blocks[..|blocks| - 1];
    if i < |front| {
      PrefixBytes(front, i);
      assert front[..i] == blocks[..i];
    }
  }

  /** The sequential checks of an output pass exactly when each block passes after those before it. */
  lemma {:induction false} AllowedEach(blocks: seq<Block>)
    ensures BlocksAllowed(blocks) <==>
              forall i :: 0 <= i < |blocks| ==> NextAllowed(blocks[..i], blocks[i])
  {
    if blocks != [] {
      var front := blocks[..|blocks| - 1];
      AllowedEach(front);
      assert forall i :: 0 <= i < |front| ==> front[..i] == blocks[..i] && front[i] == blocks[i];
    }
  }

  ghost predicate ItemsDistinct(blocks: seq<Block>) {
    forall i, j :: 0 <= i < j < |blocks| ==> blocks[i].item != blocks[j].item
  }

  ghost predicate CallIdsDistinct(blocks: seq<Block>) {
    forall i, j :: 0 <= i < j < |blocks| && blocks[i].Call? && blocks[j].Call? ==>
      blocks[i].call.id != blocks[j].call.id
  }

  lemma NextAllowedWithin(blocks: seq<Block>, i: nat)
    requires i < |blocks| && ItemsDistinct(blocks) && CallIdsDistinct(blocks)
    requires TextBytes(blocks) <= MAX_TEXT_BYTES && ArgumentBytes(blocks) <= MAX_ARGUMENT_BYTES
    ensures NextAllowed(blocks[..i], blocks[i]) <==> BlockAllowed(blocks[i])
  {
    PrefixBytes(blocks, i);
    hide TextBytes, ArgumentBytes, BlockAllowed, BlockText, BlockArguments;
  }

  /** The sequential checks, said once about the whole output. */
  lemma AllowedWhole(blocks: seq<Block>)
    requires ItemsDistinct(blocks) && CallIdsDistinct(blocks)
    requires TextBytes(blocks) <= MAX_TEXT_BYTES && ArgumentBytes(blocks) <= MAX_ARGUMENT_BYTES
    ensures BlocksAllowed(blocks) <==> forall i :: 0 <= i < |blocks| ==> BlockAllowed(blocks[i])
  {
    hide TextBytes, ArgumentBytes, BlockAllowed, NextAllowed, BlocksAllowed;
    hide ItemsDistinct, CallIdsDistinct;
    AllowedEach(blocks);
    forall i | 0 <= i < |blocks|
      ensures NextAllowed(blocks[..i], blocks[i]) <==> BlockAllowed(blocks[i])
    {
      NextAllowedWithin(blocks, i);
    }
  }

  lemma KeptItemsDistinct(s: StepState, kept: seq<Position>)
    requires Closable(s) && Ascends(kept)
    requires forall p :: p in kept <==> p in s.outputs && Survives(s.outputs[p])
    ensures ItemsDistinct(Blocks(kept, s.outputs)) && CallIdsDistinct(Blocks(kept, s.outputs))
  {
    hide Sum, ReplayAnchored;
    var blocks := Blocks(kept, s.outputs);
    forall i, j | 0 <= i < j < |kept|
      ensures blocks[i].item != blocks[j].item
      ensures blocks[i].Call? && blocks[j].Call? ==> blocks[i].call.id != blocks[j].call.id
    {
      var p, q := kept[i], kept[j];
      assert WellPlaced(s.agent, s.step, p, s.outputs[p]);
      assert WellPlaced(s.agent, s.step, q, s.outputs[q]);
      assert p.Less(q);
    }
  }

  /** A block the output's constructor refuses on its own. */
  predicate Unfit(o: Pending) {
    Oversized(o) || (Empty(o) && o.PendingText?)
  }

  predicate UnfitBlock(s: StepState) {
    exists p <- s.outputs :: Unfit(s.outputs[p])
  }

  lemma KeptWithinLimits(s: StepState, kept: seq<Position>)
    requires Closable(s) && kept == Kept(Sorted(s.outputs.Keys), s.outputs)
    ensures TextBytes(Blocks(kept, s.outputs)) <= MAX_TEXT_BYTES
    ensures ArgumentBytes(Blocks(kept, s.outputs)) <= MAX_ARGUMENT_BYTES
  {
    var ps := Sorted(s.outputs.Keys);
    var texts, arguments := TextWeights(s.outputs), ArgumentWeights(s.outputs);
    forall p <- ps ensures s.outputs[p].IsText() ==> s.outputs[p].streamed.shown {
      assert WellPlaced(s.agent, s.step, p, s.outputs[p]);
    }
    SumInOrder(ps, texts);
    SumInOrder(ps, arguments);
    hide Sum, SumAlong, TextBytes, ArgumentBytes, Blocks, Kept;
    BytesOfKept(ps, s.outputs, texts, arguments);
  }

  lemma BlockAllowedAt(s: StepState, p: Position)
    requires AllWellPlaced(s.agent, s.step, s.outputs) && p in s.outputs && Survives(s.outputs[p])
    ensures BlockAllowed(BlockOf(s.outputs[p])) <==> !Unfit(s.outputs[p])
  {
    assert WellPlaced(s.agent, s.step, p, s.outputs[p]);
  }

  lemma EachBlockAllowed(s: StepState, kept: seq<Position>)
    requires AllWellPlaced(s.agent, s.step, s.outputs)
    requires forall p :: p in kept <==> p in s.outputs && Survives(s.outputs[p])
    ensures var blocks := Blocks(kept, s.outputs);
            (forall i :: 0 <= i < |blocks| ==> BlockAllowed(blocks[i])) <==> !UnfitBlock(s)
  {
    var blocks := Blocks(kept, s.outputs);
    forall i | 0 <= i < |kept|
      ensures BlockAllowed(blocks[i]) <==> !Unfit(s.outputs[kept[i]])
    {
      BlockAllowedAt(s, kept[i]);
    }
    if UnfitBlock(s) {
      var p :| p in s.outputs && Unfit(s.outputs[p]);
      assert WellPlaced(s.agent, s.step, p, s.outputs[p]);
      assert p in kept;
      hide AllWellPlaced, BlockAllowed, BlockOf;
      var i :| 0 <= i < |kept| && kept[i] == p;
      assert !BlockAllowed(blocks[i]);
    } else {
      hide AllWellPlaced, BlockAllowed, BlockOf;
      forall i | 0 <= i < |blocks| ensures BlockAllowed(blocks[i]) {
        assert kept[i] in kept;
      }
    }
  }

  /**
   * The blocks of a step pass the output's checks exactly when no call's arguments are oversized and
   * no answer is empty.
   */
  lemma StepBlocksAllowed(s: StepState, kept: seq<Position>)
    requires Closable(s) && kept == Kept(Sorted(s.outputs.Keys), s.outputs)
    ensures BlocksAllowed(Blocks(kept, s.outputs)) <==> !UnfitBlock(s)
  {
    KeptWithinLimits(s, kept);
    KeptAscends(Sorted(s.outputs.Keys), s.outputs);
    KeptItemsDistinct(s, kept);
    hide Closable, TextBytes, ArgumentBytes, ItemsDistinct, CallIdsDistinct, BlocksAllowed, Kept;
    AllowedWhole(Blocks(kept, s.outputs));
    EachBlockAllowed(s, kept);
  }

  // ------------------------------------------------------------------ the replay

  lemma IndexIsUnique(kept: seq<Position>, i: nat)
    requires Ascends(kept) && i < |kept|
    ensures IndexOf(kept, kept[i]) == i
  {
    var j := IndexOf(kept, kept[i]);
    assert i < j ==> kept[i].Less(kept[j]);
    assert j < i ==> kept[j].Less(kept[i]);
  }

  lemma IndexRises(kept: seq<Position>, p: Position, q: Position)
    requires Ascends(kept) && p in kept && q in kept && p.Less(q)
    ensures IndexOf(kept, p) < IndexOf(kept, q)
  {
    var i, j := IndexOf(kept, p), IndexOf(kept, q);
    assert kept[i].Less(kept[j]);
  }

  lemma {:induction false} AnchorBytes(
    rs: seq<Position>, kept: seq<Position>, replay: map<Position, ProviderReplay>)
    requires forall p <- rs :: p in replay && p in kept
    ensures ReplayBytes(Anchors(rs, kept, replay)) == SumAlong(rs, ReplayWeights(replay))
  {
    if rs != [] {
      var front, last := rs[..|rs| - 1], rs[|rs| - 1];
      assert last in rs;
      AnchorBytes(front, kept, replay);
      var all := Anchors(rs, kept, replay);
      assert all[..|all| - 1] == Anchors(front, kept, replay);
    }
  }

  lemma AnchorsRise(rs: seq<Position>, kept: seq<Position>, replay: map<Position, ProviderReplay>)
    requires Ascends(rs) && Ascends(kept) && forall p <- rs :: p in replay && p in kept
    ensures var anchors := Anchors(rs, kept, replay);
            forall i :: 0 < i < |anchors| ==> anchors[i - 1].block < anchors[i].block
  {
    var anchors := Anchors(rs, kept, replay);
    forall i | 0 < i < |anchors| ensures anchors[i - 1].block < anchors[i].block {
      IndexRises(kept, rs[i - 1], rs[i]);
    }
  }

  /** The attachments of a step hold exactly the bytes its replays were counted with. */
  lemma AnchorBytesCounted(
    rs: seq<Position>, kept: seq<Position>, replay: map<Position, ProviderReplay>)
    requires Ascends(rs) && (forall p :: p in rs <==> p in replay) && forall p <- replay :: p in kept
    ensures ReplayBytes(Anchors(rs, kept, replay)) == Sum(ReplayWeights(replay))
  {
    AnchorBytes(rs, kept, replay);
    var weights := ReplayWeights(replay);
    assert forall p :: p in weights <==> p in replay;
    hide Sum, SumAlong, ReplayBytes, ReplayWeights, Ascends, Anchors;
    SumInOrder(rs, weights);
  }

  lemma AnchorsSpeak(
    rs: seq<Position>, kept: seq<Position>, replay: map<Position, ProviderReplay>)
    requires forall p <- rs :: p in replay && p in kept && replay[p].payload != ""
    ensures forall i :: 0 <= i < |Anchors(rs, kept, replay)| ==>
              && Anchors(rs, kept, replay)[i].payload != ""
              && Anchors(rs, kept, replay)[i].block < |kept|
  {
    forall i | 0 <= i < |rs| ensures rs[i] in replay && replay[rs[i]].payload != "" {
      assert rs[i] in rs;
    }
    hide IndexOf;
  }

  lemma AllowedReplay(replay: AssistantReplay)
    requires replay.attachments != []
    requires forall i :: 0 <= i < |replay.attachments| ==> replay.attachments[i].payload != ""
    requires forall i :: 0 < i < |replay.attachments| ==>
               replay.attachments[i - 1].block < replay.attachments[i].block
    requires ReplayBytes(replay.attachments) <= MAX_REPLAY_BYTES
    ensures ReplayAllowed(replay)
  {
    hide ReplayBytes;
  }

  lemma AnchorsAllowed(
    rs: seq<Position>, kept: seq<Position>, replay: map<Position, ProviderReplay>, realm: string)
    requires rs != [] && Ascends(rs) && Ascends(kept) && forall p :: p in rs <==> p in replay
    requires forall p <- replay :: p in kept && replay[p].payload != ""
    requires Sum(ReplayWeights(replay)) <= MAX_REPLAY_BYTES
    ensures ReplayAllowed(AssistantReplay(realm, Anchors(rs, kept, replay)))
    ensures forall i :: 0 <= i < |Anchors(rs, kept, replay)| ==>
              Anchors(rs, kept, replay)[i].block < |kept|
  {
    hide *;
    AnchorsSpeak(rs, kept, replay);
    AnchorsRise(rs, kept, replay);
    AnchorBytesCounted(rs, kept, replay);
    assert |Anchors(rs, kept, replay)| == |rs|;
    AllowedReplay(AssistantReplay(realm, Anchors(rs, kept, replay)));
  }

  lemma AttachedAllowed(s: StepState, kept: seq<Position>)
    requires ReplayAnchored(s.outputs, s.replay)
    requires Sum(ReplayWeights(s.replay)) <= MAX_REPLAY_BYTES
    requires Ascends(kept) && Keeps(kept, s.outputs)
    requires forall p <- s.replay :: p in kept
    ensures var replay := Attached(s, kept);
            && (replay.Some? <==> s.replay != map[])
            && ReplayFits(Output(Blocks(kept, s.outputs), replay))
  {
    var rs := Sorted(s.replay.Keys);
    assert forall p <- s.replay :: s.replay[p].payload != "";
    hide ReplayAnchored, Keeps, ReplayAllowed, Ascends, Sum, Sorted, Anchors, ReplayWeights, Blocks;
    HasMember(rs);
    assert s.replay != map[] ==> exists p :: p in s.replay;
    if rs != [] {
      assert rs[0] in rs;
      AnchorsAllowed(rs, kept, s.replay, s.replay[rs[0]].realm);
    }
  }

  /** A retained replay is anchored at the block made from its own position. */
  lemma AnchoredAtOwn(s: StepState, kept: seq<Position>, i: nat)
    requires Ascends(kept) && forall p <- s.replay :: p in kept
    requires i < |kept| && kept[i] in s.replay
    ensures var replay := Attached(s, kept);
            && replay.Some?
            && Attachment(i, s.replay[kept[i]].payload) in replay.value.attachments
            && Anchored(replay, i)
  {
    var rs := Sorted(s.replay.Keys);
    assert kept[i] in rs;
    var k :| 0 <= k < |rs| && rs[k] == kept[i];
    IndexIsUnique(kept, i);
    var anchors := Anchors(rs, kept, s.replay);
    assert anchors[k] == Attachment(i, s.replay[kept[i]].payload);
  }

  // ------------------------------------------------------------------ when closing panics

  ghost function KeptOf(s: StepState): (kept: seq<Position>)
    ensures Keeps(kept, s.outputs)
  {
    Kept(Sorted(s.outputs.Keys), s.outputs)
  }

  lemma KeptFacts(s: StepState)
    requires AllWellPlaced(s.agent, s.step, s.outputs)
    ensures Ascends(KeptOf(s))
    ensures forall p :: p in KeptOf(s) <==> p in s.outputs && !s.outputs[p].PendingServerStarted?
    ensures |KeptOf(s)| <= |s.outputs|
  {
    KeptAscends(Sorted(s.outputs.Keys), s.outputs);
    forall p <- s.outputs ensures Survives(s.outputs[p]) <==> !s.outputs[p].PendingServerStarted? {
      assert WellPlaced(s.agent, s.step, p, s.outputs[p]);
    }
    assert |s.outputs.Keys| == |s.outputs|;
  }

  /** A block is anchored exactly when a replay was retained at its own position. */
  lemma AnchoredIff(s: StepState, kept: seq<Position>, i: nat)
    requires Ascends(kept) && (forall p <- s.replay :: p in kept) && i < |kept|
    ensures Anchored(Attached(s, kept), i) <==> kept[i] in s.replay
  {
    if kept[i] in s.replay { AnchoredAtOwn(s, kept, i); }
    if Anchored(Attached(s, kept), i) {
      var rs := Sorted(s.replay.Keys);
      var anchors := Anchors(rs, kept, s.replay);
      var k :| 0 <= k < |anchors| && anchors[k].block == i;
      assert rs[k] in rs && kept[IndexOf(kept, rs[k])] == rs[k];
    }
  }

  predicate Bare(s: StepState, p: Position)
    requires p in s.outputs
  {
    Empty(s.outputs[p]) && s.outputs[p].PendingReasoning? && p !in s.replay
  }

  predicate BareReasoning(s: StepState) {
    exists p <- s.outputs :: Bare(s, p)
  }

  predicate NeedsReplay(b: Block) {
    b.ReplayOnly? || (b.ReasoningText? && b.text == "")
  }

  lemma BareNeedsReplay(s: StepState, p: Position)
    requires ReplayAnchored(s.outputs, s.replay) && p in s.outputs && Survives(s.outputs[p])
    ensures Bare(s, p) <==> NeedsReplay(BlockOf(s.outputs[p])) && p !in s.replay
  {
  }

  /** Every block that needs a replay has one exactly when no bare reasoning is kept. */
  lemma CoveredIff(s: StepState, kept: seq<Position>)
    requires ReplayAnchored(s.outputs, s.replay) && Ascends(kept) && Keeps(kept, s.outputs)
    requires forall p <- s.outputs :: s.outputs[p].PendingReasoning? ==> p in kept
    requires forall p <- s.replay :: p in kept
    ensures ReplayCovers(Output(Blocks(kept, s.outputs), Attached(s, kept))) <==> !BareReasoning(s)
  {
    var blocks := Blocks(kept, s.outputs);
    forall i | 0 <= i < |kept|
      ensures kept[i] in s.outputs && Survives(s.outputs[kept[i]])
      ensures Bare(s, kept[i]) <==> NeedsReplay(blocks[i]) && !Anchored(Attached(s, kept), i)
    {
      BareNeedsReplay(s, kept[i]);
      AnchoredIff(s, kept, i);
    }
    hide Attached, Anchored, Blocks, Ascends, ReplayAnchored, Survives, Keeps;
    if BareReasoning(s) {
      var p :| p in s.outputs && Bare(s, p);
      var i :| 0 <= i < |kept| && kept[i] == p;
      assert NeedsReplay(blocks[i]);
    }
    hide Bare;
    if !BareReasoning(s) {
      forall i | 0 <= i < |kept| && NeedsReplay(blocks[i]) ensures Anchored(Attached(s, kept), i) {
        assert !Bare(s, kept[i]);
      }
    }
  }

  lemma KeptReasoning(s: StepState, kept: seq<Position>)
    requires Closable(s) && kept == KeptOf(s)
    ensures Ascends(kept) && forall p <- s.outputs :: s.outputs[p].PendingReasoning? ==> p in kept
    ensures |kept| <= |s.outputs|
  {
    KeptFacts(s);
    hide AllWellPlaced, KeptOf, Ascends;
  }

  lemma HollowParts(s: StepState)
    ensures OversizedCall(s) || HollowText(s) <==> UnfitBlock(s) || BareReasoning(s)
  {
    if p :| p in s.outputs && Unfit(s.outputs[p]) {
      assert Oversized(s.outputs[p]) || Empty(s.outputs[p]);
    }
    if p :| p in s.outputs && Bare(s, p) {
      assert Empty(s.outputs[p]);
    }
    if HollowText(s) {
      var p :| p in s.outputs && Empty(s.outputs[p]) && (s.outputs[p].PendingText? || p !in s.replay);
      assert Unfit(s.outputs[p]) || Bare(s, p);
    }
    if p :| p in s.outputs && Oversized(s.outputs[p]) {
      assert Unfit(s.outputs[p]);
    }
  }

  lemma BuiltOutput(s: StepState, kept: seq<Position>)
    requires Closable(s) && kept == KeptOf(s) && kept != [] && forall p <- s.replay :: p in kept
    ensures OutputAllowed(Output(Blocks(kept, s.outputs), Attached(s, kept))) <==>
              !OversizedCall(s) && !HollowText(s)
  {
    KeptReasoning(s, kept);
    StepBlocksAllowed(s, kept);
    hide Sum, Blocks, BlocksAllowed, ReplayFits, ReplayCovers, Attached, KeptOf, Ascends, Keeps;
    hide AllWellPlaced, CallsDistinct, ReplayAnchored, OversizedCall, HollowText, UnfitBlock;
    hide BareReasoning;
    AttachedAllowed(s, kept);
    CoveredIff(s, kept);
    HollowParts(s);
  }

  lemma BlocksSurvive(s: StepState)
    requires AllWellPlaced(s.agent, s.step, s.outputs) && ReplayAnchored(s.outputs, s.replay)
    ensures KeptOf(s) == [] <==> !AnyBlock(s)
    ensures (exists p <- s.replay :: p !in KeptOf(s)) <==> UnfinishedHoldsReplay(s)
  {
    KeptFacts(s);
    hide AllWellPlaced, KeptOf;
    HasMember(KeptOf(s));
    if UnfinishedHoldsReplay(s) {
      var p :| p in s.replay && p in s.outputs && s.outputs[p].PendingServerStarted?;
      assert p !in KeptOf(s);
    }
  }

  lemma RealmsAgree(s: StepState)
    requires ReplayAnchored(s.outputs, s.replay)
    ensures OneRealm(s.replay)
  {
  }

  /**
   * Closing reaches a step the source calls unreachable exactly when some block survives and a
   * provider-run tool that never ended holds a replay, a call's arguments exceed what one call may
   * carry, or a text is hollow; the step itself checks none of the three.
   */
  lemma ClosePanicsIff(s: StepState)
    requires Closable(s)
    ensures Close(s).Panicked? <==>
              AnyBlock(s) && (UnfinishedHoldsReplay(s) || OversizedCall(s) || HollowText(s))
    ensures Close(s).Nothing? <==> !AnyBlock(s)
  {
    hide OutputAllowed, Attached, Blocks, FailedRows, Finals, Sum, Sorted;
    hide AllWellPlaced, CallsDistinct, ReplayAnchored;
    hide OversizedCall, UnfinishedHoldsReplay, HollowText, AnyBlock, OneRealm;
    var kept := KeptOf(s);
    BlocksSurvive(s);
    RealmsAgree(s);
    if kept != [] && !UnfinishedHoldsReplay(s) { BuiltOutput(s, kept); }
  }
}
