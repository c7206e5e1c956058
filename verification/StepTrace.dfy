/** The live stream of a step, read back item by item, against what the step retains. */
module StepTrace {
  import opened Options
  import opened ModelOutput
  import opened LiveEvents
  import opened Positions
  import opened StepAssembly

  /** Everything the events so far said about one item. */
  datatype Story = Story(
    starts: nat,
    text: string,
    revisions: seq<nat>,
    finals: seq<nat>,
    rows: seq<string>,
    calls: seq<(nat, ServerCall)>)

  const SILENT := Story(0, "", [], [], [], [])

  function Heard(story: Story, e: Event, item: ItemId): Story {
    match e
    case ItemStarted(i, _) =>
      if i == item then story.(starts := story.starts + 1) else story
    case Delta(i, revision, text) =>
      if i == item
      then story.(text := story.text + text, revisions := story.revisions + [revision])
      else story
    case Finalized(i, revision) =>
      if i == item then story.(finals := story.finals + [revision]) else story
    case ServerToolStarted(i, tool) =>
      if i == item then story.(rows := story.rows + [tool]) else story
    case ServerToolCalled(i, revision, call) =>
      if i == item then story.(calls := story.calls + [(revision, call)]) else story
    case AgentIdle => story
    case UsageReported(_) => story
  }

  function Tell(events: seq<Event>, item: ItemId): Story {
    if events == [] then SILENT
    else Heard(Tell(events[..|events| - 1], item), events[|events| - 1], item)
  }

  /** The items that appeared as streamed text, in the order they first appeared. */
  function StartedItems(events: seq<Event>): seq<ItemId> {
    if events == [] then []
    else
      var e := events[|events| - 1];
      StartedItems(events[..|events| - 1]) + (if e.ItemStarted? then [e.item] else [])
  }

  /** The positions at which streamed text appeared, in the same order. */
  function StartedAt(events: seq<Event>): seq<Position> {
    if events == [] then []
    else
      var e := events[|events| - 1];
      StartedAt(events[..|events| - 1]) +
      (if e.ItemStarted? && e.item.StreamItem? then [e.item.position] else [])
  }

  lemma TellNext(events: seq<Event>, e: Event, item: ItemId)
    ensures Tell(events + [e], item) == Heard(Tell(events, item), e, item)
    ensures StartedItems(events + [e]) ==
              StartedItems(events) + (if e.ItemStarted? then [e.item] else [])
    ensures StartedAt(events + [e]) ==
              StartedAt(events) +
              (if e.ItemStarted? && e.item.StreamItem? then [e.item.position] else [])
  {
    assert (events + [e])[..|events|] == events;
  }

  // ------------------------------------------------------------------ what is said, what is kept

  /** The first `n` revisions of one item, as a saturating 64-bit count numbers them. */
  function Upto(n: nat): seq<nat> {
    seq(n, (k: nat) => Saturated(k + 1))
  }

  /** Deltas numbered in order spelled this text, and the last of them is its revision. */
  ghost predicate Spelled(t: Streamed, story: Story) {
    var n := |story.revisions|;
    1 <= n && t.revision == Saturated(n) && story == Story(1, t.text, Upto(n), [], [], [])
  }

  /** The story an output must have told: its text in numbered deltas and nothing else. */
  ghost predicate Tells(o: Pending, story: Story) {
    match o
    case PendingText(t) => Spelled(t, story)
    case PendingReasoning(t) => Spelled(t, story)
    case PendingServerStarted(_, tool) => story == SILENT.(rows := [tool])
    case PendingServerCall(_, call) =>
      || story == SILENT.(calls := [(0, call)])
      || story == SILENT.(rows := [call.tool], calls := [(1, call)])
    case PendingReplay(_) => story == SILENT
    case PendingCall(_, _) => story == SILENT
  }

  predicate Holds(s: StepState, item: ItemId) {
    item.StreamItem? && item.position in s.outputs && s.outputs[item.position].ItemOf() == item
  }

  ghost predicate StoryAgrees(s: StepState, story: Story, item: ItemId) {
    if Holds(s, item) then Tells(s.outputs[item.position], story) else story == SILENT
  }

  ghost predicate StoriesAgree(s: StepState, events: seq<Event>) {
    forall item :: StoryAgrees(s, Tell(events, item), item)
  }

  /** Text appeared once per text output, in ascending order of position. */
  ghost predicate StartsMatch(
    outputs: map<Position, Pending>, items: seq<ItemId>, ps: seq<Position>)
  {
    && Ascends(ps)
    && (forall p :: p in ps <==> p in outputs && outputs[p].IsText())
    && |items| == |ps|
    && (forall i :: 0 <= i < |ps| ==> items[i] == outputs[ps[i]].ItemOf())
  }

  ghost predicate StartsAgree(s: StepState, events: seq<Event>) {
    StartsMatch(s.outputs, StartedItems(events), StartedAt(events))
  }

  ghost predicate Agrees(s: StepState, events: seq<Event>) {
    StoriesAgree(s, events) && StartsAgree(s, events)
  }

  // ------------------------------------------------------------------ every operation keeps it

  function Growing(story: Story, t: Streamed, delta: string): Story {
    story.(starts := story.starts + (if t.shown then 0 else 1),
           text := story.text + delta,
           revisions := story.revisions + [SaturatingNext(t.revision)])
  }

  lemma TellGrowth(events: seq<Event>, t: Streamed, delta: string, item: ItemId)
    ensures Tell(events + GrowthEvents(t, delta), item) ==
              if item == t.item then Growing(Tell(events, item), t, delta) else Tell(events, item)
    ensures StartedItems(events + GrowthEvents(t, delta)) ==
              StartedItems(events) + (if t.shown then [] else [t.item])
    ensures StartedAt(events + GrowthEvents(t, delta)) ==
              StartedAt(events) +
              (if t.shown || !t.item.StreamItem? then [] else [t.item.position])
  {
    var last := Delta(t.item, SaturatingNext(t.revision), delta);
    if t.shown {
      assert GrowthEvents(t, delta) == [last];
      TellNext(events, last, item);
    } else {
      var first := ItemStarted(t.item, t.role);
      assert events + GrowthEvents(t, delta) == events + [first] + [last];
      TellNext(events, first, item);
      TellNext(events + [first], last, item);
    }
  }

  /** The text output at `p` and its story grow by the same delta. */
  lemma GrownTells(o: Pending, story: Story, delta: string)
    requires o.IsText()
    requires if o.streamed.shown then Tells(o, story)
             else story == SILENT && o.streamed.text == "" && o.streamed.revision == 0
    ensures Tells(o.(streamed := Grown(o.streamed, delta)), Growing(story, o.streamed, delta))
  {
    var n := |story.revisions|;
    assert Upto(n + 1) == Upto(n) + [Saturated(n + 1)];
    assert "" + delta == delta;
  }

  /** Placing `o` at `p` over nothing, over a bare replay or over its own item moves no other story. */
  lemma OtherStoriesStay(s: StepState, s': StepState, p: Position, o: Pending, story: Story, item: ItemId)
    requires s'.outputs == s.outputs[p := o]
    requires Vacant(s, p) || s.outputs[p].ItemOf() == o.ItemOf()
    requires item != o.ItemOf() && StoryAgrees(s, story, item)
    ensures StoryAgrees(s', story, item)
  {
  }

  /** Growing the text `o` at `p` moves its own story with it and no other. */
  lemma GrowthAgrees(
    s: StepState, s': StepState, p: Position, o: Pending, delta: string, item: ItemId, story: Story)
    requires o.IsText()
    requires o.streamed.item.StreamItem? && o.streamed.item.position == p
    requires s'.outputs == s.outputs[p := o.(streamed := Grown(o.streamed, delta))]
    requires if o.streamed.shown
             then p in s.outputs && s.outputs[p] == o
             else Vacant(s, p) && o.streamed.text == "" && o.streamed.revision == 0
    requires StoryAgrees(s, story, item)
    ensures StoryAgrees(s', if item == o.streamed.item then Growing(story, o.streamed, delta) else story,
                        item)
  {
    if item == o.streamed.item {
      assert if o.streamed.shown then Tells(o, story) else story == SILENT;
      GrownTells(o, story, delta);
      hide Tells, Growing, Grown;
    } else {
      OtherStoriesStay(s, s', p, o.(streamed := Grown(o.streamed, delta)), story, item);
      hide Tells, Growing, StoryAgrees;
    }
  }

  /** Whichever text an append grows, it is the stream of that role and position. */
  lemma StreamedInPlace(s: StepState, p: Position, role: Role)
    requires StepInv(s) && RoleMatches(StreamedAt(s, p, role), role)
    ensures var t := StreamedAt(s, p, role).streamed;
            t.item == StreamItem(s.step, role, p) && (Vacant(s, p) <==> !t.shown)
  {
    if p in s.outputs { assert WellPlaced(s.agent, s.step, p, s.outputs[p]); }
  }

  lemma AppendTextStory(
    s: StepState, events: seq<Event>, p: Position, role: Role, delta: string, item: ItemId)
    requires StepInv(s) && AppendText(s, p, role, delta).Taken?
    requires StoryAgrees(s, Tell(events, item), item)
    ensures var taken := AppendText(s, p, role, delta);
            StoryAgrees(taken.state, Tell(events + taken.events, item), item)
  {
    var taken := AppendText(s, p, role, delta);
    var o := StreamedAt(s, p, role);
    StreamedInPlace(s, p, role);
    TellGrowth(events, o.streamed, delta, item);
    hide Tell, GrowthEvents, StepInv, StoryAgrees, Growing, Grown, Sum;
    GrowthAgrees(s, taken.state, p, o, delta, item, Tell(events, item));
  }

  lemma AppendTextStories(
    s: StepState, events: seq<Event>, p: Position, role: Role, delta: string)
    requires StepInv(s) && StoriesAgree(s, events) && AppendText(s, p, role, delta).Taken?
    ensures var taken := AppendText(s, p, role, delta);
            StoriesAgree(taken.state, events + taken.events)
  {
    var taken := AppendText(s, p, role, delta);
    forall item ensures StoryAgrees(taken.state, Tell(events + taken.events, item), item) {
      assert StoryAgrees(s, Tell(events, item), item);
      AppendTextStory(s, events, p, role, delta, item);
    }
  }

  lemma StartsAppend(ps: seq<Position>, p: Position)
    requires Ascends(ps) && forall q <- ps :: q.Less(p)
    ensures Ascends(ps + [p])
  {
    forall i, j | 0 <= i < j < |ps + [p]| ensures (ps + [p])[i].Less((ps + [p])[j]) {
      if j == |ps| { assert ps[i] in ps; }
    }
  }

  lemma StartsGrow(
    outputs: map<Position, Pending>, items: seq<ItemId>, ps: seq<Position>, p: Position, o: Pending)
    requires StartsMatch(outputs, items, ps) && o.IsText()
    requires forall q <- ps :: q.Less(p)
    ensures StartsMatch(outputs[p := o], items + [o.ItemOf()], ps + [p])
  {
    StartsAppend(ps, p);
    assert p !in ps;
  }

  lemma StartsStay(
    outputs: map<Position, Pending>, items: seq<ItemId>, ps: seq<Position>, p: Position, o: Pending)
    requires StartsMatch(outputs, items, ps) && p in outputs
    requires outputs[p].IsText() && o.IsText() && o.ItemOf() == outputs[p].ItemOf()
    ensures StartsMatch(outputs[p := o], items, ps)
  {
  }

  lemma NewTextIsLast(s: StepState, p: Position)
    requires VisibleIsLast(s) && Vacant(s, p) && !BehindVisible(s, p)
    ensures forall q <- s.outputs :: s.outputs[q].IsText() ==> q.Less(p)
  {
    if s.lastVisible.Some? { Trichotomy(p, s.lastVisible.value); }
  }

  lemma AppendTextStarts(
    s: StepState, events: seq<Event>, p: Position, role: Role, delta: string)
    requires StepInv(s) && StartsAgree(s, events) && AppendText(s, p, role, delta).Taken?
    ensures var taken := AppendText(s, p, role, delta);
            StartsAgree(taken.state, events + taken.events)
  {
    var o := StreamedAt(s, p, role);
    var grown := o.(streamed := Grown(o.streamed, delta));
    var items, ps := StartedItems(events), StartedAt(events);
    StreamedInPlace(s, p, role);
    TellGrowth(events, o.streamed, delta, o.streamed.item);
    assert Vacant(s, p) ==> forall q <- ps :: q.Less(p) by {
      if Vacant(s, p) { NewTextIsLast(s, p); }
    }
    hide Tell, GrowthEvents, StepInv, StartedItems, StartedAt, StartsMatch;
    if o.streamed.shown {
      StartsStay(s.outputs, items, ps, p, grown);
      assert items + [] == items && ps + [] == ps;
    } else {
      StartsGrow(s.outputs, items, ps, p, grown);
    }
  }

  lemma OtherStarts(s: StepState, s': StepState, events: seq<Event>, e: Event, p: Position, o: Pending)
    requires StartsAgree(s, events) && s'.outputs == s.outputs[p := o]
    requires !o.IsText() && (p in s.outputs ==> !s.outputs[p].IsText()) && !e.ItemStarted?
    ensures StartsAgree(s', events) && StartsAgree(s', events + [e])
  {
    TellNext(events, e, StreamItem(s.step, Assistant, p));
  }

  lemma RetainReplayTraces(s: StepState, events: seq<Event>, p: Position, replay: ProviderReplay)
    requires Agrees(s, events) && RetainReplay(s, p, replay).Taken?
    ensures Agrees(RetainReplay(s, p, replay).state, events)
  {
    var s' := RetainReplay(s, p, replay).state;
    if p !in s.outputs {
      var o := PendingReplay(StreamItem(s.step, Reasoning, p));
      forall item ensures StoryAgrees(s', Tell(events, item), item) {
        assert StoryAgrees(s, Tell(events, item), item);
      }
      OtherStarts(s, s', events, AgentIdle, p, o);
    }
  }

  lemma CollectTraces(s: StepState, events: seq<Event>, p: Position, call: ToolCall)
    requires Agrees(s, events) && Collect(s, p, call).Taken?
    ensures Agrees(Collect(s, p, call).state, events)
  {
    var s' := Collect(s, p, call).state;
    var o := PendingCall(ToolItem(s.agent, call.id), call);
    forall item ensures StoryAgrees(s', Tell(events, item), item) {
      assert StoryAgrees(s, Tell(events, item), item);
    }
    OtherStarts(s, s', events, AgentIdle, p, o);
  }

  /** An event about the output just placed at `p` moves that item's story and no other. */
  lemma RowTold(s: StepState, s': StepState, events: seq<Event>, e: Event, p: Position, o: Pending)
    requires StoriesAgree(s, events) && s'.outputs == s.outputs[p := o]
    requires Vacant(s, p) || s.outputs[p].ItemOf() == o.ItemOf()
    requires o.ItemOf().StreamItem? && o.ItemOf().position == p
    requires (e.ServerToolStarted? || e.ServerToolCalled?) && e.item == o.ItemOf()
    requires Tells(o, Heard(Tell(events, e.item), e, e.item))
    ensures StoriesAgree(s', events + [e])
  {
    forall i ensures StoryAgrees(s', Tell(events + [e], i), i) {
      assert StoryAgrees(s, Tell(events, i), i);
      TellNext(events, e, i);
      hide Tell, StoriesAgree;
      if i != e.item { OtherStoriesStay(s, s', p, o, Tell(events, i), i); }
    }
  }

  /** The item a provider-run tool would use is silent before it, but for the row it may have opened. */
  lemma RowBefore(s: StepState, events: seq<Event>, p: Position)
    requires AllWellPlaced(s.agent, s.step, s.outputs) && StoriesAgree(s, events)
    ensures var story := Tell(events, StreamItem(s.step, Assistant, p));
            && (Vacant(s, p) ==> story == SILENT)
            && (p in s.outputs && s.outputs[p].PendingServerStarted? ==>
                  story == SILENT.(rows := [s.outputs[p].tool]))
  {
    var item := StreamItem(s.step, Assistant, p);
    assert StoryAgrees(s, Tell(events, item), item);
    if p in s.outputs { assert WellPlaced(s.agent, s.step, p, s.outputs[p]); }
    hide Tell, StoriesAgree, AllWellPlaced;
  }

  lemma NoteServerToolStartedTraces(s: StepState, events: seq<Event>, p: Position, tool: string)
    requires StepInv(s) && Agrees(s, events) && NoteServerToolStarted(s, p, tool).Taken?
    ensures var taken := NoteServerToolStarted(s, p, tool);
            Agrees(taken.state, events + taken.events)
  {
    var taken := NoteServerToolStarted(s, p, tool);
    var o := PendingServerStarted(StreamItem(s.step, Assistant, p), tool);
    RowBefore(s, events, p);
    hide StepInv, Tell, StoriesAgree, StartsAgree;
    RowTold(s, taken.state, events, taken.events[0], p, o);
    OtherStarts(s, taken.state, events, taken.events[0], p, o);
  }

  lemma NoteServerToolTraces(s: StepState, events: seq<Event>, p: Position, call: ServerCall)
    requires StepInv(s) && Agrees(s, events) && NoteServerTool(s, p, call).Taken?
    ensures var taken := NoteServerTool(s, p, call);
            Agrees(taken.state, events + taken.events)
  {
    var taken := NoteServerTool(s, p, call);
    var o := PendingServerCall(StreamItem(s.step, Assistant, p), call);
    RowBefore(s, events, p);
    assert p in s.outputs ==> WellPlaced(s.agent, s.step, p, s.outputs[p]);
    hide StepInv, Tell, StoriesAgree, StartsAgree;
    RowTold(s, taken.state, events, taken.events[0], p, o);
    OtherStarts(s, taken.state, events, taken.events[0], p, o);
  }

  lemma TakeKeepsTrace(s: StepState, events: seq<Event>, input: Input)
    requires StepInv(s) && Agrees(s, events) && Take(s, input).Taken?
    ensures Agrees(Take(s, input).state, events + Take(s, input).events)
  {
    assert events + [] == events;
    match input
    case TextArrived(p, role, delta) =>
      AppendTextStories(s, events, p, role, delta);
      AppendTextStarts(s, events, p, role, delta);
    case ReplayArrived(p, replay) => RetainReplayTraces(s, events, p, replay);
    case CallArrived(p, call) => CollectTraces(s, events, p, call);
    case ServerToolBegan(p, tool) => NoteServerToolStartedTraces(s, events, p, tool);
    case ServerToolRan(p, call) => NoteServerToolTraces(s, events, p, call);
  }

  // ------------------------------------------------------------------ whole runs

  datatype StepRun = StepRun(state: StepState, events: seq<Event>)

  /** Feeds the inputs in order; one that is declined leaves the step and the stream as they were. */
  function Feed(run: StepRun, inputs: seq<Input>): StepRun
    decreases |inputs|
  {
    if inputs == [] then run
    else
      var outcome := Take(run.state, inputs[0]);
      Feed(if outcome.Taken? then StepRun(outcome.state, run.events + outcome.events) else run,
           inputs[1..])
  }

  ghost predicate RunHolds(run: StepRun) {
    StepInv(run.state) && Agrees(run.state, run.events)
  }

  lemma {:induction false} FeedHolds(run: StepRun, inputs: seq<Input>)
    requires RunHolds(run) && forall input <- inputs :: input.WellTyped()
    ensures RunHolds(Feed(run, inputs))
    decreases |inputs|
  {
    hide StepInv, Agrees, Take;
    if inputs != [] {
      var outcome := Take(run.state, inputs[0]);
      assert inputs[0].WellTyped();
      if outcome.Taken? {
        TakeKeepsStep(run.state, inputs[0]);
        TakeKeepsTrace(run.state, run.events, inputs[0]);
        FeedHolds(StepRun(outcome.state, run.events + outcome.events), inputs[1..]);
      } else {
        FeedHolds(run, inputs[1..]);
      }
    }
  }

  /** Every run of a fresh step keeps the step's invariant, and its stream tells what it retains. */
  lemma EveryRunHolds(agent: AgentId, step: StepId, inputs: seq<Input>)
    requires forall input <- inputs :: input.WellTyped()
    ensures RunHolds(Feed(StepRun(NewStep(agent, step), []), inputs))
  {
    NewStepKeeps(agent, step);
    FeedHolds(StepRun(NewStep(agent, step), []), inputs);
  }
}
