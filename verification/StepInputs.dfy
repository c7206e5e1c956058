/** What a step retains and commits, told by the inputs it took: every block is what arrived for it. */
module StepInputs {
  import opened Options
  import opened ModelOutput
  import opened LiveEvents
  import opened Positions
  import opened StepAssembly
  import opened StepClosing
  import opened StepTrace
  import opened StepOutput
  import opened StepDurable

  // ------------------------------------------------------------------ the inputs taken at a position

  /** The deltas that arrived at a position, joined in the order they arrived. */
  ghost function Spoken(log: seq<Input>, p: Position): string {
    if log == [] then ""
    else
      var input := log[|log| - 1];
      Spoken(log[..|log| - 1], p) + (if input.TextArrived? && input.position == p then input.delta else "")
  }

  ghost predicate Came(log: seq<Input>, p: Position) {
    exists input <- log :: input.position == p
  }

  ghost predicate OnlyReplay(log: seq<Input>, p: Position) {
    forall input <- log :: input.position == p ==> input.ReplayArrived?
  }

  ghost predicate OnlyText(log: seq<Input>, p: Position, role: Role) {
    && (exists input <- log :: input.position == p && input.TextArrived?)
    && forall input <- log :: input.position == p ==>
         input.ReplayArrived? || (input.TextArrived? && input.role == role)
  }

  ghost predicate OnlyCall(log: seq<Input>, p: Position, call: ToolCall) {
    && CallArrived(p, call) in log
    && forall input <- log :: input.position == p ==>
         input.ReplayArrived? || input == CallArrived(p, call)
  }

  ghost predicate OnlyServerCall(log: seq<Input>, p: Position, call: ServerCall) {
    && ServerToolRan(p, call) in log
    && forall input <- log :: input.position == p ==>
         input.ReplayArrived? || input == ServerToolBegan(p, call.tool) || input == ServerToolRan(p, call)
  }

  ghost predicate OnlyBegan(log: seq<Input>, p: Position, tool: string) {
    && ServerToolBegan(p, tool) in log
    && forall input <- log :: input.position == p ==>
         input.ReplayArrived? || input == ServerToolBegan(p, tool)
  }

  // ------------------------------------------------------------------ what is retained

  /** What stands at a position is what the inputs taken there made it. */
  ghost predicate Stands(agent: AgentId, step: StepId, log: seq<Input>, p: Position, o: Pending) {
    match o
    case PendingReplay(item) => item == StreamItem(step, Reasoning, p) && OnlyReplay(log, p)
    case PendingText(t) =>
      t.item == StreamItem(step, Assistant, p) && OnlyText(log, p, Assistant) && t.text == Spoken(log, p)
    case PendingReasoning(t) =>
      t.item == StreamItem(step, Reasoning, p) && OnlyText(log, p, Reasoning) && t.text == Spoken(log, p)
    case PendingCall(item, call) => item == ToolItem(agent, call.id) && OnlyCall(log, p, call)
    case PendingServerCall(item, call) =>
      item == StreamItem(step, Assistant, p) && OnlyServerCall(log, p, call)
    case PendingServerStarted(item, tool) =>
      item == StreamItem(step, Assistant, p) && OnlyBegan(log, p, tool)
  }

  ghost predicate OutputsRemember(
    agent: AgentId, step: StepId, log: seq<Input>, outputs: map<Position, Pending>)
  {
    && (forall p :: p in outputs <==> Came(log, p))
    && forall p <- outputs :: Stands(agent, step, log, p, outputs[p])
  }

  ghost predicate ReplayRemembers(log: seq<Input>, replay: map<Position, ProviderReplay>) {
    && (forall p, r :: ReplayArrived(p, r) in log ==> p in replay && replay[p] == r)
    && forall p <- replay :: ReplayArrived(p, replay[p]) in log
  }

  /** A step retains what the inputs it took say, and nothing they do not. */
  ghost predicate Remembers(log: seq<Input>, s: StepState) {
    OutputsRemember(s.agent, s.step, log, s.outputs) && ReplayRemembers(log, s.replay)
  }

  /** Every text is announced in the role its item has. */
  ghost predicate RolesTold(events: seq<Event>) {
    forall e <- events :: e.ItemStarted? ==> e.item.StreamItem? && e.item.role == e.role
  }

  // ------------------------------------------------------------------ one more input

  lemma CameNext(log: seq<Input>, input: Input, p: Position)
    ensures Came(log + [input], p) <==> Came(log, p) || p == input.position
  {
    if p == input.position { assert input in log + [input]; }
    if Came(log, p) {
      var other :| other in log && other.position == p;
      assert other in log + [input];
    }
  }

  lemma SpokenNext(log: seq<Input>, input: Input, p: Position)
    ensures Spoken(log + [input], p) ==
              Spoken(log, p) + (if input.TextArrived? && input.position == p then input.delta else "")
  {
    assert (log + [input])[..|log|] == log;
  }

  lemma {:induction false} UnspokenAt(log: seq<Input>, p: Position)
    requires forall input <- log :: input.position == p ==> !input.TextArrived?
    ensures Spoken(log, p) == ""
  {
    if log != [] {
      assert log[|log| - 1] in log;
      UnspokenAt(log[..|log| - 1], p);
    }
  }

  /** An input at another position changes nothing of what stands here. */
  lemma StandsApart(agent: AgentId, step: StepId, log: seq<Input>, input: Input, p: Position, o: Pending)
    requires Stands(agent, step, log, p, o) && (input.position == p ==> input.ReplayArrived?)
    ensures Stands(agent, step, log + [input], p, o)
  {
    SpokenNext(log, input, p);
    assert forall other <- log :: other in log + [input];
    hide Spoken;
  }

  /** One input put one output at its position. */
  lemma OutputsRememberPut(
    agent: AgentId, step: StepId, log: seq<Input>, outputs: map<Position, Pending>, input: Input, o: Pending)
    requires OutputsRemember(agent, step, log, outputs)
    requires Stands(agent, step, log + [input], input.position, o)
    ensures OutputsRemember(agent, step, log + [input], outputs[input.position := o])
  {
    var outputs' := outputs[input.position := o];
    hide Stands, Came;
    forall p ensures p in outputs' <==> Came(log + [input], p) { CameNext(log, input, p); }
    forall p <- outputs' ensures Stands(agent, step, log + [input], p, outputs'[p]) {
      if p != input.position { StandsApart(agent, step, log, input, p, outputs[p]); }
    }
  }

  lemma ReplayRemembersRest(log: seq<Input>, replay: map<Position, ProviderReplay>, input: Input)
    requires ReplayRemembers(log, replay) && !input.ReplayArrived?
    ensures ReplayRemembers(log + [input], replay)
  {
  }

  /** Nothing but a replay came for a vacant position. */
  lemma VacantHeard(s: StepState, log: seq<Input>, p: Position)
    requires OutputsRemember(s.agent, s.step, log, s.outputs) && Vacant(s, p)
    ensures OnlyReplay(log, p)
  {
    if p !in s.outputs { assert !Came(log, p); }
  }

  lemma TextStands(s: StepState, log: seq<Input>, p: Position, role: Role, delta: string)
    requires StepInv(s) && Remembers(log, s) && AppendText(s, p, role, delta).Taken?
    ensures var s' := AppendText(s, p, role, delta).state;
            p in s'.outputs && Stands(s.agent, s.step, log + [TextArrived(p, role, delta)], p, s'.outputs[p])
  {
    var input := TextArrived(p, role, delta);
    SpokenNext(log, input, p);
    StreamedInPlace(s, p, role);
    hide Spoken, StepInv, ReplayRemembers, BehindVisible, GrowthEvents;
    if Vacant(s, p) {
      VacantHeard(s, log, p);
      UnspokenAt(log, p);
    } else {
      assert Stands(s.agent, s.step, log, p, s.outputs[p]);
    }
    hide OutputsRemember;
    assert input in log + [input];
  }

  lemma RolesGrow(s: StepState, events: seq<Event>, p: Position, role: Role, delta: string)
    requires StepInv(s) && RolesTold(events) && AppendText(s, p, role, delta).Taken?
    ensures RolesTold(events + AppendText(s, p, role, delta).events)
  {
    var t := StreamedAt(s, p, role).streamed;
    StreamedInPlace(s, p, role);
    assert t.role == role by {
      if p in s.outputs { assert WellPlaced(s.agent, s.step, p, s.outputs[p]); }
    }
    hide StepInv;
  }

  lemma TextRemembered(s: StepState, log: seq<Input>, input: Input)
    requires StepInv(s) && Remembers(log, s) && input.TextArrived? && Take(s, input).Taken?
    ensures Remembers(log + [input], Take(s, input).state)
  {
    hide StepInv, Stands, OutputsRemember, ReplayRemembers, TextVerdict, StreamedAt, Grown, GrowthEvents;
    TextStands(s, log, input.position, input.role, input.delta);
    var s' := Take(s, input).state;
    OutputsRememberPut(s.agent, s.step, log, s.outputs, input, s'.outputs[input.position]);
    ReplayRemembersRest(log, s.replay, input);
  }

  lemma ReplayStands(s: StepState, log: seq<Input>, input: Input)
    requires OutputsRemember(s.agent, s.step, log, s.outputs) && input.ReplayArrived?
    ensures OutputsRemember(s.agent, s.step, log + [input], OutputsWithReplay(s, input.position))
  {
    var p := input.position;
    if p in s.outputs {
      StandsApart(s.agent, s.step, log, input, p, s.outputs[p]);
      OutputsRememberPut(s.agent, s.step, log, s.outputs, input, s.outputs[p]);
      assert s.outputs[p := s.outputs[p]] == s.outputs;
    } else {
      assert !Came(log, p);
      var o := PendingReplay(StreamItem(s.step, Reasoning, p));
      OutputsRememberPut(s.agent, s.step, log, s.outputs, input, o);
    }
  }

  lemma ReplayRemembered(s: StepState, log: seq<Input>, input: Input)
    requires Remembers(log, s) && input.ReplayArrived? && Take(s, input).Taken?
    ensures Remembers(log + [input], Take(s, input).state)
  {
    hide OutputsRemember, OutputsWithReplay, OtherRealm;
    ReplayStands(s, log, input);
  }

  lemma CallRemembered(s: StepState, log: seq<Input>, input: Input)
    requires Remembers(log, s) && input.CallArrived? && Take(s, input).Taken?
    ensures Remembers(log + [input], Take(s, input).state)
  {
    var p, call := input.position, input.call;
    var o := PendingCall(ToolItem(s.agent, call.id), call);
    assert !Came(log, p);
    assert input in log + [input];
    assert Stands(s.agent, s.step, log + [input], p, o);
    hide OutputsRemember, ReplayRemembers, Stands, ContainsCall;
    OutputsRememberPut(s.agent, s.step, log, s.outputs, input, o);
    ReplayRemembersRest(log, s.replay, input);
  }

  lemma RowRemembered(s: StepState, log: seq<Input>, input: Input)
    requires Remembers(log, s) && input.ServerToolBegan? && Take(s, input).Taken?
    ensures Remembers(log + [input], Take(s, input).state)
  {
    var p := input.position;
    var o := PendingServerStarted(StreamItem(s.step, Assistant, p), input.tool);
    VacantHeard(s, log, p);
    assert input in log + [input];
    assert Stands(s.agent, s.step, log + [input], p, o);
    hide OutputsRemember, ReplayRemembers, Stands;
    OutputsRememberPut(s.agent, s.step, log, s.outputs, input, o);
    ReplayRemembersRest(log, s.replay, input);
  }

  lemma ServerCallRemembered(s: StepState, log: seq<Input>, input: Input)
    requires Remembers(log, s) && input.ServerToolRan? && Take(s, input).Taken?
    ensures Remembers(log + [input], Take(s, input).state)
  {
    var p, call := input.position, input.serverCall;
    var o := PendingServerCall(StreamItem(s.step, Assistant, p), call);
    if Vacant(s, p) {
      VacantHeard(s, log, p);
    } else {
      assert Stands(s.agent, s.step, log, p, s.outputs[p]);
      assert OnlyBegan(log, p, call.tool);
    }
    assert input in log + [input];
    assert Stands(s.agent, s.step, log + [input], p, o);
    hide OutputsRemember, ReplayRemembers, Stands;
    OutputsRememberPut(s.agent, s.step, log, s.outputs, input, o);
    ReplayRemembersRest(log, s.replay, input);
  }

  lemma TakeRemembers(s: StepState, events: seq<Event>, log: seq<Input>, input: Input)
    requires StepInv(s) && Remembers(log, s) && RolesTold(events) && Take(s, input).Taken?
    ensures Remembers(log + [input], Take(s, input).state)
    ensures RolesTold(events + Take(s, input).events)
  {
    hide StepInv, Remembers;
    match input
    case TextArrived(p, role, delta) =>
      TextRemembered(s, log, input);
      RolesGrow(s, events, p, role, delta);
    case ReplayArrived(_, _) => ReplayRemembered(s, log, input);
    case CallArrived(_, _) => CallRemembered(s, log, input);
    case ServerToolBegan(_, _) => RowRemembered(s, log, input);
    case ServerToolRan(_, _) => ServerCallRemembered(s, log, input);
  }

  // ------------------------------------------------------------------ whole runs

  /** The inputs the step took, in order; the declined ones are not among them. */
  ghost function TakenOf(run: StepRun, inputs: seq<Input>): seq<Input>
    decreases |inputs|
  {
    if inputs == [] then []
    else
      var outcome := Take(run.state, inputs[0]);
      if outcome.Taken?
      then [inputs[0]] + TakenOf(StepRun(outcome.state, run.events + outcome.events), inputs[1..])
      else TakenOf(run, inputs[1..])
  }

  /** An input the step took when it arrived is among those taken. */
  lemma {:induction false} TakenIsLogged(run: StepRun, inputs: seq<Input>, n: nat)
    requires n < |inputs| && Take(Feed(run, inputs[..n]).state, inputs[n]).Taken?
    ensures inputs[n] in TakenOf(run, inputs)
    decreases |inputs|
  {
    hide Take;
    if n > 0 {
      var outcome := Take(run.state, inputs[0]);
      var next := if outcome.Taken? then StepRun(outcome.state, run.events + outcome.events) else run;
      assert inputs[..n][1..] == inputs[1..][..n - 1];
      TakenIsLogged(next, inputs[1..], n - 1);
    }
  }

  lemma StepIsKept(s: StepState, input: Input)
    requires Take(s, input).Taken?
    ensures Take(s, input).state.agent == s.agent && Take(s, input).state.step == s.step
  {
  }

  lemma {:induction false} FeedRemembers(run: StepRun, log: seq<Input>, inputs: seq<Input>)
    requires StepInv(run.state) && Remembers(log, run.state) && RolesTold(run.events)
    requires forall input <- inputs :: input.WellTyped()
    ensures Remembers(log + TakenOf(run, inputs), Feed(run, inputs).state)
    ensures RolesTold(Feed(run, inputs).events)
    ensures Feed(run, inputs).state.agent == run.state.agent
    ensures Feed(run, inputs).state.step == run.state.step
    decreases |inputs|
  {
    hide StepInv, Take, Remembers, RolesTold;
    if inputs == [] {
      assert log + [] == log;
    } else {
      var input := inputs[0];
      var outcome := Take(run.state, input);
      assert input.WellTyped();
      if outcome.Taken? {
        var next := StepRun(outcome.state, run.events + outcome.events);
        TakeKeepsStep(run.state, input);
        TakeRemembers(run.state, run.events, log, input);
        StepIsKept(run.state, input);
        FeedRemembers(next, log + [input], inputs[1..]);
        assert log + [input] + TakenOf(next, inputs[1..]) == log + TakenOf(run, inputs);
      } else {
        FeedRemembers(run, log, inputs[1..]);
      }
    }
  }

  lemma NewRemembers(agent: AgentId, step: StepId)
    ensures Remembers([], NewStep(agent, step)) && RolesTold([])
  {
  }

  /** A fresh step retains, after any run, exactly what the inputs it took say. */
  lemma EveryRunRemembers(agent: AgentId, step: StepId, inputs: seq<Input>)
    requires forall input <- inputs :: input.WellTyped()
    ensures var start := StepRun(NewStep(agent, step), []);
            && Remembers(TakenOf(start, inputs), Feed(start, inputs).state)
            && RolesTold(Feed(start, inputs).events)
            && Feed(start, inputs).state.agent == agent && Feed(start, inputs).state.step == step
  {
    var start := StepRun(NewStep(agent, step), []);
    NewRemembers(agent, step);
    NewStepKeeps(agent, step);
    hide StepInv, Remembers, RolesTold, Feed, TakenOf, Take;
    FeedRemembers(start, [], inputs);
    assert [] + TakenOf(start, inputs) == TakenOf(start, inputs);
  }

  // ------------------------------------------------------------------ what is committed

  /** The inputs taken at this position leave a block; an abort drops the calls nobody will run. */
  ghost predicate Leaves(log: seq<Input>, aborted: bool, p: Position) {
    && Came(log, p)
    && (forall tool :: !OnlyBegan(log, p, tool))
    && (aborted ==> forall call :: CallArrived(p, call) !in log)
  }

  /** The block of a position is what the inputs taken there say. */
  ghost predicate BlockSays(agent: AgentId, step: StepId, log: seq<Input>, p: Position, b: Block) {
    match b
    case ReplayOnly(item) => item == StreamItem(step, Reasoning, p) && OnlyReplay(log, p)
    case Text(item, text) =>
      item == StreamItem(step, Assistant, p) && OnlyText(log, p, Assistant) && text == Spoken(log, p)
    case ReasoningText(item, text) =>
      item == StreamItem(step, Reasoning, p) && OnlyText(log, p, Reasoning) && text == Spoken(log, p)
    case Call(item, call) => item == ToolItem(agent, call.id) && OnlyCall(log, p, call)
    case ServerToolCall(item, call) =>
      item == StreamItem(step, Assistant, p) && OnlyServerCall(log, p, call)
  }

  /** The attached replay is every replay that came for a block, in its realm, and nothing else. */
  ghost predicate ReplaySays(log: seq<Input>, kept: seq<Position>, replay: Option<AssistantReplay>) {
    && (forall i: nat, r :: i < |kept| && ReplayArrived(kept[i], r) in log ==>
          && replay.Some? && r.realm == replay.value.realm
          && Attachment(i, r.payload) in replay.value.attachments)
    && (replay.Some? ==>
          && replay.value.attachments != []
          && (forall a <- replay.value.attachments ::
                && a.block < |kept|
                && ReplayArrived(kept[a.block], ProviderReplay(replay.value.realm, a.payload)) in log)
          && (forall i, j :: 0 <= i < j < |replay.value.attachments| ==>
                replay.value.attachments[i].block < replay.value.attachments[j].block))
  }

  /** The output of a step: one block a position, in order, each made of what came for it. */
  ghost predicate OutputSays(
    agent: AgentId, step: StepId, log: seq<Input>, aborted: bool, kept: seq<Position>, output: Output)
  {
    && Ascends(kept)
    && (forall p :: p in kept <==> Leaves(log, aborted, p))
    && |output.blocks| == |kept|
    && (forall i :: 0 <= i < |kept| ==> BlockSays(agent, step, log, kept[i], output.blocks[i]))
    && ReplaySays(log, kept, output.replay)
  }

  /** What is left of the inputs taken, when an abort dropped the calls. */
  ghost predicate RemembersRest(log: seq<Input>, aborted: bool, s: StepState) {
    && (forall p :: p in s.outputs <==>
          Came(log, p) && (aborted ==> forall call :: CallArrived(p, call) !in log))
    && (forall p <- s.outputs :: Stands(s.agent, s.step, log, p, s.outputs[p]))
    && (forall p, r :: ReplayArrived(p, r) in log && p in s.outputs ==>
          p in s.replay && s.replay[p] == r)
    && (forall p <- s.replay :: ReplayArrived(p, s.replay[p]) in log)
  }

  lemma ClosedRemembers(log: seq<Input>, s: StepState)
    requires Remembers(log, s)
    ensures RemembersRest(log, false, s)
  {
    hide Stands, Came;
  }

  /** A position holds a call exactly when one came for it. */
  lemma HoldsCallIff(log: seq<Input>, s: StepState, p: Position)
    requires OutputsRemember(s.agent, s.step, log, s.outputs) && p in s.outputs
    ensures s.outputs[p].PendingCall? <==> exists call :: CallArrived(p, call) in log
  {
    assert Stands(s.agent, s.step, log, p, s.outputs[p]);
    hide Spoken;
    if s.outputs[p].PendingCall? { assert CallArrived(p, s.outputs[p].call) in log; }
  }

  lemma AbortedRemembers(log: seq<Input>, s: StepState)
    requires Remembers(log, s)
    ensures RemembersRest(log, true, Aborted(s))
  {
    hide Stands, Came;
    forall p <- s.outputs
      ensures s.outputs[p].PendingCall? <==> exists call :: CallArrived(p, call) in log
    {
      HoldsCallIff(log, s, p);
    }
  }

  lemma StandingLeaves(agent: AgentId, step: StepId, log: seq<Input>, p: Position, o: Pending)
    requires Stands(agent, step, log, p, o)
    ensures o.PendingServerStarted? <==> exists tool :: OnlyBegan(log, p, tool)
    ensures Survives(o) ==> BlockSays(agent, step, log, p, BlockOf(o))
  {
    hide Spoken;
    if o.PendingServerStarted? {
      assert OnlyBegan(log, p, o.tool);
    }
    if tool :| OnlyBegan(log, p, tool) {
      assert ServerToolBegan(p, tool) in log;
    }
  }

  lemma BlocksSay(s: StepState, log: seq<Input>, aborted: bool)
    requires AllWellPlaced(s.agent, s.step, s.outputs) && RemembersRest(log, aborted, s)
    ensures var kept := KeptOf(s);
            && Ascends(kept)
            && (forall p :: p in kept <==> Leaves(log, aborted, p))
            && forall i :: 0 <= i < |kept| ==>
                 BlockSays(s.agent, s.step, log, kept[i], Blocks(kept, s.outputs)[i])
  {
    var kept := KeptOf(s);
    KeptFacts(s);
    hide AllWellPlaced, KeptOf, Stands, BlockSays, BlockOf, Survives, Came, OnlyBegan, Ascends;
    forall p ensures p in kept <==> Leaves(log, aborted, p) {
      if p in s.outputs { StandingLeaves(s.agent, s.step, log, p, s.outputs[p]); }
    }
    forall i | 0 <= i < |kept|
      ensures BlockSays(s.agent, s.step, log, kept[i], Blocks(kept, s.outputs)[i])
    {
      assert kept[i] in kept;
      StandingLeaves(s.agent, s.step, log, kept[i], s.outputs[kept[i]]);
    }
  }

  /** Attaching looks at the retained replays and at nothing else. */
  lemma AttachedSays(s: StepState, kept: seq<Position>, log: seq<Input>)
    requires ReplayAnchored(s.outputs, s.replay) && Ascends(kept) && forall p <- s.replay :: p in kept
    requires forall p <- s.replay :: ReplayArrived(p, s.replay[p]) in log
    ensures var replay := Attached(s, kept);
            replay.Some? ==>
              && replay.value.attachments != []
              && forall a <- replay.value.attachments ::
                   && a.block < |kept|
                   && ReplayArrived(kept[a.block], ProviderReplay(replay.value.realm, a.payload)) in log
  {
    var rs := Sorted(s.replay.Keys);
    var replay := Attached(s, kept);
    if replay.Some? {
      var anchors := Anchors(rs, kept, s.replay);
      forall a <- anchors
        ensures a.block < |kept|
                && ReplayArrived(kept[a.block], ProviderReplay(replay.value.realm, a.payload)) in log
      {
        var k :| 0 <= k < |anchors| && anchors[k] == a;
        assert rs[k] in rs && rs[0] in rs;
      }
    }
  }

  lemma {:induction false} RisesThroughout(attachments: seq<Attachment>)
    requires forall i :: 0 < i < |attachments| ==> attachments[i - 1].block < attachments[i].block
    ensures forall i, j :: 0 <= i < j < |attachments| ==> attachments[i].block < attachments[j].block
  {
    if attachments != [] {
      var front := attachments[..|attachments| - 1];
      RisesThroughout(front);
      forall i, j | 0 <= i < j < |attachments| ensures attachments[i].block < attachments[j].block {
        if i < j - 1 { assert front[i].block < attachments[j - 1].block; }
      }
    }
  }

  lemma AttachmentsRise(s: StepState, kept: seq<Position>)
    requires ReplayAnchored(s.outputs, s.replay) && Sum(ReplayWeights(s.replay)) <= MAX_REPLAY_BYTES
    requires Ascends(kept) && Keeps(kept, s.outputs) && forall p <- s.replay :: p in kept
    ensures var replay := Attached(s, kept);
            replay.Some? ==>
              forall i, j :: 0 <= i < j < |replay.value.attachments| ==>
                replay.value.attachments[i].block < replay.value.attachments[j].block
  {
    AttachedAllowed(s, kept);
    var replay := Attached(s, kept);
    hide Attached, Keeps, Sum, ReplayAnchored;
    if replay.Some? { RisesThroughout(replay.value.attachments); }
  }

  lemma OneRealmAttached(s: StepState, kept: seq<Position>, p: Position)
    requires ReplayAnchored(s.outputs, s.replay) && p in s.replay && forall q <- s.replay :: q in kept
    ensures Attached(s, kept).Some? && Attached(s, kept).value.realm == s.replay[p].realm
  {
    var rs := Sorted(s.replay.Keys);
    assert p in rs;
    assert rs[0] in rs;
  }

  lemma ReplayIsSaid(s: StepState, kept: seq<Position>, log: seq<Input>, aborted: bool)
    requires Closable(s) && RemembersRest(log, aborted, s) && kept == KeptOf(s)
    requires forall p <- s.replay :: p in kept
    ensures ReplaySays(log, kept, Attached(s, kept))
  {
    hide KeptOf, Sum, Stands, Came, Ascends, AllWellPlaced, CallsDistinct, ReplayAnchored, Attached;
    KeptFacts(s);
    AttachedSays(s, kept, log);
    AttachmentsRise(s, kept);
    forall i: nat, r | i < |kept| && ReplayArrived(kept[i], r) in log
      ensures var replay := Attached(s, kept);
              && replay.Some? && r.realm == replay.value.realm
              && Attachment(i, r.payload) in replay.value.attachments
    {
      assert kept[i] in kept && kept[i] in s.replay;
      AnchoredAtOwn(s, kept, i);
      OneRealmAttached(s, kept, kept[i]);
    }
  }

  /** What a step commits is what the inputs it took say, block by block. */
  lemma OutputIsSaid(s: StepState, log: seq<Input>, aborted: bool)
    requires Closable(s) && RemembersRest(log, aborted, s) && Close(s).Committed?
    ensures OutputSays(s.agent, s.step, log, aborted, KeptOf(s), Close(s).output)
  {
    hide Close, RemembersRest, Leaves, BlockSays, ReplaySays, KeptOf, Attached, Blocks, AllWellPlaced;
    hide CallsDistinct, ReplayAnchored, Sum, Ascends;
    CommittedKeeps(s);
    BlocksSay(s, log, aborted);
    ReplayIsSaid(s, KeptOf(s), log, aborted);
  }

  lemma InvIsClosable(s: StepState)
    requires StepInv(s)
    ensures Closable(s)
  {
    hide Sum, AllWellPlaced, CallsDistinct, ReplayAnchored;
  }

  lemma ClosedIsSaid(s: StepState, log: seq<Input>)
    requires StepInv(s) && Remembers(log, s)
    ensures Close(s).Committed? ==>
              exists kept :: OutputSays(s.agent, s.step, log, false, kept, Close(s).output)
  {
    hide Close, OutputSays, Remembers, RemembersRest, Closable, StepInv;
    if Close(s).Committed? {
      ClosedRemembers(log, s);
      InvIsClosable(s);
      OutputIsSaid(s, log, false);
    }
  }

  lemma AbortedIsOwn(s: StepState)
    ensures Aborted(s).agent == s.agent && Aborted(s).step == s.step
  {
  }

  lemma AbortedIsSaid(s: StepState, log: seq<Input>)
    requires StepInv(s) && Remembers(log, s)
    ensures var closing := Close(Aborted(s));
            closing.Committed? ==>
              exists kept :: OutputSays(s.agent, s.step, log, true, kept, closing.output)
  {
    hide Close, OutputSays, Remembers, RemembersRest, Closable, StepInv, Aborted;
    if Close(Aborted(s)).Committed? {
      AbortedRemembers(log, s);
      AbortedClosable(s);
      AbortedIsOwn(s);
      OutputIsSaid(Aborted(s), log, true);
    }
  }

  /** For every run: what closing or aborting commits is what the inputs the step took say. */
  lemma EveryRunCommitsWhatCame(agent: AgentId, step: StepId, inputs: seq<Input>)
    requires forall input <- inputs :: input.WellTyped()
    ensures var start := StepRun(NewStep(agent, step), []);
            var s, log := Feed(start, inputs).state, TakenOf(start, inputs);
            && (Close(s).Committed? ==>
                  exists kept :: OutputSays(agent, step, log, false, kept, Close(s).output))
            && (Close(Aborted(s)).Committed? ==>
                  exists kept :: OutputSays(agent, step, log, true, kept, Close(Aborted(s)).output))
  {
    hide Close, Feed, TakenOf, OutputSays, Remembers, RemembersRest, Agrees, Closable, Aborted;
    hide AllWellPlaced, CallsDistinct, ReplayAnchored, Sum, RolesTold;
    var start := StepRun(NewStep(agent, step), []);
    var s, log := Feed(start, inputs).state, TakenOf(start, inputs);
    EveryRunRemembers(agent, step, inputs);
    EveryRunHolds(agent, step, inputs);
    ClosedIsSaid(s, log);
    AbortedIsSaid(s, log);
  }

  /** A call that came for a position is, field for field, the call of the block of that position. */
  lemma CallIsCommitted(
    agent: AgentId, step: StepId, log: seq<Input>, kept: seq<Position>, output: Output,
    p: Position, call: ToolCall)
    requires OutputSays(agent, step, log, false, kept, output) && CallArrived(p, call) in log
    ensures exists i :: 0 <= i < |kept| && kept[i] == p
                        && output.blocks[i] == Call(ToolItem(agent, call.id), call)
  {
    var input := CallArrived(p, call);
    assert input.position == p;
    assert Leaves(log, false, p);
    var i :| 0 <= i < |kept| && kept[i] == p;
    assert BlockSays(agent, step, log, p, output.blocks[i]);
    hide Leaves, ReplaySays, Spoken;
  }

  // ------------------------------------------------------------------ what is handed back and shown at the end

  /** The calls of an output, in block order: what the turn must run next. */
  function CallsOf(blocks: seq<Block>): seq<ToolCall> {
    if blocks == [] then []
    else
      var b := blocks[|blocks| - 1];
      CallsOf(blocks[..|blocks| - 1]) + (if b.Call? then [b.call] else [])
  }

  ghost function CallPlaces(outputs: map<Position, Pending>): set<Position> {
    set p <- outputs | outputs[p].PendingCall?
  }

  /** Every retained call, once, in ascending order of position. */
  ghost predicate CallsHeld(outputs: map<Position, Pending>, calls: seq<ToolCall>) {
    var ps := Sorted(CallPlaces(outputs));
    && |calls| == |ps|
    && forall i :: 0 <= i < |ps| ==>
         ps[i] in outputs && outputs[ps[i]].PendingCall? && calls[i] == outputs[ps[i]].call
  }

  ghost function CallPositions(kept: seq<Position>, outputs: map<Position, Pending>): (ps: seq<Position>)
    requires Keeps(kept, outputs)
    ensures forall p :: p in ps <==> p in kept && p in outputs && outputs[p].PendingCall?
  {
    if kept == [] then []
    else
      var last := kept[|kept| - 1];
      assert kept == kept[..|kept| - 1] + [last];
      CallPositions(kept[..|kept| - 1], outputs) + (if outputs[last].PendingCall? then [last] else [])
  }

  lemma {:induction false} CallPositionsAscend(kept: seq<Position>, outputs: map<Position, Pending>)
    requires Keeps(kept, outputs) && Ascends(kept)
    ensures Ascends(CallPositions(kept, outputs))
  {
    if kept != [] {
      var front, last := kept[..|kept| - 1], kept[|kept| - 1];
      CallPositionsAscend(front, outputs);
      assert forall q <- CallPositions(front, outputs) :: q.Less(last);
      StartsAppend(CallPositions(front, outputs), last);
    }
  }

  lemma {:induction false} CallsFollow(kept: seq<Position>, outputs: map<Position, Pending>)
    requires Keeps(kept, outputs)
    ensures var calls := CallsOf(Blocks(kept, outputs));
            var ps := CallPositions(kept, outputs);
            && |calls| == |ps|
            && forall i :: 0 <= i < |ps| ==>
                 ps[i] in outputs && outputs[ps[i]].PendingCall? && calls[i] == outputs[ps[i]].call
  {
    if kept != [] {
      hide Blocks;
      var front, last := kept[..|kept| - 1], kept[|kept| - 1];
      CallsFollow(front, outputs);
      assert kept == front + [last];
      BlocksNext(front, last, outputs);
      var blocks := Blocks(kept, outputs);
      assert blocks[..|blocks| - 1] == Blocks(front, outputs);
      hide Keeps;
    }
  }

  /** The calls of the kept blocks are the retained calls in ascending order of position. */
  lemma CallsAreHeld(outputs: map<Position, Pending>, kept: seq<Position>)
    requires Keeps(kept, outputs) && Ascends(kept)
    requires forall p <- outputs :: outputs[p].PendingCall? ==> p in kept
    ensures CallsHeld(outputs, CallsOf(Blocks(kept, outputs)))
  {
    CallsFollow(kept, outputs);
    CallPositionsAscend(kept, outputs);
    hide Blocks, CallsOf, Ascends, CallPositions;
    AscendingIsUnique(CallPositions(kept, outputs), Sorted(CallPlaces(outputs)));
  }

  ghost predicate CallsAt(log: seq<Input>, ps: seq<Position>, calls: seq<ToolCall>) {
    && Ascends(ps)
    && (forall p :: p in ps <==> exists call :: CallArrived(p, call) in log)
    && |calls| == |ps|
    && forall i :: 0 <= i < |ps| ==> CallArrived(ps[i], calls[i]) in log
  }

  /** A tool the provider began at a position and never finished, shown as failed. */
  ghost predicate RowFails(step: StepId, log: seq<Input>, p: Position, e: Event) {
    && e.ServerToolCalled? && OnlyBegan(log, p, e.call.tool)
    && e == ServerToolCalled(StreamItem(step, Assistant, p), 1, ServerCall(e.call.tool, "", ToolFailed))
  }

  ghost predicate RowsAt(step: StepId, log: seq<Input>, ps: seq<Position>, rows: seq<Event>) {
    && Ascends(ps)
    && (forall p :: p in ps <==> exists tool :: OnlyBegan(log, p, tool))
    && |rows| == |ps|
    && forall i :: 0 <= i < |ps| ==> RowFails(step, log, ps[i], rows[i])
  }

  ghost function FailedAt(ps: seq<Position>, outputs: map<Position, Pending>): (failed: seq<Position>)
    requires forall p <- ps :: p in outputs
    ensures forall p :: p in failed <==> p in ps && p in outputs && outputs[p].PendingServerStarted?
  {
    if ps == [] then []
    else
      var last := ps[|ps| - 1];
      assert ps == ps[..|ps| - 1] + [last];
      FailedAt(ps[..|ps| - 1], outputs) + (if outputs[last].PendingServerStarted? then [last] else [])
  }

  lemma {:induction false} FailedAscend(ps: seq<Position>, outputs: map<Position, Pending>)
    requires Ascends(ps) && forall p <- ps :: p in outputs
    ensures Ascends(FailedAt(ps, outputs))
  {
    if ps != [] {
      var front, last := ps[..|ps| - 1], ps[|ps| - 1];
      FailedAscend(front, outputs);
      assert forall q <- FailedAt(front, outputs) :: q.Less(last);
      StartsAppend(FailedAt(front, outputs), last);
    }
  }

  lemma {:induction false} RowsFollow(ps: seq<Position>, outputs: map<Position, Pending>)
    requires forall p <- ps :: p in outputs
    ensures var rows, failed := FailedRows(ps, outputs), FailedAt(ps, outputs);
            && |rows| == |failed|
            && forall i :: 0 <= i < |rows| ==>
                 && failed[i] in outputs && outputs[failed[i]].PendingServerStarted?
                 && rows[i] == FailedRow(outputs[failed[i]])
  {
    if ps != [] {
      assert ps[|ps| - 1] in ps;
      RowsFollow(ps[..|ps| - 1], outputs);
      hide FailedRow;
    }
  }

  lemma BeganCame(log: seq<Input>, p: Position, tool: string)
    requires OnlyBegan(log, p, tool)
    ensures Came(log, p)
  {
    assert ServerToolBegan(p, tool).position == p;
  }

  lemma FailedIff(s: StepState, log: seq<Input>, p: Position)
    requires OutputsRemember(s.agent, s.step, log, s.outputs)
    ensures p in s.outputs && s.outputs[p].PendingServerStarted? <==>
              exists tool :: OnlyBegan(log, p, tool)
  {
    hide OnlyBegan, Stands, Came;
    if p in s.outputs {
      StandingLeaves(s.agent, s.step, log, p, s.outputs[p]);
    } else if tool :| OnlyBegan(log, p, tool) {
      BeganCame(log, p, tool);
    }
  }

  lemma RowIsSaid(s: StepState, log: seq<Input>, p: Position)
    requires OutputsRemember(s.agent, s.step, log, s.outputs)
    requires p in s.outputs && s.outputs[p].PendingServerStarted?
    ensures RowFails(s.step, log, p, FailedRow(s.outputs[p]))
  {
    assert Stands(s.agent, s.step, log, p, s.outputs[p]);
  }

  lemma RowsAreSaid(s: StepState, log: seq<Input>)
    requires Remembers(log, s)
    ensures exists ps :: RowsAt(s.step, log, ps, FailedRows(Sorted(s.outputs.Keys), s.outputs))
  {
    var ps := Sorted(s.outputs.Keys);
    var rows, failed := FailedRows(ps, s.outputs), FailedAt(ps, s.outputs);
    FailedAscend(ps, s.outputs);
    RowsFollow(ps, s.outputs);
    hide FailedRows, FailedAt, Ascends, OnlyBegan, Sorted, OutputsRemember, ReplayRemembers, RowFails;
    hide FailedRow;
    forall p ensures p in failed <==> exists tool :: OnlyBegan(log, p, tool) {
      FailedIff(s, log, p);
    }
    forall i | 0 <= i < |failed| ensures RowFails(s.step, log, failed[i], rows[i]) {
      RowIsSaid(s, log, failed[i]);
    }
    assert RowsAt(s.step, log, failed, rows);
  }

  lemma CallCame(log: seq<Input>, p: Position, call: ToolCall)
    requires CallArrived(p, call) in log
    ensures Came(log, p)
  {
    assert CallArrived(p, call).position == p;
  }

  lemma CallIsLogged(agent: AgentId, step: StepId, log: seq<Input>, p: Position, o: Pending)
    requires Stands(agent, step, log, p, o) && o.PendingCall?
    ensures CallArrived(p, o.call) in log
  {
  }

  lemma CallsAreSaid(s: StepState, log: seq<Input>, calls: seq<ToolCall>)
    requires Remembers(log, s) && CallsHeld(s.outputs, calls)
    ensures exists ps :: CallsAt(log, ps, calls)
  {
    var ps := Sorted(CallPlaces(s.outputs));
    hide Stands, Ascends, Came, ReplayRemembers;
    forall p ensures p in ps <==> exists call :: CallArrived(p, call) in log {
      if p in s.outputs {
        HoldsCallIff(log, s, p);
      } else if call :| CallArrived(p, call) in log {
        CallCame(log, p, call);
      }
    }
    forall i | 0 <= i < |ps| ensures CallArrived(ps[i], calls[i]) in log {
      CallIsLogged(s.agent, s.step, log, ps[i], s.outputs[ps[i]]);
    }
    assert CallsAt(log, ps, calls);
  }

  /** The committed texts are finalized one by one in block order, and nothing else is. */
  ghost predicate FinalsFollow(blocks: seq<Block>, finals: seq<Event>) {
    var items := TextItems(blocks);
    && |finals| == |items|
    && forall i :: 0 <= i < |items| ==> finals[i].Finalized? && finals[i].item == items[i]
  }

  lemma {:induction false} FinalsAreInOrder(kept: seq<Position>, outputs: map<Position, Pending>)
    requires Keeps(kept, outputs)
    ensures FinalsFollow(Blocks(kept, outputs), Finals(kept, outputs))
  {
    if kept != [] {
      hide Blocks;
      var front, last := kept[..|kept| - 1], kept[|kept| - 1];
      FinalsAreInOrder(front, outputs);
      assert kept == front + [last];
      BlocksNext(front, last, outputs);
      var blocks := Blocks(kept, outputs);
      assert blocks[..|blocks| - 1] == Blocks(front, outputs);
      hide Keeps;
    }
  }

  lemma ClosingShows(s: StepState)
    ensures Close(s).rows == FailedRows(Sorted(s.outputs.Keys), s.outputs)
    ensures Close(s).Committed? ==> FinalsFollow(Close(s).output.blocks, Close(s).finals)
  {
    hide OutputAllowed, Attached, Blocks, FailedRows, Finals, Sorted, OneRealm, FinalsFollow;
    if Close(s).Committed? {
      CommittedKeeps(s);
      FinalsAreInOrder(KeptOf(s), s.outputs);
    }
  }

  /**
   * For every run: the calls retained in order are those that came, each field for field; every tool
   * that began and never ended is shown as failed; and the texts are finalized in block order.
   */
  lemma EveryRunReturnsWhatCame(
    agent: AgentId, step: StepId, inputs: seq<Input>, calls: seq<ToolCall>)
    requires forall input <- inputs :: input.WellTyped()
    ensures var start := StepRun(NewStep(agent, step), []);
            var s, log := Feed(start, inputs).state, TakenOf(start, inputs);
            && (CallsHeld(s.outputs, calls) ==> exists ps :: CallsAt(log, ps, calls))
            && (exists ps :: RowsAt(step, log, ps, Close(s).rows))
            && (Close(s).Committed? ==> FinalsFollow(Close(s).output.blocks, Close(s).finals))
  {
    hide Close, Feed, TakenOf, Remembers, CallsHeld, CallsAt, RowsAt, RolesTold, FinalsFollow;
    var start := StepRun(NewStep(agent, step), []);
    var s, log := Feed(start, inputs).state, TakenOf(start, inputs);
    EveryRunRemembers(agent, step, inputs);
    if CallsHeld(s.outputs, calls) { CallsAreSaid(s, log, calls); }
    RowsAreSaid(s, log);
    ClosingShows(s);
  }
}
