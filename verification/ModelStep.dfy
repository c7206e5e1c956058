/** The live step: it changes its own fields, shows its events, and commits one output at close. */
module ModelStep {
  import opened Options
  import opened ModelOutput
  import opened LiveEvents
  import opened Positions
  import opened StepAssembly
  import opened StepClosing
  import opened StepOutput
  import opened StepDurable
  import opened StepInputs
  import opened JournalModel
  import opened LiveRecord

  // ------------------------------------------------------------------ what the journal awaits, what the stream shows

  /** A live journal takes an output of the step, whatever it holds, exactly while it expects it. */
  lemma ExpectedIsAwaited(s: JournalState, agent: AgentId, step: StepId, output: Output)
    requires Live(s)
    ensures PayloadAccepted(s, AssistantOutput(agent, step, output)) <==> ExpectsOutput(s, agent, step)
  {
    hide *;
    LiveFacts(s);
    OutputAccepted(s, agent, step, output);
    PreparedAppendAccepted(s, AssistantOutput(agent, step, output));
  }

  lemma NumberedTwo(events: seq<Envelope>, a: Event, b: Event, n: nat)
    ensures events + Numbered([a], n) == events + [Envelope(n, a)]
    ensures events + Numbered([a, b], n) == events + [Envelope(n, a)] + [Envelope(n + 1, b)]
    ensures events + Numbered([], n) == events
  {
    assert Numbered([a], n) == [Envelope(n, a)];
    assert Numbered([a, b], n) == [Envelope(n, a)] + [Envelope(n + 1, b)];
  }

  lemma NumberedMore(events: seq<Envelope>, before: seq<Event>, after: seq<Event>, n: nat)
    ensures events + Numbered(before + after, n) ==
              events + Numbered(before, n) + Numbered(after, n + |before|)
  {
    assert Numbered(before + after, n) == Numbered(before, n) + Numbered(after, n + |before|);
  }

  /** How one operation of the specification shows in the verdict, the step and the stream. */
  ghost predicate Reported(
    outcome: Outcome, s: StepState, s': StepState, verdict: Verdict<StepError>,
    events: seq<Envelope>, events': seq<Envelope>, next: nat, next': nat)
  {
    match outcome
    case Declined(error) =>
      verdict == Refused(error) && s' == s && events' == events && next' == next
    case Taken(state, shown) =>
      && verdict == Accepted && s' == state
      && events' == events + Numbered(shown, next) && next' == next + |shown|
  }

  // ------------------------------------------------------------------ one arrival

  lemma AppendKept(s: StepState, p: Position, role: Role, delta: string)
    requires StepInv(s)
    ensures var outcome := StepAssembly.AppendText(s, p, role, delta);
            outcome.Taken? ==> StepInv(outcome.state)
  {
    if StepAssembly.AppendText(s, p, role, delta).Taken? { AppendTextKeeps(s, p, role, delta); }
  }

  lemma TextAnswered(
    s: StepState, p: Position, role: Role, delta: string, s': StepState, verdict: Verdict<StepError>,
    events: seq<Envelope>, events': seq<Envelope>, next: nat, next': nat)
    requires StepInv(s) && verdict == TextVerdict(s, p, role, |delta|)
    requires verdict.Refused? ==> s' == s && events' == events && next' == next
    requires verdict.Accepted? ==>
      var o := StreamedAt(s, p, role);
      && o.IsText()
      && s' == StepState(
           s.agent, s.step, s.outputs[p := o.(streamed := Grown(o.streamed, delta))], s.replay,
           s.textBytes + |delta|, s.argumentBytes, s.replayBytes,
           if Vacant(s, p) then Some(p) else s.lastVisible)
      && events' == events + Numbered(GrowthEvents(o.streamed, delta), next)
      && next' == next + |GrowthEvents(o.streamed, delta)|
    ensures StepInv(s')
    ensures Reported(StepAssembly.AppendText(s, p, role, delta), s, s', verdict, events, events', next, next')
  {
    hide StepInv, TextVerdict, StreamedAt, Grown, GrowthEvents, Numbered, Vacant;
    AppendKept(s, p, role, delta);
  }

  lemma StreamedSame(s: StepState, s': StepState, p: Position, role: Role, size: nat)
    requires s'.outputs == s.outputs && s'.step == s.step
    ensures StreamedAt(s', p, role) == StreamedAt(s, p, role)
    ensures TextVerdict(s, p, role, size).Accepted? ==> StreamedAt(s, p, role).IsText()
  {
  }

  /** Shows one more delta of a streamed text, and its item first when this is the first delta. */
  method Grow(streamed: Streamed, delta: string, writer: LiveWriter, reaction: Reaction)
    returns (grown: Streamed)
    requires writer.nextEvent + 2 <= U64_MAX
    modifies writer`nextEvent, reaction`events
    ensures grown == Grown(streamed, delta)
    ensures reaction.events ==
              old(reaction.events) + Numbered(GrowthEvents(streamed, delta), old(writer.nextEvent))
    ensures writer.nextEvent == old(writer.nextEvent) + |GrowthEvents(streamed, delta)|
  {
    grown := streamed;
    var shown := Delta(streamed.item, SaturatingNext(streamed.revision), delta);
    NumberedTwo(reaction.events, ItemStarted(streamed.item, streamed.role), shown, writer.nextEvent);
    NumberedTwo(reaction.events, shown, AgentIdle, writer.nextEvent);
    if !streamed.shown {
      writer.Emit(reaction, ItemStarted(streamed.item, streamed.role));
    }
    grown := streamed.(shown := true, text := streamed.text + delta,
                       revision := SaturatingNext(streamed.revision));
    writer.Emit(reaction, shown);
  }

  /** All retained replays share a realm, so comparing with the first compares with every one. */
  lemma FirstRealm(s: StepState, arrived: ProviderReplay)
    requires StepInv(s)
    ensures var kept := Sorted(s.replay.Keys);
            OtherRealm(s, arrived) <==> kept != [] && s.replay[kept[0]].realm != arrived.realm
  {
    var kept := Sorted(s.replay.Keys);
    if kept != [] { assert kept[0] in s.replay; }
    HasMember(kept);
    if p :| p in s.replay && s.replay[p].realm != arrived.realm {
      assert p in kept;
    }
  }

  /** An operation that shows nothing. */
  ghost predicate Answered(
    outcome: Outcome, s: StepState, s': StepState, verdict: Verdict<StepError>)
  {
    match outcome
    case Declined(error) => verdict == Refused(error) && s' == s
    case Taken(state, shown) => verdict == Accepted && s' == state && shown == []
  }

  lemma ReplayAnswered(
    s: StepState, p: Position, arrived: ProviderReplay, s': StepState, verdict: Verdict<StepError>)
    requires StepInv(s) && arrived.payload != "" && verdict == ReplayVerdict(s, p, arrived)
    requires s' ==
      if verdict.Refused? then s
      else
        StepState(s.agent, s.step, OutputsWithReplay(s, p), s.replay[p := arrived], s.textBytes,
                  s.argumentBytes, s.replayBytes + |arrived.payload|, s.lastVisible)
    ensures Answered(StepAssembly.RetainReplay(s, p, arrived), s, s', verdict) && StepInv(s')
  {
    hide StepInv, ReplayVerdict;
    if ReplayVerdict(s, p, arrived).Accepted? { RetainReplayKeeps(s, p, arrived); }
  }

  lemma CallOutcome(s: StepState, p: Position, call: ToolCall)
    requires StepInv(s)
    ensures var verdict := CallVerdict(s, p, call);
            var outcome := StepAssembly.Collect(s, p, call);
            if verdict.Refused? then outcome == Declined(verdict.error)
            else
              var s' := StepState(s.agent, s.step,
                                  s.outputs[p := PendingCall(ToolItem(s.agent, call.id), call)],
                                  s.replay, s.textBytes, s.argumentBytes + |call.arguments|,
                                  s.replayBytes, s.lastVisible);
              outcome == Taken(s', []) && StepInv(s')
  {
    hide StepInv, CallVerdict;
    if CallVerdict(s, p, call).Accepted? { CollectKeeps(s, p, call); }
  }

  lemma RowOutcome(s: StepState, p: Position, tool: string)
    requires StepInv(s)
    ensures var verdict := RowVerdict(s, p);
            var outcome := StepAssembly.NoteServerToolStarted(s, p, tool);
            if verdict.Refused? then outcome == Declined(verdict.error)
            else
              var item := StreamItem(s.step, Assistant, p);
              var s' := StepState(s.agent, s.step, s.outputs[p := PendingServerStarted(item, tool)],
                                  s.replay, s.textBytes, s.argumentBytes, s.replayBytes,
                                  s.lastVisible);
              outcome == Taken(s', [ServerToolStarted(item, tool)]) && StepInv(s')
  {
    hide StepInv, RowVerdict;
    if RowVerdict(s, p).Accepted? { NoteServerToolStartedKeeps(s, p, tool); }
  }

  lemma ServerOutcome(s: StepState, p: Position, call: ServerCall)
    requires StepInv(s)
    ensures var verdict := ServerVerdict(s, p, call);
            var outcome := StepAssembly.NoteServerTool(s, p, call);
            if verdict.Refused? then outcome == Declined(verdict.error)
            else
              var item := StreamItem(s.step, Assistant, p);
              var s' := StepState(s.agent, s.step, s.outputs[p := PendingServerCall(item, call)],
                                  s.replay, s.textBytes, s.argumentBytes + |call.text|,
                                  s.replayBytes, s.lastVisible);
              outcome == Taken(s', [ServerToolCalled(item, if Vacant(s, p) then 0 else 1, call)])
              && StepInv(s')
  {
    hide StepInv, ServerVerdict;
    if ServerVerdict(s, p, call).Accepted? { NoteServerToolKeeps(s, p, call); }
  }

  // ------------------------------------------------------------------ assembling the blocks

  /** The positions that left a block so far, their blocks, and the ordinal of each. */
  datatype Assembly = Assembly(
    kept: seq<Position>, blocks: seq<Block>, ordinals: map<Position, nat>)

  /** Every kept position and no other has an ordinal: its index among the kept ones. */
  ghost predicate Ordinals(kept: seq<Position>, ordinals: map<Position, nat>) {
    && (forall p :: p in ordinals <==> p in kept)
    && (forall p <- kept :: ordinals[p] == IndexOf(kept, p))
  }

  ghost predicate Whole(outputs: map<Position, Pending>, a: Assembly) {
    && a.kept == Kept(Sorted(outputs.Keys), outputs) && a.blocks == Blocks(a.kept, outputs)
    && Ordinals(a.kept, a.ordinals)
  }

  /** The stream after showing these events, numbered from `first`. */
  ghost predicate Shows(
    before: seq<Envelope>, after: seq<Envelope>, shown: seq<Event>, first: nat)
  {
    after == before + Numbered(shown, first)
  }

  /** The stream after the unfinished tools among the first `i` positions were shown as failed. */
  ghost predicate Failing(
    ps: seq<Position>, i: nat, outputs: map<Position, Pending>,
    before: seq<Envelope>, after: seq<Envelope>, first: nat, next: nat)
  {
    && i <= |ps| && (forall p <- ps :: p in outputs)
    && var rows := FailedRows(ps[..i], outputs);
       Shows(before, after, rows, first) && next == first + |rows| && |rows| <= i
  }

  /** How far assembling has come after the first `i` positions. */
  ghost predicate Assembled(ps: seq<Position>, i: nat, outputs: map<Position, Pending>, a: Assembly) {
    && i <= |ps| && (forall p <- ps :: p in outputs)
    && a.kept == Kept(ps[..i], outputs) && a.blocks == Blocks(a.kept, outputs)
    && Ordinals(a.kept, a.ordinals)
  }

  lemma AssembledStart(ps: seq<Position>, outputs: map<Position, Pending>)
    requires forall p <- ps :: p in outputs
    ensures Assembled(ps, 0, outputs, Assembly([], [], map[]))
  {
    assert ps[..0] == [];
  }

  lemma ShowsNothing(before: seq<Envelope>, first: nat)
    ensures Shows(before, before, [], first)
  {
    assert before + Numbered([], first) == before;
  }

  lemma FailingStart(
    ps: seq<Position>, outputs: map<Position, Pending>, before: seq<Envelope>, first: nat)
    requires forall p <- ps :: p in outputs
    ensures Failing(ps, 0, outputs, before, before, first, first)
  {
    assert ps[..0] == [];
    ShowsNothing(before, first);
  }

  function Place(a: Assembly, p: Position, o: Pending): Assembly {
    if Survives(o)
    then Assembly(a.kept + [p], a.blocks + [BlockOf(o)], a.ordinals[p := |a.blocks|])
    else a
  }

  lemma {:induction false} IndexOfFirst(kept: seq<Position>, p: Position, q: Position)
    requires p !in kept
    ensures IndexOf(kept + [p], p) == |kept|
    ensures q in kept ==> IndexOf(kept + [p], q) == IndexOf(kept, q)
  {
    if kept != [] {
      assert (kept + [p])[1..] == kept[1..] + [p];
      IndexOfFirst(kept[1..], p, q);
    }
  }

  lemma OrdinalsGrow(kept: seq<Position>, ordinals: map<Position, nat>, p: Position)
    requires Ordinals(kept, ordinals) && p !in kept
    ensures Ordinals(kept + [p], ordinals[p := |kept|])
  {
    forall q | q in kept + [p]
      ensures ordinals[p := |kept|][q] == IndexOf(kept + [p], q)
    {
      IndexOfFirst(kept, p, q);
    }
  }

  lemma AssembledNext(ps: seq<Position>, i: nat, outputs: map<Position, Pending>, a: Assembly)
    requires Assembled(ps, i, outputs, a) && Ascends(ps) && i < |ps|
    ensures ps[i] in outputs
    ensures Assembled(ps, i + 1, outputs, Place(a, ps[i], outputs[ps[i]]))
  {
    assert ps[..i + 1][..i] == ps[..i];
    assert ps[i] !in ps[..i];
    if Survives(outputs[ps[i]]) {
      BlocksNext(a.kept, ps[i], outputs);
      OrdinalsGrow(a.kept, a.ordinals, ps[i]);
    }
    hide Blocks, Ordinals, Ascends;
  }

  lemma ShowsNext(before: seq<Envelope>, after: seq<Envelope>, shown: seq<Event>, e: Event, first: nat)
    requires Shows(before, after, shown, first)
    ensures Shows(before, after + [Envelope(first + |shown|, e)], shown + [e], first)
  {
    NumberedMore(before, shown, [e], first);
    assert Numbered([e], first + |shown|) == [Envelope(first + |shown|, e)];
  }

  lemma FailingNext(
    ps: seq<Position>, i: nat, outputs: map<Position, Pending>,
    before: seq<Envelope>, after: seq<Envelope>, first: nat, next: nat)
    requires Failing(ps, i, outputs, before, after, first, next) && i < |ps|
    ensures ps[i] in outputs && next <= first + i
    ensures var o := outputs[ps[i]];
            if o.PendingServerStarted?
            then Failing(ps, i + 1, outputs, before, after + [Envelope(next, FailedRow(o))], first, next + 1)
            else Failing(ps, i + 1, outputs, before, after, first, next)
  {
    var o := outputs[ps[i]];
    var rows := FailedRows(ps[..i], outputs);
    assert ps[..i + 1][..i] == ps[..i];
    assert rows + [] == rows;
    if o.PendingServerStarted? { ShowsNext(before, after, rows, FailedRow(o), first); }
    hide Shows;
  }

  /** Shows a provider-run tool that never ended as failed, and anything else not at all. */
  method ShowUnfinished(o: Pending, writer: LiveWriter, reaction: Reaction)
    requires writer.nextEvent < U64_MAX
    modifies writer`nextEvent, reaction`events
    ensures reaction.events ==
              if o.PendingServerStarted?
              then old(reaction.events) + [Envelope(old(writer.nextEvent), FailedRow(o))]
              else old(reaction.events)
    ensures writer.nextEvent ==
              if o.PendingServerStarted? then old(writer.nextEvent) + 1 else old(writer.nextEvent)
  {
    if o.PendingServerStarted? {
      writer.Emit(reaction, FailedRow(o));
    }
  }

  lemma SortedCount(outputs: map<Position, Pending>)
    ensures |Sorted(outputs.Keys)| == |outputs|
  {
    assert |outputs.Keys| == |outputs|;
  }

  lemma AssembledEnd(outputs: map<Position, Pending>, a: Assembly)
    requires var ps := Sorted(outputs.Keys);
             Assembled(ps, |ps|, outputs, a)
    ensures Whole(outputs, a)
  {
    var ps := Sorted(outputs.Keys);
    assert ps[..|ps|] == ps;
  }

  // ------------------------------------------------------------------ attaching the replay, finalizing the texts

  /** Every retained replay has a block to anchor at, and all of them share a realm. */
  ghost predicate Attachable(s: StepState, kept: seq<Position>) {
    OneRealm(s.replay) && forall p <- s.replay :: p in kept
  }

  ghost predicate Anchoring(
    rs: seq<Position>, i: nat, kept: seq<Position>, replay: map<Position, ProviderReplay>,
    anchors: seq<Attachment>)
  {
    && i <= |rs| && |anchors| == i && (forall p :: p in rs <==> p in replay)
    && forall k :: 0 <= k < i ==>
         && rs[k] in kept && replay[rs[k]].realm == replay[rs[0]].realm
         && anchors[k] == Attachment(IndexOf(kept, rs[k]), replay[rs[k]].payload)
  }

  lemma AnchoringStart(
    rs: seq<Position>, kept: seq<Position>, replay: map<Position, ProviderReplay>)
    requires forall p :: p in rs <==> p in replay
    ensures Anchoring(rs, 0, kept, replay, [])
  {
  }

  lemma AnchoringNext(
    s: StepState, rs: seq<Position>, i: nat, kept: seq<Position>, ordinals: map<Position, nat>,
    anchors: seq<Attachment>)
    requires Anchoring(rs, i, kept, s.replay, anchors) && Ordinals(kept, ordinals) && i < |rs|
    ensures rs[i] in s.replay && rs[0] in s.replay
    ensures if rs[i] !in ordinals || s.replay[rs[i]].realm != s.replay[rs[0]].realm
            then !Attachable(s, kept)
            else Anchoring(rs, i + 1, kept, s.replay,
                           anchors + [Attachment(ordinals[rs[i]], s.replay[rs[i]].payload)])
  {
  }

  lemma AnchoringEnd(s: StepState, rs: seq<Position>, kept: seq<Position>, anchors: seq<Attachment>)
    requires Anchoring(rs, |rs|, kept, s.replay, anchors) && rs == Sorted(s.replay.Keys)
    ensures Attachable(s, kept)
    ensures rs != [] ==> rs[0] in s.replay
    ensures Attached(s, kept) ==
              if rs == [] then None else Some(AssistantReplay(s.replay[rs[0]].realm, anchors))
  {
    forall p <- s.replay ensures p in kept && s.replay[p].realm == s.replay[rs[0]].realm {
      assert p in rs;
    }
    assert anchors == Anchors(rs, kept, s.replay);
  }

  /** The stream after the streamed texts among the first `i` kept positions were finalized. */
  ghost predicate Finalizing(
    kept: seq<Position>, i: nat, outputs: map<Position, Pending>,
    before: seq<Envelope>, after: seq<Envelope>, first: nat, next: nat)
    requires Keeps(kept, outputs)
  {
    && i <= |kept|
    && Keeps(kept[..i], outputs)
    && var finals := Finals(kept[..i], outputs);
       Shows(before, after, finals, first) && next == first + |finals| && |finals| <= i
  }

  lemma FinalizingStart(
    kept: seq<Position>, outputs: map<Position, Pending>, before: seq<Envelope>, first: nat)
    requires Keeps(kept, outputs)
    ensures Finalizing(kept, 0, outputs, before, before, first, first)
  {
    assert kept[..0] == [];
    ShowsNothing(before, first);
  }

  lemma FinalizingNext(
    kept: seq<Position>, i: nat, outputs: map<Position, Pending>,
    before: seq<Envelope>, after: seq<Envelope>, first: nat, next: nat)
    requires Keeps(kept, outputs) && Finalizing(kept, i, outputs, before, after, first, next)
    requires i < |kept|
    ensures kept[i] in outputs && next <= first + i
    ensures var o := outputs[kept[i]];
            if o.IsText()
            then Finalizing(kept, i + 1, outputs, before, after + [Envelope(next, FinalEvent(o))],
                            first, next + 1)
            else Finalizing(kept, i + 1, outputs, before, after, first, next)
  {
    var o := outputs[kept[i]];
    assert kept[..i + 1][..i] == kept[..i];
    var finals := Finals(kept[..i], outputs);
    assert finals + [] == finals;
    if o.IsText() { ShowsNext(before, after, finals, FinalEvent(o), first); }
    hide Shows;
  }

  /** Finalizes a streamed text at the revision after its last delta. */
  method ShowFinal(o: Pending, writer: LiveWriter, reaction: Reaction)
    requires writer.nextEvent < U64_MAX
    modifies writer`nextEvent, reaction`events
    ensures reaction.events ==
              if o.IsText()
              then old(reaction.events) + [Envelope(old(writer.nextEvent), FinalEvent(o))]
              else old(reaction.events)
    ensures writer.nextEvent ==
              if o.IsText() then old(writer.nextEvent) + 1 else old(writer.nextEvent)
  {
    if o.IsText() {
      writer.Emit(reaction, FinalEvent(o));
    }
  }

  // ------------------------------------------------------------------ closing and aborting

  ghost function Built(s: StepState, a: Assembly): Option<Output> {
    if !Attachable(s, a.kept) then None
    else
      var output := Output(a.blocks, Attached(s, a.kept));
      if OutputAllowed(output) then Some(output) else None
  }

  /** The output entered the journal as one append to the selected head, and nothing else did. */
  ghost predicate Entered(
    agent: AgentId, step: StepId, output: Output, j: JournalState, j': JournalState,
    records: seq<Record>, records': seq<Record>)
  {
    && j.selected in j.heads
    && var r := PreparedAppend(j, AssistantOutput(agent, step, output));
       Applied(j, j', r) && records' == records + [r]
  }

  /** The blocks are assembled, and the tools that never ended were shown as failed. */
  ghost predicate Opened(
    s: StepState, a: Assembly, before: seq<Envelope>, after: seq<Envelope>, first: nat, next: nat)
  {
    && Whole(s.outputs, a)
    && var rows := FailedRows(Sorted(s.outputs.Keys), s.outputs);
       Shows(before, after, rows, first) && next == first + |rows|
  }

  lemma WholeFacts(s: StepState, a: Assembly)
    requires Whole(s.outputs, a) && Closable(s)
    ensures Ordinals(a.kept, a.ordinals) && Keeps(a.kept, s.outputs) && |a.kept| <= |s.outputs|
  {
    KeptFacts(s);
    hide Closable, Ordinals, Keeps;
  }

  lemma FailingFacts(s: StepState, before: seq<Envelope>, after: seq<Envelope>, first: nat, next: nat)
    requires Failing(Sorted(s.outputs.Keys), |s.outputs|, s.outputs, before, after, first, next)
    ensures var rows := FailedRows(Sorted(s.outputs.Keys), s.outputs);
            Shows(before, after, rows, first) && next == first + |rows|
    ensures next <= first + |s.outputs|
  {
    var ps := Sorted(s.outputs.Keys);
    assert |s.outputs.Keys| == |s.outputs|;
    assert ps[..|s.outputs|] == ps;
    hide Shows;
  }

  /** A position is shown as failed or left a block, never both. */
  lemma {:induction false} FailedOrKept(ps: seq<Position>, outputs: map<Position, Pending>)
    requires forall p <- ps :: p in outputs
    ensures |FailedRows(ps, outputs)| + |Kept(ps, outputs)| <= |ps|
  {
    if ps != [] {
      assert ps[|ps| - 1] in ps;
      FailedOrKept(ps[..|ps| - 1], outputs);
    }
  }

  lemma RoomToFinalize(s: StepState, a: Assembly)
    requires Whole(s.outputs, a)
    ensures |FailedRows(Sorted(s.outputs.Keys), s.outputs)| + |a.kept| <= |s.outputs|
  {
    FailedOrKept(Sorted(s.outputs.Keys), s.outputs);
    SortedCount(s.outputs);
    hide FailedRows, Kept, Ordinals, Blocks;
  }

  datatype Closed = Unreachable | Closed(calls: seq<ToolCall>)

  /** How closing shows in the journal, in the records handed outward and in the stream. */
  ghost predicate ClosedAs(
    closing: Closing, agent: AgentId, step: StepId, j: JournalState, j': JournalState,
    records: seq<Record>, records': seq<Record>, events: seq<Envelope>, events': seq<Envelope>,
    first: nat, next: nat, closed: Closed)
  {
    match closing
    case Nothing(rows) =>
      && closed == Closed([]) && j' == j && records' == records
      && Shows(events, events', rows, first) && next == first + |rows|
    case Panicked(rows) =>
      && closed == Unreachable && j' == j && records' == records
      && Shows(events, events', rows, first) && next == first + |rows|
    case Committed(output, rows, finals) =>
      && closed == Closed(CallsOf(output.blocks))
      && Entered(agent, step, output, j, j', records, records')
      && Shows(events, events', rows + finals, first) && next == first + |rows| + |finals|
  }

  lemma ClosedWithout(
    s: StepState, agent: AgentId, step: StepId, j: JournalState, records: seq<Record>,
    before: seq<Envelope>, after: seq<Envelope>, first: nat, next: nat, closed: Closed, a: Assembly)
    requires Opened(s, a, before, after, first, next)
    requires if a.blocks == [] then closed == Closed([])
             else closed == Unreachable && Built(s, a).None?
    ensures ClosedAs(Close(s), agent, step, j, j, records, records, before, after, first, next, closed)
  {
    hide Shows, OutputAllowed, Attached, Blocks, Sorted, Kept, FailedRows, Finals;
  }

  lemma BlocksLeft(
    s: StepState, a: Assembly, before: seq<Envelope>, after: seq<Envelope>, first: nat, next: nat)
    requires Closable(s) && Opened(s, a, before, after, first, next) && a.blocks != []
    ensures AnyBlock(s)
  {
    BlocksSurvive(s);
    hide Closable, AnyBlock, Shows, Kept;
  }

  lemma BuiltCloses(s: StepState, a: Assembly)
    requires Whole(s.outputs, a) && a.blocks != [] && Built(s, a).Some? && Keeps(a.kept, s.outputs)
    ensures StepClosing.Close(s) ==
              Committed(Built(s, a).value, FailedRows(Sorted(s.outputs.Keys), s.outputs),
                        Finals(a.kept, s.outputs))
    ensures Built(s, a).value.blocks == a.blocks
  {
    hide OutputAllowed, Attached, Blocks, Sorted, Kept, FailedRows, Finals, Ordinals, OneRealm;
  }

  lemma ShowsBoth(
    before: seq<Envelope>, shown: seq<Envelope>, after: seq<Envelope>, rows: seq<Event>,
    finals: seq<Event>, first: nat)
    requires Shows(before, shown, rows, first) && Shows(shown, after, finals, first + |rows|)
    ensures Shows(before, after, rows + finals, first)
  {
    NumberedMore(before, rows, finals, first);
    hide Numbered;
  }

  lemma FinalizedAll(
    kept: seq<Position>, outputs: map<Position, Pending>,
    before: seq<Envelope>, after: seq<Envelope>, first: nat, next: nat)
    requires Keeps(kept, outputs) && Finalizing(kept, |kept|, outputs, before, after, first, next)
    ensures Shows(before, after, Finals(kept, outputs), first)
    ensures next == first + |Finals(kept, outputs)|
  {
    assert kept[..|kept|] == kept;
    hide Shows, Finals, Keeps;
  }

  lemma ClosedWith(
    s: StepState, agent: AgentId, step: StepId, j: JournalState, j': JournalState,
    records: seq<Record>, records': seq<Record>, before: seq<Envelope>, shown: seq<Envelope>,
    after: seq<Envelope>, first: nat, middle: nat, next: nat, closed: Closed, a: Assembly)
    requires Opened(s, a, before, shown, first, middle) && a.blocks != [] && Built(s, a).Some?
    requires Keeps(a.kept, s.outputs)
    requires Finalizing(a.kept, |a.kept|, s.outputs, shown, after, middle, next)
    requires Entered(agent, step, Built(s, a).value, j, j', records, records')
    requires closed == Closed(CallsOf(a.blocks))
    ensures ClosedAs(Close(s), agent, step, j, j', records, records', before, after, first, next, closed)
  {
    hide Close, Built, Finals, FailedRows, Sorted, Whole, Finalizing, Shows, Entered, CallsOf, Keeps;
    BuiltCloses(s, a);
    FinalizedAll(a.kept, s.outputs, shown, after, middle, next);
    ShowsBoth(before, shown, after, FailedRows(Sorted(s.outputs.Keys), s.outputs),
              Finals(a.kept, s.outputs), first);
  }

  lemma InvCloses(s: StepState)
    requires StepInv(s)
    ensures Closable(s)
    ensures StepClosing.Close(s).Panicked? <==>
              AnyBlock(s) && (UnfinishedHoldsReplay(s) || OversizedCall(s) || HollowText(s))
  {
    hide StepClosing.Close, Sum, AllWellPlaced, CallsDistinct, ReplayAnchored;
    ClosePanicsIff(s);
  }

  lemma NoneHeld(s: StepState)
    requires !AnyBlock(s)
    ensures CallsHeld(s.outputs, [])
  {
    assert CallPlaces(s.outputs) == {};
  }

  /** The calls a closed step hands back are those it retained, in ascending order of position. */
  lemma ReturnedCalls(
    s: StepState, agent: AgentId, step: StepId, j: JournalState, j': JournalState,
    records: seq<Record>, records': seq<Record>, events: seq<Envelope>, events': seq<Envelope>,
    first: nat, next: nat, closed: Closed)
    requires Closable(s)
    requires ClosedAs(StepClosing.Close(s), agent, step, j, j', records, records', events, events',
                      first, next, closed)
    ensures closed.Closed? ==> CallsHeld(s.outputs, closed.calls)
  {
    hide StepClosing.Close, Entered, Shows, KeptOf, AllWellPlaced, CallsDistinct, ReplayAnchored, Sum;
    hide AnyBlock, CallsHeld, Blocks, Ascends, Keeps, CallsOf;
    ClosePanicsIff(s);
    if StepClosing.Close(s).Committed? {
      KeptFacts(s);
      CommittedKeeps(s);
      CallsAreHeld(s.outputs, KeptOf(s));
    } else if StepClosing.Close(s).Nothing? {
      NoneHeld(s);
    }
  }

  lemma ClosedPanics(
    closing: Closing, agent: AgentId, step: StepId, j: JournalState, j': JournalState,
    records: seq<Record>, records': seq<Record>, events: seq<Envelope>, events': seq<Envelope>,
    first: nat, next: nat, closed: Closed)
    requires ClosedAs(closing, agent, step, j, j', records, records', events, events', first, next, closed)
    ensures closed.Unreachable? <==> closing.Panicked?
  {
  }

  ghost predicate NoCallPends(s: StepState) {
    forall p <- s.outputs :: !s.outputs[p].PendingCall?
  }

  lemma {:induction false} NoCalls(blocks: seq<Block>)
    requires forall b <- blocks :: !b.Call?
    ensures CallsOf(blocks) == []
  {
    if blocks != [] {
      assert blocks[|blocks| - 1] in blocks;
      NoCalls(blocks[..|blocks| - 1]);
    }
  }

  lemma AbortedCalls(
    s: StepState, agent: AgentId, step: StepId, j: JournalState, j': JournalState,
    records: seq<Record>, records': seq<Record>, events: seq<Envelope>, events': seq<Envelope>,
    first: nat, next: nat, closed: Closed)
    requires NoCallPends(s)
    requires ClosedAs(StepClosing.Close(s), agent, step, j, j', records, records', events, events',
                      first, next, closed)
    ensures closed.Unreachable? || closed == Closed([])
  {
    hide StepClosing.Close, Entered, Shows, KeptOf;
    if StepClosing.Close(s).Committed? {
      CommittedKeeps(s);
      NoCallKept(s.outputs, KeptOf(s));
      NoCalls(Blocks(KeptOf(s), s.outputs));
    }
  }

  lemma AbortedDropsCalls(s: StepState)
    ensures NoCallPends(Aborted(s)) && |Aborted(s).outputs| <= |s.outputs|
  {
    var s' := Aborted(s);
    KeysShrink(s'.outputs.Keys, s.outputs.Keys);
    assert |s'.outputs.Keys| == |s'.outputs| && |s.outputs.Keys| == |s.outputs|;
  }

  // ------------------------------------------------------------------ the step

  class Step {
    const agent: AgentId
    const step: StepId
    var outputs: map<Position, Pending>
    var replay: map<Position, ProviderReplay>
    var textBytes: nat
    var argumentBytes: nat
    var replayBytes: nat
    var lastVisible: Option<Position>

    function State(): StepState
      reads this
    {
      StepState(agent, step, outputs, replay, textBytes, argumentBytes, replayBytes, lastVisible)
    }

    constructor (agent: AgentId, step: StepId)
      ensures State() == NewStep(agent, step) && StepInv(State())
    {
      this.agent, this.step := agent, step;
      outputs, replay := map[], map[];
      textBytes, argumentBytes, replayBytes := 0, 0, 0;
      lastVisible := None;
      new;
      NewStepKeeps(agent, step);
    }

    method Reserve(p: Position) returns (verdict: Verdict<StepError>)
      ensures verdict == Need(!NoRoom(State(), p), TooManyOutputBlocks)
    {
      if p !in outputs && |outputs| >= U16_MAX {
        return Refused(TooManyOutputBlocks);
      }
      return Accepted;
    }

    /** Reserves a place for text, which may not open behind the last text already shown. */
    method ReserveVisible(p: Position) returns (verdict: Verdict<StepError>)
      modifies this`lastVisible
      ensures verdict ==
                if NoRoom(old(State()), p) then Refused(TooManyOutputBlocks)
                else if Vacant(old(State()), p) && BehindVisible(old(State()), p)
                then Refused(OutOfOrderOutputPosition)
                else Accepted
      ensures lastVisible ==
                if verdict.Accepted? && Vacant(old(State()), p) then Some(p) else old(lastVisible)
    {
      verdict := Reserve(p);
      if verdict.Refused? { return; }
      if p !in outputs || outputs[p].PendingReplay? {
        if lastVisible.Some? && p.Less(lastVisible.value) {
          return Refused(OutOfOrderOutputPosition);
        }
        lastVisible := Some(p);
      }
    }

    /** Makes every check of an append, and reserves the position of a text that opens. */
    method PlaceText(p: Position, role: Role, size: nat) returns (verdict: Verdict<StepError>)
      modifies this`lastVisible
      ensures verdict == TextVerdict(old(State()), p, role, size)
      ensures lastVisible ==
                if verdict.Accepted? && Vacant(old(State()), p) then Some(p) else old(lastVisible)
    {
      if textBytes + size > MAX_TEXT_BYTES {
        return Refused(TextTooLarge);
      }
      verdict := ReserveVisible(p);
      if verdict.Accepted? && !RoleMatches(StreamedAt(State(), p, role), role) {
        return Refused(ConflictingPosition);
      }
    }

    method AppendText(
      writer: LiveWriter, reaction: Reaction, p: Position, role: Role, delta: string)
      returns (verdict: Verdict<StepError>)
      requires StepInv(State()) && writer.nextEvent + 2 <= U64_MAX
      modifies this`outputs, this`textBytes, this`lastVisible, writer`nextEvent, reaction`events
      ensures StepInv(State())
      ensures Reported(StepAssembly.AppendText(old(State()), p, role, delta), old(State()), State(),
                       verdict, old(reaction.events), reaction.events,
                       old(writer.nextEvent), writer.nextEvent)
    {
      hide StepInv, GrowthEvents, Grown, StreamedAt, TextVerdict, Vacant, Reported, Numbered;
      hide StepAssembly.AppendText;
      ghost var s := State();
      verdict := PlaceText(p, role, |delta|);
      if verdict.Accepted? {
        StreamedSame(s, State(), p, role, |delta|);
        var output := StreamedAt(State(), p, role);
        var grown := Grow(output.streamed, delta, writer, reaction);
        outputs := outputs[p := output.(streamed := grown)];
        textBytes := textBytes + |delta|;
      }
      TextAnswered(s, p, role, delta, State(), verdict, old(reaction.events), reaction.events,
                   old(writer.nextEvent), writer.nextEvent);
    }

    method CheckReplay(p: Position, arrived: ProviderReplay) returns (verdict: Verdict<StepError>)
      requires StepInv(State())
      ensures verdict == ReplayVerdict(State(), p, arrived)
    {
      FirstRealm(State(), arrived);
      hide StepInv, OtherRealm;
      verdict := Reserve(p);
      if verdict.Refused? { return; }
      var kept := Sorted(replay.Keys);
      if kept != [] && replay[kept[0]].realm != arrived.realm {
        return Refused(MixedReplayCompatibility);
      }
      if p in replay {
        return Refused(DuplicateReplayPosition);
      }
      if replayBytes + |arrived.payload| > MAX_REPLAY_BYTES {
        return Refused(ReplayTooLarge);
      }
    }

    /** A replay that arrives first holds its position until something visible takes it over. */
    method Occupy(p: Position)
      modifies this`outputs
      ensures outputs == OutputsWithReplay(old(State()), p)
    {
      if p !in outputs {
        outputs := outputs[p := PendingReplay(StreamItem(step, Reasoning, p))];
      }
    }

    method RetainReplay(p: Position, arrived: ProviderReplay) returns (verdict: Verdict<StepError>)
      requires StepInv(State()) && arrived.payload != ""
      modifies this`outputs, this`replay, this`replayBytes
      ensures StepInv(State())
      ensures Answered(StepAssembly.RetainReplay(old(State()), p, arrived), old(State()), State(), verdict)
    {
      hide StepInv, ReplayVerdict, OutputsWithReplay, Answered, StepAssembly.RetainReplay;
      ghost var s := State();
      verdict := CheckReplay(p, arrived);
      if verdict.Accepted? {
        Occupy(p);
        replay := replay[p := arrived];
        replayBytes := replayBytes + |arrived.payload|;
      }
      ReplayAnswered(s, p, arrived, State(), verdict);
    }

    method CheckCall(p: Position, call: ToolCall) returns (verdict: Verdict<StepError>)
      ensures verdict == CallVerdict(State(), p, call)
    {
      if ContainsCall(State(), call.id) {
        return Refused(DuplicateToolCallId);
      }
      if |call.id| > MAX_IDENTITY_BYTES || |call.name| > MAX_IDENTITY_BYTES {
        return Refused(ToolIdentityTooLarge);
      }
      if argumentBytes + |call.arguments| > MAX_ARGUMENT_BYTES {
        return Refused(ToolArgumentsTooLarge);
      }
      verdict := Reserve(p);
      if verdict.Accepted? && p in outputs {
        return Refused(ConflictingPosition);
      }
    }

    method Collect(p: Position, call: ToolCall) returns (verdict: Verdict<StepError>)
      requires StepInv(State())
      modifies this`outputs, this`argumentBytes
      ensures StepInv(State())
      ensures Answered(StepAssembly.Collect(old(State()), p, call), old(State()), State(), verdict)
    {
      hide StepInv, CallVerdict, StepAssembly.Collect;
      ghost var s := State();
      CallOutcome(s, p, call);
      ghost var outcome := StepAssembly.Collect(s, p, call);
      verdict := CheckCall(p, call);
      if verdict.Refused? { return; }
      outputs := outputs[p := PendingCall(ToolItem(agent, call.id), call)];
      argumentBytes := argumentBytes + |call.arguments|;
      assert outputs == outcome.state.outputs;
      assert State() == outcome.state;
    }

    method NoteServerToolStarted(writer: LiveWriter, reaction: Reaction, p: Position, tool: string)
      returns (verdict: Verdict<StepError>)
      requires StepInv(State()) && writer.nextEvent + 1 <= U64_MAX
      modifies this`outputs, writer`nextEvent, reaction`events
      ensures StepInv(State())
      ensures Reported(StepAssembly.NoteServerToolStarted(old(State()), p, tool),
                       old(State()), State(), verdict, old(reaction.events), reaction.events,
                       old(writer.nextEvent), writer.nextEvent)
    {
      hide StepInv, Numbered, StepAssembly.NoteServerToolStarted;
      ghost var s := State();
      RowOutcome(s, p, tool);
      ghost var outcome := StepAssembly.NoteServerToolStarted(s, p, tool);
      verdict := Reserve(p);
      if verdict.Refused? { return; }
      var item := StreamItem(step, Assistant, p);
      if p in outputs && !outputs[p].PendingReplay? {
        return Refused(ConflictingPosition);
      }
      outputs := outputs[p := PendingServerStarted(item, tool)];
      NumberedTwo(reaction.events, ServerToolStarted(item, tool), AgentIdle, writer.nextEvent);
      writer.Emit(reaction, ServerToolStarted(item, tool));
      assert outputs == outcome.state.outputs;
      assert State() == outcome.state;
    }

    /** Checks a finished provider-run call, and finds the revision that reports it. */
    method CheckServerCall(p: Position, call: ServerCall)
      returns (verdict: Verdict<StepError>, revision: nat)
      ensures verdict == ServerVerdict(State(), p, call)
      ensures verdict.Accepted? ==> revision == if Vacant(State(), p) then 0 else 1
    {
      revision := 0;
      if |call.text| > MAX_REQUESTED_BYTES || argumentBytes + |call.text| > MAX_ARGUMENT_BYTES {
        return Refused(ToolArgumentsTooLarge), 0;
      }
      verdict := Reserve(p);
      if verdict.Accepted? && p in outputs && !outputs[p].PendingReplay? {
        if !(outputs[p].PendingServerStarted? && outputs[p].tool == call.tool) {
          return Refused(ConflictingPosition), 0;
        }
        revision := 1;
      }
    }

    method NoteServerTool(writer: LiveWriter, reaction: Reaction, p: Position, call: ServerCall)
      returns (verdict: Verdict<StepError>)
      requires StepInv(State()) && writer.nextEvent + 1 <= U64_MAX
      modifies this`outputs, this`argumentBytes, writer`nextEvent, reaction`events
      ensures StepInv(State())
      ensures Reported(StepAssembly.NoteServerTool(old(State()), p, call),
                       old(State()), State(), verdict, old(reaction.events), reaction.events,
                       old(writer.nextEvent), writer.nextEvent)
    {
      hide StepInv, ServerVerdict, Vacant, Numbered, StepAssembly.NoteServerTool;
      ghost var s := State();
      ServerOutcome(s, p, call);
      ghost var outcome := StepAssembly.NoteServerTool(s, p, call);
      var revision;
      verdict, revision := CheckServerCall(p, call);
      if verdict.Refused? { return; }
      var item := StreamItem(step, Assistant, p);
      outputs := outputs[p := PendingServerCall(item, call)];
      argumentBytes := argumentBytes + |call.text|;
      NumberedTwo(reaction.events, ServerToolCalled(item, revision, call), AgentIdle, writer.nextEvent);
      writer.Emit(reaction, ServerToolCalled(item, revision, call));
      assert outputs == outcome.state.outputs;
      assert State() == outcome.state;
    }

    /**
     * The blocks of the surviving positions in order, with the ordinal each position got; every
     * provider-run tool that never ended is shown as failed on the way.
     */
    method Assemble(writer: LiveWriter, reaction: Reaction) returns (assembly: Assembly)
      requires writer.nextEvent + |outputs| <= U64_MAX
      modifies writer`nextEvent, reaction`events
      ensures Whole(outputs, assembly)
      ensures Failing(Sorted(outputs.Keys), |outputs|, outputs, old(reaction.events), reaction.events,
                      old(writer.nextEvent), writer.nextEvent)
    {
      hide *;
      var ps := Sorted(outputs.Keys);
      assembly := Assembly([], [], map[]);
      var i := 0;
      AssembledStart(ps, outputs);
      FailingStart(ps, outputs, reaction.events, writer.nextEvent);
      SortedCount(outputs);
      while i < |ps|
        invariant i <= |ps| == |outputs|
        invariant Assembled(ps, i, outputs, assembly)
        invariant Failing(ps, i, outputs, old(reaction.events), reaction.events,
                          old(writer.nextEvent), writer.nextEvent)
      {
        var p := ps[i];
        AssembledNext(ps, i, outputs, assembly);
        FailingNext(ps, i, outputs, old(reaction.events), reaction.events,
                    old(writer.nextEvent), writer.nextEvent);
        assembly := Place(assembly, p, outputs[p]);
        ShowUnfinished(outputs[p], writer, reaction);
        i := i + 1;
      }
      AssembledEnd(outputs, assembly);
    }

    /** Anchors every retained replay at its own block; fails on one whose position left no block. */
    method Attach(kept: seq<Position>, ordinals: map<Position, nat>)
      returns (ok: bool, attached: Option<AssistantReplay>)
      requires Ordinals(kept, ordinals)
      ensures ok <==> Attachable(State(), kept)
      ensures ok ==> attached == Attached(State(), kept)
    {
      var rs := Sorted(replay.Keys);
      var anchors: seq<Attachment> := [];
      var i := 0;
      ghost var s := State();
      hide Anchoring, Attachable, Ordinals, Sorted, Ascends, Attached, IndexOf;
      AnchoringStart(rs, kept, replay);
      while i < |rs|
        invariant i <= |rs|
        invariant Anchoring(rs, i, kept, replay, anchors)
      {
        var p := rs[i];
        AnchoringNext(s, rs, i, kept, ordinals, anchors);
        if p !in ordinals || replay[p].realm != replay[rs[0]].realm {
          return false, None;
        }
        anchors := anchors + [Attachment(ordinals[p], replay[p].payload)];
        i := i + 1;
      }
      AnchoringEnd(s, rs, kept, anchors);
      ok := true;
      attached := if rs == [] then None else Some(AssistantReplay(replay[rs[0]].realm, anchors));
    }

    /** Finalizes every streamed text that left a block, in order. */
    method Finalize(kept: seq<Position>, writer: LiveWriter, reaction: Reaction)
      requires Keeps(kept, outputs) && writer.nextEvent + |kept| <= U64_MAX
      modifies writer`nextEvent, reaction`events
      ensures Finalizing(kept, |kept|, outputs, old(reaction.events), reaction.events,
                         old(writer.nextEvent), writer.nextEvent)
    {
      var i := 0;
      FinalizingStart(kept, outputs, reaction.events, writer.nextEvent);
      hide Finalizing, Keeps, Contiguous;
      while i < |kept|
        invariant i <= |kept|
        invariant Finalizing(kept, i, outputs, old(reaction.events), reaction.events,
                             old(writer.nextEvent), writer.nextEvent)
      {
        FinalizingNext(kept, i, outputs, old(reaction.events), reaction.events,
                       old(writer.nextEvent), writer.nextEvent);
        ShowFinal(outputs[kept[i]], writer, reaction);
        i := i + 1;
      }
    }

    /** The output of the assembled blocks, if its parts make one. */
    method BuildOutput(assembly: Assembly) returns (built: Option<Output>)
      requires Ordinals(assembly.kept, assembly.ordinals)
      ensures built == Built(State(), assembly)
    {
      hide Attachable, OutputAllowed, Ordinals, Attached;
      var ok, attached := Attach(assembly.kept, assembly.ordinals);
      if !ok { return None; }
      var output := Output(assembly.blocks, attached);
      built := if OutputAllowed(output) then Some(output) else None;
    }

    /** Commits the output as the step's one entry, then finalizes what was streamed. */
    method CommitOutput(output: Output, kept: seq<Position>, writer: LiveWriter, reaction: Reaction)
      requires Keeps(kept, State().outputs) && writer.Valid()
      requires ExpectsOutput(writer.journal.State(), agent, step)
      requires writer.nextEvent + |kept| <= U64_MAX
      modifies writer`nextEvent, writer`announced, writer.journal, reaction
      ensures writer.Valid()
      ensures Entered(agent, step, output, old(writer.journal.State()), writer.journal.State(),
                      old(reaction.records), reaction.records)
      ensures Finalizing(kept, |kept|, State().outputs, old(reaction.events), reaction.events,
                         old(writer.nextEvent), writer.nextEvent)
    {
      hide Live, Applied, PreparedAppend, PayloadAccepted, ExpectsOutput, Finalizing, Keeps;
      writer.IsLive();
      ExpectedIsAwaited(writer.journal.State(), agent, step, output);
      writer.Commit(AssistantOutput(agent, step, output), reaction);
      Finalize(kept, writer, reaction);
    }

    /** Assembles the blocks; the journal is not touched yet. */
    method Begin(writer: LiveWriter, reaction: Reaction) returns (assembly: Assembly)
      requires Closable(State()) && writer.Valid()
      requires writer.nextEvent + |outputs| <= U64_MAX
      modifies writer`nextEvent, reaction`events
      ensures writer.Valid() && writer.journal.State() == old(writer.journal.State())
      ensures Opened(State(), assembly, old(reaction.events), reaction.events,
                     old(writer.nextEvent), writer.nextEvent)
      ensures Ordinals(assembly.kept, assembly.ordinals) && Keeps(assembly.kept, State().outputs)
      ensures writer.nextEvent + |assembly.kept| <= U64_MAX
    {
      hide Closable, Failing, Whole, Shows, Ordinals, Keeps, Sorted;
      assembly := Assemble(writer, reaction);
      WholeFacts(State(), assembly);
      FailingFacts(State(), old(reaction.events), reaction.events, old(writer.nextEvent),
                   writer.nextEvent);
      RoomToFinalize(State(), assembly);
    }

    /** Closes the step: nothing survives, the output cannot be built, or it is committed. */
    method CloseRetained(writer: LiveWriter, reaction: Reaction) returns (closed: Closed)
      requires Closable(State()) && writer.Valid()
      requires AnyBlock(State()) ==> ExpectsOutput(writer.journal.State(), agent, step)
      requires writer.nextEvent + |outputs| <= U64_MAX
      modifies writer`nextEvent, writer`announced, writer.journal, reaction
      ensures writer.Valid()
      ensures ClosedAs(StepClosing.Close(State()), agent, step,
                       old(writer.journal.State()), writer.journal.State(),
                       old(reaction.records), reaction.records,
                       old(reaction.events), reaction.events,
                       old(writer.nextEvent), writer.nextEvent, closed)
    {
      hide *;
      ghost var s, j, first := State(), writer.journal.State(), writer.nextEvent;
      ghost var before := reaction.events;
      var assembly := Begin(writer, reaction);
      var built := BuildOutput(assembly);
      ghost var shown, middle := reaction.events, writer.nextEvent;
      if assembly.blocks == [] || built.None? {
        closed := if assembly.blocks == [] then Closed([]) else Unreachable;
        ClosedWithout(s, agent, step, j, reaction.records, before, shown, first, middle, closed, assembly);
      } else {
        BlocksLeft(s, assembly, before, shown, first, middle);
        CommitOutput(built.value, assembly.kept, writer, reaction);
        closed := Closed(CallsOf(assembly.blocks));
        ClosedWith(s, agent, step, j, writer.journal.State(), old(reaction.records), reaction.records,
                   before, shown, reaction.events, first, middle, writer.nextEvent, closed, assembly);
      }
    }

    /**
     * Ends a finished step and returns the calls its turn must run. It reaches code the source calls
     * unreachable exactly when a block survives and an unfinished tool holds a replay, a call's
     * arguments are oversized or a text is hollow.
     */
    method Close(writer: LiveWriter, reaction: Reaction) returns (closed: Closed)
      requires StepInv(State()) && writer.Valid()
      requires AnyBlock(State()) ==> ExpectsOutput(writer.journal.State(), agent, step)
      requires writer.nextEvent + |outputs| <= U64_MAX
      modifies writer`nextEvent, writer`announced, writer.journal, reaction
      ensures writer.Valid()
      ensures ClosedAs(StepClosing.Close(State()), agent, step,
                       old(writer.journal.State()), writer.journal.State(),
                       old(reaction.records), reaction.records,
                       old(reaction.events), reaction.events,
                       old(writer.nextEvent), writer.nextEvent, closed)
      ensures closed.Unreachable? <==>
                && AnyBlock(State())
                && (UnfinishedHoldsReplay(State()) || OversizedCall(State()) || HollowText(State()))
      ensures closed.Closed? ==> CallsHeld(State().outputs, closed.calls)
    {
      hide *;
      ghost var s := State();
      InvCloses(s);
      closed := CloseRetained(writer, reaction);
      ReturnedCalls(s, agent, step, old(writer.journal.State()), writer.journal.State(),
                    old(reaction.records), reaction.records, old(reaction.events), reaction.events,
                    old(writer.nextEvent), writer.nextEvent, closed);
      ClosedPanics(StepClosing.Close(s), agent, step, old(writer.journal.State()), writer.journal.State(),
                   old(reaction.records), reaction.records, old(reaction.events), reaction.events,
                   old(writer.nextEvent), writer.nextEvent, closed);
    }

    /**
     * Ends an interrupted step: the calls nobody will run are dropped before it closes. It reaches
     * unreachable code exactly when another block survives and an unfinished tool holds a replay or a
     * text is hollow.
     */
    method Abort(writer: LiveWriter, reaction: Reaction) returns (closed: Closed)
      requires StepInv(State()) && writer.Valid()
      requires AnyBlock(Aborted(State())) ==> ExpectsOutput(writer.journal.State(), agent, step)
      requires writer.nextEvent + |outputs| <= U64_MAX
      modifies this`outputs, this`replay
      modifies writer`nextEvent, writer`announced, writer.journal, reaction
      ensures writer.Valid() && State() == Aborted(old(State()))
      ensures ClosedAs(StepClosing.Close(State()), agent, step,
                       old(writer.journal.State()), writer.journal.State(),
                       old(reaction.records), reaction.records,
                       old(reaction.events), reaction.events,
                       old(writer.nextEvent), writer.nextEvent, closed)
      ensures closed.Unreachable? || closed == Closed([])
      ensures closed.Unreachable? <==> AbortPanics(old(State()))
    {
      hide *;
      AbortPanicsIff(State());
      DropCalls();
      ghost var s := State();
      closed := CloseRetained(writer, reaction);
      ClosedPanics(StepClosing.Close(s), agent, step, old(writer.journal.State()), writer.journal.State(),
                   old(reaction.records), reaction.records, old(reaction.events), reaction.events,
                   old(writer.nextEvent), writer.nextEvent, closed);
      AbortedCalls(s, agent, step, old(writer.journal.State()), writer.journal.State(),
                   old(reaction.records), reaction.records, old(reaction.events), reaction.events,
                   old(writer.nextEvent), writer.nextEvent, closed);
    }

    method DropCalls()
      requires StepInv(State())
      modifies this`outputs, this`replay
      ensures State() == Aborted(old(State())) && Closable(State())
      ensures NoCallPends(State()) && |outputs| <= old(|outputs|)
    {
      AbortedClosable(State());
      AbortedDropsCalls(State());
      hide StepInv, Closable, NoCallPends;
      outputs := map p | p in outputs && !outputs[p].PendingCall? :: outputs[p];
      replay := map p | p in replay && p in outputs :: replay[p];
    }
  }
}
