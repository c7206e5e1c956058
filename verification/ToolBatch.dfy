/** One step's tool calls: a slot per call in model order, each ending exactly once. */
module ToolBatch {
  import opened Options
  import opened ModelOutput

  type ApprovalId = string

  type AttentionId = string

  datatype CancelReason = Interrupted | StepFailed | Shutdown | ProcessDied

  datatype ToolOutcome =
    | Succeeded(output: string)
    | Failed(message: string)
    | AdmissionRefused(refusal: string)
    | PermissionRefused(refusal: string)
    | Forbidden
    | Denied
    | Cancelled(reason: CancelReason)

  /** A request the catalog admitted, with what the transcript shows of its invocation. */
  datatype AdmittedCall = AdmittedCall(requested: ToolCall, invocation: Option<string>)

  datatype PendingApproval = PendingApproval(
    approval: ApprovalId, attention: AttentionId, turn: TurnId, admitted: AdmittedCall)

  datatype CallState =
    | AwaitingAdmission
    | AwaitingApproval(pending: PendingApproval)
    | Running(admitted: AdmittedCall)
    | Finished(outcome: ToolOutcome)

  datatype Presentation = Presentation(invocation: Option<string>, outcome: Option<string>)

  datatype Slot = Slot(
    requested: ToolCall, state: CallState, entry: ItemId, revision: nat, presentation: Presentation)

  datatype Decision = Allow | Deny

  datatype Resolution =
    | Run(attention: AttentionId, admitted: AdmittedCall)
    | DeniedCall(attention: AttentionId, call: CallId)

  datatype AbandonedCall = AbandonedCall(call: CallId, attention: Option<AttentionId>)

  function ReasonName(reason: CancelReason): string {
    match reason
    case Interrupted => "interrupted"
    case StepFailed => "step_failed"
    case Shutdown => "shutdown"
    case ProcessDied => "process_died"
  }

  /** What the transcript shows of an outcome no executor produced. */
  function UnexecutedOutcome(outcome: ToolOutcome): Option<string> {
    match outcome
    case AdmissionRefused(refusal) => Some("admission refused: " + refusal)
    case PermissionRefused(refusal) => Some("permission refused: " + refusal)
    case Forbidden => Some("forbidden by policy")
    case Denied => Some("denied by user")
    case Cancelled(reason) => Some("cancelled: " + ReasonName(reason))
    case Succeeded(_) => None
    case Failed(_) => None
  }

  // ------------------------------------------------------------------ one transition of one slot

  /** Every operation that addresses one call. */
  datatype Transition =
    | Start(admitted: AdmittedCall)
    | Ask(pending: PendingApproval)
    | FinishBeforeRun(call: CallId, outcome: ToolOutcome, invocation: Option<string>)
    | Resolve(approval: ApprovalId, decision: Decision)
    | Settle(call: CallId, outcome: ToolOutcome, shown: Option<string>)

  /** Whether the transition is addressed to this slot. */
  predicate Addresses(t: Transition, slot: Slot) {
    match t
    case Start(admitted) => slot.requested.id == admitted.requested.id
    case Ask(pending) => slot.requested.id == pending.admitted.requested.id
    case FinishBeforeRun(call, _, _) => slot.requested.id == call
    case Resolve(approval, _) =>
      slot.state.AwaitingApproval? && slot.state.pending.approval == approval
    case Settle(call, _, _) => slot.requested.id == call
  }

  /** Whether the addressed slot is in a state the transition leaves. */
  predicate Allows(slot: Slot, t: Transition) {
    match t
    case Start(admitted) => slot.requested == admitted.requested && slot.state.AwaitingAdmission?
    case Ask(pending) =>
      slot.requested == pending.admitted.requested && slot.state.AwaitingAdmission?
    case FinishBeforeRun(_, _, _) => slot.state.AwaitingAdmission?
    case Resolve(_, _) => slot.state.AwaitingApproval?
    case Settle(_, _, _) => slot.state.Running?
  }

  function Moved(slot: Slot, t: Transition): Slot
    requires Allows(slot, t)
  {
    var next := slot.(revision := SaturatingNext(slot.revision));
    match t
    case Start(admitted) =>
      next.(state := Running(admitted),
            presentation := slot.presentation.(invocation := admitted.invocation))
    case Ask(pending) =>
      next.(state := AwaitingApproval(pending),
            presentation := slot.presentation.(invocation := pending.admitted.invocation))
    case FinishBeforeRun(_, outcome, invocation) =>
      next.(state := Finished(outcome),
            presentation := Presentation(invocation, UnexecutedOutcome(outcome)))
    case Resolve(_, Allow) =>
      var admitted := slot.state.pending.admitted;
      next.(state := Running(admitted),
            presentation := slot.presentation.(invocation := admitted.invocation))
    case Resolve(_, Deny) =>
      next.(state := Finished(Denied),
            presentation := slot.presentation.(outcome := UnexecutedOutcome(Denied)))
    case Settle(_, outcome, shown) =>
      next.(state := Finished(outcome), presentation := slot.presentation.(outcome := shown))
  }

  /** The first slot addressed, or the number of slots. */
  function Find(slots: seq<Slot>, t: Transition): (i: nat)
    ensures i <= |slots|
    ensures i < |slots| ==> Addresses(t, slots[i])
    ensures forall j :: 0 <= j < i ==> !Addresses(t, slots[j])
  {
    if slots == [] || Addresses(t, slots[0]) then 0 else 1 + Find(slots[1..], t)
  }

  lemma FindIsFirst(slots: seq<Slot>, t: Transition, i: nat)
    requires i <= |slots| && (i < |slots| ==> Addresses(t, slots[i]))
    requires forall j :: 0 <= j < i ==> !Addresses(t, slots[j])
    ensures Find(slots, t) == i
  {
    hide Addresses;
    var found := Find(slots, t);
    assert found < |slots| ==> Addresses(t, slots[found]);
  }

  predicate Takes(slots: seq<Slot>, t: Transition) {
    Find(slots, t) < |slots| && Allows(slots[Find(slots, t)], t)
  }

  /** A transition nobody is addressed by, or whose slot is elsewhere, changes nothing. */
  function After(slots: seq<Slot>, t: Transition): seq<Slot> {
    if Takes(slots, t) then slots[Find(slots, t) := Moved(slots[Find(slots, t)], t)] else slots
  }

  function Cancelling(slot: Slot, reason: CancelReason): Slot {
    if slot.state.Finished? then slot
    else
      slot.(state := Finished(Cancelled(reason)), revision := SaturatingNext(slot.revision),
            presentation := slot.presentation.(outcome := UnexecutedOutcome(Cancelled(reason))))
  }

  function AllCancelled(slots: seq<Slot>, reason: CancelReason): (after: seq<Slot>)
    ensures |after| == |slots|
    ensures forall i :: 0 <= i < |slots| ==> after[i] == Cancelling(slots[i], reason)
  {
    seq(|slots|, i requires 0 <= i < |slots| => Cancelling(slots[i], reason))
  }

  predicate Settled(slots: seq<Slot>) {
    forall i :: 0 <= i < |slots| ==> slots[i].state.Finished?
  }

  function Owed(slot: Slot): AbandonedCall {
    AbandonedCall(slot.requested.id,
                  if slot.state.AwaitingApproval? then Some(slot.state.pending.attention) else None)
  }

  /** The calls still unanswered, in model order, each with the attention its approval holds. */
  function Debts(slots: seq<Slot>): seq<AbandonedCall> {
    if slots == [] then []
    else
      var last := slots[|slots| - 1];
      Debts(slots[..|slots| - 1]) + (if last.state.Finished? then [] else [Owed(last)])
  }

  function Opened(calls: seq<(ToolCall, ItemId)>): (slots: seq<Slot>)
    ensures |slots| == |calls|
    ensures forall i :: 0 <= i < |calls| ==>
              slots[i] == Slot(calls[i].0, AwaitingAdmission, calls[i].1, 0, Presentation(None, None))
  {
    seq(|calls|, i requires 0 <= i < |calls| =>
      Slot(calls[i].0, AwaitingAdmission, calls[i].1, 0, Presentation(None, None)))
  }

  // ------------------------------------------------------------------ what one transition does, said over states

  /** `i` is the first slot of this call. */
  ghost predicate FirstOf(slots: seq<Slot>, i: nat, call: CallId) {
    && i < |slots| && slots[i].requested.id == call
    && forall j :: 0 <= j < i ==> slots[j].requested.id != call
  }

  ghost predicate WaitsOn(slot: Slot, approval: ApprovalId) {
    slot.state.AwaitingApproval? && slot.state.pending.approval == approval
  }

  /** `i` is the first slot waiting on this approval. */
  ghost predicate FirstWaiting(slots: seq<Slot>, i: nat, approval: ApprovalId) {
    && i < |slots| && WaitsOn(slots[i], approval)
    && forall j :: 0 <= j < i ==> !WaitsOn(slots[j], approval)
  }

  /** Slot `i` entered a state and shows this; its request and entry stay, and so does every other slot. */
  ghost predicate Became(
    before: seq<Slot>, after: seq<Slot>, i: nat, state: CallState, shown: Presentation)
  {
    && i < |before| == |after|
    && after[i] == Slot(before[i].requested, state, before[i].entry,
                        SaturatingNext(before[i].revision), shown)
    && forall j :: 0 <= j < |before| && j != i ==> after[j] == before[j]
  }

  /** The slot awaits admission of exactly this request. */
  ghost predicate AdmitsAt(slots: seq<Slot>, i: nat, admitted: AdmittedCall) {
    i < |slots| && slots[i].requested == admitted.requested && slots[i].state.AwaitingAdmission?
  }

  /** An admitted request runs exactly when the first slot of its call awaits admission of it. */
  ghost predicate StartSays(before: seq<Slot>, after: seq<Slot>, admitted: AdmittedCall, taken: bool) {
    if taken then
      exists i: nat :: FirstOf(before, i, admitted.requested.id) && AdmitsAt(before, i, admitted)
        && Became(before, after, i, Running(admitted),
                  Presentation(admitted.invocation, before[i].presentation.outcome))
    else
      after == before
      && forall i: nat :: FirstOf(before, i, admitted.requested.id) ==> !AdmitsAt(before, i, admitted)
  }

  /** An admitted request is parked exactly under the same condition. */
  ghost predicate AskSays(before: seq<Slot>, after: seq<Slot>, pending: PendingApproval, taken: bool) {
    if taken then
      exists i: nat :: FirstOf(before, i, pending.admitted.requested.id)
        && AdmitsAt(before, i, pending.admitted)
        && Became(before, after, i, AwaitingApproval(pending),
                  Presentation(pending.admitted.invocation, before[i].presentation.outcome))
    else
      && after == before
      && forall i: nat :: FirstOf(before, i, pending.admitted.requested.id) ==>
           !AdmitsAt(before, i, pending.admitted)
  }

  /** A call ends before it ran exactly when its first slot awaits admission. */
  ghost predicate EarlySays(
    before: seq<Slot>, after: seq<Slot>, call: CallId, outcome: ToolOutcome,
    invocation: Option<string>, taken: bool)
  {
    if taken then
      exists i: nat :: FirstOf(before, i, call) && before[i].state.AwaitingAdmission?
        && Became(before, after, i, Finished(outcome),
                  Presentation(invocation, UnexecutedOutcome(outcome)))
    else
      && after == before
      && forall i: nat :: FirstOf(before, i, call) ==> !before[i].state.AwaitingAdmission?
  }

  /**
   * The first slot waiting on the approval runs what was admitted when the answer allows it, and is
   * finished as denied when it does not; the answer's receiver is told the same.
   */
  ghost predicate ResolveSays(
    before: seq<Slot>, after: seq<Slot>, approval: ApprovalId, decision: Decision,
    resolution: Option<Resolution>)
  {
    match resolution
    case None => after == before && forall i :: 0 <= i < |before| ==> !WaitsOn(before[i], approval)
    case Some(Run(attention, admitted)) =>
      && decision.Allow?
      && exists i: nat :: FirstWaiting(before, i, approval)
           && before[i].state.pending.attention == attention
           && before[i].state.pending.admitted == admitted
           && Became(before, after, i, Running(admitted),
                     Presentation(admitted.invocation, before[i].presentation.outcome))
    case Some(DeniedCall(attention, call)) =>
      && decision.Deny?
      && exists i: nat :: FirstWaiting(before, i, approval)
           && before[i].state.pending.attention == attention && before[i].requested.id == call
           && Became(before, after, i, Finished(Denied),
                     Presentation(before[i].presentation.invocation, Some("denied by user")))
  }

  /** An outcome is recorded exactly for a running call, with what its executor shows. */
  ghost predicate SettleSays(
    before: seq<Slot>, after: seq<Slot>, call: CallId, outcome: ToolOutcome, shown: Option<string>,
    taken: bool)
  {
    if taken then
      exists i: nat :: FirstOf(before, i, call) && before[i].state.Running?
        && Became(before, after, i, Finished(outcome),
                  Presentation(before[i].presentation.invocation, shown))
    else
      after == before && forall i: nat :: FirstOf(before, i, call) ==> !before[i].state.Running?
  }

  /** The transition is addressed by call identity. */
  ghost predicate ByCall(t: Transition, call: CallId) {
    forall slot: Slot :: Addresses(t, slot) <==> slot.requested.id == call
  }

  lemma FoundFirst(slots: seq<Slot>, t: Transition, call: CallId)
    requires ByCall(t, call)
    ensures Find(slots, t) < |slots| ==> FirstOf(slots, Find(slots, t), call)
    ensures forall i: nat :: FirstOf(slots, i, call) ==> i == Find(slots, t)
  {
    hide Addresses;
    forall i: nat | FirstOf(slots, i, call) ensures i == Find(slots, t) {
      FindIsFirst(slots, t, i);
    }
  }

  lemma StartIsSaid(slots: seq<Slot>, admitted: AdmittedCall)
    ensures var t := Transition.Start(admitted);
            StartSays(slots, After(slots, t), admitted, Takes(slots, t))
  {
    var t := Transition.Start(admitted);
    FoundFirst(slots, t, admitted.requested.id);
    if Takes(slots, t) { assert AdmitsAt(slots, Find(slots, t), admitted); }
  }

  lemma AskIsSaid(slots: seq<Slot>, pending: PendingApproval)
    ensures AskSays(slots, After(slots, Ask(pending)), pending, Takes(slots, Ask(pending)))
  {
    FoundFirst(slots, Ask(pending), pending.admitted.requested.id);
    if Takes(slots, Ask(pending)) { assert AdmitsAt(slots, Find(slots, Ask(pending)), pending.admitted); }
  }

  lemma EarlyIsSaid(slots: seq<Slot>, call: CallId, outcome: ToolOutcome, invocation: Option<string>)
    ensures var t := Transition.FinishBeforeRun(call, outcome, invocation);
            EarlySays(slots, After(slots, t), call, outcome, invocation, Takes(slots, t))
  {
    FoundFirst(slots, Transition.FinishBeforeRun(call, outcome, invocation), call);
  }

  lemma SettleIsSaid(slots: seq<Slot>, call: CallId, outcome: ToolOutcome, shown: Option<string>)
    ensures var t := Transition.Settle(call, outcome, shown);
            SettleSays(slots, After(slots, t), call, outcome, shown, Takes(slots, t))
  {
    FoundFirst(slots, Transition.Settle(call, outcome, shown), call);
  }

  /** What a resolution hands back, from the slot it was taken for. */
  function Resolved(slot: Slot, decision: Decision): Resolution
    requires slot.state.AwaitingApproval?
  {
    if decision.Allow? then Run(slot.state.pending.attention, slot.state.pending.admitted)
    else DeniedCall(slot.state.pending.attention, slot.requested.id)
  }

  lemma ResolveIsSaid(slots: seq<Slot>, approval: ApprovalId, decision: Decision)
    ensures var t := Resolve(approval, decision);
            ResolveSays(slots, After(slots, t), approval, decision,
                        if Takes(slots, t) then Some(Resolved(slots[Find(slots, t)], decision)) else None)
  {
    var t := Resolve(approval, decision);
    assert forall slot: Slot :: Addresses(t, slot) <==> WaitsOn(slot, approval);
    if Takes(slots, t) { assert FirstWaiting(slots, Find(slots, t), approval); }
  }

  function FirstShown(outcome: ToolOutcome): char
    requires UnexecutedOutcome(outcome).Some?
  {
    UnexecutedOutcome(outcome).value[0]
  }

  lemma ShownKindsDiffer(a: ToolOutcome, b: ToolOutcome)
    requires UnexecutedOutcome(a).Some? && UnexecutedOutcome(a) == UnexecutedOutcome(b)
    ensures (a.AdmissionRefused? <==> b.AdmissionRefused?) && (a.PermissionRefused? <==> b.PermissionRefused?)
    ensures (a.Forbidden? <==> b.Forbidden?) && (a.Denied? <==> b.Denied?)
    ensures a.Cancelled? <==> b.Cancelled?
  {
    assert "admission refused: "[0] == 'a' && "permission refused: "[0] == 'p';
    assert "forbidden by policy"[0] == 'f' && "denied by user"[0] == 'd' && "cancelled: "[0] == 'c';
    assert FirstShown(a) == FirstShown(b);
  }

  lemma ReasonsDiffer(a: CancelReason, b: CancelReason)
    requires ReasonName(a) == ReasonName(b)
    ensures a == b
  {
    assert "interrupted"[0] != "step_failed"[0] && |"shutdown"| != |"step_failed"|;
    assert |"interrupted"| == 11 && |"step_failed"| == 11 && |"shutdown"| == 8 && |"process_died"| == 12;
  }

  /** What is shown of an outcome no executor produced tells it from every other such outcome. */
  lemma ShownOutcomesDiffer(a: ToolOutcome, b: ToolOutcome)
    ensures UnexecutedOutcome(a).None? <==> a.Succeeded? || a.Failed?
    ensures UnexecutedOutcome(a).Some? && UnexecutedOutcome(a) == UnexecutedOutcome(b) ==> a == b
  {
    if UnexecutedOutcome(a).Some? && UnexecutedOutcome(a) == UnexecutedOutcome(b) {
      ShownKindsDiffer(a, b);
      match a {
        case AdmissionRefused(refusal) =>
          assert UnexecutedOutcome(a).value[19..] == refusal;
          assert UnexecutedOutcome(b).value[19..] == b.refusal;
        case PermissionRefused(refusal) =>
          assert UnexecutedOutcome(a).value[20..] == refusal;
          assert UnexecutedOutcome(b).value[20..] == b.refusal;
        case Cancelled(reason) =>
          assert UnexecutedOutcome(a).value[11..] == ReasonName(reason);
          assert UnexecutedOutcome(b).value[11..] == ReasonName(b.reason);
          ReasonsDiffer(reason, b.reason);
        case _ =>
      }
    }
  }

  // ------------------------------------------------------------------ runs

  datatype Operation = Move(transition: Transition) | Abandon(reason: CancelReason)

  function Next(slots: seq<Slot>, op: Operation): seq<Slot> {
    match op
    case Move(t) => After(slots, t)
    case Abandon(reason) => AllCancelled(slots, reason)
  }

  function RunAll(slots: seq<Slot>, ops: seq<Operation>): seq<Slot>
    decreases |ops|
  {
    if ops == [] then slots else RunAll(Next(slots, ops[0]), ops[1..])
  }

  function Rank(slot: Slot): nat {
    match slot.state
    case AwaitingAdmission => 3
    case AwaitingApproval(_) => 2
    case Running(_) => 1
    case Finished(_) => 0
  }

  function TotalRank(slots: seq<Slot>): nat {
    if slots == [] then 0 else Rank(slots[0]) + TotalRank(slots[1..])
  }

  /** How many operations of the run changed something. */
  function Changes(slots: seq<Slot>, ops: seq<Operation>): nat
    decreases |ops|
  {
    if ops == [] then 0
    else
      (if Next(slots, ops[0]) != slots then 1 else 0) + Changes(Next(slots, ops[0]), ops[1..])
  }

  /** What runs is what was requested, and each slot changed at most once per rank it lost. */
  ghost predicate SlotHolds(slot: Slot) {
    && (slot.state.Running? ==> slot.state.admitted.requested == slot.requested)
    && (slot.state.AwaitingApproval? ==> slot.state.pending.admitted.requested == slot.requested)
    && slot.revision + Rank(slot) <= 3
  }

  ghost predicate BatchHolds(slots: seq<Slot>) {
    forall i :: 0 <= i < |slots| ==> SlotHolds(slots[i])
  }

  /** What one operation may do to one slot: nothing once finished, and never to the request. */
  ghost predicate SlotContinues(before: Slot, after: Slot) {
    && after.requested == before.requested && after.entry == before.entry
    && before.revision <= after.revision
    && (before.state.Finished? ==> after == before)
    && Rank(after) <= Rank(before)
    && (after != before ==> Rank(after) < Rank(before) && after.revision == before.revision + 1)
  }

  ghost predicate BatchContinues(before: seq<Slot>, after: seq<Slot>) {
    |after| == |before| && forall i :: 0 <= i < |before| ==> SlotContinues(before[i], after[i])
  }

  lemma OpenedHolds(calls: seq<(ToolCall, ItemId)>)
    ensures BatchHolds(Opened(calls))
  {
  }

  lemma MovedHolds(slot: Slot, t: Transition)
    requires SlotHolds(slot) && Allows(slot, t)
    ensures SlotHolds(Moved(slot, t)) && SlotContinues(slot, Moved(slot, t))
  {
  }

  lemma NextHolds(slots: seq<Slot>, op: Operation)
    requires BatchHolds(slots)
    ensures BatchHolds(Next(slots, op)) && BatchContinues(slots, Next(slots, op))
  {
    match op
    case Move(t) =>
      if Takes(slots, t) {
        var i := Find(slots, t);
        MovedHolds(slots[i], t);
        hide Moved, SlotHolds;
        assert forall j :: 0 <= j < |slots| && j != i ==> After(slots, t)[j] == slots[j];
      }
    case Abandon(_) =>
  }

  /**
   * Over any run the calls and their order never change, what runs is what was asked, an outcome
   * once recorded never changes, and no slot changes more than three times.
   */
  lemma {:induction false} RunHolds(slots: seq<Slot>, ops: seq<Operation>)
    requires BatchHolds(slots)
    ensures BatchHolds(RunAll(slots, ops))
    ensures |RunAll(slots, ops)| == |slots|
    ensures forall i :: 0 <= i < |slots| ==>
              && RunAll(slots, ops)[i].requested == slots[i].requested
              && RunAll(slots, ops)[i].entry == slots[i].entry
              && (slots[i].state.Finished? ==> RunAll(slots, ops)[i] == slots[i])
    decreases |ops|
  {
    if ops != [] {
      NextHolds(slots, ops[0]);
      RunHolds(Next(slots, ops[0]), ops[1..]);
    }
  }

  lemma {:induction false} TotalFalls(before: seq<Slot>, after: seq<Slot>)
    requires BatchContinues(before, after)
    ensures TotalRank(after) <= TotalRank(before)
    ensures after != before ==> TotalRank(after) < TotalRank(before)
  {
    if before != [] {
      TotalFalls(before[1..], after[1..]);
      assert before == [before[0]] + before[1..] && after == [after[0]] + after[1..];
    }
  }

  /** Every operation that changes the batch lowers its rank, so a run changes it at most that often. */
  lemma {:induction false} ChangesAreBounded(slots: seq<Slot>, ops: seq<Operation>)
    requires BatchHolds(slots)
    ensures Changes(slots, ops) + TotalRank(RunAll(slots, ops)) <= TotalRank(slots)
    decreases |ops|
  {
    if ops != [] {
      NextHolds(slots, ops[0]);
      TotalFalls(slots, Next(slots, ops[0]));
      ChangesAreBounded(Next(slots, ops[0]), ops[1..]);
    }
  }

  lemma {:induction false} OpenedRank(calls: seq<(ToolCall, ItemId)>)
    ensures TotalRank(Opened(calls)) == 3 * |calls|
  {
    if calls != [] {
      OpenedRank(calls[1..]);
      assert Opened(calls)[1..] == Opened(calls[1..]);
    }
  }

  /** At most three changes per call, whatever is attempted and however often. */
  lemma AtMostThreePerCall(calls: seq<(ToolCall, ItemId)>, ops: seq<Operation>)
    ensures Changes(Opened(calls), ops) <= 3 * |calls|
  {
    OpenedHolds(calls);
    OpenedRank(calls);
    ChangesAreBounded(Opened(calls), ops);
  }

  lemma {:induction false} DebtsOfFirst(slots: seq<Slot>)
    requires slots != []
    ensures Debts(slots) == (if slots[0].state.Finished? then [] else [Owed(slots[0])]) + Debts(slots[1..])
  {
    if |slots| > 1 {
      var front := slots[..|slots| - 1];
      DebtsOfFirst(front);
      assert front[1..] == slots[1..][..|slots| - 2];
    }
  }

  /** Settled is rank zero: nothing is owed exactly when nothing can happen any more. */
  lemma {:induction false} SettledIsRankZero(slots: seq<Slot>)
    ensures Settled(slots) <==> TotalRank(slots) == 0
    ensures Settled(slots) <==> Debts(slots) == []
  {
    if slots != [] {
      SettledIsRankZero(slots[1..]);
      DebtsOfFirst(slots);
      assert slots == [slots[0]] + slots[1..];
    }
  }

  // ------------------------------------------------------------------ distinct calls

  ghost predicate CallsDistinct(slots: seq<Slot>) {
    forall i, j :: 0 <= i < j < |slots| ==> slots[i].requested.id != slots[j].requested.id
  }

  /**
   * With distinct call identities an outcome lands on its own call's slot whatever order results
   * arrive in: settling is accepted exactly for a running call, and touches that slot alone.
   */
  lemma SettleLandsOnItsCall(slots: seq<Slot>, i: nat, outcome: ToolOutcome, shown: Option<string>)
    requires CallsDistinct(slots) && i < |slots|
    ensures var t := Settle(slots[i].requested.id, outcome, shown);
            && Find(slots, t) == i
            && (Takes(slots, t) <==> slots[i].state.Running?)
            && (slots[i].state.Running? ==>
                  && After(slots, t)[i].state == Finished(outcome)
                  && forall j :: 0 <= j < |slots| && j != i ==> After(slots, t)[j] == slots[j])
  {
    var t := Settle(slots[i].requested.id, outcome, shown);
    assert Addresses(t, slots[i]);
  }

  lemma SettlesCommute(
    slots: seq<Slot>, i: nat, j: nat, a: ToolOutcome, b: ToolOutcome, shownA: Option<string>, shownB: Option<string>)
    requires CallsDistinct(slots) && i < |slots| && j < |slots| && i != j
    ensures var s := Settle(slots[i].requested.id, a, shownA);
            var t := Settle(slots[j].requested.id, b, shownB);
            After(After(slots, s), t) == After(After(slots, t), s)
  {
    var s := Settle(slots[i].requested.id, a, shownA);
    var t := Settle(slots[j].requested.id, b, shownB);
    SettleLandsOnItsCall(slots, i, a, shownA);
    SettleLandsOnItsCall(slots, j, b, shownB);
    SettleLandsOnItsCall(After(slots, s), j, b, shownB);
    SettleLandsOnItsCall(After(slots, t), i, a, shownA);
    assert After(After(slots, s), t) == After(After(slots, t), s);
  }

  // ------------------------------------------------------------------ why a slot is where it is

  lemma WaitingIsOne(slots: seq<Slot>, i: nat, approval: ApprovalId)
    requires FirstWaiting(slots, i, approval)
    ensures forall k: nat :: FirstWaiting(slots, k, approval) ==> k == i
  {
  }

  /** A denied call is finished as denied for good, whatever is attempted afterwards. */
  lemma DeniedForGood(slots: seq<Slot>, i: nat, approval: ApprovalId, ops: seq<Operation>)
    requires BatchHolds(slots) && FirstWaiting(slots, i, approval)
    ensures var denied := RunAll(Next(slots, Move(Resolve(approval, Deny))), ops);
            |denied| == |slots| && denied[i].state == Finished(Denied)
  {
    var t := Resolve(approval, Deny);
    NextHolds(slots, Move(t));
    ResolveIsSaid(slots, approval, Deny);
    WaitingIsOne(slots, i, approval);
    RunHolds(Next(slots, Move(t)), ops);
  }

  /** What lets slot `i` run `admitted`: starting it, or allowing the approval it waits on. */
  ghost predicate LetsRun(slots: seq<Slot>, op: Operation, i: nat, admitted: AdmittedCall) {
    && i < |slots|
    && match op
       case Move(Start(a)) =>
         a == admitted && FirstOf(slots, i, a.requested.id) && AdmitsAt(slots, i, a)
       case Move(Resolve(approval, Allow)) =>
         FirstWaiting(slots, i, approval) && slots[i].state.pending.admitted == admitted
       case _ => false
  }

  /** One operation makes a slot run exactly when it lets it run. */
  lemma RunsWhenLet(slots: seq<Slot>, op: Operation, i: nat, admitted: AdmittedCall)
    requires i < |slots| && !slots[i].state.Running?
    ensures |Next(slots, op)| == |slots|
    ensures Next(slots, op)[i].state == Running(admitted) <==> LetsRun(slots, op, i, admitted)
  {
    hide After, Takes, Find, Moved, Allows, Addresses, UnexecutedOutcome;
    if op.Move? {
      match op.transition {
        case Start(a) => StartIsSaid(slots, a);
        case Resolve(approval, decision) => ResolveIsSaid(slots, approval, decision);
        case Ask(pending) => AskIsSaid(slots, pending);
        case FinishBeforeRun(call, outcome, invocation) => EarlyIsSaid(slots, call, outcome, invocation);
        case Settle(call, outcome, shown) => SettleIsSaid(slots, call, outcome, shown);
      }
    }
  }

  /** The operation that let slot `i` run what it runs is one of the run's. */
  ghost predicate WasLet(slots: seq<Slot>, ops: seq<Operation>, n: nat, i: nat, admitted: AdmittedCall) {
    n < |ops| && LetsRun(RunAll(slots, ops[..n]), ops[n], i, admitted)
  }

  lemma {:induction false} RunAllNext(slots: seq<Slot>, ops: seq<Operation>, op: Operation)
    ensures RunAll(slots, ops + [op]) == Next(RunAll(slots, ops), op)
    decreases |ops|
  {
    if ops == [] {
      assert ([op])[1..] == [];
    } else {
      assert (ops + [op])[1..] == ops[1..] + [op];
      RunAllNext(Next(slots, ops[0]), ops[1..], op);
    }
  }

  lemma RunNothing(slots: seq<Slot>)
    ensures RunAll(slots, []) == slots
  {
  }

  lemma WasLetEarlier(
    slots: seq<Slot>, ops: seq<Operation>, op: Operation, n: nat, i: nat, admitted: AdmittedCall)
    requires WasLet(slots, ops, n, i, admitted)
    ensures WasLet(slots, ops + [op], n, i, admitted)
  {
    assert (ops + [op])[..n] == ops[..n];
    hide RunAll, LetsRun;
  }

  /** Over any run, a slot that runs was started, or was allowed by the answer to its own approval. */
  lemma {:induction false} RunningWasLet(slots: seq<Slot>, ops: seq<Operation>, i: nat)
    requires BatchHolds(slots) && i < |slots| && !slots[i].state.Running?
    ensures |RunAll(slots, ops)| == |slots|
    ensures RunAll(slots, ops)[i].state.Running? ==>
              exists n: nat :: WasLet(slots, ops, n, i, RunAll(slots, ops)[i].state.admitted)
    decreases |ops|
  {
    hide Next, LetsRun, SlotHolds, BatchHolds, RunAll;
    RunNothing(slots);
    RunHolds(slots, ops);
    if ops != [] && RunAll(slots, ops)[i].state.Running? {
      var last := |ops| - 1;
      var front := ops[..last];
      assert ops == front + [ops[last]];
      RunAllNext(slots, front, ops[last]);
      RunningWasLet(slots, front, i);
      var s := RunAll(slots, front);
      if s[i].state.Running? {
        RunHolds(slots, front);
        NextHolds(s, ops[last]);
        var n: nat :| WasLet(slots, front, n, i, s[i].state.admitted);
        WasLetEarlier(slots, front, ops[last], n, i, s[i].state.admitted);
      } else {
        RunsWhenLet(s, ops[last], i, RunAll(slots, ops)[i].state.admitted);
        assert ops[..last] == front;
        assert WasLet(slots, ops, last, i, RunAll(slots, ops)[i].state.admitted);
      }
    }
  }

  /** What ends slot `i` with this outcome: an early end, a denial, its result, or being abandoned. */
  ghost predicate Ends(slots: seq<Slot>, op: Operation, i: nat, outcome: ToolOutcome) {
    && i < |slots|
    && match op
       case Move(FinishBeforeRun(call, o, _)) =>
         o == outcome && FirstOf(slots, i, call) && slots[i].state.AwaitingAdmission?
       case Move(Settle(call, o, _)) => o == outcome && FirstOf(slots, i, call) && slots[i].state.Running?
       case Move(Resolve(approval, Deny)) => outcome.Denied? && FirstWaiting(slots, i, approval)
       case Abandon(reason) => outcome == Cancelled(reason)
       case _ => false
  }

  lemma EndsWhenEnded(slots: seq<Slot>, op: Operation, i: nat, outcome: ToolOutcome)
    requires i < |slots| && !slots[i].state.Finished?
    ensures |Next(slots, op)| == |slots|
    ensures Next(slots, op)[i].state == Finished(outcome) <==> Ends(slots, op, i, outcome)
  {
    hide After, Takes, Find, Moved, Allows, Addresses, UnexecutedOutcome;
    if op.Move? {
      match op.transition {
        case Start(a) => StartIsSaid(slots, a);
        case Resolve(approval, decision) => ResolveIsSaid(slots, approval, decision);
        case Ask(pending) => AskIsSaid(slots, pending);
        case FinishBeforeRun(call, o, invocation) => EarlyIsSaid(slots, call, o, invocation);
        case Settle(call, o, shown) => SettleIsSaid(slots, call, o, shown);
      }
    }
  }

  ghost predicate WasEnded(slots: seq<Slot>, ops: seq<Operation>, n: nat, i: nat, outcome: ToolOutcome) {
    n < |ops| && Ends(RunAll(slots, ops[..n]), ops[n], i, outcome)
  }

  lemma WasEndedEarlier(
    slots: seq<Slot>, ops: seq<Operation>, op: Operation, n: nat, i: nat, outcome: ToolOutcome)
    requires WasEnded(slots, ops, n, i, outcome)
    ensures WasEnded(slots, ops + [op], n, i, outcome)
  {
    assert (ops + [op])[..n] == ops[..n];
    hide RunAll, Ends;
  }

  lemma EndedLast(slots: seq<Slot>, ops: seq<Operation>, i: nat, outcome: ToolOutcome)
    requires ops != [] && Ends(RunAll(slots, ops[..|ops| - 1]), ops[|ops| - 1], i, outcome)
    ensures WasEnded(slots, ops, |ops| - 1, i, outcome)
  {
    hide RunAll, Ends;
  }

  /** Over any run, every outcome was recorded by an operation that ends that very slot with it. */
  lemma {:induction false} OutcomeWasRecorded(slots: seq<Slot>, ops: seq<Operation>, i: nat)
    requires BatchHolds(slots) && i < |slots| && !slots[i].state.Finished?
    ensures |RunAll(slots, ops)| == |slots|
    ensures RunAll(slots, ops)[i].state.Finished? ==>
              exists n: nat :: WasEnded(slots, ops, n, i, RunAll(slots, ops)[i].state.outcome)
    decreases |ops|
  {
    hide Next, Ends, SlotHolds, BatchHolds, RunAll, WasEnded;
    RunNothing(slots);
    RunHolds(slots, ops);
    if ops != [] && RunAll(slots, ops)[i].state.Finished? {
      var last := |ops| - 1;
      var front := ops[..last];
      assert ops == front + [ops[last]];
      RunAllNext(slots, front, ops[last]);
      OutcomeWasRecorded(slots, front, i);
      RunHolds(slots, front);
      var s := RunAll(slots, front);
      if s[i].state.Finished? {
        NextHolds(s, ops[last]);
        var n: nat :| WasEnded(slots, front, n, i, s[i].state.outcome);
        WasEndedEarlier(slots, front, ops[last], n, i, s[i].state.outcome);
      } else {
        EndsWhenEnded(s, ops[last], i, RunAll(slots, ops)[i].state.outcome);
        EndedLast(slots, ops, i, RunAll(slots, ops)[i].state.outcome);
      }
    }
  }

  // ------------------------------------------------------------------ abandoning

  /** The indices of the slots that have no outcome yet, in order. */
  function Unfinished(slots: seq<Slot>): (at: seq<nat>)
    ensures forall i :: i in at <==> 0 <= i < |slots| && !slots[i].state.Finished?
    ensures forall k, l :: 0 <= k < l < |at| ==> at[k] < at[l]
  {
    if slots == [] then []
    else
      var n := |slots| - 1;
      var before := Unfinished(slots[..n]);
      assert forall k :: 0 <= k < |before| ==> before[k] in before;
      if slots[n].state.Finished? then before else before + [n]
  }

  /** An unfinished slot ends cancelled for this reason, shown so under one more revision. */
  ghost predicate Abandoned(before: Slot, after: Slot, reason: CancelReason) {
    after == Slot(before.requested, Finished(Cancelled(reason)), before.entry,
                  SaturatingNext(before.revision),
                  Presentation(before.presentation.invocation, Some("cancelled: " + ReasonName(reason))))
  }

  lemma DebtsOfNone()
    ensures Debts([]) == []
  {
  }

  lemma DebtsNext(slots: seq<Slot>, i: nat)
    requires i < |slots|
    ensures Debts(slots[..i + 1]) ==
              Debts(slots[..i]) + (if slots[i].state.Finished? then [] else [Owed(slots[i])])
  {
    assert slots[..i + 1][..i] == slots[..i];
  }

  /** The debt names the slot's call, and the attention of the approval it waits on, if it does. */
  ghost predicate DebtOf(slot: Slot, debt: AbandonedCall) {
    && debt.call == slot.requested.id
    && (debt.attention.Some? <==> slot.state.AwaitingApproval?)
    && (slot.state.AwaitingApproval? ==> debt.attention.value == slot.state.pending.attention)
  }

  lemma OwedIs(slot: Slot)
    ensures DebtOf(slot, Owed(slot))
  {
  }

  /** The debts are exactly the unfinished slots, each once and in model order. */
  lemma {:induction false} DebtsListUnfinished(slots: seq<Slot>)
    ensures |Debts(slots)| == |Unfinished(slots)|
    ensures forall k :: 0 <= k < |Debts(slots)| ==>
              && Unfinished(slots)[k] in Unfinished(slots)
              && DebtOf(slots[Unfinished(slots)[k]], Debts(slots)[k])
  {
    if slots != [] {
      var front := slots[..|slots| - 1];
      DebtsListUnfinished(front);
      hide DebtOf;
      assert DebtOf(slots[|slots| - 1], Owed(slots[|slots| - 1])) by { OwedIs(slots[|slots| - 1]); }
    }
  }

  // ------------------------------------------------------------------ the batch

  class Batch {
    var slots: seq<Slot>

    constructor (calls: seq<(ToolCall, ItemId)>)
      ensures slots == Opened(calls) && BatchHolds(slots)
    {
      slots := Opened(calls);
      new;
      OpenedHolds(calls);
    }

    /** The first slot addressed by the transition. */
    method Locate(t: Transition) returns (i: nat)
      ensures i == Find(slots, t)
    {
      i := 0;
      while i < |slots| && !Addresses(t, slots[i])
        invariant i <= |slots|
        invariant forall j :: 0 <= j < i ==> !Addresses(t, slots[j])
      {
        i := i + 1;
      }
      FindIsFirst(slots, t, i);
    }

    method Start(admitted: AdmittedCall) returns (taken: bool)
      requires BatchHolds(slots)
      modifies this
      ensures taken <==> Takes(old(slots), Transition.Start(admitted))
      ensures slots == After(old(slots), Transition.Start(admitted)) && BatchHolds(slots)
      ensures StartSays(old(slots), slots, admitted, taken)
    {
      StartIsSaid(slots, admitted);
      NextHolds(slots, Move(Transition.Start(admitted)));
      var i := Locate(Transition.Start(admitted));
      if i == |slots| { return false; }
      var slot := slots[i];
      if slot.requested != admitted.requested || !slot.state.AwaitingAdmission? {
        return false;
      }
      slots := slots[i := slot.(
        state := Running(admitted), revision := SaturatingNext(slot.revision),
        presentation := slot.presentation.(invocation := admitted.invocation))];
      return true;
    }

    method AwaitApproval(pending: PendingApproval) returns (taken: bool)
      requires BatchHolds(slots)
      modifies this
      ensures taken <==> Takes(old(slots), Ask(pending))
      ensures slots == After(old(slots), Ask(pending)) && BatchHolds(slots)
      ensures AskSays(old(slots), slots, pending, taken)
    {
      AskIsSaid(slots, pending);
      NextHolds(slots, Move(Ask(pending)));
      var i := Locate(Ask(pending));
      if i == |slots| { return false; }
      var slot := slots[i];
      if slot.requested != pending.admitted.requested || !slot.state.AwaitingAdmission? {
        return false;
      }
      slots := slots[i := slot.(
        state := CallState.AwaitingApproval(pending), revision := SaturatingNext(slot.revision),
        presentation := slot.presentation.(invocation := pending.admitted.invocation))];
      return true;
    }

    method FinishBeforeRun(call: CallId, outcome: ToolOutcome, invocation: Option<string>)
      returns (taken: bool)
      requires BatchHolds(slots)
      modifies this
      ensures taken <==> Takes(old(slots), Transition.FinishBeforeRun(call, outcome, invocation))
      ensures slots == After(old(slots), Transition.FinishBeforeRun(call, outcome, invocation))
      ensures BatchHolds(slots)
      ensures EarlySays(old(slots), slots, call, outcome, invocation, taken)
    {
      EarlyIsSaid(slots, call, outcome, invocation);
      var t := Transition.FinishBeforeRun(call, outcome, invocation);
      NextHolds(slots, Move(t));
      var i := Locate(t);
      if i == |slots| || !slots[i].state.AwaitingAdmission? {
        return false;
      }
      slots := slots[i := slots[i].(
        state := Finished(outcome), revision := SaturatingNext(slots[i].revision),
        presentation := Presentation(invocation, UnexecutedOutcome(outcome)))];
      return true;
    }

    /** Answers one approval: its call runs as admitted, or ends denied. */
    method ResolveApproval(approval: ApprovalId, decision: Decision)
      returns (resolution: Option<Resolution>)
      requires BatchHolds(slots)
      modifies this
      ensures slots == After(old(slots), Resolve(approval, decision)) && BatchHolds(slots)
      ensures resolution.Some? <==> Takes(old(slots), Resolve(approval, decision))
      ensures resolution.Some? ==>
        var slot := old(slots)[Find(old(slots), Resolve(approval, decision))];
        var pending := slot.state.pending;
        resolution.value ==
          if decision.Allow? then Run(pending.attention, pending.admitted)
          else DeniedCall(pending.attention, slot.requested.id)
      ensures ResolveSays(old(slots), slots, approval, decision, resolution)
    {
      ResolveIsSaid(slots, approval, decision);
      NextHolds(slots, Move(Resolve(approval, decision)));
      var i := Locate(Resolve(approval, decision));
      if i == |slots| { return None; }
      var slot := slots[i];
      var pending := slot.state.pending;
      if decision.Allow? {
        slots := slots[i := slot.(
          state := Running(pending.admitted), revision := SaturatingNext(slot.revision),
          presentation := slot.presentation.(invocation := pending.admitted.invocation))];
        return Some(Run(pending.attention, pending.admitted));
      }
      slots := slots[i := slot.(
        state := Finished(Denied), revision := SaturatingNext(slot.revision),
        presentation := slot.presentation.(outcome := UnexecutedOutcome(Denied)))];
      return Some(DeniedCall(pending.attention, slot.requested.id));
    }

    method Settle(call: CallId, outcome: ToolOutcome, shown: Option<string>) returns (taken: bool)
      requires BatchHolds(slots)
      modifies this
      ensures taken <==> Takes(old(slots), Transition.Settle(call, outcome, shown))
      ensures slots == After(old(slots), Transition.Settle(call, outcome, shown)) && BatchHolds(slots)
      ensures SettleSays(old(slots), slots, call, outcome, shown, taken)
    {
      SettleIsSaid(slots, call, outcome, shown);
      var t := Transition.Settle(call, outcome, shown);
      NextHolds(slots, Move(t));
      var i := Locate(t);
      if i == |slots| || !slots[i].state.Running? {
        return false;
      }
      slots := slots[i := slots[i].(
        state := Finished(outcome), revision := SaturatingNext(slots[i].revision),
        presentation := slots[i].presentation.(outcome := shown))];
      return true;
    }

    method IsSettled() returns (settled: bool)
      ensures settled <==> Settled(slots)
    {
      for i := 0 to |slots|
        invariant forall j :: 0 <= j < i ==> slots[j].state.Finished?
      {
        if !slots[i].state.Finished? {
          return false;
        }
      }
      return true;
    }

    /** Answers everything outstanding as cancelled, and says which calls those were. */
    method Abandon(reason: CancelReason) returns (abandoned: seq<AbandonedCall>)
      requires BatchHolds(slots)
      modifies this
      ensures slots == AllCancelled(old(slots), reason) && Settled(slots) && BatchHolds(slots)
      ensures forall i :: 0 <= i < |slots| ==>
                if old(slots)[i].state.Finished? then slots[i] == old(slots)[i]
                else Abandoned(old(slots)[i], slots[i], reason)
      ensures abandoned == Debts(old(slots))
    {
      hide BatchHolds, SlotHolds, Debts, Owed, Rank;
      NextHolds(slots, Operation.Abandon(reason));
      DebtsOfNone();
      abandoned := [];
      var i := 0;
      while i < |slots|
        invariant i <= |slots| == |old(slots)|
        invariant forall j :: 0 <= j < i ==> slots[j] == Cancelling(old(slots)[j], reason)
        invariant forall j :: i <= j < |slots| ==> slots[j] == old(slots)[j]
        invariant abandoned == Debts(old(slots)[..i])
      {
        var slot := slots[i];
        DebtsNext(old(slots), i);
        if !slot.state.Finished? {
          abandoned := abandoned + [Owed(slot)];
          slots := slots[i := slot.(
            state := Finished(Cancelled(reason)), revision := SaturatingNext(slot.revision),
            presentation := slot.presentation.(outcome := UnexecutedOutcome(Cancelled(reason))))];
        }
        i := i + 1;
      }
      assert old(slots)[..i] == old(slots);
      assert slots == AllCancelled(old(slots), reason);
    }
  }
}
