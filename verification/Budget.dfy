/** Occupancy of one model request in checked 64-bit arithmetic, and what it means for compaction. */
module Budget {
  import opened Options

  datatype BudgetError = InvalidLimits | InvalidAnchor | Overflow

  datatype Outcome<+T> = Ok(value: T) | Err(error: BudgetError)

  datatype Estimate = Estimate(tokens: nat, opaqueBytes: nat)

  datatype Limits = Limits(window: nat, reserve: nat, soft: nat) {
    function Capacity(): int {
      window - reserve
    }
  }

  /** A provider's own count of a prefix of the atoms, environment included. */
  datatype Anchor = Anchor(atomCount: nat, inputTokens: nat)

  datatype Pressure = SoftLimit | HardLimit

  datatype Oversized = Environment | Atom(index: nat)

  datatype Decision = Fits | CompactionNeeded(pressure: Pressure) | ImpossibleItem(item: Oversized)

  datatype Ledger = Ledger(remainder: Estimate, inputTokens: nat, remaining: nat, decision: Decision)

  function NewLimits(window: nat, reserve: nat, soft: nat): Outcome<Limits> {
    if window == 0 || reserve >= window || soft == 0 || soft > window - reserve
    then Err(InvalidLimits)
    else Ok(Limits(window, reserve, soft))
  }

  ghost predicate ValidLimits(l: Limits) {
    0 < l.soft <= l.Capacity() && l.Capacity() <= l.window <= U64_MAX
  }

  /** Exactly the limits that leave room for input under both ceilings can be built. */
  lemma NewLimitsIff(window: nat, reserve: nat, soft: nat)
    requires window <= U64_MAX
    ensures NewLimits(window, reserve, soft) ==
              if ValidLimits(Limits(window, reserve, soft)) then Ok(Limits(window, reserve, soft))
              else Err(InvalidLimits)
  {
  }

  function Add(left: nat, right: nat): Outcome<nat> {
    if left + right <= U64_MAX then Ok(left + right) else Err(Overflow)
  }

  function CheckedAdd(a: Estimate, b: Estimate): Outcome<Estimate> {
    var tokens := Add(a.tokens, b.tokens);
    if tokens.Err? then Err(tokens.error)
    else
      var opaqueBytes := Add(a.opaqueBytes, b.opaqueBytes);
      if opaqueBytes.Err? then Err(opaqueBytes.error)
      else Ok(Estimate(tokens.value, opaqueBytes.value))
  }

  /** The estimates added one by one, stopping at the first overflow. */
  function Folded(total: Estimate, atoms: seq<Estimate>): Outcome<Estimate>
    decreases |atoms|
  {
    if atoms == [] then Ok(total)
    else
      var next := CheckedAdd(total, atoms[0]);
      if next.Err? then next else Folded(next.value, atoms[1..])
  }

  /** The first atom, from `index` on, that no request could hold beside the environment. */
  function Misfit(limits: Limits, environment: nat, atoms: seq<Estimate>, index: nat): Outcome<Option<nat>>
    requires index <= |atoms|
    decreases |atoms| - index
  {
    if index == |atoms| then Ok(None)
    else
      var alone := Add(environment, atoms[index].tokens);
      if alone.Err? then Err(alone.error)
      else if alone.value > limits.Capacity() then Ok(Some(index))
      else Misfit(limits, environment, atoms, index + 1)
  }

  function Decide(
    limits: Limits, environment: nat, atoms: seq<Estimate>, prefix: nat, anchored: bool, input: nat)
    : Outcome<Decision>
    requires prefix <= |atoms|
  {
    if input <= limits.soft then Ok(Fits)
    else if !anchored && environment > limits.Capacity() then Ok(ImpossibleItem(Environment))
    else
      var misfit := Misfit(limits, environment, atoms, prefix);
      if misfit.Err? then Err(misfit.error)
      else if misfit.value.Some? then Ok(ImpossibleItem(Atom(misfit.value.value)))
      else Ok(CompactionNeeded(if input > limits.Capacity() then HardLimit else SoftLimit))
  }

  function PrefixOf(anchor: Option<Anchor>): nat {
    if anchor.Some? then anchor.value.atomCount else 0
  }

  function MeasuredOf(anchor: Option<Anchor>): nat {
    if anchor.Some? then anchor.value.inputTokens else 0
  }

  /** What the fold starts from: the environment is part of a measured prefix. */
  function StartOf(anchor: Option<Anchor>, environment: Estimate): Estimate {
    if anchor.Some? then Estimate(0, 0) else environment
  }

  /** The environment's cost cannot exceed a measurement that includes it. */
  function EnvironmentCost(anchor: Option<Anchor>, environment: Estimate): nat {
    if anchor.Some? && anchor.value.inputTokens < environment.tokens
    then anchor.value.inputTokens else environment.tokens
  }

  function FromEstimates(
    limits: Limits, environment: Estimate, atoms: seq<Estimate>, anchor: Option<Anchor>): Outcome<Ledger>
  {
    var prefix := PrefixOf(anchor);
    if prefix > |atoms| then Err(InvalidAnchor)
    else
      var remainder := Folded(StartOf(anchor, environment), atoms[prefix..]);
      if remainder.Err? then Err(remainder.error)
      else
        var input := Add(MeasuredOf(anchor), remainder.value.tokens);
        if input.Err? then Err(input.error)
        else
          var decision := Decide(
            limits, EnvironmentCost(anchor, environment), atoms, prefix, anchor.Some?, input.value);
          if decision.Err? then Err(decision.error)
          else Ok(Ledger(remainder.value, input.value,
                         if limits.Capacity() > input.value then limits.Capacity() - input.value else 0,
                         decision.value))
  }

  // ------------------------------------------------------------------ exact totals

  function TotalTokens(atoms: seq<Estimate>): nat {
    if atoms == [] then 0 else atoms[0].tokens + TotalTokens(atoms[1..])
  }

  function TotalOpaque(atoms: seq<Estimate>): nat {
    if atoms == [] then 0 else atoms[0].opaqueBytes + TotalOpaque(atoms[1..])
  }

  /** The fold succeeds exactly when the exact sums fit 64 bits, and then it is those sums. */
  lemma {:induction false} FoldedIsTotal(total: Estimate, atoms: seq<Estimate>)
    requires total.tokens <= U64_MAX && total.opaqueBytes <= U64_MAX
    ensures var tokens, opaqueBytes := total.tokens + TotalTokens(atoms), total.opaqueBytes + TotalOpaque(atoms);
            && (Folded(total, atoms).Ok? <==> tokens <= U64_MAX && opaqueBytes <= U64_MAX)
            && (Folded(total, atoms).Ok? ==> Folded(total, atoms).value == Estimate(tokens, opaqueBytes))
            && (Folded(total, atoms).Err? ==> Folded(total, atoms).error == Overflow)
    decreases |atoms|
  {
    if atoms != [] {
      var next := CheckedAdd(total, atoms[0]);
      if next.Ok? { FoldedIsTotal(next.value, atoms[1..]); }
    }
  }

  lemma {:induction false} MemberBelowTotal(atoms: seq<Estimate>, i: nat)
    requires i < |atoms|
    ensures atoms[i].tokens <= TotalTokens(atoms)
  {
    if i > 0 { MemberBelowTotal(atoms[1..], i - 1); }
  }

  lemma {:induction false} TotalConcat(a: seq<Estimate>, b: seq<Estimate>)
    ensures TotalTokens(a + b) == TotalTokens(a) + TotalTokens(b)
    ensures TotalOpaque(a + b) == TotalOpaque(a) + TotalOpaque(b)
  {
    if a == [] {
      assert a + b == b;
    } else {
      TotalConcat(a[1..], b);
      assert (a + b)[1..] == a[1..] + b;
    }
  }

  /** A measurement, when there is one, is of a prefix of these atoms. */
  ghost predicate Covers(anchor: Option<Anchor>, atoms: seq<Estimate>) {
    anchor.Some? ==> anchor.value.atomCount <= |atoms|
  }

  ghost predicate Unmeasured(anchor: Option<Anchor>, atoms: seq<Estimate>, i: nat) {
    i < |atoms| && (anchor.Some? ==> anchor.value.atomCount <= i)
  }

  /** What nobody measured: the atoms after the prefix, and the environment when there is no prefix. */
  ghost function Rest(environment: Estimate, atoms: seq<Estimate>, anchor: Option<Anchor>): Estimate
    requires Covers(anchor, atoms)
  {
    match anchor
    case None =>
      Estimate(environment.tokens + TotalTokens(atoms), environment.opaqueBytes + TotalOpaque(atoms))
    case Some(a) => Estimate(TotalTokens(atoms[a.atomCount..]), TotalOpaque(atoms[a.atomCount..]))
  }

  /** The exact occupancy: what was measured, and everything that was not. */
  ghost function Occupancy(environment: Estimate, atoms: seq<Estimate>, anchor: Option<Anchor>): nat
    requires Covers(anchor, atoms)
  {
    (if anchor.Some? then anchor.value.inputTokens else 0) + Rest(environment, atoms, anchor).tokens
  }

  /** What the environment costs a request: its estimate, or a measurement that includes it if less. */
  ghost predicate Costs(anchor: Option<Anchor>, environment: Estimate, cost: nat) {
    && (anchor.None? ==> cost == environment.tokens)
    && (anchor.Some? ==>
          && cost <= environment.tokens && cost <= anchor.value.inputTokens
          && (cost == environment.tokens || cost == anchor.value.inputTokens))
  }

  ghost predicate WellTyped(limits: Limits, environment: Estimate, anchor: Option<Anchor>) {
    && ValidLimits(limits)
    && environment.tokens <= U64_MAX && environment.opaqueBytes <= U64_MAX
    && MeasuredOf(anchor) <= U64_MAX
  }

  // ------------------------------------------------------------------ the decision

  /** Whether an unmeasured atom fits a request of its own, beside the environment. */
  ghost predicate FitsAlone(limits: Limits, cost: nat, atom: Estimate) {
    cost + atom.tokens <= limits.Capacity()
  }

  lemma {:induction false} MisfitIsFirst(
    limits: Limits, cost: nat, atoms: seq<Estimate>, index: nat)
    requires index <= |atoms|
    requires forall i :: index <= i < |atoms| ==> cost + atoms[i].tokens <= U64_MAX
    ensures var misfit := Misfit(limits, cost, atoms, index);
            && misfit.Ok?
            && (misfit.value.None? <==>
                  forall i :: index <= i < |atoms| ==> FitsAlone(limits, cost, atoms[i]))
            && (misfit.value.Some? ==>
                  && index <= misfit.value.value < |atoms|
                  && !FitsAlone(limits, cost, atoms[misfit.value.value])
                  && forall i :: index <= i < misfit.value.value ==> FitsAlone(limits, cost, atoms[i]))
    decreases |atoms| - index
  {
    if index < |atoms| {
      if FitsAlone(limits, cost, atoms[index]) {
        MisfitIsFirst(limits, cost, atoms, index + 1);
      }
    }
  }

  /** Environment and any one unmeasured atom together never exceed the occupancy. */
  lemma AloneBelowOccupancy(environment: Estimate, atoms: seq<Estimate>, anchor: Option<Anchor>, i: nat)
    requires Covers(anchor, atoms) && Unmeasured(anchor, atoms, i)
    ensures EnvironmentCost(anchor, environment) + atoms[i].tokens <= Occupancy(environment, atoms, anchor)
  {
    assert atoms[0..] == atoms;
    MemberBelowTotal(atoms[PrefixOf(anchor)..], i - PrefixOf(anchor));
  }

  ghost predicate DecisionHoldsAt(
    limits: Limits, environment: Estimate, atoms: seq<Estimate>, anchor: Option<Anchor>, cost: nat,
    decision: Decision)
    requires Covers(anchor, atoms)
  {
    var input := Occupancy(environment, atoms, anchor);
    match decision
    case Fits => input <= limits.soft
    case ImpossibleItem(Environment) =>
      input > limits.Capacity() && anchor.None? && environment.tokens > limits.Capacity()
    case ImpossibleItem(Atom(index)) =>
      && input > limits.Capacity()
      && (anchor.None? ==> environment.tokens <= limits.Capacity())
      && Unmeasured(anchor, atoms, index) && !FitsAlone(limits, cost, atoms[index])
      && (forall i: nat :: i < index && Unmeasured(anchor, atoms, i) ==>
            FitsAlone(limits, cost, atoms[i]))
    case CompactionNeeded(pressure) =>
      && input > limits.soft
      && (pressure.HardLimit? <==> input > limits.Capacity())
      && (forall i: nat :: Unmeasured(anchor, atoms, i) ==> FitsAlone(limits, cost, atoms[i]))
      && (anchor.None? ==> environment.tokens <= limits.Capacity())
  }

  /** The exact condition each decision stands for. */
  ghost predicate DecisionHolds(
    limits: Limits, environment: Estimate, atoms: seq<Estimate>, anchor: Option<Anchor>, decision: Decision)
    requires Covers(anchor, atoms)
  {
    forall cost: nat | Costs(anchor, environment, cost) ::
      DecisionHoldsAt(limits, environment, atoms, anchor, cost, decision)
  }

  /** The cost the ledger works with is the one there is. */
  lemma CostIs(anchor: Option<Anchor>, environment: Estimate, cost: nat)
    ensures Costs(anchor, environment, cost) <==> cost == EnvironmentCost(anchor, environment)
  {
  }

  lemma DecisionAtCost(
    limits: Limits, environment: Estimate, atoms: seq<Estimate>, anchor: Option<Anchor>, d: Decision)
    requires Covers(anchor, atoms)
    ensures DecisionHolds(limits, environment, atoms, anchor, d) <==>
              DecisionHoldsAt(limits, environment, atoms, anchor, EnvironmentCost(anchor, environment), d)
  {
    hide DecisionHoldsAt, Costs, EnvironmentCost;
    forall cost: nat
      ensures Costs(anchor, environment, cost) <==> cost == EnvironmentCost(anchor, environment)
    {
      CostIs(anchor, environment, cost);
    }
  }

  /** The conditions exclude each other: a ledger meets at most one of them. */
  lemma DecisionIsUnique(
    limits: Limits, environment: Estimate, atoms: seq<Estimate>, anchor: Option<Anchor>,
    d: Decision, e: Decision)
    requires ValidLimits(limits) && Covers(anchor, atoms)
    requires DecisionHolds(limits, environment, atoms, anchor, d)
    requires DecisionHolds(limits, environment, atoms, anchor, e)
    ensures d == e
  {
    hide Occupancy, EnvironmentCost, FitsAlone, DecisionHolds;
    DecisionAtCost(limits, environment, atoms, anchor, d);
    DecisionAtCost(limits, environment, atoms, anchor, e);
  }

  lemma DecideMeets(
    limits: Limits, environment: Estimate, atoms: seq<Estimate>, anchor: Option<Anchor>)
    requires WellTyped(limits, environment, anchor) && Covers(anchor, atoms)
    requires Occupancy(environment, atoms, anchor) <= U64_MAX
    ensures PrefixOf(anchor) <= |atoms|
    ensures var decided := Decide(limits, EnvironmentCost(anchor, environment), atoms, PrefixOf(anchor),
                                  anchor.Some?, Occupancy(environment, atoms, anchor));
            decided.Ok? && DecisionHolds(limits, environment, atoms, anchor, decided.value)
  {
    var cost := EnvironmentCost(anchor, environment);
    forall i: nat | PrefixOf(anchor) <= i < |atoms|
      ensures Unmeasured(anchor, atoms, i)
      ensures cost + atoms[i].tokens <= Occupancy(environment, atoms, anchor)
    {
      AloneBelowOccupancy(environment, atoms, anchor, i);
    }
    MisfitIsFirst(limits, cost, atoms, PrefixOf(anchor));
    hide Misfit, Occupancy, DecisionHolds;
    var decided := Decide(limits, cost, atoms, PrefixOf(anchor), anchor.Some?,
                          Occupancy(environment, atoms, anchor));
    DecisionAtCost(limits, environment, atoms, anchor, decided.value);
  }

  lemma DecideHolds(
    limits: Limits, environment: Estimate, atoms: seq<Estimate>, anchor: Option<Anchor>)
    requires WellTyped(limits, environment, anchor) && Covers(anchor, atoms)
    requires Occupancy(environment, atoms, anchor) <= U64_MAX
    ensures PrefixOf(anchor) <= |atoms|
    ensures var decided := Decide(limits, EnvironmentCost(anchor, environment), atoms, PrefixOf(anchor),
                                  anchor.Some?, Occupancy(environment, atoms, anchor));
            decided.Ok? && forall d ::
              decided.value == d <==> DecisionHolds(limits, environment, atoms, anchor, d)
  {
    DecideMeets(limits, environment, atoms, anchor);
    hide Decide, DecisionHolds, Occupancy, EnvironmentCost;
    var decided := Decide(limits, EnvironmentCost(anchor, environment), atoms, PrefixOf(anchor),
                          anchor.Some?, Occupancy(environment, atoms, anchor)).value;
    forall d | DecisionHolds(limits, environment, atoms, anchor, d) ensures decided == d {
      DecisionIsUnique(limits, environment, atoms, anchor, decided, d);
    }
  }

  /**
   * A ledger is built exactly when its anchor covers existing atoms and its two exact sums fit 64
   * bits; the decision itself never overflows, anchored or not. Its occupancy and what remains
   * unmeasured are the exact sums, and it keeps what capacity is left over.
   */
  lemma LedgerIff(limits: Limits, environment: Estimate, atoms: seq<Estimate>, anchor: Option<Anchor>)
    requires WellTyped(limits, environment, anchor)
    ensures FromEstimates(limits, environment, atoms, anchor).Ok? <==>
              && Covers(anchor, atoms)
              && Occupancy(environment, atoms, anchor) <= U64_MAX
              && Rest(environment, atoms, anchor).opaqueBytes <= U64_MAX
    ensures FromEstimates(limits, environment, atoms, anchor).Err? ==>
              FromEstimates(limits, environment, atoms, anchor).error ==
                if Covers(anchor, atoms) then Overflow else InvalidAnchor
    ensures FromEstimates(limits, environment, atoms, anchor).Ok? ==>
              var ledger := FromEstimates(limits, environment, atoms, anchor).value;
              && ledger.inputTokens == Occupancy(environment, atoms, anchor)
              && ledger.remainder == Rest(environment, atoms, anchor)
              && (if ledger.inputTokens <= limits.Capacity()
                  then ledger.inputTokens + ledger.remaining == limits.Capacity()
                  else ledger.remaining == 0)
              && forall d ::
                   ledger.decision == d <==> DecisionHolds(limits, environment, atoms, anchor, d)
  {
    if Covers(anchor, atoms) {
      assert atoms[0..] == atoms;
      FoldedIsTotal(StartOf(anchor, environment), atoms[PrefixOf(anchor)..]);
      if Occupancy(environment, atoms, anchor) <= U64_MAX {
        DecideHolds(limits, environment, atoms, anchor);
      }
    }
    hide Folded, Decide, DecisionHolds, TotalTokens, TotalOpaque;
  }

  lemma FitsExactly(limits: Limits, environment: Estimate, atoms: seq<Estimate>, anchor: Option<Anchor>)
    requires WellTyped(limits, environment, anchor) && FromEstimates(limits, environment, atoms, anchor).Ok?
    ensures Covers(anchor, atoms)
    ensures FromEstimates(limits, environment, atoms, anchor).value.decision.Fits? <==>
              Occupancy(environment, atoms, anchor) <= limits.soft
  {
    LedgerIff(limits, environment, atoms, anchor);
    hide FromEstimates, TotalTokens, TotalOpaque;
  }

  lemma SameMisfit(
    limits: Limits, environment: Estimate, atoms: seq<Estimate>, more: seq<Estimate>, anchor: Option<Anchor>)
    requires WellTyped(limits, environment, anchor)
    requires FromEstimates(limits, environment, atoms, anchor).Ok?
    requires FromEstimates(limits, environment, atoms + more, anchor).Ok?
    ensures FromEstimates(limits, environment, atoms, anchor).value.decision.ImpossibleItem? ==>
              FromEstimates(limits, environment, atoms + more, anchor).value.decision ==
              FromEstimates(limits, environment, atoms, anchor).value.decision
  {
    LedgerIff(limits, environment, atoms, anchor);
    LedgerIff(limits, environment, atoms + more, anchor);
    var prefix := PrefixOf(anchor);
    assert (atoms + more)[prefix..] == atoms[prefix..] + more;
    TotalConcat(atoms[prefix..], more);
    assert forall i :: prefix <= i < |atoms| ==> (atoms + more)[i] == atoms[i];
    hide FromEstimates, TotalTokens, TotalOpaque;
    var d := FromEstimates(limits, environment, atoms, anchor).value.decision;
    assert DecisionHolds(limits, environment, atoms, anchor, d);
    if d.ImpossibleItem? {
      assert DecisionHolds(limits, environment, atoms + more, anchor, d);
    }
  }

  /** Adding atoms never turns a ledger that does not fit into one that does. */
  lemma MoreAtomsNeverFit(
    limits: Limits, environment: Estimate, atoms: seq<Estimate>, more: seq<Estimate>, anchor: Option<Anchor>)
    requires WellTyped(limits, environment, anchor)
    requires FromEstimates(limits, environment, atoms, anchor).Ok?
    requires FromEstimates(limits, environment, atoms + more, anchor).Ok?
    ensures !FromEstimates(limits, environment, atoms, anchor).value.decision.Fits? ==>
              !FromEstimates(limits, environment, atoms + more, anchor).value.decision.Fits?
    ensures FromEstimates(limits, environment, atoms, anchor).value.decision.ImpossibleItem? ==>
              FromEstimates(limits, environment, atoms + more, anchor).value.decision ==
              FromEstimates(limits, environment, atoms, anchor).value.decision
  {
    LedgerIff(limits, environment, atoms, anchor);
    LedgerIff(limits, environment, atoms + more, anchor);
    var prefix := PrefixOf(anchor);
    assert (atoms + more)[prefix..] == atoms[prefix..] + more;
    TotalConcat(atoms[prefix..], more);
    assert forall i :: prefix <= i < |atoms| ==> (atoms + more)[i] == atoms[i];
    FitsExactly(limits, environment, atoms, anchor);
    FitsExactly(limits, environment, atoms + more, anchor);
    SameMisfit(limits, environment, atoms, more, anchor);
    hide FromEstimates, Folded, Decide, DecisionHolds, TotalTokens, TotalOpaque;
  }
}
