/** The journal as the program keeps it: linked indexes updated in place, one record at a time. */
module ConversationJournal {
  import opened Options
  import opened ModelOutput
  import opened JournalModel
  import opened JournalInvariant
  import opened JournalRules
  import opened JournalHistory
  import opened JournalPaths

  /** What one application means, for an accepted and for a refused record. */
  lemma ApplyContract(s: JournalState, r: Record)
    requires Reachable(s)
    ensures Inv(s) && Shape(s) && Continues(s, s)
    ensures Validate(s, r).Accepted? ==>
      && Reducible(s, r)
      && Reduce(s, r) == Retained(Mutated(s, r), r)
      && Reachable(Reduce(s, r))
      && Continues(s, Reduce(s, r))
  {
    ReachableInv(s);
    ContinuesReflexive(s);
    if Accepts(s, r) {
      hide Continues, Reachable;
      ReachableStep(s, r);
      StepContinues(s, r);
    }
  }

  // The fields each update leaves behind, put together as one state.

  ghost predicate AppendEffect(
    s: JournalState, s': JournalState, head: HeadName, entry: Entry, sequence: nat)
    requires head in s.heads
  {
    var open := NextOpen(s, head, entry.payload);
    var started := StartedTurn(entry.payload);
    && s'.starts == (if started.Some?
                     then s.starts[started.value.1 := TurnStart(started.value.0, entry.id)]
                     else s.starts)
    && s'.steps == (if entry.payload.AssistantOutput? then s.steps + {entry.payload.step}
                    else s.steps)
    && s'.lastSteps == (if entry.payload.AssistantOutput?
                        then s.lastSteps[entry.payload.step.turn := entry.payload.step.index]
                        else s.lastSteps)
    && s'.entries == s.entries[entry.id := entry]
    && s'.entrySequences == s.entrySequences[entry.id := sequence]
    && s'.stable == (if open.None? then s.stable + {entry.id} else s.stable)
    && s'.unstable == (if open.Some? then s.unstable[entry.id := open.value] else s.unstable)
    && s'.heads == s.heads[head := Head(Some(entry.id), s.heads[head].revision + 1, open)]
  }

  lemma AppendedFields(
    s: JournalState, s': JournalState, head: HeadName, entry: Entry, sequence: nat)
    requires head in s.heads && AppendEffect(s, s', head, entry, sequence)
    requires s' == s.(starts := s'.starts, steps := s'.steps, lastSteps := s'.lastSteps,
                      entries := s'.entries, entrySequences := s'.entrySequences,
                      stable := s'.stable, unstable := s'.unstable, heads := s'.heads)
    ensures s' == Appended(s, head, entry, sequence)
  {
  }

  lemma HeadFields(s: JournalState, s': JournalState, r: Record)
    requires (r.MoveHead? || r.RenameHead?) ==> r.head in s.heads
    requires s' == s.(heads := s'.heads, selected := s'.selected, retired := s'.retired)
    requires var m := HeadMutated(s, r);
             s'.heads == m.heads && s'.selected == m.selected && s'.retired == m.retired
    ensures s' == HeadMutated(s, r)
  {
  }

  lemma FinishedFields(s: JournalState, s': JournalState, head: HeadName, fact: TurnFinish)
    requires head in s.heads
    requires s' == s.(finishes := s'.finishes, stable := s'.stable, unstable := s'.unstable,
                      heads := s'.heads)
    requires s'.finishes == s.finishes[fact.turn := fact]
    requires s'.stable == s.stable + {fact.boundary}
    requires s'.unstable == s.unstable - {fact.boundary}
    requires s'.heads == s.heads[head := s.heads[head].(open := None)]
    ensures s' == Finished(s, head, fact)
  {
  }

  lemma AuthorizedFields(s: JournalState, s': JournalState, fact: Authorization)
    requires s' == s.(attemptOrder := s'.attemptOrder, activeOwners := s'.activeOwners,
                      attempts := s'.attempts)
    requires s'.attemptOrder == s.attemptOrder + [fact.attempt]
    requires s'.activeOwners == s.activeOwners[fact.owner := fact.attempt]
    requires s'.attempts == s.attempts[fact.attempt := Attempt(fact, None)]
    ensures s' == Authorized(s, fact)
  {
  }

  lemma TerminatedFields(s: JournalState, s': JournalState, fact: Terminal)
    requires fact.attempt in s.attempts
    requires s' == s.(attempts := s'.attempts, activeOwners := s'.activeOwners)
    requires s'.attempts == s.attempts[fact.attempt :=
                              s.attempts[fact.attempt].(terminal := Some(fact))]
    requires s'.activeOwners == s.activeOwners - {s.attempts[fact.attempt].authorization.owner}
    ensures s' == Terminated(s, fact)
  {
  }

  lemma RetainedSo(s: JournalState, s': JournalState, r: Record)
    requires s' == s.(recordIds := s.recordIds + {r.id}, records := s.records + [r],
                      nextSequence := s.nextSequence + 1)
    ensures s' == Retained(s, r)
  {
  }

  function Reversed<T>(s: seq<T>): (r: seq<T>)
    ensures |r| == |s|
    ensures forall k :: 0 <= k < |s| ==> r[k] == s[|s| - 1 - k]
  {
    if s == [] then [] else [s[|s| - 1]] + Reversed(s[..|s| - 1])
  }

  lemma ReversedAppend<T>(s: seq<T>, x: T)
    ensures Reversed(s + [x]) == [x] + Reversed(s)
  {
    assert (s + [x])[..|s|] == s;
  }

  class Journal {
    const session: string
    var nextSequence: nat
    var records: seq<Record>
    var recordIds: set<RecordId>
    var entries: map<EntryId, Entry>
    var labels: map<EntryId, string>
    var entrySequences: map<EntryId, nat>
    var stable: set<EntryId>
    var unstable: map<EntryId, TurnId>
    var heads: map<HeadName, Head>
    var selected: HeadName
    var retired: set<HeadName>
    var starts: map<TurnId, TurnStart>
    var finishes: map<TurnId, TurnFinish>
    var steps: set<StepId>
    var lastSteps: map<TurnId, nat>
    var attempts: map<AttemptId, Attempt>
    var attemptOrder: seq<AttemptId>
    var activeOwners: map<AttemptOwner, AttemptId>
    var compactions: map<AttemptId, nat>

    function State(): JournalState
      reads this
    {
      JournalState(session, nextSequence, records, recordIds, entries, labels, entrySequences,
                   stable, unstable, heads, selected, retired, starts, finishes, steps, lastSteps,
                   attempts, attemptOrder, activeOwners, compactions)
    }

    ghost predicate Valid()
      reads this
    {
      Reachable(State())
    }

    constructor (session: string)
      ensures Valid()
      ensures State() == Empty(session)
    {
      this.session := session;
      nextSequence, records, recordIds := 1, [], {};
      entries, labels, entrySequences := map[], map[], map[];
      stable, unstable := {}, map[];
      heads, selected, retired := map[MAIN := Head(None, 0, None)], MAIN, {};
      starts, finishes, steps, lastSteps := map[], map[], {}, map[];
      attempts, attemptOrder, activeOwners, compactions := map[], [], map[], map[];
      new;
      assert Replay(session, []) == Some(State());
    }

    /** Applies one record, or leaves every field as it was and says why. */
    method Apply(r: Record) returns (verdict: Check)
      requires Valid()
      modifies this
      ensures Valid()
      ensures Inv(old(State())) && verdict == Validate(old(State()), r)
      ensures verdict.Accepted? ==> State() == Reduce(old(State()), r)
      ensures verdict.Refused? ==> State() == old(State())
      ensures Continues(old(State()), State())
    {
      hide Inv, Shape, Validate, Accepts, Reduce, Reachable, Continues, Retained, Mutated, State;
      ApplyContract(State(), r);
      verdict := Validate(State(), r);
      if verdict.Accepted? {
        Commit(r);
      }
    }

    method Commit(r: Record)
      requires Reducible(State(), r)
      modifies this
      ensures State() == Retained(Mutated(old(State()), r), r)
    {
      hide Mutated, Retained;
      Mutate(r);
      ghost var s := State();
      recordIds := recordIds + {r.id};
      records := records + [r];
      nextSequence := nextSequence + 1;
      RetainedSo(s, State(), r);
    }

    method Mutate(r: Record)
      requires Reducible(State(), r)
      modifies this
      ensures State() == Mutated(old(State()), r)
    {
      hide Appended, HeadMutated, Finished, Authorized, Labelled, Collect;
      hide Terminated;
      match r {
        case AppendEntry(sequence, _, head, _, entry) => MutateAppend(head, entry, sequence);
        case SetEntryLabel(_, _, target, text) => MutateLabel(target, text);
        case FinishTurn(_, _, head, _, fact) => MutateFinish(head, fact);
        case AuthorizeAttempt(_, _, _, _, fact) => MutateAuthorization(fact);
        case FinishAttempt(_, _, fact) => MutateTerminal(fact);
        case FinishCompaction(_, _, fact) => MutateCompaction(fact);
        case _ => MutateNamedHead(r);
      }
    }

    method MutateAppend(head: HeadName, entry: Entry, sequence: nat)
      requires head in heads
      modifies this
      ensures State() == Appended(old(State()), head, entry, sequence)
    {
      hide Appended, AppendEffect;
      ghost var before := State();
      ApplyAppend(head, entry, sequence);
      AppendedFields(before, State(), head, entry, sequence);
    }

    method MutateNamedHead(r: Record)
      requires (r.MoveHead? || r.RenameHead?) ==> r.head in heads
      modifies this
      ensures State() == HeadMutated(old(State()), r)
    {
      hide HeadMutated;
      ghost var before := State();
      ApplyNamedHead(r);
      HeadFields(before, State(), r);
    }

    method MutateLabel(target: EntryId, text: Option<string>)
      modifies this`labels
      ensures State() == Labelled(old(State()), target, text)
    {
      labels := if text.Some? then labels[target := text.value] else labels - {target};
    }

    method MutateCompaction(fact: Collected)
      requires fact.terminal.attempt in attempts
      modifies this`attempts, this`activeOwners, this`compactions
      ensures State() == Collect(old(State()), fact)
    {
      hide Terminated;
      MutateTerminal(fact.terminal);
      compactions := compactions[fact.terminal.attempt := |records|];
    }

    method MutateFinish(head: HeadName, fact: TurnFinish)
      requires head in heads
      modifies this
      ensures State() == Finished(old(State()), head, fact)
    {
      hide Finished;
      ghost var before := State();
      ApplyFinish(head, fact);
      FinishedFields(before, State(), head, fact);
    }

    method MutateAuthorization(fact: Authorization)
      modifies this
      ensures State() == Authorized(old(State()), fact)
    {
      hide Authorized;
      ghost var before := State();
      ApplyAuthorization(fact);
      AuthorizedFields(before, State(), fact);
    }

    method MutateTerminal(fact: Terminal)
      requires fact.attempt in attempts
      modifies this`attempts, this`activeOwners
      ensures State() == Terminated(old(State()), fact)
    {
      hide Terminated;
      ghost var before := State();
      ApplyTerminal(fact);
      TerminatedFields(before, State(), fact);
    }

    method ApplyAppend(head: HeadName, entry: Entry, sequence: nat)
      requires head in heads
      modifies this`starts, this`steps, this`lastSteps, this`entries, this`entrySequences
      modifies this`stable, this`unstable, this`heads
      ensures AppendEffect(old(State()), State(), head, entry, sequence)
    {
      hide StartedTurn;
      var open := NextOpen(State(), head, entry.payload);
      IndexStart(entry);
      IndexStep(entry.payload);
      Classify(entry.id, open);
      entries := entries[entry.id := entry];
      entrySequences := entrySequences[entry.id := sequence];
      heads := heads[head := Head(Some(entry.id), heads[head].revision + 1, open)];
    }

    method IndexStart(entry: Entry)
      modifies this`starts
      ensures starts == var started := StartedTurn(entry.payload);
                        if started.Some?
                        then old(starts)[started.value.1 := TurnStart(started.value.0, entry.id)]
                        else old(starts)
    {
      var started := StartedTurn(entry.payload);
      if started.Some? {
        starts := starts[started.value.1 := TurnStart(started.value.0, entry.id)];
      }
    }

    method IndexStep(payload: Payload)
      modifies this`steps, this`lastSteps
      ensures steps == if payload.AssistantOutput? then old(steps) + {payload.step} else old(steps)
      ensures lastSteps == if payload.AssistantOutput?
                           then old(lastSteps)[payload.step.turn := payload.step.index]
                           else old(lastSteps)
    {
      if payload.AssistantOutput? {
        steps := steps + {payload.step};
        lastSteps := lastSteps[payload.step.turn := payload.step.index];
      }
    }

    method Classify(id: EntryId, open: Option<TurnId>)
      modifies this`stable, this`unstable
      ensures stable == if open.None? then old(stable) + {id} else old(stable)
      ensures unstable == if open.Some? then old(unstable)[id := open.value] else old(unstable)
    {
      if open.None? {
        stable := stable + {id};
      } else {
        unstable := unstable[id := open.value];
      }
    }

    method ApplyNamedHead(r: Record)
      requires (r.MoveHead? || r.RenameHead?) ==> r.head in heads
      modifies this`heads, this`selected, this`retired
      ensures var s := HeadMutated(old(State()), r);
              heads == s.heads && selected == s.selected && retired == s.retired
    {
      match r {
        case CreateHead(_, _, head, at) => heads := heads[head := Head(at, 0, None)];
        case MoveHead(_, _, head, _, to) =>
          heads := heads[head := Head(to, heads[head].revision + 1, None)];
        case RenameHead(_, _, head, _, renamed) => ApplyRename(head, renamed);
        case AbandonHead(_, _, head, _) =>
          heads := heads - {head};
          retired := retired + {head};
        case ForkAndSelectHead(_, _, _, _, destination, at) =>
          heads := heads[destination := Head(at, 0, None)];
          selected := destination;
        case SelectHead(_, _, _, destination, _) => selected := destination;
        case _ =>
      }
    }

    method ApplyRename(head: HeadName, renamed: HeadName)
      requires head in heads
      modifies this`heads, this`selected, this`retired
      ensures heads == (old(heads) - {head})[renamed :=
                         old(heads)[head].(revision := old(heads)[head].revision + 1)]
      ensures retired == old(retired) + {head}
      ensures selected == if old(selected) == head then renamed else old(selected)
    {
      var state := heads[head];
      heads := heads - {head};
      state := state.(revision := state.revision + 1);
      retired := retired + {head};
      if selected == head {
        selected := renamed;
      }
      heads := heads[renamed := state];
    }

    method ApplyFinish(head: HeadName, fact: TurnFinish)
      requires head in heads
      modifies this`finishes, this`stable, this`unstable, this`heads
      ensures finishes == old(finishes)[fact.turn := fact]
      ensures stable == old(stable) + {fact.boundary}
      ensures unstable == old(unstable) - {fact.boundary}
      ensures heads == old(heads)[head := old(heads)[head].(open := None)]
    {
      finishes := finishes[fact.turn := fact];
      stable := stable + {fact.boundary};
      unstable := unstable - {fact.boundary};
      heads := heads[head := heads[head].(open := None)];
    }

    method ApplyAuthorization(fact: Authorization)
      modifies this`attemptOrder, this`activeOwners, this`attempts
      ensures attemptOrder == old(attemptOrder) + [fact.attempt]
      ensures activeOwners == old(activeOwners)[fact.owner := fact.attempt]
      ensures attempts == old(attempts)[fact.attempt := Attempt(fact, None)]
    {
      attemptOrder := attemptOrder + [fact.attempt];
      activeOwners := activeOwners[fact.owner := fact.attempt];
      attempts := attempts[fact.attempt := Attempt(fact, None)];
    }

    method ApplyTerminal(fact: Terminal)
      requires fact.attempt in attempts
      modifies this`attempts, this`activeOwners
      ensures attempts == old(attempts)[fact.attempt :=
                            old(attempts)[fact.attempt].(terminal := Some(fact))]
      ensures activeOwners ==
              old(activeOwners) - {old(attempts)[fact.attempt].authorization.owner}
    {
      var owner := attempts[fact.attempt].authorization.owner;
      attempts := attempts[fact.attempt := attempts[fact.attempt].(terminal := Some(fact))];
      activeOwners := activeOwners - {owner};
    }

    /** Entries from the root through the head's target; a missing head is refused. */
    method Path(head: HeadName) returns (path: Option<seq<Entry>>)
      requires Valid()
      ensures Inv(State())
      ensures path.None? <==> head !in heads
      ensures path.Some? ==> path.value == PathOf(State(), head)
      ensures path.Some? ==> RootToTarget(State(), path.value, heads[head].target)
    {
      ReachableInv(State());
      if head !in heads {
        return None;
      }
      assert HeadsAnchored(State());
      var entriesToRoot := Climb(State(), heads[head].target);
      path := Some(entriesToRoot);
      AncestryIsThePath(State(), entriesToRoot, heads[head].target);
    }

    static method Climb(s: JournalState, target: Option<EntryId>) returns (path: seq<Entry>)
      requires Forest(s) && (target.Some? ==> target.value in s.entries)
      ensures path == Ancestry(s, target)
    {
      var cursor := target;
      path := [];
      while cursor.Some?
        invariant cursor.Some? ==> cursor.value in s.entries
        invariant Ancestry(s, target) == Ancestry(s, cursor) + Reversed(path)
        decreases if cursor.Some? then s.entrySequences[cursor.value] + 1 else 0
      {
        assert ParentPrecedes(s, cursor.value);
        var entry := s.entries[cursor.value];
        ReversedAppend(path, entry);
        path := path + [entry];
        cursor := entry.parent;
      }
      path := Reversed(path);
    }
  }
}
