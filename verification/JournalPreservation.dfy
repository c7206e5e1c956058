/** Every accepted record keeps the journal invariant, whatever the payload and the head. */
module JournalPreservation {
  import opened Options
  import opened JournalModel
  import opened JournalInvariant
  import opened JournalRules

  lemma EmptyKeeps(session: string)
    ensures Inv(Empty(session))
  {
  }

  // ------------------------------------------------------------------ append

  /** What acceptance of an append establishes, without the order the checks were made in. */
  ghost predicate AppendGuard(s: JournalState, head: HeadName, entry: Entry) {
    && head in s.heads
    && entry.id !in s.entries
    && entry.parent == s.heads[head].target
    && s.nextSequence < U64_MAX
    && (StartedTurn(entry.payload).Some? ==>
          StartedTurn(entry.payload).value.1 !in s.starts && s.heads[head].open.None?)
    && (entry.payload.AssistantOutput? ==>
          && s.heads[head].open == Some(entry.payload.step.turn)
          && Some(entry.payload.step.index) == ExpectedStep(s, entry.payload.step.turn))
  }

  lemma AppendAccepted(s: JournalState, r: Record)
    requires r.AppendEntry? && Accepts(s, r)
    ensures AppendGuard(s, r.head, r.entry)
  {
    hide Shape, Ancestry, LastIndex, Announced, EpochOf;
    assert ValidatePayload(s, r.head, r.entry).Accepted?;
  }

  lemma AppendKeepsForest(s: JournalState, r: Record, s': JournalState)
    requires Forest(s) && HeadsAnchored(s) && r.AppendEntry? && AppendGuard(s, r.head, r.entry)
    requires r.sequence == s.nextSequence && 1 <= s.nextSequence
    requires s' == Retained(Appended(s, r.head, r.entry, r.sequence), r)
    ensures Forest(s')
  {
    forall e <- s'.entries
      ensures s'.entries[e].id == e && 1 <= s'.entrySequences[e] < s'.nextSequence
      ensures ParentPrecedes(s', e)
    {
      if e != r.entry.id { assert ParentPrecedes(s, e); }
    }
  }

  lemma AppendKeepsAnchors(s: JournalState, r: Record, s': JournalState)
    requires Partition(s) && HeadsAnchored(s)
    requires r.AppendEntry? && AppendGuard(s, r.head, r.entry)
    requires s' == Retained(Appended(s, r.head, r.entry, r.sequence), r)
    ensures Partition(s') && HeadsAnchored(s')
  {
  }

  lemma AppendKeepsAttempts(s: JournalState, r: Record, s': JournalState)
    requires AttemptsIndexed(s) && CompactionsIndexed(s)
    requires r.AppendEntry? && AppendGuard(s, r.head, r.entry)
    requires s' == Retained(Appended(s, r.head, r.entry, r.sequence), r)
    ensures AttemptsIndexed(s') && CompactionsIndexed(s')
  {
  }

  lemma AppendKeepsHeads(s: JournalState, r: Record, s': JournalState)
    requires Partition(s) && HeadsAnchored(s) && OpenMatches(s) && OpenUnique(s) && TurnsKnown(s)
    requires r.AppendEntry? && AppendGuard(s, r.head, r.entry)
    requires s' == Retained(Appended(s, r.head, r.entry, r.sequence), r)
    ensures OpenMatches(s') && OpenUnique(s')
  {
    var open := NextOpen(s, r.head, r.entry.payload);
    forall h <- s'.heads ensures HeadMatches(s', s'.heads[h]) {
      if h != r.head { assert HeadMatches(s, s.heads[h]); }
    }
    forall h, g | h in s'.heads && g in s'.heads && h != g && s'.heads[h].open.Some?
      ensures s'.heads[h].open != s'.heads[g].open
    {
      if StartedTurn(r.entry.payload).Some? {
        assert forall x <- s.heads :: s.heads[x].open != open;
      }
    }
  }

  lemma AppendKeepsTurns(s: JournalState, r: Record, s': JournalState)
    requires TurnsKnown(s)
    requires r.AppendEntry? && AppendGuard(s, r.head, r.entry)
    requires s' == Retained(Appended(s, r.head, r.entry, r.sequence), r)
    ensures TurnsKnown(s')
  {
  }

  lemma AppendKeepsSteps(s: JournalState, r: Record, s': JournalState)
    requires TurnsKnown(s) && StepsContiguous(s)
    requires r.AppendEntry? && AppendGuard(s, r.head, r.entry)
    requires s' == Retained(Appended(s, r.head, r.entry, r.sequence), r)
    ensures StepsContiguous(s')
  {
    if !r.entry.payload.AssistantOutput? {
      assert s'.steps == s.steps && s'.lastSteps == s.lastSteps;
    }
  }

  lemma AppendKeepsChain(s: JournalState, r: Record, s': JournalState)
    requires Forest(s) && Partition(s) && OpenMatches(s) && TurnChain(s)
    requires r.AppendEntry? && AppendGuard(s, r.head, r.entry)
    requires s' == Retained(Appended(s, r.head, r.entry, r.sequence), r)
    ensures TurnChain(s')
  {
    assert HeadMatches(s, s.heads[r.head]);
    forall e <- s'.entries ensures EntryChained(s', s'.entries[e]) {
      if e != r.entry.id {
        assert EntryChained(s, s.entries[e]);
        assert ParentPrecedes(s, e);
        assert e in s.stable + s.unstable.Keys;
      }
    }
  }

  lemma AppendKeepsLeaves(s: JournalState, r: Record, s': JournalState)
    requires Forest(s) && OpenMatches(s) && OpenUnique(s) && OpenTipsAreLeaves(s)
    requires HeadsAnchored(s) && Partition(s)
    requires r.AppendEntry? && AppendGuard(s, r.head, r.entry)
    requires s' == Retained(Appended(s, r.head, r.entry, r.sequence), r)
    ensures OpenTipsAreLeaves(s')
  {
    var id := r.entry.id;
    assert HeadMatches(s, s.heads[r.head]);
    forall h, e | h in s'.heads && s'.heads[h].open.Some? && e in s'.entries
      ensures s'.entries[e].parent != s'.heads[h].target
    {
      if e != id { assert ParentPrecedes(s, e); }
      if h != r.head { assert HeadMatches(s, s.heads[h]); }
    }
  }

  lemma RetentionKeepsNumbers(s: JournalState, s': JournalState, r: Record)
    requires RecordsNumbered(s)
    requires r.sequence == s.nextSequence < U64_MAX && r.id !in s.recordIds
    requires s'.records == s.records + [r] && s'.recordIds == s.recordIds + {r.id}
    requires s'.nextSequence == s.nextSequence + 1
    ensures RecordsNumbered(s')
  {
    forall id
      ensures id in s'.recordIds <==> exists i :: 0 <= i < |s'.records| && s'.records[i].id == id
    {
      if id == r.id {
        assert s'.records[|s.records|].id == id;
      } else if id in s.recordIds {
        var i :| 0 <= i < |s.records| && s.records[i].id == id;
        assert s'.records[i].id == id;
      }
    }
    forall i, j | 0 <= i < j < |s'.records| ensures s'.records[i].id != s'.records[j].id {
      assert s.records[i].id in s.recordIds;
    }
  }

  // ------------------------------------------------------------------ head mutations

  ghost predicate StableOrRoot(s: JournalState, target: Option<EntryId>) {
    target.Some? ==> target.value in s.stable
  }

  ghost predicate Fresh(s: JournalState, head: HeadName) {
    head !in s.heads && head !in s.retired
  }

  /** The head exists and stands at the revision the record names. */
  ghost predicate Current(s: JournalState, head: HeadName, expected: nat) {
    head in s.heads && s.heads[head].revision == expected
  }

  ghost predicate HeadGuard(s: JournalState, r: Record) {
    match r
    case CreateHead(_, _, head, at) => Fresh(s, head) && StableOrRoot(s, at)
    case MoveHead(_, _, head, expected, to) => Current(s, head, expected) && StableOrRoot(s, to)
    case RenameHead(_, _, head, expected, renamed) => Current(s, head, expected) && Fresh(s, renamed)
    case AbandonHead(_, _, head, expected) =>
      && Current(s, head, expected) && head != s.selected
      && StableOrRoot(s, s.heads[head].target)
    case ForkAndSelectHead(_, _, source, expected, destination, at) =>
      && s.selected == source && Current(s, source, expected)
      && Fresh(s, destination) && StableOrRoot(s, at)
    case SelectHead(_, _, expectedSelected, destination, expected) =>
      s.selected == expectedSelected && Current(s, destination, expected)
    case _ => false
  }

  ghost predicate IsHeadMutation(r: Record) {
    || r.CreateHead? || r.MoveHead? || r.RenameHead? || r.AbandonHead?
    || r.ForkAndSelectHead? || r.SelectHead?
  }

  lemma HeadMutationAccepted(s: JournalState, r: Record)
    requires IsHeadMutation(r) && Accepts(s, r)
    ensures HeadGuard(s, r)
  {
    assert ValidateNamedHead(s, r).Accepted?;
  }

  /** A head after the mutation is an untouched one, a renamed one, or one placed on completed work. */
  ghost predicate HeadOrigin(s: JournalState, r: Record, h: HeadName, head: Head) {
    || (h in s.heads && head == s.heads[h] && !(r.RenameHead? && h == r.head))
    || (r.RenameHead? && h == r.renamed && r.head in s.heads
        && head == s.heads[r.head].(revision := s.heads[r.head].revision + 1))
    || (head.open.None? && StableOrRoot(s, head.target)
        && (head.revision == 0
            || (r.MoveHead? && h == r.head && h in s.heads
                && head.revision == s.heads[h].revision + 1)))
  }

  lemma HeadsAfterMutation(s: JournalState, r: Record, s': JournalState)
    requires IsHeadMutation(r) && HeadGuard(s, r) && HeadsAnchored(s)
    requires s' == Retained(HeadMutated(s, r), r)
    ensures forall h <- s'.heads :: HeadOrigin(s, r, h, s'.heads[h])
    ensures s'.selected in s'.heads && s'.heads.Keys !! s'.retired
  {
  }

  lemma HeadMutationKeepsHeads(s: JournalState, r: Record, s': JournalState)
    requires Partition(s) && HeadsAnchored(s) && OpenMatches(s) && 1 <= s.nextSequence
    requires IsHeadMutation(r) && HeadGuard(s, r)
    requires s' == Retained(HeadMutated(s, r), r)
    ensures HeadsAnchored(s') && OpenMatches(s')
  {
    HeadsAfterMutation(s, r, s');
    forall h <- s'.heads
      ensures s'.heads[h].revision < s'.nextSequence
      ensures s'.heads[h].target.Some? ==> s'.heads[h].target.value in s'.entries
      ensures HeadMatches(s', s'.heads[h])
    {
      assert HeadOrigin(s, r, h, s'.heads[h]);
      if h in s.heads { assert HeadMatches(s, s.heads[h]); }
      if r.RenameHead? { assert HeadMatches(s, s.heads[r.head]); }
    }
  }

  lemma HeadMutationKeepsOpen(s: JournalState, r: Record, s': JournalState)
    requires HeadsAnchored(s) && OpenUnique(s)
    requires IsHeadMutation(r) && HeadGuard(s, r)
    requires s' == Retained(HeadMutated(s, r), r)
    ensures OpenUnique(s')
  {
    HeadsAfterMutation(s, r, s');
    forall h, g | h in s'.heads && g in s'.heads && h != g && s'.heads[h].open.Some?
      ensures s'.heads[h].open != s'.heads[g].open
    {
      assert HeadOrigin(s, r, h, s'.heads[h]) && HeadOrigin(s, r, g, s'.heads[g]);
    }
  }

  /** The two states hold the same entries, turns and steps. */
  ghost predicate SameContent(s: JournalState, s': JournalState) {
    && s'.entries == s.entries && s'.entrySequences == s.entrySequences
    && s'.stable == s.stable && s'.unstable == s.unstable
    && s'.starts == s.starts && s'.finishes == s.finishes
    && s'.steps == s.steps && s'.lastSteps == s.lastSteps
  }

  ghost predicate SameAttempts(s: JournalState, s': JournalState) {
    && s'.attempts == s.attempts && s'.attemptOrder == s.attemptOrder
    && s'.activeOwners == s.activeOwners && s'.compactions == s.compactions
  }

  lemma ContentUnmoved(s: JournalState, r: Record)
    requires IsHeadMutation(r) && HeadGuard(s, r)
    ensures var s' := Retained(HeadMutated(s, r), r);
            SameContent(s, s') && SameAttempts(s, s') && s'.nextSequence == s.nextSequence + 1
  {
  }

  lemma HeadMutationKeepsTurns(s: JournalState, r: Record, s': JournalState)
    requires HeadsAnchored(s) && TurnsKnown(s) && OpenTipsAreLeaves(s)
    requires IsHeadMutation(r) && HeadGuard(s, r)
    requires s' == Retained(HeadMutated(s, r), r)
    ensures TurnsKnown(s') && OpenTipsAreLeaves(s')
  {
    HeadsAfterMutation(s, r, s');
    ContentUnmoved(s, r);
    forall h <- s'.heads
      ensures s'.heads[h].open.Some? ==>
        s'.heads[h].open.value in s'.starts && s'.heads[h].open.value !in s'.finishes
    {
      assert HeadOrigin(s, r, h, s'.heads[h]);
    }
    forall h, e | h in s'.heads && s'.heads[h].open.Some? && e in s'.entries
      ensures s'.entries[e].parent != s'.heads[h].target
    {
      assert HeadOrigin(s, r, h, s'.heads[h]);
    }
  }

  /** Predicates over content carry over when only a record was retained. */
  lemma ContentKept(s: JournalState, s': JournalState)
    requires Forest(s) && Partition(s) && StepsContiguous(s) && TurnChain(s)
    requires SameContent(s, s') && s'.nextSequence == s.nextSequence + 1
    ensures Forest(s') && Partition(s') && StepsContiguous(s') && TurnChain(s')
  {
    forall e <- s'.entries
      ensures ParentPrecedes(s', e) && EntryChained(s', s'.entries[e])
    {
      assert ParentPrecedes(s, e) && EntryChained(s, s.entries[e]);
    }
  }

  lemma AttemptsKept(s: JournalState, s': JournalState, r: Record)
    requires AttemptsIndexed(s) && CompactionsIndexed(s)
    requires SameAttempts(s, s') && s'.entries == s.entries && s'.records == s.records + [r]
    ensures AttemptsIndexed(s') && CompactionsIndexed(s')
  {
  }

  // ------------------------------------------------------------------ terminal facts

  ghost predicate FinishGuard(s: JournalState, head: HeadName, fact: TurnFinish) {
    && head in s.heads
    && s.heads[head].target == Some(fact.boundary)
    && s.heads[head].open == Some(fact.turn)
    && fact.turn in s.starts && fact.turn !in s.finishes
  }

  lemma FinishAccepted(s: JournalState, r: Record)
    requires r.FinishTurn? && Accepts(s, r)
    ensures FinishGuard(s, r.head, r.finish)
  {
    assert ValidateMutation(s, r).Accepted?;
  }

  lemma FinishKeepsShape(s: JournalState, r: Record, s': JournalState)
    requires Forest(s) && Partition(s) && HeadsAnchored(s)
    requires r.FinishTurn? && FinishGuard(s, r.head, r.finish)
    requires s' == Retained(Finished(s, r.head, r.finish), r)
    ensures Forest(s') && Partition(s') && HeadsAnchored(s')
  {
    forall e <- s'.entries ensures ParentPrecedes(s', e) {
      assert ParentPrecedes(s, e);
    }
  }

  lemma FinishKeepsHeads(s: JournalState, r: Record, s': JournalState)
    requires Partition(s) && OpenMatches(s) && OpenUnique(s)
    requires r.FinishTurn? && FinishGuard(s, r.head, r.finish)
    requires s' == Retained(Finished(s, r.head, r.finish), r)
    ensures OpenMatches(s') && OpenUnique(s')
  {
    assert HeadMatches(s, s.heads[r.head]);
    forall h <- s'.heads ensures HeadMatches(s', s'.heads[h]) {
      assert HeadMatches(s, s.heads[h]);
      if h != r.head { assert s.heads[h].open != s.heads[r.head].open; }
    }
  }

  lemma FinishKeepsTurns(s: JournalState, r: Record, s': JournalState)
    requires OpenUnique(s) && TurnsKnown(s) && OpenTipsAreLeaves(s)
    requires r.FinishTurn? && FinishGuard(s, r.head, r.finish)
    requires s' == Retained(Finished(s, r.head, r.finish), r)
    ensures TurnsKnown(s') && OpenTipsAreLeaves(s')
  {
    assert forall h <- s.heads :: h != r.head ==> s.heads[h].open != s.heads[r.head].open;
  }

  lemma FinishKeepsChain(s: JournalState, r: Record, s': JournalState)
    requires Forest(s) && Partition(s) && OpenMatches(s) && TurnChain(s)
    requires OpenTipsAreLeaves(s)
    requires r.FinishTurn? && FinishGuard(s, r.head, r.finish)
    requires s' == Retained(Finished(s, r.head, r.finish), r)
    ensures TurnChain(s')
  {
    assert HeadMatches(s, s.heads[r.head]);
    forall e <- s'.entries ensures EntryChained(s', s'.entries[e]) {
      assert EntryChained(s, s.entries[e]);
      assert s.entries[e].parent != s.heads[r.head].target;
      assert ParentPrecedes(s, e);
    }
  }

  // ------------------------------------------------------------------ attempts

  /** The two states agree on everything the head and turn predicates read. */
  ghost predicate SameHeads(s: JournalState, s': JournalState) {
    s'.heads == s.heads && s'.selected == s.selected && s'.retired == s.retired
  }

  lemma HeadsKept(s: JournalState, s': JournalState)
    requires HeadsAnchored(s) && OpenMatches(s) && OpenUnique(s) && TurnsKnown(s)
    requires OpenTipsAreLeaves(s)
    requires SameContent(s, s') && SameHeads(s, s') && s'.nextSequence == s.nextSequence + 1
    ensures HeadsAnchored(s') && OpenMatches(s') && OpenUnique(s') && TurnsKnown(s')
    ensures OpenTipsAreLeaves(s')
  {
    forall h <- s'.heads ensures HeadMatches(s', s'.heads[h]) {
      assert HeadMatches(s, s.heads[h]);
    }
  }

  lemma AuthorizationKeepsAttempts(s: JournalState, fact: Authorization)
    requires AttemptsIndexed(s)
    requires fact.attempt !in s.attempts && fact.owner !in s.activeOwners
    requires fact.boundary in s.entries
    ensures AttemptsIndexed(Authorized(s, fact))
  {
  }

  lemma TerminalKeepsAttempts(s: JournalState, fact: Terminal)
    requires AttemptsIndexed(s)
    requires fact.attempt in s.attempts && s.attempts[fact.attempt].terminal.None?
    ensures AttemptsIndexed(Terminated(s, fact))
  {
    var s' := Terminated(s, fact);
    forall a | a in s'.attempts && s'.attempts[a].terminal.None?
      ensures s'.attempts[a].authorization.owner in s'.activeOwners
      ensures s'.activeOwners[s'.attempts[a].authorization.owner] == a
    {
      assert s.attempts[a] == s'.attempts[a];
    }
  }

  // ------------------------------------------------------------------ every record

  ghost predicate Enveloped(s: JournalState, r: Record) {
    r.sequence == s.nextSequence < U64_MAX && r.id !in s.recordIds
  }

  lemma EnvelopeAccepted(s: JournalState, r: Record)
    requires Accepts(s, r)
    ensures Enveloped(s, r)
  {
  }

  lemma RetainedFields(s: JournalState, r: Record)
    requires Reducible(s, r)
    ensures var s' := Reduce(s, r);
            && s'.records == s.records + [r] && s'.recordIds == s.recordIds + {r.id}
            && s'.nextSequence == s.nextSequence + 1 && s'.session == s.session
  {
  }

  /** A numbered head mutation is accepted exactly when its guard holds. */
  lemma HeadMutationIff(s: JournalState, r: Record)
    requires Inv(s) && IsHeadMutation(r) && Enveloped(s, r)
    ensures Accepts(s, r) <==> HeadGuard(s, r)
  {
    hide Forest, AttemptsIndexed, CompactionsIndexed, OpenMatches, OpenUnique, TurnsKnown;
    hide StepsContiguous, TurnChain, OpenTipsAreLeaves, RecordsNumbered;
    assert forall e <- s.stable :: e in s.stable + s.unstable.Keys;
    assert Validate(s, r) == ValidateNamedHead(s, r);
    assert forall h <- s.heads :: ValidateIncrement(s.heads[h].revision).Accepted?;
  }

  lemma AppendKeepsInv(s: JournalState, r: Record)
    requires Inv(s) && Enveloped(s, r) && r.AppendEntry? && AppendGuard(s, r.head, r.entry)
    ensures Inv(Reduce(s, r))
  {
    hide Forest, Partition, HeadsAnchored, AttemptsIndexed, CompactionsIndexed, OpenMatches;
    hide OpenUnique, TurnsKnown, StepsContiguous, TurnChain, OpenTipsAreLeaves;
    var s' := Reduce(s, r);
    AppendKeepsForest(s, r, s');
    AppendKeepsAnchors(s, r, s');
    AppendKeepsAttempts(s, r, s');
    AppendKeepsHeads(s, r, s');
    AppendKeepsTurns(s, r, s');
    AppendKeepsSteps(s, r, s');
    AppendKeepsChain(s, r, s');
    AppendKeepsLeaves(s, r, s');
    RetentionKeepsNumbers(s, s', r);
  }

  lemma HeadMutationKeepsInv(s: JournalState, r: Record)
    requires Inv(s) && Enveloped(s, r) && IsHeadMutation(r) && HeadGuard(s, r)
    ensures Inv(Reduce(s, r))
  {
    hide Forest, Partition, HeadsAnchored, AttemptsIndexed, CompactionsIndexed, OpenMatches;
    hide OpenUnique, TurnsKnown, StepsContiguous, TurnChain, OpenTipsAreLeaves;
    var s' := Reduce(s, r);
    ContentUnmoved(s, r);
    ContentKept(s, s');
    AttemptsKept(s, s', r);
    HeadMutationKeepsHeads(s, r, s');
    HeadMutationKeepsOpen(s, r, s');
    HeadMutationKeepsTurns(s, r, s');
    RetainedFields(s, r);
    RetentionKeepsNumbers(s, s', r);
  }

  lemma FinishFrame(s: JournalState, r: Record)
    requires Reducible(s, r) && r.FinishTurn?
    ensures var s' := Reduce(s, r);
            && SameAttempts(s, s') && s'.entries == s.entries && s'.starts == s.starts
            && s'.steps == s.steps && s'.lastSteps == s.lastSteps
  {
  }

  lemma StepsKept(s: JournalState, s': JournalState)
    requires StepsContiguous(s)
    requires s'.steps == s.steps && s'.lastSteps == s.lastSteps && s'.starts == s.starts
    ensures StepsContiguous(s')
  {
  }

  lemma FinishKeepsInv(s: JournalState, r: Record)
    requires Inv(s) && Enveloped(s, r) && r.FinishTurn? && FinishGuard(s, r.head, r.finish)
    ensures Inv(Reduce(s, r))
  {
    hide Forest, Partition, HeadsAnchored, AttemptsIndexed, CompactionsIndexed, OpenMatches;
    hide OpenUnique, TurnsKnown, StepsContiguous, TurnChain, OpenTipsAreLeaves;
    var s' := Reduce(s, r);
    FinishKeepsShape(s, r, s');
    FinishKeepsHeads(s, r, s');
    FinishKeepsTurns(s, r, s');
    FinishKeepsChain(s, r, s');
    FinishFrame(s, r);
    StepsKept(s, s');
    RetainedFields(s, r);
    AttemptsKept(s, s', r);
    RetentionKeepsNumbers(s, s', r);
  }

  ghost predicate IsAttemptRecord(r: Record) {
    r.AuthorizeAttempt? || r.FinishAttempt? || r.FinishCompaction? || r.SetEntryLabel?
  }

  ghost predicate AttemptGuard(s: JournalState, r: Record) {
    match r
    case AuthorizeAttempt(_, _, _, _, fact) =>
      fact.attempt !in s.attempts && fact.owner !in s.activeOwners && fact.boundary in s.entries
    case FinishAttempt(_, _, fact) =>
      fact.attempt in s.attempts && s.attempts[fact.attempt].terminal.None?
    case FinishCompaction(_, _, collected) =>
      && collected.terminal.attempt in s.attempts
      && s.attempts[collected.terminal.attempt].terminal.None?
      && s.attempts[collected.terminal.attempt].authorization.owner.Compaction?
    case SetEntryLabel(_, _, target, _) => target in s.entries
    case _ => false
  }

  lemma AttemptAccepted(s: JournalState, r: Record)
    requires Accepts(s, r) && IsAttemptRecord(r)
    ensures AttemptGuard(s, r)
  {
    hide Forest, AttemptsIndexed, CompactionsIndexed, Partition;
    assert ValidateMutation(s, r).Accepted?;
    if r.AuthorizeAttempt? {
      assert ValidateAuthorization(s, r.head, r.expected, r.authorization).Accepted?;
      assert r.head in s.heads && s.heads[r.head].target == Some(r.authorization.boundary);
    }
  }

  /** Attempt facts and labels advance no head, entry, turn or step. */
  lemma AttemptFrame(s: JournalState, r: Record)
    requires Reducible(s, r) && IsAttemptRecord(r)
    ensures SameContent(s, Reduce(s, r)) && SameHeads(s, Reduce(s, r))
  {
  }

  lemma AttemptKeepsIndexes(s: JournalState, r: Record)
    requires IsAttemptRecord(r) && AttemptGuard(s, r) && AttemptsIndexed(s)
    ensures AttemptsIndexed(Reduce(s, r))
  {
    match r {
      case AuthorizeAttempt(_, _, _, _, fact) => AuthorizationKeepsAttempts(s, fact);
      case FinishAttempt(_, _, fact) => TerminalKeepsAttempts(s, fact);
      case FinishCompaction(_, _, collected) => TerminalKeepsAttempts(s, collected.terminal);
      case _ =>
    }
  }

  lemma AttemptKeepsCompactions(s: JournalState, r: Record)
    requires IsAttemptRecord(r) && AttemptGuard(s, r) && CompactionsIndexed(s)
    ensures CompactionsIndexed(Reduce(s, r))
  {
  }

  lemma AttemptKeepsInv(s: JournalState, r: Record)
    requires Inv(s) && Enveloped(s, r) && IsAttemptRecord(r) && AttemptGuard(s, r)
    ensures Inv(Reduce(s, r))
  {
    hide Forest, Partition, HeadsAnchored, AttemptsIndexed, CompactionsIndexed, OpenMatches;
    hide OpenUnique, TurnsKnown, StepsContiguous, TurnChain, OpenTipsAreLeaves;
    var s' := Reduce(s, r);
    AttemptFrame(s, r);
    AttemptKeepsIndexes(s, r);
    AttemptKeepsCompactions(s, r);
    RetainedFields(s, r);
    ContentKept(s, s');
    HeadsKept(s, s');
    RetentionKeepsNumbers(s, s', r);
  }

  /** The invariant is inductive: no accepted record can break it. */
  lemma ReduceKeepsInv(s: JournalState, r: Record)
    requires Inv(s) && Accepts(s, r)
    ensures Inv(Reduce(s, r))
  {
    EnvelopeAccepted(s, r);
    if r.AppendEntry? {
      AppendAccepted(s, r);
      AppendKeepsInv(s, r);
    } else if r.FinishTurn? {
      FinishAccepted(s, r);
      FinishKeepsInv(s, r);
    } else if IsHeadMutation(r) {
      HeadMutationAccepted(s, r);
      HeadMutationKeepsInv(s, r);
    } else {
      AttemptAccepted(s, r);
      AttemptKeepsInv(s, r);
    }
  }
}
