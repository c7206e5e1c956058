/**
 * What every reachable journal satisfies. `Shape` is what reading a journal relies on: lookups the
 * program writes as unreachable failures are well-formed under it.
 */
module JournalInvariant {
  import opened Options
  import opened ModelOutput
  import opened JournalModel

  ghost predicate ParentPrecedes(s: JournalState, e: EntryId)
    requires e in s.entries && s.entries.Keys == s.entrySequences.Keys
  {
    s.entries[e].parent.Some? ==>
      var p := s.entries[e].parent.value;
      p in s.entries && s.entrySequences[p] < s.entrySequences[e]
  }

  /** Entries keep their own identity, and every parent was appended by an earlier record. */
  ghost predicate Forest(s: JournalState) {
    && s.entries.Keys == s.entrySequences.Keys
    && (forall e <- s.entries ::
          && s.entries[e].id == e
          && 1 <= s.entrySequences[e] < s.nextSequence
          && ParentPrecedes(s, e))
  }

  /** Every entry is classified exactly once: stable, or unstable under one turn. */
  ghost predicate Partition(s: JournalState) {
    s.stable + s.unstable.Keys == s.entries.Keys && s.stable !! s.unstable.Keys
  }

  /** Heads point at existing entries, the selection exists, and no name is active and retired. */
  ghost predicate HeadsAnchored(s: JournalState) {
    && s.selected in s.heads
    && s.heads.Keys !! s.retired
    && (forall h <- s.heads ::
          && s.heads[h].revision < s.nextSequence
          && (s.heads[h].target.Some? ==> s.heads[h].target.value in s.entries))
  }

  /** The attempt order lists each indexed attempt once; an owner is active while one is unfinished. */
  ghost predicate AttemptsIndexed(s: JournalState) {
    && (forall a :: a in s.attemptOrder <==> a in s.attempts)
    && (forall i, j :: 0 <= i < j < |s.attemptOrder| ==> s.attemptOrder[i] != s.attemptOrder[j])
    && (forall a <- s.attempts ::
          && s.attempts[a].authorization.attempt == a
          && s.attempts[a].authorization.boundary in s.entries)
    && (forall o <- s.activeOwners ::
          && s.activeOwners[o] in s.attempts
          && s.attempts[s.activeOwners[o]].authorization.owner == o
          && s.attempts[s.activeOwners[o]].terminal.None?)
    && (forall a <- s.attempts :: s.attempts[a].terminal.None? ==>
          && s.attempts[a].authorization.owner in s.activeOwners
          && s.activeOwners[s.attempts[a].authorization.owner] == a)
  }

  /** A collected compaction is indexed at the record that carries it. */
  ghost predicate CompactionsIndexed(s: JournalState) {
    forall a <- s.compactions ::
      && s.compactions[a] < |s.records|
      && s.records[s.compactions[a]].FinishCompaction?
      && s.records[s.compactions[a]].collected.terminal.attempt == a
      && a in s.attempts
      && s.attempts[a].authorization.owner.Compaction?
  }

  ghost predicate Shape(s: JournalState) {
    && Forest(s)
    && Partition(s)
    && HeadsAnchored(s)
    && AttemptsIndexed(s)
    && CompactionsIndexed(s)
  }

  ghost predicate HeadMatches(s: JournalState, head: Head) {
    match head.open
    case None => head.target.Some? ==> head.target.value in s.stable
    case Some(t) =>
      && head.target.Some?
      && head.target.value in s.unstable
      && s.unstable[head.target.value] == t
  }

  /** A head is open on a turn exactly while its target is unstable, and then on that entry's turn. */
  ghost predicate OpenMatches(s: JournalState) {
    forall h <- s.heads :: HeadMatches(s, s.heads[h])
  }

  /** No two heads are open on the same turn. */
  ghost predicate OpenUnique(s: JournalState) {
    forall h, g :: h in s.heads && g in s.heads && h != g && s.heads[h].open.Some? ==>
      s.heads[h].open != s.heads[g].open
  }

  /** Open and finished turns were started, and an open turn has not finished. */
  ghost predicate TurnsKnown(s: JournalState) {
    && s.finishes.Keys <= s.starts.Keys
    && (forall t <- s.finishes :: s.finishes[t].turn == t && s.finishes[t].boundary in s.stable)
    && (forall h <- s.heads :: s.heads[h].open.Some? ==>
          s.heads[h].open.value in s.starts && s.heads[h].open.value !in s.finishes)
    && (forall e <- s.unstable :: s.unstable[e] in s.starts)
  }

  /** The steps recorded for a turn are exactly one to its last index. */
  ghost predicate StepsContiguous(s: JournalState) {
    && (forall t <- s.lastSteps :: t in s.starts && 1 <= s.lastSteps[t] <= U16_MAX)
    && (forall step :: step in s.steps <==>
          step.turn in s.lastSteps && 1 <= step.index <= s.lastSteps[step.turn])
  }

  /** Records are numbered from one without a gap and never share an identity. */
  ghost predicate RecordsNumbered(s: JournalState) {
    && s.nextSequence == |s.records| + 1
    && s.nextSequence <= U64_MAX
    && (forall i :: 0 <= i < |s.records| ==> s.records[i].sequence == i + 1)
    && (forall id :: id in s.recordIds <==> exists i :: 0 <= i < |s.records| && s.records[i].id == id)
    && (forall i, j :: 0 <= i < j < |s.records| ==> s.records[i].id != s.records[j].id)
  }

  /** The entry lies in turn `t`: unstable under it, or stable because the turn has finished. */
  ghost predicate BelongsTo(s: JournalState, e: EntryId, t: TurnId) {
    (e in s.unstable && s.unstable[e] == t) || (e in s.stable && t in s.finishes)
  }

  ghost predicate EntryChained(s: JournalState, entry: Entry) {
    match StartedTurn(entry.payload)
    case Some(started) =>
      && (entry.parent.Some? ==> entry.parent.value in s.stable)
      && BelongsTo(s, entry.id, started.1)
    case None =>
      if entry.parent.Some? && entry.parent.value in s.unstable
      then BelongsTo(s, entry.id, s.unstable[entry.parent.value])
      else entry.id in s.stable
  }

  /**
   * How an entry and its parent are classified: a turn begins on completed ancestry, and an entry
   * inside a turn follows an entry of that turn which stays unstable.
   */
  ghost predicate TurnChain(s: JournalState) {
    forall e <- s.entries :: EntryChained(s, s.entries[e])
  }

  /** The entry a head is open at has no child, so it can still become the boundary of its turn. */
  ghost predicate OpenTipsAreLeaves(s: JournalState) {
    forall h, e :: h in s.heads && s.heads[h].open.Some? && e in s.entries ==>
      s.entries[e].parent != s.heads[h].target
  }

  ghost predicate Inv(s: JournalState) {
    && Shape(s)
    && OpenMatches(s)
    && OpenUnique(s)
    && TurnsKnown(s)
    && StepsContiguous(s)
    && RecordsNumbered(s)
    && TurnChain(s)
    && OpenTipsAreLeaves(s)
  }
}
