/**
 * Whole runs: replay of an accepted record list, what never changes along a run, and the soundness
 * of compare-and-set by head name and revision.
 */
module JournalHistory {
  import opened Options
  import opened ModelOutput
  import opened JournalModel
  import opened JournalInvariant
  import opened JournalRules
  import opened JournalPreservation

  /** Applies every record in order to an empty journal; none when one of them is refused. */
  ghost function Replay(session: string, records: seq<Record>): Option<JournalState> {
    if records == [] then Some(Empty(session))
    else
      var last := |records| - 1;
      match Replay(session, records[..last])
      case None => None
      case Some(s) => if Accepts(s, records[last]) then Some(Reduce(s, records[last])) else None
  }

  /** The state some accepted run leads to. */
  ghost predicate Reachable(s: JournalState) {
    exists records :: Replay(s.session, records) == Some(s)
  }

  /** Replaying a run yields a journal that holds exactly that run and satisfies the invariant. */
  lemma {:induction false} ReplayHolds(session: string, records: seq<Record>)
    requires Replay(session, records).Some?
    ensures var s := Replay(session, records).value;
            Inv(s) && s.session == session && s.records == records
  {
    hide Accepts, Reduce, Inv;
    if records == [] {
      EmptyKeeps(session);
    } else {
      var last := |records| - 1;
      ReplayHolds(session, records[..last]);
      var s := Replay(session, records[..last]).value;
      ReduceKeepsInv(s, records[last]);
      RetainedFields(s, records[last]);
      assert records == records[..last] + [records[last]];
    }
  }

  /** Reload equals live append: a reachable journal is rebuilt, field for field, from its records. */
  lemma ReplayOfOwnRecords(s: JournalState)
    requires Reachable(s)
    ensures Replay(s.session, s.records) == Some(s)
    ensures Inv(s) && s.nextSequence == |s.records| + 1
  {
    var records :| Replay(s.session, records) == Some(s);
    ReplayHolds(s.session, records);
  }

  lemma ReachableStep(s: JournalState, r: Record)
    requires Reachable(s) && Accepts(s, r)
    ensures Reachable(Reduce(s, r))
  {
    ReplayOfOwnRecords(s);
    RetainedFields(s, r);
    var records := s.records + [r];
    assert records[..|records| - 1] == s.records;
    assert Replay(s.session, records) == Some(Reduce(s, r));
  }

  /** Reachability holds exactly of the states the invariant-keeping replay produces. */
  lemma ReachableInv(s: JournalState)
    requires Reachable(s)
    ensures Inv(s)
  {
    ReplayOfOwnRecords(s);
  }

  // ------------------------------------------------------------------ indexes of a reachable journal

  ghost predicate Unfinished(s: JournalState, a: AttemptId)
    requires a in s.attempts
  {
    s.attempts[a].terminal.None?
  }

  /** An owner is active exactly while one of its attempts is unfinished, and then only one is. */
  lemma ActiveOwnersAreUnfinished(s: JournalState, owner: AttemptOwner)
    requires Reachable(s)
    ensures owner in s.activeOwners <==>
      exists a :: a in s.attempts && Unfinished(s, a) && s.attempts[a].authorization.owner == owner
    ensures forall a, b ::
              (&& a in s.attempts && b in s.attempts && Unfinished(s, a) && Unfinished(s, b)
               && s.attempts[a].authorization.owner == s.attempts[b].authorization.owner)
              ==> a == b
  {
    ReachableInv(s);
    if owner in s.activeOwners { assert Unfinished(s, s.activeOwners[owner]); }
  }

  /** The recorded steps of a turn are one to its last index; a next step must carry the following. */
  lemma RecordedStepsAreContiguous(s: JournalState, turn: TurnId, index: nat)
    requires Reachable(s)
    ensures StepId(turn, index) in s.steps <==> turn in s.lastSteps && 1 <= index <= s.lastSteps[turn]
    ensures ValidateStepIndex(s, StepId(turn, index)).Accepted? ==>
      StepId(turn, index) !in s.steps && (index == 1 || StepId(turn, index - 1) in s.steps)
  {
    ReachableInv(s);
    assert StepId(turn, index).turn == turn && StepId(turn, index).index == index;
    if index > 1 { assert StepId(turn, index - 1).turn == turn; }
  }

  // ------------------------------------------------------------------ monotone facts

  ghost predicate HeadContinues(head: Head, s': JournalState, h: HeadName) {
    || h in s'.retired
    || (h in s'.heads
        && head.revision <= s'.heads[h].revision
        && (head.revision == s'.heads[h].revision ==> head.target == s'.heads[h].target))
  }

  /**
   * `s'` continues `s`: entries and finished turns are kept, stability and retirement only grow, and
   * each head either keeps its name with a revision that only rises, or its name is retired.
   */
  ghost predicate Continues(s: JournalState, s': JournalState) {
    && s.records <= s'.records
    && s.retired <= s'.retired
    && s.stable <= s'.stable
    && s.starts.Keys <= s'.starts.Keys
    && (forall e <- s.entries :: e in s'.entries && s'.entries[e] == s.entries[e])
    && (forall e <- s.entrySequences ::
          e in s'.entrySequences && s'.entrySequences[e] == s.entrySequences[e])
    && (forall t <- s.finishes :: t in s'.finishes && s'.finishes[t] == s.finishes[t])
    && (forall h <- s.heads :: HeadContinues(s.heads[h], s', h))
  }

  lemma ContinuesReflexive(s: JournalState)
    ensures Continues(s, s)
  {
  }

  lemma ContinuesTransitive(a: JournalState, b: JournalState, c: JournalState)
    requires Continues(a, b) && Continues(b, c)
    requires Inv(b) && Inv(c)
    ensures Continues(a, c)
  {
    forall h <- a.heads ensures HeadContinues(a.heads[h], c, h) {
      assert HeadContinues(a.heads[h], b, h);
      if h in b.heads { assert HeadContinues(b.heads[h], c, h); }
    }
  }

  lemma AppendContinues(s: JournalState, r: Record)
    requires r.AppendEntry? && AppendGuard(s, r.head, r.entry)
    requires s.entries.Keys == s.entrySequences.Keys
    ensures Continues(s, Reduce(s, r))
  {
  }

  lemma FinishContinues(s: JournalState, r: Record)
    requires r.FinishTurn? && FinishGuard(s, r.head, r.finish)
    ensures Continues(s, Reduce(s, r))
  {
  }

  lemma HeadMutationContinues(s: JournalState, r: Record)
    requires IsHeadMutation(r) && HeadGuard(s, r)
    ensures Continues(s, Reduce(s, r))
  {
    ContentUnmoved(s, r);
    RetainedFields(s, r);
    var s' := Reduce(s, r);
    forall h <- s.heads ensures HeadContinues(s.heads[h], s', h) {
    }
  }

  lemma AttemptContinues(s: JournalState, r: Record)
    requires IsAttemptRecord(r) && AttemptGuard(s, r)
    ensures Continues(s, Reduce(s, r))
  {
    AttemptFrame(s, r);
    RetainedFields(s, r);
  }

  lemma StepContinues(s: JournalState, r: Record)
    requires Inv(s) && Accepts(s, r)
    ensures Continues(s, Reduce(s, r))
  {
    if r.AppendEntry? {
      AppendAccepted(s, r);
      AppendContinues(s, r);
    } else if r.FinishTurn? {
      FinishAccepted(s, r);
      FinishContinues(s, r);
    } else if IsHeadMutation(r) {
      HeadMutationAccepted(s, r);
      HeadMutationContinues(s, r);
    } else {
      AttemptAccepted(s, r);
      AttemptContinues(s, r);
    }
  }

  lemma {:induction false} PrefixReplays(session: string, records: seq<Record>, i: nat)
    requires i <= |records| && Replay(session, records).Some?
    ensures Replay(session, records[..i]).Some?
  {
    if i < |records| {
      var front := records[..|records| - 1];
      PrefixReplays(session, front, i);
      assert front[..i] == records[..i];
    } else {
      assert records[..i] == records;
    }
  }

  /** A run continues each of its prefixes. */
  lemma {:induction false} RunContinues(session: string, records: seq<Record>, i: nat)
    requires i <= |records| && Replay(session, records).Some?
    ensures Replay(session, records[..i]).Some?
    ensures Continues(Replay(session, records[..i]).value, Replay(session, records).value)
    decreases |records|
  {
    hide Accepts, Reduce, Inv, Continues;
    PrefixReplays(session, records, i);
    if i == |records| {
      assert records[..i] == records;
      ContinuesReflexive(Replay(session, records).value);
    } else {
      var last := |records| - 1;
      var front := records[..last];
      assert front[..i] == records[..i];
      RunContinues(session, front, i);
      ReplayHolds(session, front);
      ReplayHolds(session, records);
      var b := Replay(session, front).value;
      StepContinues(b, records[last]);
      ContinuesTransitive(Replay(session, records[..i]).value, b, Replay(session, records).value);
    }
  }

  /**
   * Compare-and-set soundness: at any two moments of a run, one head name with one revision denotes
   * one target. A check of name and revision therefore proves the target was not changed.
   */
  lemma CompareAndSetSound(session: string, records: seq<Record>, i: nat, j: nat, head: HeadName)
    requires i <= j <= |records| && Replay(session, records).Some?
    requires Replay(session, records[..i]).Some? && Replay(session, records[..j]).Some?
    requires var a := Replay(session, records[..i]).value;
             var b := Replay(session, records[..j]).value;
             && head in a.heads && head in b.heads
             && a.heads[head].revision == b.heads[head].revision
    ensures Replay(session, records[..i]).value.heads[head].target
         == Replay(session, records[..j]).value.heads[head].target
  {
    assert records[..j][..i] == records[..i];
    RunContinues(session, records[..j], i);
    ReplayHolds(session, records[..j]);
    var a := Replay(session, records[..i]).value;
    assert HeadContinues(a.heads[head], Replay(session, records[..j]).value, head);
  }

  /** A name that was given up is never active again. */
  lemma RetiredNamesStayRetired(session: string, records: seq<Record>, i: nat, head: HeadName)
    requires i <= |records| && Replay(session, records).Some?
    requires Replay(session, records[..i]).Some?
    requires head in Replay(session, records[..i]).value.retired
    ensures head !in Replay(session, records).value.heads
  {
    RunContinues(session, records, i);
    ReplayHolds(session, records);
  }

  lemma PayloadNeverExhausts(s: JournalState, head: HeadName, entry: Entry)
    requires Shape(s) && head in s.heads && entry.parent == s.heads[head].target
    ensures ValidatePayload(s, head, entry) != Refused(RevisionExhausted)
  {
    hide Shape, Ancestry, PathOf, Candidate, EpochOf, LastIndex, Announced;
  }

  lemma AppendNeverExhausts(s: JournalState, head: HeadName, expected: nat, entry: Entry)
    requires Shape(s)
    requires head in s.heads ==> s.heads[head].revision < U64_MAX
    ensures ValidateAppend(s, head, expected, entry) != Refused(RevisionExhausted)
  {
    hide Shape, ValidatePayload;
    if head in s.heads && entry.parent == s.heads[head].target {
      PayloadNeverExhausts(s, head, entry);
    }
  }

  lemma NamedHeadNeverExhausts(s: JournalState, r: Record)
    requires Shape(s)
    requires forall h <- s.heads :: s.heads[h].revision < U64_MAX
    ensures ValidateNamedHead(s, r) != Refused(RevisionExhausted)
  {
    hide Shape;
  }

  lemma MutationNeverExhausts(s: JournalState, r: Record)
    requires Shape(s)
    requires forall h <- s.heads :: s.heads[h].revision < U64_MAX
    ensures ValidateMutation(s, r) != Refused(RevisionExhausted)
  {
    hide Shape, ValidateNamedHead, ValidateAppend;
    NamedHeadNeverExhausts(s, r);
    if r.AppendEntry? { AppendNeverExhausts(s, r.head, r.expected, r.entry); }
  }

  /**
   * Revisions are bounded by the record count, so the record stream is exhausted before any head:
   * no reachable journal refuses a record because a revision cannot be incremented.
   */
  lemma RevisionsNeverExhaust(s: JournalState, r: Record)
    requires Inv(s)
    ensures Validate(s, r) != Refused(RevisionExhausted)
  {
    if s.nextSequence < U64_MAX {
      assert forall h <- s.heads :: s.heads[h].revision < U64_MAX;
      MutationNeverExhausts(s, r);
      hide Inv, Shape, ValidateMutation;
    } else {
      hide Inv, Shape, ValidateMutation;
    }
  }
}
