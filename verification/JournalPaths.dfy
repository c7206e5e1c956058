/**
 * Branch ancestry and turns on it: what a path is, which records can change it, and why a branch
 * point never lies inside a turn.
 */
module JournalPaths {
  import opened Options
  import opened ModelOutput
  import opened JournalModel
  import opened JournalInvariant
  import opened JournalRules
  import opened JournalPreservation
  import opened JournalHistory

  // ------------------------------------------------------------------ what a path is

  /** A chain of retained entries that starts at a root and ends at `target`. */
  ghost predicate RootToTarget(s: JournalState, path: seq<Entry>, target: Option<EntryId>) {
    && (target.None? <==> path == [])
    && (target.Some? ==> path[|path| - 1].id == target.value)
    && (path != [] ==> path[0].parent.None?)
    && (forall k :: 0 <= k < |path| ==> path[k].id in s.entries && s.entries[path[k].id] == path[k])
    && (forall k :: 0 < k < |path| ==> path[k].parent == Some(path[k - 1].id))
  }

  /** The ancestry is a root-to-target chain, and no other sequence of entries is one. */
  lemma {:induction false} AncestryIsThePath(s: JournalState, path: seq<Entry>, target: Option<EntryId>)
    requires Forest(s) && (target.Some? ==> target.value in s.entries)
    ensures RootToTarget(s, path, target) <==> path == Ancestry(s, target)
    decreases if target.Some? then s.entrySequences[target.value] else 0
  {
    if target.Some? {
      var entry := s.entries[target.value];
      assert ParentPrecedes(s, target.value);
      if RootToTarget(s, path, target) {
        var last := |path| - 1;
        var front := path[..last];
        assert path[last] == entry && path == front + [entry];
        assert last > 0 ==> entry.parent == Some(path[last - 1].id);
        assert RootToTarget(s, front, entry.parent);
        AncestryIsThePath(s, front, entry.parent);
      }
      if path == Ancestry(s, target) {
        var front := Ancestry(s, entry.parent);
        AncestryIsThePath(s, front, entry.parent);
        assert path == front + [entry];
      }
    }
  }

  /** Sequences strictly rise along a path, so it never visits an entry twice. */
  lemma {:induction false} PathSequencesRise(s: JournalState, target: Option<EntryId>, j: nat, k: nat)
    requires Forest(s) && (target.Some? ==> target.value in s.entries)
    requires j < k < |Ancestry(s, target)|
    ensures var path := Ancestry(s, target);
            && path[j].id in s.entries && path[k].id in s.entries
            && s.entrySequences[path[j].id] < s.entrySequences[path[k].id]
    decreases k
  {
    var path := Ancestry(s, target);
    AncestryIsThePath(s, path, target);
    assert path[k].parent == Some(path[k - 1].id);
    assert ParentPrecedes(s, path[k].id);
    if j < k - 1 { PathSequencesRise(s, target, j, k - 1); }
  }

  // ------------------------------------------------------------------ which records change a path

  /** Later records never change the ancestry of an entry. */
  lemma {:induction false} AncestryNeverChanges(s: JournalState, s': JournalState, target: Option<EntryId>)
    requires Forest(s) && Forest(s') && Continues(s, s')
    requires target.Some? ==> target.value in s.entries
    ensures target.Some? ==> target.value in s'.entries
    ensures Ancestry(s', target) == Ancestry(s, target)
    decreases if target.Some? then s.entrySequences[target.value] else 0
  {
    if target.Some? {
      assert ParentPrecedes(s, target.value) && ParentPrecedes(s', target.value);
      AncestryNeverChanges(s, s', s.entries[target.value].parent);
    }
  }

  /** Along a whole run, the path to an entry is the one it was appended on. */
  lemma RunKeepsAncestry(session: string, records: seq<Record>, i: nat, target: EntryId)
    requires i <= |records| && Replay(session, records).Some?
    requires Replay(session, records[..i]).Some?
    requires target in Replay(session, records[..i]).value.entries
    ensures var a := Replay(session, records[..i]).value;
            var b := Replay(session, records).value;
            && Inv(a) && Inv(b) && target in b.entries
            && Ancestry(b, Some(target)) == Ancestry(a, Some(target))
  {
    RunContinues(session, records, i);
    ReplayHolds(session, records[..i]);
    ReplayHolds(session, records);
    AncestryNeverChanges(
      Replay(session, records[..i]).value, Replay(session, records).value, Some(target));
  }

  /** An append extends the path of its own head by its entry. */
  lemma AppendExtendsPath(s: JournalState, r: Record)
    requires Inv(s) && Accepts(s, r) && r.AppendEntry?
    ensures Inv(Reduce(s, r))
    ensures PathOf(Reduce(s, r), r.head) == PathOf(s, r.head) + [r.entry]
  {
    AppendAccepted(s, r);
    ReduceKeepsInv(s, r);
    StepContinues(s, r);
    var s' := Reduce(s, r);
    assert ParentPrecedes(s', r.entry.id);
    AncestryNeverChanges(s, s', s.heads[r.head].target);
  }

  /** The head names a record may create, move, rename or give up. */
  ghost function NamedHeads(r: Record): set<HeadName> {
    match r
    case AppendEntry(_, _, head, _, _) => {head}
    case CreateHead(_, _, head, _) => {head}
    case MoveHead(_, _, head, _, _) => {head}
    case RenameHead(_, _, head, _, renamed) => {head, renamed}
    case AbandonHead(_, _, head, _) => {head}
    case ForkAndSelectHead(_, _, _, _, destination, _) => {destination}
    case _ => {}
  }

  lemma OtherHeadsUnmoved(s: JournalState, r: Record, head: HeadName)
    requires Reducible(s, r) && head !in NamedHeads(r)
    ensures head in s.heads <==> head in Reduce(s, r).heads
    ensures head in s.heads ==>
      && Reduce(s, r).heads[head].target == s.heads[head].target
      && Reduce(s, r).heads[head].revision == s.heads[head].revision
  {
  }

  /** A record leaves every head it does not name where it was, with the same path and revision. */
  lemma OtherHeadsKeepPath(s: JournalState, r: Record, head: HeadName)
    requires Inv(s) && Accepts(s, r) && head !in NamedHeads(r)
    ensures Inv(Reduce(s, r))
    ensures head in s.heads <==> head in Reduce(s, r).heads
    ensures head in s.heads ==>
      && PathOf(Reduce(s, r), head) == PathOf(s, head)
      && Reduce(s, r).heads[head].revision == s.heads[head].revision
  {
    ReduceKeepsInv(s, r);
    StepContinues(s, r);
    OtherHeadsUnmoved(s, r, head);
    if head in s.heads {
      AncestryNeverChanges(s, Reduce(s, r), s.heads[head].target);
    }
  }

  /** A rename carries the path and the open turn to the new name, one revision later. */
  lemma RenameCarriesHead(s: JournalState, r: Record)
    requires Inv(s) && Accepts(s, r) && r.RenameHead?
    ensures Inv(Reduce(s, r))
    ensures var s' := Reduce(s, r);
            && r.head !in s'.heads && r.head in s'.retired && r.renamed in s'.heads
            && PathOf(s', r.renamed) == PathOf(s, r.head)
            && s'.heads[r.renamed].open == s.heads[r.head].open
            && s'.heads[r.renamed].revision == s.heads[r.head].revision + 1
            && (s'.selected == r.renamed <==> s.selected == r.head)
  {
    HeadMutationAccepted(s, r);
    ReduceKeepsInv(s, r);
    StepContinues(s, r);
    AncestryNeverChanges(s, Reduce(s, r), s.heads[r.head].target);
  }

  // ------------------------------------------------------------------ turns on a path

  /** Every turn begun on the path has finished, but possibly `open`. */
  ghost predicate TurnsFinishedBut(s: JournalState, path: seq<Entry>, open: Option<TurnId>) {
    forall k :: 0 <= k < |path| && StartedTurn(path[k].payload).Some? ==>
      var t := StartedTurn(path[k].payload).value.1;
      t in s.finishes || open == Some(t)
  }

  ghost predicate BeginsOn(path: seq<Entry>, t: TurnId) {
    exists k :: 0 <= k < |path| && StartedTurn(path[k].payload).Some?
      && StartedTurn(path[k].payload).value.1 == t
  }

  ghost function UnstableTurn(s: JournalState, e: EntryId): Option<TurnId> {
    if e in s.unstable then Some(s.unstable[e]) else None
  }

  /**
   * The path to a stable entry holds finished turns only. The path to an unstable one holds the
   * start of its turn, and every other turn begun on it has finished.
   */
  lemma {:induction false} TurnsOnPath(s: JournalState, e: EntryId)
    requires Forest(s) && Partition(s) && TurnChain(s) && e in s.entries
    ensures TurnsFinishedBut(s, Ancestry(s, Some(e)), UnstableTurn(s, e))
    ensures e in s.unstable ==> BeginsOn(Ancestry(s, Some(e)), s.unstable[e])
    decreases s.entrySequences[e]
  {
    var entry := s.entries[e];
    var path := Ancestry(s, Some(e));
    assert EntryChained(s, entry) && ParentPrecedes(s, e);
    assert path[|path| - 1] == entry;
    if entry.parent.Some? {
      var p := entry.parent.value;
      TurnsOnPath(s, p);
      var before := Ancestry(s, Some(p));
      assert path == before + [entry];
      if e in s.unstable && StartedTurn(entry.payload).None? {
        assert p in s.unstable && s.unstable[p] == s.unstable[e];
        var k :| 0 <= k < |before| && StartedTurn(before[k].payload).Some?
              && StartedTurn(before[k].payload).value.1 == s.unstable[p];
        assert path[k] == before[k];
      }
    }
  }

  /**
   * A head can be created, moved, forked or abandoned only at a point whose whole ancestry is
   * finished turns: no branch ever starts inside a partial turn.
   */
  lemma BranchPointsAreComplete(s: JournalState, at: Option<EntryId>)
    requires Inv(s) && ValidateBranchPoint(s, at).Accepted?
    ensures TurnsFinishedBut(s, Ancestry(s, at), None)
  {
    if at.Some? { TurnsOnPath(s, at.value); }
  }

  /** A refusal names a turn that was really begun on that branch and has not completed there. */
  lemma RefusedBranchPointNamesItsTurn(s: JournalState, at: EntryId, t: TurnId)
    requires Inv(s)
    requires ValidateBranchPoint(s, Some(at)) == Refused(UnstableTurnTarget(t))
    ensures BeginsOn(Ancestry(s, Some(at)), t) && t in s.starts
  {
    TurnsOnPath(s, at);
  }

  /** A head is open on `t` exactly while its target is unstable under `t`; `t` is then unfinished. */
  lemma OpenExactlyWhileUnstable(s: JournalState, head: HeadName, t: TurnId)
    requires Inv(s) && head in s.heads
    ensures s.heads[head].open == Some(t) <==>
      s.heads[head].target.Some? && UnstableTurn(s, s.heads[head].target.value) == Some(t)
    ensures s.heads[head].open == Some(t) ==> t in s.starts && t !in s.finishes
  {
    assert HeadMatches(s, s.heads[head]);
  }

  // ------------------------------------------------------------------ detached turns

  ghost predicate OpenSomewhere(s: JournalState, t: TurnId) {
    exists h :: h in s.heads && s.heads[h].open == Some(t)
  }

  /** Started, unfinished and open on no head. */
  ghost predicate Detached(s: JournalState, t: TurnId) {
    t in s.starts && t !in s.finishes && !OpenSomewhere(s, t)
  }

  /** The record moves a head away from its open turn `t`. */
  ghost predicate MovesOff(s: JournalState, r: Record, t: TurnId) {
    r.MoveHead? && r.head in s.heads && s.heads[r.head].open == Some(t)
  }

  lemma AppendKeepsDetached(s: JournalState, r: Record, t: TurnId)
    requires r.AppendEntry? && AppendGuard(s, r.head, r.entry)
    ensures Detached(Reduce(s, r), t) <==> Detached(s, t)
  {
    var s' := Reduce(s, r);
    if OpenSomewhere(s, t) {
      var h :| h in s.heads && s.heads[h].open == Some(t);
      assert s'.heads[h].open == Some(t);
    }
    if t in s'.starts && t !in s.starts { assert s'.heads[r.head].open == Some(t); }
  }

  lemma FinishKeepsDetached(s: JournalState, r: Record, t: TurnId)
    requires r.FinishTurn? && FinishGuard(s, r.head, r.finish)
    ensures Detached(Reduce(s, r), t) <==> Detached(s, t)
  {
    var s' := Reduce(s, r);
    if OpenSomewhere(s, t) && t != r.finish.turn {
      var h :| h in s.heads && s.heads[h].open == Some(t);
      assert s'.heads[h].open == Some(t);
    }
  }

  /** A head mutation other than moving off `t` keeps `t` open; none opens a turn. */
  lemma HeadMutationKeepsOpenTurns(s: JournalState, r: Record, t: TurnId)
    requires HeadsAnchored(s) && OpenMatches(s) && Partition(s)
    requires IsHeadMutation(r) && HeadGuard(s, r)
    requires OpenSomewhere(s, t) && !MovesOff(s, r, t)
    ensures OpenSomewhere(HeadMutated(s, r), t)
  {
    var h :| h in s.heads && s.heads[h].open == Some(t);
    assert HeadMatches(s, s.heads[h]);
    var h' := if r.RenameHead? && h == r.head then r.renamed else h;
    assert h' in HeadMutated(s, r).heads && HeadMutated(s, r).heads[h'].open == Some(t);
  }

  lemma HeadMutationOpensNothing(s: JournalState, r: Record, t: TurnId)
    requires HeadsAnchored(s) && OpenUnique(s)
    requires IsHeadMutation(r) && HeadGuard(s, r)
    requires OpenSomewhere(Reduce(s, r), t)
    ensures OpenSomewhere(s, t) && !MovesOff(s, r, t)
  {
    var s' := Reduce(s, r);
    HeadsAfterMutation(s, r, s');
    var h :| h in s'.heads && s'.heads[h].open == Some(t);
    assert HeadOrigin(s, r, h, s'.heads[h]);
  }

  lemma HeadMutationDetaches(s: JournalState, r: Record, t: TurnId)
    requires Inv(s) && IsHeadMutation(r) && HeadGuard(s, r)
    ensures Detached(Reduce(s, r), t) <==> Detached(s, t) || MovesOff(s, r, t)
  {
    ContentUnmoved(s, r);
    if OpenSomewhere(Reduce(s, r), t) {
      HeadMutationOpensNothing(s, r, t);
    }
    if OpenSomewhere(s, t) && !MovesOff(s, r, t) {
      HeadMutationKeepsOpenTurns(s, r, t);
    }
    if MovesOff(s, r, t) { assert OpenSomewhere(s, t); }
    hide Reduce;
  }

  /** One record detaches exactly the turn of the head it moves, and never re-attaches one. */
  lemma DetachmentStep(s: JournalState, r: Record, t: TurnId)
    requires Inv(s) && Accepts(s, r)
    ensures Detached(Reduce(s, r), t) <==> Detached(s, t) || MovesOff(s, r, t)
  {
    if r.AppendEntry? {
      AppendAccepted(s, r);
      AppendKeepsDetached(s, r, t);
    } else if r.FinishTurn? {
      FinishAccepted(s, r);
      FinishKeepsDetached(s, r, t);
    } else if IsHeadMutation(r) {
      HeadMutationAccepted(s, r);
      HeadMutationDetaches(s, r, t);
    } else {
      AttemptFrame(s, r);
    }
  }

  /** Record `i` of the run moved a head away from its open turn `t`. */
  ghost predicate MovedOffAt(session: string, records: seq<Record>, i: nat, t: TurnId) {
    && i < |records|
    && Replay(session, records[..i]).Some?
    && MovesOff(Replay(session, records[..i]).value, records[i], t)
  }

  lemma NothingDetachedAtFirst(session: string, t: TurnId)
    ensures !Detached(Empty(session), t)
  {
  }

  /**
   * An unfinished turn of a run is open on no head if and only if some record moved its head away
   * while the turn was open. A caller avoids it by checking, before a move, that the head is closed.
   */
  lemma {:induction false} DetachedIffMovedOff(session: string, records: seq<Record>, t: TurnId)
    requires Replay(session, records).Some?
    ensures Detached(Replay(session, records).value, t)
       <==> exists i :: 0 <= i < |records| && MovedOffAt(session, records, i, t)
  {
    hide Accepts, Reduce, Inv, Detached, MovesOff;
    if records == [] {
      NothingDetachedAtFirst(session, t);
    } else {
      var last := |records| - 1;
      var front := records[..last];
      var s := Replay(session, front).value;
      DetachedIffMovedOff(session, front, t);
      ReplayHolds(session, front);
      DetachmentStep(s, records[last], t);
      forall i | 0 <= i < last
        ensures MovedOffAt(session, records, i, t) <==> MovedOffAt(session, front, i, t)
      {
        assert front[..i] == records[..i];
      }
      assert MovedOffAt(session, records, last, t) <==> MovesOff(s, records[last], t);
    }
  }

  /** The payload adds a fact to `t`: an input, a status, a skill or a step's output. */
  predicate Extends(payload: Payload, t: TurnId) {
    match payload
    case SteeringAccepted(_, turn) => turn == t
    case SkillActivated(_, turn) => turn == t
    case TurnStatusChanged(_, turn) => turn == t
    case AssistantOutput(_, step, _) => step.turn == t
    case _ => StartedTurn(payload).Some? && StartedTurn(payload).value.1 == t
  }

  /** The record adds to `t`, asks the model for a step of it, or finishes it. */
  predicate Concerns(r: Record, t: TurnId) {
    match r
    case AppendEntry(_, _, _, _, entry) => Extends(entry.payload, t)
    case FinishTurn(_, _, _, _, fact) => fact.turn == t
    case AuthorizeAttempt(_, _, _, _, fact) => fact.owner.AgentStep? && fact.owner.step.turn == t
    case _ => false
  }

  lemma ExtendsOpenTurn(s: JournalState, r: Record, t: TurnId)
    requires r.AppendEntry? && Accepts(s, r) && Extends(r.entry.payload, t) && t in s.starts
    ensures r.head in s.heads && s.heads[r.head].open == Some(t)
  {
    hide Shape, Ancestry, PathOf, Candidate, EpochOf, LastIndex, Announced;
    AppendAccepted(s, r);
    assert ValidatePayload(s, r.head, r.entry).Accepted?;
  }

  lemma AuthorizesOpenTurn(s: JournalState, r: Record, t: TurnId)
    requires r.AuthorizeAttempt? && Accepts(s, r) && Concerns(r, t)
    ensures r.head in s.heads && s.heads[r.head].open == Some(t)
  {
    hide Shape;
    assert ValidateAuthorization(s, r.head, r.expected, r.authorization).Accepted?;
  }

  /**
   * A detached turn is out of reach for good: no later record adds to it, starts it again, asks the
   * model for a step of it or finishes it.
   */
  lemma DetachedTurnIsStuck(s: JournalState, r: Record, t: TurnId)
    requires Inv(s) && Detached(s, t) && Accepts(s, r)
    ensures Detached(Reduce(s, r), t)
    ensures !Concerns(r, t)
  {
    hide Inv, Accepts, Reduce;
    DetachmentStep(s, r, t);
    if Concerns(r, t) {
      match r {
        case AppendEntry(_, _, _, _, _) => ExtendsOpenTurn(s, r, t);
        case FinishTurn(_, _, _, _, _) => FinishAccepted(s, r);
        case AuthorizeAttempt(_, _, _, _, _) => AuthorizesOpenTurn(s, r, t);
      }
    }
  }

  /** The first append of a conversation may begin a turn on `main`. */
  lemma FirstTurnAccepted(session: string, r: Record, t: TurnId)
    requires r.AppendEntry? && r.sequence == 1 && r.head == MAIN && r.expected == 0
    requires r.entry.parent.None? && r.entry.payload.TurnStarted? && r.entry.payload.turn == t
    ensures Accepts(Empty(session), r)
  {
    EmptyKeeps(session);
    assert ValidateAppend(Empty(session), MAIN, 0, r.entry).Accepted?;
  }

  lemma FirstTurnOpens(session: string, r: Record, t: TurnId)
    requires r.AppendEntry? && r.head == MAIN
    requires r.entry.payload.TurnStarted? && r.entry.payload.turn == t
    ensures MAIN in Empty(session).heads
    ensures var s := Reduce(Empty(session), r);
            && s.session == session && s.nextSequence == 2 && s.recordIds == {r.id}
            && MAIN in s.heads && s.heads[MAIN].revision == 1 && s.heads[MAIN].open == Some(t)
  {
  }

  lemma ReplayNothing(session: string)
    ensures Replay(session, []) == Some(Empty(session))
  {
    hide Accepts, Reduce;
  }

  /** One more accepted record at the end of a run. */
  lemma ReplayNext(session: string, records: seq<Record>, s: JournalState, r: Record)
    requires Replay(session, records) == Some(s) && Accepts(s, r)
    ensures Replay(session, records + [r]) == Some(Reduce(s, r))
  {
    hide Accepts, Reduce;
    assert (records + [r])[..|records|] == records;
  }

  lemma MoveToRootAccepted(s: JournalState, r: Record, t: TurnId)
    requires Inv(s) && r.sequence == s.nextSequence < U64_MAX && r.id !in s.recordIds
    requires r.MoveHead? && r.to.None? && r.head in s.heads
    requires s.heads[r.head].revision == r.expected < U64_MAX && s.heads[r.head].open == Some(t)
    ensures Accepts(s, r) && MovesOff(s, r, t)
  {
    assert ValidateNamedHead(s, r).Accepted?;
  }

  /** A turn starts on the first head, and the move that takes the head off it comes next. */
  lemma StartThenMove(session: string, start: Record, move: Record, t: TurnId)
    requires start.AppendEntry? && start.sequence == 1 && start.head == MAIN && start.expected == 0
    requires start.entry.parent.None? && start.entry.payload.TurnStarted?
    requires start.entry.payload.turn == t
    requires move == MoveHead(2, move.id, MAIN, 1, None) && move.id != start.id
    ensures Accepts(Empty(session), start)
    ensures var s := Reduce(Empty(session), start);
            Inv(s) && Accepts(s, move) && MovesOff(s, move, t)
  {
    assert 2 < U64_MAX;
    hide *;
    EmptyKeeps(session);
    FirstTurnAccepted(session, start, t);
    FirstTurnOpens(session, start, t);
    ReduceKeepsInv(Empty(session), start);
    MoveToRootAccepted(Reduce(Empty(session), start), move, t);
  }

  ghost predicate MovesAway(session: string, records: seq<Record>, t: TurnId) {
    && |records| == 2
    && Replay(session, records).Some?
    && Detached(Replay(session, records).value, t)
  }

  lemma MovesAwaySo(session: string, records: seq<Record>, s: JournalState, t: TurnId)
    requires |records| == 2 && Replay(session, records) == Some(s) && Detached(s, t)
    ensures MovesAway(session, records, t)
  {
    hide Replay, Detached;
  }

  /** Two accepted records that leave a turn unfinished and open nowhere. */
  lemma MoveCanDetach(session: string, agent: AgentId, t: TurnId)
    ensures exists records: seq<Record> :: MovesAway(session, records, t)
  {
    hide *;
    var start := AppendEntry(1, "a", MAIN, 0, Entry("entry-1", None, TurnStarted(agent, t)));
    var move := MoveHead(2, "b", MAIN, 1, None);
    StartThenMove(session, start, move, t);
    ReplayNothing(session);
    ReplayNext(session, [], Empty(session), start);
    var s1 := Reduce(Empty(session), start);
    assert [] + [start] == [start] && [start] + [move] == [start, move];
    ReplayNext(session, [start], s1, move);
    DetachmentStep(s1, move, t);
    MovesAwaySo(session, [start, move], Reduce(s1, move), t);
  }

  /** The one caller that moves a head does so for a retry, and a retry is offered on closed heads only. */
  lemma RetryNeverDetaches(s: JournalState, r: Record, t: TurnId)
    requires Inv(s) && Accepts(s, r) && r.MoveHead? && Candidate(s, r.head).Some?
    ensures Detached(Reduce(s, r), t) <==> Detached(s, t)
  {
    DetachmentStep(s, r, t);
  }
}
