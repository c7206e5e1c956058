/**
 * The independent reducer of the delegation smoke journey: a fold that tracks only head targets, the
 * selection and one node per entry, and validates nothing.
 */
module JournalProjection {
  import opened Options
  import opened JournalModel
  import opened JournalInvariant
  import opened JournalRules
  import opened JournalPreservation
  import opened JournalHistory
  import opened ConversationJournal

  datatype Node = Node(sequence: nat, id: EntryId, parent: Option<EntryId>, payload: Payload)

  datatype Simple = Simple(
    heads: map<HeadName, Option<EntryId>>, selected: HeadName, nodes: map<EntryId, Node>)

  const START: Simple := Simple(map[MAIN := None], MAIN, map[])

  /** One mutation, or none where popping a name that is not there would fail. */
  function SimpleStep(p: Simple, r: Record): Option<Simple> {
    match r
    case AppendEntry(sequence, _, head, _, entry) =>
      Some(p.(nodes := p.nodes[entry.id := Node(sequence, entry.id, entry.parent, entry.payload)],
              heads := p.heads[head := Some(entry.id)]))
    case CreateHead(_, _, head, at) => Some(p.(heads := p.heads[head := at]))
    case MoveHead(_, _, head, _, to) => Some(p.(heads := p.heads[head := to]))
    case RenameHead(_, _, head, _, renamed) =>
      if head !in p.heads then None
      else Some(p.(heads := (p.heads - {head})[renamed := p.heads[head]],
                   selected := if head == p.selected then renamed else p.selected))
    case AbandonHead(_, _, head, _) =>
      if head !in p.heads then None else Some(p.(heads := p.heads - {head}))
    case ForkAndSelectHead(_, _, _, _, destination, at) =>
      Some(p.(heads := p.heads[destination := at], selected := destination))
    case SelectHead(_, _, _, destination, _) => Some(p.(selected := destination))
    case _ => Some(p)
  }

  function SimpleFold(records: seq<Record>): Option<Simple> {
    if records == [] then Some(START)
    else
      var last := |records| - 1;
      var before := SimpleFold(records[..last]);
      if before.None? then None else SimpleStep(before.value, records[last])
  }

  function Targets(heads: map<HeadName, Head>): map<HeadName, Option<EntryId>> {
    map h <- heads :: heads[h].target
  }

  function Nodes(entries: map<EntryId, Entry>, sequences: map<EntryId, nat>): map<EntryId, Node>
    requires entries.Keys == sequences.Keys
  {
    map e <- entries :: Node(sequences[e], entries[e].id, entries[e].parent, entries[e].payload)
  }

  /** What the simple reducer keeps of a journal. */
  ghost function Outline(s: JournalState): Simple
    requires s.entries.Keys == s.entrySequences.Keys
  {
    Simple(Targets(s.heads), s.selected, Nodes(s.entries, s.entrySequences))
  }

  lemma TargetsMove(heads: map<HeadName, Head>, h: HeadName, head: Head)
    ensures Targets(heads[h := head]) == Targets(heads)[h := head.target]
  {
  }

  lemma TargetsDrop(heads: map<HeadName, Head>, h: HeadName)
    ensures Targets(heads - {h}) == Targets(heads) - {h}
  {
  }

  lemma NodesGrow(
    entries: map<EntryId, Entry>, sequences: map<EntryId, nat>, entry: Entry, sequence: nat)
    requires entries.Keys == sequences.Keys
    ensures entries[entry.id := entry].Keys == sequences[entry.id := sequence].Keys
    ensures Nodes(entries[entry.id := entry], sequences[entry.id := sequence]) ==
              Nodes(entries, sequences)[
                entry.id := Node(sequence, entry.id, entry.parent, entry.payload)]
  {
  }

  lemma AppendAgrees(s: JournalState, r: Record)
    requires r.AppendEntry? && r.head in s.heads && s.entries.Keys == s.entrySequences.Keys
    ensures Reduce(s, r).entries.Keys == Reduce(s, r).entrySequences.Keys
    ensures SimpleStep(Outline(s), r) == Some(Outline(Reduce(s, r)))
  {
    hide Targets, Nodes;
    TargetsMove(s.heads, r.head, Reduce(s, r).heads[r.head]);
    NodesGrow(s.entries, s.entrySequences, r.entry, r.sequence);
  }

  lemma HeadMutationAgrees(s: JournalState, r: Record)
    requires IsHeadMutation(r) && HeadGuard(s, r) && s.entries.Keys == s.entrySequences.Keys
    ensures SimpleStep(Outline(s), r) == Some(Outline(HeadMutated(s, r)))
  {
    assert forall h <- s.heads :: h in Targets(s.heads) && Targets(s.heads)[h] == s.heads[h].target;
    hide Targets, Nodes, StableOrRoot;
    match r {
      case CreateHead(_, _, head, at) => TargetsMove(s.heads, head, Head(at, 0, None));
      case MoveHead(_, _, head, _, to) =>
        TargetsMove(s.heads, head, Head(to, s.heads[head].revision + 1, None));
      case RenameHead(_, _, head, _, renamed) =>
        TargetsDrop(s.heads, head);
        TargetsMove(s.heads - {head}, renamed, HeadMutated(s, r).heads[renamed]);
      case AbandonHead(_, _, head, _) => TargetsDrop(s.heads, head);
      case ForkAndSelectHead(_, _, _, _, destination, at) =>
        TargetsMove(s.heads, destination, Head(at, 0, None));
      case SelectHead(_, _, _, _, _) =>
    }
  }

  /** Facts that neither append nor move a head leave the outline as it is. */
  lemma OtherFactsAgree(s: JournalState, r: Record)
    requires Reducible(s, r) && !r.AppendEntry? && !IsHeadMutation(r)
    requires s.entries.Keys == s.entrySequences.Keys
    ensures Reduce(s, r).entries.Keys == Reduce(s, r).entrySequences.Keys
    ensures SimpleStep(Outline(s), r) == Some(Outline(Reduce(s, r)))
  {
    hide Nodes;
    assert Targets(Reduce(s, r).heads) == Targets(s.heads);
  }

  /** The two reducers commute on an accepted record. */
  lemma SimpleStepAgrees(s: JournalState, r: Record)
    requires Reducible(s, r) && s.entries.Keys == s.entrySequences.Keys
    requires IsHeadMutation(r) ==> HeadGuard(s, r)
    ensures Reduce(s, r).entries.Keys == Reduce(s, r).entrySequences.Keys
    ensures SimpleStep(Outline(s), r) == Some(Outline(Reduce(s, r)))
  {
    hide SimpleStep;
    if r.AppendEntry? {
      AppendAgrees(s, r);
    } else if IsHeadMutation(r) {
      HeadMutationAgrees(s, r);
    } else {
      OtherFactsAgree(s, r);
    }
  }

  /** On every accepted run the simple reducer succeeds and agrees with the journal. */
  lemma {:induction false} SimpleFoldAgrees(session: string, records: seq<Record>)
    requires Replay(session, records).Some?
    ensures Inv(Replay(session, records).value)
    ensures SimpleFold(records) == Some(Outline(Replay(session, records).value))
  {
    hide SimpleStep, Accepts, Reduce, HeadGuard;
    ReplayHolds(session, records);
    if records == [] {
      assert Outline(Empty(session)) == START;
    } else {
      var last := |records| - 1;
      SimpleFoldAgrees(session, records[..last]);
      var s := Replay(session, records[..last]).value;
      if IsHeadMutation(records[last]) { HeadMutationAccepted(s, records[last]); }
      SimpleStepAgrees(s, records[last]);
    }
  }

  function NodeOf(s: JournalState, entry: Entry): Node
    requires entry.id in s.entrySequences
  {
    Node(s.entrySequences[entry.id], entry.id, entry.parent, entry.payload)
  }

  /** The ancestry of an entry, as nodes with their sequences. */
  ghost function NodePath(s: JournalState, target: Option<EntryId>): (nodes: seq<Node>)
    requires Forest(s) && (target.Some? ==> target.value in s.entries)
    decreases if target.Some? then s.entrySequences[target.value] else 0
  {
    if target.None? then []
    else
      assert ParentPrecedes(s, target.value);
      NodePath(s, s.entries[target.value].parent) + [NodeOf(s, s.entries[target.value])]
  }

  lemma {:induction false} NodePathIsAncestry(s: JournalState, target: Option<EntryId>)
    requires Forest(s) && (target.Some? ==> target.value in s.entries)
    ensures |NodePath(s, target)| == |Ancestry(s, target)|
    ensures forall k :: 0 <= k < |Ancestry(s, target)| ==>
      && Ancestry(s, target)[k].id in s.entrySequences
      && NodePath(s, target)[k] == NodeOf(s, Ancestry(s, target)[k])
    decreases if target.Some? then s.entrySequences[target.value] else 0
  {
    if target.Some? {
      assert ParentPrecedes(s, target.value);
      NodePathIsAncestry(s, s.entries[target.value].parent);
    }
  }

  method FoldRecords(ghost session: string, records: seq<Record>) returns (p: Simple)
    requires Replay(session, records).Some?
    ensures SimpleFold(records) == Some(p)
  {
    hide SimpleStep, Replay, Outline;
    p := START;
    for i := 0 to |records|
      invariant SimpleFold(records[..i]) == Some(p)
    {
      PrefixReplays(session, records, i + 1);
      SimpleFoldAgrees(session, records[..i + 1]);
      assert records[..i + 1][..i] == records[..i];
      p := SimpleStep(p, records[i]).value;
    }
    assert records[..|records|] == records;
  }

  method WalkNodes(ghost s: JournalState, nodes: map<EntryId, Node>, target: Option<EntryId>)
    returns (ancestry: seq<Node>)
    requires Forest(s) && nodes == Outline(s).nodes
    requires target.Some? ==> target.value in s.entries
    ensures ancestry == NodePath(s, target)
  {
    var cursor := target;
    ancestry := [];
    while cursor.Some?
      invariant cursor.Some? ==> cursor.value in s.entries
      invariant NodePath(s, target) == NodePath(s, cursor) + Reversed(ancestry)
      decreases if cursor.Some? then s.entrySequences[cursor.value] + 1 else 0
    {
      assert ParentPrecedes(s, cursor.value);
      var node := nodes[cursor.value];
      ReversedAppend(ancestry, node);
      ancestry := ancestry + [node];
      cursor := node.parent;
    }
    ancestry := Reversed(ancestry);
  }

  /**
   * Folds the records and walks the selected ancestry. For every accepted run the selection and the
   * walked nodes are those of the journal the run builds.
   */
  method ProjectJournal(ghost session: string, records: seq<Record>)
    returns (selected: HeadName, ancestry: seq<Node>)
    requires Replay(session, records).Some?
    ensures var s := Replay(session, records).value;
            && Inv(s)
            && selected == s.selected
            && ancestry == NodePath(s, s.heads[s.selected].target)
  {
    ghost var s := Replay(session, records).value;
    SimpleFoldAgrees(session, records);
    var p := FoldRecords(session, records);
    selected := p.selected;
    assert HeadsAnchored(s) && Forest(s);
    ancestry := WalkNodes(s, p.nodes, p.heads[selected]);
  }
}
