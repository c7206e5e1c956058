/**
 * Which parsed shell sources are plain literal commands. A worklist walks the syntax tree under three
 * limits; it accepts exactly the trees a recursive reading of the same rules accepts.
 */
module CommandPrefix {
  import opened Bytes

  const MAX_NODES: nat := 2048

  const MAX_DEPTH: nat := 32

  const MAX_COMMANDS: nat := 32

  /** A syntax node as the parser reports it, with the span of source it covers. */
  datatype Node = Node(
    kind: string, named: bool, start: nat, end: nat, missing: bool, broken: bool,
    children: seq<Node>)

  datatype Unavailable = Limit | UnsupportedSyntax

  datatype Validated = Commands(nodes: seq<Node>) | Declined(reason: Unavailable)

  // ------------------------------------------------------------------ what the parser guarantees

  /** Children lie in order inside their parent, and every span lies inside the source. */
  ghost predicate WellNested(node: Node, length: nat)
    decreases node
  {
    && node.start <= node.end <= length
    && (forall i :: 0 <= i < |node.children| ==>
          && node.start <= node.children[i].start <= node.children[i].end <= node.end
          && (i > 0 ==> node.children[i - 1].end <= node.children[i].start))
    && (forall i :: 0 <= i < |node.children| ==> WellNested(node.children[i], length))
  }

  // ------------------------------------------------------------------ the rules

  predicate AllowedKind(node: Node) {
    if node.named
    then node.kind in {"program", "list", "command", "command_name", "word", "string",
                       "string_content", "raw_string", "number", "concatenation"}
    else node.kind in {"&&", "||", ";", "\"", "'"}
  }

  predicate IsCommand(node: Node) {
    node.kind == "command"
  }

  predicate Structural(node: Node) {
    node.kind in {"program", "list", "command"}
  }

  predicate LiteralGap(s: seq<byte>) {
    forall i :: 0 <= i < |s| ==> s[i] == 0x20 || s[i] == 0x09 || s[i] == 0x0A
  }

  /** Where the gap before the `i`th child starts. */
  function GapStart(node: Node, i: nat): nat
    requires i <= |node.children|
  {
    if i == 0 then node.start else node.children[i - 1].end
  }

  ghost predicate GapBefore(node: Node, source: seq<byte>, i: nat)
    requires WellNested(node, |source|) && i < |node.children|
  {
    LiteralGap(source[GapStart(node, i)..node.children[i].start])
  }

  /** A structural node has nothing but blanks between, before and after its children. */
  ghost predicate LiteralGaps(node: Node, source: seq<byte>)
    requires WellNested(node, |source|)
  {
    Structural(node) ==>
      && (forall i :: 0 <= i < |node.children| ==> GapBefore(node, source, i))
      && (node.children != [] ==>
            LiteralGap(source[GapStart(node, |node.children|)..node.end]))
  }

  ghost predicate NodeHolds(node: Node, source: seq<byte>)
    requires WellNested(node, |source|)
  {
    AllowedKind(node) && !node.missing && !node.broken && LiteralGaps(node, source)
  }

  // ------------------------------------------------------------------ the recursive reading

  /** Every node of the tree is allowed. */
  ghost predicate AllHold(node: Node, source: seq<byte>)
    requires WellNested(node, |source|)
    decreases node
  {
    NodeHolds(node, source) && forall i :: 0 <= i < |node.children| ==> AllHold(node.children[i], source)
  }

  /** No node of the tree lies deeper than the limit, counting from `depth`. */
  ghost predicate Shallow(node: Node, depth: nat)
    decreases node
  {
    depth <= MAX_DEPTH && forall i :: 0 <= i < |node.children| ==> Shallow(node.children[i], depth + 1)
  }

  ghost function SizeAll(nodes: seq<Node>): (n: nat)
    ensures n >= |nodes|
    decreases nodes, 0
  {
    if nodes == [] then 0 else SizeAll(nodes[..|nodes| - 1]) + Size(nodes[|nodes| - 1])
  }

  ghost function Size(node: Node): (n: nat)
    ensures n >= 1 + |node.children|
    decreases node, 1
  {
    1 + SizeAll(node.children)
  }

  ghost function CommandsInAll(nodes: seq<Node>): multiset<Node>
    decreases nodes, 0
  {
    if nodes == [] then multiset{}
    else CommandsInAll(nodes[..|nodes| - 1]) + CommandsIn(nodes[|nodes| - 1])
  }

  ghost function CommandsIn(node: Node): multiset<Node>
    decreases node, 1
  {
    (if IsCommand(node) then multiset{node} else multiset{}) + CommandsInAll(node.children)
  }

  ghost predicate WithinLimits(root: Node) {
    Size(root) <= MAX_NODES && Shallow(root, 0) && |CommandsIn(root)| <= MAX_COMMANDS
  }

  ghost predicate Accepts(root: Node, source: seq<byte>)
    requires WellNested(root, |source|)
  {
    AllHold(root, source) && WithinLimits(root)
  }

  // ------------------------------------------------------------------ the worklist

  datatype Item = Item(node: Node, depth: nat)

  function NodesOf(stack: seq<Item>): (nodes: seq<Node>)
    ensures |nodes| == |stack|
    ensures forall i :: 0 <= i < |stack| ==> nodes[i] == stack[i].node
  {
    seq(|stack|, i requires 0 <= i < |stack| => stack[i].node)
  }

  function Items(nodes: seq<Node>, depth: nat): (items: seq<Item>)
    ensures |items| == |nodes|
    ensures forall i :: 0 <= i < |nodes| ==> items[i] == Item(nodes[i], depth)
  {
    seq(|nodes|, i requires 0 <= i < |nodes| => Item(nodes[i], depth))
  }

  ghost predicate StackNested(stack: seq<Item>, length: nat) {
    forall i :: 0 <= i < |stack| ==> WellNested(stack[i].node, length)
  }

  ghost predicate StackHolds(stack: seq<Item>, source: seq<byte>)
    requires StackNested(stack, |source|)
  {
    forall i :: 0 <= i < |stack| ==> AllHold(stack[i].node, source)
  }

  ghost predicate StackShallow(stack: seq<Item>) {
    forall i :: 0 <= i < |stack| ==> Shallow(stack[i].node, stack[i].depth)
  }

  /** What is visited and what is on the stack make up the tree and its commands. */
  ghost predicate Counted(root: Node, stack: seq<Item>, commands: seq<Node>, visited: nat) {
    && visited + SizeAll(NodesOf(stack)) == Size(root)
    && multiset(commands) + CommandsInAll(NodesOf(stack)) == CommandsIn(root)
  }

  /** The tree is acceptable exactly when what is left on the stack is. */
  ghost predicate Ruled(root: Node, source: seq<byte>, stack: seq<Item>)
    requires WellNested(root, |source|)
  {
    && StackNested(stack, |source|)
    && (AllHold(root, source) <==> StackHolds(stack, source))
    && (Shallow(root, 0) <==> StackShallow(stack))
  }

  ghost predicate Walking(
    root: Node, source: seq<byte>, stack: seq<Item>, commands: seq<Node>, visited: nat)
    requires WellNested(root, |source|)
  {
    Counted(root, stack, commands, visited) && Ruled(root, source, stack)
  }

  lemma WalkStarts(root: Node, source: seq<byte>)
    requires WellNested(root, |source|)
    ensures Walking(root, source, [Item(root, 0)], [], 0) && 1 <= MAX_NODES
  {
    var nodes := NodesOf([Item(root, 0)]);
    assert nodes == [root] && nodes[..0] == [];
    assert [Item(root, 0)][0] == Item(root, 0);
  }

  lemma SizeAllNext(front: seq<Node>, last: Node)
    ensures SizeAll(front + [last]) == SizeAll(front) + Size(last)
    ensures CommandsInAll(front + [last]) == CommandsInAll(front) + CommandsIn(last)
  {
    assert (front + [last])[..|front|] == front;
    hide Size, CommandsIn;
  }

  lemma LastApart(a: seq<Node>, b: seq<Node>, front: seq<Node>, last: Node)
    requires b == front + [last]
    ensures a + b == a + front + [last]
  {
  }

  lemma {:induction false} SizeAllConcat(a: seq<Node>, b: seq<Node>)
    ensures SizeAll(a + b) == SizeAll(a) + SizeAll(b)
    ensures CommandsInAll(a + b) == CommandsInAll(a) + CommandsInAll(b)
  {
    if b == [] {
      assert a + b == a;
    } else {
      hide *;
      var front, last := b[..|b| - 1], b[|b| - 1];
      LastApart(a, b, front, last);
      SizeAllConcat(a, front);
      SizeAllNext(front, last);
      SizeAllNext(a + front, last);
    }
  }

  /** Visiting the top of the stack replaces it by its children. */
  function Replaced(stack: seq<Item>): seq<Item>
    requires stack != []
  {
    var top := stack[|stack| - 1];
    stack[..|stack| - 1] + Items(top.node.children, top.depth + 1)
  }

  lemma CountsMove(stack: seq<Item>)
    requires stack != []
    ensures var top := stack[|stack| - 1];
            && SizeAll(NodesOf(stack)) == 1 + SizeAll(NodesOf(Replaced(stack)))
            && CommandsInAll(NodesOf(stack)) ==
                 (if IsCommand(top.node) then multiset{top.node} else multiset{}) +
                 CommandsInAll(NodesOf(Replaced(stack)))
  {
    var top := stack[|stack| - 1];
    var rest := NodesOf(stack[..|stack| - 1]);
    assert NodesOf(stack)[..|stack| - 1] == rest;
    assert NodesOf(Replaced(stack)) == rest + top.node.children;
    SizeAllConcat(rest, top.node.children);
  }

  lemma ShallowSplit(stack: seq<Item>, next: seq<Item>, n: nat)
    requires n + 1 == |stack|
    requires var top := stack[n];
             && |next| == n + |top.node.children|
             && (forall i :: 0 <= i < n ==> next[i] == stack[i])
             && (forall i :: 0 <= i < |top.node.children| ==>
                   next[n + i] == Item(top.node.children[i], top.depth + 1))
    ensures StackShallow(stack) <==> stack[n].depth <= MAX_DEPTH && StackShallow(next)
  {
    var top := stack[n];
    if StackShallow(stack) {
      assert Shallow(top.node, top.depth);
      forall i | 0 <= i < |next| ensures Shallow(next[i].node, next[i].depth) {
        if i >= n { assert next[n + (i - n)] == Item(top.node.children[i - n], top.depth + 1); }
      }
    }
    if top.depth <= MAX_DEPTH && StackShallow(next) {
      forall i | 0 <= i < |top.node.children| ensures Shallow(top.node.children[i], top.depth + 1) {
        assert Shallow(next[n + i].node, next[n + i].depth);
      }
      forall i | 0 <= i < |stack| ensures Shallow(stack[i].node, stack[i].depth) {
        if i < n { assert Shallow(next[i].node, next[i].depth); }
      }
    }
  }

  lemma RulesSplit(stack: seq<Item>, next: seq<Item>, n: nat, source: seq<byte>)
    requires n + 1 == |stack| && StackNested(stack, |source|)
    requires var top := stack[n];
             && |next| == n + |top.node.children|
             && (forall i :: 0 <= i < n ==> next[i] == stack[i])
             && (forall i :: 0 <= i < |top.node.children| ==>
                   next[n + i] == Item(top.node.children[i], top.depth + 1))
    ensures StackNested(next, |source|)
    ensures StackHolds(stack, source) <==> NodeHolds(stack[n].node, source) && StackHolds(next, source)
    ensures StackShallow(stack) <==> stack[n].depth <= MAX_DEPTH && StackShallow(next)
  {
    var top := stack[n];
    assert WellNested(top.node, |source|);
    forall i | 0 <= i < |next| ensures WellNested(next[i].node, |source|) {
      if i >= n { assert next[n + (i - n)] == Item(top.node.children[i - n], top.depth + 1); }
    }
    if StackHolds(stack, source) {
      assert AllHold(top.node, source);
      forall i | 0 <= i < |next| ensures AllHold(next[i].node, source) {
        if i >= n { assert next[n + (i - n)] == Item(top.node.children[i - n], top.depth + 1); }
      }
    }
    if NodeHolds(top.node, source) && StackHolds(next, source) {
      forall i | 0 <= i < |top.node.children| ensures AllHold(top.node.children[i], source) {
        assert AllHold(next[n + i].node, source);
      }
      forall i | 0 <= i < |stack| ensures AllHold(stack[i].node, source) {
        if i < n { assert AllHold(next[i].node, source); }
      }
    }
    ShallowSplit(stack, next, n);
  }

  lemma ReplacedParts(stack: seq<Item>)
    requires stack != []
    ensures var n, top, next := |stack| - 1, stack[|stack| - 1], Replaced(stack);
            && |next| == n + |top.node.children|
            && (forall i :: 0 <= i < n ==> next[i] == stack[i])
            && (forall i :: 0 <= i < |top.node.children| ==>
                  next[n + i] == Item(top.node.children[i], top.depth + 1))
  {
  }

  lemma RulesMove(stack: seq<Item>, source: seq<byte>)
    requires stack != [] && StackNested(stack, |source|)
    ensures StackNested(Replaced(stack), |source|)
    ensures var top := stack[|stack| - 1];
            && (StackHolds(stack, source) <==>
                  NodeHolds(top.node, source) && StackHolds(Replaced(stack), source))
            && (StackShallow(stack) <==> top.depth <= MAX_DEPTH && StackShallow(Replaced(stack)))
  {
    hide NodeHolds, Replaced, StackNested, StackHolds, StackShallow;
    ReplacedParts(stack);
    RulesSplit(stack, Replaced(stack), |stack| - 1, source);
  }

  lemma CountsKept(root: Node, stack: seq<Item>, commands: seq<Node>, visited: nat)
    requires Counted(root, stack, commands, visited) && stack != []
    ensures var top := stack[|stack| - 1].node;
            && visited + |stack| + |top.children| <= Size(root)
            && |commands| + (if IsCommand(top) then 1 else 0) <= |CommandsIn(root)|
            && Counted(root, Replaced(stack), if IsCommand(top) then commands + [top] else commands, visited + 1)
  {
    var top := stack[|stack| - 1];
    CountsMove(stack);
    assert |NodesOf(Replaced(stack))| == |stack| - 1 + |top.node.children|;
    assert |multiset(commands)| == |commands|;
    assert |multiset{top.node}| == 1;
    hide Size, SizeAll, CommandsIn, CommandsInAll, NodesOf, Replaced, IsCommand;
  }

  lemma RulesKept(root: Node, source: seq<byte>, stack: seq<Item>)
    requires WellNested(root, |source|) && Ruled(root, source, stack) && stack != []
    ensures var top := stack[|stack| - 1];
            && WellNested(top.node, |source|)
            && (AllHold(root, source) ==> NodeHolds(top.node, source))
            && (Shallow(root, 0) ==> top.depth <= MAX_DEPTH)
            && (NodeHolds(top.node, source) && top.depth <= MAX_DEPTH ==>
                  Ruled(root, source, Replaced(stack)))
  {
    assert WellNested(stack[|stack| - 1].node, |source|);
    RulesMove(stack, source);
    hide NodeHolds, AllHold, Shallow, Replaced, StackHolds, StackShallow, StackNested, WellNested;
  }

  /** One visit of an allowed node within the depth limit keeps the walk. */
  lemma WalkMoves(root: Node, source: seq<byte>, stack: seq<Item>, commands: seq<Node>, visited: nat)
    requires WellNested(root, |source|) && Walking(root, source, stack, commands, visited) && stack != []
    ensures var top := stack[|stack| - 1];
            && WellNested(top.node, |source|)
            && (AllHold(root, source) ==> NodeHolds(top.node, source))
            && (Shallow(root, 0) ==> top.depth <= MAX_DEPTH)
            && visited + |stack| + |top.node.children| <= Size(root)
            && |commands| + (if IsCommand(top.node) then 1 else 0) <= |CommandsIn(root)|
            && (NodeHolds(top.node, source) && top.depth <= MAX_DEPTH ==>
                  Walking(root, source, Replaced(stack),
                          if IsCommand(top.node) then commands + [top.node] else commands,
                          visited + 1))
  {
    hide Counted, Ruled, NodeHolds, AllHold, Shallow, Size, CommandsIn, Replaced, IsCommand, WellNested;
    CountsKept(root, stack, commands, visited);
    RulesKept(root, source, stack);
  }

  // ------------------------------------------------------------------ sorting by position

  ghost predicate SortedByStart(nodes: seq<Node>) {
    forall i, j :: 0 <= i < j < |nodes| ==> nodes[i].start <= nodes[j].start
  }

  function Inserted(sorted: seq<Node>, node: Node): seq<Node> {
    if sorted == [] || sorted[|sorted| - 1].start <= node.start then sorted + [node]
    else Inserted(sorted[..|sorted| - 1], node) + [sorted[|sorted| - 1]]
  }

  /** The nodes in order of their first byte, ties in the order given. */
  function ByStart(nodes: seq<Node>): seq<Node> {
    if nodes == [] then [] else Inserted(ByStart(nodes[..|nodes| - 1]), nodes[|nodes| - 1])
  }

  lemma SortedNext(front: seq<Node>, last: Node)
    requires SortedByStart(front) && forall n <- front :: n.start <= last.start
    ensures SortedByStart(front + [last])
  {
    forall i, j | 0 <= i < j < |front + [last]|
      ensures (front + [last])[i].start <= (front + [last])[j].start
    {
      if j == |front| { assert front[i] in front; }
    }
  }

  lemma {:induction false} InsertedHolds(sorted: seq<Node>, node: Node)
    requires SortedByStart(sorted)
    ensures SortedByStart(Inserted(sorted, node))
    ensures multiset(Inserted(sorted, node)) == multiset(sorted) + multiset{node}
    ensures forall n :: n in Inserted(sorted, node) <==> n in sorted || n == node
  {
    if sorted == [] || sorted[|sorted| - 1].start <= node.start {
      SortedNext(sorted, node);
    } else {
      var front, last := sorted[..|sorted| - 1], sorted[|sorted| - 1];
      assert sorted == front + [last];
      InsertedHolds(front, node);
      SortedNext(Inserted(front, node), last);
    }
  }

  /** Sorting keeps every node, and orders them by position. */
  lemma {:induction false} ByStartHolds(nodes: seq<Node>)
    ensures SortedByStart(ByStart(nodes)) && multiset(ByStart(nodes)) == multiset(nodes)
  {
    if nodes != [] {
      var front, last := nodes[..|nodes| - 1], nodes[|nodes| - 1];
      assert nodes == front + [last];
      ByStartHolds(front);
      InsertedHolds(ByStart(front), last);
    }
  }

  // ------------------------------------------------------------------ the walk

  /** Checks the gaps of one node while pushing its children. */
  lemma ItemsNext(nodes: seq<Node>, i: nat, depth: nat)
    requires i < |nodes|
    ensures Items(nodes[..i + 1], depth) == Items(nodes[..i], depth) + [Item(nodes[i], depth)]
  {
  }

  method PushChildren(stack: seq<Item>, top: Item, source: seq<byte>)
    returns (literal: bool, pushed: seq<Item>)
    requires WellNested(top.node, |source|)
    ensures literal <==> LiteralGaps(top.node, source)
    ensures literal ==> pushed == stack + Items(top.node.children, top.depth + 1)
  {
    var node := top.node;
    var structural := Structural(node);
    var end := node.start;
    pushed := stack;
    var i := 0;
    assert stack + [] == stack;
    while i < |node.children|
      invariant i <= |node.children| && end == GapStart(node, i)
      invariant structural ==> forall k :: 0 <= k < i ==> GapBefore(node, source, k)
      invariant pushed == stack + Items(node.children[..i], top.depth + 1)
    {
      var child := node.children[i];
      if structural && !LiteralGap(source[end..child.start]) {
        assert !GapBefore(node, source, i);
        return false, stack;
      }
      end := child.end;
      ItemsNext(node.children, i, top.depth + 1);
      pushed := pushed + [Item(child, top.depth + 1)];
      i := i + 1;
    }
    if structural && |node.children| > 0 && !LiteralGap(source[end..node.end]) {
      return false, stack;
    }
    literal := true;
    assert node.children[..i] == node.children;
  }

  /** A refusal for limits or for syntax is true of the tree it refuses. */
  ghost predicate Justified(reason: Unavailable, root: Node, source: seq<byte>)
    requires WellNested(root, |source|)
  {
    match reason
    case Limit => !WithinLimits(root)
    case UnsupportedSyntax => !AllHold(root, source)
  }

  ghost function Remaining(stack: seq<Item>): nat {
    SizeAll(NodesOf(stack))
  }

  lemma RemainingFalls(stack: seq<Item>)
    requires stack != []
    ensures Remaining(Replaced(stack)) < Remaining(stack)
  {
    CountsMove(stack);
  }

  lemma LimitJustified(root: Node, source: seq<byte>)
    requires WellNested(root, |source|)
    requires Size(root) > MAX_NODES || !Shallow(root, 0) || |CommandsIn(root)| > MAX_COMMANDS
    ensures Justified(Limit, root, source) && !Accepts(root, source)
  {
    hide AllHold, Shallow, Size, CommandsIn, WellNested;
  }

  lemma NodeIs(node: Node, source: seq<byte>)
    requires WellNested(node, |source|)
    ensures NodeHolds(node, source) <==>
              AllowedKind(node) && !node.missing && !node.broken && LiteralGaps(node, source)
  {
  }

  lemma SyntaxJustified(root: Node, source: seq<byte>)
    requires WellNested(root, |source|) && !AllHold(root, source)
    ensures Justified(UnsupportedSyntax, root, source) && !Accepts(root, source)
  {
    hide AllHold, WellNested;
  }

  lemma ReplacedIs(stack: seq<Item>, pushed: seq<Item>)
    requires stack != []
    requires var top := stack[|stack| - 1];
             pushed == stack[..|stack| - 1] + Items(top.node.children, top.depth + 1)
    ensures pushed == Replaced(stack)
    ensures var top := stack[|stack| - 1];
            |pushed| == |stack| - 1 + |top.node.children|
  {
  }

  lemma WalkEnds(root: Node, source: seq<byte>, commands: seq<Node>, visited: nat)
    requires WellNested(root, |source|) && Walking(root, source, [], commands, visited)
    requires visited <= MAX_NODES && |commands| <= MAX_COMMANDS
    ensures Accepts(root, source) && multiset(commands) == CommandsIn(root)
  {
    hide AllHold, Shallow, WellNested;
    assert NodesOf([]) == [];
    assert |multiset(commands)| == |commands|;
  }

  /**
   * Walks the tree depth first. It returns the command nodes by position exactly when the recursive
   * reading accepts the tree, refuses for a reason that holds of the tree, and never visits or holds
   * more nodes than the limit.
   */
  method ValidateTree(root: Node, source: seq<byte>) returns (validated: Validated, visited: nat)
    requires WellNested(root, |source|)
    ensures validated.Commands? <==> Accepts(root, source)
    ensures validated.Commands? ==>
      SortedByStart(validated.nodes) && multiset(validated.nodes) == CommandsIn(root)
    ensures validated.Declined? ==> Justified(validated.reason, root, source)
    ensures visited <= MAX_NODES
  {
    hide *;
    var stack := [Item(root, 0)];
    var commands: seq<Node> := [];
    visited := 0;
    WalkStarts(root, source);
    while stack != []
      invariant Walking(root, source, stack, commands, visited)
      invariant visited + |stack| <= MAX_NODES && |commands| <= MAX_COMMANDS
      decreases Remaining(stack)
    {
      WalkMoves(root, source, stack, commands, visited);
      RemainingFalls(stack);
      var top := stack[|stack| - 1];
      var rest := stack[..|stack| - 1];
      visited := visited + 1;
      if visited + |rest| + |top.node.children| > MAX_NODES || top.depth > MAX_DEPTH {
        LimitJustified(root, source);
        return Declined(Limit), visited;
      }
      NodeIs(top.node, source);
      if !AllowedKind(top.node) || top.node.missing || top.node.broken {
        SyntaxJustified(root, source);
        return Declined(UnsupportedSyntax), visited;
      }
      if IsCommand(top.node) {
        if |commands| >= MAX_COMMANDS {
          LimitJustified(root, source);
          return Declined(Limit), visited;
        }
        commands := commands + [top.node];
      }
      var literal, pushed := PushChildren(rest, top, source);
      if !literal {
        SyntaxJustified(root, source);
        return Declined(UnsupportedSyntax), visited;
      }
      ReplacedIs(stack, pushed);
      stack := pushed;
    }
    WalkEnds(root, source, commands, visited);
    ByStartHolds(commands);
    return Commands(ByStart(commands)), visited;
  }
}
