/** Output positions in ascending order, and sums over the outputs kept at them. */
module Positions {
  import opened ModelOutput

  /** A strictly ascending sequence of positions. */
  ghost predicate Ascends(ps: seq<Position>) {
    forall i, j :: 0 <= i < j < |ps| ==> ps[i].Less(ps[j])
  }

  predicate IsLeast(p: Position, s: set<Position>) {
    p in s && forall q <- s :: q == p || p.Less(q)
  }

  lemma Trichotomy(p: Position, q: Position)
    ensures p.Less(q) || p == q || q.Less(p)
  {
    if p.item == q.item && p.part == q.part {
      assert p == Position(p.item, p.part) == q;
    }
  }

  lemma {:induction false} LeastExists(s: set<Position>) returns (p: Position)
    requires s != {}
    ensures IsLeast(p, s)
    decreases |s|
  {
    var x :| x in s;
    if s == {x} {
      p := x;
    } else {
      var rest := LeastExists(s - {x});
      p := if x.Less(rest) then x else rest;
      Trichotomy(x, rest);
      assert forall q <- s :: q == x || q in s - {x};
    }
  }

  /** The members of `s` in ascending order, as an ordered map iterates its keys. */
  function Sorted(s: set<Position>): (ps: seq<Position>)
    ensures Ascends(ps)
    ensures forall p :: p in ps <==> p in s
    ensures |ps| == |s|
  {
    if s == {} then []
    else
      assert exists p :: IsLeast(p, s) by { var p := LeastExists(s); }
      var p :| IsLeast(p, s);
      [p] + Sorted(s - {p})
  }

  lemma HasMember(ps: seq<Position>)
    ensures ps != [] ==> exists p :: p in ps
  {
    if ps != [] { assert ps[0] in ps; }
  }

  /** Two ascending sequences with the same members are the same sequence. */
  lemma {:induction false} AscendingIsUnique(a: seq<Position>, b: seq<Position>)
    requires Ascends(a) && Ascends(b)
    requires forall p :: p in a <==> p in b
    ensures a == b
  {
    if a == [] {
      HasMember(b);
    } else {
      assert a[0] in b;
      assert b[0] in a;
      forall p ensures p in a[1..] <==> p in b[1..] {
        if p in a[1..] { assert p in b && p != a[0]; }
        if p in b[1..] { assert p in a && p != b[0]; }
      }
      AscendingIsUnique(a[1..], b[1..]);
      assert a == [a[0]] + a[1..] && b == [b[0]] + b[1..];
    }
  }

  // ------------------------------------------------------------------ sums

  ghost function Sum(m: map<Position, nat>): nat {
    if m == map[] then 0
    else
      var p :| p in m;
      m[p] + Sum(m - {p})
  }

  lemma {:induction false} SumRemove(m: map<Position, nat>, p: Position)
    requires p in m
    ensures Sum(m) == m[p] + Sum(m - {p})
    decreases |m|
  {
    var q :| q in m && Sum(m) == m[q] + Sum(m - {q});
    if q != p {
      SumRemove(m - {q}, p);
      SumRemove(m - {p}, q);
      assert m - {q} - {p} == m - {p} - {q};
    }
  }

  lemma SumSet(m: map<Position, nat>, p: Position, v: nat)
    ensures Sum(m[p := v]) == Sum(m) - (if p in m then m[p] else 0) + v
  {
    var m' := m[p := v];
    SumRemove(m', p);
    assert m' - {p} == m - {p};
    if p in m {
      SumRemove(m, p);
    } else {
      assert m - {p} == m;
    }
  }

  /** The same sum taken in ascending order. */
  ghost function SumAlong(ps: seq<Position>, m: map<Position, nat>): nat
    requires forall p <- ps :: p in m
  {
    if ps == [] then 0
    else SumAlong(ps[..|ps| - 1], m) + m[ps[|ps| - 1]]
  }

  lemma {:induction false} SumAlongSame(ps: seq<Position>, m: map<Position, nat>, m': map<Position, nat>)
    requires forall p <- ps :: p in m && p in m' && m[p] == m'[p]
    ensures SumAlong(ps, m) == SumAlong(ps, m')
  {
    if ps != [] {
      assert ps[|ps| - 1] in ps;
      SumAlongSame(ps[..|ps| - 1], m, m');
    }
  }

  lemma {:induction false} SumInOrder(ps: seq<Position>, m: map<Position, nat>)
    requires Ascends(ps) && (forall p :: p in ps <==> p in m)
    ensures SumAlong(ps, m) == Sum(m)
  {
    if ps == [] {
      assert m == map[];
    } else {
      var front, last := ps[..|ps| - 1], ps[|ps| - 1];
      var rest := m - {last};
      assert ps == front + [last];
      forall p ensures p in front <==> p in rest {
        if p in rest { assert p in ps; }
      }
      SumInOrder(front, rest);
      SumAlongSame(front, m, rest);
      SumRemove(m, last);
    }
  }
}
