/** What can stand against a request, in the order it is looked at, and what that decides. */
module Refusals {
  import opened Options

  datatype Obstacle<+E> = Obstacle(error: E, stands: bool)

  /** Accepted when nothing stands against it; otherwise refused for the first thing that does. */
  ghost predicate Decided<E>(obstacles: seq<Obstacle<E>>, verdict: Verdict<E>) {
    match verdict
    case Accepted => forall k :: 0 <= k < |obstacles| ==> !obstacles[k].stands
    case Refused(error) =>
      exists k :: 0 <= k < |obstacles| && obstacles[k] == Obstacle(error, true)
                  && forall j :: 0 <= j < k ==> !obstacles[j].stands
  }

  /** The first obstacle decides, or nothing up to it stands and the rest decide. */
  lemma First<E>(o: Obstacle<E>, rest: seq<Obstacle<E>>, verdict: Verdict<E>)
    requires if o.stands then verdict == Refused(o.error) else Decided(rest, verdict)
    ensures Decided([o] + rest, verdict)
  {
    var obstacles := [o] + rest;
    assert obstacles[0] == o;
    if !o.stands && verdict.Refused? {
      var k :| 0 <= k < |rest| && rest[k] == Obstacle(verdict.error, true)
               && forall j :: 0 <= j < k ==> !rest[j].stands;
      assert obstacles[k + 1] == rest[k];
    }
  }

  /** One list of obstacles is looked at after another. */
  lemma Then<E>(a: seq<Obstacle<E>>, first: Verdict<E>, b: seq<Obstacle<E>>, second: Verdict<E>)
    requires Decided(a, first) && (first.Accepted? ==> Decided(b, second))
    ensures Decided(a + b, if first.Refused? then first else second)
  {
    if first.Refused? {
      var k :| 0 <= k < |a| && a[k] == Obstacle(first.error, true)
               && forall j :: 0 <= j < k ==> !a[j].stands;
      assert (a + b)[k] == a[k];
    } else if second.Refused? {
      var k :| 0 <= k < |b| && b[k] == Obstacle(second.error, true)
               && forall j :: 0 <= j < k ==> !b[j].stands;
      assert (a + b)[|a| + k] == b[k];
    }
  }

  /** The error of the first of up to six obstacles that stands. */
  lemma Listed<E>(obstacles: seq<Obstacle<E>>, verdict: Verdict<E>)
    requires |obstacles| <= 6
    requires
      if 0 < |obstacles| && obstacles[0].stands then verdict == Refused(obstacles[0].error)
      else if 1 < |obstacles| && obstacles[1].stands then verdict == Refused(obstacles[1].error)
      else if 2 < |obstacles| && obstacles[2].stands then verdict == Refused(obstacles[2].error)
      else if 3 < |obstacles| && obstacles[3].stands then verdict == Refused(obstacles[3].error)
      else if 4 < |obstacles| && obstacles[4].stands then verdict == Refused(obstacles[4].error)
      else if 5 < |obstacles| && obstacles[5].stands then verdict == Refused(obstacles[5].error)
      else verdict.Accepted?
    ensures Decided(obstacles, verdict)
  {
    if verdict.Refused? {
      var k := if obstacles[0].stands then 0 else if obstacles[1].stands then 1
               else if obstacles[2].stands then 2 else if obstacles[3].stands then 3
               else if obstacles[4].stands then 4 else 5;
      assert obstacles[k] == Obstacle(verdict.error, true);
    }
  }
}
