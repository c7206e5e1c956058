/** Bounded capture of one pipe: its exact first and last bytes, whatever chunks they arrived in. */
module StreamCapture {
  import opened Options
  import opened Bytes

  const HEAD_BYTES: nat := 32 * 1024
  const TAIL_BYTES: nat := 32 * 1024

  datatype CapturedStream = CapturedStream(
    head: seq<byte>, tail: seq<byte>, totalBytes: nat, complete: bool)
  {
    function OmittedBytes(): nat {
      if totalBytes > |head| + |tail| then totalBytes - (|head| + |tail|) else 0
    }
  }

  /** What is kept of a whole stream: its head, the end of what follows, and its length. */
  ghost predicate Keeps(stream: seq<byte>, head: seq<byte>, tail: seq<byte>, total: nat) {
    && head == First(stream, HEAD_BYTES)
    && tail == Last(stream[|head|..], TAIL_BYTES)
    && total == Saturated(|stream|)
  }

  ghost predicate Captures(stream: seq<byte>, captured: CapturedStream) {
    Keeps(stream, captured.head, captured.tail, captured.totalBytes)
  }

  // ------------------------------------------------------------------ what keeping means

  /** The stream is the head, a middle as long as the omission says, and the tail. */
  lemma OmissionIsExact(stream: seq<byte>, captured: CapturedStream)
    requires Captures(stream, captured) && |stream| <= U64_MAX
    ensures |stream| == |captured.head| + captured.OmittedBytes() + |captured.tail|
    ensures stream ==
      captured.head + stream[|captured.head|..|stream| - |captured.tail|] + captured.tail
  {
    var rest := stream[|captured.head|..];
    assert captured.head == stream[..|captured.head|];
    assert captured.tail == rest[|rest| - |captured.tail|..];
  }

  /** Nothing is omitted exactly when the stream fits the two bounds; then it is kept whole. */
  lemma KeptWholeIff(stream: seq<byte>, captured: CapturedStream)
    requires Captures(stream, captured) && |stream| <= U64_MAX
    ensures captured.OmittedBytes() == 0 <==> |stream| <= HEAD_BYTES + TAIL_BYTES
    ensures captured.OmittedBytes() == 0 <==> captured.head + captured.tail == stream
  {
    OmissionIsExact(stream, captured);
  }

  lemma DropWithin(a: seq<byte>, b: seq<byte>, m: nat)
    requires m <= |b|
    ensures (a + b)[|a| + m..] == b[m..]
  {
  }

  lemma DropTwice(a: seq<byte>, k: nat, m: nat)
    requires k + m <= |a|
    ensures a[k..][m..] == a[k + m..]
  {
  }

  lemma DropBefore(a: seq<byte>, b: seq<byte>, m: nat)
    requires m <= |a|
    ensures (a + b)[m..] == a[m..] + b
  {
  }

  /** A longer stream keeps the head it has, and the last bytes of what comes after it. */
  lemma LastOfConcat(a: seq<byte>, b: seq<byte>, n: nat)
    ensures Last(a + b, n) ==
      if |b| >= n then b[|b| - n..]
      else if |a| + |b| > n then Last(a, n)[|Last(a, n)| + |b| - n..] + b
      else a + b
  {
    if |b| >= n {
      DropWithin(a, b, |b| - n);
    } else if |a| + |b| > n {
      var kept := Last(a, n);
      DropTwice(a, |a| - |kept|, |kept| + |b| - n);
      DropBefore(a, b, |a| + |b| - n);
    }
  }

  // ------------------------------------------------------------------ the capture

  class Capture {
    var head: seq<byte>
    var tail: seq<byte>
    var totalBytes: nat
    ghost var stream: seq<byte>

    ghost predicate Valid()
      reads this
    {
      Keeps(stream, head, tail, totalBytes)
    }

    constructor ()
      ensures Valid() && stream == []
    {
      head, tail, totalBytes, stream := [], [], 0, [];
    }

    method Push(bytes: seq<byte>)
      requires Valid()
      modifies this
      ensures Valid() && stream == old(stream) + bytes
    {
      totalBytes := Saturated(totalBytes + |bytes|);
      var headRoom := HEAD_BYTES - |head|;
      var toHead := if headRoom < |bytes| then headRoom else |bytes|;
      ghost var rest := stream[|head|..];
      head := head + bytes[..toHead];
      stream := stream + bytes;
      assert head == First(stream, HEAD_BYTES) by {
        if |stream| > HEAD_BYTES { assert head == stream[..HEAD_BYTES]; }
      }
      assert stream[|head|..] == rest + bytes[toHead..] by {
        if toHead < |bytes| {
          assert stream[|head|..] == rest + bytes[toHead..];
        } else {
          assert bytes[toHead..] == [];
        }
      }
      PushTail(bytes[toHead..], rest);
    }

    /** Keeps the last bytes of what follows the head. */
    method PushTail(bytes: seq<byte>, ghost before: seq<byte>)
      requires tail == Last(before, TAIL_BYTES)
      modifies this`tail
      ensures tail == Last(before + bytes, TAIL_BYTES)
    {
      LastOfConcat(before, bytes, TAIL_BYTES);
      if |bytes| >= TAIL_BYTES {
        tail := bytes[|bytes| - TAIL_BYTES..];
        return;
      }
      var overflow := if |tail| + |bytes| > TAIL_BYTES then |tail| + |bytes| - TAIL_BYTES else 0;
      if overflow > 0 {
        tail := tail[overflow..];
      }
      tail := tail + bytes;
    }

    method Finish(complete: bool) returns (captured: CapturedStream)
      requires Valid()
      ensures Captures(stream, captured) && captured.complete == complete
    {
      captured := CapturedStream(head, tail, totalBytes, complete);
    }
  }

  // ------------------------------------------------------------------ draining

  /** One turn of the drain: a chunk, the end, a failed read, or the seal, which is looked at first. */
  datatype Read = Chunk(bytes: seq<byte>) | EndOfFile | ReadFailed | Sealed

  /** The first `n` turns are chunks, and what follows them, if anything does, ends the drain. */
  ghost predicate EndsAt(turns: seq<Read>, n: nat) {
    && n <= |turns| && (forall k :: 0 <= k < n ==> turns[k].Chunk?)
    && (n < |turns| ==> !turns[n].Chunk?)
  }

  /** The bytes of the chunks, in order. */
  ghost function Joined(turns: seq<Read>): seq<byte>
    requires forall k :: 0 <= k < |turns| ==> turns[k].Chunk?
  {
    if turns == [] then [] else Joined(turns[..|turns| - 1]) + turns[|turns| - 1].bytes
  }

  /** What the drain returns when the turn after `n` chunks ended it. */
  ghost predicate DrainedAs(turns: seq<Read>, n: nat, drained: Option<CapturedStream>) {
    && EndsAt(turns, n)
    && (drained.None? <==> n < |turns| && turns[n].ReadFailed?)
    && (drained.Some? ==>
          && Captures(Joined(turns[..n]), drained.value)
          && (drained.value.complete <==> n < |turns| && turns[n].EndOfFile?))
  }

  lemma JoinedNext(turns: seq<Read>, i: nat)
    requires i < |turns| && forall k :: 0 <= k <= i ==> turns[k].Chunk?
    ensures Joined(turns[..i + 1]) == Joined(turns[..i]) + turns[i].bytes
  {
    assert turns[..i + 1][..i] == turns[..i];
  }

  lemma EndIsUnique(turns: seq<Read>, m: nat, n: nat)
    requires EndsAt(turns, m) && EndsAt(turns, n)
    ensures m == n
  {
  }

  lemma EmptyJoins(turns: seq<Read>)
    ensures Joined(turns[..0]) == []
  {
  }

  /**
   * Drains a pipe to its end, its failure or its seal. What is returned depends on the bytes alone,
   * not on how they were cut into chunks; it is complete exactly when the pipe reached its end.
   */
  method Drain(turns: seq<Read>) returns (drained: Option<CapturedStream>)
    ensures exists n: nat :: DrainedAs(turns, n, drained)
  {
    hide Joined, Keeps;
    var capture := new Capture();
    var i := 0;
    EmptyJoins(turns);
    while i < |turns| && turns[i].Chunk?
      invariant i <= |turns| && capture.Valid()
      invariant forall k :: 0 <= k < i ==> turns[k].Chunk?
      invariant capture.stream == Joined(turns[..i])
    {
      JoinedNext(turns, i);
      capture.Push(turns[i].bytes);
      i := i + 1;
    }
    if i < |turns| && turns[i].ReadFailed? {
      drained := None;
    } else {
      var captured := capture.Finish(i < |turns| && turns[i].EndOfFile?);
      drained := Some(captured);
    }
    assert DrainedAs(turns, i, drained);
  }

  /** Any two ways of cutting the same bytes into chunks keep the same head, tail and count. */
  lemma ChunkingDoesNotMatter(
    a: seq<Read>, m: nat, x: CapturedStream, b: seq<Read>, n: nat, y: CapturedStream)
    requires DrainedAs(a, m, Some(x)) && DrainedAs(b, n, Some(y))
    requires Joined(a[..m]) == Joined(b[..n])
    ensures x.head == y.head && x.tail == y.tail && x.totalBytes == y.totalBytes
    ensures x.OmittedBytes() == y.OmittedBytes()
  {
  }
}
