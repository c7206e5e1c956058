/** Shared vocabulary: an optional value, a verdict with a typed refusal, and machine bounds. */
module Options {

  datatype Option<+T> = None | Some(value: T)

  const U16_MAX: nat := 0xFFFF
  const U64_MAX: nat := 0xFFFF_FFFF_FFFF_FFFF

  /** The outcome of a check that carries no value when it passes. */
  datatype Verdict<+E> = Accepted | Refused(error: E) {
    predicate IsFailure() {
      Refused?
    }

    function PropagateFailure(): Verdict<E>
      requires Refused?
    {
      this
    }
  }

  function Need<E>(condition: bool, error: E): (v: Verdict<E>)
    ensures v.Accepted? <==> condition
  {
    if condition then Accepted else Refused(error)
  }

  /** The next 64-bit count, saturating at the largest one. */
  function SaturatingNext(n: nat): nat {
    if n < U64_MAX then n + 1 else U64_MAX
  }

  /** A sum held in a saturating 64-bit count. */
  function Saturated(n: nat): nat {
    if n < U64_MAX then n else U64_MAX
  }
}
