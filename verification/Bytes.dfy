/** Octets, and the text that is valid UTF-8 by section 3 of RFC 3629. */
module Bytes {
  newtype byte = b: int | 0 <= b < 256

  /** The first `n` octets, or all of them. */
  function First<T>(s: seq<T>, n: nat): (front: seq<T>)
    ensures |front| == if |s| <= n then |s| else n
  {
    if |s| <= n then s else s[..n]
  }

  /** The last `n` octets, or all of them. */
  function Last<T>(s: seq<T>, n: nat): (back: seq<T>)
    ensures |back| == if |s| <= n then |s| else n
  {
    if |s| <= n then s else s[|s| - n..]
  }
}
