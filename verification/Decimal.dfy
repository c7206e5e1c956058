/** Decimal rendering of a natural number, as identities and byte counts are printed. */
module Decimal {

  const DIGITS: seq<char> := "0123456789"

  function Text(n: nat): (s: string)
    ensures |s| > 0
    ensures forall k :: 0 <= k < |s| ==> '0' <= s[k] <= '9'
  {
    if n < 10 then [DIGITS[n]] else Text(n / 10) + [DIGITS[n % 10]]
  }

  function Value(s: string): nat
    requires forall k :: 0 <= k < |s| ==> '0' <= s[k] <= '9'
  {
    if s == [] then 0
    else 10 * Value(s[..|s| - 1]) + (s[|s| - 1] as int - '0' as int)
  }

  lemma ValueNext(front: string, last: char)
    requires (forall k :: 0 <= k < |front| ==> '0' <= front[k] <= '9') && '0' <= last <= '9'
    ensures Value(front + [last]) == 10 * Value(front) + (last as int - '0' as int)
  {
    assert (front + [last])[..|front|] == front;
  }

  lemma DigitIs(k: nat)
    requires k < 10
    ensures '0' <= DIGITS[k] <= '9' && DIGITS[k] as int - '0' as int == k
    ensures Value([DIGITS[k]]) == k
  {
    assert [DIGITS[k]] == [] + [DIGITS[k]];
    ValueNext([], DIGITS[k]);
  }

  lemma TextNext(n: nat, more: nat, last: nat)
    requires n == 10 * more + last && last < 10 && n >= 10
    ensures Text(n) == Text(more) + [DIGITS[last]]
  {
    assert n / 10 == more && n % 10 == last;
  }

  /** Reading a rendered number back yields it. */
  lemma {:induction false} ValueOfText(n: nat)
    ensures Value(Text(n)) == n
  {
    if n < 10 {
      DigitIs(n);
    } else {
      hide *;
      var more, last := n / 10, n % 10;
      DigitIs(last);
      TextNext(n, more, last);
      ValueOfText(more);
      ValueNext(Text(more), DIGITS[last]);
    }
  }

  /** Distinct numbers are rendered differently. */
  lemma TextInjective(m: nat, n: nat)
    requires Text(m) == Text(n)
    ensures m == n
  {
    ValueOfText(m);
    ValueOfText(n);
  }

  function Power10(k: nat): nat {
    if k == 0 then 1 else 10 * Power10(k - 1)
  }

  /** A number below ten to the `k` has at most `k` digits, for `k` at least one. */
  lemma {:induction false} TextLength(n: nat, k: nat)
    requires 1 <= k && n < Power10(k)
    ensures |Text(n)| <= k
  {
    if n >= 10 {
      assert k >= 2 && Power10(k) == 10 * Power10(k - 1);
      TextLength(n / 10, k - 1);
    }
  }

  lemma PowersOfTen()
    ensures Power10(6) == 1_000_000
    ensures Power10(10) == 10_000_000_000
    ensures Power10(20) == 100_000_000_000_000_000_000
  {
    assert Power10(2) == 100 && Power10(4) == 10_000 && Power10(6) == 1_000_000;
    assert Power10(8) == 100_000_000 && Power10(10) == 10_000_000_000;
    assert Power10(12) == 1_000_000_000_000 && Power10(14) == 100_000_000_000_000;
    assert Power10(16) == 10_000_000_000_000_000 && Power10(18) == 1_000_000_000_000_000_000;
  }
}
