/** Reading printed text back: a literal, and the digits of a number. */
module TextReading {
  import opened Options
  import opened Bytes
  import opened Utf8
  import Decimal

  function Expect(s: seq<byte>, literal: seq<byte>): Option<seq<byte>> {
    if |s| >= |literal| && s[..|literal|] == literal then Some(s[|literal|..]) else None
  }

  predicate IsDigit(b: byte) {
    0x30 <= b <= 0x39
  }

  predicate AllDigits(s: seq<byte>) {
    forall i :: 0 <= i < |s| ==> IsDigit(s[i])
  }

  /** The leading digits, and what follows them. */
  function Number(s: seq<byte>): (split: (seq<byte>, seq<byte>))
    ensures AllDigits(split.0)
  {
    if s == [] || !IsDigit(s[0]) then ([], s)
    else
      var more := Number(s[1..]);
      ([s[0]] + more.0, more.1)
  }

  /** The number its decimal digits stand for. */
  function NumberOf(digits: seq<byte>): nat
    requires AllDigits(digits)
  {
    if digits == [] then 0
    else 10 * NumberOf(digits[..|digits| - 1]) + (digits[|digits| - 1] as int - 0x30)
  }

  lemma ExpectHolds(literal: seq<byte>, rest: seq<byte>)
    ensures Expect(literal + rest, literal) == Some(rest)
  {
  }

  lemma {:induction false} NumberHolds(digits: seq<byte>, rest: seq<byte>)
    requires AllDigits(digits)
    requires rest != [] && !IsDigit(rest[0])
    ensures Number(digits + rest) == (digits, rest)
  {
    if digits == [] {
      assert digits + rest == rest;
    } else {
      NumberHolds(digits[1..], rest);
      assert (digits + rest)[1..] == digits[1..] + rest;
      assert [digits[0]] + digits[1..] == digits;
    }
  }

  lemma {:induction false} NumberOfText(text: string)
    requires forall k :: 0 <= k < |text| ==> '0' <= text[k] <= '9'
    ensures AllDigits(Ascii(text)) && NumberOf(Ascii(text)) == Decimal.Value(text)
  {
    if text != [] {
      var front := text[..|text| - 1];
      NumberOfText(front);
      assert Ascii(text)[..|text| - 1] == Ascii(front);
    }
  }

  /** The digits of a number stand for it. */
  lemma NumberOfDigits(n: nat)
    ensures AllDigits(Digits(n)) && NumberOf(Digits(n)) == n
  {
    NumberOfText(Decimal.Text(n));
    Decimal.ValueOfText(n);
    hide NumberOf, Ascii, Decimal.Value, Decimal.Text;
  }
}
