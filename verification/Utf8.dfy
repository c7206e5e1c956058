/** Valid UTF-8 (section 3 of RFC 3629), its character boundaries, and cutting between them. */
module Utf8 {
  import opened Bytes
  import Decimal

  predicate Continues(b: byte) {
    0x80 <= b <= 0xBF
  }

  predicate ThreeOctets(a: byte, b: byte) {
    Continues(b) && (a == 0xE0 ==> b >= 0xA0) && (a == 0xED ==> b <= 0x9F)
  }

  predicate FourOctets(a: byte, b: byte) {
    Continues(b) && (a == 0xF0 ==> b >= 0x90) && (a == 0xF4 ==> b <= 0x8F)
  }

  /** The length of the well-formed character the octets start with, or zero if there is none. */
  function CharLength(s: seq<byte>): (n: nat)
    ensures n <= |s| && n <= 4
    ensures forall k :: 1 <= k < n ==> Continues(s[k])
    ensures n > 0 ==> !Continues(s[0])
  {
    if s == [] then 0
    else if s[0] <= 0x7F then 1
    else if 0xC2 <= s[0] <= 0xDF then (if |s| >= 2 && Continues(s[1]) then 2 else 0)
    else if 0xE0 <= s[0] <= 0xEF then (if |s| >= 3 && ThreeOctets(s[0], s[1]) && Continues(s[2]) then 3 else 0)
    else if 0xF0 <= s[0] <= 0xF4 then (
      if |s| >= 4 && FourOctets(s[0], s[1]) && Continues(s[2]) && Continues(s[3]) then 4 else 0)
    else 0
  }

  predicate Valid(s: seq<byte>) {
    s == [] || (CharLength(s) > 0 && Valid(s[CharLength(s)..]))
  }

  /** How many characters a valid text has. */
  function Count(s: seq<byte>): nat
    requires Valid(s)
  {
    if s == [] then 0 else 1 + Count(s[CharLength(s)..])
  }

  /** The start, the end, and every octet that starts a character. */
  predicate Boundary(s: seq<byte>, i: nat) {
    i == 0 || i == |s| || (i < |s| && !Continues(s[i]))
  }

  // ------------------------------------------------------------------ what the characters are

  /** The Unicode scalar values: every code point that is not a surrogate. */
  predicate Scalar(n: nat) {
    n <= 0x10FFFF && !(0xD800 <= n <= 0xDFFF)
  }

  /** The octets of a scalar value, by the table of section 3 of RFC 3629. */
  function Encoded(n: nat): (octets: seq<byte>)
    requires Scalar(n)
    ensures 1 <= |octets| <= 4
  {
    if n < 0x80 then [n as byte]
    else if n < 0x800 then [(0xC0 + n / 0x40) as byte, (0x80 + n % 0x40) as byte]
    else if n < 0x10000 then
      [(0xE0 + n / 0x1000) as byte, (0x80 + n / 0x40 % 0x40) as byte, (0x80 + n % 0x40) as byte]
    else
      [(0xF0 + n / 0x40000) as byte, (0x80 + n / 0x1000 % 0x40) as byte,
       (0x80 + n / 0x40 % 0x40) as byte, (0x80 + n % 0x40) as byte]
  }

  /** A character that starts a text is the same whatever follows it. */
  lemma CharLengthStable(a: seq<byte>, b: seq<byte>)
    requires CharLength(a) > 0
    ensures CharLength(a + b) == CharLength(a)
  {
  }

  lemma TwoOctetsRead(a: byte, b: byte)
    requires 0xC2 <= a <= 0xDF && Continues(b)
    ensures CharLength([a, b]) == 2
  {
  }

  lemma ThreeOctetsRead(a: byte, b: byte, c: byte)
    requires 0xE0 <= a <= 0xEF && ThreeOctets(a, b) && Continues(c)
    ensures CharLength([a, b, c]) == 3
  {
  }

  lemma FourOctetsRead(a: byte, b: byte, c: byte, d: byte)
    requires 0xF0 <= a <= 0xF4 && FourOctets(a, b) && Continues(c) && Continues(d)
    ensures CharLength([a, b, c, d]) == 4
  {
  }

  lemma TwoDigits(a: nat, b: nat)
    requires b < 0x40
    ensures (a * 0x40 + b) / 0x40 == a && (a * 0x40 + b) % 0x40 == b
  {
  }

  lemma EncodedAlone(n: nat)
    requires Scalar(n)
    ensures CharLength(Encoded(n)) == |Encoded(n)|
  {
    if n >= 0x80 {
      hide CharLength;
      var m, d := n / 0x40, n % 0x40;
      var k, c := m / 0x40, m % 0x40;
      assert n == m * 0x40 + d && m == k * 0x40 + c;
      if n < 0x800 {
        TwoOctetsRead((0xC0 + m) as byte, (0x80 + d) as byte);
      } else if n < 0x10000 {
        assert n / 0x1000 == k;
        ThreeOctetsRead((0xE0 + k) as byte, (0x80 + c) as byte, (0x80 + d) as byte);
      } else {
        var a, b := k / 0x40, k % 0x40;
        assert k == a * 0x40 + b && n / 0x1000 == k && n / 0x40000 == a;
        FourOctetsRead((0xF0 + a) as byte, (0x80 + b) as byte, (0x80 + c) as byte, (0x80 + d) as byte);
      }
    }
  }

  /** Every scalar value is one character, whatever follows it. */
  lemma EncodedIsCharacter(n: nat, rest: seq<byte>)
    requires Scalar(n)
    ensures CharLength(Encoded(n) + rest) == |Encoded(n)|
  {
    hide CharLength, Encoded, Scalar;
    EncodedAlone(n);
    CharLengthStable(Encoded(n), rest);
  }

  lemma ThreeDigits(a: nat, b: nat, c: nat)
    requires b < 0x40 && c < 0x40
    ensures var n := a * 0x1000 + b * 0x40 + c;
            n / 0x1000 == a && n / 0x40 % 0x40 == b && n % 0x40 == c
  {
    TwoDigits(a * 0x40 + b, c);
    TwoDigits(a, b);
  }

  lemma FourDigits(a: nat, b: nat, c: nat, d: nat)
    requires b < 0x40 && c < 0x40 && d < 0x40
    ensures var n := a * 0x40000 + b * 0x1000 + c * 0x40 + d;
            n / 0x40000 == a && n / 0x1000 % 0x40 == b && n / 0x40 % 0x40 == c && n % 0x40 == d
  {
    ThreeDigits(a * 0x40 + b, c, d);
    TwoDigits(a, b);
  }

  lemma TwoOctetsEncoded(s: seq<byte>)
    requires CharLength(s) == 2
    ensures exists n: nat :: Scalar(n) && Encoded(n) == s[..2]
  {
    var a, b := s[0] as int - 0xC0, s[1] as int - 0x80;
    TwoDigits(a, b);
    assert Scalar(a * 0x40 + b) && Encoded(a * 0x40 + b) == s[..2];
  }

  lemma ThreeOctetsEncoded(s: seq<byte>)
    requires CharLength(s) == 3
    ensures exists n: nat :: Scalar(n) && Encoded(n) == s[..3]
  {
    var a, b, c := s[0] as int - 0xE0, s[1] as int - 0x80, s[2] as int - 0x80;
    ThreeDigits(a, b, c);
    var n: nat := a * 0x1000 + b * 0x40 + c;
    assert Scalar(n) && 0x800 <= n < 0x10000;
    assert Encoded(n) == s[..3];
  }

  lemma FourOctetsEncoded(s: seq<byte>)
    requires CharLength(s) == 4
    ensures exists n: nat :: Scalar(n) && Encoded(n) == s[..4]
  {
    var a, b, c, d := s[0] as int - 0xF0, s[1] as int - 0x80, s[2] as int - 0x80, s[3] as int - 0x80;
    FourDigits(a, b, c, d);
    var n: nat := a * 0x40000 + b * 0x1000 + c * 0x40 + d;
    assert Scalar(n) && 0x10000 <= n;
    assert Encoded(n) == s[..4];
  }

  /** Every character is the encoding of a scalar value. */
  lemma CharacterIsEncoded(s: seq<byte>)
    requires CharLength(s) > 0
    ensures exists n: nat :: Scalar(n) && Encoded(n) == s[..CharLength(s)]
  {
    if CharLength(s) == 1 {
      assert Encoded(s[0] as nat) == s[..1];
    } else {
      hide Encoded, Scalar;
      if CharLength(s) == 2 {
        TwoOctetsEncoded(s);
      } else if CharLength(s) == 3 {
        ThreeOctetsEncoded(s);
      } else {
        FourOctetsEncoded(s);
      }
    }
  }

  /** The encodings of a list of scalar values, in order. */
  function EncodedAll(ns: seq<nat>): seq<byte>
    requires forall n <- ns :: Scalar(n)
  {
    if ns == [] then [] else Encoded(ns[0]) + EncodedAll(ns[1..])
  }

  lemma EncodedFirst(n: nat, more: seq<nat>)
    requires Scalar(n) && forall m <- more :: Scalar(m)
    ensures EncodedAll([n] + more) == Encoded(n) + EncodedAll(more)
  {
    hide Encoded, Scalar;
    assert ([n] + more)[1..] == more;
  }

  lemma PrependEncoded(s: seq<byte>, n: nat, more: seq<nat>)
    requires Valid(s) && s != [] && Scalar(n) && Encoded(n) == s[..CharLength(s)]
    requires (forall m <- more :: Scalar(m)) && EncodedAll(more) == s[CharLength(s)..]
    requires |more| == Count(s[CharLength(s)..])
    ensures (forall m <- [n] + more :: Scalar(m)) && EncodedAll([n] + more) == s
    ensures |[n] + more| == Count(s)
  {
    hide CharLength, Encoded, Scalar;
    EncodedFirst(n, more);
    assert s == s[..CharLength(s)] + s[CharLength(s)..];
  }

  /** Text is valid exactly when it is the encodings of some scalar values, and counts that many. */
  lemma {:induction false} ValidIsEncoded(s: seq<byte>) returns (ns: seq<nat>)
    requires Valid(s)
    ensures (forall n <- ns :: Scalar(n)) && EncodedAll(ns) == s && |ns| == Count(s)
  {
    ns := [];
    if s != [] {
      hide CharLength, Encoded, Scalar, EncodedAll, Count;
      CharacterIsEncoded(s);
      var n: nat :| Scalar(n) && Encoded(n) == s[..CharLength(s)];
      ns := ValidIsEncoded(s[CharLength(s)..]);
      PrependEncoded(s, n, ns);
      ns := [n] + ns;
    }
  }

  lemma {:induction false} EncodedIsValid(ns: seq<nat>)
    requires forall n <- ns :: Scalar(n)
    ensures Valid(EncodedAll(ns)) && Count(EncodedAll(ns)) == |ns|
  {
    if ns != [] {
      EncodedIsCharacter(ns[0], EncodedAll(ns[1..]));
      EncodedIsValid(ns[1..]);
      hide CharLength, Encoded;
      assert EncodedAll(ns)[|Encoded(ns[0])|..] == EncodedAll(ns[1..]);
    }
  }

  // ------------------------------------------------------------------ characters and octets

  lemma {:induction false} CountBounds(s: seq<byte>)
    requires Valid(s)
    ensures Count(s) <= |s| <= 4 * Count(s)
  {
    if s != [] {
      CountBounds(s[CharLength(s)..]);
    }
  }

  lemma CharLengthOfPart(s: seq<byte>, i: nat)
    requires CharLength(s) <= i <= |s|
    ensures CharLength(s) > 0 ==> CharLength(s[..i]) == CharLength(s)
  {
  }

  lemma {:induction false} ValidConcat(a: seq<byte>, b: seq<byte>)
    requires Valid(a) && Valid(b)
    ensures Valid(a + b)
  {
    if a == [] {
      assert a + b == b;
    } else {
      var n := CharLength(a);
      CharLengthStable(a, b);
      hide CharLength;
      ValidConcat(a[n..], b);
      assert (a + b)[n..] == a[n..] + b;
    }
  }

  /** A valid text cut at a boundary is two valid texts. */
  lemma {:induction false} ValidCut(s: seq<byte>, i: nat)
    requires Valid(s) && i <= |s| && Boundary(s, i)
    ensures Valid(s[..i]) && Valid(s[i..])
  {
    if i == 0 {
      assert s[..0] == [] && s[0..] == s;
    } else if i == |s| {
      assert s[..i] == s;
    } else {
      var n := CharLength(s);
      assert n <= i;
      ValidCut(s[n..], i - n);
      CharLengthOfPart(s, i);
      assert s[..i][n..] == s[n..][..i - n];
      assert s[n..][i - n..] == s[i..];
    }
  }

  lemma BoundaryShift(s: seq<byte>, n: nat, j: nat)
    requires Valid(s) && s != [] && n == CharLength(s) && j <= |s| - n && Boundary(s[n..], j)
    ensures Boundary(s, n + j)
  {
    if j == 0 && n < |s| { assert CharLength(s[n..]) > 0; }
  }

  /** From any place in a valid text a boundary is at most three octets away, in both directions. */
  lemma {:induction false} BoundaryNear(s: seq<byte>, i: nat)
    requires Valid(s) && i <= |s|
    ensures exists j: nat :: j <= i <= j + 3 && Boundary(s, j)
    ensures exists j: nat :: i <= j <= i + 3 && j <= |s| && Boundary(s, j)
  {
    var n := CharLength(s);
    if i == 0 || i == |s| {
      assert Boundary(s, i);
    } else if i < n {
      assert Boundary(s, 0) && Boundary(s, n) by {
        if n < |s| { assert CharLength(s[n..]) > 0; }
      }
    } else {
      BoundaryNear(s[n..], i - n);
      var j: nat :| j <= i - n <= j + 3 && Boundary(s[n..], j);
      var k: nat :| i - n <= k <= i - n + 3 && k <= |s[n..]| && Boundary(s[n..], k);
      BoundaryShift(s, n, j);
      BoundaryShift(s, n, k);
    }
  }

  // ------------------------------------------------------------------ cutting out the middle

  /** The last boundary at or before a place. */
  function Floor(s: seq<byte>, i: nat): (j: nat)
    requires i <= |s|
    ensures j <= i && Boundary(s, j)
    ensures forall k :: j < k <= i ==> !Boundary(s, k)
  {
    if Boundary(s, i) then i else Floor(s, i - 1)
  }

  /** The first boundary at or after a place. */
  function Ceiling(s: seq<byte>, i: nat): (j: nat)
    requires i <= |s|
    ensures i <= j <= |s| && Boundary(s, j)
    ensures forall k :: i <= k < j ==> !Boundary(s, k)
    decreases |s| - i
  {
    if Boundary(s, i) then i else Ceiling(s, i + 1)
  }

  function HeadEnd(s: seq<byte>, retained: nat): (h: nat)
    requires retained < |s|
    ensures h <= retained / 2
  {
    Floor(s, retained / 2)
  }

  function TailStart(s: seq<byte>, retained: nat): (t: nat)
    requires retained < |s|
    ensures HeadEnd(s, retained) <= t <= |s|
  {
    Ceiling(s, |s| - (retained - HeadEnd(s, retained)))
  }

  /**
   * Cutting the middle out leaves two valid pieces that never overlap, hold at most what may be
   * retained, and fall short of it by less than one character; the head is half of it and the tail
   * the rest, each but for less than one character.
   */
  lemma CutHolds(s: seq<byte>, retained: nat)
    requires Valid(s) && retained < |s|
    ensures var h, t := HeadEnd(s, retained), TailStart(s, retained);
            && h <= t <= |s| && Valid(s[..h]) && Valid(s[t..])
            && retained - 3 <= h + (|s| - t) <= retained
            && retained / 2 - 3 <= h <= retained / 2
            && retained - h - 3 <= |s| - t <= retained - h
  {
    var h, t := HeadEnd(s, retained), TailStart(s, retained);
    BoundaryNear(s, retained / 2);
    var i: nat :| i <= retained / 2 <= i + 3 && Boundary(s, i);
    assert i <= h;
    var place := |s| - (retained - h);
    BoundaryNear(s, place);
    var j: nat :| place <= j <= place + 3 && j <= |s| && Boundary(s, j);
    assert t <= j;
    ValidCut(s, h);
    ValidCut(s, t);
  }

  lemma FloorIs(s: seq<byte>, i: nat, j: nat)
    requires i <= |s| && j <= i && Boundary(s, j) && forall k :: j < k <= i ==> !Boundary(s, k)
    ensures Floor(s, i) == j
  {
    hide Boundary;
  }

  lemma CeilingIs(s: seq<byte>, i: nat, j: nat)
    requires i <= j <= |s| && Boundary(s, j) && forall k :: i <= k < j ==> !Boundary(s, k)
    ensures Ceiling(s, i) == j
  {
    hide Boundary;
  }

  /** Finds both ends of the cut by walking outward from the middle to character boundaries. */
  method Cut(s: seq<byte>, retained: nat) returns (headEnd: nat, tailStart: nat)
    requires retained < |s|
    ensures headEnd == HeadEnd(s, retained) && tailStart == TailStart(s, retained)
  {
    headEnd := retained / 2;
    while !Boundary(s, headEnd)
      invariant headEnd <= retained / 2
      invariant forall k :: headEnd < k <= retained / 2 ==> !Boundary(s, k)
      decreases headEnd
    {
      headEnd := headEnd - 1;
    }
    FloorIs(s, retained / 2, headEnd);
    var place := |s| - (retained - headEnd);
    tailStart := place;
    while !Boundary(s, tailStart)
      invariant place <= tailStart <= |s|
      invariant forall k :: place <= k < tailStart ==> !Boundary(s, k)
      decreases |s| - tailStart
    {
      tailStart := tailStart + 1;
    }
    CeilingIs(s, place, tailStart);
  }

  // ------------------------------------------------------------------ plain ASCII

  ghost predicate Plain(s: seq<byte>) {
    forall i :: 0 <= i < |s| ==> s[i] < 0x80
  }

  /** The octets of an ASCII text; nothing else is ever passed. */
  function Ascii(s: string): (octets: seq<byte>)
    ensures |octets| == |s|
    ensures Plain(octets)
    ensures forall i :: 0 <= i < |s| && s[i] as int < 0x80 ==> octets[i] as int == s[i] as int
  {
    seq(|s|, i requires 0 <= i < |s| => if s[i] as int < 0x80 then s[i] as int as byte else 0x3F)
  }

  lemma PlainConcat(a: seq<byte>, b: seq<byte>)
    requires Plain(a) && Plain(b)
    ensures Plain(a + b)
  {
  }

  lemma {:induction false} PlainIsValid(s: seq<byte>)
    requires Plain(s)
    ensures Valid(s) && Count(s) == |s|
  {
    if s != [] {
      PlainIsValid(s[1..]);
    }
  }

  /** A number as it is printed. */
  function Digits(n: nat): (octets: seq<byte>)
    ensures forall i :: 0 <= i < |octets| ==> 0x30 <= octets[i] <= 0x39
    ensures octets != [] && Plain(octets)
  {
    Ascii(Decimal.Text(n))
  }

  lemma DigitsLength(n: nat, k: nat)
    requires 1 <= k && n < Decimal.Power10(k)
    ensures |Digits(n)| <= k
  {
    Decimal.TextLength(n, k);
  }
}
