/** JSON strings as they are written (section 7 of RFC 8259) and read back, octet by octet. */
module JsonText {
  import opened Options
  import opened Bytes
  import opened Utf8

  const QUOTE: byte := 0x22
  const BACKSLASH: byte := 0x5C

  function HexDigit(n: byte): byte
    requires n < 16
  {
    if n < 10 then 0x30 + n else 0x57 + n
  }

  /** Quotation marks, backslashes and control characters are escaped; everything else is verbatim. */
  function EscapeOctet(b: byte): (escaped: seq<byte>)
    ensures 1 <= |escaped| <= 6
    ensures b >= 0x80 ==> escaped == [b]
    ensures b < 0x80 ==> Plain(escaped)
  {
    if b == QUOTE then [BACKSLASH, QUOTE]
    else if b == BACKSLASH then [BACKSLASH, BACKSLASH]
    else if b == 0x08 then [BACKSLASH, 0x62]
    else if b == 0x0C then [BACKSLASH, 0x66]
    else if b == 0x0A then [BACKSLASH, 0x6E]
    else if b == 0x0D then [BACKSLASH, 0x72]
    else if b == 0x09 then [BACKSLASH, 0x74]
    else if b < 0x20 then [BACKSLASH, 0x75, 0x30, 0x30, 0x30 + b / 16, HexDigit(b % 16)]
    else [b]
  }

  function Escape(s: seq<byte>): seq<byte> {
    if s == [] then [] else EscapeOctet(s[0]) + Escape(s[1..])
  }

  function Quoted(s: seq<byte>): seq<byte> {
    [QUOTE] + Escape(s) + [QUOTE]
  }

  // ------------------------------------------------------------------ length and validity

  lemma EscapeFront(a: seq<byte>, b: seq<byte>)
    requires a != []
    ensures Escape(a + b) == EscapeOctet(a[0]) + Escape(a[1..] + b)
  {
    assert (a + b)[1..] == a[1..] + b;
    hide EscapeOctet;
  }

  lemma Associates(a: seq<byte>, b: seq<byte>, c: seq<byte>)
    ensures (a + b) + c == a + (b + c)
  {
  }

  lemma {:induction false} EscapeConcat(a: seq<byte>, b: seq<byte>)
    ensures Escape(a + b) == Escape(a) + Escape(b)
  {
    if a == [] {
      assert a + b == b;
    } else {
      EscapeFront(a, b);
      EscapeConcat(a[1..], b);
      Associates(EscapeOctet(a[0]), Escape(a[1..]), Escape(b));
      assert Escape(a) == EscapeOctet(a[0]) + Escape(a[1..]);
      hide Escape, EscapeOctet;
    }
  }

  /** An octet takes at most six octets to write. */
  lemma {:induction false} EscapeOctets(s: seq<byte>)
    ensures |Escape(s)| <= 6 * |s|
  {
    if s != [] { EscapeOctets(s[1..]); }
  }

  lemma {:induction false} EscapeOfWide(s: seq<byte>)
    requires forall i :: 0 <= i < |s| ==> s[i] >= 0x80
    ensures Escape(s) == s
  {
    if s != [] { EscapeOfWide(s[1..]); }
  }

  lemma EscapeOne(b: byte)
    ensures Escape([b]) == EscapeOctet(b)
  {
    assert [b][1..] == [];
    assert EscapeOctet(b) + [] == EscapeOctet(b);
    hide EscapeOctet;
  }

  /** One character is written as one valid piece of at most six octets, however wide it is. */
  lemma EscapeCharacter(s: seq<byte>)
    requires Valid(s) && s != []
    ensures var c := Escape(s[..CharLength(s)]);
            Valid(c) && |c| <= 6 && c != []
  {
    var n := CharLength(s);
    var c := s[..n];
    if n == 1 {
      assert c == [s[0]] && s[0] < 0x80;
      EscapeOne(s[0]);
      PlainIsValid(EscapeOctet(s[0]));
      hide Valid, EscapeOctet, CharLength, Escape;
    } else {
      assert forall i :: 0 <= i < n ==> c[i] >= 0x80;
      CharLengthOfPart(s, n);
      hide CharLength;
      EscapeOfWide(c);
      assert c[n..] == [] && Valid(c[n..]);
      assert Valid(c);
    }
  }

  lemma FirstCharacter(s: seq<byte>)
    requires Valid(s) && s != []
    ensures var n := CharLength(s);
            && 0 < n && Valid(s[n..]) && Count(s) == 1 + Count(s[n..])
            && Escape(s) == Escape(s[..n]) + Escape(s[n..])
  {
    hide Escape, CharLength;
    var n := CharLength(s);
    assert s == s[..n] + s[n..];
    EscapeConcat(s[..n], s[n..]);
  }

  /** Escaping keeps text valid, and its length is bounded by its characters, not its octets. */
  lemma {:induction false} EscapeHolds(s: seq<byte>)
    requires Valid(s)
    ensures Valid(Escape(s)) && |Escape(s)| <= 6 * Count(s)
  {
    if s != [] {
      hide *;
      var n := CharLength(s);
      FirstCharacter(s);
      EscapeHolds(s[n..]);
      EscapeCharacter(s);
      ValidConcat(Escape(s[..n]), Escape(s[n..]));
    }
  }

  /** What is written has no control character left in it. */
  lemma {:induction false} EscapedHasNoControl(s: seq<byte>)
    ensures forall i :: 0 <= i < |Escape(s)| ==> Escape(s)[i] >= 0x20
  {
    if s != [] {
      EscapedHasNoControl(s[1..]);
      assert forall i :: 0 <= i < |EscapeOctet(s[0])| ==> EscapeOctet(s[0])[i] >= 0x20;
      hide EscapeOctet;
    }
  }

  lemma QuotedHolds(s: seq<byte>)
    requires Valid(s)
    ensures Valid(Quoted(s)) && |Quoted(s)| <= 6 * Count(s) + 2
  {
    EscapeHolds(s);
    PlainIsValid([QUOTE]);
    hide Valid;
    ValidConcat([QUOTE], Escape(s));
    ValidConcat([QUOTE] + Escape(s), [QUOTE]);
  }

  // ------------------------------------------------------------------ reading back

  datatype Scanned = Scanned(text: seq<byte>, rest: seq<byte>)

  function HexValue(b: byte): Option<byte> {
    if 0x30 <= b <= 0x39 then Some(b - 0x30)
    else if 0x61 <= b <= 0x66 then Some(b - 0x57)
    else None
  }

  /** The octet an escape sequence stands for, and how many octets the sequence takes. */
  function Unescaped(s: seq<byte>): Option<(byte, nat)>
    requires s != [] && s[0] == BACKSLASH
    ensures Unescaped(s).Some? ==> 2 <= Unescaped(s).value.1 <= |s|
  {
    if |s| < 2 then None
    else if s[1] == QUOTE then Some((QUOTE, 2))
    else if s[1] == BACKSLASH then Some((BACKSLASH, 2))
    else if s[1] == 0x62 then Some((0x08, 2))
    else if s[1] == 0x66 then Some((0x0C, 2))
    else if s[1] == 0x6E then Some((0x0A, 2))
    else if s[1] == 0x72 then Some((0x0D, 2))
    else if s[1] == 0x74 then Some((0x09, 2))
    else if s[1] == 0x75 && |s| >= 6 && s[2] == 0x30 && s[3] == 0x30
            && 0x30 <= s[4] <= 0x31 && HexValue(s[5]).Some?
    then Some(((s[4] - 0x30) * 16 + HexValue(s[5]).value, 6))
    else None
  }

  /** Reads up to the quotation mark that ends the string. */
  function Scan(s: seq<byte>): Option<Scanned> {
    if s == [] then None
    else if s[0] == QUOTE then Some(Scanned([], s[1..]))
    else if s[0] == BACKSLASH then (
      var octet := Unescaped(s);
      if octet.None? then None
      else
        var more := Scan(s[octet.value.1..]);
        if more.None? then None
        else Some(Scanned([octet.value.0] + more.value.text, more.value.rest))
    )
    else
      var more := Scan(s[1..]);
      if more.None? then None else Some(Scanned([s[0]] + more.value.text, more.value.rest))
  }

  lemma ScanOctet(b: byte, rest: seq<byte>, text: seq<byte>, after: seq<byte>)
    requires Scan(rest) == Some(Scanned(text, after))
    ensures Scan(EscapeOctet(b) + rest) == Some(Scanned([b] + text, after))
  {
    var s := EscapeOctet(b) + rest;
    if s[0] == BACKSLASH {
      assert Unescaped(s) == Some((b, |EscapeOctet(b)|));
      assert s[|EscapeOctet(b)|..] == rest;
    } else {
      assert s[1..] == rest;
    }
  }

  lemma ScanEnd(rest: seq<byte>)
    ensures Scan([QUOTE] + rest) == Some(Scanned([], rest))
  {
    assert ([QUOTE] + rest)[1..] == rest;
  }

  /** Any string reads back from its escaped form, whatever follows the closing quotation mark. */
  lemma {:induction false} ScanEscaped(s: seq<byte>, rest: seq<byte>)
    ensures Scan(Escape(s) + [QUOTE] + rest) == Some(Scanned(s, rest))
  {
    hide EscapeOctet, Scan;
    if s == [] {
      assert Escape(s) + [QUOTE] + rest == [QUOTE] + rest;
      ScanEnd(rest);
    } else {
      var more := Escape(s[1..]) + [QUOTE] + rest;
      assert Escape(s) + [QUOTE] + rest == EscapeOctet(s[0]) + more;
      hide Escape;
      ScanEscaped(s[1..], rest);
      ScanOctet(s[0], more, s[1..], rest);
      assert s == [s[0]] + s[1..];
    }
  }
}
