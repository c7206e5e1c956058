/** Admitting one model command: what is valid, its canonical arguments, and its approval detail. */
module CommandAdmission {
  import opened Options
  import opened Bytes
  import opened Utf8
  import opened JsonText
  import opened TextReading
  import opened ModelText
  import Decimal

  const MAX_COMMAND_CHARACTERS: nat := 6 * 1024
  const MAX_COMMAND_BYTES: nat := MAX_COMMAND_CHARACTERS * 4
  const MAX_WORKSPACE_ROOT_BYTES: nat := 4 * 1024
  const DEFAULT_TIMEOUT_MS: nat := 120_000
  const MAX_TIMEOUT_MS: nat := 300_000
  const MAX_REQUESTED_ARGUMENT_BYTES: nat := 64 * 1024
  const MAX_ADMITTED_ARGUMENT_BYTES: nat := MAX_REQUESTED_ARGUMENT_BYTES + 1024
  const MAX_APPROVAL_DETAIL_BYTES: nat := 1024
  const ROOT_LIMIT: nat := 256

  // ------------------------------------------------------------------ valid commands

  /** Unicode white space, as trimming recognizes it. */
  predicate WhiteSpace(c: seq<byte>) {
    if |c| == 1 then 0x09 <= c[0] <= 0x0D || c[0] == 0x20
    else if |c| == 2 then c == [0xC2, 0x85] || c == [0xC2, 0xA0]
    else if |c| == 3 then
      || c == [0xE1, 0x9A, 0x80]
      || (c[0] == 0xE2 && c[1] == 0x80 && (c[2] <= 0x8A || c[2] == 0xA8 || c[2] == 0xA9 || c[2] == 0xAF))
      || c == [0xE2, 0x81, 0x9F]
      || c == [0xE3, 0x80, 0x80]
    else false
  }

  predicate Blank(s: seq<byte>)
    requires Valid(s)
  {
    s == [] || (WhiteSpace(s[..CharLength(s)]) && Blank(s[CharLength(s)..]))
  }

  predicate ValidCommand(command: seq<byte>)
    requires Valid(command)
  {
    && !Blank(command)
    && Count(command) <= MAX_COMMAND_CHARACTERS
    && |command| <= MAX_COMMAND_BYTES
    && 0 !in command
  }

  /** The octet limit never refuses what the character limit accepts. */
  lemma CharactersBoundOctets(command: seq<byte>)
    requires Valid(command) && Count(command) <= MAX_COMMAND_CHARACTERS
    ensures |command| <= MAX_COMMAND_BYTES
  {
    CountBounds(command);
  }

  // ------------------------------------------------------------------ canonical arguments

  datatype Arguments = Arguments(cmd: seq<byte>, timeoutMs: nat, root: seq<byte>)

  ghost predicate Canonicalizable(a: Arguments) {
    && Valid(a.cmd) && ValidCommand(a.cmd)
    && Valid(a.root) && |a.root| <= MAX_WORKSPACE_ROOT_BYTES
    && 1 <= a.timeoutMs <= MAX_TIMEOUT_MS
  }

  function CmdKey(): (key: seq<byte>)
    ensures |key| == 7
  {
    Ascii("{\"cmd\":")
  }

  function TimeoutKey(): (key: seq<byte>)
    ensures |key| == 14
  {
    Ascii(",\"timeout_ms\":")
  }

  function RootKey(): (key: seq<byte>)
    ensures |key| == 18
  {
    Ascii(",\"workspace_root\":")
  }

  function Close(): (brace: seq<byte>)
    ensures |brace| == 1
  {
    Ascii("}")
  }

  function Canonical(a: Arguments): seq<byte> {
    CmdKey() + Quoted(a.cmd) + TimeoutKey() + Digits(a.timeoutMs) + RootKey() + Quoted(a.root) + Close()
  }

  lemma TimeoutDigits(ms: nat)
    requires ms <= MAX_TIMEOUT_MS
    ensures |Digits(ms)| <= 6
  {
    Decimal.PowersOfTen();
    DigitsLength(ms, 6);
  }

  /** Any valid command and root fit the admitted-argument bound, whatever must be escaped. */
  lemma CanonicalFits(a: Arguments)
    requires Canonicalizable(a)
    ensures |Canonical(a)| <= MAX_ADMITTED_ARGUMENT_BYTES
  {
    EscapeHolds(a.cmd);
    EscapeOctets(a.root);
    TimeoutDigits(a.timeoutMs);
    hide Escape, Digits, CmdKey, TimeoutKey, RootKey, Close, Valid, ValidCommand;
  }

  // ------------------------------------------------------------------ elided detail

  function DetailOmitted(): (text: seq<byte>)
    ensures |text| == 16
  {
    Ascii("[detail omitted]")
  }

  function DetailMarker(omitted: nat): seq<byte> {
    Ascii("...[") + Digits(omitted) + Ascii(" bytes omitted]...")
  }

  function BoundedHeadTail(text: seq<byte>, limit: nat): seq<byte> {
    if |text| <= limit then text
    else if limit <= MARKER_RESERVE
    then DetailOmitted()[..if limit < |DetailOmitted()| then limit else |DetailOmitted()|]
    else ElidedCounting(text, limit - MARKER_RESERVE, DetailMarker).text
  }

  method BoundHeadTail(text: seq<byte>, limit: nat) returns (bounded: seq<byte>)
    ensures bounded == BoundedHeadTail(text, limit)
  {
    hide HeadEnd, TailStart, DetailMarker, DetailOmitted;
    if |text| <= limit { return text; }
    if limit <= MARKER_RESERVE {
      return DetailOmitted()[..if limit < |DetailOmitted()| then limit else |DetailOmitted()|];
    }
    var headEnd, tailStart := Cut(text, limit - MARKER_RESERVE);
    return text[..headEnd] + DetailMarker(tailStart - headEnd) + text[tailStart..];
  }

  lemma DetailMarkerHolds(omitted: nat)
    requires omitted <= U64_MAX
    ensures Plain(DetailMarker(omitted)) && |DetailMarker(omitted)| <= MARKER_RESERVE
  {
    CountDigits(omitted);
    hide Ascii, Digits, Plain;
    PlainConcat(Ascii("...["), Digits(omitted));
    PlainConcat(Ascii("...[") + Digits(omitted), Ascii(" bytes omitted]..."));
  }

  lemma SmallLimitHolds(text: seq<byte>, limit: nat)
    requires |text| > limit && limit <= MARKER_RESERVE
    ensures Valid(BoundedHeadTail(text, limit)) && |BoundedHeadTail(text, limit)| <= limit
  {
    var kept := if limit < |DetailOmitted()| then limit else |DetailOmitted()|;
    PlainIsValid(DetailOmitted()[..kept]);
    hide Valid, Plain, DetailOmitted;
  }

  lemma DetailMarkersHold()
    ensures forall n: nat :: n <= U64_MAX ==>
              Plain(DetailMarker(n)) && |DetailMarker(n)| <= MARKER_RESERVE
  {
    forall n: nat | n <= U64_MAX ensures Plain(DetailMarker(n)) && |DetailMarker(n)| <= MARKER_RESERVE {
      DetailMarkerHolds(n);
    }
  }

  lemma LargeLimitIs(text: seq<byte>, limit: nat)
    requires MARKER_RESERVE < limit < |text|
    ensures BoundedHeadTail(text, limit) == ElidedCounting(text, limit - MARKER_RESERVE, DetailMarker).text
  {
    hide ElidedCounting, DetailMarker;
  }

  lemma LargeLimitHolds(text: seq<byte>, limit: nat)
    requires Valid(text) && MARKER_RESERVE < limit < |text| <= U64_MAX
    ensures Valid(BoundedHeadTail(text, limit)) && |BoundedHeadTail(text, limit)| <= limit
  {
    hide *;
    DetailMarkersHold();
    LargeLimitIs(text, limit);
    ElidedCountingHolds(text, limit - MARKER_RESERVE, DetailMarker);
  }

  /** Head and tail with the count between them are valid and within any limit, however small. */
  lemma BoundedHeadTailHolds(text: seq<byte>, limit: nat)
    requires Valid(text) && |text| <= U64_MAX
    ensures Valid(BoundedHeadTail(text, limit)) && |BoundedHeadTail(text, limit)| <= limit
  {
    hide Valid;
    if |text| > limit {
      hide BoundedHeadTail;
      if limit <= MARKER_RESERVE { SmallLimitHolds(text, limit); } else { LargeLimitHolds(text, limit); }
    }
  }

  // ------------------------------------------------------------------ approval detail

  /** A middle dot, two octets in UTF-8, between spaces. */
  function Dot(): (dot: seq<byte>)
    ensures |dot| == 4
  {
    [0x20, 0xC2, 0xB7, 0x20]
  }

  function Context(root: seq<byte>, timeoutMs: nat): seq<byte> {
    Dot() + Ascii("cwd ") + root + Dot() + Ascii("timeout ") + Digits(timeoutMs) + Ascii(" ms")
  }

  function CommandPrefix(): (prefix: seq<byte>)
    ensures |prefix| == 8
  {
    Ascii("Command ")
  }

  function SaturatingSub(a: nat, b: nat): nat {
    if a < b then 0 else a - b
  }

  function RootShown(a: Arguments): seq<byte> {
    BoundedHeadTail(Quoted(a.root), ROOT_LIMIT)
  }

  /** What is left for the command once the prefix and the context are in. */
  function CommandLimit(a: Arguments): nat {
    SaturatingSub(SaturatingSub(MAX_APPROVAL_DETAIL_BYTES, |CommandPrefix()|), |Context(RootShown(a), a.timeoutMs)|)
  }

  function ApprovalDetail(a: Arguments): seq<byte> {
    CommandPrefix() + BoundedHeadTail(Quoted(a.cmd), CommandLimit(a)) + Context(RootShown(a), a.timeoutMs)
  }

  lemma DotIsValid()
    ensures Valid(Dot())
  {
    var dot := Dot();
    assert dot[1..] == [0xC2, 0xB7, 0x20] && dot[1..][2..] == [0x20] && dot[1..][2..][1..] == [];
    assert Valid(dot[1..][2..]);
    assert Valid(dot[1..]);
  }

  lemma ContextHolds(root: seq<byte>, timeoutMs: nat)
    requires Valid(root) && |root| <= ROOT_LIMIT && timeoutMs <= MAX_TIMEOUT_MS
    ensures Valid(Context(root, timeoutMs)) && |Context(root, timeoutMs)| <= ROOT_LIMIT + 29
  {
    TimeoutDigits(timeoutMs);
    DotIsValid();
    PlainIsValid(Ascii("cwd "));
    PlainIsValid(Ascii("timeout "));
    PlainIsValid(Digits(timeoutMs));
    PlainIsValid(Ascii(" ms"));
    hide Valid, Digits, Ascii;
    var cwd := Dot() + Ascii("cwd ");
    ValidConcat(Dot(), Ascii("cwd "));
    ValidConcat(cwd, root);
    ValidConcat(cwd + root, Dot());
    ValidConcat(cwd + root + Dot(), Ascii("timeout "));
    ValidConcat(cwd + root + Dot() + Ascii("timeout "), Digits(timeoutMs));
    ValidConcat(cwd + root + Dot() + Ascii("timeout ") + Digits(timeoutMs), Ascii(" ms"));
  }

  lemma ThreePartsValid(a: seq<byte>, b: seq<byte>, c: seq<byte>)
    requires Valid(a) && Valid(b) && Valid(c)
    ensures Valid(a + b + c)
  {
    hide *;
    ValidConcat(a, b);
    ValidConcat(a + b, c);
  }

  lemma RootShownHolds(a: Arguments)
    requires Canonicalizable(a)
    ensures Valid(RootShown(a)) && |RootShown(a)| <= ROOT_LIMIT
  {
    QuotedHolds(a.root);
    CountBounds(a.root);
    hide Valid, BoundedHeadTail, Quoted, ValidCommand, Count;
    BoundedHeadTailHolds(Quoted(a.root), ROOT_LIMIT);
  }

  lemma CommandShownHolds(a: Arguments)
    requires Canonicalizable(a)
    ensures var shown := BoundedHeadTail(Quoted(a.cmd), CommandLimit(a));
            Valid(shown) && |shown| <= CommandLimit(a)
  {
    QuotedHolds(a.cmd);
    hide Valid, BoundedHeadTail, Quoted, Context, CommandLimit, Blank;
    BoundedHeadTailHolds(Quoted(a.cmd), CommandLimit(a));
  }

  /** The approval detail of any admissible command is valid and within its bound. */
  lemma ApprovalDetailFits(a: Arguments)
    requires Canonicalizable(a)
    ensures Valid(ApprovalDetail(a)) && |ApprovalDetail(a)| <= MAX_APPROVAL_DETAIL_BYTES
  {
    RootShownHolds(a);
    CommandShownHolds(a);
    PlainIsValid(CommandPrefix());
    hide Valid, BoundedHeadTail, Context, Quoted, ValidCommand, CommandPrefix;
    ContextHolds(RootShown(a), a.timeoutMs);
    ThreePartsValid(CommandPrefix(), BoundedHeadTail(Quoted(a.cmd), CommandLimit(a)),
                    Context(RootShown(a), a.timeoutMs));
  }

  ghost predicate TellsOmitted(shown: seq<byte>, text: seq<byte>, limit: nat, omitted: nat) {
    && MARKER_RESERVE < limit && 0 < omitted
    && MiddleReplaced(text, limit - MARKER_RESERVE, DetailMarker(omitted), Shortened(shown, omitted))
  }

  /** A text shown whole when it fits, and otherwise around a marker telling what was cut out. */
  ghost predicate ShownWithin(shown: seq<byte>, text: seq<byte>, limit: int) {
    if |text| <= limit then shown == text
    else
      && MARKER_RESERVE < limit && |shown| <= limit
      && exists omitted: nat :: TellsOmitted(shown, text, limit, omitted)
  }

  lemma Shows(s: Shortened, text: seq<byte>, limit: nat)
    requires MARKER_RESERVE < limit < |text| && |s.text| <= limit && 0 < s.omitted
    requires MiddleReplaced(text, limit - MARKER_RESERVE, DetailMarker(s.omitted), s)
    ensures ShownWithin(s.text, text, limit)
  {
    hide MiddleReplaced, DetailMarker;
    assert s == Shortened(s.text, s.omitted);
    assert TellsOmitted(s.text, text, limit, s.omitted);
  }

  lemma ElisionShows(text: seq<byte>, limit: nat)
    requires Valid(text) && MARKER_RESERVE < limit < |text| <= U64_MAX
    ensures ShownWithin(BoundedHeadTail(text, limit), text, limit)
  {
    hide *;
    DetailMarkersHold();
    LargeLimitIs(text, limit);
    LargeLimitHolds(text, limit);
    ElidedCountingHolds(text, limit - MARKER_RESERVE, DetailMarker);
    Shows(ElidedCounting(text, limit - MARKER_RESERVE, DetailMarker), text, limit);
  }

  lemma LargeLimitShows(text: seq<byte>, limit: nat)
    requires Valid(text) && MARKER_RESERVE < limit && |text| <= U64_MAX
    ensures ShownWithin(BoundedHeadTail(text, limit), text, limit)
  {
    hide Valid, ElidedCounting, TellsOmitted, DetailMarker;
    if |text| > limit { ElisionShows(text, limit); }
  }

  /** The parts of an approval detail, in the order they are read. */
  ghost predicate DetailReads(
    detail: seq<byte>, command: seq<byte>, root: seq<byte>, timeoutMs: nat)
  {
    detail == Ascii("Command ") + command + ([0x20, 0xC2, 0xB7, 0x20] + Ascii("cwd ") + root +
              [0x20, 0xC2, 0xB7, 0x20] + Ascii("timeout ") + Digits(timeoutMs) + Ascii(" ms"))
  }

  lemma CommandFits(a: Arguments)
    requires Canonicalizable(a)
    ensures Count(a.cmd) <= MAX_COMMAND_CHARACTERS
  {
  }

  lemma DetailIsRead(a: Arguments)
    ensures DetailReads(ApprovalDetail(a), BoundedHeadTail(Quoted(a.cmd), CommandLimit(a)), RootShown(a),
                        a.timeoutMs)
  {
    hide BoundedHeadTail, Quoted, Ascii, Digits, CommandLimit, RootShown;
  }

  /**
   * The detail shows the quoted command whole whenever all of it fits 1024 octets, and otherwise with
   * the count of what was cut out; it always shows the timeout, and the root within its own limit.
   */
  lemma ApprovalDetailTells(a: Arguments)
    requires Canonicalizable(a)
    ensures exists command, root ::
              && DetailReads(ApprovalDetail(a), command, root, a.timeoutMs)
              && ShownWithin(root, Quoted(a.root), ROOT_LIMIT)
              && ShownWithin(command, Quoted(a.cmd),
                             MAX_APPROVAL_DETAIL_BYTES - (|ApprovalDetail(a)| - |command|))
  {
    hide Valid, BoundedHeadTail, Context, Quoted, ValidCommand, CommandPrefix, DetailReads, ShownWithin, Count;
    RootShownHolds(a);
    ContextHolds(RootShown(a), a.timeoutMs);
    QuotedHolds(a.root);
    QuotedHolds(a.cmd);
    CountBounds(a.root);
    CommandFits(a);
    LargeLimitShows(Quoted(a.root), ROOT_LIMIT);
    LargeLimitShows(Quoted(a.cmd), CommandLimit(a));
    DetailIsRead(a);
  }

  // ------------------------------------------------------------------ admission

  datatype Refusal = CancelledRequest | UnknownTool | InvalidArguments

  datatype Admission =
    | Admitted(canonical: seq<byte>, detail: seq<byte>, arguments: Arguments)
    | RefusedRequest(reason: Refusal)

  /** What the model's raw arguments parse to: a command and an optional timeout. */
  datatype Parsed = Parsed(cmd: seq<byte>, timeoutMs: Option<nat>)

  /** One request as admission sees it; parsing and the two looks at cancellation are answers. */
  datatype Request = Request(
    known: bool, rawBytes: nat, parsed: Option<Parsed>, root: seq<byte>,
    cancelledBefore: bool, cancelledAfter: bool)

  /** Strings are valid UTF-8, and the root was bounded when the tool was opened. */
  ghost predicate WellTyped(r: Request) {
    && Valid(r.root) && |r.root| <= MAX_WORKSPACE_ROOT_BYTES
    && (r.parsed.Some? ==> Valid(r.parsed.value.cmd))
  }

  function TimeoutOf(p: Parsed): nat {
    if p.timeoutMs.Some? then p.timeoutMs.value else DEFAULT_TIMEOUT_MS
  }

  /** The retained-size checks every admitted call passes through. */
  predicate Retainable(canonical: seq<byte>, detail: seq<byte>, cmd: seq<byte>, root: seq<byte>) {
    && |canonical| <= MAX_ADMITTED_ARGUMENT_BYTES
    && |detail| <= MAX_APPROVAL_DETAIL_BYTES
    && |cmd| + |root| <= MAX_TOOL_TEXT_BYTES
  }

  function Admit(r: Request): Admission
    requires r.parsed.Some? ==> Valid(r.parsed.value.cmd)
  {
    if r.cancelledBefore then RefusedRequest(CancelledRequest)
    else if !r.known then RefusedRequest(UnknownTool)
    else if r.rawBytes > MAX_REQUESTED_ARGUMENT_BYTES || r.parsed.None? then RefusedRequest(InvalidArguments)
    else if !ValidCommand(r.parsed.value.cmd) then RefusedRequest(InvalidArguments)
    else if !(1 <= TimeoutOf(r.parsed.value) <= MAX_TIMEOUT_MS) then RefusedRequest(InvalidArguments)
    else
      var a := Arguments(r.parsed.value.cmd, TimeoutOf(r.parsed.value), r.root);
      if r.cancelledAfter then RefusedRequest(CancelledRequest)
      else if !Retainable(Canonical(a), ApprovalDetail(a), a.cmd, a.root)
      then RefusedRequest(InvalidArguments)
      else Admitted(Canonical(a), ApprovalDetail(a), a)
  }

  /** The request fits its bound, parses, and asks for a valid command within the timeout ceiling. */
  ghost predicate Sound(r: Request)
    requires r.parsed.Some? ==> Valid(r.parsed.value.cmd)
  {
    && r.rawBytes <= MAX_REQUESTED_ARGUMENT_BYTES && r.parsed.Some?
    && ValidCommand(r.parsed.value.cmd) && 1 <= TimeoutOf(r.parsed.value) <= MAX_TIMEOUT_MS
  }

  /**
   * The retained-size checks never refuse what the command checks accepted: a request is admitted
   * exactly when it is not cancelled, names the tool, fits the request bound, parses, and asks for a
   * valid command within the timeout ceiling.
   */
  lemma AdmittedIff(r: Request)
    requires WellTyped(r)
    ensures Admit(r).Admitted? <==>
      !r.cancelledBefore && !r.cancelledAfter && r.known && Sound(r)
  {
    if r.parsed.Some? && ValidCommand(r.parsed.value.cmd) && 1 <= TimeoutOf(r.parsed.value) <= MAX_TIMEOUT_MS {
      var a := Arguments(r.parsed.value.cmd, TimeoutOf(r.parsed.value), r.root);
      CanonicalFits(a);
      ApprovalDetailFits(a);
    }
    hide Canonical, ApprovalDetail, ValidCommand, Valid;
  }

  /** An admitted request keeps the command, the timeout, two minutes when none is given, and the root. */
  ghost predicate Keeps(r: Request, arguments: Arguments) {
    && r.parsed.Some? && arguments.cmd == r.parsed.value.cmd && arguments.root == r.root
    && (r.parsed.value.timeoutMs.Some? ==> arguments.timeoutMs == r.parsed.value.timeoutMs.value)
    && (r.parsed.value.timeoutMs.None? ==> arguments.timeoutMs == 120_000)
  }

  /** Cancelled before anything or after every check; in between, unknown or unsound. */
  ghost predicate RefusedFor(r: Request, reason: Refusal)
    requires r.parsed.Some? ==> Valid(r.parsed.value.cmd)
  {
    match reason
    case CancelledRequest => r.cancelledBefore || (r.known && Sound(r) && r.cancelledAfter)
    case UnknownTool => !r.cancelledBefore && !r.known
    case InvalidArguments => !r.cancelledBefore && r.known && !Sound(r)
  }

  lemma AdmissionKeeps(r: Request)
    requires WellTyped(r)
    ensures match Admit(r)
            case Admitted(canonical, detail, arguments) =>
              && Keeps(r, arguments) && Canonicalizable(arguments)
              && canonical == Canonical(arguments) && detail == ApprovalDetail(arguments)
            case RefusedRequest(reason) => RefusedFor(r, reason)
  {
    AdmittedIff(r);
    hide Canonical, ApprovalDetail, ValidCommand, Valid;
  }

  // ------------------------------------------------------------------ reading canonical arguments back

  function ReadString(s: seq<byte>): Option<Scanned> {
    var opened_ := Expect(s, [QUOTE]);
    if opened_.None? then None else Scan(opened_.value)
  }

  function ParseRoot(cmd: seq<byte>, timeoutMs: nat, s: seq<byte>): Option<Arguments> {
    var root := ReadString(s);
    if root.None? || root.value.rest != Close() then None
    else Some(Arguments(cmd, timeoutMs, root.value.text))
  }

  function ParseTimeout(cmd: Scanned): Option<Arguments> {
    var afterTimeoutKey := Expect(cmd.rest, TimeoutKey());
    if afterTimeoutKey.None? then None
    else
      var number := Number(afterTimeoutKey.value);
      var afterRootKey := Expect(number.1, RootKey());
      if number.0 == [] || afterRootKey.None? then None
      else ParseRoot(cmd.text, NumberOf(number.0), afterRootKey.value)
  }

  function Parse(s: seq<byte>): Option<Arguments> {
    var afterCmdKey := Expect(s, CmdKey());
    if afterCmdKey.None? then None
    else
      var cmd := ReadString(afterCmdKey.value);
      if cmd.None? then None else ParseTimeout(cmd.value)
  }

  lemma Regroup(
    a: seq<byte>, b: seq<byte>, c: seq<byte>, d: seq<byte>, e: seq<byte>, f: seq<byte>, g: seq<byte>)
    ensures a + b + c + d + e + f + g == a + (b + (c + (d + (e + (f + g)))))
  {
    assert a + b + c + d + e + f + g == a + b + c + d + e + (f + g);
    assert a + b + c + d + e + (f + g) == a + b + c + d + (e + (f + g));
    assert a + b + c + d + (e + (f + g)) == a + b + c + (d + (e + (f + g)));
    assert a + b + c + (d + (e + (f + g))) == a + b + (c + (d + (e + (f + g))));
  }

  lemma CanonicalSplits(a: Arguments, root: seq<byte>, timeout: seq<byte>, cmd: seq<byte>)
    requires root == Quoted(a.root) + Close()
    requires timeout == Digits(a.timeoutMs) + (RootKey() + root)
    requires cmd == Quoted(a.cmd) + (TimeoutKey() + timeout)
    ensures Canonical(a) == CmdKey() + cmd
  {
    hide Quoted, Digits, CmdKey, TimeoutKey, RootKey, Close;
    Regroup(CmdKey(), Quoted(a.cmd), TimeoutKey(), Digits(a.timeoutMs), RootKey(), Quoted(a.root), Close());
  }

  lemma ReadStringHolds(s: seq<byte>, rest: seq<byte>)
    ensures ReadString(Quoted(s) + rest) == Some(Scanned(s, rest))
  {
    ScanEscaped(s, rest);
    assert Quoted(s) + rest == [QUOTE] + (Escape(s) + [QUOTE] + rest);
    ExpectHolds([QUOTE], Escape(s) + [QUOTE] + rest);
  }

  lemma RootKeyEndsNumber(rest: seq<byte>)
    ensures !IsDigit((RootKey() + rest)[0])
  {
  }

  lemma ParseRootHolds(cmd: seq<byte>, timeoutMs: nat, root: seq<byte>)
    ensures ParseRoot(cmd, timeoutMs, Quoted(root) + Close()) == Some(Arguments(cmd, timeoutMs, root))
  {
    hide Quoted, ReadString, Close;
    ReadStringHolds(root, Close());
  }

  lemma ParseTimeoutHolds(cmd: seq<byte>, timeoutMs: nat, root: seq<byte>)
    ensures ParseTimeout(Scanned(cmd, TimeoutKey() + (Digits(timeoutMs) + (RootKey() + (Quoted(root) + Close())))))
              == Some(Arguments(cmd, timeoutMs, root))
  {
    var tail := Quoted(root) + Close();
    RootKeyEndsNumber(tail);
    hide Quoted, Digits, Expect, Number, NumberOf, ParseRoot, TimeoutKey, RootKey, Close;
    NumberOfDigits(timeoutMs);
    ExpectHolds(TimeoutKey(), Digits(timeoutMs) + (RootKey() + tail));
    NumberHolds(Digits(timeoutMs), RootKey() + tail);
    ExpectHolds(RootKey(), tail);
    ParseRootHolds(cmd, timeoutMs, root);
  }

  /** Canonical arguments read back as exactly the command, timeout and root they were made from. */
  lemma CanonicalReadsBack(a: Arguments)
    ensures Parse(Canonical(a)) == Some(a)
  {
    var root := Quoted(a.root) + Close();
    var timeout := Digits(a.timeoutMs) + (RootKey() + root);
    var cmd := Quoted(a.cmd) + (TimeoutKey() + timeout);
    CanonicalSplits(a, root, timeout, cmd);
    hide Quoted, Digits, Expect, ReadString, CmdKey, TimeoutKey, RootKey, Close, Canonical, ParseTimeout;
    ExpectHolds(CmdKey(), cmd);
    ReadStringHolds(a.cmd, TimeoutKey() + timeout);
    ParseTimeoutHolds(a.cmd, a.timeoutMs, a.root);
  }

  // ------------------------------------------------------------------ what admission tells

  lemma KeepsRoot(r: Request, arguments: Arguments)
    requires Keeps(r, arguments)
    ensures arguments.root == r.root
  {
  }

  /** What an admitted request shows and keeps is what was asked, and a refusal says what stood in the way. */
  lemma AdmissionTells(r: Request)
    requires WellTyped(r)
    ensures match Admit(r)
            case Admitted(canonical, detail, arguments) =>
              && Keeps(r, arguments) && Parse(canonical) == Some(arguments)
              && (exists command, root ::
                    && DetailReads(detail, command, root, arguments.timeoutMs)
                    && ShownWithin(root, Quoted(r.root), ROOT_LIMIT)
                    && ShownWithin(command, Quoted(arguments.cmd),
                                   MAX_APPROVAL_DETAIL_BYTES - (|detail| - |command|)))
            case RefusedRequest(reason) => RefusedFor(r, reason)
  {
    hide Canonical, ApprovalDetail, Canonicalizable, ValidCommand, Valid, Parse, DetailReads;
    hide ShownWithin, Quoted, Admit, Keeps, RefusedFor;
    AdmissionKeeps(r);
    var admission := Admit(r);
    if admission.Admitted? {
      CanonicalReadsBack(admission.arguments);
      ApprovalDetailTells(admission.arguments);
      KeepsRoot(r, admission.arguments);
    }
  }
}
