/** Reading the model's text back: how the command ended, and what each stream holds. */
module ModelReading {
  import opened Options
  import opened Bytes
  import opened Utf8
  import opened TextReading
  import opened StreamCapture
  import opened CommandResult
  import opened ModelText
  import Decimal

  // ------------------------------------------------------------------ how the command ended

  datatype ReadCause = ReadCause(cause: ExitCause, rest: seq<byte>)

  /** A number with an optional sign, up to the end of its line. */
  function ReadSigned(s: seq<byte>): Option<(int, seq<byte>)> {
    var minus := Expect(s, Ascii("-"));
    var number := Number(if minus.Some? then minus.value else s);
    var rest := Expect(number.1, Ascii("\n"));
    if number.0 == [] || rest.None? then None
    else
      var n: int := NumberOf(number.0);
      Some((if minus.Some? then -n else n, rest.value))
  }

  const EXITED := "status: exited\nexit_code: "

  const SIGNALED := "status: signaled\nsignal: "

  const TIMED_OUT := "status: timed_out\n"

  const CANCELLED := "status: cancelled\n"

  function ReadExited(s: seq<byte>): Option<ReadCause> {
    var n := ReadSigned(s);
    if n.None? then None else Some(ReadCause(Exited(n.value.0), n.value.1))
  }

  function ReadSignaled(s: seq<byte>): Option<ReadCause> {
    var n := ReadSigned(s);
    if n.None? then None else Some(ReadCause(Signaled(n.value.0), n.value.1))
  }

  /** How the command ended, read from the first lines. */
  function ReadStatus(s: seq<byte>): Option<ReadCause> {
    if Expect(s, Ascii(EXITED)).Some? then ReadExited(Expect(s, Ascii(EXITED)).value)
    else if Expect(s, Ascii(SIGNALED)).Some? then ReadSignaled(Expect(s, Ascii(SIGNALED)).value)
    else if Expect(s, Ascii(TIMED_OUT)).Some?
    then Some(ReadCause(TimedOut, Expect(s, Ascii(TIMED_OUT)).value))
    else if Expect(s, Ascii(CANCELLED)).Some?
    then Some(ReadCause(Cancelled, Expect(s, Ascii(CANCELLED)).value))
    else None
  }

  lemma NewlineEndsNumber(rest: seq<byte>)
    ensures !IsDigit((Ascii("\n") + rest)[0])
  {
  }

  lemma DigitsAreUnsigned(n: nat, rest: seq<byte>)
    ensures Expect(Digits(n) + rest, Ascii("-")).None?
  {
    assert (Digits(n) + rest)[..1][0] == Digits(n)[0];
    assert Ascii("-")[0] == 0x2D;
    hide Digits;
  }

  lemma SignedSplits(n: int, size: nat, rest: seq<byte>)
    requires size == if n < 0 then -n else n
    ensures var tail := Ascii("\n") + rest;
            SignedDigits(n) + Ascii("\n") + rest ==
              if n < 0 then Ascii("-") + (Digits(size) + tail) else Digits(size) + tail
  {
    hide Ascii, Digits;
  }

  lemma SignedReadsBack(n: int, rest: seq<byte>)
    ensures ReadSigned(SignedDigits(n) + Ascii("\n") + rest) == Some((n, rest))
  {
    var size: nat := if n < 0 then -n else n;
    var tail := Ascii("\n") + rest;
    SignedSplits(n, size, rest);
    NewlineEndsNumber(rest);
    NumberOfDigits(size);
    DigitsAreUnsigned(size, tail);
    hide Digits, Ascii, Expect, Number, NumberOf, SignedDigits;
    NumberHolds(Digits(size), tail);
    ExpectHolds(Ascii("\n"), rest);
    ExpectHolds(Ascii("-"), Digits(size) + tail);
  }

  lemma OtherLiteral(a: string, b: string, k: nat, rest: seq<byte>)
    requires k < |a| && k < |b| && a[k] as int < 0x80 && b[k] as int < 0x80 && a[k] != b[k]
    ensures Expect(Ascii(a) + rest, Ascii(b)).None?
  {
    if |Ascii(a) + rest| >= |b| {
      assert (Ascii(a) + rest)[..|b|][k] == Ascii(a)[k];
    }
    hide Expect;
  }

  /** No status line starts like another. */
  lemma StatusLinesDiffer(rest: seq<byte>)
    ensures Expect(Ascii(SIGNALED) + rest, Ascii(EXITED)).None?
    ensures Expect(Ascii(TIMED_OUT) + rest, Ascii(EXITED)).None?
    ensures Expect(Ascii(TIMED_OUT) + rest, Ascii(SIGNALED)).None?
    ensures Expect(Ascii(CANCELLED) + rest, Ascii(EXITED)).None?
    ensures Expect(Ascii(CANCELLED) + rest, Ascii(SIGNALED)).None?
    ensures Expect(Ascii(CANCELLED) + rest, Ascii(TIMED_OUT)).None?
  {
    hide Ascii, Expect;
    OtherLiteral(SIGNALED, EXITED, 8, rest);
    OtherLiteral(TIMED_OUT, EXITED, 8, rest);
    OtherLiteral(TIMED_OUT, SIGNALED, 8, rest);
    OtherLiteral(CANCELLED, EXITED, 8, rest);
    OtherLiteral(CANCELLED, SIGNALED, 8, rest);
    OtherLiteral(CANCELLED, TIMED_OUT, 8, rest);
  }

  lemma HeadApart(a: seq<byte>, b: seq<byte>, c: seq<byte>, d: seq<byte>)
    ensures a + b + c + d == a + (b + c + d)
  {
  }

  lemma StatusSplits(cause: ExitCause, rest: seq<byte>)
    ensures StatusText(cause) + rest ==
              match cause
              case Exited(n) => Ascii(EXITED) + (SignedDigits(n) + Ascii("\n") + rest)
              case Signaled(n) => Ascii(SIGNALED) + (SignedDigits(n) + Ascii("\n") + rest)
              case TimedOut => Ascii(TIMED_OUT) + rest
              case Cancelled => Ascii(CANCELLED) + rest
  {
    hide Ascii, SignedDigits;
    match cause
    case Exited(n) => HeadApart(Ascii(EXITED), SignedDigits(n), Ascii("\n"), rest);
    case Signaled(n) => HeadApart(Ascii(SIGNALED), SignedDigits(n), Ascii("\n"), rest);
    case _ =>
  }

  /** The status lines tell how the command ended, whatever follows them. */
  lemma StatusReadsBack(cause: ExitCause, rest: seq<byte>)
    ensures ReadStatus(StatusText(cause) + rest) == Some(ReadCause(cause, rest))
  {
    hide Ascii, Expect, ReadSigned, SignedDigits, StatusText, EXITED, SIGNALED, TIMED_OUT, CANCELLED;
    StatusSplits(cause, rest);
    match cause
    case Exited(n) =>
      SignedReadsBack(n, rest);
      ExpectHolds(Ascii(EXITED), SignedDigits(n) + Ascii("\n") + rest);
    case Signaled(n) =>
      SignedReadsBack(n, rest);
      StatusLinesDiffer(SignedDigits(n) + Ascii("\n") + rest);
      ExpectHolds(Ascii(SIGNALED), SignedDigits(n) + Ascii("\n") + rest);
    case TimedOut =>
      StatusLinesDiffer(rest);
      ExpectHolds(Ascii(TIMED_OUT), rest);
    case Cancelled =>
      StatusLinesDiffer(rest);
      ExpectHolds(Ascii(CANCELLED), rest);
  }

  // ------------------------------------------------------------------ what a stream's section says

  datatype Section = Section(total: nat, complete: bool, body: seq<byte>)

  /** The body of a section and everything after it. */
  function ReadBody(name: string, total: nat, complete: bool, s: seq<byte>): Option<Section> {
    var named := Expect(s, Ascii(name));
    var body := if named.Some? then Expect(named.value, Ascii(":\n")) else None;
    if body.None? then None else Some(Section(total, complete, body.value))
  }

  function ReadComplete(name: string, total: nat, s: seq<byte>): Option<Section> {
    var named := Expect(s, Ascii(name));
    var flag := if named.Some? then Expect(named.value, Ascii("_complete: ")) else None;
    if flag.None? then None
    else
      var yes, no := Expect(flag.value, Ascii("true")), Expect(flag.value, Ascii("false"));
      var line := if yes.Some? then yes else no;
      var rest := if line.Some? then Expect(line.value, Ascii("\n")) else None;
      if rest.None? then None else ReadBody(name, total, yes.Some?, rest.value)
  }

  function ReadSection(name: string, s: seq<byte>): Option<Section> {
    var named := Expect(s, Ascii(name));
    var count := if named.Some? then Expect(named.value, Ascii("_bytes: ")) else None;
    if count.None? then None
    else
      var number := Number(count.value);
      var rest := Expect(number.1, Ascii("\n"));
      if number.0 == [] || rest.None? then None
      else ReadComplete(name, NumberOf(number.0), rest.value)
  }

  lemma BodyReadsBack(name: string, total: nat, complete: bool, body: seq<byte>)
    ensures ReadBody(name, total, complete, Ascii(name) + Ascii(":\n") + body) ==
              Some(Section(total, complete, body))
  {
    hide Ascii, Expect;
    assert Ascii(name) + Ascii(":\n") + body == Ascii(name) + (Ascii(":\n") + body);
    ExpectHolds(Ascii(name), Ascii(":\n") + body);
    ExpectHolds(Ascii(":\n"), body);
  }

  lemma CompleteReadsBack(name: string, total: nat, complete: bool, body: seq<byte>)
    ensures ReadComplete(name, total, CompleteLine(name, complete) + (Ascii(name) + Ascii(":\n") + body)) ==
              Some(Section(total, complete, body))
  {
    BodyReadsBack(name, total, complete, body);
    hide Ascii, Expect, ReadBody;
    var rest := Ascii(name) + Ascii(":\n") + body;
    var flag := if complete then "true" else "false";
    var line := Ascii(flag) + (Ascii("\n") + rest);
    assert CompleteLine(name, complete) + rest == Ascii(name) + (Ascii("_complete: ") + line);
    ExpectHolds(Ascii(name), Ascii("_complete: ") + line);
    ExpectHolds(Ascii("_complete: "), line);
    if !complete { OtherLiteral("false", "true", 0, Ascii("\n") + rest); }
    ExpectHolds(Ascii(flag), Ascii("\n") + rest);
    ExpectHolds(Ascii("\n"), rest);
  }

  /** The labels of a section tell how many bytes the stream had and whether it ended on its own. */
  lemma SectionReadsBack(name: string, stream: CapturedStream, body: seq<byte>)
    ensures ReadSection(name, StreamLabels(name, stream) + body) ==
              Some(Section(stream.totalBytes, stream.complete, body))
  {
    CompleteReadsBack(name, stream.totalBytes, stream.complete, body);
    NumberOfDigits(stream.totalBytes);
    hide Ascii, Expect, ReadComplete, CompleteLine, Digits, Number, NumberOf;
    var rest := CompleteLine(name, stream.complete) + (Ascii(name) + Ascii(":\n") + body);
    var line := Digits(stream.totalBytes) + (Ascii("\n") + rest);
    assert StreamLabels(name, stream) + body == Ascii(name) + (Ascii("_bytes: ") + line);
    ExpectHolds(Ascii(name), Ascii("_bytes: ") + line);
    ExpectHolds(Ascii("_bytes: "), line);
    NewlineEndsNumber(rest);
    NumberHolds(Digits(stream.totalBytes), Ascii("\n") + rest);
    ExpectHolds(Ascii("\n"), rest);
  }

  // ------------------------------------------------------------------ the whole text

  /** What the section shows of the stream after its labels. */
  function BodyShown(s: ShownStream): seq<byte> {
    if s.stream.totalBytes == 0 then Ascii("[empty]\n")
    else Truncated(s.lossy, STREAM_TEXT_BYTES).text + Ascii("\n")
  }

  lemma TextSplits(cause: ExitCause, stdout: ShownStream, stderr: ShownStream)
    ensures Rendered(cause, stdout, stderr) ==
              StatusText(cause) +
              (StreamLabels("stdout", stdout.stream) + (BodyShown(stdout) + StreamText("stderr", stderr)))
    ensures StreamText("stderr", stderr) == StreamLabels("stderr", stderr.stream) + BodyShown(stderr)
  {
    hide StatusText, StreamLabels, Ascii, Truncated;
  }

  /**
   * The model's text reads back: how the command ended, what the first stream counted and whether it
   * ended on its own, and, after what it shows of that stream, the same of the second.
   */
  lemma TextReadsBack(cause: ExitCause, stdout: ShownStream, stderr: ShownStream)
    ensures exists rest, after ::
              && ReadStatus(Rendered(cause, stdout, stderr)) == Some(ReadCause(cause, rest))
              && ReadSection("stdout", rest) ==
                   Some(Section(stdout.stream.totalBytes, stdout.stream.complete, BodyShown(stdout) + after))
              && ReadSection("stderr", after) ==
                   Some(Section(stderr.stream.totalBytes, stderr.stream.complete, BodyShown(stderr)))
  {
    hide ReadStatus, ReadSection, Rendered, StatusText, StreamText, StreamLabels, BodyShown;
    TextSplits(cause, stdout, stderr);
    var after := StreamText("stderr", stderr);
    var rest := StreamLabels("stdout", stdout.stream) + (BodyShown(stdout) + after);
    StatusReadsBack(cause, rest);
    SectionReadsBack("stdout", stdout.stream, BodyShown(stdout) + after);
    SectionReadsBack("stderr", stderr.stream, BodyShown(stderr));
  }

  lemma SameFront(a: seq<byte>, b: seq<byte>, c: seq<byte>, d: seq<byte>)
    requires a + b == c + d && |a| == |c|
    ensures a == c
  {
    assert (a + b)[..|a|] == a && (c + d)[..|c|] == c;
  }

  lemma SameTail(front: seq<byte>, a: seq<byte>, b: seq<byte>)
    requires front + a == front + b
    ensures a == b
  {
    assert (front + a)[|front|..] == a && (front + b)[|front|..] == b;
  }

  /**
   * Two results with one text ended alike, and their first streams counted and ended alike. The two
   * streams of each are told apart exactly when what is shown of the first has one length in both.
   */
  lemma TextTellsApart(
    cause: ExitCause, stdout: ShownStream, stderr: ShownStream,
    cause': ExitCause, stdout': ShownStream, stderr': ShownStream)
    requires Rendered(cause, stdout, stderr) == Rendered(cause', stdout', stderr')
    ensures cause == cause'
    ensures stdout.stream.totalBytes == stdout'.stream.totalBytes
    ensures stdout.stream.complete == stdout'.stream.complete
    ensures |BodyShown(stdout)| == |BodyShown(stdout')| <==>
              && BodyShown(stdout) == BodyShown(stdout')
              && stderr.stream.totalBytes == stderr'.stream.totalBytes
              && stderr.stream.complete == stderr'.stream.complete
              && BodyShown(stderr) == BodyShown(stderr')
  {
    hide ReadStatus, ReadSection, Rendered, StatusText, StreamText, StreamLabels, BodyShown;
    TextSplits(cause, stdout, stderr);
    TextSplits(cause', stdout', stderr');
    var after, after' := StreamText("stderr", stderr), StreamText("stderr", stderr');
    StatusReadsBack(cause, StreamLabels("stdout", stdout.stream) + (BodyShown(stdout) + after));
    StatusReadsBack(cause', StreamLabels("stdout", stdout'.stream) + (BodyShown(stdout') + after'));
    SectionReadsBack("stdout", stdout.stream, BodyShown(stdout) + after);
    SectionReadsBack("stdout", stdout'.stream, BodyShown(stdout') + after');
    if |BodyShown(stdout)| == |BodyShown(stdout')| {
      SameFront(BodyShown(stdout), after, BodyShown(stdout'), after');
      SameTail(BodyShown(stdout), after, after');
      SectionReadsBack("stderr", stderr.stream, BodyShown(stderr));
      SectionReadsBack("stderr", stderr'.stream, BodyShown(stderr'));
    }
  }

  /** Replacement characters, one for each octet that decoding could not place. */
  function Replacements(n: nat): (text: seq<byte>)
    ensures |text| == 3 * n
  {
    if n == 0 then [] else [0xEF, 0xBF, 0xBD] + Replacements(n - 1)
  }

  lemma {:induction false} ReplacementsAreValid(n: nat)
    ensures Valid(Replacements(n))
  {
    if n > 0 {
      ReplacementsAreValid(n - 1);
      assert Replacements(n)[3..] == Replacements(n - 1);
    }
  }

  /** A stream that was captured whole. */
  function Whole(bytes: seq<byte>): CapturedStream {
    CapturedStream(bytes, [], |bytes|, true)
  }

  lemma LabelLengths(bytes: seq<byte>)
    requires |bytes| == 1 || |bytes| == 48
    ensures |StreamLabels("stderr", Whole(bytes))| == if |bytes| == 1 then 46 else 47
  {
    assert |Digits(1)| == 1;
    assert |Decimal.Text(4)| == 1;
    assert |Digits(48)| == 2;
    assert |CompleteLine("stderr", true)| == 22;
    hide Digits;
  }

  lemma ConfusedTails(
    shown: seq<byte>, newline: seq<byte>, inner: seq<byte>, outer: seq<byte>, last: seq<byte>)
    ensures shown + newline + (outer + (newline + inner + last + newline)) ==
              shown + newline + outer + newline + (inner + (last + newline))
  {
  }

  lemma SameLabels(name: string, a: CapturedStream, b: CapturedStream)
    requires a.totalBytes == b.totalBytes && a.complete == b.complete
    ensures StreamLabels(name, a) == StreamLabels(name, b)
  {
  }

  lemma RenderedAlike(
    cause: ExitCause, stdout: ShownStream, stderr: ShownStream, stdout': ShownStream, stderr': ShownStream)
    requires stdout.stream.totalBytes == stdout'.stream.totalBytes
    requires stdout.stream.complete == stdout'.stream.complete
    requires BodyShown(stdout) + StreamText("stderr", stderr) ==
               BodyShown(stdout') + StreamText("stderr", stderr')
    ensures Rendered(cause, stdout, stderr) == Rendered(cause, stdout', stderr')
  {
    hide Rendered, StatusText, StreamLabels, BodyShown, StreamText;
    SameLabels("stdout", stdout.stream, stdout'.stream);
    TextSplits(cause, stdout, stderr);
    TextSplits(cause, stdout', stderr');
  }

  lemma BodyIsWhole(s: ShownStream)
    requires 0 < s.stream.totalBytes && |s.lossy| <= STREAM_TEXT_BYTES
    ensures BodyShown(s) == s.lossy + Ascii("\n")
    ensures StreamText("stderr", s) == StreamLabels("stderr", s.stream) + (s.lossy + Ascii("\n"))
  {
    hide StreamLabels, Ascii;
  }

  /** The same text from both pairs, whatever the marks are, as long as the lengths fit. */
  lemma TextsAlike(
    cause: ExitCause, marks: seq<byte>, stray: seq<byte>, newline: seq<byte>, last: seq<byte>,
    inner: seq<byte>, outer: seq<byte>)
    requires newline == Ascii("\n") && inner == StreamLabels("stderr", Whole(last)) && last != []
    requires outer == StreamLabels("stderr", Whole(newline + inner + last))
    requires 0 < |marks| == |stray| + |newline| + |outer|
    requires |marks| + |newline| + |outer| <= STREAM_TEXT_BYTES
    requires |newline| + |inner| + |last| <= STREAM_TEXT_BYTES
    ensures var more := newline + inner + last;
            Rendered(cause, ShownStream(Whole(marks), marks), ShownStream(Whole(more), more)) ==
            Rendered(cause, ShownStream(Whole(stray + (newline + outer)), marks + (newline + outer)),
                     ShownStream(Whole(last), last))
  {
    hide Ascii, StreamLabels, Rendered, BodyShown, StreamText;
    var more := newline + inner + last;
    var stdout, stderr := ShownStream(Whole(marks), marks), ShownStream(Whole(more), more);
    var stdout' := ShownStream(Whole(stray + (newline + outer)), marks + (newline + outer));
    var stderr' := ShownStream(Whole(last), last);
    BodyIsWhole(stdout);
    BodyIsWhole(stderr);
    BodyIsWhole(stdout');
    BodyIsWhole(stderr');
    assert marks + (newline + outer) == marks + newline + outer;
    ConfusedTails(marks, newline, inner, outer, last);
    RenderedAlike(cause, stdout, stderr, stdout', stderr');
  }

  lemma PiecesAreValid(n: nat, newline: seq<byte>, last: seq<byte>, inner: seq<byte>, outer: seq<byte>)
    requires newline == Ascii("\n") && last == Ascii("y") && inner == StreamLabels("stderr", Whole(last))
    requires outer == StreamLabels("stderr", Whole(newline + inner + last))
    ensures Valid(last) && Valid(newline + inner + last)
    ensures Valid(Replacements(n)) && Valid(Replacements(n) + (newline + outer))
  {
    LabelsArePlain("stderr", Whole(last));
    LabelsArePlain("stderr", Whole(newline + inner + last));
    assert Plain(newline) && Plain(last);
    hide Valid, Ascii, StreamLabels, Plain, Replacements;
    PlainIsValid(last);
    PlainConcat(newline, inner);
    PlainConcat(newline + inner, last);
    PlainConcat(newline, outer);
    PlainIsValid(newline + inner + last);
    PlainIsValid(newline + outer);
    ReplacementsAreValid(n);
    ValidConcat(Replacements(n), newline + outer);
  }

  /**
   * Four captures, whole and complete. The `n` replacement characters of the first were sent as such;
   * those of the third stand for `n` stray octets, which leaves as much room again for labels.
   */
  lemma StreamsCanBeConfused(cause: ExitCause)
    returns (n: nat, stdout: ShownStream, stderr: ShownStream, stdout': ShownStream, stderr': ShownStream)
    ensures Shown(stdout) && Shown(stderr) && Shown(stdout') && Shown(stderr')
    ensures stdout.stream == Whole(stdout.lossy) && stderr.stream == Whole(stderr.lossy)
    ensures stderr'.stream == Whole(stderr'.lossy)
    ensures exists rest ::
              && stdout'.lossy == Replacements(n) + rest
              && stdout'.stream == Whole(seq(n, _ => 0xFF as byte) + rest)
    ensures Rendered(cause, stdout, stderr) == Rendered(cause, stdout', stderr')
    ensures stderr.stream.totalBytes != stderr'.stream.totalBytes
  {
    hide Valid, Ascii, StreamLabels, StatusText, Plain, Replacements, Rendered, BodyShown, StreamText;
    hide Truncated;
    n :| n == 24;
    var newline, last, stray := Ascii("\n"), Ascii("y"), seq(n, _ => 0xFF as byte);
    var inner := StreamLabels("stderr", Whole(last));
    var more := newline + inner + last;
    var outer := StreamLabels("stderr", Whole(more));
    LabelLengths(last);
    LabelLengths(more);
    PiecesAreValid(n, newline, last, inner, outer);
    stdout, stderr := ShownStream(Whole(Replacements(n)), Replacements(n)), ShownStream(Whole(more), more);
    stdout' := ShownStream(Whole(stray + (newline + outer)), Replacements(n) + (newline + outer));
    stderr' := ShownStream(Whole(last), last);
    assert stdout'.lossy == Replacements(n) + (newline + outer);
    TextsAlike(cause, Replacements(n), stray, newline, last, inner, outer);
  }
}
