/** The bounded texts the model and the transcript are shown of a command's result. */
module ModelText {
  import opened Options
  import opened Bytes
  import opened Utf8
  import opened StreamCapture
  import opened CommandResult
  import Decimal

  const STREAM_TEXT_BYTES: nat := 30 * 1024
  const MAX_MODEL_OUTPUT_BYTES: nat := 64 * 1024
  const MAX_TOOL_TEXT_BYTES: nat := 64 * 1024
  const MARKER_RESERVE: nat := 64
  const TOOL_TEXT_RETAINED: nat := MAX_TOOL_TEXT_BYTES - MARKER_RESERVE
  const I32_MIN: int := -0x8000_0000
  const I32_MAX: int := 0x7FFF_FFFF

  function TruncationMarker(): (marker: seq<byte>)
    ensures |marker| == 30
  {
    Ascii("\n...[model text truncated]...\n")
  }

  datatype Shortened = Shortened(text: seq<byte>, omitted: nat)

  // ------------------------------------------------------------------ middle truncation

  /** The text with its middle cut out at character boundaries and a marker in its place. */
  function Elided(text: seq<byte>, retained: nat, marker: seq<byte>): Shortened
    requires retained < |text|
  {
    var h, t := HeadEnd(text, retained), TailStart(text, retained);
    Shortened(text[..h] + marker + text[t..], t - h)
  }

  /** The same, with a marker that tells how much was cut out. */
  function ElidedCounting(text: seq<byte>, retained: nat, marker: nat -> seq<byte>): Shortened
    requires retained < |text|
  {
    Elided(text, retained, marker(TailStart(text, retained) - HeadEnd(text, retained)))
  }

  function Truncated(text: seq<byte>, limit: nat): Shortened {
    if |text| <= limit then Shortened(text, 0)
    else if limit <= |TruncationMarker()| then Shortened(TruncationMarker()[..limit], |text|)
    else Elided(text, limit - |TruncationMarker()|, TruncationMarker())
  }

  method TruncateMiddle(text: seq<byte>, limit: nat) returns (shortened: Shortened)
    ensures shortened == Truncated(text, limit)
  {
    if |text| <= limit { return Shortened(text, 0); }
    if limit <= |TruncationMarker()| { return Shortened(TruncationMarker()[..limit], |text|); }
    var headEnd, tailStart := Cut(text, limit - |TruncationMarker()|);
    return Shortened(text[..headEnd] + TruncationMarker() + text[tailStart..], tailStart - headEnd);
  }

  ghost predicate Replaces(
    text: seq<byte>, marker: seq<byte>, shortened: Shortened, h: nat, t: nat)
    requires h <= t <= |text|
  {
    shortened.text == text[..h] + marker + text[t..] && shortened.omitted == t - h
  }

  /**
   * What is left when a stretch of the middle is replaced by a marker: of what is retained, the head
   * is half and the tail is the rest, each but for less than one character.
   */
  ghost predicate MiddleReplaced(
    text: seq<byte>, retained: nat, marker: seq<byte>, shortened: Shortened)
  {
    exists h: nat, t: nat :: h <= t <= |text|
      && Replaces(text, marker, shortened, h, t)
      && retained / 2 - 3 <= h <= retained / 2
      && retained - h - 3 <= |text| - t <= retained - h
  }

  lemma ElidedHolds(text: seq<byte>, retained: nat, marker: seq<byte>)
    requires Valid(text) && retained < |text| && Plain(marker)
    ensures var s := Elided(text, retained, marker);
            && Valid(s.text) && MiddleReplaced(text, retained, marker, s) && 0 < s.omitted <= |text|
            && retained + |marker| - 3 <= |s.text| <= retained + |marker|
  {
    CutHolds(text, retained);
    PlainIsValid(marker);
    var h, t := HeadEnd(text, retained), TailStart(text, retained);
    hide Valid, HeadEnd, TailStart, Plain;
    ValidConcat(text[..h], marker);
    ValidConcat(text[..h] + marker, text[t..]);
    assert Replaces(text, marker, Elided(text, retained, marker), h, t);
  }

  lemma ElidedOmits(text: seq<byte>, retained: nat, marker: nat -> seq<byte>)
    requires retained < |text|
    ensures var s := ElidedCounting(text, retained, marker);
            s.omitted <= |text| && s == Elided(text, retained, marker(s.omitted))
  {
    hide HeadEnd, TailStart;
  }

  /** A counting marker of at most the reserve keeps the whole within the reserve, and is exact. */
  lemma ElidedCountingHolds(text: seq<byte>, retained: nat, marker: nat -> seq<byte>)
    requires Valid(text) && retained < |text| <= U64_MAX
    requires forall n: nat :: n <= U64_MAX ==> Plain(marker(n)) && |marker(n)| <= MARKER_RESERVE
    ensures var s := ElidedCounting(text, retained, marker);
            && Valid(s.text) && |s.text| <= retained + MARKER_RESERVE
            && 0 < s.omitted <= |text| && MiddleReplaced(text, retained, marker(s.omitted), s)
  {
    hide *;
    ElidedOmits(text, retained, marker);
    var omitted := ElidedCounting(text, retained, marker).omitted;
    ElidedHolds(text, retained, marker(omitted));
  }

  lemma MarkerIsPlain(limit: nat)
    ensures Plain(TruncationMarker())
    ensures limit <= |TruncationMarker()| ==> Valid(TruncationMarker()[..limit])
  {
    if limit <= |TruncationMarker()| { PlainIsValid(TruncationMarker()[..limit]); }
  }

  /**
   * Truncation keeps valid UTF-8 valid and stays within its limit, for every limit; it is the
   * identity exactly when the text fits; and otherwise it replaces one stretch of whole characters
   * by the marker, counts that stretch exactly, and wastes less than one character of its limit.
   */
  lemma TruncatedHolds(text: seq<byte>, limit: nat)
    requires Valid(text)
    ensures var s := Truncated(text, limit);
            && |s.text| <= limit && Valid(s.text)
            && (s.omitted == 0 <==> |text| <= limit)
            && (|text| <= limit ==> s.text == text)
            && (|text| > limit > |TruncationMarker()| ==>
                  && |s.text| >= limit - 3
                  && MiddleReplaced(text, limit - |TruncationMarker()|, TruncationMarker(), s))
            && (|text| > limit && limit <= |TruncationMarker()| ==>
                  s.text <= TruncationMarker() && |s.text| == limit && s.omitted == |text|)
  {
    hide Valid, TruncationMarker, MiddleReplaced, Elided;
    MarkerIsPlain(limit);
    if |text| > limit > |TruncationMarker()| {
      ElidedHolds(text, limit - |TruncationMarker()|, TruncationMarker());
    }
  }

  // ------------------------------------------------------------------ one captured stream

  /** A captured stream with its lossy text, which is valid UTF-8 whatever the bytes were. */
  datatype ShownStream = ShownStream(stream: CapturedStream, lossy: seq<byte>)

  ghost predicate Shown(s: ShownStream) {
    Valid(s.lossy) && s.stream.totalBytes <= U64_MAX
  }

  function BytesLine(name: string, total: nat): seq<byte> {
    Ascii(name) + Ascii("_bytes: ") + Digits(total) + Ascii("\n")
  }

  function CompleteLine(name: string, complete: bool): seq<byte> {
    Ascii(name) + Ascii("_complete: ") + Ascii(if complete then "true" else "false") + Ascii("\n")
  }

  function StreamLabels(name: string, stream: CapturedStream): seq<byte> {
    BytesLine(name, stream.totalBytes) + CompleteLine(name, stream.complete) +
    (Ascii(name) + Ascii(":\n"))
  }

  function StreamText(name: string, s: ShownStream): seq<byte> {
    StreamLabels(name, s.stream) +
    (if s.stream.totalBytes == 0 then Ascii("[empty]\n")
     else Truncated(s.lossy, STREAM_TEXT_BYTES).text + Ascii("\n"))
  }

  /** What capturing and then formatting left out of the stream. */
  function StreamOmitted(s: ShownStream): nat {
    if s.stream.totalBytes == 0 then 0
    else Saturated(s.stream.OmittedBytes() + Truncated(s.lossy, STREAM_TEXT_BYTES).omitted)
  }

  /** Appends one labelled section, and counts what it leaves out. */
  method AppendModelStream(rendered: seq<byte>, name: string, s: ShownStream)
    returns (extended: seq<byte>, omitted: nat)
    ensures extended == rendered + StreamText(name, s) && omitted == StreamOmitted(s)
  {
    var section := BytesLine(name, s.stream.totalBytes);
    section := section + CompleteLine(name, s.stream.complete);
    section := section + (Ascii(name) + Ascii(":\n"));
    if s.stream.totalBytes == 0 {
      section, omitted := section + Ascii("[empty]\n"), 0;
    } else {
      var bounded := TruncateMiddle(s.lossy, STREAM_TEXT_BYTES);
      section := section + (bounded.text + Ascii("\n"));
      omitted := Saturated(s.stream.OmittedBytes() + bounded.omitted);
    }
    extended := rendered + section;
  }

  lemma CountDigits(n: nat)
    requires n <= U64_MAX
    ensures |Digits(n)| <= 20
  {
    Decimal.PowersOfTen();
    DigitsLength(n, 20);
  }

  lemma LinesArePlain(name: string, total: nat, complete: bool)
    requires |name| == 6 && total <= U64_MAX
    ensures Plain(BytesLine(name, total)) && |BytesLine(name, total)| <= 35
    ensures Plain(CompleteLine(name, complete)) && |CompleteLine(name, complete)| <= 23
    ensures Plain(Ascii(name) + Ascii(":\n")) && |Ascii(name) + Ascii(":\n")| == 8
  {
    CountDigits(total);
    hide Ascii, Digits, Plain;
    var flag := Ascii(if complete then "true" else "false");
    PlainConcat(Ascii(name), Ascii("_bytes: "));
    PlainConcat(Ascii(name) + Ascii("_bytes: "), Digits(total));
    PlainConcat(Ascii(name) + Ascii("_bytes: ") + Digits(total), Ascii("\n"));
    PlainConcat(Ascii(name), Ascii("_complete: "));
    PlainConcat(Ascii(name) + Ascii("_complete: "), flag);
    PlainConcat(Ascii(name) + Ascii("_complete: ") + flag, Ascii("\n"));
    PlainConcat(Ascii(name), Ascii(":\n"));
  }

  lemma LabelsArePlain(name: string, stream: CapturedStream)
    requires |name| == 6 && stream.totalBytes <= U64_MAX
    ensures Plain(StreamLabels(name, stream)) && |StreamLabels(name, stream)| <= 66
  {
    LinesArePlain(name, stream.totalBytes, stream.complete);
    var first, second := BytesLine(name, stream.totalBytes), CompleteLine(name, stream.complete);
    hide BytesLine, CompleteLine, Plain;
    PlainConcat(first, second);
    PlainConcat(first + second, Ascii(name) + Ascii(":\n"));
  }

  lemma EmptySectionHolds(labels: seq<byte>)
    requires Plain(labels)
    ensures Valid(labels + Ascii("[empty]\n"))
  {
    PlainConcat(labels, Ascii("[empty]\n"));
    PlainIsValid(labels + Ascii("[empty]\n"));
  }

  lemma TextSectionHolds(labels: seq<byte>, body: seq<byte>)
    requires Plain(labels) && Valid(body)
    ensures Valid(labels + (body + Ascii("\n")))
  {
    PlainIsValid(labels);
    PlainIsValid(Ascii("\n"));
    hide *;
    ValidConcat(body, Ascii("\n"));
    ValidConcat(labels, body + Ascii("\n"));
  }

  /** A stream's section is valid UTF-8 and never longer than its text bound and its labels. */
  lemma StreamTextHolds(name: string, s: ShownStream)
    requires Shown(s) && |name| == 6
    ensures Valid(StreamText(name, s)) && |StreamText(name, s)| <= STREAM_TEXT_BYTES + 67
  {
    hide Valid, StreamLabels, Truncated, Plain, MiddleReplaced, TruncationMarker, Ascii;
    LabelsArePlain(name, s.stream);
    if s.stream.totalBytes == 0 {
      EmptySectionHolds(StreamLabels(name, s.stream));
    } else {
      TruncatedHolds(s.lossy, STREAM_TEXT_BYTES);
      TextSectionHolds(StreamLabels(name, s.stream), Truncated(s.lossy, STREAM_TEXT_BYTES).text);
    }
  }

  /** What a section shows of a text, and what formatting cut out of it. */
  ghost predicate ShowsBody(lossy: seq<byte>, body: seq<byte>, removed: nat) {
    if |lossy| <= STREAM_TEXT_BYTES then body == lossy && removed == 0
    else MiddleReplaced(lossy, STREAM_TEXT_BYTES - |TruncationMarker()|, TruncationMarker(),
                        Shortened(body, removed))
  }

  /**
   * A section is its labels and then the text, whole or with its middle replaced; the omission adds
   * exactly what that cut out to what the capture had left out. Of an empty stream nothing is missing.
   */
  lemma SectionTells(name: string, s: ShownStream)
    requires Shown(s)
    ensures s.stream.totalBytes == 0 ==>
      StreamText(name, s) == StreamLabels(name, s.stream) + Ascii("[empty]\n") && StreamOmitted(s) == 0
    ensures s.stream.totalBytes != 0 ==>
      exists body, removed: nat ::
        && ShowsBody(s.lossy, body, removed)
        && StreamText(name, s) == StreamLabels(name, s.stream) + (body + Ascii("\n"))
        && StreamOmitted(s) == Saturated(s.stream.OmittedBytes() + removed)
  {
    hide Valid, Truncated, MiddleReplaced, TruncationMarker, StreamLabels, Ascii;
    TruncatedHolds(s.lossy, STREAM_TEXT_BYTES);
    var shown := Truncated(s.lossy, STREAM_TEXT_BYTES);
    assert shown == Shortened(shown.text, shown.omitted);
    assert ShowsBody(s.lossy, shown.text, shown.omitted);
  }

  // ------------------------------------------------------------------ the whole result

  predicate FitsI32(cause: ExitCause) {
    match cause
    case Exited(code) => I32_MIN <= code <= I32_MAX
    case Signaled(signal) => I32_MIN <= signal <= I32_MAX
    case _ => true
  }

  function SignedDigits(n: int): seq<byte> {
    if n < 0 then Ascii("-") + Digits(-n) else Digits(n)
  }

  function StatusText(cause: ExitCause): seq<byte> {
    match cause
    case Exited(code) => Ascii("status: exited\nexit_code: ") + SignedDigits(code) + Ascii("\n")
    case Signaled(signal) => Ascii("status: signaled\nsignal: ") + SignedDigits(signal) + Ascii("\n")
    case TimedOut => Ascii("status: timed_out\n")
    case Cancelled => Ascii("status: cancelled\n")
  }

  function Rendered(cause: ExitCause, stdout: ShownStream, stderr: ShownStream): seq<byte> {
    StatusText(cause) + StreamText("stdout", stdout) + StreamText("stderr", stderr)
  }

  lemma StatusFits(cause: ExitCause)
    requires FitsI32(cause)
    ensures |StatusText(cause)| <= 38 && Valid(StatusText(cause))
  {
    Decimal.PowersOfTen();
    match cause {
      case Exited(code) => DigitsLength(if code < 0 then -code else code, 10);
      case Signaled(signal) => DigitsLength(if signal < 0 then -signal else signal, 10);
      case _ =>
    }
    PlainIsValid(StatusText(cause));
  }

  /**
   * The rendered result always fits the model's bound, so the outer truncation never removes
   * anything and the reported omission is exactly what the two streams left out.
   */
  lemma RenderedFits(cause: ExitCause, stdout: ShownStream, stderr: ShownStream)
    requires FitsI32(cause) && Shown(stdout) && Shown(stderr)
    ensures var rendered := Rendered(cause, stdout, stderr);
            && Valid(rendered) && |rendered| <= MAX_MODEL_OUTPUT_BYTES
            && Truncated(rendered, MAX_MODEL_OUTPUT_BYTES) == Shortened(rendered, 0)
  {
    StatusFits(cause);
    StreamTextHolds("stdout", stdout);
    StreamTextHolds("stderr", stderr);
    hide StreamText, StatusText, Valid;
    ValidConcat(StatusText(cause), StreamText("stdout", stdout));
    ValidConcat(StatusText(cause) + StreamText("stdout", stdout), StreamText("stderr", stderr));
  }

  method ModelTextWithOmissions(cause: ExitCause, stdout: ShownStream, stderr: ShownStream)
    returns (shortened: Shortened)
    requires FitsI32(cause) && Shown(stdout) && Shown(stderr)
    ensures shortened.text == Rendered(cause, stdout, stderr)
    ensures shortened.omitted == Saturated(StreamOmitted(stdout) + StreamOmitted(stderr))
    ensures |shortened.text| <= MAX_MODEL_OUTPUT_BYTES && Valid(shortened.text)
  {
    RenderedFits(cause, stdout, stderr);
    var rendered := StatusText(cause);
    var omittedOut, omittedErr;
    rendered, omittedOut := AppendModelStream(rendered, "stdout", stdout);
    rendered, omittedErr := AppendModelStream(rendered, "stderr", stderr);
    assert rendered == Rendered(cause, stdout, stderr);
    var bounded := TruncateMiddle(rendered, MAX_MODEL_OUTPUT_BYTES);
    shortened := Shortened(bounded.text, Saturated(Saturated(omittedOut + omittedErr) + bounded.omitted));
  }

  // ------------------------------------------------------------------ transcript text

  function OmissionMarker(omitted: nat): seq<byte> {
    Ascii("\n...[") + Digits(omitted) + Ascii(" bytes omitted]...\n")
  }

  /** A tool's transcript text: whole, or head and tail around a marker with the exact count. */
  function BoundedToolText(source: seq<byte>, alreadyOmitted: nat): Shortened {
    if |source| <= MAX_TOOL_TEXT_BYTES then Shortened(source, alreadyOmitted)
    else
      var elided := ElidedCounting(source, TOOL_TEXT_RETAINED, OmissionMarker);
      elided.(omitted := Saturated(alreadyOmitted + elided.omitted))
  }

  method BoundToolText(source: seq<byte>, alreadyOmitted: nat) returns (bounded: Shortened)
    ensures bounded == BoundedToolText(source, alreadyOmitted)
  {
    if |source| <= MAX_TOOL_TEXT_BYTES { return Shortened(source, alreadyOmitted); }
    var retained := MAX_TOOL_TEXT_BYTES - MARKER_RESERVE;
    var headEnd, tailStart := Cut(source, retained);
    var omitted := tailStart - headEnd;
    return Shortened(source[..headEnd] + OmissionMarker(omitted) + source[tailStart..],
                     Saturated(alreadyOmitted + omitted));
  }

  lemma OmissionMarkerHolds(omitted: nat)
    requires omitted <= U64_MAX
    ensures Plain(OmissionMarker(omitted)) && |OmissionMarker(omitted)| <= MARKER_RESERVE
  {
    CountDigits(omitted);
    hide Ascii, Digits, Plain;
    PlainConcat(Ascii("\n...["), Digits(omitted));
    PlainConcat(Ascii("\n...[") + Digits(omitted), Ascii(" bytes omitted]...\n"));
  }

  /** The transcript bound holds for every text a 64-bit machine can hold, marker included. */
  lemma BoundedToolTextHolds(source: seq<byte>, alreadyOmitted: nat)
    requires Valid(source) && |source| <= U64_MAX
    ensures var s := BoundedToolText(source, alreadyOmitted);
            && |s.text| <= MAX_TOOL_TEXT_BYTES && Valid(s.text)
            && (|source| <= MAX_TOOL_TEXT_BYTES ==> s == Shortened(source, alreadyOmitted))
            && (|source| > MAX_TOOL_TEXT_BYTES ==>
                  var omitted := ElidedCounting(source, TOOL_TEXT_RETAINED, OmissionMarker).omitted;
                  && s.omitted == Saturated(alreadyOmitted + omitted)
                  && MiddleReplaced(source, TOOL_TEXT_RETAINED, OmissionMarker(omitted),
                                    Shortened(s.text, omitted)))
  {
    forall n: nat | n <= U64_MAX
      ensures Plain(OmissionMarker(n)) && |OmissionMarker(n)| <= MARKER_RESERVE
    {
      OmissionMarkerHolds(n);
    }
    hide Valid, ElidedCounting, MiddleReplaced, OmissionMarker, Plain;
    if |source| > MAX_TOOL_TEXT_BYTES {
      ElidedCountingHolds(source, TOOL_TEXT_RETAINED, OmissionMarker);
    }
  }

  /** A command's transcript detail is its model text, with the same omission. */
  lemma TranscriptDetailIsModelText(cause: ExitCause, stdout: ShownStream, stderr: ShownStream, omitted: nat)
    requires FitsI32(cause) && Shown(stdout) && Shown(stderr)
    ensures BoundedToolText(Rendered(cause, stdout, stderr), omitted) ==
              Shortened(Rendered(cause, stdout, stderr), omitted)
  {
    RenderedFits(cause, stdout, stderr);
  }
}
