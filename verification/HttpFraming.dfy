/** Bounded HTTP/1 response framing: the header parser, the chunk decoder and the incremental
    reader that must give the same answer however the bytes are split into reads. */
module HttpFraming {
  import opened Results

  type byte = b: int | 0 <= b < 256
  type Bytes = seq<byte>

  const USIZE_MAX: nat := 0xFFFF_FFFF_FFFF_FFFF
  const U16_MAX: nat := 0xFFFF
  const MAX_HEADER_BYTES: nat := 16 * 1024

  const CR: byte := 13
  const LF: byte := 10
  const TAB: byte := 9
  const SPACE: byte := 32
  const COLON: byte := 58
  const SEMICOLON: byte := 59
  const CRLF: Bytes := [13, 10]
  const CRLF_CRLF: Bytes := [13, 10, 13, 10]
  const HTTP11: Bytes := [72, 84, 84, 80, 47, 49, 46, 49]
  const HTTP10: Bytes := [72, 84, 84, 80, 47, 49, 46, 48]
  const CONTENT_LENGTH: Bytes := [99, 111, 110, 116, 101, 110, 116, 45, 108, 101, 110, 103, 116, 104]
  const TRANSFER_ENCODING: Bytes := [116, 114, 97, 110, 115, 102, 101, 114, 45, 101, 110, 99, 111, 100, 105, 110, 103]
  const CHUNKED: Bytes := [99, 104, 117, 110, 107, 101, 100]

  type Headers = map<Bytes, Bytes>

  datatype Head = Head(status: nat, headers: Headers)

  datatype Response = Response(status: nat, headers: Headers, body: Bytes)

  datatype Stage = HeadersStage | BodyStage

  datatype Reason =
    | InvalidOrDuplicateHeader | AmbiguousFraming | InvalidContentLength | InvalidBodylessFraming
    | UnsupportedTransferEncoding | HeadersTooLarge | ResponseTooLarge
    | InvalidChunkSize | InvalidChunkTerminator | UnexpectedTrailerOrExtraBytes
    | ExtraResponseBytes | TruncatedResponse | IoError(kind: int)

  datatype HttpError = HttpError(
    stage: Stage, reason: Reason, received: nat, expected: Option<nat>, status: Option<nat>)

  function NewError(stage: Stage, reason: Reason): HttpError {
    HttpError(stage, reason, 0, None, None)
  }

  function SaturatingSub(a: nat, b: nat): nat {
    if a < b then 0 else a - b
  }

  // ---------------------------------------------------------------- searching

  predicate MatchesAt(bytes: Bytes, pattern: Bytes, i: nat) {
    i + |pattern| <= |bytes| && bytes[i..i + |pattern|] == pattern
  }

  /** The first place at or after `from` where `pattern` occurs. */
  function FindFrom(bytes: Bytes, pattern: Bytes, from: nat): (r: Option<nat>)
    ensures r.Some? ==> from <= r.value && MatchesAt(bytes, pattern, r.value)
    ensures r.Some? ==> forall k :: from <= k < r.value ==> !MatchesAt(bytes, pattern, k)
    ensures r.None? ==> forall k :: from <= k ==> !MatchesAt(bytes, pattern, k)
    decreases |bytes| - from
  {
    if from + |pattern| > |bytes| then None
    else if MatchesAt(bytes, pattern, from) then Some(from)
    else FindFrom(bytes, pattern, from + 1)
  }

  lemma FindIs(bytes: Bytes, pattern: Bytes, from: nat, at: nat)
    requires from <= at && MatchesAt(bytes, pattern, at)
    requires forall k :: from <= k < at ==> !MatchesAt(bytes, pattern, k)
    ensures FindFrom(bytes, pattern, from) == Some(at)
  {
    var r := FindFrom(bytes, pattern, from);
    assert r.Some? && r.value <= at;
  }

  lemma FindSkips(bytes: Bytes, pattern: Bytes, from: nat, mid: nat)
    requires from <= mid && pattern != []
    requires forall k :: from <= k < mid ==> !MatchesAt(bytes, pattern, k)
    ensures FindFrom(bytes, pattern, from) == FindFrom(bytes, pattern, mid)
  {
    var r := FindFrom(bytes, pattern, mid);
    if r.Some? { FindIs(bytes, pattern, from, r.value); }
  }

  /** Bytes that arrive later never move an occurrence already seen. */
  lemma FindExtends(bytes: Bytes, more: Bytes, pattern: Bytes, from: nat)
    requires FindFrom(bytes, pattern, from).Some?
    ensures FindFrom(bytes + more, pattern, from) == FindFrom(bytes, pattern, from)
  {
    var at := FindFrom(bytes, pattern, from).value;
    forall k | from <= k <= at
      ensures MatchesAt(bytes + more, pattern, k) == MatchesAt(bytes, pattern, k)
    {
      assert (bytes + more)[k..k + |pattern|] == bytes[k..k + |pattern|];
    }
    FindIs(bytes + more, pattern, from, at);
  }

  function HeaderEnd(bytes: Bytes): Option<nat> {
    match FindFrom(bytes, CRLF_CRLF, 0)
    case None => None
    case Some(at) => Some(at + 4)
  }

  // ---------------------------------------------------------------- text

  predicate IsDigit(b: byte) { 48 <= b <= 57 }
  predicate IsHexDigit(b: byte) { IsDigit(b) || 65 <= b <= 70 || 97 <= b <= 102 }
  predicate IsAlphanumeric(b: byte) { IsDigit(b) || 65 <= b <= 90 || 97 <= b <= 122 }
  predicate IsControl(b: byte) { b < 32 || b == 127 }

  predicate IsTokenByte(b: byte) {
    IsAlphanumeric(b) || b in {33, 35, 36, 37, 38, 39, 42, 43, 45, 46, 94, 95, 96, 124, 126}
  }

  predicate Token(text: Bytes) {
    text != [] && forall i :: 0 <= i < |text| ==> IsTokenByte(text[i])
  }

  function LowerByte(b: byte): byte { if 65 <= b <= 90 then b + 32 else b }

  function Lower(text: Bytes): Bytes {
    seq(|text|, i requires 0 <= i < |text| => LowerByte(text[i]))
  }

  function DigitValue(b: byte): nat
    requires IsHexDigit(b)
    ensures DigitValue(b) < 16 && (IsDigit(b) ==> DigitValue(b) < 10)
  {
    if b <= 57 then b - 48 else if b <= 70 then b - 55 else b - 87
  }

  predicate DigitsOf(text: Bytes, radix: nat) {
    forall i :: 0 <= i < |text| ==> IsHexDigit(text[i]) && (radix == 10 ==> IsDigit(text[i]))
  }

  function NumberValue(text: Bytes, radix: nat): nat
    requires DigitsOf(text, radix)
  {
    if text == [] then 0
    else NumberValue(text[..|text| - 1], radix) * radix + DigitValue(text[|text| - 1])
  }

  /** Unsigned parsing in the given radix: one leading plus sign is allowed, overflow is not. */
  function ParseUnsigned(text: Bytes, radix: nat, max: nat): Option<nat> {
    var digits := if |text| > 1 && text[0] == 43 then text[1..] else text;
    if digits == [] || !DigitsOf(digits, radix) then None
    else
      var n := NumberValue(digits, radix);
      if n > max then None else Some(n)
  }

  predicate Continues(text: Bytes, i: nat, low: byte, high: byte) {
    i < |text| && low <= text[i] <= high
  }

  /** Bytes of the well-formed UTF-8 character at the front of the text, 0 if there is none. */
  function Utf8Width(text: Bytes): (w: nat)
    ensures w <= |text|
  {
    if text == [] then 0
    else
      var b := text[0];
      if b < 0x80 then 1
      else if 0xC2 <= b <= 0xDF then if Continues(text, 1, 0x80, 0xBF) then 2 else 0
      else if 0xE0 <= b <= 0xEF then
        if Continues(text, 1, if b == 0xE0 then 0xA0 else 0x80, if b == 0xED then 0x9F else 0xBF)
           && Continues(text, 2, 0x80, 0xBF) then 3 else 0
      else if 0xF0 <= b <= 0xF4 then
        if Continues(text, 1, if b == 0xF0 then 0x90 else 0x80, if b == 0xF4 then 0x8F else 0xBF)
           && Continues(text, 2, 0x80, 0xBF) && Continues(text, 3, 0x80, 0xBF) then 4 else 0
      else 0
  }

  predicate ValidUtf8(text: Bytes) {
    text == [] || (Utf8Width(text) > 0 && ValidUtf8(text[Utf8Width(text)..]))
  }

  /** Bytes of the Unicode white space character at the front of the text, 0 if there is none. */
  function LeadingSpace(text: Bytes): (w: nat)
    ensures w <= |text|
  {
    if |text| >= 1 && (9 <= text[0] <= 13 || text[0] == 32) then 1
    else if |text| >= 2 && text[0] == 0xC2 && (text[1] == 0x85 || text[1] == 0xA0) then 2
    else if |text| >= 3 && IsWideSpace(text[0], text[1], text[2]) then 3
    else 0
  }

  function TrailingSpace(text: Bytes): (w: nat)
    ensures w <= |text|
  {
    var n := |text|;
    if n >= 1 && (9 <= text[n - 1] <= 13 || text[n - 1] == 32) then 1
    else if n >= 2 && text[n - 2] == 0xC2 && (text[n - 1] == 0x85 || text[n - 1] == 0xA0) then 2
    else if n >= 3 && IsWideSpace(text[n - 3], text[n - 2], text[n - 1]) then 3
    else 0
  }

  predicate IsWideSpace(a: byte, b: byte, c: byte) {
    || (a == 0xE1 && b == 0x9A && c == 0x80)
    || (a == 0xE2 && b == 0x80 && (0x80 <= c <= 0x8A || c == 0xA8 || c == 0xA9 || c == 0xAF))
    || (a == 0xE2 && b == 0x81 && c == 0x9F)
    || (a == 0xE3 && b == 0x80 && c == 0x80)
  }

  function TrimStart(text: Bytes): Bytes
    decreases |text|
  {
    if LeadingSpace(text) == 0 then text else TrimStart(text[LeadingSpace(text)..])
  }

  function TrimEnd(text: Bytes): Bytes
    decreases |text|
  {
    if TrailingSpace(text) == 0 then text else TrimEnd(text[..|text| - TrailingSpace(text)])
  }

  function Trim(text: Bytes): Bytes { TrimEnd(TrimStart(text)) }

  /** The pieces of the text between occurrences of CR LF. */
  function SplitLines(text: Bytes): (lines: seq<Bytes>)
    ensures |lines| > 0
    decreases |text|
  {
    match FindFrom(text, CRLF, 0)
    case None => [text]
    case Some(at) => [text[..at]] + SplitLines(text[at + 2..])
  }

  // ---------------------------------------------------------------- the header block

  function InvalidHead(): HttpError { NewError(HeadersStage, InvalidOrDuplicateHeader) }

  /** Status of the first line; the reason phrase after the second space is not looked at. */
  function ParseStatusLine(line: Bytes): Option<nat> {
    match FindFrom(line, [SPACE], 0)
    case None => None
    case Some(a) =>
      if line[..a] != HTTP11 && line[..a] != HTTP10 then None
      else
        var rest := line[a + 1..];
        var code := match FindFrom(rest, [SPACE], 0) case None => rest case Some(b) => rest[..b];
        match ParseUnsigned(code, 10, U16_MAX)
        case None => None
        case Some(status) => if |code| != 3 || !(200 <= status <= 599) then None else Some(status)
  }

  predicate ValueBytesOk(value: Bytes) {
    forall i :: 0 <= i < |value| ==> !IsControl(value[i]) || value[i] == TAB
  }

  /** One header line added to the headers before it; a name already present is an error. */
  function AddHeaderLine(headers: Headers, line: Bytes): Option<Headers> {
    match FindFrom(line, [COLON], 0)
    case None => None
    case Some(at) =>
      var name, value := line[..at], line[at + 1..];
      if !Token(name) || !ValueBytesOk(value) || Lower(name) in headers then None
      else Some(headers[Lower(name) := Trim(value)])
  }

  function AddHeaderLines(headers: Headers, lines: seq<Bytes>): Option<Headers>
    decreases |lines|
  {
    if lines == [] then Some(headers)
    else if lines[0] == [] then AddHeaderLines(headers, lines[1..])
    else
      match AddHeaderLine(headers, lines[0])
      case None => None
      case Some(added) => AddHeaderLines(added, lines[1..])
  }

  function ParseHead(bytes: Bytes): Result<Head, HttpError> {
    if !ValidUtf8(bytes) then Err(InvalidHead())
    else
      var lines := SplitLines(bytes);
      match ParseStatusLine(lines[0])
      case None => Err(InvalidHead())
      case Some(status) =>
        match AddHeaderLines(map[], lines[1..])
        case None => Err(InvalidHead())
        case Some(headers) => Ok(Head(status, headers))
  }

  /** The loop that fills the header map. */
  method ParseHeadBlock(bytes: Bytes) returns (r: Result<Head, HttpError>)
    ensures r == ParseHead(bytes)
  {
    if !ValidUtf8(bytes) { return Err(InvalidHead()); }
    var lines := SplitLines(bytes);
    var status := ParseStatusLine(lines[0]);
    if status.None? { return Err(InvalidHead()); }
    var headers: Headers := map[];
    for i := 1 to |lines|
      invariant AddHeaderLines(map[], lines[1..]) == AddHeaderLines(headers, lines[i..])
    {
      if lines[i] != [] {
        var added := AddHeaderLine(headers, lines[i]);
        if added.None? { return Err(InvalidHead()); }
        headers := added.value;
      }
    }
    r := Ok(Head(status.value, headers));
  }

  // ---------------------------------------------------------------- framing

  datatype Framing = Empty | Length(n: nat) | Chunked | Close

  function DeclaredLength(headers: Headers): Result<Option<nat>, HttpError> {
    if CONTENT_LENGTH !in headers then Ok(None)
    else
      var text := headers[CONTENT_LENGTH];
      if text == [] || !DigitsOf(text, 10) then Err(NewError(HeadersStage, InvalidContentLength))
      else
        match ParseUnsigned(text, 10, USIZE_MAX)
        case None => Err(NewError(HeadersStage, InvalidContentLength))
        case Some(n) => Ok(Some(n))
  }

  function FramingOf(head: Head): Result<Framing, HttpError> {
    if CONTENT_LENGTH in head.headers && TRANSFER_ENCODING in head.headers then
      Err(NewError(HeadersStage, AmbiguousFraming))
    else
      match DeclaredLength(head.headers)
      case Err(e) => Err(e)
      case Ok(length) =>
        if head.status == 204 || head.status == 304 then
          if TRANSFER_ENCODING in head.headers
             || (head.status == 204 && length.Some? && length.value != 0) then
            Err(NewError(HeadersStage, InvalidBodylessFraming))
          else Ok(Empty)
        else if TRANSFER_ENCODING in head.headers then
          if Lower(head.headers[TRANSFER_ENCODING]) == CHUNKED then Ok(Chunked)
          else Err(NewError(HeadersStage, UnsupportedTransferEncoding))
        else Ok(match length case Some(n) => Length(n) case None => Close)
  }

  // ---------------------------------------------------------------- chunks

  datatype ChunkOutcome = Incomplete | Complete(body: Bytes) | Malformed(reason: Reason)

  /** The size announced by a chunk line, extensions after a semicolon ignored. */
  function ChunkSize(line: Bytes): Option<nat> {
    var sizeText := match FindFrom(line, [SEMICOLON], 0) case None => line case Some(at) => line[..at];
    if !ValidUtf8(line) || sizeText == [] || !DigitsOf(sizeText, 16)
       || exists i :: 0 <= i < |line| && IsControl(line[i]) then None
    else ParseUnsigned(sizeText, 16, USIZE_MAX)
  }

  /** One chunk: either the decoding stops here, or `data` is taken and the cursor moves to `next`. */
  datatype ChunkStep = Stop(outcome: ChunkOutcome) | Advance(data: Bytes, next: nat)

  /** What follows a chunk line announcing `size`, the data starting at `start`. */
  function AfterSize(bytes: Bytes, start: nat, size: nat, body: Bytes, limit: nat): (step: ChunkStep)
    requires start <= |bytes|
    ensures step.Advance? ==> start < step.next <= |bytes| && |step.data| == size <= SaturatingSub(limit, |body|)
  {
    if size == 0 then
      if |bytes| < start + 2 then Stop(Incomplete)
      else if |bytes| != start + 2 || bytes[start..] != CRLF then Stop(Malformed(UnexpectedTrailerOrExtraBytes))
      else Stop(Complete(body))
    else if size > SaturatingSub(limit, |body|) || start + size + 2 > USIZE_MAX then Stop(Malformed(ResponseTooLarge))
    else if |bytes| < start + size + 2 then Stop(Incomplete)
    else if bytes[start + size..start + size + 2] != CRLF then Stop(Malformed(InvalidChunkTerminator))
    else Advance(bytes[start..start + size], start + size + 2)
  }

  function NextChunk(bytes: Bytes, cursor: nat, body: Bytes, limit: nat): (step: ChunkStep)
    requires cursor <= |bytes|
    ensures step.Advance? ==> cursor < step.next <= |bytes| && |step.data| <= SaturatingSub(limit, |body|)
  {
    match FindFrom(bytes, CRLF, cursor)
    case None => Stop(Incomplete)
    case Some(at) =>
      match ChunkSize(bytes[cursor..at])
      case None => Stop(Malformed(InvalidChunkSize))
      case Some(size) => AfterSize(bytes, at + 2, size, body, limit)
  }

  function ChunksFrom(bytes: Bytes, cursor: nat, body: Bytes, limit: nat): ChunkOutcome
    requires cursor <= |bytes|
    decreases |bytes| - cursor
  {
    match NextChunk(bytes, cursor, body, limit)
    case Stop(outcome) => outcome
    case Advance(data, next) => ChunksFrom(bytes, next, body + data, limit)
  }

  function DecodeChunks(bytes: Bytes, limit: nat): ChunkOutcome { ChunksFrom(bytes, 0, [], limit) }

  /** The decoding loop: `cursor` only grows, `body` collects the chunk data. */
  method Chunks(bytes: Bytes, limit: nat) returns (r: ChunkOutcome)
    ensures r == DecodeChunks(bytes, limit)
  {
    hide ChunkSize, FindFrom;
    var cursor: nat, body: Bytes := 0, [];
    while true
      invariant cursor <= |bytes|
      invariant DecodeChunks(bytes, limit) == ChunksFrom(bytes, cursor, body, limit)
      decreases |bytes| - cursor
    {
      ghost var step := NextChunk(bytes, cursor, body, limit);
      var at := FindFrom(bytes, CRLF, cursor);
      if at.None? { return Incomplete; }
      var size := ChunkSize(bytes[cursor..at.value]);
      if size.None? { return Malformed(InvalidChunkSize); }
      cursor := at.value + 2;
      assert step == AfterSize(bytes, cursor, size.value, body, limit);
      if size.value == 0 {
        if |bytes| < cursor + 2 { return Incomplete; }
        if |bytes| != cursor + 2 || bytes[cursor..] != CRLF { return Malformed(UnexpectedTrailerOrExtraBytes); }
        return Complete(body);
      }
      if size.value > SaturatingSub(limit, |body|) { return Malformed(ResponseTooLarge); }
      var end := cursor + size.value + 2;
      if end > USIZE_MAX { return Malformed(ResponseTooLarge); }
      if |bytes| < end { return Incomplete; }
      if bytes[end - 2..end] != CRLF { return Malformed(InvalidChunkTerminator); }
      body := body + bytes[cursor..end - 2];
      cursor := end;
    }
  }

  lemma AfterSizeIsFinal(bytes: Bytes, more: Bytes, start: nat, size: nat, body: Bytes, limit: nat)
    requires start <= |bytes|
    ensures var before := AfterSize(bytes, start, size, body, limit);
            var after := AfterSize(bytes + more, start, size, body, limit);
            && (before.Advance? || (before.Stop? && before.outcome.Malformed?) ==> after == before)
            && (before == Stop(Complete(body)) && more != [] ==> after == Stop(Malformed(UnexpectedTrailerOrExtraBytes)))
  {
    if size > 0 && start + size + 2 <= |bytes| {
      assert (bytes + more)[start + size..start + size + 2] == bytes[start + size..start + size + 2];
      assert (bytes + more)[start..start + size] == bytes[start..start + size];
    }
  }

  lemma NextChunkIsFinal(bytes: Bytes, more: Bytes, cursor: nat, body: Bytes, limit: nat)
    requires cursor <= |bytes|
    ensures var before := NextChunk(bytes, cursor, body, limit);
            var after := NextChunk(bytes + more, cursor, body, limit);
            && (before.Advance? || (before.Stop? && before.outcome.Malformed?) ==> after == before)
            && (before == Stop(Complete(body)) && more != [] ==> after == Stop(Malformed(UnexpectedTrailerOrExtraBytes)))
            && (before.Stop? && before.outcome.Complete? ==> before.outcome.body == body)
  {
    hide FindFrom, ChunkSize, AfterSize;
    var at := FindFrom(bytes, CRLF, cursor);
    if at.Some? {
      FindExtends(bytes, more, CRLF, cursor);
      var line := bytes[cursor..at.value];
      assert (bytes + more)[cursor..at.value] == line;
      var size := ChunkSize(line);
      if size.Some? {
        AfterSizeIsFinal(bytes, more, at.value + 2, size.value, body, limit);
        AfterSizeKeepsBody(bytes, at.value + 2, size.value, body, limit);
      }
    }
  }

  lemma AfterSizeKeepsBody(bytes: Bytes, start: nat, size: nat, body: Bytes, limit: nat)
    requires start <= |bytes|
    ensures var step := AfterSize(bytes, start, size, body, limit);
            step.Stop? && step.outcome.Complete? ==> step.outcome.body == body
  {
  }

  /** What later bytes can do to a decision: a complete body followed by anything is an error,
      an error stays the same error. */
  lemma {:induction false} ChunkDecisionsAreFinal(bytes: Bytes, more: Bytes, cursor: nat, body: Bytes, limit: nat)
    requires cursor <= |bytes|
    ensures var before := ChunksFrom(bytes, cursor, body, limit);
            var after := ChunksFrom(bytes + more, cursor, body, limit);
            && (before.Malformed? ==> after == before)
            && (before.Complete? && more != [] ==> after == Malformed(UnexpectedTrailerOrExtraBytes))
    decreases |bytes| - cursor
  {
    NextChunkIsFinal(bytes, more, cursor, body, limit);
    var step := NextChunk(bytes, cursor, body, limit);
    if step.Advance? {
      ChunkDecisionsAreFinal(bytes, more, step.next, body + step.data, limit);
    }
  }

  /** The decoded body never exceeds the limit. */
  lemma {:induction false} DecodedBodyWithinLimit(bytes: Bytes, cursor: nat, body: Bytes, limit: nat)
    requires cursor <= |bytes| && |body| <= limit
    requires ChunksFrom(bytes, cursor, body, limit).Complete?
    ensures |ChunksFrom(bytes, cursor, body, limit).body| <= limit
    decreases |bytes| - cursor
  {
    NextChunkIsFinal(bytes, [], cursor, body, limit);
    var step := NextChunk(bytes, cursor, body, limit);
    if step.Advance? {
      DecodedBodyWithinLimit(bytes, step.next, body + step.data, limit);
    }
  }

  // ---------------------------------------------------------------- the verdict on the bytes so far

  datatype Parsed = Parsed(end: nat, head: Head, mode: Framing)

  datatype Verdict = NeedMore(parsed: Option<Parsed>) | Done(response: Response) | Fail(error: HttpError)

  function WithBody(head: Head, body: Bytes): Response { Response(head.status, head.headers, body) }

  function BodyVerdict(parsed: Parsed, raw: Bytes, limit: nat): Verdict
    requires parsed.end <= |raw|
  {
    var body := raw[parsed.end..];
    match parsed.mode
    case Empty =>
      if body == [] then Done(WithBody(parsed.head, [])) else Fail(NewError(BodyStage, ExtraResponseBytes))
    case Length(n) =>
      if |body| == n then Done(WithBody(parsed.head, body))
      else if |body| < n then NeedMore(Some(parsed))
      else Fail(NewError(BodyStage, ExtraResponseBytes))
    case Chunked =>
      (match DecodeChunks(body, limit)
       case Incomplete => NeedMore(Some(parsed))
       case Complete(decoded) => Done(WithBody(parsed.head, decoded))
       case Malformed(reason) => Fail(NewError(BodyStage, reason)))
    case Close => NeedMore(Some(parsed))
  }

  /** The header block, once its end is known. */
  function HeadVerdict(raw: Bytes, end: nat, limit: nat): Result<Parsed, HttpError>
    requires end <= |raw|
  {
    if end > MAX_HEADER_BYTES then Err(NewError(HeadersStage, HeadersTooLarge))
    else
      match ParseHead(raw[..end])
      case Err(e) => Err(e)
      case Ok(head) =>
        match FramingOf(head)
        case Err(e) => Err(e)
        case Ok(mode) =>
          if mode.Length? && mode.n > SaturatingSub(limit, end) then
            Err(HttpError(HeadersStage, ResponseTooLarge, |raw|, None, Some(head.status)))
          else Ok(Parsed(end, head, mode))
  }

  function Judge(raw: Bytes, limit: nat): Verdict {
    match HeaderEnd(raw)
    case None =>
      if |raw| >= MAX_HEADER_BYTES then Fail(NewError(HeadersStage, HeadersTooLarge)) else NeedMore(None)
    case Some(end) =>
      match HeadVerdict(raw, end, limit)
      case Err(e) => Fail(e)
      case Ok(parsed) => BodyVerdict(parsed, raw, limit)
  }

  lemma HeaderEndExtends(raw: Bytes, more: Bytes)
    requires HeaderEnd(raw).Some?
    ensures HeaderEnd(raw + more) == HeaderEnd(raw)
    ensures var end := HeaderEnd(raw).value; end <= |raw| && (raw + more)[..end] == raw[..end]
  {
    FindExtends(raw, more, CRLF_CRLF, 0);
    var end := HeaderEnd(raw).value;
    assert (raw + more)[..end] == raw[..end];
  }

  lemma BodyDecisionIsFinal(parsed: Parsed, raw: Bytes, more: Bytes, limit: nat)
    requires parsed.end <= |raw| && !BodyVerdict(parsed, raw, limit).NeedMore? && more != []
    ensures BodyVerdict(parsed, raw + more, limit).Fail?
  {
    var body := raw[parsed.end..];
    assert (raw + more)[parsed.end..] == body + more;
    if parsed.mode.Chunked? {
      ChunkDecisionsAreFinal(body, more, 0, [], limit);
    }
  }

  /** Complete messages are prefix-free and errors are absorbing: once the reader has decided,
      no further byte can produce a success. */
  lemma DecisionsAreFinal(raw: Bytes, more: Bytes, limit: nat)
    requires !Judge(raw, limit).NeedMore? && more != []
    ensures Judge(raw + more, limit).Fail?
  {
    var q := raw + more;
    if HeaderEnd(raw).None? {
      if HeaderEnd(q).Some? && HeaderEnd(q).value <= |raw| {
        var at := HeaderEnd(q).value - 4;
        assert q[at..at + 4] == raw[at..at + 4];
        assert MatchesAt(raw, CRLF_CRLF, at);
        assert false;
      }
    } else {
      HeaderEndExtends(raw, more);
      var end := HeaderEnd(raw).value;
      var parsed := HeadVerdict(raw, end, limit);
      if parsed.Ok? { BodyDecisionIsFinal(parsed.value, raw, more, limit); }
    }
  }

  /** The parsed head of a prefix is the parsed head of the whole. */
  lemma ParsedHeadIsStable(raw: Bytes, more: Bytes, limit: nat)
    requires Judge(raw, limit).NeedMore? && Judge(raw, limit).parsed.Some?
    ensures HeaderEnd(raw).Some? && HeaderEnd(raw + more) == HeaderEnd(raw)
    ensures HeadVerdict(raw + more, HeaderEnd(raw).value, limit) == Ok(Judge(raw, limit).parsed.value)
  {
    hide ParseHead, FramingOf, FindFrom, DecodeChunks;
    HeaderEndExtends(raw, more);
  }

  // ---------------------------------------------------------------- the reader

  /** One successful read call returns 1 to 4096 bytes. */
  type Fragment = d: Bytes | 1 <= |d| <= 4096 witness [0]

  datatype Event = Data(bytes: Fragment) | Interrupted

  /** What the stream does after its last event: clean end, or an input/output error. */
  datatype Ending = Eof | Failure(kind: int)

  /** A connection: a script of read results, consumed one per call. */
  class ScriptedReader {
    var events: seq<Event>
    const ending: Ending
    var endingRead: bool

    constructor (events: seq<Event>, ending: Ending)
      ensures this.events == events && this.ending == ending && !endingRead
    {
      this.events, this.ending, this.endingRead := events, ending, false;
    }

    method Read() returns (r: Option<Event>)
      modifies this
      ensures old(events) == [] ==> r == None && events == [] && endingRead
      ensures old(events) != [] ==> r == Some(old(events)[0]) && events == old(events)[1..] && endingRead == old(endingRead)
    {
      if events == [] {
        endingRead := true;
        r := None;
      } else {
        r := Some(events[0]);
        events := events[1..];
      }
    }
  }

  /** The annotations the reader adds to an error that a read call caused. */
  function Annotate(error: HttpError, raw: Bytes, parsed: Option<Parsed>): HttpError {
    match parsed
    case None => error.(received := |raw|)
    case Some(p) =>
      error.(received := |raw|, status := Some(p.head.status),
             expected := if p.mode.Length? && p.end + p.mode.n <= USIZE_MAX then Some(p.end + p.mode.n) else None)
  }

  function AtEnding(raw: Bytes, parsed: Option<Parsed>, ending: Ending): Result<Response, HttpError>
    requires parsed.Some? ==> parsed.value.end <= |raw|
  {
    match ending
    case Eof =>
      if parsed.Some? && parsed.value.mode.Close? then Ok(WithBody(parsed.value.head, raw[parsed.value.end..]))
      else Err(Annotate(NewError(BodyStage, TruncatedResponse), raw, parsed))
    case Failure(kind) =>
      Err(Annotate(NewError(if parsed.Some? then BodyStage else HeadersStage, IoError(kind)), raw, parsed))
  }

  /** Outcome of a whole read: the answer, the events left unread, whether the ending was reached. */
  datatype ReadOutcome = ReadOutcome(answer: Result<Response, HttpError>, unread: seq<Event>, endingRead: bool)

  function ReadFrom(raw: Bytes, events: seq<Event>, ending: Ending, limit: nat): ReadOutcome
    decreases |events|
  {
    match Judge(raw, limit)
    case Done(response) => ReadOutcome(Ok(response), events, false)
    case Fail(error) => ReadOutcome(Err(error), events, false)
    case NeedMore(parsed) =>
      if events == [] then
        HeaderEndBound(raw);
        ReadOutcome(AtEnding(raw, parsed, ending), [], true)
      else match events[0]
        case Interrupted => ReadFrom(raw, events[1..], ending, limit)
        case Data(d) =>
          if |d| <= SaturatingSub(limit, |raw|) then ReadFrom(raw + d, events[1..], ending, limit)
          else ReadOutcome(Err(Annotate(NewError(BodyStage, ResponseTooLarge), raw, parsed)), events[1..], false)
  }

  lemma HeaderEndBound(raw: Bytes)
    ensures HeaderEnd(raw).Some? ==> HeaderEnd(raw).value <= |raw|
  {
  }

  /** The incremental reader: the header block is parsed once, every read is followed by a fresh
      look at the body. */
  method ReadFramed(reader: ScriptedReader, limit: nat) returns (answer: Result<Response, HttpError>)
    requires !reader.endingRead
    modifies reader
    ensures ReadOutcome(answer, reader.events, reader.endingRead)
         == ReadFrom([], old(reader.events), reader.ending, limit)
  {
    hide ParseHead, FramingOf, FindFrom, DecodeChunks, Annotate;
    var raw: Bytes := [];
    var head: Option<Parsed> := None;
    ghost var start := reader.events;
    while true
      invariant !reader.endingRead
      invariant ReadFrom([], start, reader.ending, limit) == ReadFrom(raw, reader.events, reader.ending, limit)
      invariant head.Some? ==> HeaderEnd(raw).Some? && head.value.end == HeaderEnd(raw).value <= |raw|
                               && HeadVerdict(raw, head.value.end, limit) == Ok(head.value)
      decreases |reader.events|
    {
      if head.None? {
        var end := HeaderEnd(raw);
        if end.Some? {
          if end.value > MAX_HEADER_BYTES { return Err(NewError(HeadersStage, HeadersTooLarge)); }
          var response := ParseHeadBlock(raw[..end.value]);
          if response.Err? { return Err(response.error); }
          var mode := FramingOf(response.value);
          if mode.Err? { return Err(mode.error); }
          if mode.value.Length? && mode.value.n > SaturatingSub(limit, end.value) {
            return Err(HttpError(HeadersStage, ResponseTooLarge, |raw|, None, Some(response.value.status)));
          }
          head := Some(Parsed(end.value, response.value, mode.value));
        } else if |raw| >= MAX_HEADER_BYTES {
          return Err(NewError(HeadersStage, HeadersTooLarge));
        }
      }
      if head.Some? {
        var Parsed(end, response, mode) := head.value;
        var body := raw[end..];
        var complete: Option<Bytes> := None;
        match mode {
          case Empty =>
            if body != [] { return Err(NewError(BodyStage, ExtraResponseBytes)); }
            complete := Some([]);
          case Length(n) =>
            if |body| == n {
              complete := Some(body);
            } else if |body| > n {
              return Err(NewError(BodyStage, ExtraResponseBytes));
            }
          case Chunked =>
            var outcome := Chunks(body, limit);
            if outcome.Malformed? { return Err(NewError(BodyStage, outcome.reason)); }
            if outcome.Complete? { complete := Some(outcome.body); }
          case Close =>
        }
        if complete.Some? { return Ok(WithBody(response, complete.value)); }
      }
      assert Judge(raw, limit) == NeedMore(head);
      var event := reader.Read();
      if event.None? {
        return AtEnding(raw, head, reader.ending);
      }
      if event.value.Data? {
        var d := event.value.bytes;
        if |d| > SaturatingSub(limit, |raw|) {
          return Err(Annotate(NewError(BodyStage, ResponseTooLarge), raw, head));
        }
        if head.Some? { HeaderEndExtends(raw, d); }
        raw := raw + d;
      }
    }
  }
}
