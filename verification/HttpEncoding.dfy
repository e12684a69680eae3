/** Well-formed wire messages, written down independently of the parser, and the proof that the
    parser and the chunk decoder invert them. */
module HttpEncoding {
  import opened Results
  import opened HttpFraming
  import opened HttpFragmentation

  // ---------------------------------------------------------------- chunked bodies

  /** A chunk as sent: its size line (leading zeros and extensions allowed) and its data. */
  datatype WireChunk = WireChunk(line: Bytes, data: Bytes)

  predicate ValidChunk(chunk: WireChunk) {
    chunk.data != [] && ChunkSize(chunk.line) == Some(|chunk.data|)
  }

  predicate ValidChunks(chunks: seq<WireChunk>) {
    forall i :: 0 <= i < |chunks| ==> ValidChunk(chunks[i])
  }

  /** `last` is the size line of the final empty chunk. */
  function EncodeChunks(chunks: seq<WireChunk>, last: Bytes): Bytes {
    if chunks == [] then last + CRLF + CRLF
    else chunks[0].line + CRLF + chunks[0].data + CRLF + EncodeChunks(chunks[1..], last)
  }

  function DataOf(chunks: seq<WireChunk>): Bytes {
    if chunks == [] then [] else chunks[0].data + DataOf(chunks[1..])
  }

  lemma LineIsFound(before: Bytes, line: Bytes, after: Bytes)
    requires ChunkSize(line).Some?
    ensures FindFrom(before + line + CRLF + after, CRLF, |before|) == Some(|before| + |line|)
    ensures (before + line + CRLF + after)[|before|..|before| + |line|] == line
  {
    hide ValidUtf8, ParseUnsigned, DigitsOf;
    var all := before + line + CRLF + after;
    forall k | |before| <= k < |before| + |line| ensures !MatchesAt(all, CRLF, k) {
      assert all[k] == line[k - |before|];
      assert !IsControl(line[k - |before|]);
    }
    assert all[|before| + |line|..|before| + |line| + 2] == CRLF;
    FindIs(all, CRLF, |before|, |before| + |line|);
  }

  lemma FirstChunkIsTaken(before: Bytes, chunk: WireChunk, rest: Bytes, body: Bytes, limit: nat)
    requires ValidChunk(chunk) && |body| + |chunk.data| <= limit
    requires |before + chunk.line + CRLF + chunk.data + CRLF + rest| <= USIZE_MAX
    ensures NextChunk(before + chunk.line + CRLF + chunk.data + CRLF + rest, |before|, body, limit)
         == Advance(chunk.data, |before| + |chunk.line| + 2 + |chunk.data| + 2)
  {
    hide ChunkSize, FindFrom;
    var after := chunk.data + CRLF + rest;
    var all := before + chunk.line + CRLF + after;
    assert all == before + chunk.line + CRLF + chunk.data + CRLF + rest;
    LineIsFound(before, chunk.line, after);
    var start, size := |before| + |chunk.line| + 2, |chunk.data|;
    assert all[start..start + size] == chunk.data;
    assert all[start + size..start + size + 2] == CRLF;
  }

  lemma LastChunkCompletes(before: Bytes, last: Bytes, body: Bytes, limit: nat)
    requires ChunkSize(last) == Some(0)
    ensures NextChunk(before + last + CRLF + CRLF, |before|, body, limit) == Stop(Complete(body))
  {
    hide ChunkSize, FindFrom;
    LineIsFound(before, last, CRLF);
    assert (before + last + CRLF + CRLF)[|before| + |last| + 2..] == CRLF;
  }

  lemma {:induction false} DecodeInvertsEncodeFrom(
    before: Bytes, chunks: seq<WireChunk>, last: Bytes, body: Bytes, limit: nat)
    requires ValidChunks(chunks) && ChunkSize(last) == Some(0)
    requires |before + EncodeChunks(chunks, last)| <= USIZE_MAX
    requires |body| + |DataOf(chunks)| <= limit
    ensures ChunksFrom(before + EncodeChunks(chunks, last), |before|, body, limit) == Complete(body + DataOf(chunks))
    decreases |chunks|
  {
    hide ChunkSize, FindFrom, NextChunk;
    var all := before + EncodeChunks(chunks, last);
    if chunks == [] {
      LastChunkCompletes(before, last, body, limit);
      assert all == before + last + CRLF + CRLF;
      assert body + [] == body;
    } else {
      var chunk, rest := chunks[0], EncodeChunks(chunks[1..], last);
      assert ValidChunk(chunk);
      assert all == before + chunk.line + CRLF + chunk.data + CRLF + rest;
      FirstChunkIsTaken(before, chunk, rest, body, limit);
      var next := before + chunk.line + CRLF + chunk.data + CRLF;
      assert all == next + rest;
      DecodeInvertsEncodeFrom(next, chunks[1..], last, body + chunk.data, limit);
      assert (body + chunk.data) + DataOf(chunks[1..]) == body + DataOf(chunks);
    }
  }

  /** Decoding a chunked encoding gives the concatenation of its data. */
  lemma DecodeInvertsEncode(chunks: seq<WireChunk>, last: Bytes, limit: nat)
    requires ValidChunks(chunks) && ChunkSize(last) == Some(0)
    requires |EncodeChunks(chunks, last)| <= USIZE_MAX && |DataOf(chunks)| <= limit
    ensures DecodeChunks(EncodeChunks(chunks, last), limit) == Complete(DataOf(chunks))
  {
    assert [] + EncodeChunks(chunks, last) == EncodeChunks(chunks, last);
    assert [] + DataOf(chunks) == DataOf(chunks);
    DecodeInvertsEncodeFrom([], chunks, last, [], limit);
  }

  /** Every strict prefix of an encoding is incomplete, never an error and never a body. */
  lemma StrictPrefixIsIncomplete(chunks: seq<WireChunk>, last: Bytes, limit: nat, k: nat)
    requires ValidChunks(chunks) && ChunkSize(last) == Some(0)
    requires |EncodeChunks(chunks, last)| <= USIZE_MAX && |DataOf(chunks)| <= limit
    requires k < |EncodeChunks(chunks, last)|
    ensures DecodeChunks(EncodeChunks(chunks, last)[..k], limit) == Incomplete
  {
    hide ChunksFrom;
    var wire := EncodeChunks(chunks, last);
    DecodeInvertsEncode(chunks, last, limit);
    assert wire == wire[..k] + wire[k..];
    ChunkDecisionsAreFinal(wire[..k], wire[k..], 0, [], limit);
  }

  /** No encoding is a strict prefix of another. */
  lemma EncodingsArePrefixFree(
    a: seq<WireChunk>, lastA: Bytes, b: seq<WireChunk>, lastB: Bytes, more: Bytes)
    requires ValidChunks(a) && ChunkSize(lastA) == Some(0) && ValidChunks(b) && ChunkSize(lastB) == Some(0)
    requires |EncodeChunks(b, lastB)| <= USIZE_MAX
    requires EncodeChunks(b, lastB) == EncodeChunks(a, lastA) + more
    ensures more == []
  {
    hide ChunksFrom, ChunkSize;
    if more != [] {
      var limit := |DataOf(a)| + |DataOf(b)|;
      var k := |EncodeChunks(a, lastA)|;
      assert EncodeChunks(b, lastB)[..k] == EncodeChunks(a, lastA);
      StrictPrefixIsIncomplete(b, lastB, limit, k);
      DecodeInvertsEncode(a, lastA, limit);
      assert false;
    }
  }

  function HexByte(d: nat): byte
    requires d < 16
  {
    if d < 10 then d + 48 else d + 87
  }

  /** Shortest text of a number in the given radix. */
  function NumberText(n: nat, radix: nat): Bytes
    requires radix == 10 || radix == 16
  {
    if n < radix then [HexByte(n)] else NumberText(n / radix, radix) + [HexByte(n % radix)]
  }

  lemma {:induction false} NumberTextParses(n: nat, radix: nat)
    requires radix == 10 || radix == 16
    ensures NumberText(n, radix) != [] && DigitsOf(NumberText(n, radix), radix)
    ensures NumberValue(NumberText(n, radix), radix) == n
    decreases n
  {
    var text := NumberText(n, radix);
    if n < radix {
      assert text[..0] == [];
    } else {
      NumberTextParses(n / radix, radix);
      assert text[..|text| - 1] == NumberText(n / radix, radix);
    }
  }

  lemma {:induction false} AsciiIsValidUtf8(text: Bytes)
    requires forall i :: 0 <= i < |text| ==> text[i] < 0x80
    ensures ValidUtf8(text)
  {
    if text != [] { AsciiIsValidUtf8(text[1..]); }
  }

  /** The canonical size line of a chunk announces its size, so every list of non-empty pieces of
      data has an encoding. */
  lemma CanonicalSizeLine(n: nat)
    requires n <= USIZE_MAX
    ensures ChunkSize(NumberText(n, 16)) == Some(n)
  {
    hide NumberText, ValidUtf8;
    NumberTextParses(n, 16);
    var text := NumberText(n, 16);
    AsciiIsValidUtf8(text);
    forall k | 0 <= k < |text| ensures !MatchesAt(text, [SEMICOLON], k) {
      assert text[k..k + 1][0] == text[k];
    }
    assert text[0] != 43;
  }

  // ---------------------------------------------------------------- the header block

  /** A header as sent: the value may carry white space around it. */
  datatype HeaderLine = HeaderLine(name: Bytes, value: Bytes)

  predicate ValidHeader(h: HeaderLine) { Token(h.name) && ValueBytesOk(h.value) }

  predicate ValidHeaders(hs: seq<HeaderLine>) {
    && (forall i :: 0 <= i < |hs| ==> ValidHeader(hs[i]))
    && (forall i, j :: 0 <= i < j < |hs| ==> Lower(hs[i].name) != Lower(hs[j].name))
  }

  /** The text holds no CR LF; either byte alone is allowed. */
  predicate NoLineEnd(text: Bytes) { forall k :: 0 <= k < |text| - 1 ==> text[k] != CR || text[k + 1] != LF }

  /** A status line as sent: either version, and a reason phrase or none, not even its space. */
  datatype StatusLine = StatusLine(version: Bytes, status: nat, reason: Option<Bytes>)

  predicate ValidStatus(start: StatusLine) {
    && start.version in {HTTP11, HTTP10} && 200 <= start.status <= 599
    && (start.reason.Some? ==> NoLineEnd(start.reason.value))
  }

  function HeaderText(h: HeaderLine): Bytes { h.name + [COLON] + h.value }

  function HeaderTexts(hs: seq<HeaderLine>): seq<Bytes> {
    seq(|hs|, i requires 0 <= i < |hs| => HeaderText(hs[i]))
  }

  function ReasonText(reason: Option<Bytes>): Bytes { match reason case None => [] case Some(text) => [SPACE] + text }

  function StatusText(start: StatusLine): Bytes {
    start.version + [SPACE] + NumberText(start.status, 10) + ReasonText(start.reason)
  }

  /** Lines, each ended by CR LF, and the empty line after them. */
  function WireLines(lines: seq<Bytes>): Bytes {
    if lines == [] then CRLF else lines[0] + CRLF + WireLines(lines[1..])
  }

  function WireHead(start: StatusLine, hs: seq<HeaderLine>): Bytes {
    WireLines([StatusText(start)] + HeaderTexts(hs))
  }

  /** A header block that any sender may send: text in UTF-8, names all different. */
  predicate ValidHead(start: StatusLine, hs: seq<HeaderLine>) {
    ValidStatus(start) && ValidHeaders(hs) && ValidUtf8(WireHead(start, hs))
  }

  /** The header map the message means: lower-case names, trimmed values. */
  function Meaning(hs: seq<HeaderLine>): Headers {
    if hs == [] then map[]
    else
      var last := hs[|hs| - 1];
      Meaning(hs[..|hs| - 1])[Lower(last.name) := Trim(last.value)]
  }

  predicate ProperLines(lines: seq<Bytes>) {
    forall i :: 0 <= i < |lines| ==> lines[i] != [] && lines[i][0] != CR && NoLineEnd(lines[i])
  }

  lemma WireLinesStart(lines: seq<Bytes>)
    requires ProperLines(lines)
    ensures |WireLines(lines)| >= 2
    ensures lines == [] ==> WireLines(lines) == CRLF
    ensures lines != [] ==> WireLines(lines)[0] != CR
  {
    if lines != [] { assert WireLines(lines)[0] == lines[0][0]; }
  }

  /** The first empty line of a header block is its last line. */
  lemma {:induction false} HeadEndIsFound(before: Bytes, lines: seq<Bytes>, after: Bytes)
    requires lines != [] && ProperLines(lines)
    ensures FindFrom(before + WireLines(lines) + after, CRLF_CRLF, |before|)
         == Some(|before| + |WireLines(lines)| - 4)
    decreases |lines|
  {
    hide FindFrom, NoLineEnd, MatchesAt;
    var line, rest := lines[0], WireLines(lines[1..]);
    var next := before + line + CRLF;
    assert before + WireLines(lines) + after == next + rest + after;
    WireLinesStart(lines[1..]);
    NoHeadEndInLine(before, line, rest, after);
    if lines[1..] == [] {
      HeadEndsHere(before + line, after);
      assert before + line + CRLF_CRLF + after == next + rest + after;
      FindIs(next + rest + after, CRLF_CRLF, |before|, |before| + |line|);
    } else {
      LineEndIsNotHeadEnd(next, rest, after);
      FindSkips(next + rest + after, CRLF_CRLF, |before|, |next|);
      hide WireLines;
      HeadEndIsFound(next, lines[1..], after);
    }
  }

  lemma HeadEndsHere(before: Bytes, after: Bytes)
    ensures MatchesAt(before + CRLF_CRLF + after, CRLF_CRLF, |before|)
  {
  }

  /** No line end starts inside a line. */
  lemma LineEndInLine(line: Bytes, k: nat, first: byte, second: byte)
    requires NoLineEnd(line) && k < |line| && first == line[k]
    requires second == (line + CRLF)[k + 1]
    ensures first != CR || second != LF
  {
  }

  lemma NoHeadEndInLine(before: Bytes, line: Bytes, rest: Bytes, after: Bytes)
    requires NoLineEnd(line)
    ensures forall k :: |before| <= k < |before| + |line| ==>
              !MatchesAt(before + line + CRLF + rest + after, CRLF_CRLF, k)
  {
    var all := before + line + CRLF + rest + after;
    forall k | |before| <= k < |before| + |line| ensures !MatchesAt(all, CRLF_CRLF, k) {
      if MatchesAt(all, CRLF_CRLF, k) {
        assert all[k] == all[k..k + 4][0] == CR && all[k + 1] == all[k..k + 4][1] == LF;
        LineEndInLine(line, k - |before|, all[k], all[k + 1]);
        assert false;
      }
    }
  }

  lemma LineEndIsNotHeadEnd(before: Bytes, rest: Bytes, after: Bytes)
    requires |before| >= 2 && before[|before| - 1] == LF
    requires rest != [] && rest[0] != CR
    ensures var all := before + rest + after;
            !MatchesAt(all, CRLF_CRLF, |before| - 1) && !MatchesAt(all, CRLF_CRLF, |before| - 2)
  {
    var all := before + rest + after;
    assert all[|before| - 1] == LF && all[|before|] == rest[0];
    assert CRLF_CRLF[0] == CR && CRLF_CRLF[2] == CR;
  }

  lemma SplitFirst(line: Bytes, rest: Bytes)
    requires NoLineEnd(line)
    ensures SplitLines(line + CRLF + rest) == [line] + SplitLines(rest)
  {
    var all := line + CRLF + rest;
    forall k | 0 <= k < |line| ensures !MatchesAt(all, CRLF, k) {
      if MatchesAt(all, CRLF, k) {
        assert all[k] == all[k..k + 2][0] == CR && all[k + 1] == all[k..k + 2][1] == LF;
        LineEndInLine(line, k, all[k], all[k + 1]);
        assert false;
      }
    }
    assert all[|line|..|line| + 2] == CRLF;
    FindIs(all, CRLF, 0, |line|);
    assert all[..|line|] == line && all[|line| + 2..] == rest;
  }

  lemma {:induction false} SplitInvertsWireLines(lines: seq<Bytes>)
    requires ProperLines(lines)
    ensures SplitLines(WireLines(lines)) == lines + [[], []]
  {
    hide FindFrom;
    if lines == [] {
      assert CRLF == [] + CRLF + [];
      SplitFirst([], []);
      assert SplitLines([]) == [[]] by { assert FindFrom([], CRLF, 0) == None; }
    } else {
      hide SplitLines;
      SplitFirst(lines[0], WireLines(lines[1..]));
      SplitInvertsWireLines(lines[1..]);
      assert lines == [lines[0]] + lines[1..];
    }
  }

  lemma HeaderTextIsProper(h: HeaderLine)
    requires ValidHeader(h)
    ensures HeaderText(h) != [] && HeaderText(h)[0] != CR && NoLineEnd(HeaderText(h))
    ensures FindFrom(HeaderText(h), [COLON], 0) == Some(|h.name|)
    ensures HeaderText(h)[..|h.name|] == h.name && HeaderText(h)[|h.name| + 1..] == h.value
  {
    var text := HeaderText(h);
    forall i | 0 <= i < |text| ensures text[i] != CR && text[i] != LF {
      if i < |h.name| { assert IsTokenByte(h.name[i]); }
      else if i > |h.name| { assert text[i] == h.value[i - |h.name| - 1]; }
    }
    forall k | 0 <= k < |h.name| ensures !MatchesAt(text, [COLON], k) {
      assert text[k] == text[k..k + 1][0];
      assert IsTokenByte(h.name[k]);
    }
    FindIs(text, [COLON], 0, |h.name|);
  }

  lemma HeaderTextsAreProper(hs: seq<HeaderLine>)
    requires forall i :: 0 <= i < |hs| ==> ValidHeader(hs[i])
    ensures ProperLines(HeaderTexts(hs))
  {
    hide HeaderText, NoLineEnd;
    forall i | 0 <= i < |hs|
      ensures HeaderTexts(hs)[i] != [] && HeaderTexts(hs)[i][0] != CR && NoLineEnd(HeaderTexts(hs)[i])
    {
      HeaderTextIsProper(hs[i]);
    }
  }

  lemma {:induction false} MeaningKeys(hs: seq<HeaderLine>, name: Bytes)
    requires name in Meaning(hs)
    ensures exists i :: 0 <= i < |hs| && Lower(hs[i].name) == name
  {
    if hs != [] {
      if Lower(hs[|hs| - 1].name) != name { MeaningKeys(hs[..|hs| - 1], name); }
    }
  }

  lemma EmptyLinesAddNothing(headers: Headers)
    ensures AddHeaderLines(headers, [[], []]) == Some(headers)
  {
    var lines: seq<Bytes> := [[], []];
    assert lines[1..] == [[]];
    assert AddHeaderLines(headers, lines[1..]) == Some(headers);
  }

  /** Reading the lines from position `i` on, with the headers before `i` already in the map. */
  lemma {:induction false} AddLinesGivesMeaning(hs: seq<HeaderLine>, i: nat)
    requires ValidHeaders(hs) && i <= |hs|
    ensures AddHeaderLines(Meaning(hs[..i]), HeaderTexts(hs)[i..] + [[], []]) == Some(Meaning(hs))
    decreases |hs| - i
  {
    hide ValidUtf8, Trim, Lower;
    HeaderTextsAreProper(hs);
    var lines: seq<Bytes> := HeaderTexts(hs)[i..] + [[], []];
    if i == |hs| {
      assert hs[..i] == hs && lines == [[], []];
      EmptyLinesAddNothing(Meaning(hs));
    } else {
      var h := hs[i];
      HeaderTextIsProper(h);
      assert lines[0] == HeaderText(h) && lines[1..] == HeaderTexts(hs)[i + 1..] + [[], []];
      if Lower(h.name) in Meaning(hs[..i]) { MeaningKeys(hs[..i], Lower(h.name)); assert false; }
      assert hs[..i + 1][..i] == hs[..i];
      AddLinesGivesMeaning(hs, i + 1);
    }
  }

  lemma ThreeDigits(status: nat)
    requires 100 <= status <= 999
    ensures |NumberText(status, 10)| == 3
  {
    assert |NumberText(status / 10 / 10, 10)| == 1;
    assert |NumberText(status / 10, 10)| == 2;
  }

  lemma NoSpaceIn(text: Bytes, rest: Bytes, tail: Bytes)
    requires forall i :: 0 <= i < |text| ==> text[i] != SPACE
    requires tail == text + [SPACE] + rest
    ensures FindFrom(tail, [SPACE], 0) == Some(|text|)
    ensures tail[..|text|] == text && tail[|text| + 1..] == rest
  {
    forall k | 0 <= k < |text| ensures !MatchesAt(tail, [SPACE], k) {
      assert tail[k] == text[k];
      assert tail[k..k + 1][0] == tail[k];
    }
    FindIs(tail, [SPACE], 0, |text|);
  }

  lemma ReasonIsSkipped(code: Bytes, reason: Option<Bytes>)
    requires forall i :: 0 <= i < |code| ==> code[i] != SPACE
    ensures var rest := code + ReasonText(reason);
            (match FindFrom(rest, [SPACE], 0) case None => rest case Some(b) => rest[..b]) == code
  {
    match reason {
      case Some(text) => NoSpaceIn(code, text, code + ReasonText(reason));
      case None =>
        assert code + [] == code;
        forall k | 0 <= k < |code| ensures !MatchesAt(code, [SPACE], k) { assert code[k..k + 1][0] == code[k]; }
        assert FindFrom(code, [SPACE], 0) == None;
    }
  }

  lemma StatusTextParses(start: StatusLine)
    requires ValidStatus(start)
    ensures ParseStatusLine(StatusText(start)) == Some(start.status)
    ensures StatusText(start) != [] && StatusText(start)[0] != CR && NoLineEnd(StatusText(start))
  {
    hide NumberText, FindFrom, NumberValue;
    var code := NumberText(start.status, 10);
    var rest := code + ReasonText(start.reason);
    var line := StatusText(start);
    NumberTextParses(start.status, 10);
    ThreeDigits(start.status);
    assert line == start.version + [SPACE] + rest;
    NoSpaceIn(start.version, rest, line);
    ReasonIsSkipped(code, start.reason);
    assert code[0] != 43;
    StatusHasNoLineEnd(start);
  }

  lemma StatusHasNoLineEnd(start: StatusLine)
    requires ValidStatus(start)
    ensures StatusText(start)[0] != CR && NoLineEnd(StatusText(start))
  {
    hide NumberText;
    var code, line := NumberText(start.status, 10), StatusText(start);
    NumberTextParses(start.status, 10);
    var front := start.version + [SPACE] + code;
    assert line == front + ReasonText(start.reason);
    assert forall i :: 0 <= i < |front| ==> front[i] != CR && front[i] != LF;
    if start.reason.Some? { assert line == front + [SPACE] + start.reason.value; }
  }

  lemma HeadLinesAreProper(start: StatusLine, hs: seq<HeaderLine>)
    requires ValidStatus(start) && ValidHeaders(hs)
    ensures ProperLines([StatusText(start)] + HeaderTexts(hs))
  {
    hide StatusText, HeaderText;
    StatusTextParses(start);
    HeaderTextsAreProper(hs);
  }

  /** Parsing a well-formed header block recovers its status and its headers. */
  lemma HeadRoundTrip(start: StatusLine, hs: seq<HeaderLine>)
    requires ValidHead(start, hs)
    ensures ParseHead(WireHead(start, hs)) == Ok(Head(start.status, Meaning(hs)))
  {
    hide ValidUtf8, ParseStatusLine, SplitLines, WireLines, StatusText, HeaderText, AddHeaderLines, Meaning, NoLineEnd;
    var lines := [StatusText(start)] + HeaderTexts(hs);
    StatusTextParses(start);
    HeadLinesAreProper(start, hs);
    SplitInvertsWireLines(lines);
    var split := SplitLines(WireLines(lines));
    assert split[0] == StatusText(start);
    assert split[1..] == HeaderTexts(hs) + [[], []];
    AddLinesGivesMeaning(hs, 0);
    assert HeaderTexts(hs)[0..] == HeaderTexts(hs);
    assert Meaning(hs[..0]) == map[] by { NoHeadersMeanNothing(hs); }
  }

  lemma NoHeadersMeanNothing(hs: seq<HeaderLine>)
    ensures Meaning(hs[..0]) == map[]
  {
  }

  /** The block is recognised to end exactly where it ends, whatever body follows. */
  lemma HeadBoundary(start: StatusLine, hs: seq<HeaderLine>, body: Bytes)
    requires ValidHead(start, hs)
    ensures var wire := WireHead(start, hs);
            HeaderEnd(wire + body) == Some(|wire|) && (wire + body)[..|wire|] == wire && (wire + body)[|wire|..] == body
  {
    hide WireLines, StatusText, HeaderText, NoLineEnd, FindFrom;
    var lines := [StatusText(start)] + HeaderTexts(hs);
    var wire := WireHead(start, hs);
    HeadLinesAreProper(start, hs);
    HeadEndIsFound([], lines, body);
    assert [] + wire + body == wire + body;
  }

  // ---------------------------------------------------------------- whole messages

  /** The body of a message together with the framing its headers announce. */
  datatype WireBody =
    | NoBody
    | Sized(data: Bytes)
    | InChunks(chunks: seq<WireChunk>, last: Bytes)

  function WireOf(body: WireBody): Bytes {
    match body
    case NoBody => []
    case Sized(data) => data
    case InChunks(chunks, last) => EncodeChunks(chunks, last)
  }

  function Content(body: WireBody): Bytes {
    match body
    case NoBody => []
    case Sized(data) => data
    case InChunks(chunks, _) => DataOf(chunks)
  }

  /** The headers announce this body: RFC 9112 section 6.3, restricted to what the reader accepts. */
  predicate Announces(status: nat, headers: Headers, body: WireBody) {
    match body
    case NoBody =>
      && (status == 204 || status == 304) && TRANSFER_ENCODING !in headers
      && (CONTENT_LENGTH in headers ==>
            exists n: nat :: n <= USIZE_MAX && (status == 204 ==> n == 0) && IsNumber(headers[CONTENT_LENGTH], n))
    case Sized(data) =>
      && status != 204 && status != 304 && TRANSFER_ENCODING !in headers
      && CONTENT_LENGTH in headers && IsNumber(headers[CONTENT_LENGTH], |data|)
    case InChunks(chunks, last) =>
      && status != 204 && status != 304 && CONTENT_LENGTH !in headers
      && TRANSFER_ENCODING in headers && Lower(headers[TRANSFER_ENCODING]) == CHUNKED
      && ValidChunks(chunks) && ChunkSize(last) == Some(0)
  }

  predicate IsNumber(text: Bytes, n: nat) {
    text != [] && DigitsOf(text, 10) && NumberValue(text, 10) == n
  }

  lemma NumberIsParsed(text: Bytes, n: nat)
    requires IsNumber(text, n) && n <= USIZE_MAX
    ensures ParseUnsigned(text, 10, USIZE_MAX) == Some(n)
  {
    assert text[0] != 43;
  }

  lemma AnnouncedFraming(status: nat, headers: Headers, body: WireBody)
    requires Announces(status, headers, body) && |WireOf(body)| <= USIZE_MAX
    ensures FramingOf(Head(status, headers))
         == Ok(match body case NoBody => Empty case Sized(data) => Length(|data|) case InChunks(_, _) => Chunked)
  {
    hide ParseUnsigned, ValidChunks, NumberValue;
    match body {
      case NoBody =>
        if CONTENT_LENGTH in headers {
          var n: nat :| n <= USIZE_MAX && (status == 204 ==> n == 0) && IsNumber(headers[CONTENT_LENGTH], n);
          NumberIsParsed(headers[CONTENT_LENGTH], n);
        }
      case Sized(data) => NumberIsParsed(headers[CONTENT_LENGTH], |data|);
      case InChunks(_, _) =>
    }
  }

  /** Every well-formed message within the limits is recognised as complete, with the status, the
      headers and the body it was built from. */
  lemma MessageRoundTrip(start: StatusLine, hs: seq<HeaderLine>, body: WireBody, limit: nat)
    requires ValidHead(start, hs)
    requires Announces(start.status, Meaning(hs), body)
    requires |WireHead(start, hs)| <= MAX_HEADER_BYTES
    requires |WireHead(start, hs)| + |WireOf(body)| <= limit <= USIZE_MAX
    ensures Judge(WireHead(start, hs) + WireOf(body), limit)
         == Done(Response(start.status, Meaning(hs), Content(body)))
  {
    hide WireHead, ParseHead, FramingOf, HeaderEnd, Announces, DecodeChunks, ValidHead, Meaning, EncodeChunks, DataOf;
    HeadRoundTrip(start, hs);
    HeadBoundary(start, hs, WireOf(body));
    AnnouncedFraming(start.status, Meaning(hs), body);
    if body.InChunks? {
      AnnouncedChunksAreValid(start.status, Meaning(hs), body);
      DataIsShorter(body.chunks, body.last);
      DecodeInvertsEncode(body.chunks, body.last, limit);
    }
    var head, raw := WireHead(start, hs), WireHead(start, hs) + WireOf(body);
    assert raw[..|head|] == head && raw[|head|..] == WireOf(body);
  }

  lemma AnnouncedChunksAreValid(status: nat, headers: Headers, body: WireBody)
    requires Announces(status, headers, body) && body.InChunks?
    ensures ValidChunks(body.chunks) && ChunkSize(body.last) == Some(0)
  {
  }

  lemma {:induction false} DataIsShorter(chunks: seq<WireChunk>, last: Bytes)
    ensures |DataOf(chunks)| <= |EncodeChunks(chunks, last)|
  {
    if chunks != [] { DataIsShorter(chunks[1..], last); }
  }

  /** From the sender to the caller: a well-formed message split in any way, interrupted in any way
      and followed by any ending is read as what was sent; cut short anywhere, it is rejected. */
  lemma SentIsReceived(
    start: StatusLine, hs: seq<HeaderLine>, body: WireBody, limit: nat,
    events: seq<Event>, ending: Ending, k: nat)
    requires ValidHead(start, hs)
    requires Announces(start.status, Meaning(hs), body)
    requires |WireHead(start, hs)| <= MAX_HEADER_BYTES
    requires |WireHead(start, hs)| + |WireOf(body)| <= limit <= USIZE_MAX
    requires k <= |WireHead(start, hs) + WireOf(body)|
    requires Payload(events) == (WireHead(start, hs) + WireOf(body))[..k]
    ensures var r := ReadFrom([], events, ending, limit);
            if k == |WireHead(start, hs) + WireOf(body)|
            then r.answer == Ok(Response(start.status, Meaning(hs), Content(body))) && !r.endingRead
            else r.answer.Err?
  {
    hide Judge, ReadFrom, WireHead, WireOf, Announces, ValidHead;
    var message := WireHead(start, hs) + WireOf(body);
    MessageRoundTrip(start, hs, body, limit);
    if k == |message| {
      assert message[..k] == message;
      CompleteMessageIsAccepted(message, events, ending, limit, Response(start.status, Meaning(hs), Content(body)));
    } else {
      TruncationIsRejected(message, k, events, ending, limit);
    }
  }
}
