/** What the reader accepts, exactly: nothing but well-formed messages, each with its own content. The
    senders of `HttpEncoding` are all there are. */
module HttpAcceptance {
  import opened Results
  import opened HttpFraming
  import opened HttpFragmentation
  import opened HttpEncoding

  // ---------------------------------------------------------------- numbers

  lemma {:induction false} LeadingDigit(text: Bytes)
    requires text != [] && DigitsOf(text, 10) && text[0] != 48
    ensures NumberValue(text, 10) >= 1
  {
    var n := |text| - 1;
    if n > 0 { LeadingDigit(text[..n]); } else { assert text[..0] == []; }
  }

  lemma OneMoreDigit(v: nat, b: byte)
    requires v >= 1 && IsDigit(b)
    ensures NumberText(v * 10 + DigitValue(b), 10) == NumberText(v, 10) + [b]
  {
    var n := v * 10 + DigitValue(b);
    assert n / 10 == v && n % 10 == DigitValue(b);
  }

  /** A decimal text without leading zeros is the text of its value. */
  lemma {:induction false} NumberTextInverts(text: Bytes)
    requires text != [] && DigitsOf(text, 10) && text[0] != 48
    ensures NumberText(NumberValue(text, 10), 10) == text
  {
    hide NumberText;
    var n := |text| - 1;
    assert IsDigit(text[n]);
    if n == 0 {
      assert text[..0] == [] && text == [text[0]];
      OneDigit(text[0]);
    } else {
      NumberTextInverts(text[..n]);
      LeadingDigit(text[..n]);
      OneMoreDigit(NumberValue(text[..n], 10), text[n]);
      assert text == text[..n] + [text[n]];
    }
  }

  lemma OneDigit(b: byte)
    requires IsDigit(b)
    ensures NumberText(DigitValue(b), 10) == [b]
  {
  }

  lemma SmallValues(text: Bytes)
    requires DigitsOf(text, 10) && 2 <= |text| <= 3
    ensures |text| == 2 ==> NumberValue(text, 10) < 100
    ensures |text| == 3 && text[0] == 48 ==> NumberValue(text, 10) < 100
  {
    var two := text[..2];
    assert two[..1][..0] == [] && two[..1] == [text[0]];
    assert NumberValue(two[..1], 10) == DigitValue(text[0]);
    assert NumberValue(two, 10) == DigitValue(text[0]) * 10 + DigitValue(text[1]);
    if |text| == 3 { assert text[..|text| - 1] == two; } else { assert text == two; }
  }

  /** A three-byte status code in range is written without sign or leading zero. */
  lemma StatusCodeIsText(code: Bytes)
    requires |code| == 3 && ParseUnsigned(code, 10, U16_MAX).Some? && ParseUnsigned(code, 10, U16_MAX).value >= 200
    ensures code == NumberText(ParseUnsigned(code, 10, U16_MAX).value, 10)
    ensures forall i :: 0 <= i < 3 ==> code[i] != SPACE
  {
    hide NumberValue, NumberText;
    if code[0] == 43 {
      SmallValues(code[1..]);
      assert false;
    } else {
      SmallValues(code);
      NumberTextInverts(code);
    }
  }

  // ---------------------------------------------------------------- the status line

  lemma SpaceSplits(text: Bytes, at: nat)
    requires FindFrom(text, [SPACE], 0) == Some(at)
    ensures at < |text| && text == text[..at] + [SPACE] + text[at + 1..]
  {
    hide FindFrom;
    assert MatchesAt(text, [SPACE], at);
    hide MatchesAt;
    ThreeParts(text, at);
  }

  lemma ThreeParts(text: Bytes, at: nat)
    requires at < |text|
    ensures text == text[..at] + text[at..at + 1] + text[at + 1..]
  {
  }

  lemma EndOfLine(front: Bytes, back: Bytes)
    requires NoLineEnd(front + back)
    ensures NoLineEnd(back)
  {
    forall k | 0 <= k < |back| - 1 ensures back[k] != CR || back[k + 1] != LF {
      assert (front + back)[|front| + k] == back[k] && (front + back)[|front| + k + 1] == back[k + 1];
    }
  }

  /** Only well-formed status lines are accepted. */
  lemma StatusLineIsText(line: Bytes) returns (start: StatusLine)
    requires NoLineEnd(line) && ParseStatusLine(line).Some?
    ensures ValidStatus(start) && start.status == ParseStatusLine(line).value && line == StatusText(start)
  {
    hide FindFrom, NumberText, NoLineEnd, ParseUnsigned;
    var a := FindFrom(line, [SPACE], 0).value;
    SpaceSplits(line, a);
    var rest := line[a + 1..];
    var reason := AfterCode(rest);
    start := StatusLine(line[..a], ParseStatusLine(line).value, reason);
    var front := line[..a] + [SPACE];
    assert line == front + rest;
    hide ReasonText;
    Regroup(front, Code(rest), reason);
    StatusCodeIsText(Code(rest));
    ReasonEnds(front + Code(rest), reason);
  }

  lemma Regroup(front: Bytes, code: Bytes, reason: Option<Bytes>)
    ensures front + (code + ReasonText(reason)) == (front + code) + ReasonText(reason)
  {
    hide ReasonText;
  }

  lemma ReasonEnds(front: Bytes, reason: Option<Bytes>)
    requires NoLineEnd(front + ReasonText(reason))
    ensures reason.Some? ==> NoLineEnd(reason.value)
  {
    hide NoLineEnd;
    if reason.Some? {
      assert front + ReasonText(reason) == (front + [SPACE]) + reason.value;
      EndOfLine(front + [SPACE], reason.value);
    }
  }

  function Code(rest: Bytes): Bytes { match FindFrom(rest, [SPACE], 0) case None => rest case Some(b) => rest[..b] }

  lemma AfterCode(rest: Bytes) returns (reason: Option<Bytes>)
    ensures rest == Code(rest) + ReasonText(reason)
  {
    hide FindFrom;
    var end := FindFrom(rest, [SPACE], 0);
    if end.Some? {
      SpaceSplits(rest, end.value);
      reason := Some(rest[end.value + 1..]);
      assert rest == rest[..end.value] + ([SPACE] + rest[end.value + 1..]);
    } else {
      reason := None;
      assert rest + [] == rest;
    }
  }

  // ---------------------------------------------------------------- the header lines

  lemma HeaderLineIsText(headers: Headers, line: Bytes) returns (h: HeaderLine)
    requires AddHeaderLine(headers, line).Some?
    ensures ValidHeader(h) && line == HeaderText(h) && Lower(h.name) !in headers
    ensures AddHeaderLine(headers, line).value == headers[Lower(h.name) := Trim(h.value)]
  {
    hide FindFrom, Token, ValueBytesOk, Lower, Trim;
    var at := FindFrom(line, [COLON], 0).value;
    assert line[at..at + 1] == [COLON];
    h := HeaderLine(line[..at], line[at + 1..]);
    assert line == line[..at] + [line[at]] + line[at + 1..];
  }

  /** The lines read from position `i` on are header lines with new names. */
  lemma {:induction false} HeaderLinesAreText(before: seq<HeaderLine>, lines: seq<Bytes>) returns (hs: seq<HeaderLine>)
    requires ValidHeaders(before) && forall i :: 0 <= i < |lines| ==> lines[i] != []
    requires AddHeaderLines(Meaning(before), lines + [[], []]).Some?
    ensures ValidHeaders(hs) && |hs| == |before| + |lines| && hs[..|before|] == before
    ensures forall i :: 0 <= i < |lines| ==> lines[i] == HeaderText(hs[|before| + i])
    ensures AddHeaderLines(Meaning(before), lines + [[], []]) == Some(Meaning(hs))
    decreases |lines|
  {
    hide Lower, Trim, ValidHeader, ValidHeaders, HeaderText, Meaning, AddHeaderLine, AddHeaderLines;
    if lines == [] {
      hs := before;
      assert lines + [[], []] == [[], []];
      EmptyLinesAddNothing(Meaning(before));
    } else {
      FirstLineAdds(Meaning(before), lines);
      var h := HeaderLineIsText(Meaning(before), lines[0]);
      NewNameIsNew(before, h);
      hs := HeaderLinesAreText(before + [h], lines[1..]);
      OneMoreLine(before, h, hs, lines);
    }
  }

  lemma FirstLineAdds(headers: Headers, lines: seq<Bytes>)
    requires lines != [] && lines[0] != []
    ensures AddHeaderLines(headers, lines + [[], []])
         == match AddHeaderLine(headers, lines[0])
            case None => None
            case Some(added) => AddHeaderLines(added, lines[1..] + [[], []])
  {
    hide AddHeaderLine;
    var all := lines + [[], []];
    assert all[1..] == lines[1..] + [[], []];
  }

  lemma OneMoreLine(before: seq<HeaderLine>, h: HeaderLine, hs: seq<HeaderLine>, lines: seq<Bytes>)
    requires lines != [] && lines[0] == HeaderText(h)
    requires |hs| == |before| + |lines| && hs[..|before| + 1] == before + [h]
    requires forall i :: 0 <= i < |lines[1..]| ==> lines[1..][i] == HeaderText(hs[|before| + 1 + i])
    ensures hs[..|before|] == before && forall i :: 0 <= i < |lines| ==> lines[i] == HeaderText(hs[|before| + i])
  {
    hide HeaderText;
    assert hs[..|before|] == hs[..|before| + 1][..|before|];
    forall i | 0 <= i < |lines| ensures lines[i] == HeaderText(hs[|before| + i]) {
      if i == 0 { assert hs[|before|] == hs[..|before| + 1][|before|]; }
      else { assert lines[i] == lines[1..][i - 1]; }
    }
  }

  lemma NewNameIsNew(before: seq<HeaderLine>, h: HeaderLine)
    requires ValidHeaders(before) && ValidHeader(h) && Lower(h.name) !in Meaning(before)
    ensures ValidHeaders(before + [h]) && Meaning(before + [h]) == Meaning(before)[Lower(h.name) := Trim(h.value)]
  {
    hide Lower, Trim, ValidHeader;
    var more := before + [h];
    assert more[..|more| - 1] == before;
    hide Meaning;
    forall i | 0 <= i < |before| ensures Lower(before[i].name) != Lower(h.name) { NamesAreMeant(before, i); }
  }

  lemma {:induction false} NamesAreMeant(hs: seq<HeaderLine>, i: nat)
    requires i < |hs|
    ensures Lower(hs[i].name) in Meaning(hs)
  {
    hide Lower, Trim;
    if i < |hs| - 1 { NamesAreMeant(hs[..|hs| - 1], i); }
  }

  // ---------------------------------------------------------------- header values

  /** White space characters and nothing else, read from the front, and from the back. */
  predicate SpacesOnly(text: Bytes) { text == [] || (LeadingSpace(text) > 0 && SpacesOnly(text[LeadingSpace(text)..])) }

  predicate SpacesOnlyBack(text: Bytes) {
    text == [] || (TrailingSpace(text) > 0 && SpacesOnlyBack(text[..|text| - TrailingSpace(text)]))
  }

  lemma {:induction false} StartIsSpaces(text: Bytes) returns (a: nat)
    ensures a <= |text| && TrimStart(text) == text[a..] && SpacesOnly(text[..a]) && LeadingSpace(text[a..]) == 0
    decreases |text|
  {
    hide LeadingSpace;
    var w := LeadingSpace(text);
    a := 0;
    if w == 0 {
      assert text[0..] == text;
    } else {
      a := StartIsSpaces(text[w..]);
      a := a + w;
      var cut := text[..a];
      SpaceOfPrefix(text, a);
      assert cut[w..] == text[w..][..a - w];
    }
  }

  lemma SpaceOfPrefix(text: Bytes, n: nat)
    requires n <= |text|
    ensures LeadingSpace(text) <= n ==> LeadingSpace(text[..n]) == LeadingSpace(text)
    ensures LeadingSpace(text) == 0 ==> LeadingSpace(text[..n]) == 0
  {
  }

  lemma {:induction false} EndIsSpaces(text: Bytes) returns (b: nat)
    ensures b <= |text| && TrimEnd(text) == text[..b] && SpacesOnlyBack(text[b..]) && TrailingSpace(text[..b]) == 0
    decreases |text|
  {
    hide TrailingSpace;
    var w, n := TrailingSpace(text), |text|;
    b := n;
    if w == 0 {
      assert text[..n] == text;
    } else {
      b := EndIsSpaces(text[..n - w]);
      var cut := text[b..];
      SpaceOfSuffix(text, b);
      assert cut[..|cut| - w] == text[..n - w][b..];
      assert text[..n - w][..b] == text[..b];
    }
  }

  lemma SpaceOfSuffix(text: Bytes, n: nat)
    requires n <= |text|
    ensures TrailingSpace(text) <= |text| - n ==> TrailingSpace(text[n..]) == TrailingSpace(text)
  {
  }

  /** Names are told apart without regard to the case of their letters: only capital letters are lowered. */
  lemma LowerIsExact(text: Bytes, i: nat)
    requires i < |text|
    ensures |Lower(text)| == |text|
    ensures Lower(text)[i] == if 65 <= text[i] <= 90 then text[i] + 32 else text[i]
  {
  }

  /** A header value is trimmed of the white space at both ends, all of it, and of nothing else. */
  lemma TrimIsExact(text: Bytes) returns (a: nat, b: nat)
    ensures a <= b <= |text| && Trim(text) == text[a..b] && SpacesOnly(text[..a]) && SpacesOnlyBack(text[b..])
    ensures LeadingSpace(Trim(text)) == 0 && TrailingSpace(Trim(text)) == 0
  {
    hide LeadingSpace, TrailingSpace;
    a := StartIsSpaces(text);
    var n := EndIsSpaces(text[a..]);
    b := a + n;
    assert text[a..][..n] == text[a..b] && text[a..][n..] == text[b..];
    SpaceOfPrefix(text[a..], n);
  }

  // ---------------------------------------------------------------- the lines of a block

  /** A block that ends at its first empty line is its lines, none of them empty but possibly the first. */
  lemma {:induction false} BlockIsLines(bytes: Bytes) returns (lines: seq<Bytes>)
    requires |bytes| >= 4 && FindFrom(bytes, CRLF_CRLF, 0) == Some(|bytes| - 4)
    ensures lines != [] && SplitLines(bytes) == lines + [[], []] && bytes == WireLines(lines)
    ensures forall i :: 0 <= i < |lines| ==> NoLineEnd(lines[i])
    ensures forall i :: 1 <= i < |lines| ==> lines[i] != []
    ensures lines[0] == [] ==> bytes[..2] == CRLF
    decreases |bytes|
  {
    hide FindFrom, SplitLines, NoLineEnd;
    FirstLineEnd(bytes);
    var at := FindFrom(bytes, CRLF, 0).value;
    var rest := bytes[at + 2..];
    assert bytes == bytes[..at] + CRLF + rest;
    UnfoldSplit(bytes, at);
    if at == |bytes| - 4 {
      assert rest == CRLF;
      EndSplits();
      lines := [bytes[..at]];
      assert SplitLines(bytes) == lines + [[], []];
      assert lines[1..] == [];
      assert WireLines(lines) == lines[0] + CRLF + CRLF;
    } else {
      var more := BlockIsLines(rest);
      lines := [bytes[..at]] + more;
      assert lines[1..] == more;
      assert SplitLines(bytes) == lines + [[], []];
      NotEmptyAfter(bytes, at, more);
    }
  }

  /** The first line end comes no later than the end of the block, and what follows it is a block again. */
  lemma FirstLineEnd(bytes: Bytes)
    requires |bytes| >= 4 && FindFrom(bytes, CRLF_CRLF, 0) == Some(|bytes| - 4)
    ensures FindFrom(bytes, CRLF, 0).Some? && var at := FindFrom(bytes, CRLF, 0).value;
            && at <= |bytes| - 4 && bytes[at..at + 2] == CRLF && NoLineEnd(bytes[..at])
            && (at == |bytes| - 4 ==> bytes[at + 2..] == CRLF)
            && (at < |bytes| - 4 ==>
                  && |bytes[at + 2..]| >= 4 && FindFrom(bytes[at + 2..], CRLF_CRLF, 0) == Some(|bytes[at + 2..]| - 4)
                  && bytes[at + 2..][..2] != CRLF)
  {
    hide FindFrom;
    var end := |bytes| - 4;
    assert MatchesAt(bytes, CRLF_CRLF, end);
    DoubleEnd(bytes, end);
    assert MatchesAt(bytes, CRLF, end);
    var at := FindFrom(bytes, CRLF, 0).value;
    assert MatchesAt(bytes, CRLF, at);
    SingleEnd(bytes, at);
    NoEndBefore(bytes, at);
    if at < end { BlockGoesOn(bytes, at); }
  }

  lemma SingleEnd(bytes: Bytes, at: nat)
    requires at + 2 <= |bytes| && bytes[at..at + 2] == CRLF
    ensures bytes[at] == CR && bytes[at + 1] == LF
  {
    assert bytes[at] == bytes[at..at + 2][0] && bytes[at + 1] == bytes[at..at + 2][1];
  }

  /** An empty line is two line ends in a row. */
  lemma DoubleEnd(bytes: Bytes, at: nat)
    requires at + 4 == |bytes| && bytes[at..at + 4] == CRLF_CRLF
    ensures bytes[at..at + 2] == CRLF && bytes[at + 2..] == CRLF && bytes[at] == CR && bytes[at + 1] == LF && bytes[at + 2] == CR
  {
    var end := bytes[at..at + 4];
    assert bytes[at] == end[0] && bytes[at + 1] == end[1] && bytes[at + 2] == end[2] && bytes[at + 3] == end[3];
  }

  lemma NoEndBefore(bytes: Bytes, at: nat)
    requires at <= |bytes| && forall k :: 0 <= k < at ==> !MatchesAt(bytes, CRLF, k)
    ensures NoLineEnd(bytes[..at])
  {
    forall k | 0 <= k && k + 1 < at ensures bytes[k] != CR || bytes[k + 1] != LF {
      var pair := bytes[k..k + 2];
      assert !MatchesAt(bytes, CRLF, k) && pair == [bytes[k], bytes[k + 1]];
    }
  }

  lemma BlockGoesOn(bytes: Bytes, at: nat)
    requires |bytes| >= 4 && FindFrom(bytes, CRLF_CRLF, 0) == Some(|bytes| - 4)
    requires at + 2 <= |bytes| - 4 && bytes[at..at + 2] == CRLF
    ensures var rest := bytes[at + 2..];
            |rest| >= 4 && FindFrom(rest, CRLF_CRLF, 0) == Some(|rest| - 4) && rest[..2] != CRLF
  {
    var rest := bytes[at + 2..];
    var end := |bytes| - 4;
    forall k | 0 <= k < |rest| - 4 ensures !MatchesAt(rest, CRLF_CRLF, k) {
      assert rest[k..k + 4] == bytes[at + 2 + k..at + 2 + k + 4];
      assert !MatchesAt(bytes, CRLF_CRLF, at + 2 + k);
    }
    assert rest[|rest| - 4..|rest| - 4 + 4] == bytes[end..end + 4];
    FindIs(rest, CRLF_CRLF, 0, |rest| - 4);
    if rest[..2] == CRLF { TwoLineEnds(bytes, at); }
  }

  lemma TwoLineEnds(bytes: Bytes, at: nat)
    requires at + 4 <= |bytes| && bytes[at..at + 2] == CRLF && bytes[at + 2..][..2] == CRLF
    ensures MatchesAt(bytes, CRLF_CRLF, at)
  {
    assert bytes[at..at + 4] == bytes[at..at + 2] + bytes[at + 2..][..2];
  }

  lemma UnfoldSplit(text: Bytes, at: nat)
    requires FindFrom(text, CRLF, 0) == Some(at) && at + 2 <= |text|
    ensures SplitLines(text) == [text[..at]] + SplitLines(text[at + 2..])
  {
  }

  lemma EndSplits()
    ensures SplitLines(CRLF) == [[], []]
  {
    assert CRLF == [] + CRLF + [];
    SplitFirst([], []);
    assert SplitLines([]) == [[]] by { assert FindFrom([], CRLF, 0) == None; }
  }

  lemma NotEmptyAfter(bytes: Bytes, at: nat, more: seq<Bytes>)
    requires at + 4 <= |bytes| && bytes[at..at + 2] == CRLF && bytes[at + 2..][..2] != CRLF
    requires more != [] && (more[0] == [] ==> bytes[at + 2..][..2] == CRLF)
    ensures more[0] != [] && (bytes[..at] == [] ==> bytes[..2] == CRLF)
  {
  }

  // ---------------------------------------------------------------- the header block

  /** The parser accepts exactly the header blocks a sender may send, and takes from each what it means. */
  lemma HeadAcceptedExactly(bytes: Bytes, head: Head)
    requires HeaderEnd(bytes) == Some(|bytes|)
    ensures ParseHead(bytes) == Ok(head)
       <==> exists start, hs :: ValidHead(start, hs) && bytes == WireHead(start, hs) && head == Head(start.status, Meaning(hs))
  {
    hide ParseHead, ValidHead, WireHead, Meaning, HeaderEnd;
    if ParseHead(bytes) == Ok(head) { var start, hs := AcceptedHeadIsSent(bytes); }
    if start, hs :| ValidHead(start, hs) && bytes == WireHead(start, hs) && head == Head(start.status, Meaning(hs)) {
      HeadRoundTrip(start, hs);
    }
  }

  lemma AcceptedHeadIsSent(bytes: Bytes) returns (start: StatusLine, hs: seq<HeaderLine>)
    requires HeaderEnd(bytes) == Some(|bytes|) && ParseHead(bytes).Ok?
    ensures ValidHead(start, hs) && bytes == WireHead(start, hs)
    ensures ParseHead(bytes) == Ok(Head(start.status, Meaning(hs)))
  {
    hide FindFrom, ParseStatusLine, ValidUtf8, NoLineEnd, StatusText, HeaderText, AddHeaderLines, Meaning, ValidHeader, SplitLines;
    var lines := BlockIsLines(bytes);
    var split := SplitLines(bytes);
    assert split[0] == lines[0] && split[1..] == lines[1..] + [[], []];
    start := StatusLineIsText(lines[0]);
    var none: seq<HeaderLine> := [];
    assert none[..0] == none;
    NoHeadersMeanNothing(none);
    hs := HeaderLinesAreText(none, lines[1..]);
    assert lines == [StatusText(start)] + HeaderTexts(hs);
  }

  // ---------------------------------------------------------------- chunks

  /** The first `k` bytes are the digits of `n`, and the line goes on after a semicolon or not at all. */
  predicate DigitsFirst(line: Bytes, k: nat, n: nat) {
    && 1 <= k <= |line| && DigitsOf(line[..k], 16) && NumberValue(line[..k], 16) == n
    && (k == |line| || line[k] == SEMICOLON)
  }

  /** A chunk line announces a size if and only if it is hexadecimal digits of that value, alone or before a
      semicolon and anything but control characters. */
  lemma SizeLineExactly(line: Bytes, n: nat)
    ensures ChunkSize(line) == Some(n)
       <==> && n <= USIZE_MAX && ValidUtf8(line) && (forall i :: 0 <= i < |line| ==> !IsControl(line[i]))
            && exists k :: 1 <= k <= |line| && DigitsFirst(line, k, n)
  {
    hide ValidUtf8, NumberValue, FindFrom;
    var size := SizeText(line);
    SizeTextFacts(line);
    if ChunkSize(line) == Some(n) {
      assert size[0] != 43;
      assert DigitsFirst(line, |size|, n);
    }
    if k :| 1 <= k <= |line| && DigitsFirst(line, k, n) {
      DigitsAreSizeText(line, k, n);
      assert size[0] != 43;
    }
  }

  function SizeText(line: Bytes): Bytes { match FindFrom(line, [SEMICOLON], 0) case None => line case Some(at) => line[..at] }

  lemma SizeTextFacts(line: Bytes)
    ensures var size := SizeText(line);
            && |size| <= |line| && line[..|size|] == size && (|size| == |line| || line[|size|] == SEMICOLON)
  {
    hide FindFrom;
    var end := FindFrom(line, [SEMICOLON], 0);
    if end.Some? { assert line[end.value..end.value + 1][0] == line[end.value]; }
  }

  lemma DigitsAreSizeText(line: Bytes, k: nat, n: nat)
    requires DigitsFirst(line, k, n)
    ensures SizeText(line) == line[..k]
  {
    hide FindFrom;
    forall j | 0 <= j < k ensures !MatchesAt(line, [SEMICOLON], j) {
      assert line[j..j + 1][0] == line[j] == line[..k][j];
      assert IsHexDigit(line[..k][j]);
    }
    if k < |line| {
      assert line[k..k + 1] == [SEMICOLON];
      FindIs(line, [SEMICOLON], 0, k);
    } else {
      assert line[..k] == line;
    }
  }

  /** What is decoded is an encoding, and the data is its own. */
  lemma {:induction false} DecodedIsEncoded(bytes: Bytes, cursor: nat, body: Bytes, limit: nat)
    returns (chunks: seq<WireChunk>, last: Bytes)
    requires cursor <= |bytes| && ChunksFrom(bytes, cursor, body, limit).Complete?
    ensures ValidChunks(chunks) && ChunkSize(last) == Some(0) && bytes[cursor..] == EncodeChunks(chunks, last)
    ensures ChunksFrom(bytes, cursor, body, limit) == Complete(body + DataOf(chunks))
    decreases |bytes| - cursor
  {
    hide FindFrom, ChunkSize, NextChunk;
    var at := ChunkLine(bytes, cursor, body, limit);
    var line := bytes[cursor..at];
    var step := NextChunk(bytes, cursor, body, limit);
    if step.Stop? {
      chunks, last := [], line;
      assert bytes[cursor..] == line + CRLF + CRLF;
      assert body + [] == body;
    } else {
      var rest;
      rest, last := DecodedIsEncoded(bytes, step.next, body + step.data, limit);
      chunks := [WireChunk(line, step.data)] + rest;
      assert chunks[1..] == rest;
      assert bytes[cursor..] == line + CRLF + step.data + CRLF + bytes[step.next..];
      assert (body + step.data) + DataOf(rest) == body + DataOf(chunks);
    }
  }

  lemma ChunkLine(bytes: Bytes, cursor: nat, body: Bytes, limit: nat) returns (at: nat)
    requires cursor <= |bytes|
    requires var step := NextChunk(bytes, cursor, body, limit); step.Advance? || (step.Stop? && step.outcome.Complete?)
    ensures cursor <= at <= |bytes| - 2 && bytes[at..at + 2] == CRLF && ChunkSize(bytes[cursor..at]).Some?
    ensures var step := NextChunk(bytes, cursor, body, limit);
            && (step.Stop? ==>
                  step.outcome == Complete(body) && ChunkSize(bytes[cursor..at]) == Some(0) && bytes[at + 2..] == CRLF)
            && (step.Advance? ==>
                  && step.data != [] && ChunkSize(bytes[cursor..at]) == Some(|step.data|)
                  && step.next == at + 2 + |step.data| + 2 <= |bytes|
                  && bytes[at + 2..at + 2 + |step.data|] == step.data && bytes[step.next - 2..step.next] == CRLF)
  {
    hide ChunkSize;
    at := FindFrom(bytes, CRLF, cursor).value;
  }

  /** The decoder gives a body for exactly the encodings of it that fit the limit. */
  lemma DecodedExactly(bytes: Bytes, data: Bytes, limit: nat)
    requires |bytes| <= USIZE_MAX
    ensures DecodeChunks(bytes, limit) == Complete(data)
       <==> |data| <= limit && exists chunks, last ::
              ValidChunks(chunks) && ChunkSize(last) == Some(0) && bytes == EncodeChunks(chunks, last) && data == DataOf(chunks)
  {
    hide ChunksFrom, ValidChunks, ChunkSize, EncodeChunks, DataOf;
    if DecodeChunks(bytes, limit) == Complete(data) {
      var chunks, last := DecodedIsEncoded(bytes, 0, [], limit);
      assert bytes[0..] == bytes && [] + DataOf(chunks) == DataOf(chunks);
      DecodedBodyWithinLimit(bytes, 0, [], limit);
    }
    if |data| <= limit {
      forall chunks, last | ValidChunks(chunks) && ChunkSize(last) == Some(0) && bytes == EncodeChunks(chunks, last) && data == DataOf(chunks)
        ensures DecodeChunks(bytes, limit) == Complete(data) {
        DecodeInvertsEncode(chunks, last, limit);
      }
    }
  }

  // ---------------------------------------------------------------- framing

  /** Neither a length nor a coding: the body ends where the connection does. */
  predicate AnnouncesClose(status: nat, headers: Headers) {
    status != 204 && status != 304 && CONTENT_LENGTH !in headers && TRANSFER_ENCODING !in headers
  }

  /** The framing that is accepted is the one announced; any other announcement is refused. */
  lemma FramingIsAnnounced(status: nat, headers: Headers)
    ensures FramingOf(Head(status, headers)) == Ok(Empty) <==> Announces(status, headers, NoBody)
    ensures forall data: Bytes :: |data| <= USIZE_MAX ==>
              (FramingOf(Head(status, headers)) == Ok(Length(|data|)) <==> Announces(status, headers, Sized(data)))
    ensures forall chunks, last :: ValidChunks(chunks) && ChunkSize(last) == Some(0) ==>
              (FramingOf(Head(status, headers)) == Ok(Chunked) <==> Announces(status, headers, InChunks(chunks, last)))
    ensures FramingOf(Head(status, headers)) == Ok(Close) <==> AnnouncesClose(status, headers)
  {
    hide FramingOf, Announces, ValidChunks, ChunkSize, AnnouncesClose;
    EmptyIsAnnounced(status, headers);
    forall data: Bytes | |data| <= USIZE_MAX
      ensures FramingOf(Head(status, headers)) == Ok(Length(|data|)) <==> Announces(status, headers, Sized(data)) {
      SizedIsAnnounced(status, headers, data);
    }
    forall chunks, last | ValidChunks(chunks) && ChunkSize(last) == Some(0)
      ensures FramingOf(Head(status, headers)) == Ok(Chunked) <==> Announces(status, headers, InChunks(chunks, last)) {
      ChunkedIsAnnounced(status, headers, chunks, last);
    }
    CloseIsAnnounced(status, headers);
  }

  lemma EmptyIsAnnounced(status: nat, headers: Headers)
    ensures FramingOf(Head(status, headers)) == Ok(Empty) <==> Announces(status, headers, NoBody)
  {
    hide DeclaredLength, IsNumber;
    LengthIsDeclared(headers);
    var declared := DeclaredLength(headers);
    if CONTENT_LENGTH in headers && declared.Ok? { assert declared == Ok(Some(declared.value.value)); }
  }

  lemma SizedIsAnnounced(status: nat, headers: Headers, data: Bytes)
    requires |data| <= USIZE_MAX
    ensures FramingOf(Head(status, headers)) == Ok(Length(|data|)) <==> Announces(status, headers, Sized(data))
  {
    hide DeclaredLength, IsNumber;
    LengthIsDeclared(headers);
  }

  lemma ChunkedIsAnnounced(status: nat, headers: Headers, chunks: seq<WireChunk>, last: Bytes)
    requires ValidChunks(chunks) && ChunkSize(last) == Some(0)
    ensures FramingOf(Head(status, headers)) == Ok(Chunked) <==> Announces(status, headers, InChunks(chunks, last))
  {
    hide DeclaredLength, ValidChunks, ChunkSize;
    LengthIsDeclared(headers);
  }

  lemma CloseIsAnnounced(status: nat, headers: Headers)
    ensures FramingOf(Head(status, headers)) == Ok(Close) <==> AnnouncesClose(status, headers)
  {
    hide DeclaredLength, IsNumber;
    LengthIsDeclared(headers);
  }

  /** The declared length is the number the header says; a text that is none is refused. */
  lemma LengthIsDeclared(headers: Headers)
    ensures CONTENT_LENGTH !in headers ==> DeclaredLength(headers) == Ok(None)
    ensures CONTENT_LENGTH in headers ==>
              forall n: nat :: DeclaredLength(headers) == Ok(Some(n)) <==> n <= USIZE_MAX && IsNumber(headers[CONTENT_LENGTH], n)
    ensures CONTENT_LENGTH in headers ==> DeclaredLength(headers) != Ok(None)
  {
    hide ParseUnsigned, NumberValue, DigitsOf;
    if CONTENT_LENGTH in headers { LengthExactly(headers[CONTENT_LENGTH]); }
  }

  lemma LengthExactly(text: Bytes)
    ensures text != [] && DigitsOf(text, 10) ==>
              && text[0] != 43
              && ParseUnsigned(text, 10, USIZE_MAX) == if NumberValue(text, 10) <= USIZE_MAX then Some(NumberValue(text, 10)) else None
  {
    hide NumberValue;
  }

  // ---------------------------------------------------------------- whole replies

  /** A message that says itself where it ends, and the reply it carries. */
  ghost predicate IsMessage(message: Bytes, response: Response) {
    exists start, hs, body ::
      && ValidHead(start, hs) && |WireHead(start, hs)| <= 16_384 && Announces(start.status, Meaning(hs), body)
      && message == WireHead(start, hs) + WireOf(body) && response == Response(start.status, Meaning(hs), Content(body))
  }

  /** A message that ends where the connection does. */
  ghost predicate IsCloseMessage(message: Bytes, response: Response) {
    exists start, hs, data ::
      && ValidHead(start, hs) && |WireHead(start, hs)| <= 16_384 && AnnouncesClose(start.status, Meaning(hs))
      && message == WireHead(start, hs) + data && response == Response(start.status, Meaning(hs), data)
  }

  lemma EndIsInside(raw: Bytes)
    requires HeaderEnd(raw).Some?
    ensures 4 <= HeaderEnd(raw).value <= |raw|
    ensures HeaderEnd(raw[..HeaderEnd(raw).value]) == HeaderEnd(raw)
  {
    var end := HeaderEnd(raw).value;
    var at := end - 4;
    assert raw[..end][at..at + 4] == raw[at..at + 4];
    forall k | 0 <= k < at ensures !MatchesAt(raw[..end], CRLF_CRLF, k) {
      assert raw[..end][k..k + 4] == raw[k..k + 4];
      assert !MatchesAt(raw, CRLF_CRLF, k);
    }
    FindIs(raw[..end], CRLF_CRLF, 0, at);
  }

  /** The head that a reply was parsed from. */
  lemma ParsedHeadIsSent(raw: Bytes, limit: nat) returns (start: StatusLine, hs: seq<HeaderLine>)
    requires HeaderEnd(raw).Some? && HeaderEnd(raw).value <= |raw| && HeadVerdict(raw, HeaderEnd(raw).value, limit).Ok?
    ensures var parsed := HeadVerdict(raw, HeaderEnd(raw).value, limit).value;
            && ValidHead(start, hs) && |WireHead(start, hs)| == HeaderEnd(raw).value == parsed.end <= MAX_HEADER_BYTES
            && raw == WireHead(start, hs) + raw[parsed.end..]
            && parsed.head == Head(start.status, Meaning(hs)) && FramingOf(parsed.head) == Ok(parsed.mode)
            && (parsed.mode.Length? ==> parsed.mode.n <= SaturatingSub(limit, parsed.end))
  {
    hide ParseHead, FramingOf, HeaderEnd, ValidHead, WireHead, Meaning;
    var end := HeaderEnd(raw).value;
    EndIsInside(raw);
    start, hs := AcceptedHeadIsSent(raw[..end]);
    assert raw == raw[..end] + raw[end..];
  }

  lemma DoneIsMessage(raw: Bytes, limit: nat)
    requires Judge(raw, limit).Done?
    ensures IsMessage(raw, Judge(raw, limit).response)
  {
    hide ValidHead, WireHead, WireOf, Content, Meaning, FramingOf, DecodeChunks, Announces, HeadVerdict, HeaderEnd;
    HeaderEndBound(raw);
    var start, hs := ParsedHeadIsSent(raw, limit);
    var parsed := HeadVerdict(raw, HeaderEnd(raw).value, limit).value;
    var body := DoneBody(start.status, Meaning(hs), parsed, raw, limit);
  }

  lemma DoneBody(status: nat, headers: Headers, parsed: Parsed, raw: Bytes, limit: nat) returns (body: WireBody)
    requires parsed.end <= |raw| && BodyVerdict(parsed, raw, limit).Done?
    requires parsed.head == Head(status, headers) && FramingOf(parsed.head) == Ok(parsed.mode)
    ensures Announces(status, headers, body) && raw[parsed.end..] == WireOf(body)
    ensures BodyVerdict(parsed, raw, limit).response == Response(status, headers, Content(body))
  {
    hide FramingOf, DecodeChunks, EncodeChunks, Announces, ValidChunks, ChunkSize, DataOf;
    var rest := raw[parsed.end..];
    FramingIsAnnounced(status, headers);
    match parsed.mode {
      case Empty => body := NoBody;
      case Length(n) =>
        body := Sized(rest);
        LengthFits(parsed.head);
      case Chunked =>
        DecodedFromStart(rest, limit);
        var chunks, last := DecodedIsEncoded(rest, 0, [], limit);
        assert rest[0..] == rest && [] + DataOf(chunks) == DataOf(chunks);
        body := InChunks(chunks, last);
    }
  }

  lemma DecodedFromStart(bytes: Bytes, limit: nat)
    ensures DecodeChunks(bytes, limit) == ChunksFrom(bytes, 0, [], limit)
  {
  }

  lemma LengthFits(head: Head)
    requires FramingOf(head).Ok? && FramingOf(head).value.Length?
    ensures FramingOf(head).value.n <= USIZE_MAX
  {
  }

  lemma MessageIsDone(message: Bytes, response: Response, limit: nat)
    requires IsMessage(message, response) && |message| <= limit <= USIZE_MAX
    ensures Judge(message, limit) == Done(response) && message != []
  {
    hide ValidHead, WireHead, Meaning, Announces, WireOf, Content, Judge;
    var start, hs, body :|
      && ValidHead(start, hs) && |WireHead(start, hs)| <= 16_384 && Announces(start.status, Meaning(hs), body)
      && message == WireHead(start, hs) + WireOf(body) && response == Response(start.status, Meaning(hs), Content(body));
    MessageRoundTrip(start, hs, body, limit);
    assert message[..|message|] == message;
    CompleteIsNotEmpty(message, |message|, limit);
  }

  /** Bytes under a header that announces a close never decide anything. */
  lemma CloseNeedsMore(start: StatusLine, hs: seq<HeaderLine>, data: Bytes, limit: nat)
    requires ValidHead(start, hs) && |WireHead(start, hs)| <= MAX_HEADER_BYTES && AnnouncesClose(start.status, Meaning(hs))
    ensures var end := |WireHead(start, hs)|;
            Judge(WireHead(start, hs) + data, limit) == NeedMore(Some(Parsed(end, Head(start.status, Meaning(hs)), Close)))
  {
    hide ValidHead, WireHead, Meaning, ParseHead, FramingOf, HeaderEnd, Announces;
    var raw, end := WireHead(start, hs) + data, |WireHead(start, hs)|;
    HeadRoundTrip(start, hs);
    HeadBoundary(start, hs, data);
    FramingIsAnnounced(start.status, Meaning(hs));
    assert raw[..end] == WireHead(start, hs);
  }

  /** A reply delimited by the close of the connection, split and interrupted in any way: a clean close gives
      everything after the header block as the body, and any other ending or an overrun of the limit is an error. */
  lemma CloseDelimitedIsReceived(
    start: StatusLine, hs: seq<HeaderLine>, data: Bytes, limit: nat, events: seq<Event>, ending: Ending)
    requires ValidHead(start, hs) && |WireHead(start, hs)| <= MAX_HEADER_BYTES && AnnouncesClose(start.status, Meaning(hs))
    requires Payload(events) == WireHead(start, hs) + data
    ensures var answer := ReadFrom([], events, ending, limit).answer;
            if ending.Eof? && |WireHead(start, hs) + data| <= limit
            then answer == Ok(Response(start.status, Meaning(hs), data)) else answer.Err?
  {
    hide Judge, ValidHead, WireHead, Meaning, AnnouncesClose, ReadFrom;
    var message := WireHead(start, hs) + data;
    CloseNeedsMore(start, hs, data, limit);
    forall m | 0 <= m <= |message| ensures !Judge(message[..m], limit).Done? { CloseIsNeverDone(message, m, limit); }
    NoCompletePrefix(events, ending, limit);
    assert message[|WireHead(start, hs)|..] == data;
  }

  lemma CloseIsNeverDone(message: Bytes, m: nat, limit: nat)
    requires m <= |message| && Judge(message, limit).NeedMore?
    ensures !Judge(message[..m], limit).Done?
  {
    hide HeaderEnd, HeadVerdict, BodyVerdict;
    assert message[..|message|] == message;
    if m < |message| && Judge(message[..m], limit).Done? { FailsAfter(message, m, |message|, limit); }
  }

  /** A stream that ends inside the header block is refused, whatever the block announces. */
  lemma CutHeadIsRejected(start: StatusLine, hs: seq<HeaderLine>, k: nat, limit: nat, events: seq<Event>, ending: Ending)
    requires ValidHead(start, hs) && k < |WireHead(start, hs)| && Payload(events) == WireHead(start, hs)[..k]
    ensures ReadFrom([], events, ending, limit).answer.Err?
  {
    hide ValidHead, WireHead, HeaderEnd, HeadVerdict, BodyVerdict, ReadFrom, Payload;
    var head := WireHead(start, hs);
    forall m | 0 <= m <= k ensures HeaderEnd(head[..k][..m]) == None {
      HeadBoundary(start, hs, []);
      assert head + [] == head && head[..k][..m] == head[..m] && head[..m] + head[m..] == head;
      if HeaderEnd(head[..m]).Some? { HeaderEndExtends(head[..m], head[m..]); }
    }
    assert head[..k][..k] == head[..k];
    NoCompletePrefix(events, ending, limit);
  }

  /** The reader, exactly. It answers with a reply if and only if some read returns right at the end of a
      message that carries it and fits the limit, or the connection closes cleanly on a message that ends so. */
  lemma ReceivedExactly(events: seq<Event>, ending: Ending, limit: nat, response: Response)
    requires limit <= USIZE_MAX
    ensures ReadFrom([], events, ending, limit).answer == Ok(response)
       <==> || (exists m :: && 0 <= m <= |Payload(events)| && m <= limit && StopsAt(events, m)
                            && IsMessage(Payload(events)[..m], response))
            || (ending.Eof? && |Payload(events)| <= limit && IsCloseMessage(Payload(events), response))
  {
    hide Judge, ReadFrom, Payload, StopsAt, IsMessage, IsCloseMessage;
    if ReadFrom([], events, ending, limit).answer == Ok(response) { AcceptedIsMessage(events, ending, limit); }
    forall m | 0 <= m <= |Payload(events)| && m <= limit && StopsAt(events, m) && IsMessage(Payload(events)[..m], response)
      ensures ReadFrom([], events, ending, limit).answer == Ok(response) {
      MessageIsDone(Payload(events)[..m], response, limit);
      CompletePrefixDecides(events, ending, limit, m, response);
    }
    if ending.Eof? && |Payload(events)| <= limit && IsCloseMessage(Payload(events), response) {
      CloseMessageIsAccepted(events, limit, response);
    }
  }

  lemma CloseMessageIsAccepted(events: seq<Event>, limit: nat, response: Response)
    requires |Payload(events)| <= limit && IsCloseMessage(Payload(events), response)
    ensures ReadFrom([], events, Eof, limit).answer == Ok(response)
  {
    hide ValidHead, WireHead, Meaning, AnnouncesClose, ReadFrom, Payload;
    var start, hs, data :|
      && ValidHead(start, hs) && |WireHead(start, hs)| <= MAX_HEADER_BYTES && AnnouncesClose(start.status, Meaning(hs))
      && Payload(events) == WireHead(start, hs) + data && response == Response(start.status, Meaning(hs), data);
    CloseDelimitedIsReceived(start, hs, data, limit, events, Eof);
  }

  lemma AcceptedIsMessage(events: seq<Event>, ending: Ending, limit: nat)
    requires ReadFrom([], events, ending, limit).answer.Ok?
    ensures var response := ReadFrom([], events, ending, limit).answer.value;
            || (exists m :: && 0 <= m <= |Payload(events)| && m <= limit && StopsAt(events, m)
                            && IsMessage(Payload(events)[..m], response))
            || (ending.Eof? && |Payload(events)| <= limit && IsCloseMessage(Payload(events), response))
  {
    hide Judge, ReadFrom, Payload, StopsAt, IsMessage, IsCloseMessage;
    var bytes := Payload(events);
    if m :| 0 <= m <= |bytes| && Judge(bytes[..m], limit).Done? {
      CompletePrefixDecides(events, ending, limit, m, Judge(bytes[..m], limit).response);
      DoneIsMessage(bytes[..m], limit);
    } else {
      NoCompletePrefix(events, ending, limit);
      ClosedIsMessage(bytes, limit);
    }
  }

  lemma ClosedIsMessage(bytes: Bytes, limit: nat)
    requires var verdict := Judge(bytes, limit); verdict.NeedMore? && verdict.parsed.Some? && verdict.parsed.value.mode.Close?
    ensures var parsed := Judge(bytes, limit).parsed.value;
            parsed.end <= |bytes| && IsCloseMessage(bytes, WithBody(parsed.head, bytes[parsed.end..]))
  {
    hide ValidHead, WireHead, Meaning, FramingOf, HeadVerdict, HeaderEnd, DecodeChunks, Announces, ValidChunks, ChunkSize;
    HeaderEndBound(bytes);
    var start, hs := ParsedHeadIsSent(bytes, limit);
    FramingIsAnnounced(start.status, Meaning(hs));
  }

  // ---------------------------------------------------------------- replies that break off

  /** What the reader says of a stream that ends before anything was decided: how much it had read, and, once the
      header block was there, the status and the length that a counted body would have had. */
  function BrokenOff(read: nat, parsed: Option<Parsed>, ending: Ending): HttpError {
    var status := if parsed.Some? then Some(parsed.value.head.status) else None;
    var expected := if parsed.Some? && parsed.value.mode.Length? && parsed.value.end + parsed.value.mode.n <= 0xFFFF_FFFF_FFFF_FFFF
                    then Some(parsed.value.end + parsed.value.mode.n) else None;
    match ending
    case Eof => HttpError(BodyStage, TruncatedResponse, read, expected, status)
    case Failure(kind) => HttpError(if parsed.Some? then BodyStage else HeadersStage, IoError(kind), read, expected, status)
  }

  lemma {:induction false} EndingDecidesFrom(raw: Bytes, events: seq<Event>, ending: Ending, limit: nat)
    requires |raw + Payload(events)| <= limit
    requires forall m :: |raw| <= m <= |raw + Payload(events)| ==> Judge((raw + Payload(events))[..m], limit).NeedMore?
    ensures ReadFrom(raw, events, ending, limit) == ReadFrom(raw + Payload(events), [], ending, limit)
    decreases |events|
  {
    hide Judge;
    var total := raw + Payload(events);
    assert total[..|raw|] == raw;
    if events == [] {
      assert total == raw;
    } else {
      PayloadHead(events, raw);
      if events[0].Interrupted? {
        EndingDecidesFrom(raw, events[1..], ending, limit);
      } else {
        EndingDecidesFrom(raw + events[0].bytes, events[1..], ending, limit);
      }
    }
  }

  /** A stream that ends before anything was decided: everything was read, and only a clean close after a header
      block that announces one is a reply; the error otherwise says what is known. */
  lemma EndingDecides(events: seq<Event>, ending: Ending, limit: nat)
    requires |Payload(events)| <= limit
    requires Judge(Payload(events), limit).NeedMore?
    ensures var parsed, r := Judge(Payload(events), limit).parsed, ReadFrom([], events, ending, limit);
            && r.unread == [] && r.endingRead
            && (ending.Eof? && parsed.Some? && parsed.value.mode.Close? ==> r.answer.Ok?)
            && (ending.Failure? || parsed == None || !parsed.value.mode.Close? ==>
                  r.answer == Err(BrokenOff(|Payload(events)|, parsed, ending)))
  {
    hide Judge;
    var all := Payload(events);
    assert [] + all == all && all[..|all|] == all;
    forall m | 0 <= m <= |all| ensures Judge(all[..m], limit).NeedMore? {
      if m < |all| && !Judge(all[..m], limit).NeedMore? { FailsAfter(all, m, |all|, limit); }
    }
    EndingDecidesFrom([], events, ending, limit);
  }

  /** A read that goes over the limit ends it there, whatever was to follow. */
  lemma OverrunIsRefused(raw: Bytes, events: seq<Event>, ending: Ending, limit: nat)
    requires Judge(raw, limit).NeedMore? && events != [] && events[0].Data? && |raw| + |events[0].bytes| > limit
    ensures var r := ReadFrom(raw, events, ending, limit);
            && r.unread == events[1..] && !r.endingRead && r.answer.Err?
            && r.answer.error.reason == ResponseTooLarge && r.answer.error.received == |raw|
  {
    hide Judge;
  }

  // ---------------------------------------------------------------- refusals

  /** Why an announcement is refused. */
  function Refusal(status: nat, headers: Headers): Reason {
    if CONTENT_LENGTH in headers && TRANSFER_ENCODING in headers then AmbiguousFraming
    else if CONTENT_LENGTH in headers && DeclaredLength(headers).Err? then InvalidContentLength
    else if status == 204 || status == 304 then InvalidBodylessFraming
    else UnsupportedTransferEncoding
  }

  lemma RefusalsAreNamed(status: nat, headers: Headers)
    ensures FramingOf(Head(status, headers)).Err? ==>
              FramingOf(Head(status, headers)).error == HttpError(HeadersStage, Refusal(status, headers), 0, None, None)
  {
  }
}
