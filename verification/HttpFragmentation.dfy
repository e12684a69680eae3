/** What the incremental reader answers, for every way the bytes can arrive. */
module HttpFragmentation {
  import opened Results
  import opened HttpFraming

  /** All the bytes a script delivers. */
  function Payload(events: seq<Event>): Bytes {
    if events == [] then []
    else match events[0]
      case Interrupted => Payload(events[1..])
      case Data(d) => d + Payload(events[1..])
  }

  /** Some read call returns with exactly `k` bytes delivered so far. */
  predicate StopsAt(events: seq<Event>, k: nat) {
    exists j :: 0 <= j <= |events| && |Payload(events[..j])| == k
  }

  predicate StopsAtRec(events: seq<Event>, k: nat) {
    k == 0 || (events != [] && match events[0]
      case Interrupted => StopsAtRec(events[1..], k)
      case Data(d) => |d| <= k && StopsAtRec(events[1..], k - |d|))
  }

  lemma PayloadOfPrefix(events: seq<Event>, j: nat)
    requires 0 < j <= |events|
    ensures Payload(events[..j])
         == (match events[0] case Interrupted => [] case Data(d) => d) + Payload(events[1..][..j - 1])
  {
    assert events[..j][1..] == events[1..][..j - 1];
    assert events[..j][0] == events[0];
  }

  lemma {:induction false} StopsAtRecMeansStopsAt(events: seq<Event>, k: nat)
    ensures StopsAtRec(events, k) <==> StopsAt(events, k)
    decreases |events|
  {
    if k == 0 {
      assert |Payload(events[..0])| == 0;
    } else if events != [] {
      var here := match events[0] case Interrupted => 0 case Data(d) => |d|;
      if here <= k {
        StopsAtRecMeansStopsAt(events[1..], k - here);
        if StopsAt(events[1..], k - here) {
          var j :| 0 <= j <= |events[1..]| && |Payload(events[1..][..j])| == k - here;
          PayloadOfPrefix(events, j + 1);
          assert |Payload(events[..j + 1])| == k;
        }
      }
      if StopsAt(events, k) {
        var j :| 0 <= j <= |events| && |Payload(events[..j])| == k;
        PayloadOfPrefix(events, j);
        assert |Payload(events[1..][..j - 1])| == k - here;
      }
    }
  }

  lemma PayloadHead(events: seq<Event>, raw: Bytes)
    requires events != []
    ensures events[0].Interrupted? ==> raw + Payload(events) == raw + Payload(events[1..])
    ensures events[0].Data? ==> raw + Payload(events) == (raw + events[0].bytes) + Payload(events[1..])
  {
  }

  /** An undecided prefix: the reader has not decided before the point where a message completes. */
  lemma UndecidedBefore(total: Bytes, k: nat, m: nat, limit: nat)
    requires k < m <= |total| && Judge(total[..m], limit).Done?
    ensures Judge(total[..k], limit).NeedMore?
  {
    assert total[..m] == total[..k] + total[k..m];
    if !Judge(total[..k], limit).NeedMore? {
      DecisionsAreFinal(total[..k], total[k..m], limit);
    }
  }

  lemma FailsAfter(total: Bytes, m: nat, k: nat, limit: nat)
    requires m < k <= |total| && !Judge(total[..m], limit).NeedMore?
    ensures Judge(total[..k], limit).Fail?
  {
    assert total[..k] == total[..m] + total[m..k];
    DecisionsAreFinal(total[..m], total[m..k], limit);
  }

  lemma {:induction false} CompletePrefixDecidesFrom(
    raw: Bytes, events: seq<Event>, ending: Ending, limit: nat, m: nat, response: Response)
    requires |raw| <= m <= |raw + Payload(events)|
    requires Judge((raw + Payload(events))[..m], limit) == Done(response)
    ensures var r := ReadFrom(raw, events, ending, limit);
            if StopsAtRec(events, m - |raw|) && (m <= limit || m == |raw|)
            then r.answer == Ok(response) && !r.endingRead && Payload(r.unread) == (raw + Payload(events))[m..]
            else r.answer.Err?
    decreases |events|
  {
    hide Judge;
    var total := raw + Payload(events);
    assert total[..|raw|] == raw;
    if |raw| < m {
      UndecidedBefore(total, |raw|, m, limit);
      assert events != [];
      PayloadHead(events, raw);
      if events[0].Interrupted? {
        CompletePrefixDecidesFrom(raw, events[1..], ending, limit, m, response);
      } else {
        var d := events[0].bytes;
        if |raw| + |d| <= m {
          if |d| <= SaturatingSub(limit, |raw|) {
            CompletePrefixDecidesFrom(raw + d, events[1..], ending, limit, m, response);
          }
        } else {
          FailsAfter(total, m, |raw| + |d|, limit);
          assert total[..|raw| + |d|] == raw + d;
        }
      }
    }
  }

  lemma {:induction false} NoCompletePrefixFrom(raw: Bytes, events: seq<Event>, ending: Ending, limit: nat)
    requires |raw| <= limit
    requires forall m :: |raw| <= m <= |raw + Payload(events)| ==> !Judge((raw + Payload(events))[..m], limit).Done?
    ensures var total := raw + Payload(events);
            var verdict := Judge(total, limit);
            var answer := ReadFrom(raw, events, ending, limit).answer;
            if verdict.NeedMore? && verdict.parsed.Some? && verdict.parsed.value.mode.Close?
               && ending.Eof? && |total| <= limit
            then verdict.parsed.value.end <= |total|
                 && answer == Ok(WithBody(verdict.parsed.value.head, total[verdict.parsed.value.end..]))
            else answer.Err?
    decreases |events|
  {
    hide HeadVerdict, BodyVerdict, HeaderEnd;
    var total := raw + Payload(events);
    assert total[..|raw|] == raw && total[..|total|] == total;
    if Judge(raw, limit).Fail? {
      if |raw| < |total| { FailsAfter(total, |raw|, |total|, limit); }
      assert Judge(total, limit).Fail?;
    } else if events == [] {
      NeedMoreIsInRange(raw, limit);
    } else {
      PayloadHead(events, raw);
      if events[0].Interrupted? {
        NoCompletePrefixFrom(raw, events[1..], ending, limit);
      } else if |events[0].bytes| <= SaturatingSub(limit, |raw|) {
        NoCompletePrefixFrom(raw + events[0].bytes, events[1..], ending, limit);
      }
    }
  }

  lemma NeedMoreIsInRange(raw: Bytes, limit: nat)
    ensures Judge(raw, limit).NeedMore? && Judge(raw, limit).parsed.Some? ==> Judge(raw, limit).parsed.value.end <= |raw|
  {
    hide ParseHead, FramingOf, DecodeChunks;
    HeaderEndBound(raw);
  }

  /** The exact outcome when some prefix of the stream, `m` bytes long, is a complete message:
      it is accepted if and only if a read call returns exactly at its end (and it fits the limit),
      and then nothing beyond it has been read. Otherwise the answer is an error. */
  lemma CompletePrefixDecides(events: seq<Event>, ending: Ending, limit: nat, m: nat, response: Response)
    requires m <= |Payload(events)| && Judge(Payload(events)[..m], limit) == Done(response)
    ensures var r := ReadFrom([], events, ending, limit);
            && (r.answer.Ok? <==> StopsAt(events, m) && m <= limit)
            && (r.answer.Ok? ==> r.answer.value == response && !r.endingRead && Payload(r.unread) == Payload(events)[m..])
  {
    hide Judge, ReadFrom, Payload, StopsAt, StopsAtRec;
    assert [] + Payload(events) == Payload(events);
    StopsAtRecMeansStopsAt(events, m);
    CompleteIsNotEmpty(Payload(events), m, limit);
    CompletePrefixDecidesFrom([], events, ending, limit, m, response);
  }

  lemma CompleteIsNotEmpty(bytes: Bytes, m: nat, limit: nat)
    requires m <= |bytes| && Judge(bytes[..m], limit).Done?
    ensures m > 0
  {
    hide HeadVerdict, BodyVerdict;
    var nothing: Bytes := [];
    assert HeaderEnd(nothing) == None;
    assert bytes[..0] == nothing;
  }

  /** The exact outcome when no prefix of the stream is a complete message: only a reply delimited
      by a clean close is accepted, with everything after its header block as the body. */
  lemma NoCompletePrefix(events: seq<Event>, ending: Ending, limit: nat)
    requires forall m :: 0 <= m <= |Payload(events)| ==> !Judge(Payload(events)[..m], limit).Done?
    ensures var verdict := Judge(Payload(events), limit);
            var answer := ReadFrom([], events, ending, limit).answer;
            (answer.Ok? <==> verdict.NeedMore? && verdict.parsed.Some? && verdict.parsed.value.mode.Close?
                             && ending.Eof? && |Payload(events)| <= limit)
            && (answer.Ok? ==> verdict.parsed.value.end <= |Payload(events)|
                               && answer.value == WithBody(verdict.parsed.value.head, Payload(events)[verdict.parsed.value.end..]))
  {
    assert [] + Payload(events) == Payload(events);
    NoCompletePrefixFrom([], events, ending, limit);
  }

  /** A complete message is accepted with the same answer for every split into reads, every
      interruption and every way the connection ends; the ending itself is never waited for. */
  lemma CompleteMessageIsAccepted(message: Bytes, events: seq<Event>, ending: Ending, limit: nat, response: Response)
    requires Payload(events) == message && Judge(message, limit) == Done(response) && |message| <= limit
    ensures var r := ReadFrom([], events, ending, limit);
            r.answer == Ok(response) && !r.endingRead && Payload(r.unread) == []
  {
    assert message[..|message|] == message;
    assert events[..|events|] == events;
    assert StopsAt(events, |message|);
    CompletePrefixDecides(events, ending, limit, |message|, response);
  }

  /** A strict prefix of a complete message is never accepted, whatever ends the connection. */
  lemma TruncationIsRejected(message: Bytes, k: nat, events: seq<Event>, ending: Ending, limit: nat)
    requires k < |message| && Payload(events) == message[..k] && Judge(message, limit).Done?
    ensures ReadFrom([], events, ending, limit).answer.Err?
  {
    hide HeadVerdict, BodyVerdict;
    var part := message[..k];
    assert message[..|message|] == message;
    forall m | 0 <= m <= k ensures Judge(part[..m], limit).NeedMore? {
      UndecidedBefore(message, m, |message|, limit);
      assert part[..m] == message[..m];
    }
    NoCompletePrefix(events, ending, limit);
    assert part[..k] == part;
    if Judge(part, limit).parsed.Some? {
      ParsedHeadIsStable(part, message[k..], limit);
      assert part + message[k..] == message;
      CompletedModeIsDelimited(message, limit);
    }
  }

  /** A reply that can complete by itself is not delimited by the close of the connection. */
  lemma CompletedModeIsDelimited(message: Bytes, limit: nat)
    requires Judge(message, limit).Done?
    ensures HeaderEnd(message).Some? && HeaderEnd(message).value <= |message|
    ensures HeadVerdict(message, HeaderEnd(message).value, limit).Ok?
    ensures !HeadVerdict(message, HeaderEnd(message).value, limit).value.mode.Close?
  {
    hide ParseHead, FramingOf, DecodeChunks;
    HeaderEndBound(message);
  }

  /** Two streams with the same bytes and the same ending get the same success, provided no message
      completes strictly before the last byte (pipelined bytes are the one thing a split can expose). */
  lemma SplitDoesNotMatter(first: seq<Event>, second: seq<Event>, ending: Ending, limit: nat)
    requires Payload(first) == Payload(second)
    requires forall m :: 0 <= m < |Payload(first)| ==> !Judge(Payload(first)[..m], limit).Done?
    ensures var a := ReadFrom([], first, ending, limit).answer;
            var b := ReadFrom([], second, ending, limit).answer;
            a.Ok? == b.Ok? && (a.Ok? ==> a == b)
  {
    hide HeadVerdict, BodyVerdict, HeaderEnd, ReadFrom;
    var bytes := Payload(first);
    assert bytes[..|bytes|] == bytes;
    var verdict := Judge(bytes, limit);
    if verdict.Done? {
      assert first[..|first|] == first && second[..|second|] == second;
      assert StopsAt(first, |bytes|) && StopsAt(second, |bytes|);
      CompletePrefixDecides(first, ending, limit, |bytes|, verdict.response);
      CompletePrefixDecides(second, ending, limit, |bytes|, verdict.response);
    } else {
      NoCompletePrefix(first, ending, limit);
      NoCompletePrefix(second, ending, limit);
    }
  }
}
