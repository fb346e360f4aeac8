/** Reading server-sent events from chunks, against the whole byte stream. */
module SseReader {
  import opened Basics

  type Byte = b: int | 0 <= b < 256

  type Text = seq<Byte>

  const LF: Byte := 10
  const CR: Byte := 13
  const SPACE: Byte := 32
  const DATA: Text := [100, 97, 116, 97, 58]
  const DONE: Text := [91, 68, 79, 78, 69, 93]

  /** UTF-8 validity of a raw line, JSON parsing and JSON rendering, as given by the platform. */
  datatype Codec = Codec(utf8: Text -> bool, parse: Text -> Option<Json>, render: Json -> Text)

  /** The two lines of every stream that carry no JSON are valid UTF-8. */
  ghost predicate PlainFraming(c: Codec) {
    c.utf8([LF]) && c.utf8(DATA + [SPACE] + DONE + [LF])
  }

  /** One nonempty line of valid UTF-8 that does not begin with a space or read `[DONE]`. */
  predicate LineText(c: Codec, t: Text) {
    t != [] && t[0] != SPACE && LF !in t && CR !in t && t != DONE && c.utf8(DATA + [SPACE] + t + [LF])
  }

  /** The codec carries this event: its rendering is one line, which parses back to it. */
  predicate Carries(c: Codec, e: Json) {
    LineText(c, c.render(e)) && c.parse(c.render(e)) == Some(e)
  }

  /** It carries every event of the list, in frames no longer than `maxEvent`. */
  ghost predicate CarriesAll(c: Codec, events: seq<Json>, maxEvent: nat) {
    forall i :: 0 <= i < |events| ==> Carries(c, events[i]) && |EncodeEvent(c, events[i])| <= maxEvent
  }

  datatype Outcome = Finished | TooLarge | Incomplete | NotUtf8 | NotJson

  // ----- one line -----

  function StripEnd(line: Text): Text {
    if line != [] && (line[|line| - 1] == LF || line[|line| - 1] == CR) then StripEnd(line[..|line| - 1]) else line
  }

  function StripSpaces(t: Text): Text {
    if t != [] && t[0] == SPACE then StripSpaces(t[1..]) else t
  }

  function Join(lines: seq<Text>): Text {
    if lines == [] then [] else if |lines| == 1 then lines[0] else lines[0] + [LF] + Join(lines[1..])
  }

  /** The data lines of the event being collected, and the bytes seen since the last blank line. */
  datatype Partial = Partial(lines: seq<Text>, bytes: nat)

  const FRESH := Partial([], 0)

  datatype Step = Continue(next: Partial) | Emit(event: Json) | Stop(outcome: Outcome)

  /**
   * One line, after section 9.2.6 of the WHATWG HTML Living Standard, except that only LF and CRLF end a line, only
   * `data` fields count, and all leading spaces of a value are dropped.
   */
  function ReadLine(c: Codec, raw: Text, p: Partial, maxEvent: nat): Step {
    var bytes := p.bytes + |raw|;
    if bytes > maxEvent then Stop(TooLarge)
    else if !c.utf8(raw) then Stop(NotUtf8)
    else
      var line := StripEnd(raw);
      if line == [] then
        if p.lines == [] then Continue(FRESH)
        else
          var text := Join(p.lines);
          if text == DONE then Stop(Finished)
          else match c.parse(text)
            case None => Stop(NotJson)
            case Some(event) => Emit(event)
      else if DATA <= line then Continue(Partial(p.lines + [StripSpaces(line[5..])], bytes))
      else Continue(Partial(p.lines, bytes))
  }

  // ----- the reference reading of a whole stream -----

  function LineEnd(data: Text): (n: nat)
    requires LF in data
    ensures 0 < n <= |data| && data[n - 1] == LF
    ensures forall i :: 0 <= i < n - 1 ==> data[i] != LF
  {
    if data[0] == LF then 1 else 1 + LineEnd(data[1..])
  }

  /** Where reading the complete lines of some bytes ends: stopped, or waiting with an unfinished line. */
  datatype End = Stopped(outcome: Outcome) | Waiting(rest: Text, partial: Partial)

  function ReadLines(c: Codec, data: Text, p: Partial, maxEvent: nat): (seq<Json>, End)
    decreases |data|
  {
    if LF !in data then ([], Waiting(data, p))
    else
      var n := LineEnd(data);
      match ReadLine(c, data[..n], p, maxEvent)
      case Stop(outcome) => ([], Stopped(outcome))
      case Continue(next) => ReadLines(c, data[n..], next, maxEvent)
      case Emit(event) =>
        var (events, end) := ReadLines(c, data[n..], FRESH, maxEvent);
        ([event] + events, end)
  }

  function Verdict(end: End, maxEvent: nat): Outcome {
    match end
    case Stopped(outcome) => outcome
    case Waiting(rest, _) => if |rest| > maxEvent then TooLarge else Incomplete
  }

  /** What a stream means, chunks aside: its events and how it ended. */
  function Read(c: Codec, data: Text, maxEvent: nat): (seq<Json>, Outcome) {
    var (events, end) := ReadLines(c, data, FRESH, maxEvent);
    (events, Verdict(end, maxEvent))
  }

  function Concat(chunks: seq<Text>): Text {
    if chunks == [] then [] else chunks[0] + Concat(chunks[1..])
  }

  /** How many chunks arrive before their total exceeds the limit. */
  function Within(chunks: seq<Text>, limit: int): (k: nat)
    ensures k <= |chunks|
  {
    if chunks == [] || |chunks[0]| > limit then 0 else 1 + Within(chunks[1..], limit - |chunks[0]|)
  }

  // ----- reading in pieces -----

  /** Bytes after an unfinished line continue it; after a stop they are never looked at. */
  lemma {:induction false} ReadLinesAppend(c: Codec, a: Text, b: Text, p: Partial, maxEvent: nat)
    ensures var (events, end) := ReadLines(c, a, p, maxEvent);
      ReadLines(c, a + b, p, maxEvent) == match end
        case Stopped(_) => (events, end)
        case Waiting(rest, partial) =>
          var (more, final) := ReadLines(c, rest + b, partial, maxEvent);
          (events + more, final)
    decreases |a|
  {
    hide ReadLine;
    if LF !in a {
      var all := ReadLines(c, a + b, p, maxEvent).0;
      assert [] + all == all;
    } else {
      var n := LineEnd(a);
      LineEndUnique(a, b);
      var whole := a + b;
      assert whole[..n] == a[..n] && whole[n..] == a[n..] + b;
      hide LineEnd;
      match ReadLine(c, a[..n], p, maxEvent)
      case Stop(_) =>
      case Continue(next) => ReadLinesAppend(c, a[n..], b, next, maxEvent);
      case Emit(event) =>
        ReadLinesAppend(c, a[n..], b, FRESH, maxEvent);
        var (events, end) := ReadLines(c, a[n..], FRESH, maxEvent);
        if end.Waiting? {
          ConsAppend(event, events, ReadLines(c, end.rest + b, end.partial, maxEvent).0);
        }
    }
  }

  lemma ConsAppend<T>(x: T, a: seq<T>, b: seq<T>)
    ensures [x] + (a + b) == ([x] + a) + b
  {
  }

  lemma LineEndUnique(a: Text, b: Text)
    requires LF in a
    ensures LF in a + b && LineEnd(a + b) == LineEnd(a)
  {
    var n := LineEnd(a);
    assert (a + b)[n - 1] == LF;
  }

  lemma {:induction false} WaitingHasNoLine(c: Codec, data: Text, p: Partial, maxEvent: nat)
    ensures var end := ReadLines(c, data, p, maxEvent).1; end.Waiting? ==> LF !in end.rest
    decreases |data|
  {
    if LF in data {
      var n := LineEnd(data);
      match ReadLine(c, data[..n], p, maxEvent)
      case Stop(_) =>
      case Continue(next) => WaitingHasNoLine(c, data[n..], next, maxEvent);
      case Emit(_) => WaitingHasNoLine(c, data[n..], FRESH, maxEvent);
    }
  }

  /** An unfinished line already over the limit decides the outcome, whatever follows. */
  lemma OversizedLineDecides(c: Codec, line: Text, more: Text, p: Partial, maxEvent: nat)
    requires LF !in line && |line| > maxEvent
    ensures var (events, end) := ReadLines(c, line + more, p, maxEvent); events == [] && Verdict(end, maxEvent) == TooLarge
  {
  }

  /** One more chunk: reading resumes from the buffer, and a stop or an oversized buffer settles the whole stream. */
  lemma ChunkStep(c: Codec, seen: Text, raw: Text, rest: Text, events: seq<Json>, buffer: Text, p: Partial, maxEvent: nat)
    requires ReadLines(c, seen, FRESH, maxEvent) == (events, Waiting(buffer, p))
    ensures var (more, end) := ReadLines(c, buffer + raw, p, maxEvent);
      var (all, outcome) := Read(c, seen + raw + rest, maxEvent);
      && ReadLines(c, seen + raw, FRESH, maxEvent) == (events + more, end)
      && events <= all
      && (end.Stopped? ==> all == events + more && outcome == end.outcome)
      && (end.Waiting? && |end.rest| > maxEvent ==> all == events + more && outcome == TooLarge)
  {
    hide ReadLine, ReadLines;
    ReadLinesAppend(c, seen, raw, FRESH, maxEvent);
    ReadLinesAppend(c, seen + raw, rest, FRESH, maxEvent);
    var (more, end) := ReadLines(c, buffer + raw, p, maxEvent);
    if end.Waiting? {
      WaitingHasNoLine(c, buffer + raw, p, maxEvent);
      var (tail, final) := ReadLines(c, end.rest + rest, end.partial, maxEvent);
      assert events <= (events + more) + tail;
      if |end.rest| > maxEvent {
        OversizedLineDecides(c, end.rest, rest, end.partial, maxEvent);
        assert (events + more) + [] == events + more;
      }
    }
  }

  lemma WithinStep(chunks: seq<Text>, n: nat, limit: int)
    requires n < |chunks|
    ensures Within(chunks[n..], limit)
      == if |chunks[n]| > limit then 0 else 1 + Within(chunks[n + 1..], limit - |chunks[n]|)
  {
    assert chunks[n..][1..] == chunks[n + 1..];
  }

  lemma Associates<T>(a: seq<T>, b: seq<T>, c: seq<T>)
    ensures a + (b + c) == (a + b) + c
  {
  }

  lemma {:induction false} ConcatSplit(a: seq<Text>, b: seq<Text>)
    ensures Concat(a + b) == Concat(a) + Concat(b)
  {
    if a == [] {
      assert a + b == b;
    } else {
      var first, rest, tail := a[0], Concat(a[1..]), Concat(b);
      ConcatSplit(a[1..], b);
      assert (a + b)[0] == first && (a + b)[1..] == a[1..] + b;
      Associates(first, rest, tail);
    }
  }

  lemma ConcatParts(chunks: seq<Text>, n: nat, k: nat)
    requires n < k <= |chunks|
    ensures Concat(chunks[..n + 1]) == Concat(chunks[..n]) + chunks[n]
    ensures Concat(chunks[..k]) == Concat(chunks[..n]) + chunks[n] + Concat(chunks[n + 1..k])
  {
    TakeOneMore(chunks, n);
    ConcatSplit(chunks[..n], [chunks[n]]);
    assert Concat([chunks[n]]) == chunks[n] + Concat([]);
    ConcatSplit(chunks[..n + 1], chunks[n + 1..k]);
    assert chunks[..k] == chunks[..n + 1] + chunks[n + 1..k];
  }

  /** A stop, or an unfinished line over the limit, decides whatever follows. */
  lemma SettledEarly(c: Codec, seen: Text, more: Text, maxEvent: nat)
    ensures var (events, end) := ReadLines(c, seen, FRESH, maxEvent);
      var (read, final) := ReadLines(c, seen + more, FRESH, maxEvent);
      && (end.Stopped? ==> read == events && final == end)
      && (end.Waiting? && |end.rest| > maxEvent ==> read == events && Verdict(final, maxEvent) == TooLarge)
  {
    hide ReadLine, ReadLines;
    ReadLinesAppend(c, seen, more, FRESH, maxEvent);
    var (events, end) := ReadLines(c, seen, FRESH, maxEvent);
    if end.Waiting? && |end.rest| > maxEvent {
      WaitingHasNoLine(c, seen, FRESH, maxEvent);
      OversizedLineDecides(c, end.rest, more, end.partial, maxEvent);
      assert events + [] == events;
    }
  }

  lemma ReadNothing(c: Codec, maxEvent: nat)
    ensures ReadLines(c, [], FRESH, maxEvent) == ([], Waiting([], FRESH))
  {
  }

  class Reader {
    const codec: Codec
    const maxBytes: nat
    const maxEventBytes: nat

    constructor (codec: Codec, maxBytes: nat, maxEventBytes: nat)
      ensures this.codec == codec && this.maxBytes == maxBytes && this.maxEventBytes == maxEventBytes
    {
      this.codec, this.maxBytes, this.maxEventBytes := codec, maxBytes, maxEventBytes;
    }

    /**
     * Reads chunks (an empty read is the end of the response) until `[DONE]`, an error, or the end of the
     * response. Within the byte limit the result depends only on the bytes, not on how they were cut; past it
     * only the chunks before the limit are read, and unless they already end the stream it is too large.
     */
    method ReadAll(chunks: seq<Text>) returns (events: seq<Json>, outcome: Outcome)
      requires forall i :: 0 <= i < |chunks| ==> chunks[i] != []
      ensures var (all, end) := Read(codec, Concat(chunks), maxEventBytes);
        || (events == all && outcome == end)
        || (|Concat(chunks)| > maxBytes && outcome == TooLarge && events <= all)
      ensures var k := Within(chunks, maxBytes);
        var (read, end) := ReadLines(codec, Concat(chunks[..k]), FRESH, maxEventBytes);
        events == read && outcome == if end.Waiting? && k < |chunks| then TooLarge else Verdict(end, maxEventBytes)
    {
      var total, buffer: Text, partial := 0, [], FRESH;
      hide ReadLine, ReadLines, Within;
      ReadNothing(codec, maxEventBytes);
      events := [];
      ghost var seen: Text := [];
      ghost var k := Within(chunks, maxBytes);
      assert chunks[0..] == chunks && chunks[..0] == [];
      var next := 0;
      while next < |chunks|
        invariant 0 <= next <= k && k == next + Within(chunks[next..], maxBytes - total) && seen == Concat(chunks[..next])
        invariant Concat(chunks) == seen + Concat(chunks[next..]) && total == |seen|
        invariant ReadLines(codec, seen, FRESH, maxEventBytes) == (events, Waiting(buffer, partial))
        invariant LF !in buffer && |buffer| <= maxEventBytes
      {
        var raw := chunks[next];
        ghost var rest := Concat(chunks[next + 1..]);
        assert seen + Concat(chunks[next..]) == seen + raw + rest;
        ChunkStep(codec, seen, raw, rest, events, buffer, partial, maxEventBytes);
        WithinStep(chunks, next, maxBytes - total);
        total := total + |raw|;
        if total > maxBytes {
          return events, TooLarge;
        }
        ConcatParts(chunks, next, k);
        var stopped;
        events, buffer, partial, stopped := DrainLines(buffer + raw, partial, events);
        seen := seen + raw;
        SettledEarly(codec, seen, Concat(chunks[next + 1..k]), maxEventBytes);
        if stopped.Some? {
          return events, stopped.value;
        }
        if |buffer| > maxEventBytes {
          return events, TooLarge;
        }
        next := next + 1;
      }
      assert seen + [] == seen && chunks[..next] == chunks;
      return events, Incomplete;
    }

    /** The inner loop: takes the complete lines off the buffer, one at a time. */
    method DrainLines(data: Text, start: Partial, before: seq<Json>)
      returns (events: seq<Json>, buffer: Text, partial: Partial, stopped: Option<Outcome>)
      ensures var (more, end) := ReadLines(codec, data, start, maxEventBytes);
        && events == before + more
        && match end
           case Stopped(outcome) => stopped == Some(outcome)
           case Waiting(rest, p) => stopped == None && buffer == rest && partial == p && LF !in buffer
    {
      events, buffer, partial, stopped := before, data, start, None;
      while LF in buffer
        invariant before <= events
        invariant var (more, end) := ReadLines(codec, data, start, maxEventBytes);
          var (left, final) := ReadLines(codec, buffer, partial, maxEventBytes);
          before + more == events + left && final == end
        decreases |buffer|
      {
        var index := LineEnd(buffer);
        var line := buffer[..index];
        var step := ReadLine(codec, line, partial, maxEventBytes);
        buffer := buffer[index..];
        match step {
          case Stop(outcome) =>
            stopped := Some(outcome);
            return;
          case Continue(next) =>
            partial := next;
          case Emit(event) =>
            partial := FRESH;
            ghost var left := ReadLines(codec, buffer, FRESH, maxEventBytes).0;
            assert events + ([event] + left) == (events + [event]) + left;
            events := events + [event];
        }
      }
    }
  }

  // ----- encoding, and reading back what was encoded -----

  const DONE_FRAME: Text := DATA + [SPACE] + DONE + [LF, LF]

  /** The end marker is the string `[DONE]`, which is sent bare; everything else is sent as JSON. */
  const DONE_EVENT: Json := Str("[DONE]")

  function EncodeEvent(c: Codec, e: Json): Text {
    if e == DONE_EVENT then DONE_FRAME else DATA + [SPACE] + c.render(e) + [LF, LF]
  }

  function EncodeAll(c: Codec, events: seq<Json>): Text {
    if events == [] then [] else EncodeEvent(c, events[0]) + EncodeAll(c, events[1..])
  }

  /** The events a reader can return: those before the end marker. */
  function BeforeDone(events: seq<Json>): seq<Json> {
    if events == [] || events[0] == DONE_EVENT then [] else [events[0]] + BeforeDone(events[1..])
  }

  /** A data line followed by a blank line is read as exactly its payload. */
  lemma FrameLines(c: Codec, t: Text, more: Text, maxEvent: nat)
    requires t != [] && t[0] != SPACE && LF !in t && CR !in t
    requires c.utf8(DATA + [SPACE] + t + [LF]) && c.utf8([LF]) && |t| + 8 <= maxEvent
    ensures ReadLines(c, DATA + [SPACE] + t + [LF, LF] + more, FRESH, maxEvent)
      == ReadLines(c, [LF] + more, Partial([t], |t| + 7), maxEvent)
  {
    var line := DATA + [SPACE] + t + [LF];
    SplitFrame(DATA + [SPACE] + t, more);
    DataLine(c, t, maxEvent);
    FirstLineEnd(line, [LF] + more);
    hide ReadLine, StripEnd, StripSpaces;
  }

  lemma SplitFrame(head: Text, more: Text)
    ensures head + [LF, LF] + more == (head + [LF]) + ([LF] + more)
  {
  }

  /** A line that ends at its only LF is the first line of any continuation. */
  lemma FirstLineEnd(line: Text, more: Text)
    requires line != [] && line[|line| - 1] == LF && LF !in line[..|line| - 1]
    ensures LF in line + more && LineEnd(line + more) == |line|
    ensures (line + more)[..|line|] == line && (line + more)[|line|..] == more
  {
    var all := line + more;
    assert all[|line| - 1] == LF;
    forall i | 0 <= i < |line| - 1
      ensures all[i] != LF
    {
      assert line[..|line| - 1][i] == all[i];
    }
  }

  lemma DataLine(c: Codec, t: Text, maxEvent: nat)
    requires t != [] && t[0] != SPACE && LF !in t && CR !in t
    requires c.utf8(DATA + [SPACE] + t + [LF]) && |t| + 8 <= maxEvent
    ensures var line := DATA + [SPACE] + t + [LF];
      ReadLine(c, line, FRESH, maxEvent) == Continue(Partial([t], |t| + 7)) && LF !in line[..|line| - 1]
  {
    StripLine(t);
    var line := DATA + [SPACE] + t + [LF];
    assert line[..|line| - 1] == DATA + [SPACE] + t;
    assert [] + [t] == [t];
  }

  lemma StripLine(t: Text)
    requires t != [] && t[0] != SPACE && LF !in t && CR !in t
    ensures var line := StripEnd(DATA + [SPACE] + t + [LF]);
      line != [] && DATA <= line && StripSpaces(line[5..]) == t
  {
    var raw := DATA + [SPACE] + t + [LF];
    var line := DATA + [SPACE] + t;
    assert raw[..|raw| - 1] == line;
    assert line[|line| - 1] == t[|t| - 1];
    assert StripEnd(line) == line;
    assert line[5..] == [SPACE] + t;
    assert ([SPACE] + t)[1..] == t;
  }

  /** A blank line closes the collected event. */
  lemma BlankLine(c: Codec, more: Text, p: Partial, maxEvent: nat)
    ensures LineEnd([LF] + more) == 1
    ensures ([LF] + more)[..1] == [LF] && ([LF] + more)[1..] == more
    ensures StripEnd([LF]) == []
  {
  }

  lemma FrameIsRead(c: Codec, e: Json, more: Text, maxEvent: nat)
    requires PlainFraming(c) && Carries(c, e) && e != DONE_EVENT && |EncodeEvent(c, e)| <= maxEvent
    ensures var (events, end) := ReadLines(c, more, FRESH, maxEvent);
      ReadLines(c, EncodeEvent(c, e) + more, FRESH, maxEvent) == ([e] + events, end)
  {
    var t := c.render(e);
    FrameLines(c, t, more, maxEvent);
    BlankLine(c, more, Partial([t], |t| + 7), maxEvent);
  }

  lemma DoneIsRead(c: Codec, more: Text, maxEvent: nat)
    requires PlainFraming(c) && |DONE_FRAME| <= maxEvent
    ensures ReadLines(c, DONE_FRAME + more, FRESH, maxEvent) == ([], Stopped(Finished))
  {
    FrameLines(c, DONE, more, maxEvent);
    BlankLine(c, more, Partial([DONE], 13), maxEvent);
  }

  /**
   * Reading an encoded stream returns the events before the end marker, and finishes iff there is one. Only those
   * events need to be carried by the codec; what follows the marker is never looked at.
   */
  lemma {:induction false} RoundTrip(c: Codec, events: seq<Json>, maxEvent: nat)
    requires PlainFraming(c) && CarriesAll(c, BeforeDone(events), maxEvent)
    requires DONE_EVENT in events ==> |DONE_FRAME| <= maxEvent
    ensures Read(c, EncodeAll(c, events), maxEvent) == (BeforeDone(events), if DONE_EVENT in events then Finished else Incomplete)
  {
    hide PlainFraming, Carries;
    if events == [] {
      ReadNothing(c, maxEvent);
    } else {
      var rest := EncodeAll(c, events[1..]);
      if events[0] == DONE_EVENT {
        DoneIsRead(c, rest, maxEvent);
      } else {
        assert BeforeDone(events)[0] == events[0] && BeforeDone(events)[1..] == BeforeDone(events[1..]);
        RoundTrip(c, events[1..], maxEvent);
        FrameIsRead(c, events[0], rest, maxEvent);
        hide ReadLines;
      }
    }
  }

  /** However the encoded stream is cut into chunks, the reader returns the original events. */
  method ReadBack(reader: Reader, chunks: seq<Text>, ghost original: seq<Json>) returns (events: seq<Json>, outcome: Outcome)
    requires PlainFraming(reader.codec) && CarriesAll(reader.codec, original, reader.maxEventBytes)
    requires DONE_EVENT !in original && forall i :: 0 <= i < |chunks| ==> chunks[i] != []
    requires Concat(chunks) == EncodeAll(reader.codec, original + [DONE_EVENT]) && |Concat(chunks)| <= reader.maxBytes
    requires |DONE_FRAME| <= reader.maxEventBytes
    ensures events == original && outcome == Finished
  {
    BeforeMarker(original, []);
    assert original + [DONE_EVENT] + [] == original + [DONE_EVENT];
    RoundTrip(reader.codec, original + [DONE_EVENT], reader.maxEventBytes);
    events, outcome := reader.ReadAll(chunks);
  }

  // ----- the hypotheses can be met -----

  const NULL_TEXT: Text := [110, 117, 108, 108]
  const TRUE_TEXT: Text := [116, 114, 117, 101]
  const FALSE_TEXT: Text := [102, 97, 108, 115, 101]

  /** A codec for the three JSON literals; it renders anything else as null. */
  const LITERALS := Codec(
    (t: Text) => true,
    (t: Text) => if t == NULL_TEXT then Some(Null) else if t == TRUE_TEXT then Some(Bool(true))
                 else if t == FALSE_TEXT then Some(Bool(false)) else None,
    (j: Json) => if j == Bool(true) then TRUE_TEXT else if j == Bool(false) then FALSE_TEXT else NULL_TEXT)

  /** Every list of literals meets them, and is read back whatever follows its end marker. */
  lemma LiteralsRoundTrip(events: seq<Json>, more: seq<Json>)
    requires forall i :: 0 <= i < |events| ==> events[i] in {Null, Bool(true), Bool(false)}
    ensures PlainFraming(LITERALS) && CarriesAll(LITERALS, events, 14)
    ensures Read(LITERALS, EncodeAll(LITERALS, events + [DONE_EVENT] + more), 14) == (events, Finished)
  {
    assert CarriesAll(LITERALS, events, 14);
    BeforeMarker(events, more);
    RoundTrip(LITERALS, events + [DONE_EVENT] + more, 14);
  }

  lemma {:induction false} BeforeMarker(events: seq<Json>, more: seq<Json>)
    requires DONE_EVENT !in events
    ensures BeforeDone(events + [DONE_EVENT] + more) == events
  {
    if events == [] {
    } else {
      assert (events + [DONE_EVENT] + more)[1..] == events[1..] + [DONE_EVENT] + more;
      BeforeMarker(events[1..], more);
    }
  }
}
