/** Blocks of lines as any server may send them. */
module SseBlocks {
  import opened Basics
  import opened SseReader

  /**
   * One line of a block, with either line end: a data field with its value after any number of spaces, or anything
   * else that is not blank.
   */
  datatype Line = Line(isData: bool, spaces: nat, text: Text, crlf: bool)

  function Eol(crlf: bool): Text {
    if crlf then [13, 10] else [10]
  }

  function Spaces(n: nat): Text {
    seq(n, _ => 32)
  }

  /** The line without its end; `data:` is given by its bytes. */
  function Content(l: Line): Text {
    if l.isData then [100, 97, 116, 97, 58] + Spaces(l.spaces) + l.text else l.text
  }

  function Raw(l: Line): Text {
    Content(l) + Eol(l.crlf)
  }

  predicate Proper(l: Line) {
    && 10 !in l.text && (l.text != [] ==> l.text[|l.text| - 1] != 13)
    && if l.isData then l.text == [] || l.text[0] != 32 else l.text != [] && !([100, 97, 116, 97, 58] <= l.text)
  }

  function Bytes(lines: seq<Line>): Text {
    if lines == [] then [] else Raw(lines[0]) + Bytes(lines[1..])
  }

  function OwnValue(l: Line): seq<Text> {
    if l.isData then [l.text] else []
  }

  /** The values of the data lines, in order. */
  function Values(lines: seq<Line>): seq<Text> {
    if lines == [] then [] else OwnValue(lines[0]) + Values(lines[1..])
  }

  ghost predicate Readable(c: Codec, lines: seq<Line>) {
    forall i :: 0 <= i < |lines| ==> Proper(lines[i]) && c.utf8(Raw(lines[i]))
  }

  lemma StripOne(content: Text, b: Byte)
    requires b == LF || b == CR
    ensures StripEnd(content + [b]) == StripEnd(content)
  {
    assert (content + [b])[..|content|] == content;
  }

  lemma StripContent(content: Text, crlf: bool)
    requires content != [] ==> content[|content| - 1] != LF && content[|content| - 1] != CR
    ensures StripEnd(content + Eol(crlf)) == content
  {
    assert StripEnd(content) == content;
    hide StripEnd;
    if crlf {
      StripOne(content, CR);
      StripOne(content + [CR], LF);
      assert content + [CR, LF] == (content + [CR]) + [LF];
    } else {
      StripOne(content, LF);
    }
  }

  lemma {:induction false} StripValue(n: nat, t: Text)
    requires t == [] || t[0] != SPACE
    ensures StripSpaces(Spaces(n) + t) == t
  {
    if n == 0 {
      assert Spaces(n) + t == t;
    } else {
      StripValue(n - 1, t);
      assert (Spaces(n) + t)[1..] == Spaces(n - 1) + t;
    }
  }

  lemma ContentFacts(l: Line)
    requires Proper(l)
    ensures var content := Content(l);
      && content != [] && content[|content| - 1] != LF && content[|content| - 1] != CR && LF !in content
      && (DATA <= content <==> l.isData) && (l.isData ==> StripSpaces(content[5..]) == l.text)
  {
    hide StripSpaces;
    if l.isData {
      StripValue(l.spaces, l.text);
      DataContent(l.spaces, l.text);
    }
  }

  lemma DataContent(n: nat, t: Text)
    requires LF !in t && (t != [] ==> t[|t| - 1] != CR)
    ensures var content := DATA + Spaces(n) + t;
      && DATA <= content && content[5..] == Spaces(n) + t && LF !in content
      && content[|content| - 1] != LF && content[|content| - 1] != CR
  {
    var content := DATA + Spaces(n) + t;
    if t != [] {
      assert content[|content| - 1] == t[|t| - 1];
    } else if n > 0 {
      assert content[|content| - 1] == SPACE;
    }
  }

  /** A proper line ends at its only LF. */
  lemma RawFacts(l: Line)
    requires Proper(l)
    ensures var raw := Raw(l); raw != [] && raw[|raw| - 1] == LF && LF !in raw[..|raw| - 1] && StripEnd(raw) == Content(l)
  {
    ContentFacts(l);
    StripContent(Content(l), l.crlf);
    var raw := Raw(l);
    hide Content, StripEnd;
    assert raw[..|raw| - 1] == Content(l) + if l.crlf then [CR] else [];
  }

  /** It contributes its value if it is a data line. */
  lemma LineIsRead(c: Codec, l: Line, p: Partial, maxEvent: nat)
    requires Proper(l) && c.utf8(Raw(l)) && p.bytes + |Raw(l)| <= maxEvent
    ensures ReadLine(c, Raw(l), p, maxEvent) == Continue(Partial(p.lines + OwnValue(l), p.bytes + |Raw(l)|))
  {
    ContentFacts(l);
    RawFacts(l);
    hide Content, Raw, Proper, StripEnd, StripSpaces;
    assert p.lines + [] == p.lines;
  }

  lemma FirstLine(c: Codec, raw: Text, rest: Text, p: Partial, maxEvent: nat)
    requires raw != [] && raw[|raw| - 1] == LF && LF !in raw[..|raw| - 1]
    ensures var step, (events, end) := ReadLine(c, raw, p, maxEvent), ReadLines(c, rest, FRESH, maxEvent);
      ReadLines(c, raw + rest, p, maxEvent) == if step.Stop? then ([], Stopped(step.outcome))
        else if step.Continue? then ReadLines(c, rest, step.next, maxEvent)
        else ([step.event] + events, end)
  {
    FirstLineEnd(raw, rest);
    hide ReadLine, LineEnd;
  }

  function Taken(l: Line, p: Partial): Partial {
    Partial(p.lines + OwnValue(l), p.bytes + |Raw(l)|)
  }

  lemma HeadIsRead(c: Codec, l: Line, more: Text, p: Partial, maxEvent: nat)
    requires Proper(l) && c.utf8(Raw(l)) && p.bytes + |Raw(l)| <= maxEvent
    ensures ReadLines(c, Raw(l) + more, p, maxEvent) == ReadLines(c, more, Taken(l, p), maxEvent)
  {
    hide ReadLine, ReadLines, Raw, Proper;
    LineIsRead(c, l, p, maxEvent);
    RawFacts(l);
    FirstLine(c, Raw(l), more, p, maxEvent);
  }

  lemma {:induction false} LinesAreRead(c: Codec, lines: seq<Line>, rest: Text, p: Partial, maxEvent: nat)
    requires Readable(c, lines) && p.bytes + |Bytes(lines)| <= maxEvent
    ensures ReadLines(c, Bytes(lines) + rest, p, maxEvent)
      == ReadLines(c, rest, Partial(p.lines + Values(lines), p.bytes + |Bytes(lines)|), maxEvent)
  {
    hide ReadLines, Raw, Proper, OwnValue;
    if lines == [] {
      assert [] + rest == rest && p.lines + [] == p.lines;
    } else {
      var head, tail := lines[0], lines[1..];
      HeadIsRead(c, head, Bytes(tail) + rest, p, maxEvent);
      LinesAreRead(c, tail, rest, Taken(head, p), maxEvent);
      Regroup(Raw(head), Bytes(tail), rest);
      Regroup(p.lines, OwnValue(head), Values(tail));
    }
  }

  lemma Regroup<T>(a: seq<T>, b: seq<T>, c: seq<T>)
    ensures (a + b) + c == a + (b + c)
  {
  }

  /** Values are joined by line feeds alone. */
  lemma {:induction false} JoinMore(values: seq<Text>, last: Text)
    requires values != []
    ensures Join(values + [last]) == Join(values) + [10] + last && Join([last]) == last
  {
    var all := values + [last];
    if |values| == 1 {
      assert all[1..] == [last];
    } else {
      JoinMore(values[1..], last);
      assert all[1..] == values[1..] + [last];
    }
  }

  /**
   * A block of lines followed by a blank one is one event: the values of its data lines joined by line feeds, parsed,
   * or the end marker. Line ends, leading spaces and other fields make no difference; a block without data is nothing.
   */
  lemma BlockIsRead(c: Codec, lines: seq<Line>, crlf: bool, more: Text, maxEvent: nat)
    requires Readable(c, lines) && c.utf8(Eol(crlf)) && |Bytes(lines)| + |Eol(crlf)| <= maxEvent
    ensures var read := ReadLines(c, Bytes(lines) + Eol(crlf) + more, FRESH, maxEvent);
      var text, (events, end) := Join(Values(lines)), ReadLines(c, more, FRESH, maxEvent);
      read == if Values(lines) == [] then (events, end)
        else if text == [91, 68, 79, 78, 69, 93] then ([], Stopped(Finished))
        else if c.parse(text).None? then ([], Stopped(NotJson)) else ([c.parse(text).value] + events, end)
  {
    hide Join, Values, Bytes, Eol, Readable, ReadLines;
    var values, bytes := Values(lines), Bytes(lines);
    LinesAreRead(c, lines, Eol(crlf) + more, FRESH, maxEvent);
    assert bytes + (Eol(crlf) + more) == bytes + Eol(crlf) + more;
    assert FRESH.lines + values == values;
    BlankEnds(c, values, |bytes|, crlf, more, maxEvent);
  }

  lemma BlankEnds(c: Codec, values: seq<Text>, bytes: nat, crlf: bool, more: Text, maxEvent: nat)
    requires c.utf8(Eol(crlf)) && bytes + |Eol(crlf)| <= maxEvent
    ensures var read, text, (events, end) :=
        ReadLines(c, Eol(crlf) + more, Partial(values, bytes), maxEvent), Join(values), ReadLines(c, more, FRESH, maxEvent);
      read == if values == [] then (events, end)
        else if text == [91, 68, 79, 78, 69, 93] then ([], Stopped(Finished))
        else if c.parse(text).None? then ([], Stopped(NotJson)) else ([c.parse(text).value] + events, end)
  {
    BlankIsRead(c, crlf, more, Partial(values, bytes), maxEvent);
    hide Join, Eol, ReadLines;
    FirstLine(c, Eol(crlf), more, Partial(values, bytes), maxEvent);
  }

  lemma BlankIsRead(c: Codec, crlf: bool, more: Text, p: Partial, maxEvent: nat)
    requires c.utf8(Eol(crlf)) && p.bytes + |Eol(crlf)| <= maxEvent
    ensures Eol(crlf) != [] && Eol(crlf)[|Eol(crlf)| - 1] == LF && LF !in Eol(crlf)[..|Eol(crlf)| - 1]
    ensures StripEnd(Eol(crlf)) == []
  {
    var eol := Eol(crlf);
    StripContent([], crlf);
    assert [] + eol == eol && eol[..|eol| - 1] == if crlf then [CR] else [];
    hide StripEnd;
  }

  /** The values alone decide: two blocks with the same values are read alike, whatever their line ends and spaces. */
  lemma OnlyValuesMatter(c: Codec, a: seq<Line>, b: seq<Line>, crlfA: bool, crlfB: bool, more: Text, maxEvent: nat)
    requires Readable(c, a) && c.utf8(Eol(crlfA)) && |Bytes(a)| + |Eol(crlfA)| <= maxEvent
    requires Readable(c, b) && c.utf8(Eol(crlfB)) && |Bytes(b)| + |Eol(crlfB)| <= maxEvent
    requires Values(a) == Values(b)
    ensures Read(c, Bytes(a) + Eol(crlfA) + more, maxEvent) == Read(c, Bytes(b) + Eol(crlfB) + more, maxEvent)
  {
    BlockIsRead(c, a, crlfA, more, maxEvent);
    BlockIsRead(c, b, crlfB, more, maxEvent);
    hide ReadLines, Values, Bytes;
  }

  lemma LineIsRefused(c: Codec, l: Line, more: Text, p: Partial, maxEvent: nat)
    requires Proper(l) && (p.bytes + |Raw(l)| > maxEvent || !c.utf8(Raw(l)))
    ensures ReadLines(c, Raw(l) + more, p, maxEvent) == ([], Stopped(if p.bytes + |Raw(l)| > maxEvent then TooLarge else NotUtf8))
  {
    RawFacts(l);
    hide ReadLines, Raw, Proper, StripEnd;
    FirstLine(c, Raw(l), more, p, maxEvent);
  }

  /** A block over the limit ends the reading as too large, with no event of its own. */
  lemma {:induction false} OversizedBlockStops(c: Codec, lines: seq<Line>, crlf: bool, more: Text, p: Partial, maxEvent: nat)
    requires Readable(c, lines) && p.bytes + |Bytes(lines)| + |Eol(crlf)| > maxEvent
    ensures ReadLines(c, Bytes(lines) + Eol(crlf) + more, p, maxEvent) == ([], Stopped(TooLarge))
  {
    hide ReadLines, Raw, Proper, OwnValue;
    if lines == [] {
      assert [] + Eol(crlf) + more == Eol(crlf) + more;
      BlankTooLarge(c, crlf, more, p, maxEvent);
    } else {
      var head, tail := lines[0], lines[1..];
      Regroup(Raw(head), Bytes(tail), Eol(crlf));
      Regroup(Raw(head), Bytes(tail) + Eol(crlf), more);
      if p.bytes + |Raw(head)| > maxEvent {
        LineIsRefused(c, head, Bytes(tail) + Eol(crlf) + more, p, maxEvent);
      } else {
        HeadIsRead(c, head, Bytes(tail) + Eol(crlf) + more, p, maxEvent);
        OversizedBlockStops(c, tail, crlf, more, Taken(head, p), maxEvent);
      }
    }
  }

  lemma BlankTooLarge(c: Codec, crlf: bool, more: Text, p: Partial, maxEvent: nat)
    requires p.bytes + |Eol(crlf)| > maxEvent
    ensures ReadLines(c, Eol(crlf) + more, p, maxEvent) == ([], Stopped(TooLarge))
  {
    assert Eol(crlf)[..|Eol(crlf)| - 1] == if crlf then [CR] else [];
    hide ReadLines;
    FirstLine(c, Eol(crlf), more, p, maxEvent);
  }

  /** A line that is no text ends the reading as such, whatever its fellows were. */
  lemma BadTextStops(c: Codec, lines: seq<Line>, bad: Line, more: Text, maxEvent: nat)
    requires Readable(c, lines) && Proper(bad) && !c.utf8(Raw(bad)) && |Bytes(lines)| + |Raw(bad)| <= maxEvent
    ensures ReadLines(c, Bytes(lines) + Raw(bad) + more, FRESH, maxEvent) == ([], Stopped(NotUtf8))
  {
    hide ReadLines, Raw, Proper, Values, Bytes, Readable;
    Regroup(Bytes(lines), Raw(bad), more);
    LinesAreRead(c, lines, Raw(bad) + more, FRESH, maxEvent);
    LineIsRefused(c, bad, more, Partial(FRESH.lines + Values(lines), |Bytes(lines)|), maxEvent);
  }
}
