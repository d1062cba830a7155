// The event-stream format as the router reads it: a line machine and its two readings,
// one over a whole body and one over a buffer that may still grow.
module SseFormat {
  import opened Wrappers
  import opened Utf8

  const LF: byte := 10
  const CR: byte := 13
  const SPACE: byte := 32
  const COLON: byte := 58
  const DATA: Bytes := [100, 97, 116, 97]
  const DONE: Bytes := [91, 68, 79, 78, 69, 93]
  const MAX_EVENT_BYTES: nat := 16 * 1024 * 1024
  const MAX_EVENT_LINES: nat := 65_536

  predicate Terminator(b: byte) { b == LF || b == CR }

  predicate NoTerminator(s: Bytes) { forall i :: 0 <= i < |s| ==> !Terminator(s[i]) }

  // ---- lines ----

  function FirstTerminator(s: Bytes): (i: nat)
    ensures i <= |s|
    ensures forall j :: 0 <= j < i ==> !Terminator(s[j])
    ensures i < |s| ==> Terminator(s[i])
  {
    if s == [] || Terminator(s[0]) then 0
    else
      var rest := s[1..];
      assert forall j :: 1 <= j < |s| ==> s[j] == rest[j - 1];
      1 + FirstTerminator(rest)
  }

  lemma FirstTerminatorAt(s: Bytes, i: nat)
    requires i <= |s| && (forall j :: 0 <= j < i ==> !Terminator(s[j])) && (i < |s| ==> Terminator(s[i]))
    ensures FirstTerminator(s) == i
  {
  }

  // Bytes that end the line whose terminator stands at `i`.
  function Consumed(s: Bytes, i: nat): (k: nat)
    requires i < |s|
    ensures i < k <= |s|
  {
    if s[i] == CR && i + 1 < |s| && s[i + 1] == LF then i + 2 else i + 1
  }

  datatype Cut = Whole(line: Bytes, rest: Bytes) | Open

  // The first complete line. A CR at the very end may still become CRLF unless the input is over.
  function NextLine(s: Bytes, eof: bool): (c: Cut)
    ensures c.Whole? ==> |c.rest| < |s| && |c.line| < |s| && NoTerminator(c.line)
  {
    var i := FirstTerminator(s);
    if i == |s| || (s[i] == CR && i + 1 == |s| && !eof) then Open
    else Whole(s[..i], s[Consumed(s, i)..])
  }

  // The same cut, read off a position inside a longer text.
  lemma NextLineFrom(text: Bytes, start: nat, i: nat, eof: bool)
    requires start <= i <= |text| && (forall j :: start <= j < i ==> !Terminator(text[j]))
    requires i < |text| ==> Terminator(text[i])
    ensures NextLine(text[start..], eof) ==
            if i == |text| || (text[i] == CR && i + 1 == |text| && !eof) then Open
            else Whole(text[start..i], text[Consumed(text, i)..])
  {
    var s := text[start..];
    assert forall j :: 0 <= j < |s| ==> s[j] == text[start + j];
    FirstTerminatorAt(s, i - start);
    if i < |text| {
      assert s[..i - start] == text[start..i];
      assert s[Consumed(s, i - start)..] == text[Consumed(text, i)..];
    }
  }

  function Lines(s: Bytes): seq<Bytes>
    decreases |s|
  {
    match NextLine(s, true)
    case Open => if s == [] then [] else [s]
    case Whole(line, rest) => [line] + Lines(rest)
  }

  lemma LinesFrom(text: Bytes, start: nat, i: nat)
    requires start <= i <= |text| && (forall j :: start <= j < i ==> !Terminator(text[j]))
    requires i < |text| ==> Terminator(text[i])
    ensures Lines(text[start..]) ==
            if i < |text| then [text[start..i]] + Lines(text[Consumed(text, i)..])
            else if start < |text| then [text[start..]] else []
  {
    NextLineFrom(text, start, i, true);
  }

  // ---- one line ----

  datatype Reading = Reading(events: seq<Bytes>, data: seq<Bytes>, size: nat, lines: nat, done: bool)

  const START := Reading([], [], 0, 0, false)

  function FirstColon(s: Bytes): (i: nat)
    ensures i <= |s|
    ensures forall j :: 0 <= j < i ==> s[j] != COLON
    ensures i < |s| ==> s[i] == COLON
  {
    if s == [] || s[0] == COLON then 0
    else
      var rest := s[1..];
      assert forall j :: 1 <= j < |s| ==> s[j] == rest[j - 1];
      1 + FirstColon(rest)
  }

  lemma FirstColonAt(s: Bytes, i: nat)
    requires i <= |s| && (forall j :: 0 <= j < i ==> s[j] != COLON) && (i < |s| ==> s[i] == COLON)
    ensures FirstColon(s) == i
  {
  }

  function StripSpace(s: Bytes): Bytes { if s != [] && s[0] == SPACE then s[1..] else s }

  // The value a non-empty line contributes to the event's data, if its field is "data".
  function DataValue(line: Bytes): Option<Bytes>
    requires line != []
  {
    var i := FirstColon(line);
    if i == 0 || line[..i] != DATA then None
    else if i == |line| then Some([])
    else Some(StripSpace(line[i + 1..]))
  }

  function Join(data: seq<Bytes>): Bytes
  {
    if data == [] then [] else if |data| == 1 then data[0] else data[0] + [LF] + Join(data[1..])
  }

  predicate IsDone(data: Bytes) { Trim(data) == DONE }

  function Dispatch(r: Reading): Reading {
    var closed := r.(data := [], size := 0, lines := 0);
    if r.data == [] then closed
    else if IsDone(Join(r.data)) then closed.(done := true)
    else closed.(events := r.events + [Join(r.data)])
  }

  function Feed(r: Reading, line: Bytes): Option<Reading> {
    var size := r.size + |line| + 1;
    var lines := if line == [] then r.lines else r.lines + 1;
    if size > MAX_EVENT_BYTES || lines > MAX_EVENT_LINES then None
    else if line == [] then Some(Dispatch(r))
    else match DataValue(line)
      case None => Some(r.(size := size, lines := lines))
      case Some(value) => Some(r.(size := size, lines := lines, data := r.data + [value]))
  }

  // ---- the whole body at once ----

  function FeedAll(r: Reading, lines: seq<Bytes>): Option<Reading>
    decreases |lines|
  {
    if r.done || lines == [] then Some(r)
    else match Feed(r, lines[0])
      case None => None
      case Some(next) => FeedAll(next, lines[1..])
  }

  function Close(r: Reading): Reading { if r.done then r else Dispatch(r) }

  function ParseFrom(r: Reading, body: Bytes): Option<Reading> {
    if !Valid(body) then None
    else match FeedAll(r, Lines(body))
      case None => None
      case Some(last) => Some(Close(last))
  }

  function Parse(body: Bytes): Option<Reading> { ParseFrom(START, body) }

  // ---- a growing buffer ----

  // Reads every complete line of the buffer; stops after [DONE], dropping what follows.
  function Scan(r: Reading, buffer: Bytes, eof: bool): (s: Option<(Reading, Bytes)>)
    decreases |buffer|
  {
    match NextLine(buffer, eof)
    case Open => Some((r, buffer))
    case Whole(line, rest) =>
      if !Valid(line) then None
      else match Feed(r, line)
        case None => None
        case Some(next) => if next.done then Some((next, [])) else Scan(next, rest, eof)
  }

  lemma ScanStep(r: Reading, buffer: Bytes, eof: bool)
    ensures NextLine(buffer, eof).Open? ==> Scan(r, buffer, eof) == Some((r, buffer))
    ensures NextLine(buffer, eof).Whole? ==>
            var Whole(line, rest) := NextLine(buffer, eof);
            && (!Valid(line) || Feed(r, line).None? ==> Scan(r, buffer, eof).None?)
            && (Valid(line) && Feed(r, line).Some? ==>
                  var next := Feed(r, line).value;
                  Scan(r, buffer, eof) == if next.done then Some((next, [])) else Scan(next, rest, eof))
  {
  }

  predicate Bounded(r: Reading, buffer: Bytes) { r.size + |buffer| <= MAX_EVENT_BYTES }

  function Push(r: Reading, buffer: Bytes): Option<(Reading, Bytes)> {
    match Scan(r, buffer, false)
    case None => None
    case Some((next, rest)) => if Bounded(next, rest) then Some((next, rest)) else None
  }

  function Finish(r: Reading, buffer: Bytes): Option<Reading> {
    match Scan(r, buffer, true)
    case None => None
    case Some((next, rest)) =>
      if !Bounded(next, rest) then None
      else if next.done then Some(next)
      else if rest == [] then Some(Dispatch(next))
      else if !Valid(rest) then None
      else match Feed(next, rest)
        case None => None
        case Some(last) => Some(Dispatch(last))
  }

  function Decode(body: Bytes): Option<Reading> { Finish(START, body) }

  // ---- chunking does not matter ----

  lemma NextLineGrows(b: Bytes, c: Bytes, eof: bool)
    requires NextLine(b, false).Whole?
    ensures NextLine(b + c, eof) == Whole(NextLine(b, false).line, NextLine(b, false).rest + c)
  {
    var i := FirstTerminator(b);
    FirstTerminatorAt(b + c, i);
    var k := Consumed(b, i);
    assert (b + c)[..i] == b[..i] && (b + c)[k..] == b[k..] + c;
  }

  // A buffer over the bound is refused early only when the line it starts would be refused anyway.
  lemma EarlyBoundIsExact(r: Reading, b: Bytes, c: Bytes, eof: bool)
    requires NextLine(b, false).Open? && !Bounded(r, b) && r.size <= MAX_EVENT_BYTES
    ensures NextLine(b + c, eof).Whole? ==> Feed(r, NextLine(b + c, eof).line).None?
    ensures NextLine(b + c, eof).Open? ==> !Bounded(r, b + c)
  {
    var i := FirstTerminator(b);
    assert forall j :: 0 <= j < |b| ==> (b + c)[j] == b[j];
    if i < |b| { FirstTerminatorAt(b + c, i); }
  }

  lemma {:induction false} ScanGrows(r: Reading, b: Bytes, c: Bytes, eof: bool)
    requires !r.done
    ensures match Scan(r, b, false)
            case None => Scan(r, b + c, eof).None?
            case Some((next, rest)) =>
              Scan(r, b + c, eof) == if next.done then Some((next, [])) else Scan(next, rest + c, eof)
    decreases |b|
  {
    match NextLine(b, false)
    case Open =>
    case Whole(line, rest) =>
      NextLineGrows(b, c, eof);
      if Valid(line) && Feed(r, line).Some? && !Feed(r, line).value.done {
        ScanGrows(Feed(r, line).value, rest, c, eof);
      }
  }

  // What is left of a scanned buffer is one unfinished line.
  lemma {:induction false} ScanLeavesOneLine(r: Reading, b: Bytes, eof: bool)
    requires !r.done && r.size <= MAX_EVENT_BYTES && Scan(r, b, eof).Some?
    ensures var (next, rest) := Scan(r, b, eof).value;
            && NextLine(rest, eof).Open? && next.size <= MAX_EVENT_BYTES
            && (next.done ==> rest == [] && next.size == 0)
    decreases |b|
  {
    match NextLine(b, eof)
    case Open =>
    case Whole(line, rest) =>
      if !Feed(r, line).value.done { ScanLeavesOneLine(Feed(r, line).value, rest, eof); }
  }

  // Pushing `b` and reading on from there is the same as reading on with `b` still buffered.
  lemma PushThenFinish(r: Reading, b: Bytes, c: Bytes)
    requires !r.done && r.size <= MAX_EVENT_BYTES
    ensures match Push(r, b)
            case None => Finish(r, b + c).None?
            case Some((next, rest)) => Finish(r, b + c) == if next.done then Some(next) else Finish(next, rest + c)
  {
    ScanGrows(r, b, c, true);
    if Scan(r, b, false).Some? {
      ScanLeavesOneLine(r, b, false);
      var (next, rest) := Scan(r, b, false).value;
      if !Bounded(next, rest) { EarlyBoundIsExact(next, rest, c, true); }
    }
  }

  lemma PushThenPush(r: Reading, b: Bytes, c: Bytes)
    requires !r.done && r.size <= MAX_EVENT_BYTES
    ensures match Push(r, b)
            case None => Push(r, b + c).None?
            case Some((next, rest)) => Push(r, b + c) == if next.done then Some((next, [])) else Push(next, rest + c)
  {
    ScanGrows(r, b, c, false);
    if Scan(r, b, false).Some? {
      ScanLeavesOneLine(r, b, false);
      var (next, rest) := Scan(r, b, false).value;
      if !Bounded(next, rest) { EarlyBoundIsExact(next, rest, c, false); }
    }
  }

  // A stream that ends, or one that breaks off: then only a terminator read before makes it whole.
  function ReadOn(r: Reading, buffer: Bytes, broken: bool): Option<Reading> {
    if !broken then Finish(r, buffer)
    else match Push(r, buffer)
      case None => None
      case Some((next, _)) => if next.done then Some(next) else None
  }

  lemma PushThenRead(r: Reading, b: Bytes, c: Bytes, broken: bool)
    requires !r.done && r.size <= MAX_EVENT_BYTES
    ensures match Push(r, b)
            case None => ReadOn(r, b + c, broken).None?
            case Some((next, rest)) => ReadOn(r, b + c, broken) == if next.done then Some(next) else ReadOn(next, rest + c, broken)
  {
    PushThenPush(r, b, c);
    PushThenFinish(r, b, c);
    hide Push, Finish;
  }

  lemma FeedKeepsEvents(r: Reading, line: Bytes)
    ensures Feed(r, line).Some? ==> r.events <= Feed(r, line).value.events
    ensures r.events <= Dispatch(r).events
  {
  }

  lemma {:induction false} ScanKeepsEvents(r: Reading, buffer: Bytes, eof: bool)
    ensures Scan(r, buffer, eof).Some? ==> r.events <= Scan(r, buffer, eof).value.0.events
    decreases |buffer|
  {
    ScanStep(r, buffer, eof);
    match NextLine(buffer, eof)
    case Open =>
    case Whole(line, rest) =>
      FeedKeepsEvents(r, line);
      if Feed(r, line).Some? { ScanKeepsEvents(Feed(r, line).value, rest, eof); }
  }

  // What has been handed out stays so.
  lemma ReadOnKeepsEvents(r: Reading, buffer: Bytes, broken: bool)
    ensures ReadOn(r, buffer, broken).Some? ==> r.events <= ReadOn(r, buffer, broken).value.events
  {
    ScanKeepsEvents(r, buffer, true);
    ScanKeepsEvents(r, buffer, false);
    if Scan(r, buffer, true).Some? {
      var (next, rest) := Scan(r, buffer, true).value;
      FeedKeepsEvents(next, rest);
      if Feed(next, rest).Some? { FeedKeepsEvents(Feed(next, rest).value, []); }
    }
    hide Scan, Feed, Dispatch;
  }

  // ---- the two readings agree ----

  lemma FinishOfLastLine(r: Reading, body: Bytes)
    requires !r.done && r.size <= MAX_EVENT_BYTES && Valid(body) && NextLine(body, true).Open?
    ensures Finish(r, body) == ParseFrom(r, body)
  {
    if body != [] {
      assert Lines(body) == [body] && Lines(body)[1..] == [];
      assert Feed(r, body).Some? ==> FeedAll(Feed(r, body).value, []) == Feed(r, body);
    }
  }

  // One line on, for either reading.
  lemma FinishStep(r: Reading, body: Bytes)
    requires !r.done && NextLine(body, true).Whole? && Valid(NextLine(body, true).line)
    ensures var Whole(line, rest) := NextLine(body, true);
            Finish(r, body) == match Feed(r, line)
              case None => None
              case Some(next) => if next.done then Some(next) else Finish(next, rest)
  {
  }

  lemma ParseStep(r: Reading, body: Bytes)
    requires !r.done && NextLine(body, true).Whole? && Valid(body)
    ensures var Whole(line, rest) := NextLine(body, true);
            && Valid(line) && Valid(rest)
            && ParseFrom(r, body) == match Feed(r, line)
               case None => None
               case Some(next) => if next.done then Some(next) else ParseFrom(next, rest)
  {
    var Whole(line, rest) := NextLine(body, true);
    LineIsValid(body, FirstTerminator(body));
    assert Lines(body) == [line] + Lines(rest);
    FeedAllStep(r, line, Lines(rest));
  }

  lemma FeedAllStops(r: Reading, lines: seq<Bytes>)
    requires r.done || lines == []
    ensures FeedAll(r, lines) == Some(r)
  {
  }

  lemma FeedAllStep(r: Reading, line: Bytes, rest: seq<Bytes>)
    requires !r.done
    ensures FeedAll(r, [line] + rest) == match Feed(r, line) case None => None case Some(next) => FeedAll(next, rest)
  {
    assert ([line] + rest)[1..] == rest;
  }

  lemma {:induction false} FinishOfValid(r: Reading, body: Bytes)
    requires !r.done && r.size <= MAX_EVENT_BYTES && Valid(body)
    ensures Finish(r, body) == ParseFrom(r, body)
    decreases |body|
  {
    match NextLine(body, true)
    case Open => FinishOfLastLine(r, body);
    case Whole(line, rest) =>
      ParseStep(r, body);
      FinishStep(r, body);
      match Feed(r, line)
      case None =>
      case Some(next) => if !next.done { FinishOfValid(next, rest); }
  }

  // Validity of a text is validity of its first line and of what follows the terminator.
  lemma LineIsValid(body: Bytes, i: nat)
    requires i < |body| && Terminator(body[i])
    ensures Valid(body) <==> Valid(body[..i]) && Valid(body[Consumed(body, i)..])
  {
    assert body == body[..i] + [body[i]] + body[i + 1..];
    CutAtAscii(body[..i], body[i], body[i + 1..]);
    if Consumed(body, i) == i + 2 {
      assert body[i + 1..] == [] + [LF] + body[i + 2..];
      CutAtAscii([], LF, body[i + 2..]);
    }
  }

  // Only what follows a [DONE] line escapes the UTF-8 check.
  lemma {:induction false} InvalidNeedsDone(r: Reading, body: Bytes)
    requires !r.done && Finish(r, body).Some? && !Valid(body)
    ensures Push(r, body).Some? && Push(r, body).value.0.done
    decreases |body|
  {
    var i := FirstTerminator(body);
    LineIsValid(body, i);
    var rest := body[Consumed(body, i)..];
    assert rest != [];
    var next := Feed(r, body[..i]).value;
    if !next.done { InvalidNeedsDone(next, rest); }
  }

  // Whatever the one-shot reading accepts, the incremental one reads the same way.
  lemma DecodeAgreesWithParse(body: Bytes)
    ensures Parse(body).Some? ==> Decode(body) == Parse(body)
    ensures Valid(body) ==> Decode(body) == Parse(body)
  {
    if Valid(body) { FinishOfValid(START, body); }
  }

  // The inputs on which they differ, exactly: the body is not UTF-8 as a whole, but a [DONE]
  // line was reached before the first broken line.
  lemma DecodeDiffersExactly(body: Bytes)
    ensures Decode(body) != Parse(body) <==>
            !Valid(body) && Push(START, body).Some? && Push(START, body).value.0.done
    ensures Decode(body) != Parse(body) ==> Parse(body).None? && Decode(body) == Some(Push(START, body).value.0)
  {
    PushThenFinish(START, body, []);
    assert body + [] == body;
    if Valid(body) {
      FinishOfValid(START, body);
    } else if Decode(body).Some? {
      InvalidNeedsDone(START, body);
    }
  }

  // Inputs of the second kind: a [DONE] event followed by anything that is not UTF-8.
  lemma DecodeDiffersAfterDone(line: Bytes, junk: Bytes)
    requires line != [] && NoTerminator(line) && Valid(line) && |line| + 2 <= MAX_EVENT_BYTES && !Valid(junk)
    requires DataValue(line).Some? && IsDone(DataValue(line).value)
    ensures var body := line + [LF] + ([LF] + junk);
            Parse(body).None? && Decode(body) == Some(Reading([], [], 0, 0, true))
  {
    hide Scan, Finish, Valid, NextLine, FirstTerminator, Trim, Lines, FeedAll, DataValue;
    var tail := [LF] + junk;
    assert tail == [] + [LF] + junk;
    assert Valid([]) by { AsciiIsValid([]); }
    CutAtAscii(line, LF, tail);
    CutAtAscii([], LF, junk);
    NextLineOf(line, tail);
    NextLineOf([], junk);
    FinishStep(START, line + [LF] + tail);
    assert START.data + [DataValue(line).value] == [DataValue(line).value];
    FinishStep(Feed(START, line).value, tail);
  }

  lemma NextLineOf(line: Bytes, rest: Bytes)
    requires NoTerminator(line)
    ensures NextLine(line + [LF] + rest, true) == Whole(line, rest)
  {
    var s := line + [LF] + rest;
    FirstTerminatorAt(s, |line|);
    assert s[..|line|] == line && s[|line| + 1..] == rest;
  }

  lemma {:induction false} AsciiIsValid(s: Bytes)
    requires forall i :: 0 <= i < |s| ==> s[i] < 0x80
    ensures Valid(s)
    decreases |s|
  {
    if s != [] { AsciiIsValid(s[1..]); }
  }
}
