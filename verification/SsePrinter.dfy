// The frame printer, and why the decoder reads back exactly what it printed.
module SsePrinter {
  import opened Wrappers
  import opened Utf8
  import opened SseFormat
  import SseDecoder

  const EVENT_PREFIX: Bytes := [101, 118, 101, 110, 116, 58, 32]
  const DATA_PREFIX: Bytes := [100, 97, 116, 97, 58, 32]
  const OPEN_BRACE: byte := 123

  datatype Frame = Frame(event: Bytes, payload: Bytes)

  function FormatSseEvent(f: Frame): Bytes {
    EVENT_PREFIX + f.event + [LF] + (DATA_PREFIX + f.payload + [LF] + ([] + [LF] + []))
  }

  function Print(frames: seq<Frame>): Bytes {
    if frames == [] then [] else FormatSseEvent(frames[0]) + Print(frames[1..])
  }

  function Payloads(frames: seq<Frame>): seq<Bytes> {
    if frames == [] then [] else [frames[0].payload] + Payloads(frames[1..])
  }

  // Single-line texts that fit the event bound.
  predicate Printable(f: Frame) {
    && NoTerminator(f.event) && NoTerminator(f.payload) && Valid(f.event) && Valid(f.payload)
    && |EVENT_PREFIX| + |f.event| + |DATA_PREFIX| + |f.payload| + 3 <= MAX_EVENT_BYTES
  }

  predicate AllReadable(frames: seq<Frame>) {
    forall i :: 0 <= i < |frames| ==> Printable(frames[i]) && !IsDone(frames[i].payload)
  }

  lemma PrefixedLine(prefix: Bytes, text: Bytes, colon: nat)
    requires NoTerminator(prefix) && NoTerminator(text) && Valid(text)
    requires forall i :: 0 <= i < |prefix| ==> prefix[i] < 0x80
    requires colon + 2 == |prefix| && prefix[colon] == COLON && prefix[colon + 1] == SPACE && colon > 0
    requires forall i :: 0 <= i < colon ==> prefix[i] != COLON
    ensures NoTerminator(prefix + text) && Valid(prefix + text)
    ensures DataValue(prefix + text) == if prefix[..colon] == DATA then Some(text) else None
  {
    var line := prefix + text;
    FirstColonAt(line, colon);
    hide Valid, FirstColon;
    assert line[..colon] == prefix[..colon];
    assert line[colon + 1..] == [SPACE] + text && ([SPACE] + text)[1..] == text;
    AsciiIsValid(prefix[..colon + 1]);
    assert line == prefix[..colon + 1] + [SPACE] + text;
    CutAtAscii(prefix[..colon + 1], SPACE, text);
  }

  lemma EventLine(event: Bytes)
    requires NoTerminator(event) && Valid(event)
    ensures NoTerminator(EVENT_PREFIX + event) && Valid(EVENT_PREFIX + event)
    ensures DataValue(EVENT_PREFIX + event) == None
  {
    PrefixedLine(EVENT_PREFIX, event, 5);
    assert |EVENT_PREFIX[..5]| != |DATA|;
  }

  lemma DataLine(payload: Bytes)
    requires NoTerminator(payload) && Valid(payload)
    ensures NoTerminator(DATA_PREFIX + payload) && Valid(DATA_PREFIX + payload)
    ensures DataValue(DATA_PREFIX + payload) == Some(payload)
  {
    PrefixedLine(DATA_PREFIX, payload, 4);
    assert DATA_PREFIX[..4] == DATA;
  }

  predicate Idle(r: Reading) { !r.done && r.data == [] && r.size == 0 && r.lines == 0 }

  lemma ReadLine(r: Reading, line: Bytes, rest: Bytes, next: Reading)
    requires !r.done && NoTerminator(line) && Valid(line) && Feed(r, line) == Some(next)
    ensures Finish(r, line + [LF] + rest) == if next.done then Some(next) else Finish(next, rest)
  {
    NextLineOf(line, rest);
    FinishStep(r, line + [LF] + rest);
  }

  // The readings after each of: a line without data, a data line, a blank line.
  function Skipped(r: Reading, first: Bytes): Reading { r.(size := |first| + 1, lines := 1) }

  function Held(r: Reading, first: Bytes, second: Bytes, payload: Bytes): Reading {
    r.(size := |first| + |second| + 2, lines := 2, data := [payload])
  }

  function Closed(r: Reading, payload: Bytes): Reading {
    if IsDone(payload) then r.(done := true) else r.(events := r.events + [payload])
  }

  lemma FeedThree(r: Reading, first: Bytes, second: Bytes, payload: Bytes)
    requires Idle(r) && first != [] && second != [] && |first| + |second| + 3 <= MAX_EVENT_BYTES
    requires DataValue(first) == None && DataValue(second) == Some(payload)
    ensures Feed(r, first) == Some(Skipped(r, first))
    ensures Feed(Skipped(r, first), second) == Some(Held(r, first, second, payload))
    ensures Feed(Held(r, first, second, payload), []) == Some(Closed(r, payload))
  {
    assert r.data + [payload] == [payload];
  }

  lemma ReadThreeLines(r: Reading, first: Bytes, second: Bytes, payload: Bytes, rest: Bytes)
    requires Idle(r) && first != [] && second != [] && |first| + |second| + 3 <= MAX_EVENT_BYTES
    requires NoTerminator(first) && NoTerminator(second) && Valid(first) && Valid(second)
    requires DataValue(first) == None && DataValue(second) == Some(payload)
    ensures Finish(r, first + [LF] + (second + [LF] + ([] + [LF] + rest))) ==
            if IsDone(payload) then Some(r.(done := true)) else Finish(r.(events := r.events + [payload]), rest)
  {
    AsciiIsValid([]);
    FeedThree(r, first, second, payload);
    hide Finish, Valid, DataValue, IsDone, NoTerminator, Feed;
    assert NoTerminator([]) by { EmptyLine(); }
    ReadLine(r, first, second + [LF] + ([] + [LF] + rest), Skipped(r, first));
    ReadLine(Skipped(r, first), second, [] + [LF] + rest, Held(r, first, second, payload));
    ReadLine(Held(r, first, second, payload), [], rest, Closed(r, payload));
  }

  lemma EmptyLine() ensures NoTerminator([]) {}

  // One printed frame is read as one event, or as the terminator when its payload is [DONE].
  lemma ReadOneFrame(r: Reading, f: Frame, rest: Bytes)
    requires Printable(f) && Idle(r)
    ensures Finish(r, FormatSseEvent(f) + rest) ==
            if IsDone(f.payload) then Some(r.(done := true))
            else Finish(r.(events := r.events + [f.payload]), rest)
  {
    var first, second := EVENT_PREFIX + f.event, DATA_PREFIX + f.payload;
    EventLine(f.event);
    DataLine(f.payload);
    hide Finish, Valid, DataValue, IsDone, NoTerminator;
    ReadThreeLines(r, first, second, f.payload, rest);
    FormatShape(f, rest);
  }

  lemma FormatShape(f: Frame, rest: Bytes)
    ensures FormatSseEvent(f) + rest ==
            (EVENT_PREFIX + f.event) + [LF] + ((DATA_PREFIX + f.payload) + [LF] + ([] + [LF] + rest))
  {
    var a, b := EVENT_PREFIX + f.event + [LF], DATA_PREFIX + f.payload + [LF];
    Assoc(a, b + [LF], rest);
    Assoc(b, [LF], rest);
    assert [] + [LF] + [] == [LF] && [] + [LF] + rest == [LF] + rest;
  }

  lemma {:induction false} ReadFrames(r: Reading, frames: seq<Frame>)
    requires AllReadable(frames) && Idle(r)
    ensures Finish(r, Print(frames)) == Some(r.(events := r.events + Payloads(frames)))
    decreases |frames|
  {
    if frames == [] {
      assert Finish(r, []) == Some(Dispatch(r));
      assert r.events + [] == r.events;
    } else {
      var f, rest := frames[0], frames[1..];
      ReadOneFrame(r, f, Print(rest));
      ReadFrames(r.(events := r.events + [f.payload]), rest);
      Assoc(r.events, [f.payload], Payloads(rest));
    }
  }

  // Printing, then parsing, gives back the payloads in order; so does decoding under any chunking.
  lemma PrintThenParse(frames: seq<Frame>)
    requires AllReadable(frames)
    ensures Parse(Print(frames)) == Some(Reading(Payloads(frames), [], 0, 0, false))
    ensures Decode(Print(frames)) == Parse(Print(frames))
  {
    ReadFrames(START, frames);
    assert START.events + Payloads(frames) == Payloads(frames);
    DecodeDiffersExactly(Print(frames));
  }

  method DecodePrinted(frames: seq<Frame>, chunks: seq<Bytes>) returns (d: SseDecoder.Decoded)
    requires AllReadable(frames) && SseDecoder.Concat(chunks) == Print(frames)
    ensures d == SseDecoder.Decoded(Payloads(frames), false)
  {
    PrintThenParse(frames);
    var r := SseDecoder.DecodeChunks(chunks);
    d := r.value;
  }

  // A frame whose payload trims to [DONE] ends the reading there, whatever is printed after it.
  lemma PrintedDoneStops(before: seq<Frame>, f: Frame, after: seq<Frame>)
    requires AllReadable(before) && Printable(f) && IsDone(f.payload)
    ensures Decode(Print(before + [f] + after)) == Some(Reading(Payloads(before), [], 0, 0, true))
  {
    PrintConcat(before, [f] + after);
    assert before + [f] + after == before + ([f] + after) && ([f] + after)[1..] == after;
    ReadThenDone(START, before, f, Print(after));
    assert START.events + Payloads(before) == Payloads(before);
  }

  lemma {:induction false} PrintConcat(a: seq<Frame>, b: seq<Frame>)
    ensures Print(a + b) == Print(a) + Print(b)
    decreases |a|
  {
    if a == [] {
      assert a + b == b;
    } else {
      assert (a + b)[1..] == a[1..] + b;
      PrintConcat(a[1..], b);
      Assoc(FormatSseEvent(a[0]), Print(a[1..]), Print(b));
    }
  }

  lemma {:induction false} ReadThenDone(r: Reading, before: seq<Frame>, f: Frame, after: Bytes)
    requires AllReadable(before) && Printable(f) && IsDone(f.payload)
    requires Idle(r)
    ensures Finish(r, Print(before) + (FormatSseEvent(f) + after))
            == Some(r.(events := r.events + Payloads(before), done := true))
    decreases |before|
  {
    var tail := FormatSseEvent(f) + after;
    if before == [] {
      assert [] + tail == tail && r.events + [] == r.events;
      ReadOneFrame(r, f, after);
    } else {
      var g, rest := before[0], before[1..];
      Assoc(FormatSseEvent(g), Print(rest), tail);
      ReadOneFrame(r, g, Print(rest) + tail);
      ReadThenDone(r.(events := r.events + [g.payload]), rest, f, after);
      Assoc(r.events, [g.payload], Payloads(rest));
    }
  }

  // The router only prints JSON objects, and those are never taken for the terminator.
  lemma ObjectsAreNotDone(payload: Bytes)
    requires payload != [] && payload[0] == OPEN_BRACE
    ensures !IsDone(payload)
  {
    assert TrimStart(payload) == payload;
    assert Trim(payload) == [] || Trim(payload)[0] == OPEN_BRACE;
  }
}
