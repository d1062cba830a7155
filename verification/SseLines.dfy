// Events of several lines: what a payload becomes on the wire, and that it is read back whole.
module SseLines {
  import opened Wrappers
  import opened Utf8
  import opened SseFormat
  import SseDecoder

  // The texts between line feeds, byte by byte.
  function SplitAtLf(p: Bytes): (r: seq<Bytes>)
    ensures r != []
  {
    if p == [] then [[]]
    else
      var rest := SplitAtLf(p[1..]);
      if p[0] == LF then [[]] + rest else [[p[0]] + rest[0]] + rest[1..]
  }

  lemma {:induction false} JoinSplit(p: Bytes)
    ensures Join(SplitAtLf(p)) == p
    decreases |p|
  {
    if p != [] {
      var rest := SplitAtLf(p[1..]);
      JoinSplit(p[1..]);
      assert p == [p[0]] + p[1..];
      if p[0] == LF {
        assert ([[]] + rest)[1..] == rest;
      } else {
        assert ([[p[0]] + rest[0]] + rest[1..])[1..] == rest[1..];
        JoinHead(p[0], rest);
      }
    }
  }

  lemma JoinHead(b: byte, lines: seq<Bytes>)
    requires lines != []
    ensures Join([[b] + lines[0]] + lines[1..]) == [b] + Join(lines)
  {
    var longer := [[b] + lines[0]] + lines[1..];
    assert longer[1..] == lines[1..];
    if |lines| > 1 {
      assert longer[0] + [LF] + Join(lines[1..]) == [b] + (lines[0] + [LF] + Join(lines[1..]));
    } else {
      assert longer == [[b] + lines[0]];
    }
  }

  // ---- lines on the wire ----

  datatype Ending = Lf | Cr | CrLf {
    function Bytes(): Utf8.Bytes { match this case Lf => [LF] case Cr => [CR] case CrLf => [CR, LF] }
  }

  // A line of data, with or without the space that does not count, or any other field or comment.
  datatype Written = Data(text: Bytes, spaced: bool) | Other(text: Bytes) {
    function Line(): Utf8.Bytes {
      match this
      case Data(t, spaced) => [100, 97, 116, 97, 58] + (if spaced then [32] else []) + t
      case Other(t) => t
    }

    predicate Fine() {
      && NoTerminator(text) && Valid(text)
      && if Data? then !spaced ==> text == [] || text[0] != SPACE else text != [] && !(DATA <= text)
    }
  }

  function Texts(ws: seq<Written>): seq<Bytes> {
    if ws == [] then [] else (if ws[0].Data? then [ws[0].text] else []) + Texts(ws[1..])
  }

  // An event: its lines, each with its ending, and a blank one.
  function EventBytes(ws: seq<Written>, e: Ending): Bytes {
    if ws == [] then e.Bytes() else ws[0].Line() + e.Bytes() + EventBytes(ws[1..], e)
  }

  function Size(ws: seq<Written>): nat { if ws == [] then 1 else |ws[0].Line()| + 1 + Size(ws[1..]) }

  // The lines say the payload and fit the bounds.
  predicate Carries(ws: seq<Written>, payload: Bytes) {
    && (forall i :: 0 <= i < |ws| ==> ws[i].Fine())
    && Texts(ws) == SplitAtLf(payload) && Size(ws) <= MAX_EVENT_BYTES && |ws| <= MAX_EVENT_LINES
  }

  lemma NextLineEnds(line: Bytes, e: Ending, rest: Bytes)
    requires NoTerminator(line) && (rest != [] && rest[0] == LF ==> !e.Cr?)
    ensures NextLine(line + e.Bytes() + rest, true) == Whole(line, rest)
  {
    var s := line + e.Bytes() + rest;
    assert forall j :: 0 <= j < |line| ==> s[j] == line[j];
    assert s[|line|] == e.Bytes()[0];
    FirstTerminatorAt(s, |line|);
    assert s[..|line|] == line && s[|line| + |e.Bytes()|..] == rest;
    if e.Cr? && rest != [] { assert s[|line| + 1] == rest[0]; }
    if e.CrLf? { assert s[|line| + 1] == LF; }
  }

  lemma DataReads(text: Bytes, spaced: bool)
    requires Data(text, spaced).Fine()
    ensures NoTerminator(Data(text, spaced).Line()) && DataValue(Data(text, spaced).Line()) == Some(text)
  {
    hide FirstColon, Valid;
    var line := Data(text, spaced).Line();
    var tail := (if spaced then [SPACE] else []) + text;
    assert spaced ==> tail[1..] == text;
    assert line == DATA + [COLON] + tail;
    assert line[..4] == DATA && line[5..] == tail;
    FirstColonAt(line, 4);
  }

  lemma DataIsValid(text: Bytes, spaced: bool)
    requires Valid(text)
    ensures Valid(Data(text, spaced).Line())
  {
    hide Valid;
    var head: Bytes := [100, 97, 116, 97, 58];
    AsciiIsValid(head);
    AsciiIsValid(DATA);
    if spaced {
      CutAtAscii(head, SPACE, text);
    } else {
      CutAtAscii(DATA, COLON, text);
      assert head + [] + text == DATA + [COLON] + text;
    }
  }

  lemma OtherReads(text: Bytes)
    requires Other(text).Fine()
    ensures DataValue(text) == None
  {
    var i := FirstColon(text);
    assert text[..i] == DATA ==> DATA <= text;
  }

  lemma LineReads(w: Written)
    requires w.Fine()
    ensures var line := w.Line();
            && line != [] && NoTerminator(line) && Valid(line)
            && DataValue(line) == if w.Data? then Some(w.text) else None
  {
    hide Valid, DataValue;
    match w {
      case Data(t, spaced) => DataReads(t, spaced); DataIsValid(t, spaced);
      case Other(t) => OtherReads(t);
    }
  }

  lemma FeedOne(r: Reading, line: Bytes, value: Option<Bytes>)
    requires line != [] && DataValue(line) == value && r.size + |line| + 1 <= MAX_EVENT_BYTES && r.lines < MAX_EVENT_LINES
    ensures Feed(r, line)
            == Some(r.(size := r.size + |line| + 1, lines := r.lines + 1, data := r.data + if value.Some? then [value.value] else []))
  {
    hide DataValue;
    assert r.data + [] == r.data;
  }

  lemma ReadOneLine(r: Reading, w: Written, e: Ending, rest: Bytes)
    requires !r.done && w.Fine() && r.size + |w.Line()| + 1 <= MAX_EVENT_BYTES && r.lines < MAX_EVENT_LINES
    requires rest != [] && rest[0] == LF ==> !e.Cr?
    ensures Finish(r, w.Line() + e.Bytes() + rest)
            == Finish(r.(size := r.size + |w.Line()| + 1, lines := r.lines + 1,
                         data := r.data + if w.Data? then [w.text] else []), rest)
  {
    hide Finish, DataValue, Written.Line, Written.Fine, NextLine, Feed, Valid, NoTerminator;
    LineReads(w);
    NextLineEnds(w.Line(), e, rest);
    FeedOne(r, w.Line(), if w.Data? then Some(w.text) else None);
    FinishStep(r, w.Line() + e.Bytes() + rest);
  }

  lemma ReadBlank(r: Reading, e: Ending, rest: Bytes)
    requires !r.done && r.size + 1 <= MAX_EVENT_BYTES && r.lines <= MAX_EVENT_LINES && (rest != [] && rest[0] == LF ==> !e.Cr?)
    ensures Finish(r, e.Bytes() + rest) == if Dispatch(r).done then Some(Dispatch(r)) else Finish(Dispatch(r), rest)
  {
    assert NoTerminator([]);
    AsciiIsValid([]);
    NextLineEnds([], e, rest);
    assert [] + e.Bytes() + rest == e.Bytes() + rest;
    FinishStep(r, e.Bytes() + rest);
    hide Finish, NextLine;
  }

  lemma StartsWithNoLf(ws: seq<Written>, e: Ending, rest: Bytes)
    requires forall i :: 0 <= i < |ws| ==> ws[i].Fine()
    ensures EventBytes(ws, e) != []
    ensures (EventBytes(ws, e) + rest)[0] == LF ==> !e.Cr?
  {
    if ws != [] { LineReads(ws[0]); }
  }

  // The lines of an event, one after the other, and then the event.
  lemma {:induction false} ReadEvent(r: Reading, ws: seq<Written>, e: Ending, rest: Bytes)
    requires !r.done && (forall i :: 0 <= i < |ws| ==> ws[i].Fine())
    requires r.size + Size(ws) <= MAX_EVENT_BYTES && r.lines + |ws| <= MAX_EVENT_LINES && (rest != [] && rest[0] == LF ==> !e.Cr?)
    ensures var full := Dispatch(r.(data := r.data + Texts(ws)));
            Finish(r, EventBytes(ws, e) + rest) == if full.done then Some(full) else Finish(full, rest)
    decreases |ws|
  {
    hide Finish, Dispatch, Written.Line, Written.Fine;
    if ws == [] {
      ReadBlank(r, e, rest);
      assert r.data + [] == r.data;
      assert r.(data := r.data) == r;
    } else {
      var w, more := ws[0], EventBytes(ws[1..], e) + rest;
      StartsWithNoLf(ws[1..], e, rest);
      Assoc(w.Line() + e.Bytes(), EventBytes(ws[1..], e), rest);
      ReadOneLine(r, w, e, more);
      var data := if w.Data? then [w.text] else [];
      var next := r.(size := r.size + |w.Line()| + 1, lines := r.lines + 1, data := r.data + data);
      ReadEvent(next, ws[1..], e, rest);
      Assoc(r.data, data, Texts(ws[1..]));
      DispatchForgets(r.(data := r.data + Texts(ws)), next.size, next.lines);
    }
  }

  lemma DispatchForgets(r: Reading, size: nat, lines: nat)
    ensures Dispatch(r.(size := size, lines := lines)) == Dispatch(r)
  {
  }

  // ---- whole streams ----

  function StreamBytes(events: seq<seq<Written>>, e: Ending): Bytes {
    if events == [] then [] else EventBytes(events[0], e) + StreamBytes(events[1..], e)
  }

  predicate AllCarry(events: seq<seq<Written>>, payloads: seq<Bytes>) {
    && |events| == |payloads|
    && forall i :: 0 <= i < |events| ==> Carries(events[i], payloads[i]) && !IsDone(payloads[i])
  }

  lemma NextStart(events: seq<seq<Written>>, payloads: seq<Bytes>, e: Ending)
    requires AllCarry(events, payloads)
    ensures var rest := StreamBytes(events, e); rest != [] && rest[0] == LF ==> !e.Cr?
  {
    hide Written.Fine, IsDone, SplitAtLf, Size, EventBytes;
    if events != [] {
      assert Carries(events[0], payloads[0]);
      StartsWithNoLf(events[0], e, StreamBytes(events[1..], e));
    }
  }

  // One event is its payload.
  lemma ReadPayload(r: Reading, ws: seq<Written>, payload: Bytes, e: Ending, rest: Bytes)
    requires !r.done && r.data == [] && r.size == 0 && r.lines == 0 && Carries(ws, payload) && !IsDone(payload)
    requires rest != [] && rest[0] == LF ==> !e.Cr?
    ensures Finish(r, EventBytes(ws, e) + rest) == Finish(r.(events := r.events + [payload]), rest)
  {
    hide Finish, IsDone, Join, SplitAtLf, EventBytes, Written.Fine, Size;
    ReadEvent(r, ws, e, rest);
    JoinSplit(payload);
    assert [] + Texts(ws) == Texts(ws);
  }

  lemma {:induction false} ReadStream(r: Reading, events: seq<seq<Written>>, payloads: seq<Bytes>, e: Ending)
    requires AllCarry(events, payloads) && !r.done && r.data == [] && r.size == 0 && r.lines == 0
    ensures Finish(r, StreamBytes(events, e)) == Some(r.(events := r.events + payloads))
    decreases |events|
  {
    hide IsDone, EventBytes, Carries;
    if events == [] {
      assert Finish(r, []) == Some(Dispatch(r));
      assert r.events + [] == r.events && payloads == [];
    } else {
      hide Finish;
      var rest := StreamBytes(events[1..], e);
      NextStart(events[1..], payloads[1..], e);
      ReadPayload(r, events[0], payloads[0], e, rest);
      ReadStream(r.(events := r.events + [payloads[0]]), events[1..], payloads[1..], e);
      assert r.events + [payloads[0]] + payloads[1..] == r.events + payloads;
    }
  }

  // However the lines of the payloads are written, with whatever fields and comments between them and whichever line
  // ending, both readings give back exactly the payloads.
  lemma LinesReadBack(events: seq<seq<Written>>, payloads: seq<Bytes>, e: Ending)
    requires AllCarry(events, payloads)
    ensures Decode(StreamBytes(events, e)) == Some(Reading(payloads, [], 0, 0, false))
    ensures Parse(StreamBytes(events, e)) == Decode(StreamBytes(events, e))
  {
    ReadStream(START, events, payloads, e);
    assert START.events + payloads == payloads;
    hide Finish, StreamBytes;
    assert Decode(StreamBytes(events, e)) == Some(Reading(payloads, [], 0, 0, false));
    StreamIsValid(events, payloads, e);
    DecodeAgreesWithParse(StreamBytes(events, e));
  }

  lemma {:induction false} StreamIsValid(events: seq<seq<Written>>, payloads: seq<Bytes>, e: Ending)
    requires AllCarry(events, payloads)
    ensures Valid(StreamBytes(events, e))
    decreases |events|
  {
    hide Valid, EventBytes, IsDone;
    if events == [] {
      AsciiIsValid([]);
    } else {
      assert Carries(events[0], payloads[0]);
      StreamIsValid(events[1..], payloads[1..], e);
      EventIsValid(events[0], e, StreamBytes(events[1..], e));
    }
  }

  lemma {:induction false} EventIsValid(ws: seq<Written>, e: Ending, rest: Bytes)
    requires (forall i :: 0 <= i < |ws| ==> ws[i].Fine()) && Valid(rest)
    ensures Valid(EventBytes(ws, e) + rest)
    decreases |ws|
  {
    hide Valid, Written.Fine, Written.Line;
    if ws == [] {
      EndIsValid([], e, rest);
      assert [] + e.Bytes() + rest == e.Bytes() + rest;
    } else {
      EventIsValid(ws[1..], e, rest);
      LineReads(ws[0]);
      EndIsValid(ws[0].Line(), e, EventBytes(ws[1..], e) + rest);
      Assoc(ws[0].Line() + e.Bytes(), EventBytes(ws[1..], e), rest);
    }
  }

  lemma EndIsValid(line: Bytes, e: Ending, rest: Bytes)
    requires (line == [] || Valid(line)) && Valid(rest)
    ensures Valid(line + e.Bytes() + rest)
  {
    hide Valid;
    AsciiIsValid([]);
    match e {
      case Lf => CutAtAscii(line, LF, rest);
      case Cr => CutAtAscii(line, CR, rest);
      case CrLf =>
        CutAtAscii([], LF, rest);
        assert [] + [LF] + rest == [LF] + rest;
        CutAtAscii(line, CR, [LF] + rest);
        assert line + [CR] + ([LF] + rest) == line + [CR, LF] + rest;
    }
  }

  lemma {:induction false} SplitFirst(a: Bytes, b: Bytes)
    requires LF !in a
    ensures SplitAtLf(a) == [a] && SplitAtLf(a + [LF] + b) == [a] + SplitAtLf(b)
    decreases |a|
  {
    var p := a + [LF] + b;
    if a == [] {
      assert p[1..] == b && [[]] == [a];
    } else {
      SplitFirst(a[1..], b);
      assert p[1..] == a[1..] + [LF] + b && p[0] == a[0] && [a[0]] + a[1..] == a;
    }
  }

  lemma {:induction false} PiecesAreFine(p: Bytes)
    requires Valid(p) && CR !in p
    ensures forall t :: t in SplitAtLf(p) ==> NoTerminator(t) && Valid(t)
    decreases |p|
  {
    hide SplitAtLf, Valid, FirstTerminator;
    var i := FirstTerminator(p);
    if i == |p| {
      SplitFirst(p, []);
    } else {
      var a, b := p[..i], p[i + 1..];
      assert p[i] in p && p[i] == LF && p == a + [LF] + b;
      CutAtAscii(a, LF, b);
      SplitFirst(a, b);
      PiecesAreFine(b);
    }
  }

  // Every line of the payload as a `data: ` line of its own.
  function Spread(texts: seq<Bytes>): seq<Written> { if texts == [] then [] else [Data(texts[0], true)] + Spread(texts[1..]) }

  lemma {:induction false} SpreadTexts(texts: seq<Bytes>)
    ensures Texts(Spread(texts)) == texts
    decreases |texts|
  {
    if texts != [] {
      var ws := Spread(texts);
      SpreadTexts(texts[1..]);
      assert ws[0] == Data(texts[0], true) && ws[1..] == Spread(texts[1..]);
    }
  }

  lemma {:induction false} SpreadAt(texts: seq<Bytes>)
    ensures |Spread(texts)| == |texts|
    ensures forall i :: 0 <= i < |texts| ==> Spread(texts)[i] == Data(texts[i], true)
    decreases |texts|
  {
    if texts != [] { SpreadAt(texts[1..]); }
  }

  lemma DataIsFine(texts: seq<Bytes>, ws: seq<Written>)
    requires |ws| == |texts| && forall i :: 0 <= i < |texts| ==> ws[i] == Data(texts[i], true)
    requires forall t :: t in texts ==> NoTerminator(t) && Valid(t)
    ensures forall i :: 0 <= i < |ws| ==> ws[i].Fine()
  {
    hide Valid, NoTerminator;
    forall i | 0 <= i < |ws| ensures ws[i].Fine() { assert texts[i] in texts; }
  }

  // So any payloads without CR, line by line, are read back.
  lemma PayloadsReadBack(payloads: seq<Bytes>)
    requires forall i :: 0 <= i < |payloads| ==>
               && Valid(payloads[i]) && CR !in payloads[i] && !IsDone(payloads[i])
               && Size(Spread(SplitAtLf(payloads[i]))) <= MAX_EVENT_BYTES && |SplitAtLf(payloads[i])| <= MAX_EVENT_LINES
    ensures var events := seq(|payloads|, i requires 0 <= i < |payloads| => Spread(SplitAtLf(payloads[i])));
            && Decode(StreamBytes(events, Lf)) == Some(Reading(payloads, [], 0, 0, false))
            && Parse(StreamBytes(events, Lf)) == Decode(StreamBytes(events, Lf))
  {
    var events := seq(|payloads|, i requires 0 <= i < |payloads| => Spread(SplitAtLf(payloads[i])));
    hide SplitAtLf, Spread, Valid, IsDone, Size, Texts, Written.Fine;
    forall i | 0 <= i < |events| ensures Carries(events[i], payloads[i]) && !IsDone(payloads[i]) {
      PiecesAreFine(payloads[i]);
      SpreadTexts(SplitAtLf(payloads[i]));
      SpreadAt(SplitAtLf(payloads[i]));
      DataIsFine(SplitAtLf(payloads[i]), events[i]);
    }
    LinesReadBack(events, payloads, Lf);
  }

  // And so does the incremental decoder under any chunking.
  method DecodeLines(events: seq<seq<Written>>, payloads: seq<Bytes>, e: Ending, chunks: seq<Bytes>) returns (d: SseDecoder.Decoded)
    requires AllCarry(events, payloads) && SseDecoder.Concat(chunks) == StreamBytes(events, e)
    ensures d == SseDecoder.Decoded(payloads, false)
  {
    LinesReadBack(events, payloads, e);
    var r := SseDecoder.DecodeChunks(chunks);
    d := r.value;
  }

  // ---- the bounds ----

  // An event that is longer than the bounds is refused, whatever comes before and behind its lines.
  lemma {:induction false} TooMuchIsRefused(r: Reading, ws: seq<Written>, e: Ending, rest: Bytes)
    requires !r.done && r.size <= MAX_EVENT_BYTES && r.lines <= MAX_EVENT_LINES && forall i :: 0 <= i < |ws| ==> ws[i].Fine()
    requires r.size + Size(ws) > 16_777_216 || r.lines + |ws| > 65_536
    requires rest != [] && rest[0] == LF ==> !e.Cr?
    ensures Finish(r, EventBytes(ws, e) + rest).None?
    decreases |ws|
  {
    hide Finish, Dispatch, Written.Line, Written.Fine, NextLine, Valid, NoTerminator, DataValue;
    if ws == [] {
      EmptyLine();
      NextLineEnds([], e, rest);
      assert [] + e.Bytes() + rest == e.Bytes() + rest;
      FinishStep(r, e.Bytes() + rest);
    } else {
      var w, more := ws[0], EventBytes(ws[1..], e) + rest;
      StartsWithNoLf(ws[1..], e, rest);
      Assoc(w.Line() + e.Bytes(), EventBytes(ws[1..], e), rest);
      LineReads(w);
      if r.size + |w.Line()| + 1 <= MAX_EVENT_BYTES && r.lines < MAX_EVENT_LINES {
        ReadOneLine(r, w, e, more);
        var data := if w.Data? then [w.text] else [];
        TooMuchIsRefused(r.(size := r.size + |w.Line()| + 1, lines := r.lines + 1, data := r.data + data), ws[1..], e, rest);
      } else {
        NextLineEnds(w.Line(), e, more);
        FinishStep(r, w.Line() + e.Bytes() + more);
      }
    }
  }

  lemma EmptyLine()
    ensures NoTerminator([]) && Valid([])
  {
  }
}
