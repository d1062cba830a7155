// The decoder fed chunk by chunk, and the one-shot parser, as the code runs them.
module SseDecoder {
  import opened Wrappers
  import opened Utf8
  import opened SseFormat

  datatype SseError = InvalidUtf8 | EventTooLarge | PendingTooLarge

  datatype Decoded = Decoded(events: seq<Bytes>, sawDone: bool)

  datatype Scanned = Scanned(output: seq<Bytes>, consumed: nat, scan: nat)

  function TotalLength(parts: seq<Bytes>): nat { if parts == [] then 0 else |parts[0]| + TotalLength(parts[1..]) }

  lemma {:induction false} TotalLengthAppend(parts: seq<Bytes>, last: Bytes)
    ensures TotalLength(parts + [last]) == TotalLength(parts) + |last|
  {
    if parts == [] {
      assert parts + [last] == [last];
    } else {
      assert (parts + [last])[1..] == parts[1..] + [last];
      TotalLengthAppend(parts[1..], last);
    }
  }

  // Index of the next line terminator at or after `from`, or the length of the text.
  method Position(text: Bytes, from: nat) returns (index: nat)
    requires from <= |text|
    ensures from <= index <= |text| && (forall j :: from <= j < index ==> !Terminator(text[j]))
    ensures index < |text| ==> Terminator(text[index])
  {
    index := from;
    while index < |text| && text[index] != LF && text[index] != CR
      invariant from <= index <= |text|
      invariant forall j :: from <= j < index ==> !Terminator(text[j])
    {
      index := index + 1;
    }
  }

  // Comments contribute nothing; any other line is a field name, a colon and a value.
  method DataField(line: Bytes) returns (r: Option<Bytes>)
    requires line != []
    ensures r == DataValue(line)
  {
    if line[0] == COLON { return None; }
    var colon := FirstColon(line);
    var field, value := line, [];
    if colon < |line| {
      field, value := line[..colon], StripSpace(line[colon + 1..]);
    }
    return if field == DATA then Some(value) else None;
  }

  class IncrementalSseDecoder {
    var buffer: Bytes
    var scanOffset: nat
    var dataLines: seq<Bytes>
    var eventSize: nat
    var eventLines: nat
    var done: bool
    ghost var emitted: seq<Bytes>  // every event handed out so far

    ghost function Reading(): Reading
      reads this
    {
      SseFormat.Reading(emitted, dataLines, eventSize, eventLines, done)
    }

    // Nothing behind the resume offset ends a line; the buffer holds one unfinished line, at most
    // followed by a CR; what is pending stays within the event bound.
    ghost predicate Valid()
      reads this
    {
      && scanOffset <= |buffer|
      && (forall j :: 0 <= j < scanOffset ==> !Terminator(buffer[j]))
      && NextLine(buffer, false).Open?
      && (done ==> buffer == [] && eventSize == 0)
      && TotalLength(dataLines) <= eventSize
      && eventSize + |buffer| <= MAX_EVENT_BYTES
    }

    constructor ()
      ensures Valid() && Reading() == START && buffer == []
    {
      buffer, scanOffset, dataLines, eventSize, eventLines, done := [], 0, [], 0, 0, false;
      emitted := [];
    }

    // The part of `Valid` that a scan may start from: new bytes may follow the resume offset.
    ghost predicate Resumable()
      reads this
    {
      && scanOffset <= |buffer|
      && (forall j :: 0 <= j < scanOffset ==> !Terminator(buffer[j]))
      && (done ==> buffer == [] && eventSize == 0)
      && TotalLength(dataLines) <= eventSize <= MAX_EVENT_BYTES
    }

    method Push(chunk: Bytes) returns (r: Result<Decoded, SseError>)
      requires Valid()
      modifies this
      ensures match r
              case Err(_) => !old(done) && SseFormat.Push(old(Reading()), old(buffer) + chunk).None?
              case Ok(d) =>
                && Valid() && d.sawDone == done && emitted == old(emitted) + d.events
                && if old(done) then Reading() == old(Reading())
                   else SseFormat.Push(old(Reading()), old(buffer) + chunk) == Some((Reading(), buffer))
    {
      if done {
        return Ok(Decoded([], true));
      }
      ghost var before := buffer;
      buffer := buffer + chunk;
      assert forall j :: 0 <= j < scanOffset ==> buffer[j] == before[j];
      r := Scan(false);
    }

    method Finish() returns (r: Result<Decoded, SseError>)
      requires Valid()
      modifies this
      ensures match r
              case Err(_) => SseFormat.Finish(old(Reading()), old(buffer)).None?
              case Ok(d) =>
                && d.sawDone == done && emitted == old(emitted) + d.events
                && SseFormat.Finish(old(Reading()), old(buffer)) == Some(Reading())
    {
      r := Scan(true);
    }

    method Scan(eof: bool) returns (r: Result<Decoded, SseError>)
      requires Resumable()
      modifies this
      ensures match r
              case Err(_) =>
                if eof then SseFormat.Finish(old(Reading()), old(buffer)).None?
                else SseFormat.Push(old(Reading()), old(buffer)).None?
              case Ok(d) =>
                && d.sawDone == done && emitted == old(emitted) + d.events
                && if eof then SseFormat.Finish(old(Reading()), old(buffer)) == Some(Reading())
                   else Valid() && SseFormat.Push(old(Reading()), old(buffer)) == Some((Reading(), buffer))
    {
      hide SseFormat.Scan, Utf8.Valid, Trim, FirstTerminator, FirstColon, Join;
      var scanned := ScanLines(eof);
      if scanned.Err? { return Err(scanned.error); }
      var Scanned(output, consumed, scan) := scanned.value;
      if done {
        buffer, scanOffset := [], 0;
      } else if consumed > 0 {
        buffer, scanOffset := buffer[consumed..], scan - consumed;
      } else {
        scanOffset := scan;
      }
      if eventSize + |buffer| > MAX_EVENT_BYTES {
        return Err(PendingTooLarge);
      }
      if eof && !done {
        var closed := CloseInput();
        match closed {
          case Err(e) => return Err(e);
          case Ok(more) => Assoc(old(emitted), output, more); output := output + more;
        }
      }
      return Ok(Decoded(output, done));
    }

    // The loop of `Scan`: every complete line, up to [DONE].
    method ScanLines(eof: bool) returns (r: Result<Scanned, SseError>)
      requires Resumable()
      modifies this`dataLines, this`eventSize, this`eventLines, this`done, this`emitted
      ensures match r
              case Err(_) => SseFormat.Scan(old(Reading()), buffer, eof).None?
              case Ok(s) =>
                && s.consumed <= s.scan <= |buffer| && emitted == old(emitted) + s.output
                && (forall j :: s.consumed <= j < s.scan ==> !Terminator(buffer[j]))
                && TotalLength(dataLines) <= eventSize <= MAX_EVENT_BYTES && (done ==> eventSize == 0)
                && (!done ==> NextLine(buffer[s.consumed..], eof).Open?)
                && SseFormat.Scan(old(Reading()), buffer, eof)
                   == Some((Reading(), if done then [] else buffer[s.consumed..]))
    {
      hide SseFormat.Scan, Utf8.Valid, Trim, FirstTerminator, FirstColon, Join;
      var output: seq<Bytes> := [];
      var consumed := 0;
      var scan := if scanOffset < |buffer| then scanOffset else |buffer|;
      assert buffer[0..] == buffer;
      while true
        invariant 0 <= consumed <= scan <= |buffer|
        invariant forall j :: consumed <= j < scan ==> !Terminator(buffer[j])
        invariant emitted == old(emitted) + output
        invariant TotalLength(dataLines) <= eventSize <= MAX_EVENT_BYTES
        invariant done ==> buffer == [] && eventSize == 0
        invariant SseFormat.Scan(old(Reading()), buffer, eof) == SseFormat.Scan(Reading(), buffer[consumed..], eof)
        decreases |buffer| - consumed
      {
        var index := Position(buffer, scan);
        NextLineFrom(buffer, consumed, index, eof);
        ScanStep(Reading(), buffer[consumed..], eof);
        if index == |buffer| {
          scan := |buffer|;
          break;
        }
        if buffer[index] == CR && index + 1 == |buffer| && !eof {
          scan := index;
          break;
        }
        var consume :=
          if buffer[index] == CR && index + 1 < |buffer| && buffer[index + 1] == LF then index + 2 else index + 1;
        var line := buffer[consumed..index];
        if !Utf8.Valid(line) {
          return Err(InvalidUtf8);
        }
        var accepted := ProcessLine(line);
        if accepted.Err? { return Err(accepted.error); }
        Assoc(old(emitted), output, accepted.value);
        output := output + accepted.value;
        consumed, scan := consume, consume;
        if done { break; }
      }
      return Ok(Scanned(output, consumed, scan));
    }

    // The last part of `Scan` at end of input: the unfinished line, then the pending event.
    method CloseInput() returns (r: Result<seq<Bytes>, SseError>)
      requires !done && TotalLength(dataLines) <= eventSize <= MAX_EVENT_BYTES
      modifies this
      ensures match r
              case Err(_) => old(buffer) != [] && (Utf8.Valid(old(buffer)) ==> Feed(old(Reading()), old(buffer)).None?)
              case Ok(events) =>
                && emitted == old(emitted) + events
                && if old(buffer) == [] then Reading() == Dispatch(old(Reading()))
                   else Utf8.Valid(old(buffer)) && Feed(old(Reading()), old(buffer)).Some?
                        && Reading() == Dispatch(Feed(old(Reading()), old(buffer)).value)
    {
      var output := [];
      if buffer != [] {
        if !Utf8.Valid(buffer) {
          return Err(InvalidUtf8);
        }
        var line := buffer;
        buffer, scanOffset := [], 0;
        var accepted := ProcessLine(line);
        match accepted {
          case Err(e) => return Err(e);
          case Ok(more) => output := more;
        }
      }
      var more := DispatchEvent();
      Assoc(old(emitted), output, more);
      return Ok(output + more);
    }

    method ProcessLine(line: Bytes) returns (r: Result<seq<Bytes>, SseError>)
      requires TotalLength(dataLines) <= eventSize <= MAX_EVENT_BYTES
      modifies this`dataLines, this`eventSize, this`eventLines, this`done, this`emitted
      ensures r.Err? <==> Feed(old(Reading()), line).None?
      ensures r.Ok? ==> Feed(old(Reading()), line) == Some(Reading())
                        && emitted == old(emitted) + r.value && TotalLength(dataLines) <= eventSize <= MAX_EVENT_BYTES
    {
      eventSize := eventSize + |line| + 1;
      if line != [] { eventLines := eventLines + 1; }
      if eventSize > MAX_EVENT_BYTES || eventLines > MAX_EVENT_LINES {
        return Err(EventTooLarge);
      }
      if line == [] {
        var events := DispatchEvent();
        return Ok(events);
      }
      var value := DataField(line);
      if value.Some? {
        TotalLengthAppend(dataLines, value.value);
        dataLines := dataLines + [value.value];
      }
      return Ok([]);
    }

    method DispatchEvent() returns (events: seq<Bytes>)
      modifies this`dataLines, this`eventSize, this`eventLines, this`done, this`emitted
      ensures Reading() == Dispatch(old(Reading())) && emitted == old(emitted) + events
    {
      events := [];
      if dataLines != [] {
        var data := Join(dataLines);
        if IsDone(data) {
          done := true;
        } else {
          events := [data];
        }
      }
      dataLines, eventSize, eventLines := [], 0, 0;
      emitted := emitted + events;
    }
  }

  function Concat(chunks: seq<Bytes>): Bytes { if chunks == [] then [] else chunks[0] + Concat(chunks[1..]) }

  lemma ConcatNext(held: Bytes, chunks: seq<Bytes>, i: nat)
    requires i < |chunks|
    ensures held + Concat(chunks[i..]) == held + chunks[i] + Concat(chunks[i + 1..])
  {
    assert chunks[i..][1..] == chunks[i + 1..];
    Wrappers.Assoc(held, chunks[i], Concat(chunks[i + 1..]));
  }

  lemma ConcatEnd(held: Bytes, chunks: seq<Bytes>, i: nat)
    requires i == |chunks|
    ensures held + Concat(chunks[i..]) == held
  {
  }

  // The loop of both stream converters: push until [DONE] or the end of the body, then finish.
  method DecodeChunks(chunks: seq<Bytes>) returns (r: Result<Decoded, SseError>)
    ensures match r
            case Err(_) => Decode(Concat(chunks)).None?
            case Ok(d) => Decode(Concat(chunks)).Some? && d.events == Decode(Concat(chunks)).value.events
                          && d.sawDone == Decode(Concat(chunks)).value.done
  {
    var decoder := new IncrementalSseDecoder();
    var events := [];
    var i := 0;
    assert chunks[0..] == chunks && decoder.buffer + Concat(chunks) == Concat(chunks);
    ghost var whole := Decode(Concat(chunks));
    assert whole == SseFormat.Finish(decoder.Reading(), decoder.buffer + Concat(chunks[0..]));
    hide Decode, SseFormat.Finish, SseFormat.Push, Concat, IncrementalSseDecoder.Valid;
    while i < |chunks| && !decoder.done
      invariant 0 <= i <= |chunks| && fresh(decoder) && decoder.Valid() && decoder.emitted == events
      invariant decoder.done ==> whole == Some(decoder.Reading())
      invariant !decoder.done ==>
        whole == SseFormat.Finish(decoder.Reading(), decoder.buffer + Concat(chunks[i..]))
      decreases |chunks| - i
    {
      ghost var held, rest := decoder.buffer, Concat(chunks[i + 1..]);
      ConcatNext(held, chunks, i);
      PushThenFinish(decoder.Reading(), held + chunks[i], rest);
      var pushed := decoder.Push(chunks[i]);
      if pushed.Err? { return Err(pushed.error); }
      events := events + pushed.value.events;
      i := i + 1;
    }
    if !decoder.done {
      ConcatEnd(decoder.buffer, chunks, i);
      var last := decoder.Finish();
      if last.Err? { return Err(last.error); }
      events := events + last.value.events;
    }
    return Ok(Decoded(events, decoder.done));
  }

  // ---- the one-shot parser ----

  // `lines` are the lines of the text before `start`, and a line starts there.
  ghost predicate SplitUpTo(text: Bytes, start: nat, lines: seq<Bytes>) {
    start <= |text| && lines + Lines(text[start..]) == Lines(text)
  }

  lemma SplitOneMore(text: Bytes, start: nat, index: nat, lines: seq<Bytes>)
    requires SplitUpTo(text, start, lines) && start <= index < |text| && Terminator(text[index])
    requires forall j :: start <= j < index ==> !Terminator(text[j])
    ensures SplitUpTo(text, Consumed(text, index), lines + [text[start..index]])
  {
    LinesFrom(text, start, index);
    Shift(lines, text[start..index], Lines(text[Consumed(text, index)..]));
  }

  lemma SplitLast(text: Bytes, start: nat, lines: seq<Bytes>)
    requires SplitUpTo(text, start, lines) && (forall j :: start <= j < |text| ==> !Terminator(text[j]))
    ensures Lines(text) == if start < |text| then lines + [text[start..]] else lines
  {
    LinesFrom(text, start, |text|);
  }

  lemma SplitStart(text: Bytes)
    ensures SplitUpTo(text, 0, [])
  {
    assert text[0..] == text;
  }

  method SplitSseLines(text: Bytes) returns (lines: seq<Bytes>)
    ensures lines == Lines(text)
  {
    lines := [];
    var start := 0;
    var index := 0;
    hide Lines;
    SplitStart(text);
    while index < |text|
      invariant 0 <= start <= index <= |text| && SplitUpTo(text, start, lines)
      invariant forall j :: start <= j < index ==> !Terminator(text[j])
    {
      if text[index] == LF {
        SplitOneMore(text, start, index, lines);
        var end := if index > start && text[index - 1] == CR then index - 1 else index;
        lines := lines + [text[start..end]];
        start := index + 1;
      } else if text[index] == CR {
        SplitOneMore(text, start, index, lines);
        lines := lines + [text[start..index]];
        if index + 1 < |text| && text[index + 1] == LF { index := index + 1; }
        start := index + 1;
      }
      index := index + 1;
    }
    SplitLast(text, start, lines);
    if start < |text| { lines := lines + [text[start..]]; }
  }

  method ParseSseBytes(bytes: Bytes) returns (r: Result<Decoded, SseError>)
    ensures match r
            case Err(_) => Parse(bytes).None?
            case Ok(d) => Parse(bytes).Some? && d == Decoded(Parse(bytes).value.events, Parse(bytes).value.done)
  {
    if !Utf8.Valid(bytes) { return Err(InvalidUtf8); }
    var lines := SplitSseLines(bytes);
    var read := ReadLines(lines);
    if read.Err? { return Err(read.error); }
    var (events, dataLines) := read.value;
    var sawDone := false;
    if dataLines != [] {
      var data := Join(dataLines);
      if IsDone(data) { sawDone := true; } else { events := events + [data]; }
    }
    return Ok(Decoded(events, sawDone));
  }

  // The loop of the one-shot parser: the dispatched events and the data lines still pending. On
  // [DONE] it stops with the terminator's own data lines pending.
  method ReadLines(lines: seq<Bytes>) returns (r: Result<(seq<Bytes>, seq<Bytes>), SseError>)
    ensures match r
            case Err(_) => FeedAll(START, lines).None?
            case Ok((events, data)) =>
              && FeedAll(START, lines).Some? && FeedAll(START, lines).value.events == events
              && if FeedAll(START, lines).value.done then data != [] && IsDone(Join(data))
                 else FeedAll(START, lines).value.data == data
  {
    hide FeedAll, Trim, Join, DataValue;
    var events: seq<Bytes>, dataLines: seq<Bytes> := [], [];
    var eventSize: nat, eventLines: nat := 0, 0;
    var i := 0;
    assert lines[0..] == lines;
    while i < |lines|
      invariant 0 <= i <= |lines|
      invariant FeedAll(START, lines) == FeedAll(Reading(events, dataLines, eventSize, eventLines, false), lines[i..])
    {
      var line := lines[i];
      assert lines[i..] == [line] + lines[i + 1..];
      ghost var now := Reading(events, dataLines, eventSize, eventLines, false);
      FeedAllStep(now, line, lines[i + 1..]);
      i := i + 1;
      eventSize := eventSize + |line| + 1;
      if line != [] { eventLines := eventLines + 1; }
      if eventSize > MAX_EVENT_BYTES || eventLines > MAX_EVENT_LINES { return Err(EventTooLarge); }
      if line == [] {
        if dataLines != [] {
          var data := Join(dataLines);
          if IsDone(data) {
            FeedAllStops(Reading(events, [], 0, 0, true), lines[i..]);
            return Ok((events, dataLines));
          }
          events := events + [data];
        }
        dataLines, eventSize, eventLines := [], 0, 0;
        continue;
      }
      var value := DataField(line);
      if value.Some? { dataLines := dataLines + [value.value]; }
    }
    FeedAllStops(Reading(events, dataLines, eventSize, eventLines, false), lines[i..]);
    return Ok((events, dataLines));
  }
}
