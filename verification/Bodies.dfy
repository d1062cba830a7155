// From the chunks of an upstream body to the message: decoding and conversion together.
module BodyReading {
  import opened Wrappers
  import opened Utf8
  import opened SseFormat
  import opened SseDecoder

  // The JSON of every event, read by a library.
  function ParseAll<E>(parse: Bytes -> E, raws: seq<Bytes>): (events: seq<E>)
    ensures |events| == |raws| && forall i :: 0 <= i < |raws| ==> events[i] == parse(raws[i])
  {
    seq(|raws|, i requires 0 <= i < |raws| => parse(raws[i]))
  }

  lemma ParseAllConcat<E>(parse: Bytes -> E, a: seq<Bytes>, b: seq<Bytes>)
    ensures ParseAll(parse, a + b) == ParseAll(parse, a) + ParseAll(parse, b)
  {
  }

  // What is read of a body whose chunks arrive, and then end or break off.
  function Heard(chunks: seq<Bytes>, broken: bool): Option<Reading> { ReadOn(START, Concat(chunks), broken) }

  // What is still to come of the body: `whole` is what will have been heard.
  ghost predicate Ahead(whole: Option<Reading>, decoder: IncrementalSseDecoder, rest: seq<Bytes>, broken: bool)
    reads decoder
  {
    whole == if decoder.done then Some(decoder.Reading()) else ReadOn(decoder.Reading(), decoder.buffer + Concat(rest), broken)
  }

  lemma PushedAhead(r: Reading, held: Bytes, chunks: seq<Bytes>, i: nat, broken: bool)
    requires i < |chunks| && !r.done && r.size <= MAX_EVENT_BYTES
    ensures var whole := ReadOn(r, held + Concat(chunks[i..]), broken);
            match SseFormat.Push(r, held + chunks[i])
            case None => whole.None?
            case Some((next, rest)) =>
              && (whole == if next.done then Some(next) else ReadOn(next, rest + Concat(chunks[i + 1..]), broken))
              && (whole.Some? ==> next.events <= whole.value.events)
  {
    ConcatNext(held, chunks, i);
    PushThenRead(r, held + chunks[i], Concat(chunks[i + 1..]), broken);
    if SseFormat.Push(r, held + chunks[i]).Some? {
      var (next, rest) := SseFormat.Push(r, held + chunks[i]).value;
      ReadOnKeepsEvents(next, rest + Concat(chunks[i + 1..]), broken);
    }
    hide SseFormat.Push, ReadOn;
  }

  lemma StartAhead(chunks: seq<Bytes>, broken: bool)
    ensures Heard(chunks, broken) == ReadOn(START, [] + Concat(chunks[0..]), broken)
  {
    assert chunks[0..] == chunks && [] + Concat(chunks) == Concat(chunks);
  }

  // A decoder that is not done holds no terminator, so a stream that breaks off now is not whole.
  lemma NothingAhead(r: Reading, buffer: Bytes)
    requires !r.done && NextLine(buffer, false).Open?
    ensures ReadOn(r, buffer + Concat([]), true).None?
  {
    assert buffer + Concat([]) == buffer;
  }

  lemma FinishAhead(r: Reading, buffer: Bytes)
    ensures ReadOn(r, buffer + Concat([]), false) == SseFormat.Finish(r, buffer)
  {
    assert buffer + Concat([]) == buffer;
  }
}

module ChatBodies {
  import opened Wrappers
  import opened BodyReading
  import opened Utf8
  import opened SseFormat
  import opened SseDecoder
  import opened ChatEvents
  import opened ChatLiveSpec
  import opened Anthropic
  import ChatLive
  import ChatBuffered
  import ChatBufferedSpec
  import ChatEquivalence

  // The live conversion of what is heard.
  function LiveMessage(c: Context, id: string, parse: Bytes -> Event, heard: Option<Reading>): Option<Message> {
    match heard
    case None => None
    case Some(reading) => Convert(c, id, ParseAll(parse, reading.events), reading.done)
  }

  // Events handed out before are a beginning of all there will be, so what fails on them fails.
  lemma FailsEarly(c: Context, id: string, parse: Bytes -> Event, heard: Option<Reading>, emitted: seq<Bytes>)
    requires heard.Some? ==> emitted <= heard.value.events
    requires OnEvents(c, Fresh(id), ParseAll(parse, emitted)).None?
    ensures LiveMessage(c, id, parse, heard).None?
  {
    if heard.Some? {
      var rest := heard.value.events[|emitted|..];
      assert emitted + rest == heard.value.events;
      ParseAllConcat(parse, emitted, rest);
      OnEventsConcat(c, Fresh(id), ParseAll(parse, emitted), ParseAll(parse, rest));
    }
  }

  // The events of one push, fed to the conversion.
  lemma FedOn(c: Context, id: string, parse: Bytes -> Event, before: seq<Bytes>, new_: seq<Bytes>, l: Live)
    requires OnEvents(c, Fresh(id), ParseAll(parse, before)) == Some(l)
    ensures OnEvents(c, Fresh(id), ParseAll(parse, before + new_)) == OnEvents(c, l, ParseAll(parse, new_))
  {
    ParseAllConcat(parse, before, new_);
    OnEventsConcat(c, Fresh(id), ParseAll(parse, before), ParseAll(parse, new_));
  }

  // The events of one push go through the conversion; what fails here fails whatever follows.
  method PassOn(state: ChatLive.ChatStreamState, parse: Bytes -> Event, raws: seq<Bytes>, sent: seq<Frame>,
                ghost id: string, ghost emitted: seq<Bytes>, ghost whole: Option<Reading>)
    returns (frames: seq<Frame>, error: Option<string>)
    requires state.Valid() && !state.failed && Tidy(state.View()) && state.client == Run(Waiting, sent)
    requires OnEvents(state.context, Fresh(id), ParseAll(parse, emitted)) == Some(state.View())
    requires whole.Some? ==> emitted + raws <= whole.value.events
    modifies state
    ensures error.None? ==>
              && state.Valid() && !state.failed && Tidy(state.View()) && state.client == Run(Waiting, frames)
              && OnEvents(state.context, Fresh(id), ParseAll(parse, emitted + raws)) == Some(state.View())
    ensures error.Some? ==>
              && LiveMessage(state.context, id, parse, whole).None?
              && (Run(Waiting, frames) == Waiting || Run(Waiting, frames).Receiving?)
  {
    hide OnEvents, ParseAll, Run, LiveMessage;
    FedOn(state.context, id, parse, emitted, raws, state.View());
    var more;
    more, error := ChatLive.FeedEvents(state, ParseAll(parse, raws));
    RunConcat(Waiting, sent, more);
    frames := sent + more;
    if error.Some? { FailsEarly(state.context, id, parse, whole, emitted + raws); }
  }

  // Decoder and conversion are at the same event.
  ghost predicate InStep(decoder: IncrementalSseDecoder, state: ChatLive.ChatStreamState, parse: Bytes -> Event, id: string, sent: seq<Frame>)
    reads decoder, state
  {
    && decoder.Valid() && state.Valid() && !state.failed && Tidy(state.View()) && state.client == Run(Waiting, sent)
    && OnEvents(state.context, Fresh(id), ParseAll(parse, decoder.emitted)) == Some(state.View())
  }

  ghost predicate Failed(c: Context, id: string, parse: Bytes -> Event, whole: Option<Reading>, sent: seq<Frame>) {
    LiveMessage(c, id, parse, whole).None? && (Run(Waiting, sent) == Waiting || Run(Waiting, sent).Receiving?)
  }

  method TakeChunk(decoder: IncrementalSseDecoder, state: ChatLive.ChatStreamState, parse: Bytes -> Event, chunks: seq<Bytes>, i: nat,
                   sent: seq<Frame>, ghost id: string, ghost broken: bool, ghost whole: Option<Reading>)
    returns (frames: seq<Frame>, error: Option<string>)
    requires i < |chunks| && !decoder.done && InStep(decoder, state, parse, id, sent) && Ahead(whole, decoder, chunks[i..], broken)
    modifies decoder, state
    ensures error.None? ==> InStep(decoder, state, parse, id, frames) && Ahead(whole, decoder, chunks[i + 1..], broken)
    ensures error.Some? ==> Failed(state.context, id, parse, whole, frames)
  {
    hide SseFormat.Push, ReadOn, OnEvents, ParseAll, Run, Concat, Tidy;
    ghost var emitted := decoder.emitted;
    PushedAhead(decoder.Reading(), decoder.buffer, chunks, i, broken);
    SentIsOpen(state, sent);
    var pushed := decoder.Push(chunks[i]);
    if pushed.Err? { return sent, Some("upstream event stream cannot be read"); }
    frames, error := PassOn(state, parse, pushed.value.events, sent, id, emitted, whole);
  }

  lemma SentIsOpen(state: ChatLive.ChatStreamState, sent: seq<Frame>)
    requires state.Valid() && state.client == Run(Waiting, sent)
    ensures Run(Waiting, sent) == Waiting || Run(Waiting, sent).Receiving?
  {
    hide Run;
  }

  method EndOfBody(decoder: IncrementalSseDecoder, state: ChatLive.ChatStreamState, parse: Bytes -> Event, broken: bool,
                   sent: seq<Frame>, ghost id: string, ghost whole: Option<Reading>)
    returns (frames: seq<Frame>, error: Option<string>)
    requires !decoder.done && InStep(decoder, state, parse, id, sent) && Ahead(whole, decoder, [], broken)
    modifies decoder, state
    ensures error.None? ==>
              && state.Valid() && !state.failed && Tidy(state.View()) && state.client == Run(Waiting, frames)
              && OnEvents(state.context, Fresh(id), ParseAll(parse, decoder.emitted)) == Some(state.View())
              && whole == Some(Reading(decoder.emitted, decoder.dataLines, decoder.eventSize, decoder.eventLines, decoder.done))
    ensures error.Some? ==> Failed(state.context, id, parse, whole, frames)
  {
    hide SseFormat.Push, SseFormat.Finish, ReadOn, OnEvents, ParseAll, Run, Concat, Tidy;
    SentIsOpen(state, sent);
    if broken {
      NothingAhead(decoder.Reading(), decoder.buffer);
      return sent, Some("upstream stream read failed");
    }
    ghost var emitted := decoder.emitted;
    FinishAhead(decoder.Reading(), decoder.buffer);
    var last := decoder.Finish();
    if last.Err? { return sent, Some("upstream event stream cannot be read"); }
    frames, error := PassOn(state, parse, last.value.events, sent, id, emitted, whole);
  }

  // `convert_chat_sse_stream`: for every chunking, and whether the body ends or breaks off, the frames
  // decode to the message of what is heard, or an error is reported after a start and open or whole blocks.
  method ConvertChatBody(context: Context, freshId: string, parse: Bytes -> Event, chunks: seq<Bytes>, broken: bool)
    returns (frames: seq<Frame>, error: Option<string>)
    ensures error.None? <==> LiveMessage(context, freshId, parse, Heard(chunks, broken)).Some?
    ensures error.None? ==>
              var m := LiveMessage(context, freshId, parse, Heard(chunks, broken)).value;
              Run(Waiting, frames) == Complete(m.content, m.stop)
    ensures error.Some? ==> var sent := Run(Waiting, frames); sent == Waiting || sent.Receiving?
  {
    assert Run(Waiting, []) == Waiting;
    hide SseFormat.Push, SseFormat.Finish, ReadOn, OnEvents, ParseAll, Run, Finished, Concat, Tidy, IncrementalSseDecoder.Valid;
    var decoder := new IncrementalSseDecoder();
    var state := new ChatLive.ChatStreamState(context, freshId);
    ghost var whole := Heard(chunks, broken);
    frames := [];
    StartAhead(chunks, broken);
    NothingFed(context, freshId, parse);
    FreshIsTidy(freshId);
    var i := 0;
    while i < |chunks| && !decoder.done
      invariant 0 <= i <= |chunks| && fresh(decoder) && fresh(state) && state.context == context
      invariant InStep(decoder, state, parse, freshId, frames) && Ahead(whole, decoder, chunks[i..], broken)
      decreases |chunks| - i
    {
      frames, error := TakeChunk(decoder, state, parse, chunks, i, frames, freshId, broken, whole);
      if error.Some? { return; }
      i := i + 1;
    }
    if !decoder.done {
      assert chunks[i..] == [];
      frames, error := EndOfBody(decoder, state, parse, broken, frames, freshId, whole);
      if error.Some? { return; }
    }
    var r := state.Finish(decoder.done);
    if r.Err? { return frames, Some(r.error); }
    RunConcat(Waiting, frames, r.value);
    return frames + r.value, None;
  }

  lemma FreshIsTidy(id: string)
    ensures Tidy(Fresh(id))
  {
  }

  lemma NothingFed(c: Context, id: string, parse: Bytes -> Event)
    ensures OnEvents(c, Fresh(id), ParseAll(parse, [])) == Some(Fresh(id))
  {
    assert ParseAll(parse, []) == [];
  }

  // `aggregate_chat_sse` and the transform, from the whole body.
  function BufferedMessage(c: Context, id: string, parse: Bytes -> Event, body: Bytes): Option<Message> {
    match Parse(body)
    case None => None
    case Some(reading) => ChatBufferedSpec.ConvertBuffered(c, id, ParseAll(parse, reading.events), reading.done)
  }

  method AggregateChatBody(context: Context, freshId: string, parse: Bytes -> Event, body: Bytes) returns (m: Option<Message>)
    ensures m == BufferedMessage(context, freshId, parse, body)
  {
    var decoded := ParseSseBytes(body);
    if decoded.Err? { return None; }
    m := ChatBuffered.ConvertChatBytes(context, freshId, ParseAll(parse, decoded.value.events), decoded.value.sawDone);
  }

  // A body the one-shot parser accepts, however it is cut into chunks, is converted live to what the
  // buffered path makes of it, up to joining adjacent texts, exactly unless a guard holds at its end.
  lemma BodiesAgree(c: Context, liveId: string, freshId: string, parse: Bytes -> Event, chunks: seq<Bytes>)
    requires Parse(Concat(chunks)).Some?
    requires forall e :: e in ParseAll(parse, Parse(Concat(chunks)).value.events) ==> ChatEquivalence.OrdinaryEvent(e)
    requires ChatEquivalence.EventsInTime(ChatBufferedSpec.NOTHING, ParseAll(parse, Parse(Concat(chunks)).value.events))
    requires "unknown" !in c.names.reverse && c.codec.parseObject("").None?
    ensures var live, whole := LiveMessage(c, liveId, parse, Heard(chunks, false)), BufferedMessage(c, freshId, parse, Concat(chunks));
            var reading := Parse(Concat(chunks)).value;
            match OnEvents(c, Fresh(liveId), ParseAll(parse, reading.events))
            case None => live.None? && whole.None?
            case Some(l) => ChatEquivalence.SameMessage(live, whole) <==> !ChatEquivalence.PathsPart(c, l, reading.done)
  {
    var reading := Parse(Concat(chunks)).value;
    DecodeAgreesWithParse(Concat(chunks));
    hide Parse, OnEvents, Convert, ChatBufferedSpec.ConvertBuffered, ChatEquivalence.EventsInTime, Concat;
    assert Heard(chunks, false) == Some(reading);
    ChatEquivalence.LiveEqualsBuffered(c, liveId, freshId, ParseAll(parse, reading.events), reading.done);
  }
}

module ResponsesBodies {
  import opened Wrappers
  import opened BodyReading
  import opened Utf8
  import opened SseFormat
  import opened SseDecoder
  import opened ResponsesItems
  import opened ResponsesSpec
  import opened ProgressiveSpec
  import opened Anthropic
  import Progressive
  import ResponsesAggregator
  import ResponsesTransformSpec

  // The buffered message of what is heard, provided it continues the text forwarded.
  function HeardMessage(c: ResponsesTransformSpec.Codec, omit: bool, parse: Bytes -> Event, heard: Option<Reading>): Option<Message> {
    match heard
    case None => None
    case Some(reading) =>
      match Progressive.Buffered(c, omit, ParseAll(parse, reading.events))
      case None => None
      case Some(m) => if Fits(Earlies(NOT_STARTED, ParseAll(parse, reading.events)), m.content) then Some(m) else None
  }

  lemma FailsEarly(c: ResponsesTransformSpec.Codec, omit: bool, parse: Bytes -> Event, heard: Option<Reading>, emitted: seq<Bytes>)
    requires heard.Some? ==> emitted <= heard.value.events
    requires Steps(EMPTY_STATE, ParseAll(parse, emitted)).None?
    ensures HeardMessage(c, omit, parse, heard).None?
  {
    if heard.Some? {
      var rest := heard.value.events[|emitted|..];
      assert emitted + rest == heard.value.events;
      ParseAllConcat(parse, emitted, rest);
      StepsConcat(EMPTY_STATE, ParseAll(parse, emitted), ParseAll(parse, rest));
    }
  }

  lemma FedOn(parse: Bytes -> Event, before: seq<Bytes>, raws: seq<Bytes>, s: State, early: Early)
    requires Steps(EMPTY_STATE, ParseAll(parse, before)) == Some(s) && Earlies(NOT_STARTED, ParseAll(parse, before)) == early
    ensures Steps(EMPTY_STATE, ParseAll(parse, before + raws)) == Steps(s, ParseAll(parse, raws))
    ensures Earlies(NOT_STARTED, ParseAll(parse, before + raws)) == Earlies(early, ParseAll(parse, raws))
  {
    ParseAllConcat(parse, before, raws);
    StepsConcat(EMPTY_STATE, ParseAll(parse, before), ParseAll(parse, raws));
    EarliesConcat(NOT_STARTED, ParseAll(parse, before), ParseAll(parse, raws));
  }

  // Aggregation and forwarding, at one event.
  ghost predicate AtEvent(aggregator: ResponsesAggregator.ResponsesSseAggregator, progressive: Progressive.ResponsesProgressiveState,
                          parse: Bytes -> Event, emitted: seq<Bytes>, sent: seq<Frame>)
    reads aggregator, progressive
  {
    && aggregator.Valid() && progressive.Valid() && (!progressive.started ==> progressive.emittedText == "")
    && progressive.client == Run(Waiting, sent)
    && Steps(EMPTY_STATE, ParseAll(parse, emitted)) == Some(aggregator.View())
    && Earlies(NOT_STARTED, ParseAll(parse, emitted)) == progressive.View()
  }

  ghost predicate Failed(c: ResponsesTransformSpec.Codec, omit: bool, parse: Bytes -> Event, whole: Option<Reading>, sent: seq<Frame>) {
    HeardMessage(c, omit, parse, whole).None? && (Run(Waiting, sent) == Waiting || Run(Waiting, sent).Receiving?)
  }

  method PassOn(aggregator: ResponsesAggregator.ResponsesSseAggregator, progressive: Progressive.ResponsesProgressiveState,
                parse: Bytes -> Event, raws: seq<Bytes>, sent: seq<Frame>, freshId: string,
                ghost c: ResponsesTransformSpec.Codec, ghost omit: bool, ghost emitted: seq<Bytes>, ghost whole: Option<Reading>)
    returns (frames: seq<Frame>, error: bool)
    requires AtEvent(aggregator, progressive, parse, emitted, sent) && (whole.Some? ==> emitted + raws <= whole.value.events)
    modifies aggregator, progressive
    ensures !error ==> AtEvent(aggregator, progressive, parse, emitted + raws, frames)
    ensures error ==> Failed(c, omit, parse, whole, frames)
  {
    hide Steps, Earlies, ParseAll, Run, HeardMessage;
    FedOn(parse, emitted, raws, aggregator.View(), progressive.View());
    var more;
    more, error := Progressive.FeedBoth(aggregator, progressive, ParseAll(parse, raws), freshId);
    RunConcat(Waiting, sent, more);
    frames := sent + more;
    if error { FailsEarly(c, omit, parse, whole, emitted + raws); }
  }

  lemma SentIsOpen(aggregator: ResponsesAggregator.ResponsesSseAggregator, progressive: Progressive.ResponsesProgressiveState,
                   parse: Bytes -> Event, emitted: seq<Bytes>, sent: seq<Frame>)
    requires AtEvent(aggregator, progressive, parse, emitted, sent)
    ensures Run(Waiting, sent) == Waiting || Run(Waiting, sent).Receiving?
  {
    hide Run;
  }

  method TakeChunk(decoder: IncrementalSseDecoder, aggregator: ResponsesAggregator.ResponsesSseAggregator,
                   progressive: Progressive.ResponsesProgressiveState, parse: Bytes -> Event, chunks: seq<Bytes>, i: nat,
                   sent: seq<Frame>, freshId: string, ghost c: ResponsesTransformSpec.Codec, ghost omit: bool, ghost broken: bool,
                   ghost whole: Option<Reading>)
    returns (frames: seq<Frame>, error: bool)
    requires i < |chunks| && !decoder.done && decoder.Valid() && Ahead(whole, decoder, chunks[i..], broken)
    requires AtEvent(aggregator, progressive, parse, decoder.emitted, sent)
    modifies decoder, aggregator, progressive
    ensures !error ==> decoder.Valid() && Ahead(whole, decoder, chunks[i + 1..], broken)
                       && AtEvent(aggregator, progressive, parse, decoder.emitted, frames)
    ensures error ==> Failed(c, omit, parse, whole, frames)
  {
    hide SseFormat.Push, ReadOn, ParseAll, Run, Concat, AtEvent;
    ghost var emitted := decoder.emitted;
    PushedAhead(decoder.Reading(), decoder.buffer, chunks, i, broken);
    SentIsOpen(aggregator, progressive, parse, emitted, sent);
    var pushed := decoder.Push(chunks[i]);
    if pushed.Err? { return sent, true; }
    frames, error := PassOn(aggregator, progressive, parse, pushed.value.events, sent, freshId, c, omit, emitted, whole);
  }

  method EndOfBody(decoder: IncrementalSseDecoder, aggregator: ResponsesAggregator.ResponsesSseAggregator,
                   progressive: Progressive.ResponsesProgressiveState, parse: Bytes -> Event, broken: bool,
                   sent: seq<Frame>, freshId: string, ghost c: ResponsesTransformSpec.Codec, ghost omit: bool, ghost whole: Option<Reading>)
    returns (frames: seq<Frame>, error: bool)
    requires !decoder.done && decoder.Valid() && Ahead(whole, decoder, [], broken)
    requires AtEvent(aggregator, progressive, parse, decoder.emitted, sent)
    modifies decoder, aggregator, progressive
    ensures !error ==> whole.Some? && whole.value.events == decoder.emitted
                       && AtEvent(aggregator, progressive, parse, decoder.emitted, frames)
    ensures error ==> Failed(c, omit, parse, whole, frames)
  {
    hide SseFormat.Push, SseFormat.Finish, ReadOn, ParseAll, Run, Concat, AtEvent;
    SentIsOpen(aggregator, progressive, parse, decoder.emitted, sent);
    if broken {
      NothingAhead(decoder.Reading(), decoder.buffer);
      return sent, true;
    }
    ghost var emitted := decoder.emitted;
    FinishAhead(decoder.Reading(), decoder.buffer);
    var last := decoder.Finish();
    if last.Err? { return sent, true; }
    frames, error := PassOn(aggregator, progressive, parse, last.value.events, sent, freshId, c, omit, emitted, whole);
  }

  // The whole body through decoder, aggregation and forwarding.
  method ReadBody(aggregator: ResponsesAggregator.ResponsesSseAggregator, progressive: Progressive.ResponsesProgressiveState,
                  parse: Bytes -> Event, chunks: seq<Bytes>, broken: bool, freshId: string,
                  ghost c: ResponsesTransformSpec.Codec, ghost omit: bool)
    returns (frames: seq<Frame>, error: bool)
    requires AtEvent(aggregator, progressive, parse, [], [])
    modifies aggregator, progressive
    ensures !error ==> Heard(chunks, broken).Some?
                       && AtEvent(aggregator, progressive, parse, Heard(chunks, broken).value.events, frames)
    ensures error ==> Failed(c, omit, parse, Heard(chunks, broken), frames)
  {
    hide ReadOn, ParseAll, Run, Concat, AtEvent, Failed, IncrementalSseDecoder.Valid;
    var decoder := new IncrementalSseDecoder();
    ghost var whole := Heard(chunks, broken);
    frames, error := [], false;
    StartAhead(chunks, broken);
    var i := 0;
    while i < |chunks| && !decoder.done
      invariant 0 <= i <= |chunks| && fresh(decoder) && !error
      invariant decoder.Valid() && Ahead(whole, decoder, chunks[i..], broken)
      invariant AtEvent(aggregator, progressive, parse, decoder.emitted, frames)
      decreases |chunks| - i
    {
      frames, error := TakeChunk(decoder, aggregator, progressive, parse, chunks, i, frames, freshId, c, omit, broken, whole);
      if error { return; }
      i := i + 1;
    }
    if !decoder.done {
      assert chunks[i..] == [];
      frames, error := EndOfBody(decoder, aggregator, progressive, parse, broken, frames, freshId, c, omit, whole);
    }
  }

  // `convert_responses_sse_stream`: for every chunking, and whether the body ends or breaks off, the
  // frames sent early and the final ones decode to the buffered message of what is heard, or there is an error.
  method ConvertResponsesBody(c: ResponsesTransformSpec.Codec, omit: bool, parse: Bytes -> Event, chunks: seq<Bytes>, broken: bool,
                              freshId: string)
    returns (frames: seq<Frame>, error: bool)
    ensures !error <==> HeardMessage(c, omit, parse, Heard(chunks, broken)).Some?
    ensures !error ==>
              var m := HeardMessage(c, omit, parse, Heard(chunks, broken)).value;
              Run(Waiting, frames) == Complete(m.content, m.stop)
    ensures error ==> Run(Waiting, frames) == Waiting || Run(Waiting, frames).Receiving?
  {
    assert Run(Waiting, []) == Waiting;
    NothingFed(parse);
    hide ReadOn, ParseAll, Run, Concat, Steps, Earlies, HeardMessage;
    var aggregator := new ResponsesAggregator.ResponsesSseAggregator();
    var progressive := new Progressive.ResponsesProgressiveState();
    frames, error := ReadBody(aggregator, progressive, parse, chunks, broken, freshId, c, omit);
    if error { return; }
    frames, error := SendRest(aggregator, progressive, c, omit, freshId, frames, parse, Heard(chunks, broken));
  }

  method SendRest(aggregator: ResponsesAggregator.ResponsesSseAggregator, progressive: Progressive.ResponsesProgressiveState,
                  c: ResponsesTransformSpec.Codec, omit: bool, freshId: string, sent: seq<Frame>,
                  ghost parse: Bytes -> Event, ghost heard: Option<Reading>)
    returns (frames: seq<Frame>, error: bool)
    requires heard.Some? && AtEvent(aggregator, progressive, parse, heard.value.events, sent)
    ensures !error <==> HeardMessage(c, omit, parse, heard).Some?
    ensures !error ==>
              var m := HeardMessage(c, omit, parse, heard).value;
              Run(Waiting, frames) == Complete(m.content, m.stop)
    ensures error ==> Run(Waiting, frames) == Waiting || Run(Waiting, frames).Receiving?
  {
    hide ParseAll, Run, Steps, Earlies, Finished, ResponsesTransformSpec.Transform;
    SentIsOpen(aggregator, progressive, parse, heard.value.events, sent);
    var last;
    last, error := Progressive.Conclude(aggregator, progressive, c, omit, freshId);
    RunConcat(Waiting, sent, last);
    assert sent + [] == sent;
    return sent + last, error;
  }

  lemma NothingFed(parse: Bytes -> Event)
    ensures Steps(EMPTY_STATE, ParseAll(parse, [])) == Some(EMPTY_STATE) && Earlies(NOT_STARTED, ParseAll(parse, [])) == NOT_STARTED
  {
    assert ParseAll(parse, []) == [];
  }
}
