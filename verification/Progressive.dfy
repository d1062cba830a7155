// The live Responses stream: leading text goes out as it arrives, the rest once the message is settled.
module ProgressiveSpec {
  import opened Wrappers
  import opened ResponsesItems
  import opened ResponsesSpec
  import Anthropic

  // What has been forwarded, and whether more may be.
  datatype Early = Early(blocked: bool, started: bool, indices: map<string, nat>, text: string, terminal: bool)

  const NOT_STARTED := Early(false, false, map[], "", false)

  predicate Ends(e: Event) { e.EndEvent? || e.FailEvent? || e.ErrorEvent? }

  // Output that comes before any text keeps text from going first.
  predicate ComesFirst(e: Event) {
    || (e.TextEvent? && (e.channel.ReasoningText? || e.channel.SummaryText?))
    || e.ArgumentsEvent?
    || (e.ItemEvent? && e.item.Some? && e.item.value.head.kind.Some? && e.item.value.head.kind != Some("message"))
  }

  function Registered(indices: map<string, nat>, e: Event): map<string, nat> {
    if e.ItemEvent? && e.item.Some? && e.item.value.head.id.Str? && e.outputIndex.Some? then
      indices[e.item.value.head.id.text := e.outputIndex.value]
    else indices
  }

  predicate LiveText(e: Event) { e.TextEvent? && (e.channel.OutputText? || e.channel.Refusal?) && !e.done && Says(e.text) }

  // Only the first part of the first item is forwarded, and only while nothing else has come.
  function EarlyStep(p: Early, e: Event): Early {
    if p.terminal then p
    else if Ends(e) then p.(terminal := true)
    else
      var indices, blocked := Registered(p.indices, e), p.blocked || (!p.started && ComesFirst(e));
      if !LiveText(e) then p.(indices := indices, blocked := blocked)
      else if blocked || IndexOf(indices, e.outputIndex, e.itemId) != 0 || e.partIndex.GetOr(0) != 0 then
        p.(indices := indices, blocked := true)
      else p.(indices := indices, started := true, text := p.text + e.text.value)
  }

  function Earlies(p: Early, events: seq<Event>): Early
    decreases |events|
  {
    if events == [] then p else Earlies(EarlyStep(p, events[0]), events[1..])
  }

  lemma {:induction false} EarliesConcat(p: Early, a: seq<Event>, b: seq<Event>)
    ensures Earlies(p, a + b) == Earlies(Earlies(p, a), b)
    decreases |a|
  {
    hide EarlyStep;
    if a == [] {
      assert a + b == b;
    } else {
      assert (a + b)[0] == a[0] && (a + b)[1..] == a[1..] + b;
      EarliesConcat(EarlyStep(p, a[0]), a[1..], b);
    }
  }

  // The message may still follow what has been forwarded.
  predicate Fits(p: Early, content: seq<Anthropic.Block>) {
    p.started ==> content != [] && content[0].Text? && p.text <= content[0].text
  }
}

module Progressive {
  import opened Wrappers
  import opened ResponsesItems
  import opened ResponsesSpec
  import opened ProgressiveSpec
  import opened Anthropic
  import opened AnthropicFrames
  import ResponsesTransformSpec
  import ResponsesAggregator
  import ResponsesTransform

  class ResponsesProgressiveState {
    var blockedBeforeText: bool
    var started: bool
    var messageId: Option<string>
    var model: Option<string>
    var serviceTier: Option<string>
    var itemIndices: map<string, nat>
    var emittedText: string
    var terminal: bool
    ghost var client: Client  // what the frames sent so far made of the client

    ghost predicate Valid()
      reads this
    {
      client == if started then Receiving([], Some(PartialText(emittedText))) else Waiting
    }

    ghost function View(): Early
      reads this
    {
      Early(blockedBeforeText, started, itemIndices, emittedText, terminal)
    }

    constructor ()
      ensures Valid() && View() == NOT_STARTED && client == Waiting
    {
      blockedBeforeText, started, itemIndices, emittedText, terminal := false, false, map[], "", false;
      messageId, model, serviceTier := None, None, None;
      client := Waiting;
    }

    // The start of the message and of its first block.
    method Start(freshId: string) returns (frames: seq<Frame>)
      requires Valid() && (!started ==> emittedText == "")
      modifies this`started, this`client
      ensures Valid() && started && client == Run(old(client), frames)
    {
      RunConcat(client, [], []);
      if started { return []; }
      started := true;
      frames := [MessageStart(messageId.GetOr(freshId), model.GetOr("unknown"), serviceTier), BlockStart(0, TextHeader)];
      RunOne(client, frames[0]);
      RunSnoc(client, [frames[0]], frames[1]);
      assert frames == [frames[0]] + [frames[1]];
      client := Run(client, frames);
    }

    method SendText(text: string, freshId: string) returns (frames: seq<Frame>)
      requires Valid() && (!started ==> emittedText == "")
      modifies this`started, this`emittedText, this`client
      ensures Valid() && started && emittedText == old(emittedText) + text && client == Run(old(client), frames)
    {
      frames := Start(freshId);
      StepsOfOpenBlock([], client.open.value, TextDelta(text));
      RunSnoc(old(client), frames, BlockDelta(0, TextDelta(text)));
      frames := frames + [BlockDelta(0, TextDelta(text))];
      emittedText := emittedText + text;
      client := Run(old(client), frames);
    }

    method OnRawEvent(e: Event, freshId: string) returns (r: Result<seq<Frame>, string>)
      requires Valid() && (!started ==> emittedText == "")
      modifies this
      ensures r.Err? <==> e.Malformed?
      ensures r.Ok? ==> Valid() && View() == EarlyStep(old(View()), e) && client == Run(old(client), r.value)
      ensures !started ==> emittedText == ""
    {
      RunConcat(client, [], []);
      if e.Malformed? { return Err("upstream Responses SSE contains malformed JSON"); }
      if terminal { return Ok([]); }
      if Ends(e) {
        terminal := true;
        return Ok([]);
      }
      if e.MetaEvent? {
        messageId := if e.id.Some? then e.id else messageId;
        model := if e.model.Some? then e.model else model;
        serviceTier := if e.tier.Some? then e.tier else serviceTier;
      }
      itemIndices := Registered(itemIndices, e);
      if !started && ComesFirst(e) { blockedBeforeText := true; }
      if !LiveText(e) { return Ok([]); }
      if IndexOf(itemIndices, e.outputIndex, e.itemId) != 0 || e.partIndex.GetOr(0) != 0 { blockedBeforeText := true; }
      if blockedBeforeText { return Ok([]); }
      var frames := SendText(e.text.value, freshId);
      return Ok(frames);
    }

    // The rest of the message, unless it contradicts what has gone out.
    method Finish(message: Message, freshId: string) returns (r: Result<seq<Frame>, string>)
      requires Valid()
      ensures r.Ok? <==> Fits(View(), message.content)
      ensures r.Ok? ==> Run(client, r.value) == Complete(message.content, message.stop)
    {
      if !started {
        var all := MessageToSse(message, freshId, model.GetOr("unknown"));
        return Ok(all);
      }
      var content := message.content;
      if content == [] || !content[0].Text? {
        return Err("upstream Responses terminal output does not match streamed text order");
      }
      if !(emittedText <= content[0].text) { return Err("upstream Responses terminal output text is inconsistent"); }
      var first := CloseFirst(content[0].text);
      assert content[..1] == [content[0]];
      var blocks := RemainingBlocks(content, 1);
      RunConcat(client, first, blocks);
      TerminalDecodes(content, message.stop);
      RunConcat(client, first + blocks, TerminalFrames(message.stop));
      return Ok(first + blocks + TerminalFrames(message.stop));
    }

    // What is left of the first block, and its end.
    method CloseFirst(text: string) returns (frames: seq<Frame>)
      requires Valid() && started && emittedText <= text
      ensures Run(client, frames) == Receiving([Text(text)], None)
    {
      var suffix := text[|emittedText|..];
      assert emittedText + suffix == text;
      frames := [];
      RunConcat(client, [], []);
      if suffix != "" {
        StepsOfOpenBlock([], client.open.value, TextDelta(suffix));
        frames := [BlockDelta(0, TextDelta(suffix))];
        RunOne(client, frames[0]);
      } else {
        assert text == emittedText;
      }
      assert Run(client, frames) == Receiving([], Some(PartialText(text)));
      assert [] + [Text(text)] == [Text(text)];
      RunSnoc(client, frames, BlockStop(0));
      frames := frames + [BlockStop(0)];
    }
  }

  // The buffered message of a stream.
  function Buffered(c: ResponsesTransformSpec.Codec, omit: bool, events: seq<Event>): Option<Message> {
    match Aggregate(events)
    case None => None
    case Some(payload) => ResponsesTransformSpec.Transform(c, omit, payload)
  }

  // Aggregation, transform and forwarding side by side: when all succeed, the frames sent early and
  // the final ones decode to exactly the buffered message.
  method ConvertResponsesStream(c: ResponsesTransformSpec.Codec, omit: bool, events: seq<Event>, freshId: string)
    returns (frames: seq<Frame>, error: bool)
    ensures !error <==> Buffered(c, omit, events).Some?
                        && Fits(Earlies(NOT_STARTED, events), Buffered(c, omit, events).value.content)
    ensures !error ==>
              var m := Buffered(c, omit, events).value;
              Run(Waiting, frames) == Complete(m.content, m.stop)
    ensures error ==> Run(Waiting, frames) == Waiting || Run(Waiting, frames).Receiving?
  {
    var aggregator := new ResponsesAggregator.ResponsesSseAggregator();
    var progressive := new ResponsesProgressiveState();
    RunConcat(Waiting, [], []);
    frames, error := FeedBoth(aggregator, progressive, events, freshId);
    if error { return; }
    var last;
    last, error := Conclude(aggregator, progressive, c, omit, freshId);
    RunConcat(Waiting, frames, last);
    return frames + last, error;
  }

  // The end of a stream: aggregation, transform, and the rest of the message.
  method Conclude(aggregator: ResponsesAggregator.ResponsesSseAggregator, progressive: ResponsesProgressiveState,
                  c: ResponsesTransformSpec.Codec, omit: bool, freshId: string)
    returns (frames: seq<Frame>, error: bool)
    requires aggregator.Valid() && progressive.Valid()
    ensures var message := match ResponsesSpec.Finished(aggregator.View())
                           case None => None
                           case Some(payload) => ResponsesTransformSpec.Transform(c, omit, payload);
            && (!error <==> message.Some? && Fits(progressive.View(), message.value.content))
            && (!error ==> Run(progressive.client, frames) == Complete(message.value.content, message.value.stop))
    ensures error ==> frames == []
  {
    var payload := aggregator.Finish();
    if payload.None? { return [], true; }
    var message := ResponsesTransform.TransformResponsesJson(c, omit, payload.value);
    if message.None? { return [], true; }
    var last := progressive.Finish(message.value, freshId);
    if last.Err? { return [], true; }
    return last.value, false;
  }

  // Events one after the other, through both, up to the first that fails.
  method FeedBoth(aggregator: ResponsesAggregator.ResponsesSseAggregator, progressive: ResponsesProgressiveState,
                  events: seq<Event>, freshId: string)
    returns (frames: seq<Frame>, error: bool)
    requires aggregator.Valid() && progressive.Valid() && (!progressive.started ==> progressive.emittedText == "")
    modifies aggregator, progressive
    ensures !error <==> Steps(old(aggregator.View()), events).Some?
    ensures !error ==>
              && aggregator.Valid() && progressive.Valid() && (!progressive.started ==> progressive.emittedText == "")
              && Steps(old(aggregator.View()), events) == Some(aggregator.View())
              && progressive.View() == Earlies(old(progressive.View()), events)
              && progressive.client == Run(old(progressive.client), frames)
    ensures error ==> var sent := Run(old(progressive.client), frames); sent == Waiting || sent.Receiving?
  {
    frames, error := [], false;
    assert events[0..] == events;
    RunConcat(progressive.client, [], []);
    ghost var view, early := aggregator.View(), progressive.View();
    for i := 0 to |events|
      invariant !error && aggregator.Valid() && progressive.Valid()
      invariant view == aggregator.View() && early == progressive.View() && (!progressive.started ==> progressive.emittedText == "")
      invariant progressive.client == Run(old(progressive.client), frames)
      invariant Steps(old(aggregator.View()), events) == Steps(view, events[i..])
      invariant Earlies(old(progressive.View()), events) == Earlies(early, events[i..])
    {
      hide ResponsesSpec.Step, EarlyStep, ResponsesAggregator.ResponsesSseAggregator.Valid, ResponsesAggregator.ResponsesSseAggregator.View;
      assert events[i..][1..] == events[i + 1..];
      var ok := aggregator.PushRaw(events[i]);
      if !ok { return frames, true; }
      NotMalformed(view, events[i]);
      var sent := progressive.OnRawEvent(events[i], freshId);
      RunConcat(old(progressive.client), frames, sent.value);
      frames := frames + sent.value;
      view, early := aggregator.View(), progressive.View();
    }
    assert events[|events|..] == [];
  }

  lemma NotMalformed(s: State, e: Event)
    requires ResponsesSpec.Step(s, e).Some?
    ensures !e.Malformed?
  {
  }
}
