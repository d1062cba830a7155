// Which text of a Responses stream goes out as it arrives, told from the events.
module ProgressiveSays {
  import opened Wrappers
  import opened ResponsesItems
  import opened ResponsesSpec
  import opened ProgressiveSpec

  predicate EndsIt(e: Event) { e.EndEvent? || e.FailEvent? || e.ErrorEvent? }

  // A delta of text or of refusal that says something.
  predicate Speaks(e: Event) { e.TextEvent? && e.channel in {OutputText, Refusal} && !e.done && e.text.GetOr("") != "" }

  // Anything of reasoning or of tool calls, as deltas, as whole texts, or as an item that is no message.
  predicate Other(e: Event) {
    match e
    case TextEvent(channel, _, _, _, _, _) => channel in {ReasoningText, SummaryText}
    case ArgumentsEvent(_, _, _, _, _, _) => true
    case ItemEvent(_, Some(item)) => item.head.kind.Some? && item.head.kind.value != "message"
    case _ => false
  }

  // Items announced at an explicit place under an id.
  function Announced(places: map<string, nat>, e: Event): map<string, nat> {
    if e.ItemEvent? && e.outputIndex.Some? && e.item.Some? && e.item.value.head.id.Str? then
      places[e.item.value.head.id.text := e.outputIndex.value]
    else places
  }

  // For the first part of the first item: by index, else by the item named, else by default.
  predicate OfTheFirst(places: map<string, nat>, e: Event)
    requires e.TextEvent?
  {
    && e.partIndex in {None, Some(0)}
    && if e.outputIndex.Some? then e.outputIndex == Some(0)
       else e.itemId.Some? && e.itemId.value in places ==> places[e.itemId.value] == 0
  }

  // Texts go out one after another up to the end of the stream or the first that belongs elsewhere; none does once
  // something else has come first.
  function GoesOut(places: map<string, nat>, spoken: bool, events: seq<Event>): string
    decreases |events|
  {
    if events == [] || EndsIt(events[0]) then ""
    else if Speaks(events[0]) then
      if OfTheFirst(places, events[0]) then events[0].text.value + GoesOut(places, true, events[1..]) else ""
    else if Other(events[0]) && !spoken then ""
    else GoesOut(Announced(places, events[0]), spoken, events[1..])
  }

  lemma {:induction false} NothingMore(p: Early, events: seq<Event>)
    requires p.terminal || p.blocked
    ensures Earlies(p, events).text == p.text
    decreases |events|
  {
    if events != [] { NothingMore(EarlyStep(p, events[0]), events[1..]); }
  }

  lemma {:induction false} ForwardedAfter(p: Early, events: seq<Event>)
    requires !p.terminal && !p.blocked
    ensures Earlies(p, events).text == p.text + GoesOut(p.indices, p.started, events)
    decreases |events|
  {
    if events != [] {
      var e, next := events[0], EarlyStep(p, events[0]);
      if next.terminal || next.blocked {
        NothingMore(next, events[1..]);
      } else {
        ForwardedAfter(next, events[1..]);
        if Speaks(e) { Assoc(p.text, e.text.value, GoesOut(next.indices, true, events[1..])); }
      }
    }
  }

  // What is forwarded of a stream is exactly that.
  lemma ForwardedExactly(events: seq<Event>)
    ensures Earlies(NOT_STARTED, events).text == GoesOut(map[], false, events)
  {
    ForwardedAfter(NOT_STARTED, events);
    assert "" + GoesOut(map[], false, events) == GoesOut(map[], false, events);
  }
}
