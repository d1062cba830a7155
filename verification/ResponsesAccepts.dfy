// Exactly which events and which terminal outputs the aggregation of a Responses stream accepts.
module ResponsesAccepts {
  import opened Wrappers
  import opened ResponsesItems
  import opened ResponsesOrder
  import opened ResponsesSpec
  import opened ResponsesSlots

  // ---- items that agree ----

  // One begins with the other; a text that is not there agrees with any.
  predicate TextsAgree(was: Option<string>, now: Option<string>) {
    now.Some? ==> was.GetOr("") <= now.value || now.value <= was.GetOr("")
  }

  predicate KindsAgree(was: Option<string>, now: Option<string>) { was.Some? && now.Some? ==> was == now }

  // Two names that are given are the same.
  predicate NamesAgree(was: Field, now: Field) { TextIn(was) != "" && TextIn(now) != "" ==> TextIn(was) == TextIn(now) }

  predicate HeadsAgree(was: Head, now: Head) {
    && KindsAgree(was.kind, now.kind)
    && NamesAgree(was.id, now.id) && NamesAgree(was.callId, now.callId) && NamesAgree(was.name, now.name)
    && TextsAgree(if was.arguments.Str? then Some(was.arguments.text) else None,
                  if now.arguments.Str? then Some(now.arguments.text) else None)
  }

  predicate BodiesAgree(was: Body, now: Body) {
    && KindsAgree(was.kind, now.kind)
    && TextsAgree(was.text, now.text) && TextsAgree(was.refusal, now.refusal) && TextsAgree(was.transcript, now.transcript)
  }

  // A list of parts that is not empty has all that were streamed.
  predicate PartsAgree(was: map<nat, Body>, now: Option<seq<Part>>) {
    now.Some? && now.value != [] ==> forall j :: j in was ==> j < |now.value| && BodiesAgree(was[j], now.value[j].body)
  }

  predicate ItemsAgree(was: AbsItem, now: RawItem) {
    HeadsAgree(was.head, now.head) && PartsAgree(was.content, now.content) && PartsAgree(was.summary, now.summary)
  }

  lemma HeadsJoin(was: Head, now: Head)
    ensures JoinHead(was, now).Some? <==> HeadsAgree(was, now)
  {
  }

  lemma BodiesJoin(was: Body, now: Body)
    ensures JoinBody(was, now).Some? <==> BodiesAgree(was, now)
  {
  }

  lemma PartsJoinExactly(was: map<nat, Body>, now: Option<seq<Part>>)
    ensures JoinParts(was, BodiesOf(now)).Some? <==> PartsAgree(was, now)
  {
    hide JoinBody, BodiesAgree;
    forall j | j in was && j < |BodiesOf(now)|
      ensures JoinBody(was[j], BodiesOf(now)[j]).Some? <==> BodiesAgree(was[j], now.value[j].body)
    {
      BodiesJoin(was[j], now.value[j].body);
    }
  }

  lemma ItemsJoinExactly(was: AbsItem, now: RawItem)
    ensures JoinItem(was, now).Some? <==> ItemsAgree(was, now)
  {
    HeadsJoin(was.head, now.head);
    PartsJoinExactly(was.content, now.content);
    PartsJoinExactly(was.summary, now.summary);
    hide JoinHead, JoinParts, HeadsAgree, PartsAgree;
  }

  // ---- events ----

  // What a place holds on a channel.
  function HeldAt(s: State, i: nat, j: nat, c: Channel): string { SpokenOn(CellIn(s, i, j), c) }

  // A delta always goes through; a whole text has to go on from what was said, an item has to agree with what is there, and
  // the end has to carry the status it announces.
  predicate Accepted(s: State, e: Event) {
    match e
    case Malformed => false
    case TextEvent(channel, outputIndex, itemId, partIndex, text, done) =>
      s.terminal.Some? || !done || HeldAt(s, Place(s.ids, outputIndex, itemId), partIndex.GetOr(0), channel) <= text.GetOr("")
    case ArgumentsEvent(outputIndex, itemId, _, _, text, done) =>
      var i := Place(s.ids, outputIndex, itemId);
      s.terminal.Some? || !done || (if i in s.items then TextIn(s.items[i].head.arguments) else "") <= text.GetOr("")
    case ItemEvent(outputIndex, Some(item)) =>
      s.terminal.Some? || (outputIndex.GetOr(0) in s.items ==> ItemsAgree(s.items[outputIndex.GetOr(0)], item))
    case EndEvent(expected, response) => s.terminal.Some? || (response.Some? && response.value.status == Some(expected))
    case FailEvent(expected, response, _) => s.terminal.Some? || response.None? || response.value.status == Some(expected)
    case _ => true
  }

  lemma TextAccepted(s: State, e: Event)
    requires s.terminal.None? && e.TextEvent?
    ensures OnText(s, e).Some? <==> Accepted(s, e)
  {
  }

  lemma StepExactly(s: State, e: Event)
    ensures Step(s, e).Some? <==> Accepted(s, e)
  {
    if s.terminal.None? && e.TextEvent? {
      TextAccepted(s, e);
      hide OnText, Accepted;
    } else if s.terminal.None? && e.ItemEvent? && e.item.Some? {
      if e.outputIndex.GetOr(0) in s.items { ItemsJoinExactly(s.items[e.outputIndex.GetOr(0)], e.item.value); }
      hide JoinItem, ItemsAgree, FromRaw, MessageSnapshots, ReasoningSnapshots;
    } else {
      hide OnText, OnItem;
    }
  }

  // A stream is followed to its end if and only if every event is accepted in the state that those before it led to.
  ghost predicate AllAccepted(s: State, events: seq<Event>)
    decreases |events|
  {
    events != [] ==> Accepted(s, events[0]) && (Step(s, events[0]).Some? ==> AllAccepted(Step(s, events[0]).value, events[1..]))
  }

  lemma {:induction false} StepsExactly(s: State, events: seq<Event>)
    ensures Steps(s, events).Some? <==> AllAccepted(s, events)
    decreases |events|
  {
    hide Step, Accepted;
    if events != [] {
      StepExactly(s, events[0]);
      if Step(s, events[0]).Some? { StepsExactly(Step(s, events[0]).value, events[1..]); }
    }
  }

  // ---- the terminal output ----

  ghost predicate AllJoin(items: map<nat, AbsItem>, terminal: seq<RawItem>, keys: seq<nat>) {
    forall k :: k in keys && k in items && k < |terminal| ==> JoinItem(items[k], terminal[k]).Some?
  }

  ghost predicate NoGap(keys: seq<nat>, from: nat) { forall k :: k in keys && from < k ==> k - 1 in keys }

  // Those still to come belong to the terminal items or behind what has come out.
  ghost predicate ToCome(keys: seq<nat>, ends: nat, from: nat) { Ascending(keys) && forall k :: k in keys ==> k < ends || from <= k }

  // What came out at an index: the streamed item joined with the terminal one, or the only one there is.
  ghost predicate CameOut(items: map<nat, AbsItem>, terminal: seq<RawItem>, keys: seq<nat>, output: seq<AbsItem>, r: seq<AbsItem>) {
    && |output| <= |r| && (forall k :: k in keys ==> k < |r|)
    && forall m: nat :: m < |r| ==>
         if m in keys then m in items && Some(r[m]) == (if m < |terminal| then JoinItem(items[m], terminal[m]) else Some(items[m]))
         else m < |output| && r[m] == output[m]
  }

  lemma LeastFirst(keys: seq<nat>)
    requires keys != [] && Ascending(keys)
    ensures Ascending(keys[1..]) && keys[0] !in keys[1..] && forall k :: k in keys <==> k == keys[0] || k in keys[1..]
    ensures forall k :: k in keys[1..] ==> keys[0] < k
  {
    assert keys == [keys[0]] + keys[1..];
  }

  lemma {:induction false} JoinOutputExactly(items: map<nat, AbsItem>, terminal: seq<RawItem>, keys: seq<nat>, output: seq<AbsItem>)
    requires (forall k :: k in keys ==> k in items) && |terminal| <= |output| && ToCome(keys, |terminal|, |output|)
    ensures var r := JoinOutput(items, terminal, keys, output);
            && (r.Some? <==> AllJoin(items, terminal, keys) && NoGap(keys, |output|))
            && (r.Some? ==> CameOut(items, terminal, keys, output, r.value))
    decreases |keys|
  {
    hide JoinItem, Ascending;
    if keys != [] {
      var k, rest := keys[0], keys[1..];
      LeastFirst(keys);
      assert k in keys;
      if k < |terminal| {
        if JoinItem(items[k], terminal[k]).Some? {
          JoinOutputExactly(items, terminal, rest, output[k := JoinItem(items[k], terminal[k]).value]);
          assert NoGap(keys, |output|) <==> NoGap(rest, |output|);
        }
      } else if k == |output| {
        JoinOutputExactly(items, terminal, rest, output + [items[k]]);
        assert NoGap(keys, |output|) <==> NoGap(rest, |output| + 1);
      } else {
        assert k - 1 !in keys;
      }
    }
  }

  // The output is made if and only if there is no terminal one, or the streamed items agree with the terminal items of their
  // index and go on behind them without a gap.
  lemma OutputExactly(items: map<nat, AbsItem>, terminal: seq<RawItem>)
    ensures Output(items, terminal).Some?
            <==> terminal == []
                 || ((forall k :: k in items && k < |terminal| ==> ItemsAgree(items[k], terminal[k]))
                     && forall k :: k in items && |terminal| < k ==> k - 1 in items)
  {
    var keys := Ascend(items.Keys);
    AscendIsAscending(items.Keys);
    hide Ascend, JoinItem, ItemsAgree, Ascending;
    assert forall k :: k in keys <==> k in items;
    if terminal != [] {
      JoinOutputExactly(items, terminal, keys, FromRaws(terminal));
      forall k | k in items && k < |terminal| ensures JoinItem(items[k], terminal[k]).Some? <==> ItemsAgree(items[k], terminal[k]) {
        ItemsJoinExactly(items[k], terminal[k]);
      }
    }
  }

  // At each index comes out the streamed item joined with the terminal one, or the only one there is; its texts and its
  // arguments are the longer of both.
  lemma OutputIsTold(items: map<nat, AbsItem>, terminal: seq<RawItem>, i: nat, j: nat)
    requires terminal != [] && Output(items, terminal).Some?
    ensures var r := Output(items, terminal).value;
            && (i < |r| <==> i < |terminal| || i in items)
            && (i < |r| && i >= |terminal| ==> r[i] == items[i])
            && (i < |terminal| && i !in items ==> r[i] == FromRaw(terminal[i]))
            && (i < |terminal| && i in items ==>
                  && TextsIn(r[i], j, {}) == JoinedTexts(TextsIn(items[i], j, {}), terminal[i], j)
                  && Announced(r[i].head) == Merged(Announced(items[i].head), terminal[i].head))
  {
    var keys := Ascend(items.Keys);
    AscendIsAscending(items.Keys);
    hide Ascend, Ascending, FromRaw;
    JoinOutputExactly(items, terminal, keys, FromRaws(terminal));
    var r := Output(items, terminal).value;
    hide JoinOutput, TextsIn, Merged, JoinedTexts;
    if i < |terminal| && i in items {
      assert i in keys;
      JoinedIsTold(items[i], terminal[i], j);
    }
    assert i < |r| ==> i in keys || i < |terminal|;
  }

  function JoinedTexts(was: Cell, now: RawItem, j: nat): Cell {
    Cell(Longer(was.text, BodyAt(now.content, j).text.GetOr("")), Longer(was.refusal, BodyAt(now.content, j).refusal.GetOr("")),
         Longer(was.summary, BodyAt(now.summary, j).text.GetOr("")), was.settled)
  }

  lemma JoinedIsTold(was: AbsItem, now: RawItem, j: nat)
    requires JoinItem(was, now).Some?
    ensures TextsIn(JoinItem(was, now).value, j, {}) == JoinedTexts(TextsIn(was, j, {}), now, j)
    ensures Announced(JoinItem(was, now).value.head) == Merged(Announced(was.head), now.head)
  {
    hide JoinHead, JoinParts, Longer;
    JoinedHead(was.head, now.head);
    JoinedPartAt(was.content, now.content, j);
    JoinedPartAt(was.summary, now.summary, j);
  }
}
