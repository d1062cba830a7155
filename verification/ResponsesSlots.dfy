// What the aggregate of a Responses stream holds in one place, told from the events that concern it.
module ResponsesSlots {
  import opened Wrappers
  import opened ResponsesItems
  import opened ResponsesSpec

  // ---- where an event belongs ----

  // The index an event gives, else that of the item it names, else the first.
  function Place(ids: map<string, nat>, outputIndex: Option<nat>, itemId: Option<string>): nat {
    if outputIndex.Some? then outputIndex.value
    else if itemId.Some? && itemId.value in ids then ids[itemId.value]
    else 0
  }

  // Items are registered under their ids.
  function Known(ids: map<string, nat>, e: Event): map<string, nat> {
    if e.ItemEvent? && e.item.Some? && e.item.value.head.id.Str? then ids[e.item.value.head.id.text := e.outputIndex.GetOr(0)] else ids
  }

  predicate Ends(e: Event) { e.EndEvent? || e.FailEvent? || e.ErrorEvent? }

  // ---- the texts of one part ----

  // Its text, its refusal, the summary of the same index, and which channels have said all they have to say.
  datatype Cell = Cell(text: string, refusal: string, summary: string, settled: set<Channel>)

  const EMPTY_CELL := Cell("", "", "", {})

  function Longer(a: string, b: string): string { if |a| < |b| then b else a }

  function BodyAt(parts: Option<seq<Part>>, j: nat): Body {
    if parts.Some? && j < |parts.value| then parts.value[j].body else EMPTY_BODY
  }

  // The channels a snapshot settles: those it says something on.
  function SettledBy(item: RawItem, j: nat): set<Channel> {
    var content, summary := BodyAt(item.content, j), BodyAt(item.summary, j);
    if item.head.kind == Some("message") then
      (if content.kind == Some("output_text") && content.text.GetOr("") != "" then {OutputText} else {})
      + (if content.kind == Some("refusal") && content.refusal.GetOr("") != "" then {Refusal} else {})
    else if item.head.kind == Some("reasoning") then
      (if summary.text.GetOr("") != "" then {SummaryText} else {})
      + (if content.text.GetOr("") != "" then {ReasoningText} else {})
    else {}
  }

  function Spoken(cell: Cell, channel: Channel, said: string): Cell {
    match channel
    case Refusal => cell.(refusal := said)
    case SummaryText => cell.(summary := said)
    case _ => cell.(text := said)
  }

  function SpokenOn(cell: Cell, channel: Channel): string {
    match channel
    case Refusal => cell.refusal
    case SummaryText => cell.summary
    case _ => cell.text
  }

  // One event: a delta is appended unless its channel is settled, a done event says the whole and settles it, and an item
  // brings the longer of both texts and settles what it says.
  function CellNext(ids: map<string, nat>, cell: Cell, e: Event, i: nat, j: nat): Cell {
    match e
    case TextEvent(channel, outputIndex, itemId, partIndex, text, done) =>
      if Place(ids, outputIndex, itemId) != i || partIndex.GetOr(0) != j then cell
      else if done then Spoken(cell, channel, text.GetOr("")).(settled := cell.settled + {channel})
      else if channel in cell.settled then cell
      else Spoken(cell, channel, SpokenOn(cell, channel) + text.GetOr(""))
    case ItemEvent(outputIndex, Some(item)) =>
      if outputIndex.GetOr(0) != i then cell
      else
        Cell(Longer(cell.text, BodyAt(item.content, j).text.GetOr("")), Longer(cell.refusal, BodyAt(item.content, j).refusal.GetOr("")),
             Longer(cell.summary, BodyAt(item.summary, j).text.GetOr("")), cell.settled + SettledBy(item, j))
    case _ => cell
  }

  function CellAfter(ids: map<string, nat>, cell: Cell, events: seq<Event>, i: nat, j: nat): Cell
    decreases |events|
  {
    if events == [] || Ends(events[0]) then cell
    else CellAfter(Known(ids, events[0]), CellNext(ids, cell, events[0], i, j), events[1..], i, j)
  }

  // ---- what the state holds there ----

  function PartOf(parts: map<nat, Body>, j: nat): Body { if j in parts then parts[j] else EMPTY_BODY }

  function ItemOf(s: State, i: nat): AbsItem { if i in s.items then s.items[i] else AbsItem(EMPTY_HEAD, map[], map[]) }

  function SettledIn(finalized: set<Key>, i: nat, j: nat): set<Channel> {
    set c: Channel | c in {OutputText, Refusal, ReasoningText, SummaryText} && (i, j, c) in finalized
  }

  function TextsIn(item: AbsItem, j: nat, settled: set<Channel>): Cell {
    Cell(PartOf(item.content, j).text.GetOr(""), PartOf(item.content, j).refusal.GetOr(""), PartOf(item.summary, j).text.GetOr(""), settled)
  }

  function CellIn(s: State, i: nat, j: nat): Cell { TextsIn(ItemOf(s, i), j, SettledIn(s.finalized, i, j)) }

  lemma GrownTexts(a: AbsItem, channel: Channel, part: nat, text: Option<string>, done: bool, j: nat, settled: set<Channel>)
    requires GrowItem(a, channel, part, text, done).Some?
    ensures var was := TextsIn(a, j, settled);
            TextsIn(GrowItem(a, channel, part, text, done).value, j, settled)
            == if part != j then was
               else Spoken(was, channel, if done then text.GetOr("") else SpokenOn(was, channel) + text.GetOr(""))
  {
  }

  lemma SettlesOne(finalized: set<Key>, index: nat, part: nat, channel: Channel, i: nat, j: nat)
    ensures SettledIn(finalized + {(index, part, channel)}, i, j)
            == SettledIn(finalized, i, j) + if index == i && part == j then {channel} else {}
  {
    assert channel in {OutputText, Refusal, ReasoningText, SummaryText};
  }

  lemma SettledExactly(finalized: set<Key>, i: nat, j: nat, c: Channel)
    ensures c in SettledIn(finalized, i, j) <==> (i, j, c) in finalized
  {
    assert c in {OutputText, Refusal, ReasoningText, SummaryText};
  }

  lemma NothingThere(e: Event, j: nat, settled: set<Channel>)
    requires e.TextEvent? || e.ArgumentsEvent?
    ensures TextsIn(AbsItem(NewHead(e), map[], map[]), j, settled) == TextsIn(AbsItem(EMPTY_HEAD, map[], map[]), j, settled)
  {
  }

  // A delta that is not skipped: its own item grows, all others stay.
  lemma TextTaken(s: State, e: Event, i: nat, j: nat)
    requires e.TextEvent? && OnText(s, e).Some?
    requires e.done || (IndexOf(s.ids, e.outputIndex, e.itemId), e.partIndex.GetOr(0), e.channel) !in s.finalized
    ensures var index, part, settled := IndexOf(s.ids, e.outputIndex, e.itemId), e.partIndex.GetOr(0), SettledIn(s.finalized, i, j);
            && ItemOf(OnText(s, e).value, i)
               == (if index == i then GrowItem(ItemAt(s, i, e), e.channel, part, e.text, e.done).GetOr(ItemOf(s, i)) else ItemOf(s, i))
            && (index == i ==> GrowItem(ItemAt(s, i, e), e.channel, part, e.text, e.done).Some?)
            && SettledIn(OnText(s, e).value.finalized, i, j)
               == settled + if e.done && index == i && part == j then {e.channel} else {}
  {
    hide GrowItem, SettledIn, NewHead, IndexOf;
    SettlesOne(s.finalized, IndexOf(s.ids, e.outputIndex, e.itemId), e.partIndex.GetOr(0), e.channel, i, j);
    assert s.finalized + {} == s.finalized;
  }

  lemma TextStep(s: State, e: Event, i: nat, j: nat)
    requires e.TextEvent? && s.terminal.None? && Step(s, e).Some?
    ensures CellIn(Step(s, e).value, i, j) == CellNext(s.ids, CellIn(s, i, j), e, i, j)
  {
    var index, part, settled := Place(s.ids, e.outputIndex, e.itemId), e.partIndex.GetOr(0), SettledIn(s.finalized, i, j);
    assert IndexOf(s.ids, e.outputIndex, e.itemId) == index;
    SettledExactly(s.finalized, index, part, e.channel);
    hide GrowItem, SettledIn, PartOf, NewHead, IndexOf, ItemOf;
    if e.done || (index, part, e.channel) !in s.finalized {
      hide OnText, ItemAt;
      TextTaken(s, e, i, j);
      if index == i {
        GrownTexts(ItemAt(s, i, e), e.channel, part, e.text, e.done, j, settled);
        SameTexts(s, e, i, j, settled);
      }
    }
  }

  lemma SameTexts(s: State, e: Event, i: nat, j: nat, settled: set<Channel>)
    requires e.TextEvent?
    ensures TextsIn(ItemAt(s, i, e), j, settled) == TextsIn(ItemOf(s, i), j, settled)
  {
    NothingThere(e, j, settled);
    hide NewHead;
  }

  lemma JoinIsLonger(a: string, b: string)
    requires Join(a, b).Some?
    ensures Join(a, b).value == Longer(a, b)
  {
    if a <= b && b <= a { assert a == b; }
  }

  lemma JoinedPartAt(parts: map<nat, Body>, terminal: Option<seq<Part>>, j: nat)
    requires JoinParts(parts, BodiesOf(terminal)).Some?
    ensures var joined := PartOf(JoinParts(parts, BodiesOf(terminal)).value, j);
            && joined.text.GetOr("") == Longer(PartOf(parts, j).text.GetOr(""), BodyAt(terminal, j).text.GetOr(""))
            && joined.refusal.GetOr("") == Longer(PartOf(parts, j).refusal.GetOr(""), BodyAt(terminal, j).refusal.GetOr(""))
  {
    var bodies := BodiesOf(terminal);
    if j < |bodies| {
      assert BodyAt(terminal, j) == bodies[j];
      if j in parts {
        assert JoinBody(parts[j], bodies[j]).Some?;
        JoinedFields(parts[j], bodies[j]);
      }
    }
    hide JoinBody;
  }

  lemma JoinedFields(b: Body, t: Body)
    requires JoinBody(b, t).Some?
    ensures JoinBody(b, t).value.text.GetOr("") == Longer(b.text.GetOr(""), t.text.GetOr(""))
    ensures JoinBody(b, t).value.refusal.GetOr("") == Longer(b.refusal.GetOr(""), t.refusal.GetOr(""))
  {
    if t.text.Some? { JoinIsLonger(b.text.GetOr(""), t.text.value); }
    if t.refusal.Some? { JoinIsLonger(b.refusal.GetOr(""), t.refusal.value); }
  }

  lemma RangeAt(terminal: Option<seq<Part>>, j: nat)
    ensures PartOf(Range(BodiesOf(terminal)), j) == BodyAt(terminal, j)
  {
  }

  lemma SettledHere(item: RawItem, index: nat, i: nat, j: nat, c: Channel)
    ensures (i, j, c) in MessageSnapshots(index, item) + ReasoningSnapshots(index, item) <==> index == i && c in SettledBy(item, j)
  {
  }

  lemma SettlesSnapshot(finalized: set<Key>, item: RawItem, index: nat, i: nat, j: nat)
    ensures SettledIn(finalized + MessageSnapshots(index, item) + ReasoningSnapshots(index, item), i, j)
            == SettledIn(finalized, i, j) + if index == i then SettledBy(item, j) else {}
  {
    var more := MessageSnapshots(index, item) + ReasoningSnapshots(index, item);
    forall c
      ensures c in SettledIn(finalized + MessageSnapshots(index, item) + ReasoningSnapshots(index, item), i, j)
              <==> c in SettledIn(finalized, i, j) + if index == i then SettledBy(item, j) else {}
    {
      SettledHere(item, index, i, j, c);
      SettledExactly(finalized, i, j, c);
      SettledExactly(finalized + MessageSnapshots(index, item) + ReasoningSnapshots(index, item), i, j, c);
    }
  }

  lemma ItemTexts(s: State, item: RawItem, index: nat, j: nat, settled: set<Channel>)
    requires OnItem(s, index, item).Some?
    ensures var was := TextsIn(ItemOf(s, index), j, settled);
            TextsIn(ItemOf(OnItem(s, index, item).value, index), j, settled)
            == Cell(Longer(was.text, BodyAt(item.content, j).text.GetOr("")),
                    Longer(was.refusal, BodyAt(item.content, j).refusal.GetOr("")),
                    Longer(was.summary, BodyAt(item.summary, j).text.GetOr("")), settled)
  {
    RangeAt(item.content, j);
    RangeAt(item.summary, j);
    if index in s.items {
      JoinedPartAt(s.items[index].content, item.content, j);
      JoinedPartAt(s.items[index].summary, item.summary, j);
    }
    hide MessageSnapshots, ReasoningSnapshots, JoinParts, JoinHead, BodyAt, BodiesOf, Range;
  }

  lemma ItemStep(s: State, e: Event, i: nat, j: nat)
    requires e.ItemEvent? && e.item.Some? && s.terminal.None? && Step(s, e).Some?
    ensures CellIn(Step(s, e).value, i, j) == CellNext(s.ids, CellIn(s, i, j), e, i, j)
  {
    var item, index := e.item.value, e.outputIndex.GetOr(0);
    hide MessageSnapshots, ReasoningSnapshots, SettledBy, JoinItem, FromRaw, BodyAt, SettledIn, PartOf;
    ItemTexts(s, item, index, j, SettledIn(s.finalized, i, j));
    SettlesSnapshot(s.finalized, item, index, i, j);
  }

  lemma OtherStep(s: State, e: Event, i: nat, j: nat)
    requires !e.TextEvent? && !(e.ItemEvent? && e.item.Some?) && s.terminal.None? && Step(s, e).Some?
    ensures CellIn(Step(s, e).value, i, j) == CellNext(s.ids, CellIn(s, i, j), e, i, j)
  {
    if e.ArgumentsEvent? { NothingThere(e, j, SettledIn(s.finalized, i, j)); }
    hide SettledIn, PartOf, NewHead;
  }

  lemma StepIn(s: State, e: Event, i: nat, j: nat)
    requires s.terminal.None? && Step(s, e).Some?
    ensures CellIn(Step(s, e).value, i, j) == CellNext(s.ids, CellIn(s, i, j), e, i, j)
  {
    hide Step, CellIn, CellNext;
    if e.TextEvent? { TextStep(s, e, i, j); } else if e.ItemEvent? && e.item.Some? { ItemStep(s, e, i, j); } else { OtherStep(s, e, i, j); }
  }

  lemma StepRegisters(s: State, e: Event)
    requires s.terminal.None? && Step(s, e).Some?
    ensures Step(s, e).value.ids == Known(s.ids, e) && (Step(s, e).value.terminal.Some? <==> Ends(e))
  {
    hide GrowItem, JoinItem, FromRaw, MessageSnapshots, ReasoningSnapshots, ItemAt;
  }

  lemma {:induction false} StaysEnded(s: State, events: seq<Event>)
    requires s.terminal.Some? && Steps(s, events).Some?
    ensures Steps(s, events).value == s
    decreases |events|
  {
    if events != [] { StaysEnded(s, events[1..]); }
  }

  lemma {:induction false} StepsIn(s: State, events: seq<Event>, i: nat, j: nat)
    requires s.terminal.None? && Steps(s, events).Some?
    ensures CellIn(Steps(s, events).value, i, j) == CellAfter(s.ids, CellIn(s, i, j), events, i, j)
    decreases |events|
  {
    hide Step, CellIn, CellNext, Known, Ends;
    if events != [] {
      StepIn(s, events[0], i, j);
      StepRegisters(s, events[0]);
      var next := Step(s, events[0]).value;
      if next.terminal.Some? { StaysEnded(next, events[1..]); EndingKeeps(s, events[0], i, j); } else { StepsIn(next, events[1..], i, j); }
    }
  }

  lemma EndingKeeps(s: State, e: Event, i: nat, j: nat)
    requires s.terminal.None? && Step(s, e).Some? && Ends(e)
    ensures CellIn(Step(s, e).value, i, j) == CellIn(s, i, j)
  {
    hide SettledIn, PartOf;
  }

  // Every part of every item says what the events for it say, and is settled when they settle it, whatever the others do.
  lemma PartsAreTold(events: seq<Event>, i: nat, j: nat)
    requires Steps(EMPTY_STATE, events).Some?
    ensures CellIn(Steps(EMPTY_STATE, events).value, i, j) == CellAfter(map[], EMPTY_CELL, events, i, j)
  {
    StepsIn(EMPTY_STATE, events, i, j);
    assert CellIn(EMPTY_STATE, i, j) == EMPTY_CELL;
  }

  // ---- the head of one item ----

  datatype HeadCell = HeadCell(kind: Option<string>, id: Field, callId: Field, name: Field, arguments: Field)

  function Named(s: Option<string>): Field { if s.Some? then Str(s.value) else Null }

  // What the first event of an item makes of it when the item itself was never announced.
  function MadeUp(e: Event): HeadCell
    requires e.TextEvent? || e.ArgumentsEvent?
  {
    match e
    case ArgumentsEvent(_, id, callId, name, _, _) => HeadCell(Some("function_call"), Named(id), Named(callId), Named(name), Str(""))
    case TextEvent(channel, _, id, _, _, _) =>
      match channel
      case OutputText => HeadCell(Some("message"), Named(id), Absent, Absent, Absent)
      case Refusal => HeadCell(Some("message"), Absent, Absent, Absent, Absent)
      case _ => HeadCell(Some("reasoning"), Named(id), Absent, Absent, Absent)
  }

  function Either(now: Field, was: Field): Field { if now.Str? && now.text != "" then now else was }

  function Announced(h: Head): HeadCell { HeadCell(h.kind, h.id, h.callId, h.name, h.arguments) }

  // An announced item fills in or confirms what was there; of two arguments the longer stays.
  function Merged(was: HeadCell, h: Head): HeadCell {
    HeadCell(if h.kind.Some? && h.kind.value != "" then h.kind else was.kind, Either(h.id, was.id), Either(h.callId, was.callId),
             Either(h.name, was.name),
             if h.arguments.Str? then Str(Longer(was.arguments.GetOr(""), h.arguments.text)) else was.arguments)
  }

  function HeadNext(ids: map<string, nat>, head: Option<HeadCell>, e: Event, i: nat): Option<HeadCell> {
    match e
    case TextEvent(_, outputIndex, itemId, _, _, _) =>
      if Place(ids, outputIndex, itemId) == i && head.None? then Some(MadeUp(e)) else head
    case ArgumentsEvent(outputIndex, itemId, _, _, text, done) =>
      if Place(ids, outputIndex, itemId) != i then head
      else
        var was := head.GetOr(MadeUp(e));
        Some(was.(arguments := Str((if done then "" else was.arguments.GetOr("")) + text.GetOr(""))))
    case ItemEvent(outputIndex, Some(item)) =>
      if outputIndex.GetOr(0) != i then head
      else if head.None? then Some(Announced(item.head))
      else Some(Merged(head.value, item.head))
    case _ => head
  }

  function HeadAfter(ids: map<string, nat>, head: Option<HeadCell>, events: seq<Event>, i: nat): Option<HeadCell>
    decreases |events|
  {
    if events == [] || Ends(events[0]) then head
    else HeadAfter(Known(ids, events[0]), HeadNext(ids, head, events[0], i), events[1..], i)
  }

  function HeadIn(s: State, i: nat): Option<HeadCell> { if i in s.items then Some(Announced(s.items[i].head)) else None }

  // What is settled has an item.
  ghost predicate Backed(s: State) { forall k :: k in s.finalized ==> k.0 in s.items }

  lemma GrownHead(a: AbsItem, channel: Channel, part: nat, text: Option<string>, done: bool)
    requires GrowItem(a, channel, part, text, done).Some?
    ensures GrowItem(a, channel, part, text, done).value.head == a.head
  {
  }

  lemma TextHead(s: State, e: Event, i: nat)
    requires e.TextEvent? && OnText(s, e).Some? && Backed(s)
    ensures HeadIn(OnText(s, e).value, i) == HeadNext(s.ids, HeadIn(s, i), e, i) && Backed(OnText(s, e).value)
  {
    var index, part := IndexOf(s.ids, e.outputIndex, e.itemId), e.partIndex.GetOr(0);
    if e.done || (index, part, e.channel) !in s.finalized { GrownHead(ItemAt(s, index, e), e.channel, part, e.text, e.done); }
    hide GrowItem;
  }

  lemma ArgumentsHead(s: State, e: Event, i: nat)
    requires e.ArgumentsEvent? && OnArguments(s, e).Some? && Backed(s)
    ensures HeadIn(OnArguments(s, e).value, i) == HeadNext(s.ids, HeadIn(s, i), e, i) && Backed(OnArguments(s, e).value)
  {
    assert "" + e.text.GetOr("") == e.text.GetOr("");
  }

  lemma JoinedHead(h: Head, t: Head)
    requires JoinHead(h, t).Some?
    ensures Announced(JoinHead(h, t).value) == Merged(Announced(h), t)
  {
    if t.arguments.Str? { JoinIsLonger(h.arguments.GetOr(""), t.arguments.text); }
  }

  lemma ItemHead(s: State, e: Event, i: nat)
    requires e.ItemEvent? && e.item.Some? && OnItem(s, e.outputIndex.GetOr(0), e.item.value).Some? && Backed(s)
    ensures var next := OnItem(s, e.outputIndex.GetOr(0), e.item.value).value;
            HeadIn(next, i) == HeadNext(s.ids, HeadIn(s, i), e, i) && Backed(next)
  {
    var index := e.outputIndex.GetOr(0);
    if index in s.items { JoinedHead(s.items[index].head, e.item.value.head); }
    hide JoinHead, JoinParts;
  }

  lemma StepHead(s: State, e: Event, i: nat)
    requires s.terminal.None? && Step(s, e).Some? && Backed(s)
    ensures var next := Step(s, e).value;
            Backed(next) && HeadIn(next, i) == if Ends(e) then HeadIn(s, i) else HeadNext(s.ids, HeadIn(s, i), e, i)
  {
    hide OnText, OnArguments, OnItem, Backed, HeadIn, HeadNext;
    if e.TextEvent? {
      TextHead(s, e, i);
    } else if e.ArgumentsEvent? {
      ArgumentsHead(s, e, i);
    } else if e.ItemEvent? && e.item.Some? {
      ItemHead(s, e, i);
    } else {
      OtherHead(s, e, i);
    }
  }

  lemma OtherHead(s: State, e: Event, i: nat)
    requires s.terminal.None? && Step(s, e).Some? && Backed(s)
    requires !e.TextEvent? && !e.ArgumentsEvent? && !(e.ItemEvent? && e.item.Some?)
    ensures var next := Step(s, e).value; Backed(next) && HeadIn(next, i) == HeadIn(s, i) == HeadNext(s.ids, HeadIn(s, i), e, i)
  {
  }

  lemma {:induction false} StepsHead(s: State, events: seq<Event>, i: nat)
    requires s.terminal.None? && Steps(s, events).Some? && Backed(s)
    ensures HeadIn(Steps(s, events).value, i) == HeadAfter(s.ids, HeadIn(s, i), events, i)
    decreases |events|
  {
    hide Step, HeadIn, HeadNext, Known, Ends, Backed;
    if events != [] {
      StepHead(s, events[0], i);
      StepRegisters(s, events[0]);
      var next := Step(s, events[0]).value;
      if next.terminal.Some? { StaysEnded(next, events[1..]); } else { StepsHead(next, events[1..], i); }
    }
  }

  // Every item has the kind, the identity and the arguments the events for it say.
  lemma HeadsAreTold(events: seq<Event>, i: nat)
    requires Steps(EMPTY_STATE, events).Some?
    ensures HeadIn(Steps(EMPTY_STATE, events).value, i) == HeadAfter(map[], None, events, i)
  {
    StepsHead(EMPTY_STATE, events, i);
  }

  // ---- the end ----

  // The first event that ends the stream, with what it says; a failure without a response, and an error, say the least.
  function EndTold(events: seq<Event>): Option<Response> {
    if events == [] then None
    else match events[0]
      case EndEvent(_, response) => response
      case FailEvent(expected, Some(r), _) => Some(if r.output.None? then r.(output := Some([])) else r)
      case FailEvent(expected, None, error) => Some(Response(Some(expected), None, error, Some([]), None))
      case ErrorEvent(error) => Some(Response(Some("failed"), None, error, Some([]), None))
      case _ => EndTold(events[1..])
  }

  lemma EndStep(s: State, e: Event)
    requires s.terminal.None? && Step(s, e).Some?
    ensures Ends(e) ==> Step(s, e).value.terminal == EndTold([e]) && Step(s, e).value.terminal.Some?
    ensures !Ends(e) ==> Step(s, e).value.terminal.None?
    ensures e.EndEvent? ==> e.response.value.status == Some(e.expected)
  {
    StepRegisters(s, e);
    hide OnText, OnArguments, OnItem;
  }

  lemma {:induction false} EndIsTold(s: State, events: seq<Event>)
    requires s.terminal.None? && Steps(s, events).Some?
    ensures Steps(s, events).value.terminal == EndTold(events)
    decreases |events|
  {
    hide Step;
    if events != [] {
      EndStep(s, events[0]);
      var next := Step(s, events[0]).value;
      if Ends(events[0]) { StaysEnded(next, events[1..]); } else { EndIsTold(next, events[1..]); }
    }
  }

  // What is aggregated has the status, the reason, the error and the usage of that event.
  lemma PayloadIsTold(events: seq<Event>)
    requires Aggregate(events).Some?
    ensures EndTold(events).Some?
    ensures var end, p := EndTold(events).value, Aggregate(events).value;
            && p.status == end.status && p.incompleteReason == end.incompleteReason && p.error == end.error && p.usage == end.usage
            && end.output.Some? && p.output.Some? && p.aggregated
  {
    hide Steps, CallsConfirmed, Output;
    EndIsTold(EMPTY_STATE, events);
  }

  // ---- calls at the end ----

  function TextIn(f: Field): string { if f.Str? then f.text else "" }

  // The text of one member, or of the other when that one is missing.
  function EitherText(f: Field, other: Field): string { TextIn(if f == Absent then other else f) }

  // A streamed call with its ids and its name.
  predicate Identified(h: HeadCell) {
    && h.kind == Some("function_call") && EitherText(h.id, h.callId) != "" && EitherText(h.callId, h.id) != "" && TextIn(h.name) != ""
  }

  // The terminal item is a call with the same ids and name, or one that says nothing at all.
  predicate Confirms(t: Head, h: HeadCell) {
    && t.kind == Some("function_call")
    && ((t.id == Absent && t.callId == Absent && t.name == Absent && t.arguments == Absent && t.status == Absent)
        || (EitherText(t.id, t.callId) == EitherText(h.id, h.callId) && EitherText(t.callId, t.id) == EitherText(h.callId, h.id)
            && TextIn(t.name) == TextIn(h.name)))
  }

  ghost predicate AllConfirmed(events: seq<Event>, terminal: seq<RawItem>) {
    forall i: nat ::
      var h := HeadAfter(map[], None, events, i);
      h.Some? && Identified(h.value) ==> i < |terminal| && Confirms(terminal[i].head, h.value)
  }

  lemma ConfirmedAlike(h: Head, i: nat, terminal: seq<RawItem>)
    ensures CallConfirmed(h, i, terminal)
            <==> (Identified(Announced(h)) ==> i < |terminal| && Confirms(terminal[i].head, Announced(h)))
  {
  }

  // A stream that ends is aggregated if and only if each streamed call with ids and a name is confirmed by the terminal
  // output at its index, and the items streamed join those of the terminal output.
  lemma ConfirmedExactly(events: seq<Event>)
    requires Steps(EMPTY_STATE, events).Some? && EndTold(events).Some? && EndTold(events).value.output.Some?
    ensures var terminal := EndTold(events).value.output.value;
            Aggregate(events).Some?
            <==> AllConfirmed(events, terminal) && Output(Steps(EMPTY_STATE, events).value.items, terminal).Some?
  {
    var s, terminal := Steps(EMPTY_STATE, events).value, EndTold(events).value.output.value;
    EndIsTold(EMPTY_STATE, events);
    hide Steps, Output, HeadAfter, EndTold, CallConfirmed, Identified, Confirms;
    forall i: nat
      ensures HeadIn(s, i) == HeadAfter(map[], None, events, i)
      ensures i in s.items ==>
                (CallConfirmed(s.items[i].head, i, terminal)
                 <==> (Identified(HeadIn(s, i).value) ==> i < |terminal| && Confirms(terminal[i].head, HeadIn(s, i).value)))
    {
      HeadsAreTold(events, i);
      if i in s.items { ConfirmedAlike(s.items[i].head, i, terminal); }
    }
    assert CallsConfirmed(s.items, terminal) <==> AllConfirmed(events, terminal);
  }
}
