// What aggregating a Responses stream means: items and parts by index, joined with the terminal payload.
module ResponsesSpec {
  import opened Wrappers
  import opened ResponsesItems
  import opened ResponsesOrder

  // An item by the indices of its parts.
  datatype AbsItem = AbsItem(head: Head, content: map<nat, Body>, summary: map<nat, Body>)

  function BodiesOf(parts: Option<seq<Part>>): seq<Body> { if parts.None? then [] else Bodies(parts.value) }

  function Range(bodies: seq<Body>): map<nat, Body> { map k: nat | k < |bodies| :: bodies[k] }

  function FromRaw(item: RawItem): AbsItem {
    AbsItem(item.head, Range(BodiesOf(item.content)), Range(BodiesOf(item.summary)))
  }

  // ---- joining an item with a snapshot ----

  function JoinIdentity(s: Field, t: Field): Option<Field> {
    if !t.Given() then Some(s) else if s.Given() && s != t then None else Some(t)
  }

  function JoinArguments(s: Field, t: Field): Option<Field> {
    if !t.Str? then Some(s)
    else match Join(s.GetOr(""), t.text)
      case None => None
      case Some(text) => Some(Str(text))
  }

  function JoinHead(h: Head, t: Head): Option<Head> {
    var id, callId, name, arguments :=
      JoinIdentity(h.id, t.id), JoinIdentity(h.callId, t.callId), JoinIdentity(h.name, t.name), JoinArguments(h.arguments, t.arguments);
    if KindsDiffer(h.kind, t.kind) || id.None? || callId.None? || name.None? || arguments.None? then None
    else Some(Head(Override(h.kind, t.kind), id.value, callId.value, name.value, arguments.value,
                   if t.status.Given() then t.status else h.status, if t.encrypted.Given() then t.encrypted else h.encrypted,
                   if t.caller.Str? then t.caller else h.caller, h.extra + t.extra))
  }

  function JoinItem(a: AbsItem, t: RawItem): Option<AbsItem> {
    var head, content, summary :=
      JoinHead(a.head, t.head), JoinParts(a.content, BodiesOf(t.content)), JoinParts(a.summary, BodiesOf(t.summary));
    if head.None? || content.None? || summary.None? then None else Some(AbsItem(head.value, content.value, summary.value))
  }

  // ---- events ----

  datatype Response = Response(
    status: Option<string>, incompleteReason: Option<string>, error: Option<string>, output: Option<seq<RawItem>>,
    usage: Option<string>)

  datatype Event =
    | Malformed
    | MetaEvent(id: Option<string>, model: Option<string>, tier: Option<string>)
    | ItemEvent(outputIndex: Option<nat>, item: Option<RawItem>)
    | TextEvent(channel: Channel, outputIndex: Option<nat>, itemId: Option<string>, partIndex: Option<nat>,
                text: Option<string>, done: bool)
    | ArgumentsEvent(outputIndex: Option<nat>, itemId: Option<string>, callId: Option<string>, name: Option<string>,
                     text: Option<string>, done: bool)
    | EndEvent(expected: string, response: Option<Response>)
    | FailEvent(expected: string, response: Option<Response>, error: Option<string>)
    | ErrorEvent(error: Option<string>)
    | OtherEvent

  type Key = (nat, nat, Channel)

  datatype State = State(items: map<nat, AbsItem>, ids: map<string, nat>, finalized: set<Key>, terminal: Option<Response>)

  const EMPTY_STATE := State(map[], map[], {}, None)

  function IndexOf(ids: map<string, nat>, outputIndex: Option<nat>, itemId: Option<string>): nat {
    match outputIndex
    case Some(i) => i
    case None => if itemId.Some? && itemId.value in ids then ids[itemId.value] else 0
  }

  function FieldOf(s: Option<string>): Field { if s.Some? then Str(s.value) else Null }

  const ASSISTANT: map<string, string> := map["role" := "assistant"]

  // The item that an event makes up for an output index not seen before.
  function NewHead(e: Event): Head
    requires e.TextEvent? || e.ArgumentsEvent?
  {
    match e
    case TextEvent(OutputText, _, id, _, _, _) =>
      EMPTY_HEAD.(kind := Some("message"), id := FieldOf(id), status := Str("completed"), extra := ASSISTANT)
    case TextEvent(Refusal, _, _, _, _, _) =>
      EMPTY_HEAD.(kind := Some("message"), status := Str("completed"), extra := ASSISTANT)
    case TextEvent(_, _, id, _, _, _) => EMPTY_HEAD.(kind := Some("reasoning"), id := FieldOf(id))
    case ArgumentsEvent(_, id, callId, name, _, _) =>
      EMPTY_HEAD.(kind := Some("function_call"), id := FieldOf(id), callId := FieldOf(callId), name := FieldOf(name),
                  arguments := Str(""))
  }

  function ItemAt(s: State, index: nat, e: Event): AbsItem
    requires e.TextEvent? || e.ArgumentsEvent?
  {
    if index in s.items then s.items[index] else AbsItem(NewHead(e), map[], map[])
  }

  function GrowItem(a: AbsItem, channel: Channel, part: nat, text: Option<string>, done: bool): Option<AbsItem> {
    match GrowPart(if channel.SummaryText? then a.summary else a.content, part, channel, text, done)
    case None => None
    case Some(parts) => Some(if channel.SummaryText? then a.(summary := parts) else a.(content := parts))
  }

  function OnText(s: State, e: Event): Option<State>
    requires e.TextEvent?
  {
    var index, part := IndexOf(s.ids, e.outputIndex, e.itemId), e.partIndex.GetOr(0);
    if !e.done && (index, part, e.channel) in s.finalized then Some(s)
    else match GrowItem(ItemAt(s, index, e), e.channel, part, e.text, e.done)
      case None => None
      case Some(grown) =>
        Some(s.(items := s.items[index := grown], finalized := s.finalized + if e.done then {(index, part, e.channel)} else {}))
  }

  function OnArguments(s: State, e: Event): Option<State>
    requires e.ArgumentsEvent?
  {
    var index := IndexOf(s.ids, e.outputIndex, e.itemId);
    var item := ItemAt(s, index, e);
    match Grown(item.head.arguments.GetOr(""), e.text.GetOr(""), e.done)
    case None => None
    case Some(text) => Some(s.(items := s.items[index := item.(head := item.head.(arguments := Str(text)))]))
  }

  predicate Says(text: Option<string>) { text.Some? && text.value != "" }

  // Parts whose whole text came with the item: later deltas for them are repeats.
  function MessageSnapshots(index: nat, item: RawItem): set<Key> {
    if item.head.kind != Some("message") then {}
    else
      var parts := BodiesOf(item.content);
      (set i: nat | i < |parts| && parts[i].kind == Some("output_text") && Says(parts[i].text) :: (index, i, OutputText))
      + (set i: nat | i < |parts| && parts[i].kind == Some("refusal") && Says(parts[i].refusal) :: (index, i, Refusal))
  }

  function ReasoningSnapshots(index: nat, item: RawItem): set<Key> {
    if item.head.kind != Some("reasoning") then {}
    else
      var summary, content := BodiesOf(item.summary), BodiesOf(item.content);
      (set i: nat | i < |summary| && Says(summary[i].text) :: (index, i, SummaryText))
      + (set i: nat | i < |content| && Says(content[i].text) :: (index, i, ReasoningText))
  }

  function OnItem(s: State, index: nat, item: RawItem): Option<State> {
    match if index in s.items then JoinItem(s.items[index], item) else Some(FromRaw(item))
    case None => None
    case Some(joined) =>
      Some(s.(items := s.items[index := joined],
              finalized := s.finalized + MessageSnapshots(index, item) + ReasoningSnapshots(index, item),
              ids := if item.head.id.Str? then s.ids[item.head.id.text := index] else s.ids))
  }

  function Failed(expected: string, response: Option<Response>, error: Option<string>): Response {
    match response
    case None => Response(Some(expected), None, error, Some([]), None)
    case Some(r) => if r.output.None? then r.(output := Some([])) else r
  }

  // One event; None where aggregation fails.
  function Step(s: State, e: Event): Option<State> {
    if e.Malformed? then None
    else if s.terminal.Some? then Some(s)
    else match e
      case ItemEvent(index, item) => if item.None? then Some(s) else OnItem(s, index.GetOr(0), item.value)
      case TextEvent(_, _, _, _, _, _) => OnText(s, e)
      case ArgumentsEvent(_, _, _, _, _, _) => OnArguments(s, e)
      case EndEvent(expected, response) =>
        if response.None? || response.value.status != Some(expected) then None else Some(s.(terminal := response))
      case FailEvent(expected, response, error) =>
        if Failed(expected, response, error).status != Some(expected) then None
        else Some(s.(terminal := Some(Failed(expected, response, error))))
      case ErrorEvent(error) => Some(s.(terminal := Some(Response(Some("failed"), None, error, Some([]), None))))
      case _ => Some(s)
  }

  function Steps(s: State, events: seq<Event>): Option<State>
    decreases |events|
  {
    if events == [] then Some(s)
    else match Step(s, events[0])
      case None => None
      case Some(next) => Steps(next, events[1..])
  }

  lemma {:induction false} StepsConcat(s: State, a: seq<Event>, b: seq<Event>)
    ensures Steps(s, a + b) == match Steps(s, a) case None => None case Some(next) => Steps(next, b)
    decreases |a|
  {
    hide Step;
    if a == [] {
      assert a + b == b;
    } else {
      assert (a + b)[0] == a[0] && (a + b)[1..] == a[1..] + b;
      if Step(s, a[0]).Some? { StepsConcat(Step(s, a[0]).value, a[1..], b); }
    }
  }

  // ---- the terminal payload ----

  datatype OutItem = OutItem(head: Head, content: seq<Body>, summary: seq<Body>)

  datatype Payload = Payload(
    status: Option<string>, incompleteReason: Option<string>, error: Option<string>, output: Option<seq<OutItem>>,
    usage: Option<string>, aggregated: bool)

  function Normal(a: AbsItem): OutItem { OutItem(a.head, InOrder(a.content), InOrder(a.summary)) }

  function Given(f: Field): Option<string> { if f.Given() then Some(f.text) else None }

  function FunctionIdentity(h: Head): Option<(string, string, string)> {
    var itemId, callId := Given(if h.id != Absent then h.id else h.callId), Given(if h.callId != Absent then h.callId else h.id);
    if h.kind != Some("function_call") || itemId.None? || callId.None? || !h.name.Given() then None
    else Some((itemId.value, callId.value, h.name.text))
  }

  // A bare function call in the terminal output stands for whatever was streamed.
  predicate IsSkeleton(h: Head) { h.id == h.callId == h.name == h.arguments == h.status == Absent }

  predicate CallConfirmed(h: Head, index: nat, terminal: seq<RawItem>) {
    FunctionIdentity(h).Some? ==>
      && index < |terminal| && terminal[index].head.kind == Some("function_call")
      && (IsSkeleton(terminal[index].head) || FunctionIdentity(terminal[index].head) == FunctionIdentity(h))
  }

  predicate CallsConfirmed(items: map<nat, AbsItem>, terminal: seq<RawItem>) {
    forall k :: k in items ==> CallConfirmed(items[k].head, k, terminal)
  }

  // Streamed items in ascending order, each joined with its counterpart or added at the end.
  function JoinOutput(items: map<nat, AbsItem>, terminal: seq<RawItem>, keys: seq<nat>, output: seq<AbsItem>): Option<seq<AbsItem>>
    requires forall k :: k in keys ==> k in items
    requires |terminal| <= |output|
    decreases |keys|
  {
    if keys == [] then Some(output)
    else
      var k := keys[0];
      if k < |terminal| then
        match JoinItem(items[k], terminal[k])
        case None => None
        case Some(joined) => JoinOutput(items, terminal, keys[1..], output[k := joined])
      else if k == |output| then JoinOutput(items, terminal, keys[1..], output + [items[k]])
      else None
  }

  function FromRaws(items: seq<RawItem>): (r: seq<AbsItem>)
    ensures |r| == |items|
  {
    seq(|items|, i requires 0 <= i < |items| => FromRaw(items[i]))
  }

  function Output(items: map<nat, AbsItem>, terminal: seq<RawItem>): Option<seq<AbsItem>> {
    if terminal == [] then Some(InOrder(items))
    else
      AscendIsAscending(items.Keys);
      JoinOutput(items, terminal, Ascend(items.Keys), FromRaws(terminal))
  }

  function Normals(items: seq<AbsItem>): (r: seq<OutItem>)
    ensures |r| == |items|
  {
    seq(|items|, i requires 0 <= i < |items| => Normal(items[i]))
  }

  function Finished(s: State): Option<Payload> {
    if s.terminal.None? || s.terminal.value.output.None? then None
    else
      var r := s.terminal.value;
      if !CallsConfirmed(s.items, r.output.value) then None
      else match Output(s.items, r.output.value)
        case None => None
        case Some(items) =>
          Some(Payload(r.status, r.incompleteReason, r.error, Some(Normals(items)), r.usage, true))
  }

  function Aggregate(events: seq<Event>): Option<Payload> {
    match Steps(EMPTY_STATE, events)
    case None => None
    case Some(s) => Finished(s)
  }
}
