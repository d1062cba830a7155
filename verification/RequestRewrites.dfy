// The request rewrites that rely on the alias maps: function names for Chat, call ids for Responses.
module ToolNames {
  import opened Wrappers
  import opened Identity

  // A JSON place that may hold a function name.
  type Slot = Option<string>

  datatype ChatMessage = ChatMessage(toolCalls: seq<Slot>, functionCall: Slot)

  function MessageSlots(messages: seq<ChatMessage>): seq<Slot> {
    if messages == [] then []
    else messages[0].toolCalls + [messages[0].functionCall] + MessageSlots(messages[1..])
  }

  function Names(slots: seq<Slot>): seq<string> {
    if slots == [] then []
    else (match slots[0] case Some(n) => [n] case None => []) + Names(slots[1..])
  }

  function Renamed(slot: Slot, m: AliasMap): Slot {
    match slot case None => None case Some(n) => Some(m.Wire(n))
  }

  function RenamedAll(slots: seq<Slot>, m: AliasMap): (r: seq<Slot>)
    ensures |r| == |slots| && forall i :: 0 <= i < |slots| ==> r[i] == Renamed(slots[i], m)
  {
    seq(|slots|, i requires 0 <= i < |slots| => Renamed(slots[i], m))
  }

  function RenamedMessages(messages: seq<ChatMessage>, m: AliasMap): seq<ChatMessage> {
    seq(|messages|, i requires 0 <= i < |messages| =>
      ChatMessage(RenamedAll(messages[i].toolCalls, m), Renamed(messages[i].functionCall, m)))
  }

  lemma {:induction false} NamesOfConcat(a: seq<Slot>, b: seq<Slot>)
    ensures Names(a + b) == Names(a) + Names(b)
    decreases |a|
  {
    if a == [] {
      assert a + b == b;
    } else {
      assert (a + b)[1..] == a[1..] + b;
      NamesOfConcat(a[1..], b);
    }
  }

  lemma {:induction false} NamesMembership(slots: seq<Slot>)
    ensures forall n :: Some(n) in slots <==> n in Names(slots)
    ensures |Names(slots)| <= |slots|
    decreases |slots|
  {
    if slots != [] {
      NamesMembership(slots[1..]);
      assert slots == [slots[0]] + slots[1..];
    }
  }

  lemma {:induction false} SlotsOfRenamedMessages(messages: seq<ChatMessage>, m: AliasMap)
    ensures MessageSlots(RenamedMessages(messages, m)) == RenamedAll(MessageSlots(messages), m)
    decreases |messages|
  {
    if messages != [] {
      SlotsOfRenamedMessages(messages[1..], m);
      assert RenamedMessages(messages, m)[1..] == RenamedMessages(messages[1..], m);
    }
  }

  // The map one request's function names get.
  function SlotMap(slots: seq<Slot>): AliasMap
    requires 2 * |slots| < TWO_64
  {
    NamesMembership(slots);
    MapOf(ChatName, Names(slots))
  }

  lemma NamesOfNothing()
    ensures Names(MessageSlots([])) == []
  {
  }

  lemma NamesOfMessage(messages: seq<ChatMessage>, i: nat)
    requires i < |messages|
    ensures Names(MessageSlots(messages[i..])) ==
            Names(messages[i].toolCalls)
            + (if messages[i].functionCall.Some? then [messages[i].functionCall.value] else [])
            + Names(MessageSlots(messages[i + 1..]))
  {
    assert messages[i..][1..] == messages[i + 1..];
    NamesOfConcat(messages[i].toolCalls, [messages[i].functionCall]);
    NamesOfConcat(messages[i].toolCalls + [messages[i].functionCall], MessageSlots(messages[i + 1..]));
  }

  method NamesIn(slots: seq<Slot>) returns (names: seq<string>)
    ensures names == Names(slots)
  {
    names := [];
    for i := 0 to |slots|
      invariant names == Names(slots[..i])
    {
      assert slots[..i + 1] == slots[..i] + [slots[i]];
      NamesOfConcat(slots[..i], [slots[i]]);
      if slots[i].Some? { names := names + [slots[i].value]; }
    }
    assert slots[..|slots|] == slots;
  }

  method NamesCalled(messages: seq<ChatMessage>) returns (names: seq<string>)
    ensures names == Names(MessageSlots(messages))
  {
    names := [];
    assert messages[0..] == messages;
    NamesOfNothing();
    ghost var all := Names(MessageSlots(messages));
    hide Names, MessageSlots;
    for i := 0 to |messages|
      invariant names + Names(MessageSlots(messages[i..])) == all
    {
      ghost var before := names;
      NamesOfMessage(messages, i);
      var called := NamesIn(messages[i].toolCalls);
      if messages[i].functionCall.Some? { called := called + [messages[i].functionCall.value]; }
      names := names + called;
      Assoc(before, called, Names(MessageSlots(messages[i + 1..])));
    }
  }

  class ChatRequest {
    var tools: seq<Slot>
    var toolChoice: Slot
    var messages: seq<ChatMessage>

    constructor (tools: seq<Slot>, toolChoice: Slot, messages: seq<ChatMessage>)
      ensures Slots() == tools + [toolChoice] + MessageSlots(messages)
    {
      this.tools, this.toolChoice, this.messages := tools, toolChoice, messages;
    }

    // Every place of the request that names a function, in reading order.
    function Slots(): seq<Slot>
      reads this
    {
      tools + [toolChoice] + MessageSlots(messages)
    }

    method CollectChatToolNames() returns (names: seq<string>)
      ensures names == Names(Slots())
    {
      names := NamesIn(tools);
      if toolChoice.Some? { names := names + [toolChoice.value]; }
      var called := NamesCalled(messages);
      names := names + called;
      NamesOfConcat(tools, [toolChoice]);
      NamesOfConcat(tools + [toolChoice], MessageSlots(messages));
    }

    method ApplyChatToolNames(m: AliasMap)
      modifies this
      ensures Slots() == RenamedAll(old(Slots()), m)
      ensures tools == RenamedAll(old(tools), m) && toolChoice == Renamed(old(toolChoice), m)
      ensures messages == RenamedMessages(old(messages), m)
    {
      tools := RenameSlots(tools, m);
      toolChoice := Renamed(toolChoice, m);
      ghost var before := messages;
      for i := 0 to |messages|
        modifies this`messages
        invariant |messages| == |before| && messages[i..] == before[i..]
        invariant messages[..i] == RenamedMessages(before, m)[..i]
      {
        var calls := RenameSlots(messages[i].toolCalls, m);
        messages := messages[i := ChatMessage(calls, Renamed(messages[i].functionCall, m))];
      }
      assert messages == RenamedMessages(before, m);
      SlotsOfRenamedMessages(before, m);
    }

    // Collect, build the map, apply it.
    method PrepareToolNames() returns (m: AliasMap)
      requires 2 * |Slots()| < TWO_64
      modifies this
      ensures m == SlotMap(old(Slots())) && Slots() == RenamedAll(old(Slots()), m)
      ensures tools == RenamedAll(old(tools), m) && toolChoice == Renamed(old(toolChoice), m)
      ensures messages == RenamedMessages(old(messages), m)
    {
      NamesMembership(Slots());
      var names := CollectChatToolNames();
      m := BuildMap(ChatName, names);
      ApplyChatToolNames(m);
    }
  }

  method RenameSlots(slots: seq<Slot>, m: AliasMap) returns (r: seq<Slot>)
    ensures r == RenamedAll(slots, m)
  {
    r := slots;
    for i := 0 to |slots|
      invariant |r| == |slots| && r[..i] == RenamedAll(slots, m)[..i] && r[i..] == slots[i..]
    {
      if slots[i].Some? && m.Wire(slots[i].value) != slots[i].value {
        r := r[i := Some(m.Wire(slots[i].value))];
      }
    }
  }

  // ---- which places name a function ----

  // A call of the message, or its legacy call.
  predicate CallsFunction(message: ChatMessage, n: string) { Some(n) in message.toolCalls || message.functionCall == Some(n) }

  ghost predicate SomeCalls(messages: seq<ChatMessage>, n: string) {
    exists k :: 0 <= k < |messages| && CallsFunction(messages[k], n)
  }

  lemma {:induction false} CallsAreSlots(messages: seq<ChatMessage>, n: string)
    ensures Some(n) in MessageSlots(messages) <==> SomeCalls(messages, n)
    decreases |messages|
  {
    if messages != [] {
      var rest := messages[1..];
      CallsAreSlots(rest, n);
      var own := messages[0].toolCalls + [messages[0].functionCall];
      assert Some(n) in own <==> CallsFunction(messages[0], n);
      assert MessageSlots(messages) == own + MessageSlots(rest);
      hide CallsFunction, MessageSlots;
      if SomeCalls(rest, n) {
        var k :| 0 <= k < |rest| && CallsFunction(rest[k], n);
        assert messages[k + 1] == rest[k];
      }
      if SomeCalls(messages, n) {
        var k :| 0 <= k < |messages| && CallsFunction(messages[k], n);
        assert k > 0 ==> rest[k - 1] == messages[k];
      }
    }
  }

  // The names the map is made of are those of the tools, of the choice, and of every call and legacy call: no more, no less.
  lemma EveryPlaceIsCollected(tools: seq<Slot>, choice: Slot, messages: seq<ChatMessage>, n: string)
    ensures n in Names(tools + [choice] + MessageSlots(messages))
            <==> Some(n) in tools || choice == Some(n) || SomeCalls(messages, n)
  {
    NamesMembership(tools + [choice] + MessageSlots(messages));
    CallsAreSlots(messages, n);
    hide MessageSlots, Names, SomeCalls;
  }

  // Every function name sent is legal, a response can undo the renaming, and two places carry one
  // name after the rewrite exactly when they did before.
  lemma {:induction false} PreparedRequestTheorem(slots: seq<Slot>, i: nat, j: nat)
    requires 2 * |slots| < TWO_64 && i < |slots| && j < |slots| && slots[i].Some? && slots[j].Some?
    ensures var m := SlotMap(slots);
            var sent := RenamedAll(slots, m);
            && IsChatFunctionName(sent[i].value) && m.Original(sent[i].value) == slots[i].value
            && (IsChatFunctionName(slots[i].value) ==> sent[i] == slots[i])
            && (sent[i] == sent[j] <==> slots[i] == slots[j])
  {
    NamesMembership(slots);
    AliasMapTheorem(ChatName, Names(slots));
    assert slots[i] in slots && slots[j] in slots;
    assert slots[i].value in Names(slots) && slots[j].value in Names(slots);
  }
}

module ResponsesRequest {
  import opened Wrappers
  import opened Identity

  datatype Block =
    | Thinking(signature: string)
    | ToolUse(id: Option<string>, name: string, input: string)
    | Text(text: string)
    | OtherBlock

  datatype Part = TextPart(text: string) | ImageUrl(url: string) | ImageFile(id: string) | File(json: string) | OtherPart

  datatype Content = Missing | Plain(text: string) | Parts(parts: seq<Part>) | OtherContent(json: string)

  datatype Call = Call(id: Option<string>, name: string, arguments: string)

  datatype ThinkingBlock = ThinkingBlock(signature: string, callId: Option<string>)

  datatype Message = Message(
    role: string, outputBlocks: Option<seq<Block>>, content: Content,
    thinkingBlocks: seq<ThinkingBlock>, toolCalls: Option<seq<Call>>, toolCallId: Option<string>)

  datatype Item =
    | FunctionCall(callId: string, name: string, arguments: string)
    | FunctionCallOutput(callId: string, output: Content)
    | Reasoning(replay: string)
    | Said(role: string, content: Content)

  // What a signature decodes to: malformed replay state, someone else's signature, or a replay.
  datatype Replay = Malformed | Foreign | Own(replay: string)

  function Normalized(content: Content): Content {
    match content
    case Missing => Plain("")
    case Parts(parts) => Parts(Known(parts))
    case _ => content
  }

  function Known(parts: seq<Part>): seq<Part> {
    if parts == [] then [] else (if parts[0].OtherPart? then [] else [parts[0]]) + Known(parts[1..])
  }

  predicate HasContent(content: Content) {
    (content.Plain? && content.text != "") || (content.Parts? && content.parts != [])
  }

  // ---- references to calls, before and after ----

  // A call or a result, with everything it carries.
  datatype Ref = CallRef(id: string, name: string, arguments: string) | ResultRef(id: string, output: Content)

  function BlockRef(block: Block): seq<Ref> {
    if block.ToolUse? then [CallRef(block.id.GetOr(""), block.name, block.input)] else []
  }

  function BlockRefs(blocks: seq<Block>): seq<Ref> {
    if blocks == [] then []
    else BlockRef(blocks[0]) + BlockRefs(blocks[1..])
  }

  function CallRefs(calls: seq<Call>): seq<Ref> {
    if calls == [] then [] else [CallRef(calls[0].id.GetOr(""), calls[0].name, calls[0].arguments)] + CallRefs(calls[1..])
  }

  // The calls and results one history message refers to. Output blocks of the assistant replace
  // its tool calls.
  function MessageRefs(m: Message): seq<Ref> {
    if m.role == "assistant" && m.outputBlocks.Some? then BlockRefs(m.outputBlocks.value)
    else if m.role == "tool" then [ResultRef(m.toolCallId.GetOr(""), Normalized(m.content))]
    else if m.role == "assistant" then CallRefs(m.toolCalls.GetOr([]))
    else []
  }

  function HistoryRefs(messages: seq<Message>): seq<Ref> {
    if messages == [] then [] else MessageRefs(messages[0]) + HistoryRefs(messages[1..])
  }

  function ItemRefs(items: seq<Item>): seq<Ref> {
    if items == [] then []
    else
      (match items[0]
       case FunctionCall(id, name, arguments) => [CallRef(id, name, arguments)]
       case FunctionCallOutput(id, output) => [ResultRef(id, output)]
       case _ => []) + ItemRefs(items[1..])
  }

  function Wired(refs: seq<Ref>, m: AliasMap): seq<Ref> {
    if refs == [] then [] else [refs[0].(id := m.Wire(refs[0].id))] + Wired(refs[1..], m)
  }

  lemma {:induction false} ItemRefsConcat(a: seq<Item>, b: seq<Item>)
    ensures ItemRefs(a + b) == ItemRefs(a) + ItemRefs(b)
    decreases |a|
  {
    if a == [] {
      assert a + b == b;
    } else {
      assert (a + b)[1..] == a[1..] + b;
      ItemRefsConcat(a[1..], b);
    }
  }

  lemma {:induction false} WiredConcat(a: seq<Ref>, b: seq<Ref>, m: AliasMap)
    ensures Wired(a + b, m) == Wired(a, m) + Wired(b, m)
    decreases |a|
  {
    if a == [] {
      assert a + b == b;
    } else {
      assert (a + b)[1..] == a[1..] + b;
      WiredConcat(a[1..], b, m);
    }
  }

  lemma {:induction false} WiredAt(refs: seq<Ref>, m: AliasMap, i: nat)
    requires i < |refs|
    ensures |Wired(refs, m)| == |refs| && Wired(refs, m)[i] == refs[i].(id := m.Wire(refs[i].id))
    decreases |refs|
  {
    if |refs| > 1 { WiredAt(refs[1..], m, if i > 0 then i - 1 else 0); }
  }

  // ---- collecting the ids ----

  ghost predicate Covered(refs: seq<Ref>, ids: seq<string>) { forall r :: r in refs ==> r.id == "" || r.id in ids }

  lemma CoveredConcat(a: seq<Ref>, b: seq<Ref>, ids: seq<string>, more: seq<string>)
    requires Covered(a, ids) && Covered(b, more) && forall x :: x in ids ==> x in more
    ensures Covered(a + b, more)
  {
  }

  method CollectBlocks(blocks: seq<Block>, before: seq<string>) returns (ids: seq<string>)
    ensures before <= ids && |ids| <= |before| + |blocks| && Covered(BlockRefs(blocks), ids)
  {
    ids := before;
    for j := 0 to |blocks|
      invariant before <= ids && |ids| <= |before| + j
      invariant forall r :: r in BlockRefs(blocks) ==> r.id == "" || r.id in ids || r in BlockRefs(blocks[j..])
    {
      assert blocks[j..][1..] == blocks[j + 1..];
      if blocks[j].ToolUse? && blocks[j].id.Some? { ids := ids + [blocks[j].id.value]; }
    }
  }

  method CollectCalls(calls: seq<Call>, before: seq<string>) returns (ids: seq<string>)
    ensures before <= ids && |ids| <= |before| + |calls| && Covered(CallRefs(calls), ids)
  {
    ids := before;
    for j := 0 to |calls|
      invariant before <= ids && |ids| <= |before| + j
      invariant forall r :: r in CallRefs(calls) ==> r.id == "" || r.id in ids || r in CallRefs(calls[j..])
    {
      assert calls[j..][1..] == calls[j + 1..];
      if calls[j].id.Some? { ids := ids + [calls[j].id.value]; }
    }
  }

  method CollectMessage(message: Message, before: seq<string>) returns (ids: seq<string>)
    ensures before <= ids && Covered(MessageRefs(message), ids)
    ensures |ids| <= |before| + |message.outputBlocks.GetOr([])| + |message.toolCalls.GetOr([])| + 1
  {
    ids := CollectBlocks(message.outputBlocks.GetOr([]), before);
    ghost var middle := ids;
    ids := CollectCalls(message.toolCalls.GetOr([]), ids);
    if message.role == "tool" && message.toolCallId.Some? { ids := ids + [message.toolCallId.value]; }
    assert forall x :: x in middle ==> x in ids;
  }

  // Every id the rewrite will look up is collected.
  method CollectResponsesHistoryCallIds(messages: seq<Message>) returns (ids: seq<string>)
    ensures Covered(HistoryRefs(messages), ids) && |ids| <= HistorySize(messages)
  {
    ids := [];
    hide Covered, MessageRefs, HistoryRefs;
    NothingCovered();
    for i := 0 to |messages|
      invariant Covered(HistoryRefs(messages[..i]), ids) && |ids| + HistorySize(messages[i..]) <= HistorySize(messages)
    {
      assert messages[i..][1..] == messages[i + 1..];
      ghost var before := ids;
      ids := CollectMessage(messages[i], ids);
      HistoryRefsSnoc(messages[..i], messages[i]);
      assert messages[..i + 1] == messages[..i] + [messages[i]];
      CoveredConcat(HistoryRefs(messages[..i]), MessageRefs(messages[i]), before, ids);
    }
    assert messages[..|messages|] == messages;
  }

  lemma NothingCovered()
    ensures Covered(HistoryRefs([]), [])
  {
  }

  lemma {:induction false} HistoryRefsSnoc(messages: seq<Message>, m: Message)
    ensures HistoryRefs(messages + [m]) == HistoryRefs(messages) + MessageRefs(m)
    decreases |messages|
  {
    hide MessageRefs;
    if messages == [] {
      assert [] + [m] == [m] && [m][1..] == [];
    } else {
      assert (messages + [m])[1..] == messages[1..] + [m];
      HistoryRefsSnoc(messages[1..], m);
      Assoc(MessageRefs(messages[0]), HistoryRefs(messages[1..]), MessageRefs(m));
    }
  }

  // ---- what each message becomes ----

  predicate Broken(signature: string, decode: string -> Replay) { decode(signature).Malformed? }

  predicate BrokenBlock(block: Block, decode: string -> Replay) { block.Thinking? && Broken(block.signature, decode) }

  // The rewrite fails on malformed replay state, and on nothing else.
  predicate Malforms(m: Message, decode: string -> Replay) {
    m.role == "assistant"
    && if m.outputBlocks.Some? then
         exists i :: 0 <= i < |m.outputBlocks.value| && BrokenBlock(m.outputBlocks.value[i], decode)
       else exists i :: 0 <= i < |m.thinkingBlocks| && Broken(m.thinkingBlocks[i].signature, decode)
  }

  function ReplayItem(signature: string, decode: string -> Replay): seq<Item> {
    match decode(signature)
    case Own(replay) => [Reasoning(replay)]
    case _ => []
  }

  function BlockItems(block: Block, ids: AliasMap, decode: string -> Replay): seq<Item> {
    match block
    case Thinking(signature) => ReplayItem(signature, decode)
    case ToolUse(id, name, arguments) => [FunctionCall(if id.Some? then ids.Wire(id.value) else "", name, arguments)]
    case Text(text) => [Said("assistant", Plain(text))]
    case OtherBlock => []
  }

  function BlocksItems(blocks: seq<Block>, ids: AliasMap, decode: string -> Replay): seq<Item>
    decreases |blocks|
  {
    if blocks == [] then []
    else BlocksItems(blocks[..|blocks| - 1], ids, decode) + BlockItems(blocks[|blocks| - 1], ids, decode)
  }

  // Reasoning that stands alone, in order.
  function Standalone(blocks: seq<ThinkingBlock>, decode: string -> Replay): seq<Item>
    decreases |blocks|
  {
    if blocks == [] then []
    else
      var last := blocks[|blocks| - 1];
      Standalone(blocks[..|blocks| - 1], decode) + if last.callId.None? then ReplayItem(last.signature, decode) else []
  }

  // Reasoning that belongs to one call, in order.
  function PairedFor(blocks: seq<ThinkingBlock>, id: string, decode: string -> Replay): seq<Item>
    decreases |blocks|
  {
    if blocks == [] then []
    else
      var last := blocks[|blocks| - 1];
      PairedFor(blocks[..|blocks| - 1], id, decode) + if last.callId == Some(id) then ReplayItem(last.signature, decode) else []
  }

  predicate CalledIn(calls: seq<Call>, id: string) { exists j :: 0 <= j < |calls| && calls[j].id.GetOr("") == id }

  // Each call, with its reasoning right before the first call of that id.
  function CallItems(calls: seq<Call>, blocks: seq<ThinkingBlock>, ids: AliasMap, decode: string -> Replay): seq<Item>
    decreases |calls|
  {
    if calls == [] then []
    else
      var before, last := calls[..|calls| - 1], calls[|calls| - 1];
      var id := last.id.GetOr("");
      CallItems(before, blocks, ids, decode)
      + ((if CalledIn(before, id) then [] else PairedFor(blocks, id, decode))
         + [FunctionCall(ids.Wire(id), last.name, last.arguments)])
  }

  function MessageItems(m: Message, ids: AliasMap, decode: string -> Replay): seq<Item> {
    var content, calls := Normalized(m.content), m.toolCalls.GetOr([]);
    if m.role == "assistant" && m.outputBlocks.Some? then
      var items := BlocksItems(m.outputBlocks.value, ids, decode);
      if items == [] then [Said("assistant", Plain(""))] else items
    else if m.role == "tool" then
      [FunctionCallOutput(if m.toolCallId.Some? then ids.Wire(m.toolCallId.value) else "", content)]
    else if m.role != "assistant" then [Said(m.role, content)]
    else Standalone(m.thinkingBlocks, decode)
         + (if HasContent(content) || calls == [] then [Said(m.role, content)] else [])
         + CallItems(calls, m.thinkingBlocks, ids, decode)
  }

  function AllItems(messages: seq<Message>, ids: AliasMap, decode: string -> Replay): seq<Item>
    decreases |messages|
  {
    if messages == [] then []
    else AllItems(messages[..|messages| - 1], ids, decode) + MessageItems(messages[|messages| - 1], ids, decode)
  }

  // ---- the rewrite ----

  // One more piece of history rewritten: `items` carry the references of `piece`.
  lemma OnePiece(input: seq<Item>, items: seq<Item>, piece: seq<Ref>, rest: seq<Ref>, ids: AliasMap, all: seq<Ref>)
    requires ItemRefs(items) == Wired(piece, ids) && ItemRefs(input) + Wired(piece + rest, ids) == all
    ensures ItemRefs(input + items) + Wired(rest, ids) == all
  {
    ItemRefsConcat(input, items);
    WiredConcat(piece, rest, ids);
    Assoc(ItemRefs(input), ItemRefs(items), Wired(rest, ids));
  }

  method RewriteBlock(block: Block, ids: AliasMap, decode: string -> Replay) returns (r: Result<seq<Item>, string>)
    requires ids.Wire("") == ""
    ensures r.Ok? ==> ItemRefs(r.value) == Wired(BlockRef(block), ids)
    ensures r.Err? <==> BrokenBlock(block, decode)
    ensures r.Ok? ==> r.value == BlockItems(block, ids, decode)
  {
    match block {
      case Thinking(signature) =>
        match decode(signature) {
          case Malformed => return Err("malformed replay state");
          case Foreign => return Ok([]);
          case Own(replay) => return Ok([Reasoning(replay)]);
        }
      case ToolUse(id, name, arguments) =>
        return Ok([FunctionCall(if id.Some? then ids.Wire(id.value) else "", name, arguments)]);
      case Text(text) => return Ok([Said("assistant", Plain(text))]);
      case OtherBlock => return Ok([]);
    }
  }

  lemma NoBlocks(ids: AliasMap, decode: string -> Replay)
    ensures BlocksItems([], ids, decode) == [] && Wired(BlockRefs([]), ids) == []
  {
  }

  lemma BlocksNext(blocks: seq<Block>, j: nat, ids: AliasMap, decode: string -> Replay)
    requires j < |blocks|
    ensures BlocksItems(blocks[..j + 1], ids, decode) == BlocksItems(blocks[..j], ids, decode) + BlockItems(blocks[j], ids, decode)
    ensures BlockRefs(blocks[j..]) == BlockRef(blocks[j]) + BlockRefs(blocks[j + 1..])
  {
    assert blocks[j..][1..] == blocks[j + 1..] && blocks[..j + 1][..j] == blocks[..j];
  }

  method RewriteBlocks(blocks: seq<Block>, ids: AliasMap, decode: string -> Replay)
    returns (r: Result<seq<Item>, string>)
    requires ids.Wire("") == ""
    ensures r.Ok? ==> ItemRefs(r.value) == Wired(BlockRefs(blocks), ids)
    ensures r.Err? <==> exists i :: 0 <= i < |blocks| && BrokenBlock(blocks[i], decode)
    ensures r.Ok? ==>
              var items := BlocksItems(blocks, ids, decode);
              r.value == if items == [] then [Said("assistant", Plain(""))] else items
  {
    var input: seq<Item> := [];
    assert blocks[0..] == blocks && blocks[..0] == [];
    ghost var all := Wired(BlockRefs(blocks), ids);
    NoBlocks(ids, decode);
    hide Wired, BlockRefs, BlockRef, BlocksItems, BlockItems, BrokenBlock;
    for j := 0 to |blocks|
      invariant ItemRefs(input) + Wired(BlockRefs(blocks[j..]), ids) == all
      invariant input == BlocksItems(blocks[..j], ids, decode)
      invariant forall i :: 0 <= i < j ==> !BrokenBlock(blocks[i], decode)
    {
      BlocksNext(blocks, j, ids, decode);
      var items := RewriteBlock(blocks[j], ids, decode);
      if items.Err? { return items; }
      OnePiece(input, items.value, BlockRef(blocks[j]), BlockRefs(blocks[j + 1..]), ids, all);
      input := input + items.value;
    }
    assert blocks[..|blocks|] == blocks && blocks[|blocks|..] == [];
    if |input| == 0 {
      input := input + [Said("assistant", Plain(""))];
    }
    return Ok(input);
  }

  // The table holds, for every id not yet called, its reasoning.
  ghost predicate PairsUp(paired: map<string, seq<Item>>, blocks: seq<ThinkingBlock>, called: seq<Call>, decode: string -> Replay) {
    forall id :: InTable(paired, id) == if CalledIn(called, id) then [] else PairedFor(blocks, id, decode)
  }

  function InTable(paired: map<string, seq<Item>>, id: string): seq<Item> { if id in paired then paired[id] else [] }

  function WithPair(paired: map<string, seq<Item>>, id: string, item: Item): map<string, seq<Item>> {
    paired[id := InTable(paired, id) + [item]]
  }

  lemma PairsNext(paired: map<string, seq<Item>>, blocks: seq<ThinkingBlock>, block: ThinkingBlock, decode: string -> Replay)
    requires PairsUp(paired, blocks, [], decode)
    ensures block.callId.None? || ReplayItem(block.signature, decode) == [] ==> PairsUp(paired, blocks + [block], [], decode)
    ensures block.callId.Some? && ReplayItem(block.signature, decode) != [] ==>
              PairsUp(WithPair(paired, block.callId.value, ReplayItem(block.signature, decode)[0]), blocks + [block], [], decode)
    ensures Standalone(blocks + [block], decode)
            == Standalone(blocks, decode) + if block.callId.None? then ReplayItem(block.signature, decode) else []
  {
    assert (blocks + [block])[..|blocks|] == blocks;
    assert forall id :: !CalledIn([], id);
    forall id
      ensures PairedFor(blocks + [block], id, decode)
              == PairedFor(blocks, id, decode) + if block.callId == Some(id) then ReplayItem(block.signature, decode) else []
    {
    }
    hide PairedFor, CalledIn;
  }

  // A call takes its reasoning out of the table.
  lemma PairsUsed(paired: map<string, seq<Item>>, blocks: seq<ThinkingBlock>, calls: seq<Call>, j: nat, decode: string -> Replay)
    requires j < |calls| && PairsUp(paired, blocks, calls[..j], decode)
    ensures var id := calls[j].id.GetOr("");
            && InTable(paired, id) == (if CalledIn(calls[..j], id) then [] else PairedFor(blocks, id, decode))
            && PairsUp(paired - {id}, blocks, calls[..j + 1], decode)
  {
    CalledNext(calls, j);
    hide PairedFor, CalledIn;
    var id := calls[j].id.GetOr("");
    forall other
      ensures InTable(paired - {id}, other) == if CalledIn(calls[..j + 1], other) then [] else PairedFor(blocks, other, decode)
    {
      assert InTable(paired, other) == if CalledIn(calls[..j], other) then [] else PairedFor(blocks, other, decode);
    }
  }

  lemma CallItemsNext(calls: seq<Call>, j: nat, blocks: seq<ThinkingBlock>, ids: AliasMap, decode: string -> Replay)
    requires j < |calls|
    ensures var id := calls[j].id.GetOr("");
            CallItems(calls[..j + 1], blocks, ids, decode)
            == CallItems(calls[..j], blocks, ids, decode)
               + ((if CalledIn(calls[..j], id) then [] else PairedFor(blocks, id, decode))
                  + [FunctionCall(ids.Wire(id), calls[j].name, calls[j].arguments)])
  {
    assert calls[..j + 1][..j] == calls[..j];
  }

  lemma ReasoningHasNoRefs(items: seq<Item>, item: Item)
    requires ItemRefs(items) == [] && item.Reasoning?
    ensures ItemRefs(items + [item]) == []
  {
    ItemRefsConcat(items, [item]);
  }

  lemma PairHasNoRefs(paired: map<string, seq<Item>>, id: string, item: Item)
    requires NoRefs(paired) && item.Reasoning?
    ensures NoRefs(WithPair(paired, id, item))
  {
    ReasoningHasNoRefs(InTable(paired, id), item);
  }

  // What has been sorted out of `done`: standing alone, and by call.
  ghost predicate SortedOut(done: seq<ThinkingBlock>, input: seq<Item>, paired: map<string, seq<Item>>, decode: string -> Replay) {
    ItemRefs(input) == [] && NoRefs(paired) && input == Standalone(done, decode) && PairsUp(paired, done, [], decode)
  }

  lemma NoneSortedOut(decode: string -> Replay)
    ensures SortedOut([], [], map[], decode)
  {
  }

  method PairOne(block: ThinkingBlock, decode: string -> Replay, before: seq<Item>, pairs: map<string, seq<Item>>,
                 ghost done: seq<ThinkingBlock>)
    returns (ok: bool, input: seq<Item>, paired: map<string, seq<Item>>)
    requires SortedOut(done, before, pairs, decode)
    ensures ok <==> !Broken(block.signature, decode)
    ensures ok ==> SortedOut(done + [block], input, paired, decode)
  {
    PairsNext(pairs, done, block, decode);
    hide PairsUp, Standalone, NoRefs, WithPair, ItemRefs;
    ok, input, paired := true, before, pairs;
    match decode(block.signature) {
      case Malformed => ok := false;
      case Foreign =>
      case Own(replay) =>
        var item := Reasoning(replay);
        assert ReplayItem(block.signature, decode) == [item];
        if block.callId.Some? {
          PairHasNoRefs(paired, block.callId.value, item);
          paired := WithPair(paired, block.callId.value, item);
        } else {
          ReasoningHasNoRefs(input, item);
          input := input + [item];
        }
    }
  }

  // Replayed reasoning of a message: what stands alone, and what belongs before a call.
  method PairReasoning(blocks: seq<ThinkingBlock>, decode: string -> Replay)
    returns (r: Result<(seq<Item>, map<string, seq<Item>>), string>)
    ensures r.Err? <==> exists i :: 0 <= i < |blocks| && Broken(blocks[i].signature, decode)
    ensures r.Ok? ==> SortedOut(blocks, r.value.0, r.value.1, decode)
  {
    var input: seq<Item> := [];
    var paired: map<string, seq<Item>> := map[];
    NoneSortedOut(decode);
    hide *;
    assert blocks[..0] == [];
    for j := 0 to |blocks|
      invariant SortedOut(blocks[..j], input, paired, decode)
      invariant forall i :: 0 <= i < j ==> !Broken(blocks[i].signature, decode)
    {
      assert blocks[..j + 1] == blocks[..j] + [blocks[j]];
      var ok;
      ok, input, paired := PairOne(blocks[j], decode, input, paired, blocks[..j]);
      if !ok { return Err("malformed replay state"); }
    }
    assert blocks[..|blocks|] == blocks;
    return Ok((input, paired));
  }

  ghost predicate NoRefs(paired: map<string, seq<Item>>) {
    forall k :: k in paired ==> ItemRefs(paired[k]) == []
  }

  method RewriteCalls(calls: seq<Call>, reasoning: map<string, seq<Item>>, ids: AliasMap,
                      ghost blocks: seq<ThinkingBlock>, ghost decode: string -> Replay)
    returns (items: seq<Item>)
    requires NoRefs(reasoning) && PairsUp(reasoning, blocks, [], decode)
    ensures ItemRefs(items) == Wired(CallRefs(calls), ids)
    ensures items == CallItems(calls, blocks, ids, decode)
  {
    items := [];
    var paired := reasoning;
    assert calls[0..] == calls && calls[..0] == [];
    ghost var all := Wired(CallRefs(calls), ids);
    hide PairsUp, PairedFor, CalledIn, Wired, CallRefs, CallItems;
    NoCallItems(blocks, ids, decode);
    for j := 0 to |calls|
      invariant ItemRefs(items) + Wired(CallRefs(calls[j..]), ids) == all
      invariant NoRefs(paired) && PairsUp(paired, blocks, calls[..j], decode)
      invariant items == CallItems(calls[..j], blocks, ids, decode)
    {
      PairsUsed(paired, blocks, calls, j, decode);
      CallItemsNext(calls, j, blocks, ids, decode);
      CallRefsNext(calls, j);
      var id := calls[j].id.GetOr("");
      var before := InTable(paired, id);
      paired := paired - {id};
      var call := FunctionCall(ids.Wire(id), calls[j].name, calls[j].arguments);
      CallHasRef(before, call, CallRef(id, calls[j].name, calls[j].arguments), ids);
      OnePiece(items, before + [call], [CallRef(id, calls[j].name, calls[j].arguments)], CallRefs(calls[j + 1..]), ids, all);
      items := items + (before + [call]);
    }
    assert calls[..|calls|] == calls && calls[|calls|..] == [];
    NoCallRefs(ids);
  }

  lemma NoCallItems(blocks: seq<ThinkingBlock>, ids: AliasMap, decode: string -> Replay)
    ensures CallItems([], blocks, ids, decode) == []
  {
  }

  lemma NoCallRefs(ids: AliasMap)
    ensures Wired(CallRefs([]), ids) == []
  {
  }

  lemma CallRefsNext(calls: seq<Call>, j: nat)
    requires j < |calls|
    ensures CallRefs(calls[j..]) == [CallRef(calls[j].id.GetOr(""), calls[j].name, calls[j].arguments)] + CallRefs(calls[j + 1..])
  {
    assert calls[j..][1..] == calls[j + 1..];
  }

  lemma CallHasRef(before: seq<Item>, call: Item, ref: Ref, ids: AliasMap)
    requires ItemRefs(before) == [] && ref.CallRef? && call == FunctionCall(ids.Wire(ref.id), ref.name, ref.arguments)
    ensures ItemRefs(before + [call]) == Wired([ref], ids)
  {
    ItemRefsConcat(before, [call]);
    assert [call][1..] == [] && ItemRefs([]) == [] && [ref][1..] == [] && Wired([], ids) == [];
  }

  lemma CalledNext(calls: seq<Call>, j: nat)
    requires j < |calls|
    ensures forall id :: CalledIn(calls[..j + 1], id) <==> CalledIn(calls[..j], id) || calls[j].id.GetOr("") == id
  {
    assert calls[..j + 1] == calls[..j] + [calls[j]];
    forall id ensures CalledIn(calls[..j + 1], id) <==> CalledIn(calls[..j], id) || calls[j].id.GetOr("") == id {
      if CalledIn(calls[..j], id) {
        var i :| 0 <= i < j && calls[..j][i].id.GetOr("") == id;
        assert calls[..j + 1][i] == calls[..j][i];
      }
      if calls[j].id.GetOr("") == id { assert calls[..j + 1][j] == calls[j]; }
    }
  }

  method RewriteMessage(message: Message, ids: AliasMap, decode: string -> Replay)
    returns (r: Result<seq<Item>, string>)
    requires ids.Wire("") == ""
    ensures r.Ok? ==> ItemRefs(r.value) == Wired(MessageRefs(message), ids)
    ensures r.Err? <==> Malforms(message, decode)
    ensures r.Ok? ==> r.value == MessageItems(message, ids, decode)
  {
    if message.role == "assistant" && message.outputBlocks.Some? {
      r := RewriteBlocks(message.outputBlocks.value, ids, decode);
      return;
    }
    var content := Normalized(message.content);
    if message.role == "tool" {
      var callId := if message.toolCallId.Some? then ids.Wire(message.toolCallId.value) else "";
      return Ok([FunctionCallOutput(callId, content)]);
    }
    hide ItemRefs, Wired, BlockRefs, CallRefs;
    NoItems(ids);
    var input: seq<Item> := [];
    var paired: map<string, seq<Item>> := map[];
    if message.role == "assistant" {
      var replayed := PairReasoning(message.thinkingBlocks, decode);
      if replayed.Err? { return Err(replayed.error); }
      input, paired := replayed.value.0, replayed.value.1;
    }
    var calls := message.toolCalls.GetOr([]);
    if message.role != "assistant" || HasContent(content) || calls == [] {
      SaidHasNoRefs(input, message.role, content);
      input := input + [Said(message.role, content)];
    }
    if message.role == "assistant" {
      var items := RewriteCalls(calls, paired, ids, message.thinkingBlocks, decode);
      ItemRefsConcat(input, items);
      input := input + items;
    }
    return Ok(input);
  }

  lemma NoItems(ids: AliasMap)
    ensures ItemRefs([]) == [] && Wired([], ids) == []
  {
  }

  lemma SaidHasNoRefs(input: seq<Item>, role: string, content: Content)
    requires ItemRefs(input) == []
    ensures ItemRefs(input + [Said(role, content)]) == []
  {
    ItemRefsConcat(input, [Said(role, content)]);
  }

  lemma NoMessages(ids: AliasMap, decode: string -> Replay)
    ensures AllItems([], ids, decode) == [] && Wired(HistoryRefs([]), ids) == []
  {
  }

  lemma MessagesNext(messages: seq<Message>, i: nat, ids: AliasMap, decode: string -> Replay)
    requires i < |messages|
    ensures AllItems(messages[..i + 1], ids, decode) == AllItems(messages[..i], ids, decode) + MessageItems(messages[i], ids, decode)
    ensures HistoryRefs(messages[i..]) == MessageRefs(messages[i]) + HistoryRefs(messages[i + 1..])
  {
    assert messages[i..][1..] == messages[i + 1..] && messages[..i + 1][..i] == messages[..i];
  }

  method RewriteAll(messages: seq<Message>, ids: AliasMap, decode: string -> Replay)
    returns (r: Result<seq<Item>, string>)
    requires ids.Wire("") == ""
    ensures r.Ok? ==> ItemRefs(r.value) == Wired(HistoryRefs(messages), ids)
    ensures r.Err? <==> exists i :: 0 <= i < |messages| && Malforms(messages[i], decode)
    ensures r.Ok? ==> r.value == AllItems(messages, ids, decode)
  {
    var input: seq<Item> := [];
    assert messages[0..] == messages && messages[..0] == [];
    ghost var all := Wired(HistoryRefs(messages), ids);
    NoMessages(ids, decode);
    hide Wired, HistoryRefs, AllItems, MessageItems, MessageRefs, Malforms;
    for i := 0 to |messages|
      invariant ItemRefs(input) + Wired(HistoryRefs(messages[i..]), ids) == all
      invariant input == AllItems(messages[..i], ids, decode)
      invariant forall j :: 0 <= j < i ==> !Malforms(messages[j], decode)
    {
      MessagesNext(messages, i, ids, decode);
      var items := RewriteMessage(messages[i], ids, decode);
      if items.Err? { return items; }
      OnePiece(input, items.value, MessageRefs(messages[i]), HistoryRefs(messages[i + 1..]), ids, all);
      input := input + items.value;
    }
    assert messages[..|messages|] == messages && messages[|messages|..] == [];
    return Ok(input);
  }

  method TransformResponsesRequest(messages: seq<Message>, decode: string -> Replay)
    returns (r: Result<seq<Item>, string>, ghost ids: AliasMap)
    requires 2 * HistorySize(messages) < TWO_64
    ensures r.Ok? ==> ItemRefs(r.value) == Wired(HistoryRefs(messages), ids) && Pairs(HistoryRefs(messages), ids)
    ensures r.Err? <==> exists i :: 0 <= i < |messages| && Malforms(messages[i], decode)
    ensures r.Ok? ==> r.value == AllItems(messages, ids, decode)
  {
    var names := CollectResponsesHistoryCallIds(messages);
    var m := BuildMap(CallId, names);
    ids := m;
    PairsTheorem(HistoryRefs(messages), names);
    r := RewriteAll(messages, m, decode);
  }

  // Wire ids are short, and two references share one exactly when they shared an id.
  ghost predicate Pairs(refs: seq<Ref>, ids: AliasMap) {
    && (forall i :: 0 <= i < |refs| ==> |ids.Wire(refs[i].id)| <= OPENAI_IDENTIFIER_LIMIT)
    && (forall i, j :: 0 <= i < |refs| && 0 <= j < |refs| ==>
          (ids.Wire(refs[i].id) == ids.Wire(refs[j].id) <==> refs[i].id == refs[j].id))
  }

  lemma {:induction false} PairsTheorem(refs: seq<Ref>, names: seq<string>)
    requires 2 * |names| < TWO_64 && Covered(refs, names)
    ensures Pairs(refs, MapOf(CallId, names)) && MapOf(CallId, names).Wire("") == ""
  {
    AliasMapTheorem(CallId, names);
    forall i | 0 <= i < |refs| ensures refs[i].id == "" || refs[i].id in names { assert refs[i] in refs; }
  }

  function HistorySize(messages: seq<Message>): nat {
    if messages == [] then 0
    else |messages[0].outputBlocks.GetOr([])| + |messages[0].toolCalls.GetOr([])| + 1 + HistorySize(messages[1..])
  }
}
