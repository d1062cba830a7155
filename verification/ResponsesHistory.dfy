// What a rewritten history still says: its texts, and the reasoning it replays.
module ResponsesHistory {
  import opened Wrappers
  import opened Identity
  import opened ResponsesRequest

  type Decode = string -> Replay

  // ---- what the items say ----

  function SaidIn(items: seq<Item>): seq<(string, Content)> {
    if items == [] then [] else (if items[0].Said? then [(items[0].role, items[0].content)] else []) + SaidIn(items[1..])
  }

  function ReplayedIn(items: seq<Item>): seq<string> {
    if items == [] then [] else (if items[0].Reasoning? then [items[0].replay] else []) + ReplayedIn(items[1..])
  }

  lemma {:induction false} InConcat(a: seq<Item>, b: seq<Item>)
    ensures SaidIn(a + b) == SaidIn(a) + SaidIn(b) && ReplayedIn(a + b) == ReplayedIn(a) + ReplayedIn(b)
    decreases |a|
  {
    if a == [] {
      assert a + b == b;
    } else {
      assert (a + b)[0] == a[0] && (a + b)[1..] == a[1..] + b;
      InConcat(a[1..], b);
      Assoc(if a[0].Said? then [(a[0].role, a[0].content)] else [], SaidIn(a[1..]), SaidIn(b));
      Assoc(if a[0].Reasoning? then [a[0].replay] else [], ReplayedIn(a[1..]), ReplayedIn(b));
    }
  }

  lemma InOne(item: Item)
    ensures SaidIn([item]) == (if item.Said? then [(item.role, item.content)] else [])
    ensures ReplayedIn([item]) == (if item.Reasoning? then [item.replay] else [])
  {
    assert [item][1..] == [];
  }

  // ---- what the history says ----

  // The parts that are understood; nothing at all is the empty text.
  function Understood(parts: seq<Part>): seq<Part> {
    if parts == [] then [] else if parts[0].OtherPart? then Understood(parts[1..]) else [parts[0]] + Understood(parts[1..])
  }

  function Sent(content: Content): Content {
    if content.Missing? then Plain("") else if content.Parts? then Parts(Understood(content.parts)) else content
  }

  predicate Blank(content: Content) {
    content == Plain("") || content == Parts([]) || content.Missing? || content.OtherContent?
  }

  // The replay a signature decodes to, when it is one's own.
  function OwnReplay(signature: string, decode: Decode): seq<string> {
    if decode(signature).Own? then [decode(signature).replay] else []
  }

  function TextsOf(blocks: seq<Block>): seq<(string, Content)> {
    if blocks == [] then [] else (if blocks[0].Text? then [("assistant", Plain(blocks[0].text))] else []) + TextsOf(blocks[1..])
  }

  function ReplaysOf(blocks: seq<Block>, decode: Decode): seq<string> {
    if blocks == [] then []
    else (if blocks[0].Thinking? then OwnReplay(blocks[0].signature, decode) else []) + ReplaysOf(blocks[1..], decode)
  }

  // Blocks that leave nothing behind.
  predicate Vanishes(b: Block, decode: Decode) { b.OtherBlock? || (b.Thinking? && OwnReplay(b.signature, decode) == []) }

  predicate AllVanish(blocks: seq<Block>, decode: Decode) {
    forall b :: b in blocks ==> Vanishes(b, decode)
  }

  // The texts of the output blocks, or an empty one when nothing is left of them; or the content of the message, which
  // an assistant that only calls leaves out.
  function MessageSays(m: Message, decode: Decode): seq<(string, Content)> {
    if m.role == "tool" then []
    else if m.role == "assistant" && m.outputBlocks.Some? then
      if AllVanish(m.outputBlocks.value, decode) then [("assistant", Plain(""))] else TextsOf(m.outputBlocks.value)
    else if m.role == "assistant" && Blank(Sent(m.content)) && m.toolCalls.GetOr([]) != [] then []
    else [(m.role, Sent(m.content))]
  }

  function HistorySays(messages: seq<Message>, decode: Decode): seq<(string, Content)> {
    if messages == [] then [] else MessageSays(messages[0], decode) + HistorySays(messages[1..], decode)
  }

  lemma {:induction false} KnownIsUnderstood(parts: seq<Part>)
    ensures Known(parts) == Understood(parts)
    decreases |parts|
  {
    if parts != [] { KnownIsUnderstood(parts[1..]); }
  }

  lemma SentIsNormalized(content: Content)
    ensures Sent(content) == Normalized(content) && (HasContent(Normalized(content)) <==> !Blank(Sent(content)))
  {
    if content.Parts? { KnownIsUnderstood(content.parts); }
  }

  function TextOf(b: Block): seq<(string, Content)> { if b.Text? then [("assistant", Plain(b.text))] else [] }

  function ReplayOf(b: Block, decode: Decode): seq<string> { if b.Thinking? then OwnReplay(b.signature, decode) else [] }

  lemma {:induction false} BlocksSnoc(blocks: seq<Block>, b: Block, decode: Decode)
    ensures TextsOf(blocks + [b]) == TextsOf(blocks) + TextOf(b)
    ensures ReplaysOf(blocks + [b], decode) == ReplaysOf(blocks, decode) + ReplayOf(b, decode)
    decreases |blocks|
  {
    hide OwnReplay;
    if blocks == [] {
      assert [] + [b] == [b] && [b][1..] == [];
      assert TextOf(b) + [] == TextOf(b) && ReplayOf(b, decode) + [] == ReplayOf(b, decode);
    } else {
      assert (blocks + [b])[0] == blocks[0] && (blocks + [b])[1..] == blocks[1..] + [b];
      BlocksSnoc(blocks[1..], b, decode);
      hide TextOf, ReplayOf;
      Assoc(if blocks[0].Text? then [("assistant", Plain(blocks[0].text))] else [], TextsOf(blocks[1..]), TextOf(b));
      Assoc(if blocks[0].Thinking? then OwnReplay(blocks[0].signature, decode) else [],
            ReplaysOf(blocks[1..], decode), ReplayOf(b, decode));
    }
  }

  lemma OneBlock(b: Block, ids: AliasMap, decode: Decode)
    ensures SaidIn(BlockItems(b, ids, decode)) == TextOf(b)
    ensures ReplayedIn(BlockItems(b, ids, decode)) == ReplayOf(b, decode)
    ensures BlockItems(b, ids, decode) == [] <==> Vanishes(b, decode)
  {
    if BlockItems(b, ids, decode) != [] { InOne(BlockItems(b, ids, decode)[0]); }
  }

  lemma LastBlock(blocks: seq<Block>, ids: AliasMap, decode: Decode)
    requires blocks != []
    ensures var init, last := blocks[..|blocks| - 1], blocks[|blocks| - 1];
            && BlocksItems(blocks, ids, decode) == BlocksItems(init, ids, decode) + BlockItems(last, ids, decode)
            && TextsOf(blocks) == TextsOf(init) + TextOf(last)
            && ReplaysOf(blocks, decode) == ReplaysOf(init, decode) + ReplayOf(last, decode)
            && (AllVanish(blocks, decode) <==> AllVanish(init, decode) && Vanishes(last, decode))
  {
    var init, last := blocks[..|blocks| - 1], blocks[|blocks| - 1];
    assert blocks == init + [last];
    hide BlockItems, TextsOf, ReplaysOf, Vanishes, TextOf, ReplayOf;
    BlocksSnoc(init, last, decode);
    assert last in blocks && forall b :: b in blocks <==> b in init || b == last;
  }

  lemma {:induction false} BlocksSay(blocks: seq<Block>, ids: AliasMap, decode: Decode)
    ensures SaidIn(BlocksItems(blocks, ids, decode)) == TextsOf(blocks)
    ensures ReplayedIn(BlocksItems(blocks, ids, decode)) == ReplaysOf(blocks, decode)
    ensures BlocksItems(blocks, ids, decode) == [] <==> AllVanish(blocks, decode)
    decreases |blocks|
  {
    if blocks != [] {
      hide *;
      var init, last := blocks[..|blocks| - 1], blocks[|blocks| - 1];
      BlocksSay(init, ids, decode);
      OneBlock(last, ids, decode);
      LastBlock(blocks, ids, decode);
      InConcat(BlocksItems(init, ids, decode), BlockItems(last, ids, decode));
    }
  }

  // ---- reasoning of a message with calls ----

  // Replays that stand alone, and those that belong to a call.
  function AloneIn(blocks: seq<ThinkingBlock>, decode: Decode): seq<string> {
    if blocks == [] then []
    else (if blocks[0].callId.None? then OwnReplay(blocks[0].signature, decode) else []) + AloneIn(blocks[1..], decode)
  }

  function BelongTo(blocks: seq<ThinkingBlock>, id: string, decode: Decode): seq<string> {
    if blocks == [] then []
    else (if blocks[0].callId == Some(id) then OwnReplay(blocks[0].signature, decode) else []) + BelongTo(blocks[1..], id, decode)
  }

  lemma {:induction false} AloneSnoc(blocks: seq<ThinkingBlock>, b: ThinkingBlock, decode: Decode)
    ensures AloneIn(blocks + [b], decode) == AloneIn(blocks, decode) + if b.callId.None? then OwnReplay(b.signature, decode) else []
    decreases |blocks|
  {
    hide OwnReplay;
    var more := if b.callId.None? then OwnReplay(b.signature, decode) else [];
    if blocks == [] {
      assert [] + [b] == [b] && [b][1..] == [];
      assert more + [] == more && AloneIn([], decode) == [];
    } else {
      assert (blocks + [b])[0] == blocks[0] && (blocks + [b])[1..] == blocks[1..] + [b];
      AloneSnoc(blocks[1..], b, decode);
      Assoc(if blocks[0].callId.None? then OwnReplay(blocks[0].signature, decode) else [], AloneIn(blocks[1..], decode), more);
    }
  }

  lemma {:induction false} BelongSnoc(blocks: seq<ThinkingBlock>, b: ThinkingBlock, id: string, decode: Decode)
    ensures BelongTo(blocks + [b], id, decode)
            == BelongTo(blocks, id, decode) + if b.callId == Some(id) then OwnReplay(b.signature, decode) else []
    decreases |blocks|
  {
    hide OwnReplay;
    var more := if b.callId == Some(id) then OwnReplay(b.signature, decode) else [];
    if blocks == [] {
      assert [] + [b] == [b] && [b][1..] == [];
      assert more + [] == more && BelongTo([], id, decode) == [];
    } else {
      assert (blocks + [b])[0] == blocks[0] && (blocks + [b])[1..] == blocks[1..] + [b];
      BelongSnoc(blocks[1..], b, id, decode);
      Assoc(if blocks[0].callId == Some(id) then OwnReplay(blocks[0].signature, decode) else [], BelongTo(blocks[1..], id, decode), more);
    }
  }

  predicate OnlyReasoning(items: seq<Item>) { forall i :: 0 <= i < |items| ==> items[i].Reasoning? }

  lemma OneReplay(signature: string, decode: Decode)
    ensures ReplayedIn(ReplayItem(signature, decode)) == OwnReplay(signature, decode) && SaidIn(ReplayItem(signature, decode)) == []
    ensures OnlyReasoning(ReplayItem(signature, decode))
  {
    if decode(signature).Own? { InOne(Reasoning(decode(signature).replay)); }
  }

  lemma NothingReplayed()
    ensures ReplayedIn([]) == []
  {
  }

  // More reasoning at the end is more replays at the end.
  lemma MoreReplays(items: seq<Item>, more: seq<Item>, replays: seq<string>)
    requires OnlyReasoning(items) && OnlyReasoning(more) && ReplayedIn(more) == replays
    ensures OnlyReasoning(items + more) && ReplayedIn(items + more) == ReplayedIn(items) + replays
  {
    InConcat(items, more);
    hide ReplayedIn;
  }

  lemma SomeReplay(signature: string, there: bool, decode: Decode)
    ensures var more := if there then ReplayItem(signature, decode) else [];
            OnlyReasoning(more) && ReplayedIn(more) == if there then OwnReplay(signature, decode) else []
  {
    OneReplay(signature, decode);
    NothingReplayed();
    hide ReplayedIn, ReplayItem, OwnReplay;
  }

  lemma LastAlone(blocks: seq<ThinkingBlock>, decode: Decode)
    requires blocks != []
    ensures var init, last := blocks[..|blocks| - 1], blocks[|blocks| - 1];
            && Standalone(blocks, decode) ==
               Standalone(init, decode) + (if last.callId.None? then ReplayItem(last.signature, decode) else [])
            && AloneIn(blocks, decode) == AloneIn(init, decode) + (if last.callId.None? then OwnReplay(last.signature, decode) else [])
  {
    hide ReplayItem, OwnReplay, AloneIn;
    AloneSnoc(blocks[..|blocks| - 1], blocks[|blocks| - 1], decode);
    assert blocks == blocks[..|blocks| - 1] + [blocks[|blocks| - 1]];
  }

  lemma LastBelongs(blocks: seq<ThinkingBlock>, id: string, decode: Decode)
    requires blocks != []
    ensures var init, last := blocks[..|blocks| - 1], blocks[|blocks| - 1];
            && PairedFor(blocks, id, decode) ==
               PairedFor(init, id, decode) + (if last.callId == Some(id) then ReplayItem(last.signature, decode) else [])
            && BelongTo(blocks, id, decode) ==
               BelongTo(init, id, decode) + (if last.callId == Some(id) then OwnReplay(last.signature, decode) else [])
  {
    hide ReplayItem, OwnReplay, BelongTo;
    BelongSnoc(blocks[..|blocks| - 1], blocks[|blocks| - 1], id, decode);
    assert blocks == blocks[..|blocks| - 1] + [blocks[|blocks| - 1]];
  }

  lemma {:induction false} AloneSays(blocks: seq<ThinkingBlock>, decode: Decode)
    ensures ReplayedIn(Standalone(blocks, decode)) == AloneIn(blocks, decode) && OnlyReasoning(Standalone(blocks, decode))
    decreases |blocks|
  {
    if blocks != [] {
      hide *;
      var init, last := blocks[..|blocks| - 1], blocks[|blocks| - 1];
      AloneSays(init, decode);
      SomeReplay(last.signature, last.callId.None?, decode);
      LastAlone(blocks, decode);
      MoreReplays(Standalone(init, decode), if last.callId.None? then ReplayItem(last.signature, decode) else [],
                  if last.callId.None? then OwnReplay(last.signature, decode) else []);
    }
  }

  lemma {:induction false} BelongSays(blocks: seq<ThinkingBlock>, id: string, decode: Decode)
    ensures ReplayedIn(PairedFor(blocks, id, decode)) == BelongTo(blocks, id, decode) && OnlyReasoning(PairedFor(blocks, id, decode))
    decreases |blocks|
  {
    if blocks != [] {
      hide *;
      var init, last := blocks[..|blocks| - 1], blocks[|blocks| - 1];
      BelongSays(init, id, decode);
      SomeReplay(last.signature, last.callId == Some(id), decode);
      LastBelongs(blocks, id, decode);
      MoreReplays(PairedFor(init, id, decode), if last.callId == Some(id) then ReplayItem(last.signature, decode) else [],
                  if last.callId == Some(id) then OwnReplay(last.signature, decode) else []);
    }
  }

  lemma {:induction false} ReasoningSaysNothing(items: seq<Item>)
    requires OnlyReasoning(items)
    ensures SaidIn(items) == []
    decreases |items|
  {
    if items != [] { ReasoningSaysNothing(items[1..]); }
  }

  // Each call comes out last of what it adds: before it the reasoning that belongs to it, all of it, unless an earlier call
  // of that id took it.
  lemma CallComesLast(calls: seq<Call>, j: nat, blocks: seq<ThinkingBlock>, ids: AliasMap, decode: Decode) returns (before: seq<Item>)
    requires j < |calls|
    ensures var id := calls[j].id.GetOr("");
            && CallItems(calls[..j + 1], blocks, ids, decode)
               == CallItems(calls[..j], blocks, ids, decode) + (before + [FunctionCall(ids.Wire(id), calls[j].name, calls[j].arguments)])
            && OnlyReasoning(before)
            && ReplayedIn(before) == if exists i :: 0 <= i < j && calls[i].id.GetOr("") == id then [] else BelongTo(blocks, id, decode)
  {
    var id := calls[j].id.GetOr("");
    before := if CalledIn(calls[..j], id) then [] else PairedFor(blocks, id, decode);
    BelongSays(blocks, id, decode);
    CallItemsNext(calls, j, blocks, ids, decode);
    if i :| 0 <= i < j && calls[i].id.GetOr("") == id { assert calls[..j][i].id.GetOr("") == id; }
  }

  lemma {:induction false} CallsSayNothing(calls: seq<Call>, blocks: seq<ThinkingBlock>, ids: AliasMap, decode: Decode)
    ensures SaidIn(CallItems(calls, blocks, ids, decode)) == []
    decreases |calls|
  {
    hide PairedFor, CalledIn;
    if calls != [] {
      var init, last := calls[..|calls| - 1], calls[|calls| - 1];
      var id := last.id.GetOr("");
      var before := if CalledIn(init, id) then [] else PairedFor(blocks, id, decode);
      var call := FunctionCall(ids.Wire(id), last.name, last.arguments);
      CallsSayNothing(init, blocks, ids, decode);
      BelongSays(blocks, id, decode);
      ReasoningSaysNothing(before);
      InOne(call);
      InConcat(before, [call]);
      InConcat(CallItems(init, blocks, ids, decode), before + [call]);
    }
  }

  lemma MessageIsSaid(m: Message, ids: AliasMap, decode: Decode)
    ensures SaidIn(MessageItems(m, ids, decode)) == MessageSays(m, decode)
  {
    hide BlocksItems, CallItems, Standalone, AllVanish, Sent, Normalized;
    SentIsNormalized(m.content);
    if m.role == "assistant" && m.outputBlocks.Some? {
      BlocksSay(m.outputBlocks.value, ids, decode);
      InOne(Said("assistant", Plain("")));
    } else if m.role == "tool" {
      InOne(FunctionCallOutput(if m.toolCallId.Some? then ids.Wire(m.toolCallId.value) else "", Normalized(m.content)));
    } else {
      var said := Said(m.role, Normalized(m.content));
      InOne(said);
      var alone, calls := Standalone(m.thinkingBlocks, decode), CallItems(m.toolCalls.GetOr([]), m.thinkingBlocks, ids, decode);
      AloneSays(m.thinkingBlocks, decode);
      ReasoningSaysNothing(alone);
      CallsSayNothing(m.toolCalls.GetOr([]), m.thinkingBlocks, ids, decode);
      InConcat(alone + [said], calls);
      InConcat(alone, [said]);
      InConcat(alone + [], calls);
      assert alone + [] == alone;
    }
  }

  lemma {:induction false} HistorySnoc(messages: seq<Message>, m: Message, decode: Decode)
    ensures HistorySays(messages + [m], decode) == HistorySays(messages, decode) + MessageSays(m, decode)
    decreases |messages|
  {
    hide MessageSays;
    if messages == [] {
      assert [] + [m] == [m] && [m][1..] == [];
    } else {
      assert (messages + [m])[0] == messages[0] && (messages + [m])[1..] == messages[1..] + [m];
      HistorySnoc(messages[1..], m, decode);
      Assoc(MessageSays(messages[0], decode), HistorySays(messages[1..], decode), MessageSays(m, decode));
    }
  }

  // The texts of the whole history go out, in order, each under its role.
  lemma {:induction false} HistoryIsSaid(messages: seq<Message>, ids: AliasMap, decode: Decode)
    ensures SaidIn(AllItems(messages, ids, decode)) == HistorySays(messages, decode)
    decreases |messages|
  {
    hide MessageItems, MessageSays;
    if messages != [] {
      var init, last := messages[..|messages| - 1], messages[|messages| - 1];
      HistoryIsSaid(init, ids, decode);
      MessageIsSaid(last, ids, decode);
      InConcat(AllItems(init, ids, decode), MessageItems(last, ids, decode));
      HistorySnoc(init, last, decode);
      assert messages == init + [last];
    }
  }

  // Reasoning of output blocks is replayed in order, all of it; reasoning that stands alone goes ahead of the text.
  lemma ReasoningIsReplayed(m: Message, ids: AliasMap, decode: Decode)
    requires m.role == "assistant"
    ensures m.outputBlocks.Some? ==> ReplayedIn(MessageItems(m, ids, decode)) == ReplaysOf(m.outputBlocks.value, decode)
    ensures m.outputBlocks.None? ==>
              var alone := AloneIn(m.thinkingBlocks, decode);
              && |alone| <= |MessageItems(m, ids, decode)| && OnlyReasoning(MessageItems(m, ids, decode)[..|alone|])
              && ReplayedIn(MessageItems(m, ids, decode)[..|alone|]) == alone
  {
    hide BlocksItems, CallItems, Standalone;
    if m.outputBlocks.Some? {
      BlocksSay(m.outputBlocks.value, ids, decode);
      InOne(Said("assistant", Plain("")));
    } else {
      var alone := Standalone(m.thinkingBlocks, decode);
      AloneSays(m.thinkingBlocks, decode);
      AllReplayed(alone);
      assert MessageItems(m, ids, decode)[..|alone|] == alone;
    }
  }

  lemma {:induction false} AllReplayed(items: seq<Item>)
    requires OnlyReasoning(items)
    ensures |ReplayedIn(items)| == |items|
    decreases |items|
  {
    if items != [] { AllReplayed(items[1..]); }
  }
}
