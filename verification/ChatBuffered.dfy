// The buffered Chat conversion: the whole stream is aggregated first and transformed afterwards.
module ChatBufferedSpec {
  import opened Wrappers
  import opened ChatEvents
  import opened ChatLiveSpec
  import opened Anthropic

  datatype FunctionBuffer = FunctionBuffer(name: string, arguments: string)

  datatype Collected = Collected(
    id: Option<string>, model: Option<string>, tier: Option<string>, usage: Option<string>,
    blocks: seq<Semantic>, tools: map<nat, ToolBuffer>, refusal: string, legacy: Option<FunctionBuffer>, finish: Finish)

  const NOTHING := Collected(None, None, None, None, [], map[], "", None, NoFinish)

  function LastThinking(parts: seq<Semantic>): (r: Option<nat>)
    ensures r.Some? ==> r.value < |parts| && parts[r.value].ThinkingPart?
                        && forall k :: r.value < k < |parts| ==> !parts[k].ThinkingPart?
    ensures r.None? ==> forall k :: 0 <= k < |parts| ==> !parts[k].ThinkingPart?
    decreases |parts|
  {
    if parts == [] then None
    else if Last(parts).ThinkingPart? then Some(|parts| - 1)
    else LastThinking(parts[..|parts| - 1])
  }

  // A signature goes to the last thinking block, however far back.
  function Sealed(parts: seq<Semantic>, signature: string): seq<Semantic> {
    match LastThinking(parts)
    case None => parts + [ThinkingPart("", Some(signature))]
    case Some(i) => parts[i := ThinkingPart(parts[i].text, Some(signature))]
  }

  function Gathered(b: Collected, index: nat, tool: ToolBuffer): Collected {
    b.(blocks := AddTool(b.blocks, b.tools, index), tools := b.tools[index := tool])
  }

  function Collect(b: Collected, p: Piece): Option<Collected> {
    match p
    case Reasoning(t) => Some(b.(blocks := AddThinking(b.blocks, t)))
    case Signature(s) => Some(b.(blocks := Sealed(b.blocks, s)))
    case Say(t) => Some(b.(blocks := AddText(b.blocks, t)))
    case Refuse(t) => Some(b.(blocks := AddText(b.blocks, t), refusal := b.refusal + t))
    case Tool(d) =>
      (match MergedTool(ToolSoFar(b.tools, d.index), d)
       case None => None
       case Some(tool) => Some(Gathered(b, d.index, tool)))
    case Legacy(f) =>
      var was := b.legacy.GetOr(FunctionBuffer("", ""));
      Some(b.(legacy := Some(FunctionBuffer(MergedName(was.name, f.name), was.arguments + f.arguments.GetOr("")))))
  }

  function CollectAll(b: Collected, pieces: seq<Piece>): Option<Collected>
    decreases |pieces|
  {
    if pieces == [] then Some(b)
    else match Collect(b, pieces[0])
      case None => None
      case Some(next) => CollectAll(next, pieces[1..])
  }

  lemma {:induction false} CollectAllConcat(b: Collected, p: seq<Piece>, q: seq<Piece>)
    ensures CollectAll(b, p + q) == match CollectAll(b, p) case None => None case Some(m) => CollectAll(m, q)
    decreases |p|
  {
    if p == [] {
      assert p + q == q;
    } else {
      assert (p + q)[0] == p[0] && (p + q)[1..] == p[1..] + q;
      match Collect(b, p[0])
      case None =>
      case Some(next) => CollectAllConcat(next, p[1..], q);
    }
  }

  lemma CollectOne(b: Collected, p: Piece)
    ensures CollectAll(b, [p]) == Collect(b, p)
  {
    if Collect(b, p).Some? { assert CollectAll(Collect(b, p).value, []) == Collect(b, p); }
  }

  predicate Terminal(f: Finish) { f.OddFinish? || (f.StringFinish? && f.reason != "") }

  function HeaderOf(b: Collected, e: Event): Collected
    requires e.Event?
  {
    b.(id := if b.id.None? then e.id else b.id, model := if b.model.None? then e.model else b.model,
       tier := if b.tier.None? then e.tier else b.tier, usage := if e.usage.Some? then e.usage else b.usage)
  }

  // One event; None where the conversion fails (an upstream error fails in the transform).
  function CollectEvent(b: Collected, e: Event): Option<Collected> {
    if e.Malformed? || e.error.Some? then None
    else
      var h := HeaderOf(b, e);
      if b.finish != NoFinish || e.choice.None? then Some(h)
      else match CollectAll(h, BufferedPieces(e.choice.value.delta))
        case None => None
        case Some(m) => Some(m.(finish := if Terminal(e.choice.value.finish) then e.choice.value.finish else NoFinish))
  }

  function CollectEvents(b: Collected, events: seq<Event>): Option<Collected>
    decreases |events|
  {
    if events == [] then Some(b)
    else match CollectEvent(b, events[0])
      case None => None
      case Some(next) => CollectEvents(next, events[1..])
  }

  // The finish reason the aggregate reports.
  function FinishFor(b: Collected, sawDone: bool): Option<Finish> {
    if b.finish != NoFinish then Some(b.finish)
    else if !sawDone || (b.blocks == [] && b.tools == map[] && b.legacy.None?) then None
    else Some(StringFinish(if b.tools == map[] && b.legacy.None? then "stop" else "length"))
  }

  // ---- the transform ----

  function RenderPart(c: Context, tools: map<nat, ToolBuffer>, incomplete: bool, part: Semantic): Option<Block> {
    match part
    case TextPart(t) => Some(Text(t))
    case ThinkingPart(t, s) => Some(Thinking(Shown(c, t), ReplaySafeSignature(s, t, c.omitThinking, c.codec)))
    case ToolAt(i) => RenderTool(c, ToolSoFar(tools, i), incomplete)
  }

  function RenderTool(c: Context, tool: ToolBuffer, incomplete: bool): Option<Block> {
    var name := c.names.Original(if tool.name == "" then "unknown" else tool.name);
    if incomplete then Some(Text(IncompleteToolText(name, tool.arguments)))
    else if tool.id == "" || tool.name == "" then None
    else match c.codec.parseObject(tool.arguments)
      case None => None
      case Some(input) => Some(ToolUse(tool.id, name, input))
  }

  function RenderAll(c: Context, tools: map<nat, ToolBuffer>, incomplete: bool, parts: seq<Semantic>): Option<seq<Block>>
    decreases |parts|
  {
    if parts == [] then Some([])
    else match RenderAll(c, tools, incomplete, parts[..|parts| - 1])
      case None => None
      case Some(before) =>
        match RenderPart(c, tools, incomplete, Last(parts))
        case None => None
        case Some(block) => Some(before + [block])
  }

  // With no block at all, a legacy function call may still be there.
  function RenderLegacy(c: Context, legacy: Option<FunctionBuffer>, incomplete: bool, freshId: string): Option<seq<Block>> {
    match legacy
    case None => Some([])
    case Some(f) =>
      match RenderTool(c, ToolBuffer("fresh", f.name, f.arguments), incomplete)
      case None => None
      case Some(block) => Some([if block.ToolUse? then block.(id := freshId) else block])
  }

  function Content(c: Context, b: Collected, incomplete: bool, freshId: string): Option<seq<Block>> {
    if b.blocks != [] then RenderAll(c, b.tools, incomplete, b.blocks) else RenderLegacy(c, b.legacy, incomplete, freshId)
  }

  function ReasonOf(f: Finish): string { if f.StringFinish? then f.reason else "" }

  function Transformed(c: Context, b: Collected, finish: Finish, freshId: string): Option<Message> {
    var reason := ReasonOf(finish);
    var refused := IsRefusal(reason, b.refusal);
    match Content(c, b, reason == "length" || refused, freshId)
    case None => None
    case Some(content) =>
      if refused then Some(Message(content, Stop("refusal", Some(if b.refusal == "" then None else Some(b.refusal)), b.usage)))
      else if reason == "stop" then Some(Message(content, Stop("end_turn", None, b.usage)))
      else if reason == "length" then Some(Message(content, Stop("max_tokens", None, b.usage)))
      else if ToolReason(reason) then Some(Message(content, Stop("tool_use", None, b.usage)))
      else None
  }

  function ConvertBuffered(c: Context, freshId: string, events: seq<Event>, sawDone: bool): Option<Message> {
    match CollectEvents(NOTHING, events)
    case None => None
    case Some(b) =>
      match FinishFor(b, sawDone)
      case None => None
      case Some(finish) => Transformed(c, b, finish, freshId)
  }
}

module ChatBuffered {
  import opened Wrappers
  import opened ChatEvents
  import opened ChatLiveSpec
  import opened ChatBufferedSpec
  import opened Anthropic
  import ChatLive

  // What accumulates while a stream is aggregated.
  class ChatAggregate {
    var id: Option<string>
    var model: Option<string>
    var serviceTier: Option<string>
    var content: string
    var reasoning: string
    var refusal: string
    var finishReason: Finish
    var usage: Option<string>
    var toolCalls: map<nat, ToolBuffer>
    var outputBlocks: seq<Semantic>
    var legacyFunction: FunctionBuffer
    var hasLegacyFunction: bool
    var sawTerminal: bool

    // Whatever was said left a block behind.
    ghost predicate Valid()
      reads this
    {
      && (content != "" || reasoning != "" || refusal != "" || toolCalls != map[] ==> outputBlocks != [])
      && sawTerminal == (finishReason != NoFinish)
      && (!hasLegacyFunction ==> legacyFunction == FunctionBuffer("", ""))
    }

    ghost function View(): Collected
      reads this
    {
      Collected(id, model, serviceTier, usage, outputBlocks, toolCalls, refusal,
                if hasLegacyFunction then Some(legacyFunction) else None, finishReason)
    }

    constructor ()
      ensures Valid() && View() == NOTHING
    {
      id, model, serviceTier, usage := None, None, None, None;
      content, reasoning, refusal, finishReason := "", "", "", NoFinish;
      toolCalls, outputBlocks := map[], [];
      legacyFunction, hasLegacyFunction, sawTerminal := FunctionBuffer("", ""), false, false;
    }

    method AppendText(text: string)
      requires Valid()
      modifies this`outputBlocks
      ensures Valid() && View() == old(View()).(blocks := if text == "" then old(outputBlocks) else AddText(old(outputBlocks), text))
      ensures text != "" ==> outputBlocks != []
    {
      if text == "" { return; }
      if outputBlocks != [] && Last(outputBlocks).TextPart? {
        outputBlocks := SetLast(outputBlocks, TextPart(Last(outputBlocks).text + text));
      } else {
        outputBlocks := outputBlocks + [TextPart(text)];
      }
    }

    method OnReasoning(text: Option<string>)
      requires Valid()
      modifies this`outputBlocks, this`reasoning
      ensures Valid()
      ensures CollectAll(old(View()), if text.Some? && text.value != "" then [Reasoning(text.value)] else []) == Some(View())
    {
      var thinking := text.GetOr("");
      if thinking != "" {
        CollectOne(View(), Reasoning(thinking));
        if outputBlocks != [] && Last(outputBlocks).ThinkingPart? {
          outputBlocks := SetLast(outputBlocks, ThinkingPart(Last(outputBlocks).text + thinking, Last(outputBlocks).signature));
        } else {
          outputBlocks := outputBlocks + [ThinkingPart(thinking, None)];
        }
      }
      reasoning := reasoning + thinking;
    }

    method OnSignature(signature: Option<string>)
      requires Valid()
      modifies this`outputBlocks
      ensures Valid()
      ensures CollectAll(old(View()), if signature.Some? then [Signature(signature.value)] else []) == Some(View())
    {
      if signature.None? { return; }
      CollectOne(View(), Signature(signature.value));
      var i := |outputBlocks|;
      while i > 0 && !outputBlocks[i - 1].ThinkingPart?
        invariant 0 <= i <= |outputBlocks| && forall k :: i <= k < |outputBlocks| ==> !outputBlocks[k].ThinkingPart?
      {
        i := i - 1;
      }
      if i > 0 {
        outputBlocks := outputBlocks[i - 1 := ThinkingPart(outputBlocks[i - 1].text, signature)];
      } else {
        outputBlocks := outputBlocks + [ThinkingPart("", signature)];
      }
    }

    method OnText(text: string)
      requires Valid()
      modifies this`outputBlocks, this`content
      ensures Valid() && CollectAll(old(View()), Spoken(text)) == Some(View())
    {
      if text != "" { CollectOne(View(), Say(text)); }
      AppendText(text);
      content := content + text;
    }

    method OnContent(delta: Content)
      requires Valid()
      modifies this`outputBlocks, this`content
      ensures Valid() && CollectAll(old(View()), ContentPieces(delta)) == Some(View())
    {
      match delta {
        case NoContent =>
        case TextContent(text) => OnText(text);
        case PartsContent(parts) =>
          hide Valid, View, Collect;
          assert parts[0..] == parts;
          for i := 0 to |parts|
            invariant Valid()
            invariant CollectAll(old(View()), SpokenParts(parts)) == CollectAll(View(), SpokenParts(parts[i..]))
          {
            assert parts[i..][1..] == parts[i + 1..];
            CollectAllConcat(View(), Spoken(PartText(parts[i])), SpokenParts(parts[i + 1..]));
            OnText(PartText(parts[i]));
          }
      }
    }

    method OnRefusal(text: Option<string>)
      requires Valid()
      modifies this`outputBlocks, this`refusal
      ensures Valid()
      ensures CollectAll(old(View()), if text.Some? && text.value != "" then [Refuse(text.value)] else []) == Some(View())
    {
      if text.None? { return; }
      if text.value != "" { CollectOne(View(), Refuse(text.value)); }
      assert text.value == "" ==> refusal + text.value == refusal;
      AppendText(text.value);
      refusal := refusal + text.value;
    }

    method OnNotes(citations: Option<JsonText>, block: Option<JsonText>)
      requires Valid()
      modifies this`outputBlocks
      ensures Valid()
      ensures CollectAll(old(View()), (if citations.Some? then [Say(BoundedJson(citations.value))] else [])
                                      + (if block.Some? then [Say(BoundedJson(block.value))] else [])) == Some(View())
    {
      ghost var cited := if citations.Some? then [Say(BoundedJson(citations.value))] else [];
      ghost var shown := if block.Some? then [Say(BoundedJson(block.value))] else [];
      CollectAllConcat(View(), cited, shown);
      if citations.Some? {
        CollectOne(View(), cited[0]);
        AppendText(BoundedJson(citations.value));
      }
      if block.Some? {
        CollectOne(View(), shown[0]);
        AppendText(BoundedJson(block.value));
      }
    }

    method OnToolCall(call: ToolDelta) returns (ok: bool)
      requires Valid()
      modifies this`outputBlocks, this`toolCalls
      ensures ok ==> Valid() && Collect(old(View()), Tool(call)) == Some(View())
      ensures !ok ==> Collect(old(View()), Tool(call)).None?
    {
      if call.index !in toolCalls { outputBlocks := outputBlocks + [ToolAt(call.index)]; }
      var current := if call.index in toolCalls then toolCalls[call.index] else EMPTY_TOOL;
      var merged := ChatLive.MergeToolDelta(current, call);
      if merged.None? { return false; }
      toolCalls := toolCalls[call.index := merged.value];
      return true;
    }

    method OnToolCalls(calls: seq<ToolDelta>) returns (ok: bool)
      requires Valid()
      modifies this`outputBlocks, this`toolCalls
      ensures ok ==> Valid() && CollectAll(old(View()), ToolList(calls)) == Some(View())
      ensures !ok ==> CollectAll(old(View()), ToolList(calls)).None?
    {
      hide Collect, View, Valid;
      assert calls[0..] == calls;
      for i := 0 to |calls|
        invariant Valid()
        invariant CollectAll(old(View()), ToolList(calls)) == CollectAll(View(), ToolList(calls[i..]))
      {
        assert ToolList(calls[i..])[1..] == ToolList(calls[i + 1..]) by { assert calls[i..][1..] == calls[i + 1..]; }
        var taken := OnToolCall(calls[i]);
        if !taken { return false; }
      }
      return true;
    }

    method OnFunctionCall(call: Option<FunctionDelta>)
      requires Valid()
      modifies this`legacyFunction, this`hasLegacyFunction
      ensures Valid() && CollectAll(old(View()), if call.Some? then [Legacy(call.value)] else []) == Some(View())
    {
      if call.None? { return; }
      CollectOne(View(), Legacy(call.value));
      hasLegacyFunction := true;
      legacyFunction := FunctionBuffer(MergedName(legacyFunction.name, call.value.name),
                                       legacyFunction.arguments + call.value.arguments.GetOr(""));
    }

    method OnHead(delta: Delta)
      requires Valid()
      modifies this`outputBlocks, this`reasoning, this`content, this`refusal
      ensures Valid() && CollectAll(old(View()), HeadPieces(delta)) == Some(View())
    {
      hide CollectAll, Collect, Valid, View;
      ghost var v := View();
      ghost var p1 := if delta.reasoning.Some? && delta.reasoning.value != "" then [Reasoning(delta.reasoning.value)] else [];
      ghost var p2 := if delta.signature.Some? then [Signature(delta.signature.value)] else [];
      ghost var p4 := if delta.refusal.Some? && delta.refusal.value != "" then [Refuse(delta.refusal.value)] else [];
      OnReasoning(delta.reasoning);
      OnSignature(delta.signature);
      CollectAllConcat(v, p1, p2);
      OnContent(delta.content);
      CollectAllConcat(v, p1 + p2, ContentPieces(delta.content));
      OnRefusal(delta.refusal);
      CollectAllConcat(v, p1 + p2 + ContentPieces(delta.content), p4);
    }

    method OnDelta(delta: Delta) returns (ok: bool)
      requires Valid()
      modifies this`outputBlocks, this`reasoning, this`content, this`refusal, this`toolCalls, this`legacyFunction,
               this`hasLegacyFunction
      ensures ok ==> Valid() && CollectAll(old(View()), BufferedPieces(delta)) == Some(View())
      ensures !ok ==> CollectAll(old(View()), BufferedPieces(delta)).None?
    {
      hide CollectAll, Collect, Valid, View, HeadPieces;
      ghost var v := View();
      ghost var legacy := if delta.functionCall.Some? then [Legacy(delta.functionCall.value)] else [];
      OnHead(delta);
      OnNotes(delta.citations, delta.outputBlock);
      CollectAllConcat(v, HeadPieces(delta), NotePieces(delta));
      CollectAllConcat(v, HeadPieces(delta) + NotePieces(delta), ToolPieces(delta));
      CollectAllConcat(View(), ToolList(delta.toolCalls), legacy);
      ok := OnToolCalls(delta.toolCalls);
      if ok { OnFunctionCall(delta.functionCall); }
    }

    method TakeHeader(event: Event)
      requires Valid() && event.Event?
      modifies this`id, this`model, this`serviceTier, this`usage
      ensures Valid() && View() == HeaderOf(old(View()), event)
    {
      if id.None? { id := event.id; }
      if model.None? { model := event.model; }
      if serviceTier.None? { serviceTier := event.tier; }
      if event.usage.Some? { usage := event.usage; }
    }

    // `finish_reason` is noted before the delta is read; an event that ends the stream is still read.
    method OnEvent(event: Event) returns (ok: bool)
      requires Valid()
      modifies this
      ensures ok <==> CollectEvent(old(View()), event).Some?
      ensures ok ==> Valid() && CollectEvent(old(View()), event) == Some(View())
    {
      if event.Malformed? || event.error.Some? { return false; }
      hide CollectAll, BufferedPieces;
      TakeHeader(event);
      if sawTerminal || event.choice.None? { return true; }
      var choice := event.choice.value;
      ok := OnDelta(choice.delta);
      CollectedFinish(HeaderOf(old(View()), event), BufferedPieces(choice.delta));
      if ok && Terminal(choice.finish) {
        finishReason, sawTerminal := choice.finish, true;
      }
    }

    // The reason the aggregate reports: [DONE] stands for one when the stream said something.
    method Conclude(sawDone: bool) returns (finish: Option<Finish>)
      requires Valid()
      ensures finish == FinishFor(View(), sawDone)
    {
      if finishReason != NoFinish { return Some(finishReason); }
      if !sawDone { return None; }
      if content == "" && reasoning == "" && refusal == "" && outputBlocks == [] && toolCalls == map[] && !hasLegacyFunction {
        return None;
      }
      return Some(StringFinish(if toolCalls == map[] && !hasLegacyFunction then "stop" else "length"));
    }
  }

  lemma {:induction false} CollectedFinish(b: Collected, pieces: seq<Piece>)
    ensures CollectAll(b, pieces).Some? ==> CollectAll(b, pieces).value.finish == b.finish
    decreases |pieces|
  {
    if pieces != [] && Collect(b, pieces[0]).Some? { CollectedFinish(Collect(b, pieces[0]).value, pieces[1..]); }
  }

  // Every output block in turn, as content of the message.
  method TransformBlocks(context: Context, tools: map<nat, ToolBuffer>, incomplete: bool, blocks: seq<Semantic>)
    returns (content: Option<seq<Block>>)
    ensures content == RenderAll(context, tools, incomplete, blocks)
  {
    var pushed: seq<Block> := [];
    for i := 0 to |blocks|
      invariant RenderAll(context, tools, incomplete, blocks[..i]) == Some(pushed)
    {
      assert blocks[..i + 1][..i] == blocks[..i];
      var block := RenderPart(context, tools, incomplete, blocks[i]);
      if block.None? {
        RenderFails(context, tools, incomplete, blocks, i + 1);
        return None;
      }
      pushed := pushed + [block.value];
    }
    assert blocks[..|blocks|] == blocks;
    return Some(pushed);
  }

  lemma {:induction false} RenderFails(c: Context, tools: map<nat, ToolBuffer>, incomplete: bool, blocks: seq<Semantic>, n: nat)
    requires n <= |blocks| && RenderAll(c, tools, incomplete, blocks[..n]).None?
    ensures RenderAll(c, tools, incomplete, blocks).None?
    decreases |blocks| - n
  {
    if n == |blocks| {
      assert blocks[..n] == blocks;
    } else {
      assert blocks[..n + 1][..n] == blocks[..n];
      RenderFails(c, tools, incomplete, blocks, n + 1);
    }
  }

  // Aggregation followed by the transform.
  method ConvertChatBytes(context: Context, freshId: string, events: seq<Event>, sawDone: bool) returns (m: Option<Message>)
    ensures m == ConvertBuffered(context, freshId, events, sawDone)
  {
    var state := new ChatAggregate();
    assert events[0..] == events;
    for i := 0 to |events|
      invariant fresh(state) && state.Valid()
      invariant CollectEvents(NOTHING, events) == CollectEvents(state.View(), events[i..])
    {
      assert events[i..][1..] == events[i + 1..];
      var ok := state.OnEvent(events[i]);
      if !ok { return None; }
    }
    assert events[|events|..] == [];
    var finish := state.Conclude(sawDone);
    if finish.None? { return None; }
    var reason := ReasonOf(finish.value);
    var isRefusal := IsRefusal(reason, state.refusal);
    var incomplete := reason == "length" || isRefusal;
    var content;
    if state.outputBlocks != [] {
      content := TransformBlocks(context, state.toolCalls, incomplete, state.outputBlocks);
    } else if state.hasLegacyFunction {
      content := RenderLegacy(context, Some(state.legacyFunction), incomplete, freshId);
    } else {
      content := Some([]);
    }
    if content.None? { return None; }
    if isRefusal {
      return Some(Message(content.value, Stop("refusal", Some(if state.refusal == "" then None else Some(state.refusal)), state.usage)));
    }
    if reason !in {"stop", "length", "tool_calls", "function_call"} { return None; }
    return Some(Message(content.value, Stop(
      if reason == "stop" then "end_turn" else if reason == "length" then "max_tokens" else "tool_use", None, state.usage)));
  }
}
