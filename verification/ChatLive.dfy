// The live Chat conversion: frames leave as events arrive. First what it means, then the code.
module ChatLiveSpec {
  import opened Wrappers
  import opened ChatEvents
  import Anthropic
  import opened Identity

  datatype Context = Context(omitThinking: bool, names: AliasMap, codec: Codec)

  // The block being sent, if any, with the text it stands for.
  datatype OpenBlock = NoBlock | OpenText(text: string) | OpenThinking(replay: string)

  // Blocks already closed, the open one, and the signature waiting for the next thinking block.
  datatype Sent = Sent(blocks: seq<Anthropic.Block>, open: OpenBlock, signature: Option<string>)

  datatype Live = Live(
    started: bool, id: string, model: string, tier: Option<string>, usage: Option<string>,
    sent: Sent, tools: map<nat, ToolBuffer>, deferred: seq<Semantic>, deferring: bool,
    finish: Option<string>, refusal: string, semantic: bool)

  function Fresh(freshId: string): Live {
    Live(false, freshId, "unknown", None, None, Sent([], NoBlock, None), map[], [], false, None, "", false)
  }

  function Shown(c: Context, text: string): string { if c.omitThinking then "" else text }

  function Close(c: Context, s: Sent): Sent {
    match s.open
    case NoBlock => s
    case OpenText(t) => Sent(s.blocks + [Anthropic.Text(t)], NoBlock, s.signature)
    case OpenThinking(t) =>
      Sent(s.blocks + [Anthropic.Thinking(Shown(c, t), ReplaySafeSignature(s.signature, t, c.omitThinking, c.codec))],
           NoBlock, None)
  }

  function SendText(c: Context, s: Sent, text: string): Sent {
    if s.open.OpenText? then s.(open := OpenText(s.open.text + text)) else Close(c, s).(open := OpenText(text))
  }

  function SendThinking(c: Context, s: Sent, text: string): Sent {
    if s.open.OpenThinking? then s.(open := OpenThinking(s.open.replay + text))
    else Close(c, s).(open := OpenThinking(text))
  }

  // Opening a block and then sending a text is sending the text.
  lemma SendTwice(c: Context, s: Sent, text: string)
    ensures SendText(c, SendText(c, s, ""), text) == SendText(c, s, text)
    ensures SendThinking(c, SendThinking(c, s, ""), text) == SendThinking(c, s, text)
  {
    assert "" + text == text;
    if s.open.OpenText? { assert s.open.text + "" == s.open.text; }
    if s.open.OpenThinking? { assert s.open.replay + "" == s.open.replay; }
  }

  function EmitText(c: Context, l: Live, text: string): Live {
    if l.deferring then l.(sent := Close(c, l.sent), deferred := AddText(l.deferred, text))
    else l.(sent := SendText(c, l.sent, text))
  }

  function EmitThinking(c: Context, l: Live, text: string): Live {
    if l.deferring then l.(sent := Close(c, l.sent), deferred := AddThinking(l.deferred, text))
    else l.(sent := SendThinking(c, l.sent, text))
  }

  function TakeSignature(c: Context, l: Live, signature: string): Live {
    if l.deferring then
      if l.deferred != [] && Last(l.deferred).ThinkingPart? then
        l.(deferred := SetLast(l.deferred, ThinkingPart(Last(l.deferred).text, Some(signature))))
      else l.(deferred := l.deferred + [ThinkingPart("", Some(signature))])
    else
      var ready := if l.sent.open.NoBlock? then EmitThinking(c, l, "") else l;
      ready.(sent := ready.sent.(signature := Some(signature)))
  }

  function WithTool(l: Live, index: nat, tool: ToolBuffer): Live {
    l.(deferred := AddTool(l.deferred, l.tools, index), deferring := true, tools := l.tools[index := tool])
  }

  function Apply(c: Context, l: Live, p: Piece): Option<Live> {
    var heard := l.(semantic := true);
    match p
    case Reasoning(t) => Some(EmitThinking(c, heard, t))
    case Signature(s) => Some(TakeSignature(c, heard, s))
    case Say(t) => Some(EmitText(c, heard, t))
    case Refuse(t) => Some(EmitText(c, heard.(refusal := l.refusal + t), t))
    case Tool(d) =>
      (match MergedTool(ToolSoFar(l.tools, d.index), d)
       case None => None
       case Some(tool) => Some(WithTool(heard, d.index, tool)))
    case Legacy(f) =>
      var was := ToolSoFar(l.tools, 0);
      Some(WithTool(heard, 0, ToolBuffer(if was.id == "" then f.freshId else was.id,
                                         MergedName(was.name, f.name), was.arguments + f.arguments.GetOr(""))))
  }

  function ApplyAll(c: Context, l: Live, pieces: seq<Piece>): Option<Live>
    decreases |pieces|
  {
    if pieces == [] then Some(l)
    else match Apply(c, l, pieces[0])
      case None => None
      case Some(next) => ApplyAll(c, next, pieces[1..])
  }

  lemma {:induction false} ApplyAllConcat(c: Context, l: Live, a: seq<Piece>, b: seq<Piece>)
    ensures ApplyAll(c, l, a + b) == match ApplyAll(c, l, a) case None => None case Some(m) => ApplyAll(c, m, b)
    decreases |a|
  {
    if a == [] {
      assert a + b == b;
    } else {
      assert (a + b)[0] == a[0] && (a + b)[1..] == a[1..] + b;
      match Apply(c, l, a[0])
      case None =>
      case Some(next) => ApplyAllConcat(c, next, a[1..], b);
    }
  }

  lemma ApplyOne(c: Context, l: Live, p: Piece)
    ensures ApplyAll(c, l, [p]) == Apply(c, l, p)
  {
    if Apply(c, l, p).Some? { assert ApplyAll(c, Apply(c, l, p).value, []) == Apply(c, l, p); }
  }

  function FinishReason(f: Finish): Option<string> {
    if f.StringFinish? && f.reason != "" then Some(f.reason) else None
  }

  function Header(l: Live, e: Event): Live
    requires e.Event?
  {
    l.(id := e.id.GetOr(l.id), model := e.model.GetOr(l.model),
       tier := if e.tier.Some? then e.tier else l.tier, usage := if e.usage.Some? then e.usage else l.usage)
  }

  // One event; None where the conversion fails.
  function OnEvent(c: Context, l: Live, e: Event): Option<Live> {
    if e.Malformed? || e.error.Some? then None
    else
      var h := Header(l, e);
      if l.finish.Some? || e.choice.None? then Some(h)
      else match ApplyAll(c, h.(started := true), LivePieces(e.choice.value.delta))
        case None => None
        case Some(m) => Some(m.(finish := FinishReason(e.choice.value.finish)))
  }

  function OnEvents(c: Context, l: Live, events: seq<Event>): Option<Live>
    decreases |events|
  {
    if events == [] then Some(l)
    else match OnEvent(c, l, events[0])
      case None => None
      case Some(next) => OnEvents(c, next, events[1..])
  }

  lemma {:induction false} OnEventsConcat(c: Context, l: Live, a: seq<Event>, b: seq<Event>)
    ensures OnEvents(c, l, a + b) == match OnEvents(c, l, a) case None => None case Some(next) => OnEvents(c, next, b)
    decreases |a|
  {
    hide OnEvent;
    if a == [] {
      assert a + b == b;
    } else {
      assert (a + b)[0] == a[0] && (a + b)[1..] == a[1..] + b;
      if OnEvent(c, l, a[0]).Some? { OnEventsConcat(c, OnEvent(c, l, a[0]).value, a[1..], b); }
    }
  }

  // ---- the end of the stream ----

  predicate KnownReason(reason: string) { reason in {"stop", "length", "tool_calls", "function_call", "content_filter"} }

  predicate ToolReason(reason: string) { reason == "tool_calls" || reason == "function_call" }

  predicate IsRefusal(reason: string, refusal: string) { reason == "content_filter" || refusal != "" }

  function Arguments(tool: ToolBuffer): string { if tool.arguments == "" then "{}" else tool.arguments }

  predicate Sendable(c: Context, tool: ToolBuffer) {
    tool.id != "" && tool.name != "" && c.codec.parseObject(Arguments(tool)).Some?
  }

  function ToolName(c: Context, tool: ToolBuffer): string {
    if tool.name == "" then "unknown" else c.names.Original(tool.name)
  }

  // The reason given, or what [DONE] stands for.
  function ReasonFor(l: Live, sawDone: bool): Option<string> {
    if l.finish.None? && !l.semantic && l.tools == map[] then None
    else if l.finish.Some? then l.finish
    else if sawDone then Some(if l.tools == map[] then "stop" else "length")
    else None
  }

  function SendDeferred(c: Context, s: Sent, tools: map<nat, ToolBuffer>, complete: bool, d: Semantic): Sent {
    match d
    case TextPart(t) => SendText(c, s, t)
    case ThinkingPart(t, signature) => SendThinking(c, s, t).(signature := signature)
    case ToolAt(i) =>
      var closed := Close(c, s);
      var tool := ToolSoFar(tools, i);
      if !complete then SendText(c, closed, IncompleteToolText(ToolName(c, tool), tool.arguments))
      else closed.(blocks := closed.blocks
                   + [Anthropic.ToolUse(tool.id, ToolName(c, tool), c.codec.parseObject(Arguments(tool)).GetOr(""))])
  }

  function SendAllDeferred(c: Context, s: Sent, tools: map<nat, ToolBuffer>, complete: bool, deferred: seq<Semantic>): Sent
    decreases |deferred|
  {
    if deferred == [] then s
    else SendAllDeferred(c, SendDeferred(c, s, tools, complete, deferred[0]), tools, complete, deferred[1..])
  }

  function StopFor(l: Live, reason: string): Anthropic.Stop {
    if IsRefusal(reason, l.refusal) then
      Anthropic.Stop("refusal", Some(if l.refusal == "" then None else Some(l.refusal)), l.usage)
    else
      Anthropic.Stop(if reason == "stop" then "end_turn" else if reason == "length" then "max_tokens" else "tool_use",
                     None, l.usage)
  }

  predicate CompleteTools(l: Live, reason: string) { ToolReason(reason) && !IsRefusal(reason, l.refusal) }

  // The message once everything deferred has been sent.
  function Concluded(c: Context, l: Live, reason: string): Anthropic.Message {
    var s := SendAllDeferred(c, Close(c, l.sent), l.tools, CompleteTools(l, reason), l.deferred);
    Anthropic.Message(Close(c, s).blocks, StopFor(l, reason))
  }

  // The finished message; None where the conversion fails.
  function Finished(c: Context, l: Live, sawDone: bool): Option<Anthropic.Message> {
    match ReasonFor(l, sawDone)
    case None => None
    case Some(reason) =>
      if !KnownReason(reason) then None
      else if CompleteTools(l, reason) && exists i :: i in l.tools && !Sendable(c, l.tools[i]) then None
      else Some(Concluded(c, l, reason))
  }

  function Convert(c: Context, freshId: string, events: seq<Event>, sawDone: bool): Option<Anthropic.Message> {
    match OnEvents(c, Fresh(freshId), events)
    case None => None
    case Some(l) => Finished(c, l, sawDone)
  }

  // ---- deferred tools ----

  // Each tool waits at one place of the deferred list, and nothing is deferred before a tool.
  ghost predicate Tidy(l: Live) {
    && (l.deferring <==> l.deferred != []) && (l.deferring ==> l.deferred[0].ToolAt?)
    && Placed(l.deferred, l.tools)
  }

  ghost predicate Placed(deferred: seq<Semantic>, tools: map<nat, ToolBuffer>) {
    && (forall p :: 0 <= p < |deferred| && deferred[p].ToolAt? ==> deferred[p].index in tools)
    && (forall p, q :: 0 <= p < q < |deferred| && deferred[p].ToolAt? && deferred[q].ToolAt? ==>
          deferred[p].index != deferred[q].index)
    && (forall i :: i in tools ==> ToolAt(i) in deferred)
  }

  lemma WithToolKeepsTidy(l: Live, index: nat, tool: ToolBuffer)
    requires Tidy(l)
    ensures Tidy(WithTool(l, index, tool))
  {
    assert forall d :: d in l.deferred ==> d in AddTool(l.deferred, l.tools, index);
    if index !in l.tools { assert Last(AddTool(l.deferred, l.tools, index)) == ToolAt(index); }
  }

  // `b` grew out of `a` by text and thinking only.
  ghost predicate SameTools(a: seq<Semantic>, b: seq<Semantic>) {
    && |a| <= |b|
    && (forall p :: 0 <= p < |b| && b[p].ToolAt? ==> p < |a|)
    && (forall p :: 0 <= p < |a| && (a[p].ToolAt? || b[p].ToolAt?) ==> a[p] == b[p])
  }

  lemma SameToolsKeepPlaces(a: seq<Semantic>, b: seq<Semantic>, tools: map<nat, ToolBuffer>)
    requires Placed(a, tools) && SameTools(a, b)
    ensures Placed(b, tools)
  {
    forall i | i in tools ensures ToolAt(i) in b {
      var p :| 0 <= p < |a| && a[p] == ToolAt(i);
      assert b[p] == ToolAt(i);
    }
  }

  lemma EmitKeepsTidy(c: Context, l: Live, text: string)
    requires Tidy(l)
    ensures Tidy(EmitText(c, l, text)) && Tidy(EmitThinking(c, l, text))
  {
    hide Close, SendText, SendThinking, Placed;
    if l.deferring {
      SameToolsKeepPlaces(l.deferred, AddText(l.deferred, text), l.tools);
      SameToolsKeepPlaces(l.deferred, AddThinking(l.deferred, text), l.tools);
    }
  }

  lemma TakeSignatureKeepsTidy(c: Context, l: Live, signature: string)
    requires Tidy(l)
    ensures Tidy(TakeSignature(c, l, signature))
  {
    hide Close, SendText, SendThinking, Placed;
    if l.deferring { SameToolsKeepPlaces(l.deferred, TakeSignature(c, l, signature).deferred, l.tools); }
  }

  lemma ApplyKeepsTidy(c: Context, l: Live, p: Piece)
    requires Tidy(l) && Apply(c, l, p).Some?
    ensures Tidy(Apply(c, l, p).value)
  {
    var heard := l.(semantic := true);
    match p {
      case Reasoning(t) => EmitKeepsTidy(c, heard, t);
      case Signature(s) => TakeSignatureKeepsTidy(c, heard, s);
      case Say(t) => EmitKeepsTidy(c, heard, t);
      case Refuse(t) => EmitKeepsTidy(c, heard.(refusal := l.refusal + t), t);
      case Tool(d) => WithToolKeepsTidy(heard, d.index, MergedTool(ToolSoFar(l.tools, d.index), d).value);
      case Legacy(f) =>
        hide Tidy;
        WithToolKeepsTidy(heard, 0, Apply(c, l, p).value.tools[0]);
    }
  }

  lemma {:induction false} ApplyAllKeepsTidy(c: Context, l: Live, pieces: seq<Piece>)
    requires Tidy(l) && ApplyAll(c, l, pieces).Some?
    ensures Tidy(ApplyAll(c, l, pieces).value)
    decreases |pieces|
  {
    if pieces != [] {
      ApplyKeepsTidy(c, l, pieces[0]);
      ApplyAllKeepsTidy(c, Apply(c, l, pieces[0]).value, pieces[1..]);
    }
  }

  lemma OnEventKeepsTidy(c: Context, l: Live, e: Event)
    requires Tidy(l) && OnEvent(c, l, e).Some?
    ensures Tidy(OnEvent(c, l, e).value)
  {
    if l.finish.None? && e.choice.Some? {
      ApplyAllKeepsTidy(c, Header(l, e).(started := true), LivePieces(e.choice.value.delta));
    }
  }

  lemma {:induction false} EventsKeepTidy(c: Context, l: Live, events: seq<Event>)
    requires Tidy(l) && OnEvents(c, l, events).Some?
    ensures Tidy(OnEvents(c, l, events).value)
    decreases |events|
  {
    if events != [] {
      OnEventKeepsTidy(c, l, events[0]);
      EventsKeepTidy(c, OnEvent(c, l, events[0]).value, events[1..]);
    }
  }

  // ---- when tool calls are sent ----

  lemma {:induction false} DeferredSendsToolsOnlyComplete(c: Context, s: Sent, tools: map<nat, ToolBuffer>, deferred: seq<Semantic>)
    requires Anthropic.NoToolUse(s.blocks)
    ensures Anthropic.NoToolUse(Close(c, SendAllDeferred(c, s, tools, false, deferred)).blocks)
    decreases |deferred|
  {
    if deferred != [] {
      DeferredSendsToolsOnlyComplete(c, SendDeferred(c, s, tools, false, deferred[0]), tools, deferred[1..]);
    }
  }

  lemma {:induction false} EventsSendNoTools(c: Context, l: Live, events: seq<Event>)
    requires Anthropic.NoToolUse(l.sent.blocks) && OnEvents(c, l, events).Some?
    ensures Anthropic.NoToolUse(OnEvents(c, l, events).value.sent.blocks)
    decreases |events|
  {
    if events != [] {
      var next := OnEvent(c, l, events[0]).value;
      if l.finish.None? && events[0].choice.Some? {
        PiecesSendNoTools(c, Header(l, events[0]).(started := true), LivePieces(events[0].choice.value.delta));
      }
      EventsSendNoTools(c, next, events[1..]);
    }
  }

  lemma {:induction false} PiecesSendNoTools(c: Context, l: Live, pieces: seq<Piece>)
    requires Anthropic.NoToolUse(l.sent.blocks) && ApplyAll(c, l, pieces).Some?
    ensures Anthropic.NoToolUse(ApplyAll(c, l, pieces).value.sent.blocks)
    decreases |pieces|
  {
    if pieces != [] {
      PieceSendsNoTool(c, l, pieces[0]);
      hide Apply, Anthropic.NoToolUse;
      PiecesSendNoTools(c, Apply(c, l, pieces[0]).value, pieces[1..]);
    }
  }

  lemma PieceSendsNoTool(c: Context, l: Live, p: Piece)
    requires Anthropic.NoToolUse(l.sent.blocks) && Apply(c, l, p).Some?
    ensures Anthropic.NoToolUse(Apply(c, l, p).value.sent.blocks)
  {
    hide MergedTool, MergedName, AddTool, AddText, AddThinking;
  }

  // A tool call is sent only in a message that stops for tool use.
  lemma ToolUseOnlyWhenStoppingForIt(c: Context, freshId: string, events: seq<Event>, sawDone: bool)
    requires Convert(c, freshId, events, sawDone).Some?
    ensures var m := Convert(c, freshId, events, sawDone).value;
            Anthropic.NoToolUse(m.content) || m.stop.reason == "tool_use"
  {
    EventsSendNoTools(c, Fresh(freshId), events);
    var l := OnEvents(c, Fresh(freshId), events).value;
    if !CompleteTools(l, ReasonFor(l, sawDone).value) {
      DeferredSendsToolsOnlyComplete(c, Close(c, l.sent), l.tools, l.deferred);
    }
  }
}

module ChatLive {
  import opened Wrappers
  import opened ChatEvents
  import opened ChatLiveSpec
  import opened Anthropic
  import opened Identity

  datatype BlockKind = TextKind | ThinkingKind

  // One tool fragment: a stable id, a name that may grow, arguments appended.
  method MergeToolDelta(slot: ToolBuffer, call: ToolDelta) returns (r: Option<ToolBuffer>)
    ensures r == MergedTool(slot, call)
  {
    var tool := slot;
    if call.id.Some? && call.id.value != "" {
      if tool.id == "" {
        tool := tool.(id := call.id.value);
      } else if tool.id != call.id.value {
        return None;
      }
    }
    if call.name.Some? && call.name.value != "" && tool.name != call.name.value {
      tool := tool.(name := if StartsWith(call.name.value, tool.name) then call.name.value else tool.name + call.name.value);
    }
    if call.arguments.Some? { tool := tool.(arguments := tool.arguments + call.arguments.value); }
    assert slot.arguments + "" == slot.arguments;
    return Some(tool);
  }

  class ChatStreamState {
    const context: Context
    var started: bool
    var messageId: string
    var model: string
    var serviceTier: Option<string>
    var nextIndex: nat
    var open: Option<(BlockKind, nat)>
    var reasoningReplay: string
    var reasoningSignature: Option<string>
    var tools: map<nat, ToolBuffer>
    var deferred: seq<Semantic>
    var deferSemantic: bool
    var finishReason: Option<string>
    var usage: Option<string>
    var refusal: string
    var sawSemanticOutput: bool
    var failed: bool
    ghost var client: Client  // what the frames sent so far made of the client

    // At most one block is open, it is the next one the client counts, and the client holds its text.
    ghost predicate Valid()
      reads this
    {
      if !started then client == Waiting && open == None && nextIndex == 0 && reasoningReplay == ""
      else
        && client.Receiving?
        && match open
           case None => client.open == None && reasoningReplay == "" && nextIndex == |client.blocks|
           case Some((kind, index)) =>
             && index == |client.blocks| && nextIndex == index + 1 && client.open.Some?
             && if kind.TextKind? then client.open.value.PartialText? && reasoningReplay == ""
                else client.open.value == PartialThinking(Shown(context, reasoningReplay), None)
    }

    ghost function Sent(): Sent
      reads this
    {
      ChatLiveSpec.Sent(
        if client.Receiving? then client.blocks else [],
        match open
        case None => NoBlock
        case Some((TextKind, _)) =>
          OpenText(if client.Receiving? && client.open.Some? && client.open.value.PartialText? then client.open.value.text else "")
        case Some((ThinkingKind, _)) => OpenThinking(reasoningReplay),
        reasoningSignature)
    }

    ghost function View(): Live
      reads this
    {
      Live(started, messageId, model, serviceTier, usage, Sent(), tools, deferred, deferSemantic,
           finishReason, refusal, sawSemanticOutput)
    }

    constructor (context: Context, freshId: string)
      ensures Valid() && View() == Fresh(freshId) && client == Waiting && this.context == context && !failed
    {
      this.context := context;
      started, messageId, model, serviceTier := false, freshId, "unknown", None;
      nextIndex, open, reasoningReplay, reasoningSignature := 0, None, "", None;
      tools, deferred, deferSemantic, finishReason := map[], [], false, None;
      usage, refusal, sawSemanticOutput, failed := None, "", false, false;
      client := Waiting;
    }

    method EnsureStarted() returns (frames: seq<Frame>)
      requires Valid()
      modifies this`started, this`client
      ensures Valid() && View() == old(View()).(started := true) && client == Run(old(client), frames)
    {
      if started { return []; }
      started := true;
      frames := [MessageStart(messageId, model, serviceTier)];
      client := Run(client, frames);
      RunSnoc(old(client), [], frames[0]);
      assert [] + frames == frames;
    }

    // The signature that seals the open thinking block; the upstream one is used up.
    method TakeReplaySignature() returns (signature: string)
      modifies this`reasoningSignature
      ensures signature == ReplaySafeSignature(old(reasoningSignature), reasoningReplay, context.omitThinking, context.codec)
      ensures reasoningSignature == None
    {
      var upstream := reasoningSignature;
      reasoningSignature := None;
      signature :=
        if context.omitThinking && reasoningReplay != "" && (upstream.None? || !IsRouterSignature(upstream.value))
        then context.codec.encode(reasoningReplay)
        else upstream.GetOr(context.codec.encode(reasoningReplay));
    }

    // The signature delta that precedes the end of a thinking block.
    method SealThinking() returns (frames: seq<Frame>)
      requires Valid() && open.Some? && open.value.0 == ThinkingKind && started
      modifies this`reasoningReplay, this`reasoningSignature, this`client
      ensures client == Receiving(old(client).blocks, Some(PartialThinking(
                Shown(context, old(reasoningReplay)),
                Some(ReplaySafeSignature(old(reasoningSignature), old(reasoningReplay), context.omitThinking, context.codec)))))
      ensures client == Run(old(client), frames) && reasoningReplay == "" && reasoningSignature == None
    {
      var signature := TakeReplaySignature();
      frames := Append(SignatureDelta(signature));
      reasoningReplay := "";
    }

    method CloseOpen() returns (frames: seq<Frame>)
      requires Valid()
      modifies this`open, this`reasoningReplay, this`reasoningSignature, this`client
      ensures Valid() && open == None && View() == old(View()).(sent := Close(context, old(Sent())))
      ensures client == Run(old(client), frames)
    {
      frames := [];
      RunConcat(client, [], []);
      if open.None? { return; }
      hide Run, Step, ReplaySafeSignature;
      var (kind, index) := open.value;
      if kind == ThinkingKind { frames := SealThinking(); }
      open := None;
      frames := EndBlock(index, frames, old(client));
    }

    // The end of the open block, now complete.
    method EndBlock(index: nat, sealed_: seq<Frame>, ghost before: Client) returns (frames: seq<Frame>)
      requires client.Receiving? && client.open.Some? && Closed(client.open.value).Some? && index == |client.blocks|
      requires client == Run(before, sealed_)
      modifies this`client
      ensures client == Receiving(old(client).blocks + [Closed(old(client).open.value).value], None)
      ensures client == Run(before, frames)
    {
      StepsOfOpenBlock(client.blocks, client.open.value, TextDelta(""));
      RunSnoc(before, sealed_, BlockStop(index));
      frames := sealed_ + [BlockStop(index)];
      client := Run(before, frames);
    }

    method EnsureBlock(kind: BlockKind) returns (frames: seq<Frame>)
      requires Valid() && started
      modifies this`open, this`nextIndex, this`reasoningReplay, this`reasoningSignature, this`client
      ensures Valid() && open.Some? && open.value.0 == kind && client == Run(old(client), frames)
      ensures View() == old(View()).(sent := if kind == TextKind then SendText(context, old(Sent()), "")
                                             else SendThinking(context, old(Sent()), ""))
    {
      if open.Some? && open.value.0 == kind { return []; }
      frames := CloseOpen();
      var index := nextIndex;
      nextIndex := nextIndex + 1;
      var header := if kind == TextKind then TextHeader else ThinkingHeader;
      RunSnoc(old(client), frames, BlockStart(index, header));
      frames := frames + [BlockStart(index, header)];
      open := Some((kind, index));
      client := Run(old(client), frames);
    }

    // After the first tool delta nothing is sent; the text waits in order.
    method DeferText(text: string) returns (frames: seq<Frame>)
      requires Valid() && deferSemantic
      modifies this`open, this`reasoningReplay, this`reasoningSignature, this`client, this`deferred
      ensures Valid() && View() == ChatLiveSpec.EmitText(context, old(View()), text) && client == Run(old(client), frames)
    {
      frames := CloseOpen();
      if deferred != [] && Last(deferred).TextPart? {
        deferred := SetLast(deferred, TextPart(Last(deferred).text + text));
      } else {
        deferred := deferred + [TextPart(text)];
      }
    }

    method DeferThinking(text: string) returns (frames: seq<Frame>)
      requires Valid() && deferSemantic
      modifies this`open, this`reasoningReplay, this`reasoningSignature, this`client, this`deferred
      ensures Valid() && View() == ChatLiveSpec.EmitThinking(context, old(View()), text) && client == Run(old(client), frames)
    {
      frames := CloseOpen();
      if deferred != [] && Last(deferred).ThinkingPart? {
        deferred := SetLast(deferred, ThinkingPart(Last(deferred).text + text, Last(deferred).signature));
      } else {
        deferred := deferred + [ThinkingPart(text, None)];
      }
    }

    // One increment of the open block.
    method Append(delta: Increment) returns (frames: seq<Frame>)
      requires client.Receiving? && client.open.Some? && open.Some? && open.value.1 == |client.blocks|
      requires Extended(client.open.value, delta).Some?
      modifies this`client
      ensures client == Receiving(old(client).blocks, Extended(old(client.open).value, delta))
      ensures client == Run(old(client), frames)
    {
      StepsOfOpenBlock(client.blocks, client.open.value, delta);
      frames := [BlockDelta(open.value.1, delta)];
      RunOne(client, frames[0]);
      client := Run(client, frames);
    }

    method EmitText(text: string) returns (frames: seq<Frame>)
      requires Valid() && started
      modifies this`open, this`nextIndex, this`reasoningReplay, this`reasoningSignature, this`client, this`deferred
      ensures Valid() && View() == ChatLiveSpec.EmitText(context, old(View()), text) && client == Run(old(client), frames)
    {
      if deferSemantic {
        frames := DeferText(text);
        return;
      }
      SendTwice(context, Sent(), text);
      frames := EnsureBlock(TextKind);
      hide Run, Step, Close, SendText;
      assert client.open.value.text + "" == client.open.value.text;
      if text != "" {
        var more := Append(TextDelta(text));
        RunConcat(old(client), frames, more);
        frames := frames + more;
      }
    }

    method EmitThinking(text: string) returns (frames: seq<Frame>)
      requires Valid() && started
      modifies this`open, this`nextIndex, this`reasoningReplay, this`reasoningSignature, this`client, this`deferred
      ensures Valid() && View() == ChatLiveSpec.EmitThinking(context, old(View()), text) && client == Run(old(client), frames)
      ensures !deferSemantic ==> open.Some?
    {
      if deferSemantic {
        frames := DeferThinking(text);
        return;
      }
      SendTwice(context, Sent(), text);
      frames := EnsureBlock(ThinkingKind);
      ghost var middle := Sent();
      assert SendThinking(context, middle, text) == middle.(open := OpenThinking(reasoningReplay + text));
      hide Run, Step, Close, SendThinking;
      assert Shown(context, reasoningReplay + text) == Shown(context, reasoningReplay) + Shown(context, text);
      assert client.open.value.thinking + "" == client.open.value.thinking;
      reasoningReplay := reasoningReplay + text;
      if !context.omitThinking && text != "" {
        var more := Append(ThinkingDelta(text));
        RunConcat(old(client), frames, more);
        frames := frames + more;
      }
      assert Sent() == middle.(open := OpenThinking(reasoningReplay));
    }

    // `pieces` have been taken in since `before`, and `frames` brought the client here.
    ghost predicate Took(before: Live, pieces: seq<Piece>, clientBefore: Client, frames: seq<Frame>)
      reads this
    {
      Valid() && ApplyAll(context, before, pieces) == Some(View()) && client == Run(clientBefore, frames)
    }

    // Something with meaning has come; `refused` is refusal text.
    method Hear(refused: string)
      requires Valid()
      modifies this`sawSemanticOutput, this`refusal
      ensures Valid() && View() == old(View()).(semantic := true, refusal := old(refusal) + refused)
      ensures refused == "" ==> View() == old(View()).(semantic := true)
    {
      sawSemanticOutput := true;
      refusal := refusal + refused;
    }

    method OnReasoning(text: Option<string>) returns (frames: seq<Frame>)
      requires Valid() && started
      modifies this
      ensures Took(old(View()), if text.Some? && text.value != "" then [Reasoning(text.value)] else [], old(client), frames)
      ensures started && failed == old(failed)
    {
      frames := [];
      RunConcat(client, [], []);
      if text.Some? && text.value != "" {
        ApplyOne(context, View(), Reasoning(text.value));
        Hear("");
        hide Valid, ChatLiveSpec.EmitThinking;
        frames := EmitThinking(text.value);
      }
    }

    method OnSignature(signature: Option<string>) returns (frames: seq<Frame>)
      requires Valid() && started
      modifies this
      ensures Took(old(View()), if signature.Some? then [Signature(signature.value)] else [], old(client), frames)
      ensures started && failed == old(failed)
    {
      frames := [];
      RunConcat(client, [], []);
      if signature.None? { return; }
      ApplyOne(context, View(), Signature(signature.value));
      Hear("");
      if deferSemantic {
        if deferred != [] && Last(deferred).ThinkingPart? {
          deferred := SetLast(deferred, ThinkingPart(Last(deferred).text, signature));
        } else {
          deferred := deferred + [ThinkingPart("", signature)];
        }
      } else {
        if open.None? { frames := EmitThinking(""); }
        reasoningSignature := signature;
      }
    }

    method OnText(text: string) returns (frames: seq<Frame>)
      requires Valid() && started
      modifies this
      ensures Took(old(View()), Spoken(text), old(client), frames) && started && failed == old(failed)
    {
      frames := [];
      RunConcat(client, [], []);
      if text != "" {
        ApplyOne(context, View(), Say(text));
        Hear("");
        hide Valid, ChatLiveSpec.EmitText;
        frames := EmitText(text);
      }
    }

    method OnContent(content: Content) returns (frames: seq<Frame>)
      requires Valid() && started
      modifies this
      ensures Took(old(View()), ContentPieces(content), old(client), frames) && started && failed == old(failed)
    {
      frames := [];
      RunConcat(client, [], []);
      match content {
        case NoContent =>
        case TextContent(text) => frames := OnText(text);
        case PartsContent(parts) =>
          assert parts[0..] == parts;
          for i := 0 to |parts|
            invariant Valid() && started && failed == old(failed) && client == Run(old(client), frames)
            invariant ApplyAll(context, old(View()), SpokenParts(parts)) == ApplyAll(context, View(), SpokenParts(parts[i..]))
          {
            assert parts[i..][1..] == parts[i + 1..];
            ApplyAllConcat(context, View(), Spoken(PartText(parts[i])), SpokenParts(parts[i + 1..]));
            var more := OnText(PartText(parts[i]));
            RunConcat(old(client), frames, more);
            frames := frames + more;
          }
      }
    }

    method OnRefusal(text: Option<string>) returns (frames: seq<Frame>)
      requires Valid() && started
      modifies this
      ensures Took(old(View()), if text.Some? && text.value != "" then [Refuse(text.value)] else [], old(client), frames)
      ensures started && failed == old(failed)
    {
      frames := [];
      RunConcat(client, [], []);
      if text.Some? && text.value != "" {
        ApplyOne(context, View(), Refuse(text.value));
        Hear(text.value);
        hide Valid, ChatLiveSpec.EmitText;
        frames := EmitText(text.value);
      }
    }

    method SetTool(index: nat, tool: ToolBuffer)
      requires Valid()
      modifies this`sawSemanticOutput, this`deferred, this`deferSemantic, this`tools
      ensures Valid() && View() == WithTool(old(View()).(semantic := true), index, tool)
    {
      sawSemanticOutput := true;
      if index !in tools { deferred := deferred + [ToolAt(index)]; }
      deferSemantic := true;
      tools := tools[index := tool];
    }

    method OnToolCall(call: ToolDelta) returns (ok: bool)
      requires Valid() && started
      modifies this`sawSemanticOutput, this`deferred, this`deferSemantic, this`tools
      ensures ok ==> Valid() && Apply(context, old(View()), Tool(call)) == Some(View())
      ensures !ok ==> Apply(context, old(View()), Tool(call)).None?
    {
      var tool := if call.index in tools then tools[call.index] else EMPTY_TOOL;
      var merged := MergeToolDelta(tool, call);
      if merged.None? { return false; }
      hide Valid;
      SetTool(call.index, merged.value);
      return true;
    }

    method OnToolCalls(calls: seq<ToolDelta>) returns (ok: bool)
      requires Valid() && started
      modifies this`sawSemanticOutput, this`deferred, this`deferSemantic, this`tools
      ensures ok ==> Valid() && ApplyAll(context, old(View()), ToolList(calls)) == Some(View())
      ensures !ok ==> ApplyAll(context, old(View()), ToolList(calls)).None?
    {
      hide Apply, View, Valid;
      assert calls[0..] == calls;
      for i := 0 to |calls|
        invariant Valid()
        invariant ApplyAll(context, old(View()), ToolList(calls)) == ApplyAll(context, View(), ToolList(calls[i..]))
      {
        assert ToolList(calls[i..])[1..] == ToolList(calls[i + 1..]) by { assert calls[i..][1..] == calls[i + 1..]; }
        var taken := OnToolCall(calls[i]);
        if !taken { return false; }
      }
      return true;
    }

    method OnFunctionCall(call: Option<FunctionDelta>)
      requires Valid() && started
      modifies this`sawSemanticOutput, this`deferred, this`deferSemantic, this`tools
      ensures Valid()
      ensures ApplyAll(context, old(View()), if call.Some? then [Legacy(call.value)] else []) == Some(View())
    {
      if call.None? { return; }
      var function_ := call.value;
      ApplyOne(context, View(), Legacy(function_));
      var tool := if 0 in tools then tools[0] else EMPTY_TOOL;
      assert tool.arguments + "" == tool.arguments;
      if tool.id == "" { tool := tool.(id := function_.freshId); }
      tool := tool.(name := MergedName(tool.name, function_.name), arguments := tool.arguments + function_.arguments.GetOr(""));
      hide Valid;
      SetTool(0, tool);
    }

    method OnNotes(citations: Option<JsonText>, block: Option<JsonText>) returns (frames: seq<Frame>)
      requires Valid() && started
      modifies this
      ensures Took(old(View()),
                   (if citations.Some? then [Say(BoundedJson(citations.value))] else [])
                   + (if block.Some? then [Say(BoundedJson(block.value))] else []), old(client), frames)
      ensures started && failed == old(failed)
    {
      var cited := if citations.Some? then BoundedJson(citations.value) else "";
      var shown := if block.Some? then BoundedJson(block.value) else "";
      ApplyAllConcat(context, View(), Spoken(cited), Spoken(shown));
      frames := OnText(cited);
      var more := OnText(shown);
      RunConcat(old(client), frames, more);
      frames := frames + more;
    }

    method OnHead(delta: Delta) returns (frames: seq<Frame>)
      requires Valid() && started
      modifies this
      ensures Took(old(View()), HeadPieces(delta), old(client), frames) && started && failed == old(failed)
    {
      hide ApplyAll, Run, Apply, Valid, View;
      ghost var l0, c0 := View(), client;
      frames := OnReasoning(delta.reasoning);
      ghost var p1 := if delta.reasoning.Some? && delta.reasoning.value != "" then [Reasoning(delta.reasoning.value)] else [];
      ghost var l1 := View();
      var more := OnSignature(delta.signature);
      ghost var p2 := if delta.signature.Some? then [Signature(delta.signature.value)] else [];
      Chain(context, l0, p1, l1, p2, View(), c0, frames, more);
      frames := frames + more;
      ghost var l2 := View();
      more := OnContent(delta.content);
      Chain(context, l0, p1 + p2, l2, ContentPieces(delta.content), View(), c0, frames, more);
      frames := frames + more;
      ghost var l3 := View();
      more := OnRefusal(delta.refusal);
      ghost var p4 := if delta.refusal.Some? && delta.refusal.value != "" then [Refuse(delta.refusal.value)] else [];
      Chain(context, l0, p1 + p2 + ContentPieces(delta.content), l3, p4, View(), c0, frames, more);
      frames := frames + more;
    }

    // The semantic part of one event.
    method OnDelta(delta: Delta) returns (r: Result<seq<Frame>, string>)
      requires Valid() && started
      modifies this
      ensures r.Ok? ==> Took(old(View()), LivePieces(delta), old(client), r.value) && started && failed == old(failed)
      ensures r.Err? ==> ApplyAll(context, old(View()), LivePieces(delta)).None?
    {
      hide ApplyAll, Run, Apply, Valid, View, HeadPieces;
      ghost var l0, c0 := View(), client;
      var frames := OnHead(delta);
      ghost var l1 := View();
      ApplyAllConcat(context, l0, HeadPieces(delta), ToolPieces(delta));
      ApplyAllConcat(context, l0, HeadPieces(delta) + ToolPieces(delta), NotePieces(delta));
      ghost var legacy := if delta.functionCall.Some? then [Legacy(delta.functionCall.value)] else [];
      ApplyAllConcat(context, l1, ToolList(delta.toolCalls), legacy);
      var ok := OnToolCalls(delta.toolCalls);
      if !ok { return Err("upstream tool call id changed during the stream"); }
      OnFunctionCall(delta.functionCall);
      var more := OnNotes(delta.citations, delta.outputBlock);
      RunConcat(c0, frames, more);
      return Ok(frames + more);
    }

    method OnRawEvent(event: Event) returns (r: Result<seq<Frame>, string>)
      requires Valid() && !failed
      modifies this
      ensures r.Err? <==> OnEvent(context, old(View()), event).None?
      ensures r.Ok? ==> Valid() && !failed && OnEvent(context, old(View()), event) == Some(View())
                        && client == Run(old(client), r.value)
    {
      if event.Malformed? { return Err("upstream Chat SSE contains malformed JSON"); }
      if event.error.Some? {
        failed := true;
        return Err(event.error.value);
      }
      RunConcat(client, [], []);
      hide ApplyAll, Run, Apply, LivePieces, Close, Valid, View;
      TakeHeader(event);
      if finishReason.Some? || event.choice.None? { return Ok([]); }
      var frames := EnsureStarted();
      ghost var middle := View();
      var choice := event.choice.value;
      var more := OnDelta(choice.delta);
      if more.Err? { return more; }
      RunConcat(old(client), frames, more.value);
      AppliedFinish(context, middle, LivePieces(choice.delta), View());
      NoteFinish(FinishReason(choice.finish));
      return Ok(frames + more.value);
    }

    method TakeHeader(event: Event)
      requires Valid() && event.Event?
      modifies this`messageId, this`model, this`serviceTier, this`usage
      ensures Valid() && View() == Header(old(View()), event) && client == old(client)
    {
      messageId, model := event.id.GetOr(messageId), event.model.GetOr(model);
      serviceTier := if event.tier.Some? then event.tier else serviceTier;
      usage := if event.usage.Some? then event.usage else usage;
    }

    method NoteFinish(reason: Option<string>)
      requires Valid() && View().finish.None?
      modifies this`finishReason
      ensures Valid() && View() == old(View()).(finish := reason) && client == old(client)
    {
      if reason.Some? { finishReason := reason; }
    }

    // A tool call goes out whole: header, input, end.
    method EmitTool(tool: ToolBuffer, name: string, input: string) returns (frames: seq<Frame>)
      requires Valid() && started && open == None
      modifies this`nextIndex, this`client
      ensures Valid() && client == Run(old(client), frames)
      ensures View() == old(View()).(sent := old(Sent()).(blocks := old(Sent()).blocks + [ToolUse(tool.id, name, input)]))
    {
      var index := nextIndex;
      nextIndex := nextIndex + 1;
      frames := [BlockStart(index, ToolHeader(tool.id, name)), BlockDelta(index, InputJsonDelta(input)), BlockStop(index)];
      RunOne(client, frames[0]);
      RunSnoc(client, [frames[0]], frames[1]);
      RunSnoc(client, [frames[0]] + [frames[1]], frames[2]);
      assert frames == [frames[0]] + [frames[1]] + [frames[2]];
      client := Run(client, frames);
    }

    method EmitDeferredTool(tool: ToolBuffer, complete: bool) returns (frames: seq<Frame>)
      requires Valid() && started && !deferSemantic && deferred == []
      requires complete ==> Sendable(context, tool)
      modifies this`open, this`nextIndex, this`reasoningReplay, this`reasoningSignature, this`client, this`deferred
      ensures Valid() && client == Run(old(client), frames)
      ensures forall tools, i: nat :: ToolSoFar(tools, i) == tool ==>
                View() == old(View()).(sent := SendDeferred(context, old(Sent()), tools, complete, ToolAt(i)))
    {
      frames := CloseOpen();
      hide Valid, Run, Close;
      var name := if tool.name == "" then "unknown" else context.names.Original(tool.name);
      var more;
      if !complete {
        more := EmitText(IncompleteToolText(name, tool.arguments));
      } else {
        var input := context.codec.parseObject(if tool.arguments == "" then "{}" else tool.arguments);
        more := EmitTool(tool, name, input.value);
      }
      RunConcat(old(client), frames, more);
      frames := frames + more;
    }

    method EmitDeferred(item: Semantic, tools: map<nat, ToolBuffer>, complete: bool) returns (frames: seq<Frame>)
      requires Valid() && started && !deferSemantic && deferred == []
      requires item.ToolAt? ==> item.index in tools && (complete ==> Sendable(context, tools[item.index]))
      modifies this`open, this`nextIndex, this`reasoningReplay, this`reasoningSignature, this`client, this`deferred
      ensures Valid() && client == Run(old(client), frames)
      ensures View() == old(View()).(sent := SendDeferred(context, old(Sent()), tools, complete, item))
    {
      match item {
        case TextPart(text) => frames := EmitText(text);
        case ThinkingPart(text, signature) =>
          frames := EmitThinking(text);
          hide ChatLiveSpec.SendThinking;
          reasoningSignature := signature;
        case ToolAt(index) =>
          frames := EmitDeferredTool(tools[index], complete);
          assert ToolSoFar(tools, index) == tools[index];
      }
    }

    // Sends what was deferred, in order, using each tool up.
    method EmitAllDeferred(items: seq<Semantic>, buffers: map<nat, ToolBuffer>, complete: bool) returns (frames: seq<Frame>)
      requires Valid() && started && !deferSemantic && deferred == [] && Placed(items, buffers)
      requires complete ==> forall i :: i in buffers ==> Sendable(context, buffers[i])
      modifies this`open, this`nextIndex, this`reasoningReplay, this`reasoningSignature, this`client, this`deferred
      ensures Valid() && client == Run(old(client), frames)
      ensures View() == old(View()).(sent := SendAllDeferred(context, old(Sent()), buffers, complete, items))
    {
      var tools := buffers;
      frames := [];
      RunConcat(client, [], []);
      assert items[0..] == items;
      assert Remaining(items, 0, buffers, tools);
      hide Valid, Run, Close, SendDeferred, Sendable, Placed;
      for i := 0 to |items|
        invariant Valid() && started && !deferSemantic && deferred == [] && client == Run(old(client), frames)
        invariant View() == old(View()).(sent := Sent())
        invariant SendAllDeferred(context, old(Sent()), buffers, complete, items)
                  == SendAllDeferred(context, Sent(), buffers, complete, items[i..])
        invariant Remaining(items, i, buffers, tools)
      {
        assert items[i..][1..] == items[i + 1..];
        RemainingHas(items, i, buffers, tools);
        hide Remaining;
        SendSame(context, Sent(), tools, buffers, complete, items[i]);
        var more := EmitDeferred(items[i], tools, complete);
        RemainingNext(items, i, buffers, tools);
        if items[i].ToolAt? { tools := tools - {items[i].index}; }
        RunConcat(old(client), frames, more);
        frames := frames + more;
      }
      assert items[|items|..] == [];
    }

    method Finish(sawDone: bool) returns (r: Result<seq<Frame>, string>)
      requires Valid() && Tidy(View())
      modifies this
      ensures old(failed) ==> r == Ok([]) && client == old(client)
      ensures !old(failed) ==> FinishedAs(Finished(context, old(View()), sawDone), old(client), r)
    {
      if failed { return Ok([]); }
      FinishedAfterClose(context, View(), sawDone);
      if finishReason.None? && !sawSemanticOutput && tools == map[] { return Err("upstream Chat stream was empty"); }
      hide Valid, Run, Close, Concluded, Sendable, ReasonFor, Finished;
      var frames := EnsureStarted();
      var more := CloseOpen();
      RunConcat(old(client), frames, more);
      frames := frames + more;
      var reason := Resolve(sawDone);
      if reason.Err? { return Err(reason.error); }
      more := Conclude(reason.value);
      RunConcat(old(client), frames, more);
      frames := frames + more;
      return Ok(frames);
    }

    // The reason to stop for, if the stream may be finished at all.
    method Resolve(sawDone: bool) returns (r: Result<string, string>)
      requires View().finish.Some? || View().semantic || View().tools != map[]
      ensures match r
        case Err(_) => Finished(context, View(), sawDone).None?
        case Ok(reason) =>
          && Finished(context, View(), sawDone) == Some(Concluded(context, View(), reason))
          && (CompleteTools(View(), reason) ==> forall i :: i in tools ==> Sendable(context, tools[i]))
    {
      hide Concluded, Sendable;
      if finishReason.None? && !sawDone { return Err("upstream stream ended before a terminal event"); }
      var reason := if finishReason.Some? then finishReason.value else if tools == map[] then "stop" else "length";
      if !KnownReason(reason) { return Err("unsupported upstream finish_reason"); }
      if ToolReason(reason) && !IsRefusal(reason, refusal) && exists i :: i in tools && !Sendable(context, tools[i]) {
        return Err("upstream tool call is not complete");
      }
      return Ok(reason);
    }

    // Everything deferred, the last end of block, and the end of the message.
    method Conclude(reason: string) returns (frames: seq<Frame>)
      requires Valid() && started && open == None && Placed(deferred, tools)
      requires CompleteTools(View(), reason) ==> forall i :: i in tools ==> Sendable(context, tools[i])
      modifies this
      ensures client == Run(old(client), frames) && failed == old(failed)
      ensures client == Complete(Concluded(context, old(View()), reason).content,
                                 Concluded(context, old(View()), reason).stop)
    {
      ClosedIsClosed(context, Sent());
      hide Valid, Run, SendAllDeferred, Step, Sendable;
      var buffers, items := tools, deferred;
      StartDeferred();
      hide Close;
      frames := EmitAllDeferred(items, buffers, ToolReason(reason) && !IsRefusal(reason, refusal));
      var more := CloseOpen();
      RunConcat(old(client), frames, more);
      frames := frames + more;
      more := EmitTerminal(reason, IsRefusal(reason, refusal));
      RunConcat(old(client), frames, more);
      frames := frames + more;
    }

    // The deferred items and tools are taken over by `Finish`.
    method StartDeferred()
      requires Valid()
      modifies this`tools, this`deferred, this`deferSemantic
      ensures Valid() && View() == old(View()).(tools := map[], deferred := [], deferring := false) && client == old(client)
    {
      tools, deferred, deferSemantic := map[], [], false;
    }

    method EmitTerminal(reason: string, isRefusal: bool) returns (frames: seq<Frame>)
      requires Valid() && started && open == None && isRefusal == IsRefusal(reason, refusal)
      modifies this`client
      ensures client == Run(old(client), frames) && client == Complete(old(Sent()).blocks, StopFor(old(View()), reason))
    {
      var stop :=
        if isRefusal then Stop("refusal", Some(if refusal == "" then None else Some(refusal)), usage)
        else Stop(if reason == "stop" then "end_turn" else if reason == "length" then "max_tokens" else "tool_use", None, usage);
      frames := [MessageDelta(stop), MessageStop];
      RunOne(client, frames[0]);
      RunSnoc(client, [frames[0]], frames[1]);
      assert frames == [frames[0]] + [frames[1]];
      client := Run(client, frames);
    }
  }

  // Either the conversion fails, or the frames complete the message.
  ghost predicate FinishedAs(m: Option<Message>, before: Client, r: Result<seq<Frame>, string>) {
    match r
    case Err(_) => m.None?
    case Ok(frames) => m.Some? && Run(before, frames) == Complete(m.value.content, m.value.stop)
  }

  lemma ClosedIsClosed(c: Context, s: Sent)
    ensures s.open.NoBlock? ==> Close(c, s) == s
    ensures Close(c, Close(c, s)) == Close(c, s)
  {
  }

  // Opening the message and closing its open block early changes nothing at the end.
  lemma FinishedAfterClose(c: Context, l: Live, sawDone: bool)
    ensures Finished(c, l.(started := true, sent := Close(c, l.sent)), sawDone) == Finished(c, l, sawDone)
    ensures l.finish.None? && !l.semantic && l.tools == map[] ==> Finished(c, l, sawDone).None?
  {
    ClosedIsClosed(c, l.sent);
  }

  // The tools still to be sent are those at later places.
  ghost predicate Remaining(items: seq<Semantic>, i: nat, buffers: map<nat, ToolBuffer>, tools: map<nat, ToolBuffer>) {
    && (forall k :: k in tools ==> k in buffers && tools[k] == buffers[k])
    && (forall p :: i <= p < |items| && items[p].ToolAt? ==> items[p].index in tools)
  }

  lemma RemainingHas(items: seq<Semantic>, i: nat, buffers: map<nat, ToolBuffer>, tools: map<nat, ToolBuffer>)
    requires i < |items| && Remaining(items, i, buffers, tools)
    ensures items[i].ToolAt? ==>
              items[i].index in tools && items[i].index in buffers && tools[items[i].index] == buffers[items[i].index]
  {
  }

  lemma RemainingNext(items: seq<Semantic>, i: nat, buffers: map<nat, ToolBuffer>, tools: map<nat, ToolBuffer>)
    requires i < |items| && Remaining(items, i, buffers, tools) && Placed(items, buffers)
    ensures Remaining(items, i + 1, buffers, if items[i].ToolAt? then tools - {items[i].index} else tools)
  {
  }

  lemma SendSame(c: Context, s: Sent, a: map<nat, ToolBuffer>, b: map<nat, ToolBuffer>, complete: bool, item: Semantic)
    requires item.ToolAt? ==> item.index in a && item.index in b && a[item.index] == b[item.index]
    ensures SendDeferred(c, s, a, complete, item) == SendDeferred(c, s, b, complete, item)
  {
  }

  // The live conversion of a whole stream: the frames sent, and the error that ended it, if any.
  method ConvertChatStream(context: Context, freshId: string, events: seq<Event>, sawDone: bool)
    returns (frames: seq<Frame>, error: Option<string>)
    ensures error.None? <==> Convert(context, freshId, events, sawDone).Some?
    ensures error.None? ==>
              var m := Convert(context, freshId, events, sawDone).value;
              Run(Waiting, frames) == Complete(m.content, m.stop)
    ensures error.Some? ==> Run(Waiting, frames) == Waiting || Run(Waiting, frames).Receiving?
    ensures forall n :: 0 <= n <= |frames| ==> Run(Waiting, frames[..n]) != Broken
  {
    frames, error := DriveChatStream(context, freshId, events, sawDone);
    forall n | 0 <= n <= |frames| ensures Run(Waiting, frames[..n]) != Broken {
      PrefixOfGoodRun(frames, n);
    }
  }

  method DriveChatStream(context: Context, freshId: string, events: seq<Event>, sawDone: bool)
    returns (frames: seq<Frame>, error: Option<string>)
    ensures error.None? <==> Convert(context, freshId, events, sawDone).Some?
    ensures error.None? ==>
              var m := Convert(context, freshId, events, sawDone).value;
              Run(Waiting, frames) == Complete(m.content, m.stop)
    ensures error.Some? ==> Run(Waiting, frames) == Waiting || Run(Waiting, frames).Receiving?
  {
    var state := new ChatStreamState(context, freshId);
    RunConcat(Waiting, [], []);
    frames, error := FeedEvents(state, events);
    if error.Some? { return; }
    var r := state.Finish(sawDone);
    if r.Err? { return frames, Some(r.error); }
    RunConcat(Waiting, frames, r.value);
    return frames + r.value, None;
  }

  // Events one after the other, up to the first that fails.
  method FeedEvents(state: ChatStreamState, events: seq<Event>) returns (frames: seq<Frame>, error: Option<string>)
    requires state.Valid() && !state.failed && Tidy(state.View())
    modifies state
    ensures error.None? <==> OnEvents(state.context, old(state.View()), events).Some?
    ensures error.None? ==>
              && state.Valid() && !state.failed && Tidy(state.View())
              && OnEvents(state.context, old(state.View()), events) == Some(state.View())
              && state.client == Run(old(state.client), frames)
    ensures error.Some? ==> var sent := Run(old(state.client), frames); sent == Waiting || sent.Receiving?
  {
    frames, error := [], None;
    assert events[0..] == events;
    RunConcat(state.client, [], []);
    for i := 0 to |events|
      invariant error.None? && state.Valid() && !state.failed && Tidy(state.View())
      invariant state.client == Run(old(state.client), frames)
      invariant OnEvents(state.context, old(state.View()), events) == OnEvents(state.context, state.View(), events[i..])
    {
      assert events[i..][1..] == events[i + 1..];
      ghost var before := state.View();
      var r := state.OnRawEvent(events[i]);
      if r.Err? { return frames, Some(r.error); }
      OnEventKeepsTidy(state.context, before, events[i]);
      RunConcat(old(state.client), frames, r.value);
      frames := frames + r.value;
    }
    assert events[|events|..] == [];
  }

  lemma Chain(c: Context, l0: Live, p: seq<Piece>, l1: Live, q: seq<Piece>, l2: Live,
              client: Client, frames: seq<Frame>, more: seq<Frame>)
    requires ApplyAll(c, l0, p) == Some(l1) && ApplyAll(c, l1, q) == Some(l2)
    ensures ApplyAll(c, l0, p + q) == Some(l2) && Run(client, frames + more) == Run(Run(client, frames), more)
  {
    ApplyAllConcat(c, l0, p, q);
    RunConcat(client, frames, more);
  }

  // Pieces do not touch the finish reason.
  lemma {:induction false} AppliedFinish(c: Context, l: Live, pieces: seq<Piece>, m: Live)
    requires ApplyAll(c, l, pieces) == Some(m)
    ensures m.finish == l.finish
    decreases |pieces|
  {
    if pieces != [] { AppliedFinish(c, Apply(c, l, pieces[0]).value, pieces[1..], m); }
  }
}
