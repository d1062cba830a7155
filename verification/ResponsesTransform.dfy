// From an aggregated Responses payload to an Anthropic message.
module ResponsesTransformSpec {
  import opened Wrappers
  import opened ResponsesItems
  import opened ResponsesSpec
  import Anthropic

  type Block = Anthropic.Block

  const MAX_DIAGNOSTIC_CHARS: nat := 4096

  // Libraries: JSON objects, the replay signature of a reasoning item, and the fallback texts.
  datatype Codec = Codec(
    parseObject: string -> Option<string>, sign: (OutItem, bool) -> string,
    partText: Body -> string, itemText: OutItem -> string, annotationText: string -> string)

  function Bounded(raw: string): string {
    if |raw| > MAX_DIAGNOSTIC_CHARS then raw[..MAX_DIAGNOSTIC_CHARS] + ['\U{2026}'] else raw
  }

  function IncompleteCall(name: string, raw: string): Block {
    Anthropic.Text("[incomplete function_call " + name + ": " + Bounded(raw) + "]")
  }

  function SuppressedCall(name: string, raw: string): Block {
    Anthropic.Text("[function_call suppressed by refusal " + name + ": " + Bounded(raw) + "]")
  }

  function TextsOf(parts: seq<Body>, reasoningOnly: bool): string
    decreases |parts|
  {
    if parts == [] then ""
    else TextsOf(parts[..|parts| - 1], reasoningOnly)
         + (if reasoningOnly && parts[|parts| - 1].kind != Some("reasoning_text") then "" else parts[|parts| - 1].text.GetOr(""))
  }

  function ReasoningOf(item: OutItem): string {
    var content := TextsOf(item.content, true);
    if content != "" then content else TextsOf(item.summary, false)
  }

  predicate Unsupported(h: Head) {
    || h.kind in {Some("program"), Some("program_output"), Some("compaction"), Some("function_call_output")}
    || (h.kind == Some("function_call") && h.caller.Str? && h.caller.text != "direct")
  }

  predicate RefusesIn(item: OutItem) {
    item.head.kind == Some("message") && exists i :: 0 <= i < |item.content| && IsRefusalPart(item.content[i])
  }

  predicate IsRefusalPart(p: Body) { p.kind == Some("refusal") && Says(p.refusal) }

  predicate HasRefusal(output: seq<OutItem>) { exists i :: 0 <= i < |output| && RefusesIn(output[i]) }

  // What holds of the whole payload while its items are read.
  datatype Setting = Setting(codec: Codec, omit: bool, incomplete: bool, preempted: bool)

  // What has come out, item by item, each item's blocks at once.
  datatype Emitted = Emitted(content: seq<Block>, incompleteCall: bool, refusal: string, audio: bool)

  const NOTHING_EMITTED := Emitted([], false, "", false)

  function Push(o: Emitted, b: Block): Emitted { o.(content := o.content + [b]) }

  function PushText(o: Emitted, t: string): Emitted { Push(o, Anthropic.Text(t)) }

  function EmitAnnotations(c: Codec, o: Emitted, annotations: seq<string>): Emitted
    decreases |annotations|
  {
    if annotations == [] then o
    else PushText(EmitAnnotations(c, o, annotations[..|annotations| - 1]), c.annotationText(annotations[|annotations| - 1]))
  }

  function EmitPartText(c: Codec, o: Emitted, p: Body): Emitted {
    if p.kind == Some("output_text") then PushText(o, p.text.GetOr(""))
    else if p.kind == Some("refusal") then PushText(o.(refusal := o.refusal + p.refusal.GetOr("")), p.refusal.GetOr(""))
    else if p.kind == Some("output_image") || p.kind == Some("output_image_base64") then PushText(o, "[generated image omitted]")
    else if p.kind == Some("output_audio") then
      var noted := if o.audio then o else PushText(o.(audio := true), "[generated audio omitted]");
      if Says(p.transcript) then PushText(noted, p.transcript.value) else noted
    else PushText(o, c.partText(p))
  }

  function EmitPart(c: Codec, o: Emitted, p: Body): Emitted {
    EmitAnnotations(c, EmitPartText(c, o, p), p.annotations.GetOr([]))
  }

  function EmitParts(c: Codec, o: Emitted, parts: seq<Body>): Emitted
    decreases |parts|
  {
    if parts == [] then o else EmitPart(c, EmitParts(c, o, parts[..|parts| - 1]), parts[|parts| - 1])
  }

  // The block of a reasoning item, if it has one; the outer None is an error.
  function ReasoningBlock(s: Setting, item: OutItem): Option<Option<Block>> {
    if !item.head.id.Given() then None
    else if s.omit && !item.head.encrypted.Given() then (if ReasoningOf(item) != "" then None else Some(None))
    else Some(Some(Anthropic.Thinking(if s.omit then "" else ReasoningOf(item), s.codec.sign(item, !s.omit))))
  }

  function RawArguments(f: Field): string {
    match f
    case Absent => "{}"
    case Null => "null"
    case Str(text) => text
  }

  function CallId(h: Head): Option<string> { Given(if h.callId != Absent then h.callId else h.id) }

  function EmitCall(s: Setting, o: Emitted, h: Head): Option<Emitted> {
    var name, raw := Given(h.name), RawArguments(h.arguments);
    if s.preempted then Some(Push(o, SuppressedCall(name.GetOr("unknown"), raw)))
    else if s.incomplete || h.status == Str("incomplete") then
      Some(Push(o.(incompleteCall := true), IncompleteCall(name.GetOr("unknown"), raw)))
    else if CallId(h).None? || name.None? || h.arguments == Null then None
    else match s.codec.parseObject(raw)
      case None => None
      case Some(input) => Some(Push(o, Anthropic.ToolUse(CallId(h).value, name.value, input)))
  }

  function EmitItem(s: Setting, o: Emitted, item: OutItem): Option<Emitted> {
    if Unsupported(item.head) then None
    else if item.head.kind == Some("reasoning") then
      match ReasoningBlock(s, item)
      case None => None
      case Some(None) => Some(o)
      case Some(Some(block)) => Some(Push(o, block))
    else if item.head.kind == Some("function_call") then EmitCall(s, o, item.head)
    else if item.head.kind == Some("message") then Some(EmitParts(s.codec, o, item.content))
    else if item.head.kind == Some("image_generation_call") then Some(PushText(o, "[generated image omitted]"))
    else Some(PushText(o, s.codec.itemText(item)))
  }

  function EmitItems(s: Setting, output: seq<OutItem>): Option<Emitted>
    decreases |output|
  {
    if output == [] then Some(NOTHING_EMITTED)
    else match EmitItems(s, output[..|output| - 1])
      case None => None
      case Some(o) => EmitItem(s, o, output[|output| - 1])
  }

  // ---- after the items ----

  datatype Diagnosis = Incomplete | Suppressed

  function Diagnosed(d: Diagnosis, b: Block): Block {
    if !b.ToolUse? then b else if d.Incomplete? then IncompleteCall(b.name, b.input) else SuppressedCall(b.name, b.input)
  }

  function DiagnosedAll(d: Diagnosis, blocks: seq<Block>): (r: seq<Block>)
    ensures |r| == |blocks| && forall i :: 0 <= i < |r| ==> r[i] == Diagnosed(d, blocks[i])
  {
    seq(|blocks|, i requires 0 <= i < |blocks| => Diagnosed(d, blocks[i]))
  }

  function SettingFor(c: Codec, omit: bool, p: Payload): Setting
    requires p.output.Some?
  {
    var incomplete := p.status == Some("incomplete");
    Setting(c, omit, incomplete, HasRefusal(p.output.value) || (incomplete && p.incompleteReason == Some("content_filter")))
  }

  function Concluded(p: Payload, o: Emitted): Anthropic.Message
    requires p.output.Some?
  {
    var diagnosed := if o.incompleteCall then DiagnosedAll(Incomplete, o.content) else o.content;
    var incomplete := p.status == Some("incomplete") || o.incompleteCall;
    var refused := HasRefusal(p.output.value) || (incomplete && p.incompleteReason == Some("content_filter"));
    var settled := if refused then DiagnosedAll(Suppressed, diagnosed) else diagnosed;
    var content := if p.aggregated then Anthropic.Joined(settled) else settled;
    Anthropic.Message(content, Anthropic.Stop(
      if refused then "refusal" else if incomplete then "max_tokens" else if !Anthropic.NoToolUse(content) then "tool_use" else "end_turn",
      if refused then Some(if o.refusal == "" then None else Some(o.refusal)) else None, p.usage))
  }

  function Transform(c: Codec, omit: bool, p: Payload): Option<Anthropic.Message> {
    if p.error.Some? || p.status !in {Some("completed"), Some("incomplete")} || p.output.None? then None
    else match EmitItems(SettingFor(c, omit, p), p.output.value)
      case None => None
      case Some(o) => Some(Concluded(p, o))
  }

  // ---- what the message promises ----

  lemma DiagnosedHasNoTools(d: Diagnosis, blocks: seq<Block>)
    ensures Anthropic.NoToolUse(DiagnosedAll(d, blocks))
  {
  }

  // The stop reason says tool use exactly when a tool call is in the content.
  lemma StopsForToolsExactly(c: Codec, omit: bool, p: Payload)
    requires Transform(c, omit, p).Some?
    ensures var m := Transform(c, omit, p).value; m.stop.reason == "tool_use" <==> !Anthropic.NoToolUse(m.content)
  {
    var s := SettingFor(c, omit, p);
    var o := EmitItems(s, p.output.value).value;
    if s.incomplete || s.preempted { CallsHeldBack(s, p.output.value); }
    DiagnosedHasNoTools(Incomplete, o.content);
    DiagnosedHasNoTools(Suppressed, o.content);
    DiagnosedHasNoTools(Suppressed, DiagnosedAll(Incomplete, o.content));
    Anthropic.JoinedKeepsToolUse(o.content);
    Anthropic.JoinedKeepsToolUse(DiagnosedAll(Incomplete, o.content));
    Anthropic.JoinedKeepsToolUse(DiagnosedAll(Suppressed, o.content));
    Anthropic.JoinedKeepsToolUse(DiagnosedAll(Suppressed, DiagnosedAll(Incomplete, o.content)));
  }

  // `b` is `a` with only texts added.
  ghost predicate OnlyTexts(a: Emitted, b: Emitted) {
    && (Anthropic.NoToolUse(b.content) <==> Anthropic.NoToolUse(a.content))
    && b.incompleteCall == a.incompleteCall && a.content <= b.content
  }

  lemma PushTextOnlyTexts(a: Emitted, b: Emitted, t: string)
    requires OnlyTexts(a, b)
    ensures OnlyTexts(a, PushText(b, t))
  {
    Anthropic.NoToolUseSnoc(b.content, Anthropic.Text(t));
  }

  lemma {:induction false} AnnotationsAreTexts(c: Codec, a: Emitted, o: Emitted, annotations: seq<string>)
    requires OnlyTexts(a, o)
    ensures OnlyTexts(a, EmitAnnotations(c, o, annotations)) && EmitAnnotations(c, o, annotations).refusal == o.refusal
    decreases |annotations|
  {
    hide OnlyTexts;
    if annotations != [] {
      var init := annotations[..|annotations| - 1];
      AnnotationsAreTexts(c, a, o, init);
      PushTextOnlyTexts(a, EmitAnnotations(c, o, init), c.annotationText(annotations[|annotations| - 1]));
    }
  }

  lemma PartTextIsText(c: Codec, a: Emitted, o: Emitted, p: Body)
    requires OnlyTexts(a, o)
    ensures OnlyTexts(a, EmitPartText(c, o, p)) && (!IsRefusalPart(p) ==> EmitPartText(c, o, p).refusal == o.refusal)
  {
    forall t: string ensures OnlyTexts(a, PushText(o, t)) { PushTextOnlyTexts(a, o, t); }
    assert OnlyTexts(a, o.(audio := true)) && OnlyTexts(a, o.(refusal := o.refusal + p.refusal.GetOr("")));
    PushTextOnlyTexts(a, o.(refusal := o.refusal + p.refusal.GetOr("")), p.refusal.GetOr(""));
    PushTextOnlyTexts(a, o.(audio := true), "[generated audio omitted]");
    PushTextOnlyTexts(a, PushText(o.(audio := true), "[generated audio omitted]"), p.transcript.GetOr(""));
    assert !Says(p.refusal) ==> o.refusal + p.refusal.GetOr("") == o.refusal;
    hide OnlyTexts;
  }

  lemma {:induction false} PartsAreTexts(c: Codec, o: Emitted, parts: seq<Body>)
    ensures OnlyTexts(o, EmitParts(c, o, parts))
    ensures (forall i :: 0 <= i < |parts| ==> !IsRefusalPart(parts[i])) ==> EmitParts(c, o, parts).refusal == o.refusal
    decreases |parts|
  {
    if parts != [] {
      hide OnlyTexts, EmitPartText, EmitAnnotations, IsRefusalPart;
      var init, last := parts[..|parts| - 1], parts[|parts| - 1];
      PartsAreTexts(c, o, init);
      PartTextIsText(c, o, EmitParts(c, o, init), last);
      AnnotationsAreTexts(c, o, EmitPartText(c, EmitParts(c, o, init), last), last.annotations.GetOr([]));
    }
  }

  lemma ItemHeldBack(s: Setting, o: Emitted, item: OutItem)
    requires (s.incomplete || s.preempted) && EmitItem(s, o, item).Some? && Anthropic.NoToolUse(o.content)
    ensures Anthropic.NoToolUse(EmitItem(s, o, item).value.content)
  {
    PartsAreTexts(s.codec, o, item.content);
    forall b: Block | !b.ToolUse? ensures Anthropic.NoToolUse(Push(o, b).content) { Anthropic.NoToolUseSnoc(o.content, b); }
    hide EmitParts, Anthropic.NoToolUse, Bounded;
  }

  lemma {:induction false} CallsHeldBack(s: Setting, output: seq<OutItem>)
    requires (s.incomplete || s.preempted) && EmitItems(s, output).Some?
    ensures Anthropic.NoToolUse(EmitItems(s, output).value.content)
    decreases |output|
  {
    if output != [] {
      CallsHeldBack(s, output[..|output| - 1]);
      var o := EmitItems(s, output[..|output| - 1]).value;
      ItemHeldBack(s, o, output[|output| - 1]);
      hide EmitItem;
    }
  }

  // Items come out in order: each adds its blocks at the end.
  lemma ItemsOnlyAdd(s: Setting, o: Emitted, item: OutItem)
    requires EmitItem(s, o, item).Some?
    ensures o.content <= EmitItem(s, o, item).value.content
  {
    PartsAreTexts(s.codec, o, item.content);
    hide EmitParts, Anthropic.NoToolUse, Bounded, ReasoningBlock;
  }

  // Refusal text comes only from an item that refuses, so the last test of it cannot change anything.
  lemma {:induction false} RefusalTextMeansRefusal(s: Setting, output: seq<OutItem>)
    requires EmitItems(s, output).Some?
    ensures EmitItems(s, output).value.refusal != "" ==> HasRefusal(output)
    decreases |output|
  {
    if output != [] {
      var init, last := output[..|output| - 1], output[|output| - 1];
      RefusalTextMeansRefusal(s, init);
      PartsAreTexts(s.codec, EmitItems(s, init).value, last.content);
      if HasRefusal(init) {
        var i :| 0 <= i < |init| && RefusesIn(init[i]);
        assert RefusesIn(output[i]);
      }
      if RefusesIn(last) { assert RefusesIn(output[|output| - 1]); }
    }
  }
}

module ResponsesTransform {
  import opened Wrappers
  import opened ResponsesItems
  import opened ResponsesSpec
  import opened ResponsesTransformSpec
  import Anthropic

  method EmitAnnotationTexts(c: Codec, o: Emitted, annotations: seq<string>) returns (r: Emitted)
    ensures r == EmitAnnotations(c, o, annotations)
  {
    r := o;
    for i := 0 to |annotations|
      invariant r == EmitAnnotations(c, o, annotations[..i])
    {
      assert annotations[..i + 1][..i] == annotations[..i];
      r := PushText(r, c.annotationText(annotations[i]));
    }
    assert annotations[..|annotations|] == annotations;
  }

  // A message item: every part, each followed by its annotations.
  method EmitMessage(c: Codec, o: Emitted, parts: seq<Body>) returns (r: Emitted)
    ensures r == EmitParts(c, o, parts)
  {
    r := o;
    hide EmitAnnotations, EmitPartText;
    for i := 0 to |parts|
      invariant r == EmitParts(c, o, parts[..i])
    {
      assert parts[..i + 1][..i] == parts[..i];
      r := EmitAnnotationTexts(c, EmitPartText(c, r, parts[i]), parts[i].annotations.GetOr([]));
    }
    assert parts[..|parts|] == parts;
  }

  method Diagnose(d: Diagnosis, blocks: seq<Block>) returns (r: seq<Block>)
    ensures r == DiagnosedAll(d, blocks)
  {
    r := blocks;
    for i := 0 to |blocks|
      invariant |r| == |blocks|
      invariant forall j :: 0 <= j < |blocks| ==> r[j] == if j < i then Diagnosed(d, blocks[j]) else blocks[j]
    {
      if r[i].ToolUse? {
        r := r[i := if d.Incomplete? then IncompleteCall(r[i].name, r[i].input) else SuppressedCall(r[i].name, r[i].input)];
      }
    }
  }

  // `coalesce_adjacent_text_blocks`.
  method Coalesce(blocks: seq<Block>) returns (output: seq<Block>)
    ensures output == Anthropic.Joined(blocks)
  {
    output := [];
    for i := 0 to |blocks|
      invariant output == Anthropic.Joined(blocks[..i])
    {
      assert blocks[..i + 1] == blocks[..i] + [blocks[i]];
      Anthropic.JoinedSnoc(blocks[..i], blocks[i]);
      var block := blocks[i];
      if block.Text? && output != [] && output[|output| - 1].Text? {
        output := output[..|output| - 1] + [Anthropic.Text(output[|output| - 1].text + block.text)];
      } else {
        output := output + [block];
      }
    }
    assert blocks[..|blocks|] == blocks;
  }

  // What has come out so far, and the thinking blocks held back until something else comes.
  datatype Progress = Progress(out: Emitted, pending: seq<Block>, hasTool: bool) {
    function Flushed(): Emitted { out.(content := out.content + pending) }

    ghost predicate Valid() { Anthropic.NoToolUse(pending) && (hasTool <==> !Anthropic.NoToolUse(out.content)) }
  }

  method EmitReasoning(s: Setting, p: Progress, item: OutItem) returns (r: Option<Progress>)
    requires p.Valid()
    ensures r.Some? <==> ReasoningBlock(s, item).Some?
    ensures r.Some? ==>
              && r.value.Valid()
              && r.value.Flushed() == match ReasoningBlock(s, item).value case None => p.Flushed() case Some(b) => Push(p.Flushed(), b)
  {
    if !item.head.id.Given() { return None; }
    var text := ReasoningOf(item);
    if s.omit && text != "" && !item.head.encrypted.Given() { return None; }
    if s.omit && !item.head.encrypted.Given() { return Some(p); }
    var block := Anthropic.Thinking(if s.omit then "" else text, s.codec.sign(item, !s.omit));
    Assoc(p.out.content, p.pending, [block]);
    Anthropic.NoToolUseSnoc(p.pending, block);
    return Some(p.(pending := p.pending + [block]));
  }

  // A function call: a diagnostic when it cannot be made, else a tool call.
  method EmitFunctionCall(s: Setting, o: Emitted, h: Head, hasTool: bool) returns (r: Option<(Emitted, bool)>)
    requires hasTool <==> !Anthropic.NoToolUse(o.content)
    ensures r.Some? <==> EmitCall(s, o, h).Some?
    ensures r.Some? ==> Some(r.value.0) == EmitCall(s, o, h) && (r.value.1 <==> !Anthropic.NoToolUse(r.value.0.content))
  {
    var name, raw, callId := Given(h.name), RawArguments(h.arguments), CallId(h);
    var emitted, tool := o, hasTool;
    var block;
    if s.preempted {
      block := SuppressedCall(name.GetOr("unknown"), raw);
    } else if s.incomplete || h.status == Str("incomplete") {
      emitted := emitted.(incompleteCall := true);
      block := IncompleteCall(name.GetOr("unknown"), raw);
    } else {
      if callId.None? || name.None? { return None; }
      if h.arguments == Null { return None; }
      var input := s.codec.parseObject(raw);
      if input.None? { return None; }
      block := Anthropic.ToolUse(callId.value, name.value, input.value);
      tool := true;
    }
    Anthropic.NoToolUseSnoc(o.content, block);
    return Some((Push(emitted, block), tool));
  }

  lemma Flush(p: Progress)
    requires p.Valid()
    ensures p.hasTool <==> !Anthropic.NoToolUse(p.Flushed().content)
    ensures Progress(p.Flushed(), [], p.hasTool).Valid() && Progress(p.Flushed(), [], p.hasTool).Flushed() == p.Flushed()
  {
    Anthropic.NoToolUseConcat(p.out.content, p.pending);
    assert p.out.content + p.pending + [] == p.out.content + p.pending;
  }

  method EmitOne(s: Setting, p: Progress, item: OutItem) returns (r: Option<Progress>)
    requires p.Valid()
    ensures r.Some? <==> EmitItem(s, p.Flushed(), item).Some?
    ensures r.Some? ==> r.value.Valid() && Some(r.value.Flushed()) == EmitItem(s, p.Flushed(), item)
  {
    hide ReasoningBlock, EmitParts, EmitCall;
    if Unsupported(item.head) { return None; }
    if item.head.kind == Some("reasoning") {
      r := EmitReasoning(s, p, item);
      return;
    }
    Flush(p);
    var o, hasTool := p.Flushed(), p.hasTool;
    hide Progress.Flushed;
    if item.head.kind == Some("function_call") {
      var called := EmitFunctionCall(s, o, item.head, hasTool);
      if called.None? { return None; }
      o, hasTool := called.value.0, called.value.1;
    } else if item.head.kind == Some("message") {
      PartsAreTexts(s.codec, o, item.content);
      o := EmitMessage(s.codec, o, item.content);
    } else {
      var text := if item.head.kind == Some("image_generation_call") then "[generated image omitted]" else s.codec.itemText(item);
      Anthropic.NoToolUseSnoc(o.content, Anthropic.Text(text));
      o := PushText(o, text);
    }
    Flush(Progress(o, [], hasTool));
    NothingPending(o, hasTool);
    return Some(Progress(o, [], hasTool));
  }

  lemma NothingPending(o: Emitted, hasTool: bool)
    ensures Progress(o, [], hasTool).Flushed() == o
  {
    assert o.content + [] == o.content;
  }

  method EmitAll(s: Setting, output: seq<OutItem>) returns (r: Option<Progress>)
    ensures r.Some? <==> EmitItems(s, output).Some?
    ensures r.Some? ==> r.value.Valid() && Some(r.value.Flushed()) == EmitItems(s, output)
  {
    var progress := Progress(NOTHING_EMITTED, [], false);
    NothingPending(NOTHING_EMITTED, false);
    assert progress.Valid() && output[..0] == [];
    hide EmitItem, Progress.Flushed, Progress.Valid;
    for i := 0 to |output|
      invariant progress.Valid() && EmitItems(s, output[..i]) == Some(progress.Flushed())
    {
      assert output[..i + 1][..i] == output[..i];
      var next := EmitOne(s, progress, output[i]);
      if next.None? {
        EmitFails(s, output, i + 1);
        return None;
      }
      progress := next.value;
    }
    assert output[..|output|] == output;
    return Some(progress);
  }

  lemma {:induction false} EmitFails(s: Setting, output: seq<OutItem>, n: nat)
    requires n <= |output| && EmitItems(s, output[..n]).None?
    ensures EmitItems(s, output).None?
    decreases |output| - n
  {
    hide EmitItem;
    if n == |output| {
      assert output[..n] == output;
    } else {
      assert output[..n + 1][..n] == output[..n];
      EmitFails(s, output, n + 1);
    }
  }

  // `transform_responses_json`.
  method TransformResponsesJson(c: Codec, omit: bool, payload: Payload) returns (m: Option<Anthropic.Message>)
    ensures m == Transform(c, omit, payload)
  {
    if payload.error.Some? || payload.status !in {Some("completed"), Some("incomplete")} || payload.output.None? { return None; }
    var output := payload.output.value;
    var setting := SettingFor(c, omit, payload);
    var emitted := EmitAll(setting, output);
    if emitted.None? { return None; }
    Flush(emitted.value);
    RefusalTextMeansRefusal(setting, output);
    var o, hasTool := emitted.value.Flushed(), emitted.value.hasTool;
    hide EmitItems, HasRefusal;
    m := Conclude(payload, o, hasTool);
    return m;
  }

  method Conclude(payload: Payload, o: Emitted, emittedTool: bool) returns (m: Option<Anthropic.Message>)
    requires payload.output.Some? && (o.refusal != "" ==> HasRefusal(payload.output.value))
    requires emittedTool <==> !Anthropic.NoToolUse(o.content)
    ensures m == Some(Concluded(payload, o))
  {
    var content, hasTool := o.content, emittedTool;
    if o.incompleteCall {
      content := Diagnose(Incomplete, content);
      hasTool := false;
    }
    DiagnosedHasNoTools(Incomplete, o.content);
    var responseIncomplete := payload.status == Some("incomplete") || o.incompleteCall;
    var isRefusal := HasRefusal(payload.output.value)
                     || (responseIncomplete && payload.incompleteReason == Some("content_filter"));
    DiagnosedHasNoTools(Suppressed, content);
    if isRefusal {
      content := Diagnose(Suppressed, content);
      hasTool := false;
    }
    Anthropic.JoinedKeepsToolUse(content);
    if payload.aggregated { content := Coalesce(content); }
    isRefusal := isRefusal || o.refusal != "";
    hide HasRefusal, Anthropic.Joined, Anthropic.NoToolUse, DiagnosedAll;
    return Some(Anthropic.Message(content, Anthropic.Stop(
      if isRefusal then "refusal" else if responseIncomplete then "max_tokens" else if hasTool then "tool_use" else "end_turn",
      if isRefusal then Some(if o.refusal == "" then None else Some(o.refusal)) else None, payload.usage)));
  }
}
