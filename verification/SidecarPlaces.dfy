// Where the media of tool results go, and what stays in the tool messages.
module SidecarPlaces {
  import opened Wrappers
  import opened SidecarSpec

  predicate IsTool(m: Message) { m.role == "tool" }

  predicate AllTools(messages: seq<Message>) { forall i :: 0 <= i < |messages| ==> IsTool(messages[i]) }

  function ToolsIn(messages: seq<Message>): nat
    decreases |messages|
  {
    if messages == [] then 0 else ToolsIn(messages[..|messages| - 1]) + if IsTool(messages[|messages| - 1]) then 1 else 0
  }

  // ---- the media of a run of tool messages ----

  function PartMedia(parts: seq<Part>): seq<Part> {
    if parts == [] then []
    else if parts[0].ImageUrl? || parts[0].File? then [parts[0]] + PartMedia(parts[1..])
    else PartMedia(parts[1..])
  }

  function MessageMedia(m: Message): seq<Part> { if m.content.Parts? then PartMedia(m.content.parts) else [] }

  function GroupFrom(m: Message, number: nat, mark: Marker): seq<Group> {
    if MessageMedia(m) == [] then [] else [Group(MessageMedia(m), mark(number, m.toolCallId))]
  }

  // One group for each message that has some, marked with its number among the tool messages.
  function GroupsOf(tools: seq<Message>, before: nat, mark: Marker): seq<Group> {
    if tools == [] then [] else GroupFrom(tools[0], before + 1, mark) + GroupsOf(tools[1..], before + 1, mark)
  }

  // The media one after the other; when there are several groups, each is followed by its marker.
  function Laid(groups: seq<Group>, several: bool): seq<Part> {
    if groups == [] then []
    else groups[0].media + (if several then [Text(Some(groups[0].marker))] else []) + Laid(groups[1..], several)
  }

  lemma {:induction false} MediaIs(parts: seq<Part>)
    ensures MediaOf(parts) == PartMedia(parts)
    decreases |parts|
  {
    if parts != [] { MediaIs(parts[1..]); }
  }

  lemma {:induction false} LaidSnoc(groups: seq<Group>, g: Group, several: bool)
    ensures Laid(groups + [g], several) == Laid(groups, several) + GroupParts(g, several)
    decreases |groups|
  {
    if groups == [] {
      assert [] + [g] == [g] && [g][1..] == [];
      assert GroupParts(g, several) + [] == GroupParts(g, several);
    } else {
      assert (groups + [g])[0] == groups[0] && (groups + [g])[1..] == groups[1..] + [g];
      LaidSnoc(groups[1..], g, several);
      Assoc(GroupParts(groups[0], several), Laid(groups[1..], several), GroupParts(g, several));
    }
  }

  lemma {:induction false} LaidIs(groups: seq<Group>, several: bool)
    ensures GroupsParts(groups, several) == Laid(groups, several)
    decreases |groups|
  {
    hide GroupParts;
    if groups != [] {
      var init, last := groups[..|groups| - 1], groups[|groups| - 1];
      LaidIs(init, several);
      LaidSnoc(init, last, several);
      assert groups == init + [last];
    }
  }

  // ---- runs ----

  lemma PassSnoc(messages: seq<Message>, m: Message, mark: Marker)
    ensures OnMessages(messages + [m], mark) == OnMessage(OnMessages(messages, mark), m, mark)
    ensures ToolsIn(messages + [m]) == ToolsIn(messages) + if IsTool(m) then 1 else 0
  {
    assert (messages + [m])[..|messages|] == messages;
  }

  lemma {:induction false} Ordinals(messages: seq<Message>, mark: Marker)
    ensures OnMessages(messages, mark).ordinal == ToolsIn(messages)
    decreases |messages|
  {
    if messages != [] {
      Ordinals(messages[..|messages| - 1], mark);
      hide FlushBefore, PendingFrom, ToolContent;
    }
  }

  // A run is begun with nothing pending.
  predicate EndsAside(messages: seq<Message>) { messages == [] || !IsTool(messages[|messages| - 1]) }

  lemma NothingPending(messages: seq<Message>, mark: Marker)
    requires EndsAside(messages)
    ensures OnMessages(messages, mark).pending == []
  {
  }

  // What stands for the tool messages of a run.
  function Bare(m: Message): Placed { ToolMessage(m.(content := ToolContent(m.content))) }

  function Bared(tools: seq<Message>): (r: seq<Placed>)
    ensures |r| == |tools| && forall i :: 0 <= i < |r| ==> r[i] == Bare(tools[i])
  {
    seq(|tools|, i requires 0 <= i < |tools| => Bare(tools[i]))
  }

  lemma {:induction false} GroupsSnoc(tools: seq<Message>, m: Message, before: nat, mark: Marker)
    ensures GroupsOf(tools + [m], before, mark)
            == GroupsOf(tools, before, mark) + GroupFrom(m, before + |tools| + 1, mark)
    decreases |tools|
  {
    hide MessageMedia;
    if tools == [] {
      assert [] + [m] == [m] && [m][1..] == [];
    } else {
      assert (tools + [m])[0] == tools[0] && (tools + [m])[1..] == tools[1..] + [m];
      GroupsSnoc(tools[1..], m, before + 1, mark);
    }
  }

  lemma ToolPasses(p: Pass, m: Message, mark: Marker)
    requires IsTool(m)
    ensures OnMessage(p, m, mark) == Pass(p.plan + [Bare(m)], p.pending + GroupFrom(m, p.ordinal + 1, mark), p.ordinal + 1)
  {
    if m.content.Parts? { MediaIs(m.content.parts); }
    hide MediaOf, PartMedia, ToolContent;
    assert p.pending + [] == p.pending;
  }

  lemma BaredSnoc(tools: seq<Message>, m: Message)
    ensures Bared(tools + [m]) == Bared(tools) + [Bare(m)]
  {
    hide ToolContent;
  }

  lemma {:induction false} RunPasses(before: seq<Message>, tools: seq<Message>, mark: Marker)
    requires EndsAside(before) && AllTools(tools)
    ensures var p := OnMessages(before, mark);
            OnMessages(before + tools, mark)
            == Pass(p.plan + Bared(tools), GroupsOf(tools, ToolsIn(before), mark), ToolsIn(before) + |tools|)
    decreases |tools|
  {
    hide Bare, GroupFrom, OnMessages, OnMessage, GroupsOf, ToolsIn, Bared;
    var p, n := OnMessages(before, mark), ToolsIn(before);
    Ordinals(before, mark);
    NothingPending(before, mark);
    if tools == [] {
      NoRun(p.plan, n, mark);
      assert before + tools == before;
    } else {
      var init, last := tools[..|tools| - 1], tools[|tools| - 1];
      RunPasses(before, init, mark);
      assert before + tools == (before + init) + [last] && tools == init + [last] && IsTool(last);
      PassSnoc(before + init, last, mark);
      ToolPasses(OnMessages(before + init, mark), last, mark);
      BaredSnoc(init, last);
      GroupsSnoc(init, last, n, mark);
      Assoc(p.plan, Bared(init), [Bare(last)]);
    }
  }

  lemma NoRun(plan: seq<Placed>, n: nat, mark: Marker)
    ensures plan + Bared([]) == plan && GroupsOf([], n, mark) == []
  {
    assert Bared([]) == [];
  }

  // What follows a run: the media go before the own parts of a user message, into a user message of their own ahead of any
  // other, and nowhere when there are none.
  function AfterRun(groups: seq<Group>, m: Message): seq<Message> {
    var media := Laid(groups, |groups| > 1);
    if groups == [] then [m]
    else if m.role == "user" then
      [m.(content := Parts(media + (match m.content
                                    case Parts(own) => own
                                    case Plain(text) => if text == "" then [] else [Text(Some(text))]
                                    case _ => [])))]
    else [Message("user", Parts(media), None, ""), m]
  }

  lemma FlushIs(groups: seq<Group>, m: Message)
    ensures Results(FlushBefore(groups, m)) == AfterRun(groups, m)
  {
    LaidIs(groups, |groups| > 1);
    hide Laid, GroupsParts;
    var flushed := FlushBefore(groups, m);
    assert forall i :: 0 <= i < |flushed| ==> ResultOf(flushed[i]) == AfterRun(groups, m)[i];
  }

  // A run of tool messages and the message after it: the tool messages without media, and then what follows the run.
  lemma RunIsPlaced(before: seq<Message>, tools: seq<Message>, m: Message, mark: Marker)
    requires EndsAside(before) && AllTools(tools) && !IsTool(m)
    ensures var p, q := OnMessages(before, mark), OnMessages(before + tools + [m], mark);
            Results(q.plan) == Results(p.plan) + Results(Bared(tools)) + AfterRun(GroupsOf(tools, ToolsIn(before), mark), m)
  {
    hide OnMessages, GroupsOf, AfterRun, FlushBefore, Results, Bared, ToolsIn;
    var p, groups := OnMessages(before, mark), GroupsOf(tools, ToolsIn(before), mark);
    RunPasses(before, tools, mark);
    PassSnoc(before + tools, m, mark);
    FlushIs(groups, m);
    ResultsConcat(p.plan, Bared(tools));
    ResultsConcat(p.plan + Bared(tools), FlushBefore(groups, m));
  }

  lemma ResultsConcat(a: seq<Placed>, b: seq<Placed>)
    ensures Results(a + b) == Results(a) + Results(b)
  {
  }

  // A run at the end: its media go into a last user message.
  lemma LastRunIsPlaced(before: seq<Message>, tools: seq<Message>, mark: Marker)
    requires EndsAside(before) && AllTools(tools)
    ensures var p, q, groups := OnMessages(before, mark), OnMessages(before + tools, mark), GroupsOf(tools, ToolsIn(before), mark);
            Results(q.plan + if q.pending == [] then [] else [Carrier(SidecarParts(q.pending))])
            == Results(p.plan) + Results(Bared(tools))
               + if groups == [] then [] else [Message("user", Parts(Laid(groups, |groups| > 1)), None, "")]
  {
    hide OnMessages, GroupsOf, Bared, ToolsIn, Laid, GroupsParts;
    var p, groups := OnMessages(before, mark), GroupsOf(tools, ToolsIn(before), mark);
    RunPasses(before, tools, mark);
    LaidIs(groups, |groups| > 1);
    var last := if groups == [] then [] else [Carrier(SidecarParts(groups))];
    assert Results(last) == if groups == [] then [] else [Message("user", Parts(Laid(groups, |groups| > 1)), None, "")];
    hide Results;
    ResultsConcat(p.plan, Bared(tools));
    ResultsConcat(p.plan + Bared(tools), last);
  }

  // ---- the texts of a tool message ----

  function TextParts(parts: seq<Part>): (r: seq<Part>)
    ensures forall i :: 0 <= i < |r| ==> r[i].Text?
  {
    if parts == [] then [] else if parts[0].Text? then [parts[0]] + TextParts(parts[1..]) else TextParts(parts[1..])
  }

  lemma {:induction false} TextsAre(parts: seq<Part>)
    ensures TextsOf(parts) == TextParts(parts)
    decreases |parts|
  {
    if parts != [] { TextsAre(parts[1..]); }
  }

  // One text becomes the content, several stay parts; without any, the content says where the media went, if there were some.
  lemma ToolKeepsTexts(parts: seq<Part>)
    ensures var texts := TextParts(parts);
            ToolContent(Parts(parts))
            == if |texts| > 1 then Parts(texts)
               else if |texts| == 1 then Plain(if texts[0].text.Some? then texts[0].text.value else "")
               else Plain(if PartMedia(parts) != [] then "[tool_result multimodal content moved to the following user message]" else "")
    ensures ToolContent(Missing) == Plain("") && forall text :: ToolContent(Plain(text)) == Plain(text)
  {
    TextsAre(parts);
    MediaIs(parts);
  }

  // A file part keeps what it refers to; one that refers to nothing becomes its fallback text.
  lemma FilesKeepReferences(p: Part)
    ensures p.File? && p.file.Some? && (p.file.value.data.Some? || p.file.value.id.Some?) ==>
              NormalPart(p).File? && NormalPart(p).file == p.file
    ensures p.File? && (p.file.None? || (p.file.value.data.None? && p.file.value.id.None?)) ==>
              NormalPart(p) == Text(Some(if p.fallback.Some? then p.fallback.value else "[unsupported document omitted]"))
    ensures p.ImageFile? && p.id.Some? ==> NormalPart(p).File? && NormalPart(p).file == Some(FileRef(None, p.id, None))
    ensures p.Text? || p.ImageUrl? || p.OtherPart? || (p.ImageFile? && p.id.None?) ==> NormalPart(p) == p
  {
  }
}
