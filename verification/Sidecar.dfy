// The multimodal sidecar pass: media in tool results move to the user message that follows.
module SidecarSpec {
  import opened Wrappers

  const TOOL_RESULT_MOVED_TEXT: string := "[tool_result multimodal content moved to the following user message]"

  datatype FileRef = FileRef(data: Option<string>, id: Option<string>, name: Option<string>)

  datatype Part =
    | Text(text: Option<string>)
    | ImageUrl(json: string)
    | ImageFile(id: Option<string>)
    | File(file: Option<FileRef>, fallback: Option<string>)
    | OtherPart(json: string)

  datatype Content = Missing | Plain(text: string) | Parts(parts: seq<Part>) | Odd(json: string)

  datatype Message = Message(role: string, content: Content, toolCallId: Option<string>, rest: string)

  // How a sidecar group says which tool result it came from.
  type Marker = (nat, Option<string>) -> string

  // ---- file parts ----

  function NormalPart(p: Part): Part {
    match p
    case ImageFile(Some(id)) => File(Some(FileRef(None, Some(id), None)), None)
    case File(Some(f), fallback) =>
      if f.data.Some? || f.id.Some? then File(Some(f), None) else Text(Some(fallback.GetOr("[unsupported document omitted]")))
    case File(None, fallback) => Text(Some(fallback.GetOr("[unsupported document omitted]")))
    case _ => p
  }

  function NormalParts(parts: seq<Part>): (r: seq<Part>)
    ensures |r| == |parts| && forall i :: 0 <= i < |r| ==> r[i] == NormalPart(parts[i])
  {
    seq(|parts|, i requires 0 <= i < |parts| => NormalPart(parts[i]))
  }

  // `normalize_file_parts`.
  function NormalMessage(m: Message): Message {
    if m.content.Parts? then m.(content := Parts(NormalParts(m.content.parts))) else m
  }

  function NormalMessages(messages: seq<Message>): (r: seq<Message>)
    ensures |r| == |messages| && forall i :: 0 <= i < |r| ==> r[i] == NormalMessage(messages[i])
  {
    seq(|messages|, i requires 0 <= i < |messages| => NormalMessage(messages[i]))
  }

  // ---- media ----

  predicate IsMedia(p: Part) { p.ImageUrl? || p.File? }

  function MediaOf(parts: seq<Part>): seq<Part>
    decreases |parts|
  {
    if parts == [] then [] else (if IsMedia(parts[0]) then [parts[0]] else []) + MediaOf(parts[1..])
  }

  function TextsOf(parts: seq<Part>): (r: seq<Part>)
    ensures forall i :: 0 <= i < |r| ==> r[i].Text?
    decreases |parts|
  {
    if parts == [] then [] else (if parts[0].Text? then [parts[0]] else []) + TextsOf(parts[1..])
  }

  function MediaIn(m: Message): seq<Part> { if m.content.Parts? then MediaOf(m.content.parts) else [] }

  function AllMedia(messages: seq<Message>): seq<Part>
    decreases |messages|
  {
    if messages == [] then [] else AllMedia(messages[..|messages| - 1]) + MediaIn(messages[|messages| - 1])
  }

  lemma {:induction false} MediaConcat(a: seq<Part>, b: seq<Part>)
    ensures MediaOf(a + b) == MediaOf(a) + MediaOf(b)
    decreases |a|
  {
    if a == [] {
      assert a + b == b;
    } else {
      assert (a + b)[0] == a[0] && (a + b)[1..] == a[1..] + b;
      MediaConcat(a[1..], b);
      Assoc(if IsMedia(a[0]) then [a[0]] else [], MediaOf(a[1..]), MediaOf(b));
    }
  }

  lemma {:induction false} MediaOfMedia(parts: seq<Part>)
    ensures MediaOf(MediaOf(parts)) == MediaOf(parts) && MediaOf(TextsOf(parts)) == []
    decreases |parts|
  {
    if parts != [] {
      MediaOfMedia(parts[1..]);
      MediaConcat(if IsMedia(parts[0]) then [parts[0]] else [], MediaOf(parts[1..]));
      MediaConcat(if parts[0].Text? then [parts[0]] else [], TextsOf(parts[1..]));
      OnePart(parts[0]);
    }
  }

  lemma OnePart(p: Part)
    ensures MediaOf([p]) == if IsMedia(p) then [p] else []
  {
    assert [p][1..] == [] && MediaOf([]) == [];
  }

  lemma AllMediaSnoc(messages: seq<Message>, m: Message)
    ensures AllMedia(messages + [m]) == AllMedia(messages) + MediaIn(m)
  {
    assert (messages + [m])[..|messages|] == messages;
  }

  // ---- the pass ----

  datatype Group = Group(media: seq<Part>, marker: string)

  function GroupParts(g: Group, multiple: bool): seq<Part> { g.media + if multiple then [Text(Some(g.marker))] else [] }

  function GroupsParts(pending: seq<Group>, multiple: bool): seq<Part>
    decreases |pending|
  {
    if pending == [] then []
    else GroupsParts(pending[..|pending| - 1], multiple) + GroupParts(pending[|pending| - 1], multiple)
  }

  // Markers only tell several groups apart.
  function SidecarParts(pending: seq<Group>): seq<Part> { GroupsParts(pending, |pending| > 1) }

  function OwnParts(m: Message): seq<Part> {
    match m.content
    case Parts(parts) => parts
    case Plain(text) => if text == "" then [] else [Text(Some(text))]
    case _ => []
  }

  // A message of the result: a tool message, a message of the conversation with what is put before
  // its own parts, or a message made up to carry a sidecar.
  datatype Placed = ToolMessage(message: Message) | Kept(before: Option<seq<Part>>, message: Message) | Carrier(parts: seq<Part>)

  function ResultOf(p: Placed): Message {
    match p
    case ToolMessage(m) => m
    case Kept(before, m) => if before.None? then m else m.(content := Parts(before.value + OwnParts(m)))
    case Carrier(parts) => Message("user", Parts(parts), None, "")
  }

  function Results(plan: seq<Placed>): (r: seq<Message>)
    ensures |r| == |plan| && forall i :: 0 <= i < |r| ==> r[i] == ResultOf(plan[i])
  {
    seq(|plan|, i requires 0 <= i < |plan| => ResultOf(plan[i]))
  }

  // A tool message without its media.
  function ToolContent(content: Content): Content {
    match content
    case Missing => Plain("")
    case Parts(parts) =>
      var texts := TextsOf(parts);
      if |texts| == 1 then Plain(texts[0].text.GetOr(""))
      else if texts != [] then Parts(texts)
      else if MediaOf(parts) != [] then Plain(TOOL_RESULT_MOVED_TEXT)
      else Plain("")
    case _ => content
  }

  function PendingFrom(pending: seq<Group>, m: Message, ordinal: nat, mark: Marker): seq<Group> {
    if MediaIn(m) == [] then pending else pending + [Group(MediaIn(m), mark(ordinal, m.toolCallId))]
  }

  datatype Pass = Pass(plan: seq<Placed>, pending: seq<Group>, ordinal: nat)

  const NOTHING_YET := Pass([], [], 0)

  // The pending sidecar goes to a user message, or to one of its own.
  function FlushBefore(pending: seq<Group>, m: Message): seq<Placed> {
    if pending == [] then [Kept(None, m)]
    else if m.role == "user" then [Kept(Some(SidecarParts(pending)), m)]
    else [Carrier(SidecarParts(pending)), Kept(None, m)]
  }

  function OnMessage(p: Pass, m: Message, mark: Marker): Pass {
    if m.role != "tool" then Pass(p.plan + FlushBefore(p.pending, m), [], p.ordinal)
    else Pass(p.plan + [ToolMessage(m.(content := ToolContent(m.content)))], PendingFrom(p.pending, m, p.ordinal + 1, mark), p.ordinal + 1)
  }

  function OnMessages(messages: seq<Message>, mark: Marker): Pass
    decreases |messages|
  {
    if messages == [] then NOTHING_YET
    else OnMessage(OnMessages(messages[..|messages| - 1], mark), messages[|messages| - 1], mark)
  }

  function PlanOf(messages: seq<Message>, mark: Marker): seq<Placed> {
    var p := OnMessages(NormalMessages(messages), mark);
    p.plan + if p.pending == [] then [] else [Carrier(SidecarParts(p.pending))]
  }

  // ---- what it keeps ----

  function WithoutCarriers(plan: seq<Placed>): seq<Placed>
    decreases |plan|
  {
    if plan == [] then []
    else WithoutCarriers(plan[..|plan| - 1]) + if plan[|plan| - 1].Carrier? then [] else [plan[|plan| - 1]]
  }

  lemma WithoutCarriersSnoc(plan: seq<Placed>, p: Placed)
    ensures WithoutCarriers(plan + [p]) == WithoutCarriers(plan) + if p.Carrier? then [] else [p]
  {
    assert (plan + [p])[..|plan|] == plan;
  }

  // `p` is what became of the input message `m`.
  ghost predicate StandsFor(p: Placed, m: Message) {
    if m.role == "tool" then p == ToolMessage(m.(content := ToolContent(m.content))) else p.Kept? && p.message == m
  }

  // The messages stand in their order, each for its input message.
  ghost predicate KeepsMessages(plan: seq<Placed>, messages: seq<Message>) {
    var kept := WithoutCarriers(plan);
    |kept| == |messages| && forall i :: 0 <= i < |kept| ==> StandsFor(kept[i], messages[i])
  }

  // Nothing is put between tool messages: what follows a carrier is a message of the conversation.
  ghost predicate ToolRunsWhole(plan: seq<Placed>) {
    forall i, j :: 0 <= i < j < |plan| && j == i + 1 && plan[i].Carrier? ==> plan[j].Kept?
  }

  // What a plan carries, and what is still to be put down, is what the messages had.
  ghost predicate MediaKept(plan: seq<Placed>, pending: seq<Group>, messages: seq<Message>) {
    AllMedia(Results(plan)) + PendingMedia(pending) == AllMedia(messages) && ToolsBare(plan)
  }

  ghost predicate ToolsBare(plan: seq<Placed>) {
    forall i :: 0 <= i < |plan| && plan[i].ToolMessage? ==> MediaIn(plan[i].message) == []
  }

  lemma ToolsBareSnoc(plan: seq<Placed>, p: Placed)
    requires ToolsBare(plan) && (p.ToolMessage? ==> MediaIn(p.message) == [])
    ensures ToolsBare(plan + [p])
  {
  }

  function PendingMedia(pending: seq<Group>): seq<Part>
    decreases |pending|
  {
    if pending == [] then [] else PendingMedia(pending[..|pending| - 1]) + pending[|pending| - 1].media
  }

  ghost predicate Pure(pending: seq<Group>) { forall i :: 0 <= i < |pending| ==> MediaOf(pending[i].media) == pending[i].media }

  ghost predicate StaysKept(p: Pass, messages: seq<Message>) {
    && KeepsMessages(p.plan, messages) && ToolRunsWhole(p.plan) && MediaKept(p.plan, p.pending, messages) && Pure(p.pending)
    && (p.plan != [] ==> !p.plan[|p.plan| - 1].Carrier?)
  }

  lemma {:induction false} GroupsMedia(pending: seq<Group>, multiple: bool)
    requires Pure(pending)
    ensures MediaOf(GroupsParts(pending, multiple)) == PendingMedia(pending)
    decreases |pending|
  {
    if pending != [] {
      var init, last := pending[..|pending| - 1], pending[|pending| - 1];
      GroupsMedia(init, multiple);
      MediaConcat(GroupsParts(init, multiple), GroupParts(last, multiple));
      MediaConcat(last.media, if multiple then [Text(Some(last.marker))] else []);
      OnePart(Text(Some(last.marker)));
    }
  }

  lemma OwnMedia(m: Message)
    ensures MediaOf(OwnParts(m)) == MediaIn(m)
  {
    if m.content.Plain? { OnePart(Text(Some(m.content.text))); }
  }

  lemma KeptMedia(before: Option<seq<Part>>, m: Message)
    ensures MediaIn(ResultOf(Kept(before, m))) == MediaOf(before.GetOr([])) + MediaIn(m)
  {
    MediaConcat(before.GetOr([]), OwnParts(m));
    OwnMedia(m);
  }

  lemma ToolHasNoMedia(m: Message)
    ensures MediaIn(m.(content := ToolContent(m.content))) == []
  {
    if m.content.Parts? { MediaOfMedia(m.content.parts); }
  }

  lemma ResultsSnoc(plan: seq<Placed>, p: Placed)
    ensures Results(plan + [p]) == Results(plan) + [ResultOf(p)]
    ensures AllMedia(Results(plan + [p])) == AllMedia(Results(plan)) + MediaIn(ResultOf(p))
  {
    assert Results(plan + [p]) == Results(plan) + [ResultOf(p)];
    AllMediaSnoc(Results(plan), ResultOf(p));
  }

  // A plan grows by one more message, or by a carrier.
  lemma PlanGrows(plan: seq<Placed>, p: Placed, messages: seq<Message>, m: Message)
    requires KeepsMessages(plan, messages)
    ensures p.Carrier? ==> KeepsMessages(plan + [p], messages)
    ensures !p.Carrier? && StandsFor(p, m) ==> KeepsMessages(plan + [p], messages + [m])
  {
    WithoutCarriersSnoc(plan, p);
    assert p.Carrier? ==> WithoutCarriers(plan) + [] == WithoutCarriers(plan);
    hide WithoutCarriers, StandsFor;
  }

  lemma CarrierHasMedia(pending: seq<Group>)
    requires Pure(pending)
    ensures MediaIn(ResultOf(Carrier(SidecarParts(pending)))) == PendingMedia(pending)
  {
    GroupsMedia(pending, |pending| > 1);
  }

  lemma PendingGrows(pending: seq<Group>, m: Message, ordinal: nat, mark: Marker)
    requires Pure(pending)
    ensures Pure(PendingFrom(pending, m, ordinal, mark))
    ensures PendingMedia(PendingFrom(pending, m, ordinal, mark)) == PendingMedia(pending) + MediaIn(m)
  {
    if m.content.Parts? { MediaOfMedia(m.content.parts); }
    var next := pending + [Group(MediaIn(m), mark(ordinal, m.toolCallId))];
    assert next[..|pending|] == pending;
  }

  lemma CarrierMedia(plan: seq<Placed>, pending: seq<Group>, messages: seq<Message>)
    requires MediaKept(plan, pending, messages) && Pure(pending)
    ensures MediaKept(plan + [Carrier(SidecarParts(pending))], [], messages)
  {
    ResultsSnoc(plan, Carrier(SidecarParts(pending)));
    CarrierHasMedia(pending);
    assert PendingMedia([]) == [];
    hide AllMedia, Results, MediaIn, SidecarParts, Pure, PendingMedia, ToolsBare, ResultOf;
    ToolsBareSnoc(plan, Carrier(SidecarParts(pending)));
    assert AllMedia(messages) + [] == AllMedia(messages);
  }

  lemma CarrierKeeps(plan: seq<Placed>, pending: seq<Group>, messages: seq<Message>)
    requires KeepsMessages(plan, messages) && ToolRunsWhole(plan) && MediaKept(plan, pending, messages) && Pure(pending)
    requires plan != [] ==> !plan[|plan| - 1].Carrier?
    ensures var next := plan + [Carrier(SidecarParts(pending))];
            KeepsMessages(next, messages) && ToolRunsWhole(next) && MediaKept(next, [], messages)
  {
    hide KeepsMessages, MediaKept, SidecarParts, Pure;
    CarrierMedia(plan, pending, messages);
    PlanGrows(plan, Carrier(SidecarParts(pending)), messages, Message("", Missing, None, ""));
  }

  // Sums of media, with `x` put down and `z` still pending in place of `y` pending and `w` coming in.
  lemma MediaBalance(all: seq<Part>, x: seq<Part>, z: seq<Part>, y: seq<Part>, w: seq<Part>)
    requires x + z == y + w
    ensures all + x + z == all + y + w
  {
    Assoc(all, x, z);
    Assoc(all, y, w);
  }

  // A tool message, or one of the conversation, takes its place at the end of the plan.
  lemma PlaceMessage(plan: seq<Placed>, placed: Placed, messages: seq<Message>, m: Message, before: seq<Group>, after: seq<Group>)
    requires KeepsMessages(plan, messages) && ToolRunsWhole(plan) && MediaKept(plan, before, messages)
    requires !placed.Carrier? && StandsFor(placed, m)
    requires placed.ToolMessage? ==> MediaIn(placed.message) == [] && (plan != [] ==> !plan[|plan| - 1].Carrier?)
    requires MediaIn(ResultOf(placed)) + PendingMedia(after) == PendingMedia(before) + MediaIn(m)
    ensures var next := plan + [placed];
            KeepsMessages(next, messages + [m]) && ToolRunsWhole(next) && MediaKept(next, after, messages + [m])
  {
    PlanGrows(plan, placed, messages, m);
    ResultsSnoc(plan, placed);
    AllMediaSnoc(messages, m);
    hide KeepsMessages, AllMedia, Results, MediaIn, PendingMedia, StandsFor, ResultOf, ToolsBare;
    ToolsBareSnoc(plan, placed);
    MediaBalance(AllMedia(Results(plan)), MediaIn(ResultOf(placed)), PendingMedia(after), PendingMedia(before), MediaIn(m));
  }

  lemma ToolBalance(pending: seq<Group>, m: Message, ordinal: nat, mark: Marker)
    requires Pure(pending)
    ensures var placed := ToolMessage(m.(content := ToolContent(m.content)));
            && MediaIn(placed.message) == [] && Pure(PendingFrom(pending, m, ordinal, mark))
            && MediaIn(ResultOf(placed)) + PendingMedia(PendingFrom(pending, m, ordinal, mark)) == PendingMedia(pending) + MediaIn(m)
  {
    ToolHasNoMedia(m);
    PendingGrows(pending, m, ordinal, mark);
    hide MediaIn, PendingMedia, PendingFrom, ToolContent, Pure;
    var after := PendingMedia(PendingFrom(pending, m, ordinal, mark));
    assert [] + after == after;
  }

  lemma ToolKeeps(p: Pass, messages: seq<Message>, m: Message, mark: Marker)
    requires StaysKept(p, messages) && m.role == "tool"
    ensures StaysKept(OnMessage(p, m, mark), messages + [m])
  {
    hide KeepsMessages, ToolRunsWhole, MediaKept, Pure, MediaIn, PendingMedia, PendingFrom, ToolContent, ResultOf;
    ToolBalance(p.pending, m, p.ordinal + 1, mark);
    PlaceMessage(p.plan, ToolMessage(m.(content := ToolContent(m.content))), messages, m, p.pending,
                 PendingFrom(p.pending, m, p.ordinal + 1, mark));
  }

  lemma KeptBalance(pending: seq<Group>, before: Option<seq<Part>>, m: Message)
    requires Pure(pending) && before == if pending == [] then None else Some(SidecarParts(pending))
    ensures Pure([]) && MediaIn(ResultOf(Kept(before, m))) + PendingMedia([]) == PendingMedia(pending) + MediaIn(m)
  {
    KeptMedia(before, m);
    GroupsMedia(pending, |pending| > 1);
    assert MediaOf(before.GetOr([])) == PendingMedia(pending);
    var all := MediaIn(ResultOf(Kept(before, m)));
    hide MediaIn, ResultOf, SidecarParts;
    assert all + [] == all;
  }

  lemma ConversationKeeps(p: Pass, messages: seq<Message>, m: Message, mark: Marker)
    requires StaysKept(p, messages) && m.role != "tool"
    ensures StaysKept(OnMessage(p, m, mark), messages + [m])
  {
    hide KeepsMessages, ToolRunsWhole, MediaKept, Pure, MediaIn, PendingMedia, SidecarParts, ResultOf;
    if p.pending == [] || m.role == "user" {
      var before := if p.pending == [] then None else Some(SidecarParts(p.pending));
      KeptBalance(p.pending, before, m);
      PlaceMessage(p.plan, Kept(before, m), messages, m, p.pending, []);
    } else {
      var carrier := Carrier(SidecarParts(p.pending));
      CarrierKeeps(p.plan, p.pending, messages);
      NothingPending();
      KeptBalance([], None, m);
      PlaceMessage(p.plan + [carrier], Kept(None, m), messages, m, [], []);
      Shift(p.plan, carrier, [Kept(None, m)]);
      assert [carrier] + [Kept(None, m)] == [carrier, Kept(None, m)];
    }
  }

  lemma NothingPending()
    ensures Pure([])
  {
  }

  lemma StartKept()
    ensures StaysKept(NOTHING_YET, [])
  {
    assert Results([]) == [] && AllMedia([]) == [];
  }

  lemma {:induction false} PassKeeps(messages: seq<Message>, mark: Marker)
    ensures StaysKept(OnMessages(messages, mark), messages)
    decreases |messages|
  {
    hide StaysKept, OnMessage;
    if messages == [] {
      StartKept();
    } else {
      var init, m := messages[..|messages| - 1], messages[|messages| - 1];
      PassKeeps(init, mark);
      var p := OnMessages(init, mark);
      if m.role == "tool" { ToolKeeps(p, init, m, mark); } else { ConversationKeeps(p, init, m, mark); }
      assert messages == init + [m];
    }
  }

  // The pass conserves media: the images and files over all messages are the same, in the same order,
  // none is left in a tool message, tool messages stay together, and every other message keeps its own
  // parts, with a sidecar at most put before them.
  lemma SidecarConservesMedia(messages: seq<Message>, mark: Marker)
    ensures var plan := PlanOf(messages, mark);
            && AllMedia(Results(plan)) == AllMedia(NormalMessages(messages))
            && (forall i :: 0 <= i < |plan| && plan[i].ToolMessage? ==> MediaIn(Results(plan)[i]) == [])
            && ToolRunsWhole(plan) && KeepsMessages(plan, NormalMessages(messages))
  {
    var normal := NormalMessages(messages);
    PassKeeps(normal, mark);
    var p := OnMessages(normal, mark);
    if p.pending != [] { CarrierKeeps(p.plan, p.pending, normal); }
    hide KeepsMessages, AllMedia, OnMessages, SidecarParts;
    assert p.pending == [] ==> p.plan + [] == p.plan;
    assert AllMedia(Results(PlanOf(messages, mark))) + [] == AllMedia(Results(PlanOf(messages, mark)));
  }
}

module Sidecar {
  import opened Wrappers
  import opened SidecarSpec

  method NormalizeFileParts(m: Message) returns (r: Message)
    ensures r == NormalMessage(m)
  {
    if !m.content.Parts? { return m; }
    var parts := m.content.parts;
    for i := 0 to |parts|
      invariant |parts| == |m.content.parts|
      invariant forall j :: 0 <= j < |parts| ==> parts[j] == if j < i then NormalPart(m.content.parts[j]) else m.content.parts[j]
    {
      var part := parts[i];
      if part.ImageFile? {
        if part.id.Some? { part := File(Some(FileRef(None, part.id, None)), None); }
      } else if part.File? {
        if part.file.Some? && (part.file.value.data.Some? || part.file.value.id.Some?) {
          part := File(part.file, None);
        } else {
          part := Text(Some(part.fallback.GetOr("[unsupported document omitted]")));
        }
      }
      parts := parts[i := part];
    }
    assert parts == NormalParts(m.content.parts);
    return m.(content := Parts(parts));
  }

  // `flush_sidecars`: what is pending goes before the next message, or at the end.
  method FlushSidecars(normalized: seq<Message>, pending: seq<Group>, next: Option<Message>)
    returns (r: seq<Message>, m: Option<Message>)
    ensures next.Some? ==> m.Some? && r + [m.value] == normalized + Results(FlushBefore(pending, next.value))
    ensures next.None? ==> r == normalized + (if pending == [] then [] else [ResultOf(Carrier(SidecarParts(pending)))])
  {
    r, m := normalized, next;
    if pending == [] {
      assert next.Some? ==> Results([Kept(None, next.value)]) == [next.value];
      return;
    }
    var parts := [];
    var multiple := |pending| > 1;
    for i := 0 to |pending|
      invariant parts == GroupsParts(pending[..i], multiple)
    {
      assert pending[..i + 1][..i] == pending[..i];
      parts := parts + (pending[i].media + if multiple then [Text(Some(pending[i].marker))] else []);
    }
    assert pending[..|pending|] == pending;
    if next.Some? && next.value.role == "user" {
      m := Some(next.value.(content := Parts(parts + OwnParts(next.value))));
      assert Results([Kept(Some(parts), next.value)]) == [m.value];
    } else {
      r := normalized + [Message("user", Parts(parts), None, "")];
      assert next.Some? ==> Results([Carrier(parts), Kept(None, next.value)]) == [Message("user", Parts(parts), None, "")] + [next.value];
    }
  }

  // A tool message: its media are set aside, its texts stay.
  method TakeMedia(m: Message, pending: seq<Group>, ordinal: nat, mark: Marker) returns (r: Message, after: seq<Group>)
    ensures r == m.(content := ToolContent(m.content)) && after == PendingFrom(pending, m, ordinal, mark)
  {
    r, after := m, pending;
    if m.content.Parts? {
      var text, multimodal := TextsOf(m.content.parts), MediaOf(m.content.parts);
      if multimodal != [] { after := pending + [Group(multimodal, mark(ordinal, m.toolCallId))]; }
      r := m.(content :=
        if |text| == 1 then Plain(text[0].text.GetOr(""))
        else if text != [] then Parts(text)
        else if multimodal != [] then Plain(TOOL_RESULT_MOVED_TEXT)
        else Plain(""));
    } else if m.content.Missing? {
      r := m.(content := Plain(""));
    }
  }

  // One message of the pass.
  method OneMessage(ghost p: Pass, results: seq<Message>, groups: seq<Group>, count: nat, message: Message, mark: Marker)
    returns (normalized: seq<Message>, pending: seq<Group>, ordinal: nat)
    requires results == Results(p.plan) && groups == p.pending && count == p.ordinal
    ensures var next := OnMessage(p, message, mark);
            normalized == Results(next.plan) && pending == next.pending && ordinal == next.ordinal
  {
    normalized, pending, ordinal := results, groups, count;
    hide FlushBefore, ToolContent, PendingFrom;
    if message.role != "tool" {
      ResultsConcat(p.plan, FlushBefore(pending, message));
      hide Results;
      var before, next := FlushSidecars(normalized, pending, Some(message));
      normalized := before + [next.value];
      pending := [];
    } else {
      ordinal := ordinal + 1;
      var result;
      result, pending := TakeMedia(message, pending, ordinal, mark);
      ResultsSnoc(p.plan, ToolMessage(result));
      hide Results;
      normalized := normalized + [result];
    }
  }

  // `normalize_multimodal_tool_results`.
  method NormalizeMultimodalToolResults(messages: seq<Message>, mark: Marker) returns (normalized: seq<Message>)
    ensures normalized == Results(PlanOf(messages, mark))
    ensures AllMedia(normalized) == AllMedia(NormalMessages(messages))
  {
    SidecarConservesMedia(messages, mark);
    hide AllMedia, KeepsMessages, ToolRunsWhole;
    normalized := [];
    var pending: seq<Group> := [];
    var ordinal := 0;
    ghost var normal := NormalMessages(messages);
    assert normal[..0] == [];
    for i := 0 to |messages|
      invariant ordinal >= 0
      invariant var p := OnMessages(normal[..i], mark);
                normalized == Results(p.plan) && pending == p.pending && ordinal == p.ordinal
    {
      ghost var p := OnMessages(normal[..i], mark);
      assert normal[..i + 1][..i] == normal[..i];
      var message := NormalizeFileParts(messages[i]);
      hide NormalMessages, NormalMessage, OnMessage, Results;
      normalized, pending, ordinal := OneMessage(p, normalized, pending, ordinal, message, mark);
    }
    assert normal[..|messages|] == normal;
    ghost var p := OnMessages(normal, mark);
    ResultsSnoc(p.plan, Carrier(SidecarParts(p.pending)));
    assert p.plan + [] == p.plan;
    var nothing;
    normalized, nothing := FlushSidecars(normalized, pending, None);
  }

  lemma ResultsConcat(a: seq<Placed>, b: seq<Placed>)
    ensures Results(a + b) == Results(a) + Results(b)
  {
  }
}
