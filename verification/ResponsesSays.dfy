// A Responses message against the fields of the output items it came from.
module ResponsesSays {
  import opened Wrappers
  import opened ResponsesItems
  import opened ResponsesSpec
  import opened ResponsesTransformSpec
  import opened Marks
  import Anthropic

  // ---- what the items say ----

  function TextOfField(f: Field): string { if f.Str? then f.text else "" }

  // A call goes out under its call id, or its item id when that member is missing.
  function IdOf(h: Head): string { TextOfField(if h.callId != Absent then h.callId else h.id) }

  function ArgumentsOf(h: Head): string { if h.arguments.Str? then h.arguments.text else if h.arguments.Null? then "null" else "{}" }

  function NameOr(h: Head, other: string): string { if TextOfField(h.name) != "" then TextOfField(h.name) else other }

  predicate IsCall(item: OutItem) { item.head.kind == Some("function_call") }

  predicate IsMessage(item: OutItem) { item.head.kind == Some("message") }

  // A call as it is made.
  function CallBlock(c: Codec, h: Head): Anthropic.Block {
    Anthropic.ToolUse(IdOf(h), TextOfField(h.name), c.parseObject(ArgumentsOf(h)).GetOr(""))
  }

  function Cut(raw: string): string { if |raw| > 4096 then raw[..4096] + ['\U{2026}'] else raw }

  // Concatenated texts: of the reasoning parts of an item, or of its summary when these say nothing.
  function ReasoningText(parts: seq<Body>): string {
    if parts == [] then ""
    else (if parts[0].kind == Some("reasoning_text") then parts[0].text.GetOr("") else "") + ReasoningText(parts[1..])
  }

  function SummaryText(parts: seq<Body>): string {
    if parts == [] then "" else parts[0].text.GetOr("") + SummaryText(parts[1..])
  }

  function Reasoned(item: OutItem): string {
    if ReasoningText(item.content) != "" then ReasoningText(item.content) else SummaryText(item.summary)
  }

  function NotesText(c: Codec, notes: seq<string>): string {
    if notes == [] then "" else c.annotationText(notes[0]) + NotesText(c, notes[1..])
  }

  predicate IsAudio(part: Body) { part.kind == Some("output_audio") }

  // The omission of audio is noted once in a message.
  function PartText(c: Codec, part: Body, noted: bool): string {
    match part.kind
    case Some("output_text") => part.text.GetOr("")
    case Some("refusal") => part.refusal.GetOr("")
    case Some("output_image") => "[generated image omitted]"
    case Some("output_image_base64") => "[generated image omitted]"
    case Some("output_audio") => (if noted then "" else "[generated audio omitted]") + part.transcript.GetOr("")
    case _ => c.partText(part)
  }

  function PartsText(c: Codec, parts: seq<Body>, noted: bool): string
    decreases |parts|
  {
    if parts == [] then ""
    else
      PartText(c, parts[0], noted) + NotesText(c, parts[0].annotations.GetOr([]))
      + PartsText(c, parts[1..], noted || IsAudio(parts[0]))
  }

  predicate HasAudio(parts: seq<Body>) { exists i :: 0 <= i < |parts| && IsAudio(parts[i]) }

  function RefusalOf(parts: seq<Body>): string {
    if parts == [] then "" else (if parts[0].kind == Some("refusal") then parts[0].refusal.GetOr("") else "") + RefusalOf(parts[1..])
  }

  function RefusalIn(items: seq<OutItem>): string {
    if items == [] then "" else (if IsMessage(items[0]) then RefusalOf(items[0].content) else "") + RefusalIn(items[1..])
  }

  // What the payload as a whole settles for its calls.
  predicate Incomplete(p: Payload) { p.status == Some("incomplete") }

  predicate Refused(p: Payload)
    requires p.output.Some?
  {
    RefusalIn(p.output.value) != "" || (Incomplete(p) && p.incompleteReason == Some("content_filter"))
  }

  predicate CutOff(p: Payload, h: Head) { Incomplete(p) || h.status == Str("incomplete") }

  function CallMarks(c: Codec, p: Payload, h: Head): seq<Mark>
    requires p.output.Some?
  {
    if Refused(p) then Chars("[function_call suppressed by refusal " + NameOr(h, "unknown") + ": " + Cut(ArgumentsOf(h)) + "]")
    else if CutOff(p, h) then Chars("[incomplete function_call " + NameOr(h, "unknown") + ": " + Cut(ArgumentsOf(h)) + "]")
    else [Uses(CallBlock(c, h))]
  }

  function ItemMarks(c: Codec, omit: bool, p: Payload, item: OutItem, noted: bool): seq<Mark>
    requires p.output.Some?
  {
    match item.head.kind
    case Some("reasoning") => Thoughts(if omit then "" else Reasoned(item))
    case Some("function_call") => CallMarks(c, p, item.head)
    case Some("message") => Chars(PartsText(c, item.content, noted))
    case Some("image_generation_call") => Chars("[generated image omitted]")
    case _ => Chars(c.itemText(item))
  }

  predicate Noted(item: OutItem, noted: bool) { noted || (IsMessage(item) && HasAudio(item.content)) }

  function OutputMarks(c: Codec, omit: bool, p: Payload, items: seq<OutItem>, noted: bool): seq<Mark>
    requires p.output.Some?
    decreases |items|
  {
    if items == [] then []
    else ItemMarks(c, omit, p, items[0], noted) + OutputMarks(c, omit, p, items[1..], Noted(items[0], noted))
  }

  // When some call was cut off, those that were not are told too.
  function Told(m: Mark): seq<Mark> {
    if m.Uses? && m.block.ToolUse? then Chars("[incomplete function_call " + m.block.name + ": " + Cut(m.block.input) + "]") else [m]
  }

  function AllTold(marks: seq<Mark>): seq<Mark> { if marks == [] then [] else Told(marks[0]) + AllTold(marks[1..]) }

  // ---- folds from the other end ----

  lemma {:induction false} ReasoningSnoc(parts: seq<Body>, part: Body)
    ensures ReasoningText(parts + [part])
            == ReasoningText(parts) + if part.kind == Some("reasoning_text") then part.text.GetOr("") else ""
    decreases |parts|
  {
    if parts == [] {
      assert [] + [part] == [part] && [part][1..] == [];
    } else {
      assert (parts + [part])[0] == parts[0] && (parts + [part])[1..] == parts[1..] + [part];
      ReasoningSnoc(parts[1..], part);
      Assoc(if parts[0].kind == Some("reasoning_text") then parts[0].text.GetOr("") else "", ReasoningText(parts[1..]),
            if part.kind == Some("reasoning_text") then part.text.GetOr("") else "");
    }
  }

  lemma {:induction false} SummarySnoc(parts: seq<Body>, part: Body)
    ensures SummaryText(parts + [part]) == SummaryText(parts) + part.text.GetOr("")
    decreases |parts|
  {
    if parts == [] {
      assert [] + [part] == [part] && [part][1..] == [];
    } else {
      assert (parts + [part])[0] == parts[0] && (parts + [part])[1..] == parts[1..] + [part];
      SummarySnoc(parts[1..], part);
    }
  }

  lemma {:induction false} RefusalSnoc(parts: seq<Body>, part: Body)
    ensures RefusalOf(parts + [part]) == RefusalOf(parts) + if part.kind == Some("refusal") then part.refusal.GetOr("") else ""
    decreases |parts|
  {
    if parts == [] {
      assert [] + [part] == [part] && [part][1..] == [];
    } else {
      assert (parts + [part])[0] == parts[0] && (parts + [part])[1..] == parts[1..] + [part];
      RefusalSnoc(parts[1..], part);
    }
  }

  lemma {:induction false} TextsAre(parts: seq<Body>)
    ensures TextsOf(parts, true) == ReasoningText(parts) && TextsOf(parts, false) == SummaryText(parts)
    decreases |parts|
  {
    hide ReasoningText, SummaryText;
    if parts == [] {
      NoTexts();
    } else {
      var init, last := parts[..|parts| - 1], parts[|parts| - 1];
      TextsAre(init);
      ReasoningSnoc(init, last);
      SummarySnoc(init, last);
      assert parts == init + [last];
    }
  }

  lemma NoTexts()
    ensures ReasoningText([]) == "" && SummaryText([]) == "" && RefusalOf([]) == ""
  {
  }

  lemma {:induction false} NotesSnoc(c: Codec, notes: seq<string>, note: string)
    ensures NotesText(c, notes + [note]) == NotesText(c, notes) + c.annotationText(note)
    decreases |notes|
  {
    if notes == [] {
      assert [] + [note] == [note] && [note][1..] == [];
    } else {
      assert (notes + [note])[0] == notes[0] && (notes + [note])[1..] == notes[1..] + [note];
      NotesSnoc(c, notes[1..], note);
      Assoc(c.annotationText(notes[0]), NotesText(c, notes[1..]), c.annotationText(note));
    }
  }

  lemma {:induction false} PartsSnoc(c: Codec, parts: seq<Body>, part: Body, noted: bool)
    ensures PartsText(c, parts + [part], noted)
            == PartsText(c, parts, noted) + (PartText(c, part, noted || HasAudio(parts)) + NotesText(c, part.annotations.GetOr([])))
    decreases |parts|
  {
    hide PartText, NotesText;
    if parts == [] {
      assert [] + [part] == [part] && [part][1..] == [];
      assert PartsText(c, [], noted || IsAudio(part)) == "";
    } else {
      var rest := parts[1..];
      assert (parts + [part])[0] == parts[0] && (parts + [part])[1..] == rest + [part];
      PartsSnoc(c, rest, part, noted || IsAudio(parts[0]));
      assert HasAudio(parts) <==> IsAudio(parts[0]) || HasAudio(rest) by { AudioCons(parts); }
      Assoc(PartText(c, parts[0], noted) + NotesText(c, parts[0].annotations.GetOr([])), PartsText(c, rest, noted || IsAudio(parts[0])),
            PartText(c, part, noted || HasAudio(parts)) + NotesText(c, part.annotations.GetOr([])));
    }
  }

  lemma AudioCons(parts: seq<Body>)
    requires parts != []
    ensures HasAudio(parts) <==> IsAudio(parts[0]) || HasAudio(parts[1..])
  {
    hide IsAudio;
    if HasAudio(parts) {
      var i :| 0 <= i < |parts| && IsAudio(parts[i]);
      if i > 0 { assert IsAudio(parts[1..][i - 1]); }
    }
    if HasAudio(parts[1..]) {
      var i :| 0 <= i < |parts[1..]| && IsAudio(parts[1..][i]);
      assert IsAudio(parts[i + 1]);
    }
  }

  lemma {:induction false} ItemsSnoc(c: Codec, omit: bool, p: Payload, items: seq<OutItem>, item: OutItem, noted: bool)
    requires p.output.Some?
    ensures OutputMarks(c, omit, p, items + [item], noted)
            == OutputMarks(c, omit, p, items, noted) + ItemMarks(c, omit, p, item, NotedIn(items, noted))
    ensures NotedIn(items + [item], noted) == Noted(item, NotedIn(items, noted))
    ensures RefusalIn(items + [item]) == RefusalIn(items) + if IsMessage(item) then RefusalOf(item.content) else ""
    decreases |items|
  {
    hide ItemMarks, Noted, RefusalOf;
    if items == [] {
      assert [] + [item] == [item] && [item][1..] == [];
    } else {
      assert (items + [item])[0] == items[0] && (items + [item])[1..] == items[1..] + [item];
      ItemsSnoc(c, omit, p, items[1..], item, Noted(items[0], noted));
      Assoc(ItemMarks(c, omit, p, items[0], noted), OutputMarks(c, omit, p, items[1..], Noted(items[0], noted)),
            ItemMarks(c, omit, p, item, NotedIn(items, noted)));
    }
  }

  function NotedIn(items: seq<OutItem>, noted: bool): bool
    decreases |items|
  {
    if items == [] then noted else NotedIn(items[1..], Noted(items[0], noted))
  }

  // ---- the blocks of a message item ----

  lemma PushMarks(o: Emitted, t: string)
    ensures Flat(PushText(o, t).content) == Flat(o.content) + Chars(t)
  {
    FlatSnoc(o.content, Anthropic.Text(t));
  }

  lemma PartMarks(c: Codec, o: Emitted, part: Body)
    ensures var next := EmitPartText(c, o, part);
            && Flat(next.content) == Flat(o.content) + Chars(PartText(c, part, o.audio))
            && next.audio == (o.audio || IsAudio(part)) && next.incompleteCall == o.incompleteCall
            && next.refusal == o.refusal + if part.kind == Some("refusal") then part.refusal.GetOr("") else ""
  {
    hide Flat, Chars;
    assert o.refusal + "" == o.refusal;
    if part.kind == Some("output_audio") {
      AudioMarks(o, part);
    } else {
      PushMarks(o.(refusal := o.refusal + part.refusal.GetOr("")), part.refusal.GetOr(""));
      PushMarks(o, PartText(c, part, o.audio));
    }
  }

  lemma AudioMarks(o: Emitted, part: Body)
    ensures var told := if o.audio then o else PushText(o.(audio := true), "[generated audio omitted]");
            var next := if Says(part.transcript) then PushText(told, part.transcript.value) else told;
            && next.audio && next.refusal == o.refusal && next.incompleteCall == o.incompleteCall
            && Flat(next.content)
               == Flat(o.content) + Chars((if o.audio then "" else "[generated audio omitted]") + part.transcript.GetOr(""))
  {
    var note := if o.audio then "" else "[generated audio omitted]";
    var told := if o.audio then o else PushText(o.(audio := true), "[generated audio omitted]");
    PushMarks(o.(audio := true), "[generated audio omitted]");
    PushMarks(told, part.transcript.GetOr(""));
    MarksConcat(note, part.transcript.GetOr(""));
    Assoc(Flat(o.content), Chars(note), Chars(part.transcript.GetOr("")));
    hide Flat;
    assert Chars("") == [];
    assert Flat(o.content) + [] == Flat(o.content);
    assert Flat(told.content) + [] == Flat(told.content);
  }

  lemma {:induction false} NotesMarks(c: Codec, o: Emitted, notes: seq<string>)
    ensures var next := EmitAnnotations(c, o, notes);
            && Flat(next.content) == Flat(o.content) + Chars(NotesText(c, notes))
            && next.audio == o.audio && next.refusal == o.refusal && next.incompleteCall == o.incompleteCall
    decreases |notes|
  {
    hide Flat, Chars, NotesText;
    if notes == [] {
      NoMarks(c, o);
    } else {
      var init, last := notes[..|notes| - 1], notes[|notes| - 1];
      NotesMarks(c, o, init);
      PushMarks(EmitAnnotations(c, o, init), c.annotationText(last));
      NotesSnoc(c, init, last);
      assert notes == init + [last];
      MarksConcat(NotesText(c, init), c.annotationText(last));
      Assoc(Flat(o.content), Chars(NotesText(c, init)), Chars(c.annotationText(last)));
    }
  }

  lemma NoMarks(c: Codec, o: Emitted)
    ensures Flat(o.content) + Chars(NotesText(c, [])) == Flat(o.content)
    ensures forall noted :: Flat(o.content) + Chars(PartsText(c, [], noted)) == Flat(o.content)
  {
    assert Chars("") == [];
  }

  lemma {:induction false} PartsMarks(c: Codec, o: Emitted, parts: seq<Body>)
    ensures var next := EmitParts(c, o, parts);
            && Flat(next.content) == Flat(o.content) + Chars(PartsText(c, parts, o.audio))
            && next.audio == (o.audio || HasAudio(parts)) && next.incompleteCall == o.incompleteCall
            && next.refusal == o.refusal + RefusalOf(parts)
    decreases |parts|
  {
    hide Flat, Chars, PartText, NotesText, PartsText, RefusalOf, EmitPartText, EmitAnnotations, IsAudio;
    if parts == [] {
      NoMarks(c, o);
      NoTexts();
      assert o.refusal + "" == o.refusal;
    } else {
      var init, last := parts[..|parts| - 1], parts[|parts| - 1];
      var before := EmitParts(c, o, init);
      var notes := last.annotations.GetOr([]);
      PartsMarks(c, o, init);
      PartMarks(c, before, last);
      NotesMarks(c, EmitPartText(c, before, last), notes);
      assert parts == init + [last];
      PartsSnoc(c, init, last, o.audio);
      RefusalSnoc(init, last);
      AudioSnoc(init, last);
      var a, b := PartText(c, last, before.audio), NotesText(c, notes);
      MarksConcat(a, b);
      MarksConcat(PartsText(c, init, o.audio), a + b);
      Assoc(Flat(before.content), Chars(a), Chars(b));
      Assoc(Flat(o.content), Chars(PartsText(c, init, o.audio)), Chars(a + b));
      Assoc(o.refusal, RefusalOf(init), if last.kind == Some("refusal") then last.refusal.GetOr("") else "");
    }
  }

  lemma AudioSnoc(parts: seq<Body>, part: Body)
    ensures HasAudio(parts + [part]) <==> HasAudio(parts) || IsAudio(part)
  {
    hide IsAudio;
    if HasAudio(parts) {
      var i :| 0 <= i < |parts| && IsAudio(parts[i]);
      assert IsAudio((parts + [part])[i]);
    }
    if IsAudio(part) { assert IsAudio((parts + [part])[|parts|]); }
    if HasAudio(parts + [part]) {
      var i :| 0 <= i < |parts + [part]| && IsAudio((parts + [part])[i]);
      if i < |parts| { assert IsAudio(parts[i]); }
    }
  }

  // ---- items ----

  predicate CutCall(p: Payload, item: OutItem)
    requires p.output.Some?
  {
    IsCall(item) && !Refused(p) && CutOff(p, item.head)
  }

  lemma ReasoningEmitted(c: Codec, omit: bool, s: Setting, item: OutItem)
    requires s.codec == c && s.omit == omit && ReasoningBlock(s, item).Some?
    ensures match ReasoningBlock(s, item).value
            case None => Thoughts(if omit then "" else Reasoned(item)) == []
            case Some(block) => BlockMarks(block) == Thoughts(if omit then "" else Reasoned(item))
  {
    TextsAre(item.content);
    TextsAre(item.summary);
    hide ReasoningText, SummaryText, TextsOf;
  }

  lemma CallEmitted(c: Codec, s: Setting, p: Payload, o: Emitted, h: Head)
    requires p.output.Some? && s.codec == c && s.incomplete == Incomplete(p) && s.preempted == Refused(p) && EmitCall(s, o, h).Some?
    ensures var next := EmitCall(s, o, h).value;
            && Flat(next.content) == Flat(o.content) + CallMarks(c, p, h)
            && next.audio == o.audio && next.refusal == o.refusal
            && next.incompleteCall == (o.incompleteCall || (!Refused(p) && CutOff(p, h)))
  {
    hide Flat, Refused;
    var name, raw := NameOr(h, "unknown"), ArgumentsOf(h);
    assert Given(h.name).GetOr("unknown") == name && RawArguments(h.arguments) == raw && Bounded(raw) == Cut(raw);
    if s.preempted {
      FlatSnoc(o.content, SuppressedCall(name, raw));
    } else if CutOff(p, h) {
      FlatSnoc(o.content, IncompleteCall(name, raw));
    } else {
      FlatSnoc(o.content, CallBlock(c, h));
    }
  }

  lemma ItemEmitted(c: Codec, omit: bool, s: Setting, p: Payload, o: Emitted, item: OutItem)
    requires p.output.Some? && s.codec == c && s.omit == omit && s.incomplete == Incomplete(p) && s.preempted == Refused(p)
    requires EmitItem(s, o, item).Some?
    ensures var next := EmitItem(s, o, item).value;
            && Flat(next.content) == Flat(o.content) + ItemMarks(c, omit, p, item, o.audio)
            && next.audio == Noted(item, o.audio) && next.incompleteCall == (o.incompleteCall || CutCall(p, item))
            && next.refusal == o.refusal + if IsMessage(item) then RefusalOf(item.content) else ""
  {
    hide Flat, Refused, EmitCall, EmitParts, ReasoningBlock, CallMarks, PartsText, RefusalOf, Reasoned, HasAudio;
    assert o.refusal + "" == o.refusal && Flat(o.content) + [] == Flat(o.content);
    if item.head.kind == Some("reasoning") {
      ReasoningEmitted(c, omit, s, item);
      if ReasoningBlock(s, item).value.Some? { FlatSnoc(o.content, ReasoningBlock(s, item).value.value); }
    } else if item.head.kind == Some("function_call") {
      CallEmitted(c, s, p, o, item.head);
    } else if item.head.kind == Some("message") {
      PartsMarks(c, o, item.content);
    } else {
      PushMarks(o, "[generated image omitted]");
      PushMarks(o, c.itemText(item));
    }
  }

  predicate AnyCut(p: Payload, items: seq<OutItem>)
    requires p.output.Some?
  {
    exists i :: 0 <= i < |items| && CutCall(p, items[i])
  }

  lemma {:induction false} ItemsEmitted(c: Codec, omit: bool, s: Setting, p: Payload, items: seq<OutItem>)
    requires p.output.Some? && s.codec == c && s.omit == omit && s.incomplete == Incomplete(p) && s.preempted == Refused(p)
    requires EmitItems(s, items).Some?
    ensures var o := EmitItems(s, items).value;
            && Flat(o.content) == OutputMarks(c, omit, p, items, false)
            && o.audio == NotedIn(items, false) && o.refusal == RefusalIn(items) && o.incompleteCall == AnyCut(p, items)
    decreases |items|
  {
    hide EmitItem, ItemMarks, Noted, Refused, CutCall, Flat, OutputMarks, NotedIn, RefusalIn, AnyCut, RefusalOf;
    if items == [] {
      NothingEmitted(c, omit, p);
    } else {
      var init, last := items[..|items| - 1], items[|items| - 1];
      ItemsEmitted(c, omit, s, p, init);
      ItemEmitted(c, omit, s, p, EmitItems(s, init).value, last);
      assert items == init + [last];
      ItemsSnoc(c, omit, p, init, last, false);
      AnyCutSnoc(p, init, last);
    }
  }

  lemma NothingEmitted(c: Codec, omit: bool, p: Payload)
    requires p.output.Some?
    ensures Flat([]) == OutputMarks(c, omit, p, [], false) == [] && !NotedIn([], false) && RefusalIn([]) == "" && !AnyCut(p, [])
  {
  }

  lemma AnyCutSnoc(p: Payload, items: seq<OutItem>, item: OutItem)
    requires p.output.Some?
    ensures AnyCut(p, items + [item]) <==> AnyCut(p, items) || CutCall(p, item)
  {
    hide CutCall;
    var all := items + [item];
    if AnyCut(p, items) {
      var i :| 0 <= i < |items| && CutCall(p, items[i]);
      assert CutCall(p, all[i]);
    }
    if CutCall(p, item) { assert CutCall(p, all[|items|]); }
    if AnyCut(p, all) {
      var i :| 0 <= i < |all| && CutCall(p, all[i]);
      if i < |items| { assert CutCall(p, items[i]); }
    }
  }

  // ---- the message ----

  lemma {:induction false} SomeRefusal(items: seq<OutItem>)
    ensures HasRefusal(items) <==> RefusalIn(items) != ""
    decreases |items|
  {
    hide RefusesIn;
    if items != [] {
      SomeRefusal(items[1..]);
      PartRefuses(items[0].content);
      assert RefusesIn(items[0]) <==> IsMessage(items[0]) && RefusalOf(items[0].content) != "" by { RefusesExactly(items[0]); }
      if HasRefusal(items) {
        var i :| 0 <= i < |items| && RefusesIn(items[i]);
        if i > 0 { assert RefusesIn(items[1..][i - 1]); }
      }
      if RefusesIn(items[0]) { assert HasRefusal(items); }
      if HasRefusal(items[1..]) {
        var i :| 0 <= i < |items[1..]| && RefusesIn(items[1..][i]);
        assert RefusesIn(items[i + 1]);
      }
    }
  }

  lemma RefusesExactly(item: OutItem)
    ensures RefusesIn(item) <==> IsMessage(item) && RefusalOf(item.content) != ""
  {
    PartRefuses(item.content);
    hide RefusalOf;
  }

  lemma {:induction false} PartRefuses(parts: seq<Body>)
    ensures (exists i :: 0 <= i < |parts| && IsRefusalPart(parts[i])) <==> RefusalOf(parts) != ""
    decreases |parts|
  {
    if parts != [] {
      PartRefuses(parts[1..]);
      if i :| 0 <= i < |parts| && IsRefusalPart(parts[i]) {
        if i > 0 { assert IsRefusalPart(parts[1..][i - 1]); }
      }
      if i :| 0 <= i < |parts[1..]| && IsRefusalPart(parts[1..][i]) {
        assert IsRefusalPart(parts[i + 1]);
      }
      if IsRefusalPart(parts[0]) { assert exists i :: 0 <= i < |parts| && IsRefusalPart(parts[i]); }
    }
  }

  lemma {:induction false} ToldConcat(a: seq<Mark>, b: seq<Mark>)
    ensures AllTold(a + b) == AllTold(a) + AllTold(b)
    decreases |a|
  {
    hide Told;
    if a == [] {
      assert a + b == b;
    } else {
      assert (a + b)[0] == a[0] && (a + b)[1..] == a[1..] + b;
      ToldConcat(a[1..], b);
      Assoc(Told(a[0]), AllTold(a[1..]), AllTold(b));
    }
  }

  lemma {:induction false} CharsStay(t: seq<Mark>)
    requires forall i :: 0 <= i < |t| ==> !t[i].Uses?
    ensures AllTold(t) == t
    decreases |t|
  {
    if t != [] {
      CharsStay(t[1..]);
      assert t == [t[0]] + t[1..];
    }
  }

  lemma DiagnosedMarks(b: Anthropic.Block)
    ensures BlockMarks(Diagnosed(Diagnosis.Incomplete, b)) == AllTold(BlockMarks(b))
  {
    if b.Text? || b.Thinking? {
      CharsStay(BlockMarks(b));
    } else {
      assert [Uses(b)][1..] == [] && AllTold([]) == [];
      assert Told(Uses(b)) + [] == Told(Uses(b));
    }
  }

  lemma {:induction false} AllDiagnosedMarks(blocks: seq<Anthropic.Block>)
    ensures Flat(DiagnosedAll(Diagnosis.Incomplete, blocks)) == AllTold(Flat(blocks))
    decreases |blocks|
  {
    hide BlockMarks;
    if blocks != [] {
      var init, last := blocks[..|blocks| - 1], blocks[|blocks| - 1];
      AllDiagnosedMarks(init);
      DiagnosedMarks(last);
      var all := DiagnosedAll(Diagnosis.Incomplete, blocks);
      assert all[..|all| - 1] == DiagnosedAll(Diagnosis.Incomplete, init);
      ToldConcat(Flat(init), BlockMarks(last));
    }
  }

  // ---- thinking and calls ----

  // The blocks of an item that are no text: its thinking with the replay signature, or its call.
  function SolidItem(c: Codec, omit: bool, p: Payload, item: OutItem): seq<Anthropic.Block>
    requires p.output.Some?
  {
    match item.head.kind
    case Some("reasoning") =>
      if omit && !item.head.encrypted.Given() then []
      else [Anthropic.Thinking(if omit then "" else Reasoned(item), c.sign(item, !omit))]
    case Some("function_call") => if Refused(p) || CutOff(p, item.head) then [] else [CallBlock(c, item.head)]
    case _ => []
  }

  function SolidItems(c: Codec, omit: bool, p: Payload, items: seq<OutItem>): seq<Anthropic.Block>
    requires p.output.Some?
  {
    if items == [] then [] else SolidItem(c, omit, p, items[0]) + SolidItems(c, omit, p, items[1..])
  }

  // Without the calls.
  function ThinkingOnly(blocks: seq<Anthropic.Block>): seq<Anthropic.Block>
    decreases |blocks|
  {
    if blocks == [] then []
    else ThinkingOnly(blocks[..|blocks| - 1]) + if blocks[|blocks| - 1].ToolUse? then [] else [blocks[|blocks| - 1]]
  }

  lemma {:induction false} SolidItemsSnoc(c: Codec, omit: bool, p: Payload, items: seq<OutItem>, item: OutItem)
    requires p.output.Some?
    ensures SolidItems(c, omit, p, items + [item]) == SolidItems(c, omit, p, items) + SolidItem(c, omit, p, item)
    decreases |items|
  {
    hide SolidItem;
    if items == [] {
      assert [] + [item] == [item] && [item][1..] == [];
    } else {
      assert (items + [item])[0] == items[0] && (items + [item])[1..] == items[1..] + [item];
      SolidItemsSnoc(c, omit, p, items[1..], item);
      Assoc(SolidItem(c, omit, p, items[0]), SolidItems(c, omit, p, items[1..]), SolidItem(c, omit, p, item));
    }
  }

  lemma SolidText(o: Emitted, t: string)
    ensures Solid(PushText(o, t).content) == Solid(o.content)
  {
    SolidSnoc(o.content, Anthropic.Text(t));
  }

  lemma {:induction false} SolidNotes(c: Codec, o: Emitted, notes: seq<string>)
    ensures Solid(EmitAnnotations(c, o, notes).content) == Solid(o.content)
    decreases |notes|
  {
    hide Solid;
    if notes != [] {
      SolidNotes(c, o, notes[..|notes| - 1]);
      SolidText(EmitAnnotations(c, o, notes[..|notes| - 1]), c.annotationText(notes[|notes| - 1]));
    }
  }

  lemma SolidPart(c: Codec, o: Emitted, part: Body)
    ensures Solid(EmitPartText(c, o, part).content) == Solid(o.content)
  {
    hide Solid;
    SolidText(o, PartText(c, part, o.audio));
    SolidText(o.(refusal := o.refusal + part.refusal.GetOr("")), part.refusal.GetOr(""));
    SolidText(o.(audio := true), "[generated audio omitted]");
    SolidText(PushText(o.(audio := true), "[generated audio omitted]"), part.transcript.GetOr(""));
    SolidText(o, part.transcript.GetOr(""));
  }

  lemma {:induction false} SolidParts(c: Codec, o: Emitted, parts: seq<Body>)
    ensures Solid(EmitParts(c, o, parts).content) == Solid(o.content)
    decreases |parts|
  {
    hide Solid, EmitPartText, EmitAnnotations;
    if parts != [] {
      var before, last := EmitParts(c, o, parts[..|parts| - 1]), parts[|parts| - 1];
      SolidParts(c, o, parts[..|parts| - 1]);
      SolidPart(c, before, last);
      SolidNotes(c, EmitPartText(c, before, last), last.annotations.GetOr([]));
    }
  }

  lemma SolidEmitted(c: Codec, omit: bool, s: Setting, p: Payload, o: Emitted, item: OutItem)
    requires p.output.Some? && s.codec == c && s.omit == omit && s.incomplete == Incomplete(p) && s.preempted == Refused(p)
    requires EmitItem(s, o, item).Some?
    ensures Solid(EmitItem(s, o, item).value.content) == Solid(o.content) + SolidItem(c, omit, p, item)
  {
    hide Solid, Refused, EmitParts, TextsOf, ReasoningText, SummaryText, Bounded;
    assert Solid(o.content) + [] == Solid(o.content);
    if item.head.kind == Some("reasoning") {
      TextsAre(item.content);
      TextsAre(item.summary);
      if ReasoningBlock(s, item).value.Some? { SolidSnoc(o.content, ReasoningBlock(s, item).value.value); }
    } else if item.head.kind == Some("function_call") {
      SolidCall(c, s, p, o, item.head);
      hide EmitCall, CallBlock;
    } else if item.head.kind == Some("message") {
      SolidParts(c, o, item.content);
    } else {
      SolidText(o, "[generated image omitted]");
      SolidText(o, c.itemText(item));
    }
  }

  lemma SolidCall(c: Codec, s: Setting, p: Payload, o: Emitted, h: Head)
    requires p.output.Some? && s.codec == c && s.incomplete == Incomplete(p) && s.preempted == Refused(p) && EmitCall(s, o, h).Some?
    ensures Solid(EmitCall(s, o, h).value.content)
            == Solid(o.content) + if Refused(p) || CutOff(p, h) then [] else [CallBlock(c, h)]
  {
    hide Solid, Refused, Bounded;
    var name, raw := Given(h.name).GetOr("unknown"), RawArguments(h.arguments);
    SolidSnoc(o.content, SuppressedCall(name, raw));
    SolidSnoc(o.content, IncompleteCall(name, raw));
    SolidSnoc(o.content, CallBlock(c, h));
    assert Solid(o.content) + [] == Solid(o.content);
  }

  lemma {:induction false} SolidsEmitted(c: Codec, omit: bool, s: Setting, p: Payload, items: seq<OutItem>)
    requires p.output.Some? && s.codec == c && s.omit == omit && s.incomplete == Incomplete(p) && s.preempted == Refused(p)
    requires EmitItems(s, items).Some?
    ensures Solid(EmitItems(s, items).value.content) == SolidItems(c, omit, p, items)
    decreases |items|
  {
    hide EmitItem, SolidItem, Refused, Solid;
    if items == [] {
      assert Solid([]) == [] by { SolidSnoc([], Anthropic.Text("")); }
    } else {
      var init, last := items[..|items| - 1], items[|items| - 1];
      SolidsEmitted(c, omit, s, p, init);
      SolidEmitted(c, omit, s, p, EmitItems(s, init).value, last);
      assert items == init + [last];
      SolidItemsSnoc(c, omit, p, init, last);
    }
  }

  lemma {:induction false} SolidDiagnosed(blocks: seq<Anthropic.Block>)
    ensures Solid(DiagnosedAll(Diagnosis.Incomplete, blocks)) == ThinkingOnly(Solid(blocks))
    decreases |blocks|
  {
    hide Solid;
    if blocks == [] {
      SolidSnoc([], Anthropic.Text(""));
    } else {
      var init, last := blocks[..|blocks| - 1], blocks[|blocks| - 1];
      SolidDiagnosed(init);
      var all := DiagnosedAll(Diagnosis.Incomplete, init);
      assert DiagnosedAll(Diagnosis.Incomplete, blocks) == all + [Diagnosed(Diagnosis.Incomplete, last)];
      assert blocks == init + [last];
      SolidSnoc(all, Diagnosed(Diagnosis.Incomplete, last));
      SolidSnoc(init, last);
      var solid, thinking := Solid(init), ThinkingOnly(Solid(init));
      assert (solid + [last])[..|solid|] == solid && solid + [] == solid && thinking + [] == thinking;
    }
  }

  lemma {:induction false} SolidHasTheTools(blocks: seq<Anthropic.Block>)
    ensures Anthropic.NoToolUse(Solid(blocks)) <==> Anthropic.NoToolUse(blocks)
    decreases |blocks|
  {
    if blocks != [] {
      hide Anthropic.NoToolUse;
      var init, last := blocks[..|blocks| - 1], blocks[|blocks| - 1];
      SolidHasTheTools(init);
      assert blocks == init + [last] && Solid(init) + [] == Solid(init);
      Anthropic.NoToolUseSnoc(init, last);
      Anthropic.NoToolUseSnoc(Solid(init), last);
    }
  }

  // ---- what the message says ----

  // Cut off, by its status or because a call was; refused, by a refusal or because the content filter cut it off.
  predicate CutShort(p: Payload)
    requires p.output.Some?
  {
    Incomplete(p) || AnyCut(p, p.output.value)
  }

  function StopTold(p: Payload): Anthropic.Stop
    requires p.output.Some?
  {
    var refusal := RefusalIn(p.output.value);
    if refusal != "" || (CutShort(p) && p.incompleteReason == Some("content_filter")) then
      Anthropic.Stop("refusal", Some(if refusal == "" then None else Some(refusal)), p.usage)
    else
      Anthropic.Stop(if CutShort(p) then "max_tokens" else if AnyCall(p.output.value) then "tool_use" else "end_turn",
                     None, p.usage)
  }

  lemma NoToolsLeft(blocks: seq<Anthropic.Block>)
    ensures Anthropic.NoToolUse(blocks) ==> DiagnosedAll(Suppressed, blocks) == blocks
  {
  }

  lemma ContentSaid(c: Codec, omit: bool, p: Payload)
    requires Transform(c, omit, p).Some?
    ensures p.output.Some?
    ensures var marks := OutputMarks(c, omit, p, p.output.value, false);
            Flat(Transform(c, omit, p).value.content) == (if AnyCut(p, p.output.value) then AllTold(marks) else marks)
  {
    var s, items := SettingFor(c, omit, p), p.output.value;
    SomeRefusal(items);
    hide Flat, OutputMarks, AllTold, EmitItems, RefusalIn, AnyCut, HasRefusal, Anthropic.Joined, Anthropic.NoToolUse, Diagnosed;
    ItemsEmitted(c, omit, s, p, items);
    var o := EmitItems(s, items).value;
    var diagnosed := if o.incompleteCall then DiagnosedAll(Diagnosis.Incomplete, o.content) else o.content;
    AllDiagnosedMarks(o.content);
    if s.incomplete || s.preempted { CallsHeldBack(s, items); }
    DiagnosedHasNoTools(Diagnosis.Incomplete, o.content);
    NoToolsLeft(diagnosed);
    FlatJoined(diagnosed);
  }

  // Its thinking and its calls are those of the output, in order, one each; the calls unless one was cut off.
  lemma SolidSaid(c: Codec, omit: bool, p: Payload)
    requires Transform(c, omit, p).Some?
    ensures p.output.Some?
    ensures var solid := SolidItems(c, omit, p, p.output.value);
            Solid(Transform(c, omit, p).value.content) == if AnyCut(p, p.output.value) then ThinkingOnly(solid) else solid
  {
    var s, items := SettingFor(c, omit, p), p.output.value;
    SomeRefusal(items);
    hide Flat, OutputMarks, AllTold, EmitItems, RefusalIn, AnyCut, HasRefusal, Anthropic.Joined, Anthropic.NoToolUse, Diagnosed,
         Solid, ThinkingOnly, SolidItems;
    ItemsEmitted(c, omit, s, p, items);
    SolidsEmitted(c, omit, s, p, items);
    var o := EmitItems(s, items).value;
    var diagnosed := if o.incompleteCall then DiagnosedAll(Diagnosis.Incomplete, o.content) else o.content;
    SolidDiagnosed(o.content);
    if s.incomplete || s.preempted { CallsHeldBack(s, items); }
    DiagnosedHasNoTools(Diagnosis.Incomplete, o.content);
    NoToolsLeft(diagnosed);
    SolidJoined(diagnosed);
  }

  predicate AnyCall(items: seq<OutItem>) { exists i :: 0 <= i < |items| && IsCall(items[i]) }

  lemma {:induction false} CallsAreSolid(c: Codec, omit: bool, p: Payload, items: seq<OutItem>)
    requires p.output.Some? && !Refused(p) && !AnyCut(p, items)
    ensures Anthropic.NoToolUse(SolidItems(c, omit, p, items)) <==> !AnyCall(items)
    decreases |items|
  {
    if items != [] {
      var item, rest := items[0], items[1..];
      assert !CutCall(p, item);
      assert !AnyCut(p, rest) by { forall i | 0 <= i < |rest| ensures !CutCall(p, rest[i]) { assert rest[i] == items[i + 1]; } }
      CallsAreSolid(c, omit, p, rest);
      hide Refused, CutOff, CallBlock, Reasoned, Anthropic.NoToolUse;
      Anthropic.NoToolUseConcat(SolidItem(c, omit, p, item), SolidItems(c, omit, p, rest));
      OneSolid(c, omit, p, item);
      AnyCallCons(items);
    }
  }

  lemma OneSolid(c: Codec, omit: bool, p: Payload, item: OutItem)
    requires p.output.Some? && !Refused(p) && !CutCall(p, item)
    ensures Anthropic.NoToolUse(SolidItem(c, omit, p, item)) <==> !IsCall(item)
  {
    hide Refused, CutOff;
    if IsCall(item) { assert SolidItem(c, omit, p, item)[0] == CallBlock(c, item.head); }
  }

  lemma AnyCallCons(items: seq<OutItem>)
    requires items != []
    ensures AnyCall(items) <==> IsCall(items[0]) || AnyCall(items[1..])
  {
    hide IsCall;
    if i :| 0 <= i < |items| && IsCall(items[i]) {
      if i > 0 { assert IsCall(items[1..][i - 1]); }
    }
    if i :| 0 <= i < |items[1..]| && IsCall(items[1..][i]) { assert IsCall(items[i + 1]); }
  }

  lemma StopsForCalls(c: Codec, omit: bool, p: Payload)
    requires Transform(c, omit, p).Some? && p.output.Some? && !Refused(p) && !CutShort(p)
    ensures Anthropic.NoToolUse(Transform(c, omit, p).value.content) <==> !AnyCall(p.output.value)
  {
    hide Solid, Transform, Refused, AnyCut, AnyCall, SolidItems, Anthropic.NoToolUse;
    SolidSaid(c, omit, p);
    SolidHasTheTools(Transform(c, omit, p).value.content);
    CallsAreSolid(c, omit, p, p.output.value);
  }

  // The reasoning (unless it is omitted), the texts of the parts with their annotations, placeholders and calls of the
  // output items, in order; all calls are told as text when one was cut off or something was refused.
  lemma ResponsesSay(c: Codec, omit: bool, p: Payload)
    requires Transform(c, omit, p).Some?
    ensures p.output.Some?
    ensures var m, marks := Transform(c, omit, p).value, OutputMarks(c, omit, p, p.output.value, false);
            && Flat(m.content) == (if AnyCut(p, p.output.value) then AllTold(marks) else marks)
            && m.stop == StopTold(p)
  {
    ContentSaid(c, omit, p);
    SomeRefusal(p.output.value);
    ItemsEmitted(c, omit, SettingFor(c, omit, p), p, p.output.value);
    hide Flat, OutputMarks, AllTold, EmitItems, RefusalIn, AnyCut, HasRefusal, Anthropic.Joined, Anthropic.NoToolUse, AnyCall,
         DiagnosedAll;
    if !Refused(p) && !CutShort(p) { StopsForCalls(c, omit, p); }
  }

  // A call that is made has an id, a name and an object for arguments; without one of them there is no message.
  lemma {:induction false} CallsAreWhole(c: Codec, omit: bool, p: Payload, i: nat)
    requires Transform(c, omit, p).Some? && p.output.Some? && i < |p.output.value| && IsCall(p.output.value[i])
    requires !Refused(p) && !CutOff(p, p.output.value[i].head)
    ensures var h := p.output.value[i].head;
            IdOf(h) != "" && TextOfField(h.name) != "" && c.parseObject(ArgumentsOf(h)).Some?
  {
    SomeRefusal(p.output.value);
    hide RefusalIn, HasRefusal;
    CallWhole(c, SettingFor(c, omit, p), p.output.value, i);
  }

  lemma {:induction false} CallWhole(c: Codec, s: Setting, items: seq<OutItem>, i: nat)
    requires s.codec == c && EmitItems(s, items).Some? && i < |items| && IsCall(items[i])
    requires !s.preempted && !s.incomplete && items[i].head.status != Str("incomplete")
    ensures var h := items[i].head;
            IdOf(h) != "" && TextOfField(h.name) != "" && c.parseObject(ArgumentsOf(h)).Some?
    decreases |items|
  {
    if i < |items| - 1 { CallWhole(c, s, items[..|items| - 1], i); }
  }

  // ---- when there is a message ----

  // Reasoning can be replayed, a call can be made (unless it is held back), and nothing is of a kind that has no counterpart.
  predicate CanBeSaid(c: Codec, omit: bool, p: Payload, item: OutItem)
    requires p.output.Some?
  {
    var h := item.head;
    match h.kind
    case Some("program") => false
    case Some("program_output") => false
    case Some("compaction") => false
    case Some("function_call_output") => false
    case Some("reasoning") => TextOfField(h.id) != "" && (omit && TextOfField(h.encrypted) == "" ==> Reasoned(item) == "")
    case Some("function_call") =>
      && (h.caller.Str? ==> h.caller.text == "direct")
      && (!Refused(p) && !CutOff(p, h) ==>
            IdOf(h) != "" && TextOfField(h.name) != "" && h.arguments != Null && c.parseObject(ArgumentsOf(h)).Some?)
    case _ => true
  }

  ghost predicate AllCanBeSaid(c: Codec, omit: bool, p: Payload, items: seq<OutItem>)
    requires p.output.Some?
  {
    forall i :: 0 <= i < |items| ==> CanBeSaid(c, omit, p, items[i])
  }

  lemma ReasonedIs(item: OutItem)
    ensures ReasoningOf(item) == Reasoned(item)
  {
    TextsAre(item.content);
    TextsAre(item.summary);
    hide ReasoningText, SummaryText, TextsOf;
  }

  lemma ItemSaidExactly(c: Codec, omit: bool, s: Setting, p: Payload, o: Emitted, item: OutItem)
    requires p.output.Some? && s.codec == c && s.omit == omit && s.incomplete == Incomplete(p) && s.preempted == Refused(p)
    ensures EmitItem(s, o, item).Some? <==> CanBeSaid(c, omit, p, item)
  {
    ReasonedIs(item);
    hide Refused, Reasoned, ReasoningOf, EmitParts, Bounded;
    assert RawArguments(item.head.arguments) == ArgumentsOf(item.head);
  }

  lemma {:induction false} ItemsSaidExactly(c: Codec, omit: bool, s: Setting, p: Payload, items: seq<OutItem>)
    requires p.output.Some? && s.codec == c && s.omit == omit && s.incomplete == Incomplete(p) && s.preempted == Refused(p)
    ensures EmitItems(s, items).Some? <==> AllCanBeSaid(c, omit, p, items)
    decreases |items|
  {
    hide EmitItem, CanBeSaid, Refused;
    if items != [] {
      var init, last := items[..|items| - 1], items[|items| - 1];
      ItemsSaidExactly(c, omit, s, p, init);
      if EmitItems(s, init).Some? { ItemSaidExactly(c, omit, s, p, EmitItems(s, init).value, last); }
      assert AllCanBeSaid(c, omit, p, items) <==> AllCanBeSaid(c, omit, p, init) && CanBeSaid(c, omit, p, last) by {
        assert forall i :: 0 <= i < |init| ==> items[i] == init[i];
      }
    }
  }

  // There is a message if and only if the payload has no error, a status that ends well, an output, and every item of it can
  // be said.
  lemma TransformsExactly(c: Codec, omit: bool, p: Payload)
    ensures Transform(c, omit, p).Some?
            <==> p.error.None? && (p.status == Some("completed") || p.status == Some("incomplete")) && p.output.Some?
                 && AllCanBeSaid(c, omit, p, p.output.value)
  {
    if p.output.Some? {
      SomeRefusal(p.output.value);
      hide RefusalIn, HasRefusal, EmitItems, AllCanBeSaid;
      ItemsSaidExactly(c, omit, SettingFor(c, omit, p), p, p.output.value);
    }
  }
}
