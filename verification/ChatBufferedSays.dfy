// The buffered Chat message against the fields of the events it came from.
module ChatBufferedSays {
  import opened Wrappers
  import opened ChatEvents
  import opened ChatLiveSpec
  import opened ChatBufferedSpec
  import opened ChatTools
  import opened ChatTranscript
  import opened ChatSays
  import opened Anthropic
  import opened Marks

  // Events with string finish reasons and without the legacy call, which the buffered path keeps apart.
  predicate PlainEvent(e: Event) {
    e.Event? && e.choice.Some? ==> !e.choice.value.finish.OddFinish? && e.choice.value.delta.functionCall.None?
  }

  // Annotations come before calls here.
  function WholeMarks(c: Context, calls: Calls, d: Delta, seen: set<nat>): seq<Mark> {
    HeadMarks(c, d) + Chars(NoteText(d)) + CallMarks(calls, d.toolCalls, seen)
  }

  function WholeTranscript(c: Context, calls: Calls, deltas: seq<Delta>, seen: set<nat>): seq<Mark>
    decreases |deltas|
  {
    if deltas == [] then []
    else WholeMarks(c, calls, deltas[0], seen) + WholeTranscript(c, calls, deltas[1..], SeenWithDelta(deltas[0], seen))
  }

  // A call as it is made, without the empty object for missing arguments; or what is said of it.
  function CallWhole(c: Context, fs: seq<Fragment>, makes: bool): seq<Mark> {
    var name := c.names.Original(if Named("", fs) == "" then "unknown" else Named("", fs));
    if makes then [Uses(ToolUse(FirstId(fs), name, c.codec.parseObject(Spelled(fs)).GetOr("")))]
    else
      Chars("[incomplete tool_use " + name + ": "
            + (if |Spelled(fs)| > 4096 then Spelled(fs)[..4096] + ['\U{2026}'] else Spelled(fs)) + "]")
  }

  function CallsWhole(c: Context, heard: seq<Delta>, makes: bool): Calls { (i: nat) => CallWhole(c, FragmentsIn(heard, i), makes) }

  // ---- what has been collected ----

  lemma {:induction false} FlatPartsSame(c: Context, calls: Calls, a: seq<Semantic>, b: seq<Semantic>)
    requires |a| == |b| && forall k :: 0 <= k < |a| ==> PartMarks(c, calls, a[k]) == PartMarks(c, calls, b[k])
    ensures FlatParts(c, calls, a) == FlatParts(c, calls, b)
    decreases |a|
  {
    hide PartMarks;
    if a != [] { FlatPartsSame(c, calls, a[..|a| - 1], b[..|b| - 1]); }
  }

  lemma SealedMarks(c: Context, calls: Calls, parts: seq<Semantic>, signature: string)
    ensures FlatParts(c, calls, Sealed(parts, signature)) == FlatParts(c, calls, parts)
    ensures Sealed(parts, signature) != []
  {
    hide FlatParts;
    match LastThinking(parts)
    case None => SignatureMarks(c, calls, parts, signature);
    case Some(i) => FlatPartsSame(c, calls, parts, Sealed(parts, signature));
  }

  lemma CollectTold(c: Context, calls: Calls, b: Collected, p: Piece)
    requires Collect(b, p).Some? && !p.Legacy?
    ensures var next := Collect(b, p).value;
            && FlatParts(c, calls, next.blocks) == FlatParts(c, calls, b.blocks) + PieceMarks(c, calls, p, b.tools.Keys)
            && next.tools.Keys == SeenWith(p, b.tools.Keys)
            && next.refusal == b.refusal + (if p.Refuse? then p.text else "")
            && next.usage == b.usage && next.legacy == b.legacy && next.finish == b.finish
  {
    hide FlatParts, AddText, AddThinking, MergedTool, Sealed;
    assert FlatParts(c, calls, b.blocks) + [] == FlatParts(c, calls, b.blocks);
    match p {
      case Reasoning(t) => AddMarks(c, calls, b.blocks, t); AddsSome(b.blocks, t);
      case Say(t) => AddMarks(c, calls, b.blocks, t); AddsSome(b.blocks, t);
      case Refuse(t) => AddMarks(c, calls, b.blocks, t); AddsSome(b.blocks, t);
      case Signature(s) => SealedMarks(c, calls, b.blocks, s);
      case Tool(d) => FlatPartsSnoc(c, calls, b.blocks, ToolAt(d.index));
    }
  }

  lemma AddsSome(parts: seq<Semantic>, t: string)
    ensures AddText(parts, t) != [] && AddThinking(parts, t) != []
  {
  }

  // Whatever was called left a block behind, and blocks name only calls.
  ghost predicate Kept(b: Collected) {
    (b.tools != map[] ==> b.blocks != []) && forall i: nat :: ToolAt(i) in b.blocks ==> i in b.tools
  }

  lemma AddsNoTool(parts: seq<Semantic>, t: string)
    ensures forall i: nat :: ToolAt(i) in AddText(parts, t) ==> ToolAt(i) in parts
    ensures forall i: nat :: ToolAt(i) in AddThinking(parts, t) ==> ToolAt(i) in parts
    ensures forall i: nat :: ToolAt(i) in Sealed(parts, t) ==> ToolAt(i) in parts
  {
  }

  lemma CollectKeeps(b: Collected, p: Piece)
    requires Collect(b, p).Some? && !p.Legacy? && Kept(b)
    ensures Kept(Collect(b, p).value) && Collect(b, p).value.blocks != []
  {
    hide MergedTool, AddText, AddThinking;
    match p {
      case Reasoning(t) => AddsSome(b.blocks, t); AddsNoTool(b.blocks, t);
      case Say(t) => AddsSome(b.blocks, t); AddsNoTool(b.blocks, t);
      case Refuse(t) => AddsSome(b.blocks, t); AddsNoTool(b.blocks, t);
      case Signature(s) => AddsNoTool(b.blocks, s);
      case Tool(d) =>
    }
  }

  lemma CollectAt(b: Collected, p: Piece, i: nat, fs: seq<Fragment>)
    requires HoldsAt(b.tools, i, fs) && Collect(b, p).Some? && !p.Legacy?
    ensures HoldsAt(Collect(b, p).value.tools, i, fs + PieceFragments(p, i))
  {
    assert fs + [] == fs;
    hide MergedTool, Assembled, OneId;
    match p {
      case Tool(d) => if d.index == i {
        AssembledNothing();
        MergeAssembles(fs, d);
      }
      case _ =>
    }
  }

  predicate NoLegacy(pieces: seq<Piece>) { forall p :: p in pieces ==> !p.Legacy? }

  lemma {:induction false} CollectAllTold(c: Context, calls: Calls, b: Collected, pieces: seq<Piece>)
    requires CollectAll(b, pieces).Some? && NoLegacy(pieces) && Kept(b)
    ensures var next := CollectAll(b, pieces).value;
            && FlatParts(c, calls, next.blocks) == FlatParts(c, calls, b.blocks) + PiecesMarks(c, calls, pieces, b.tools.Keys)
            && next.tools.Keys == SeenAfter(pieces, b.tools.Keys)
            && next.refusal == b.refusal + RefusedBy(pieces)
            && (next.blocks == [] <==> b.blocks == [] && pieces == [])
            && Kept(next) && next.usage == b.usage && next.legacy == b.legacy && next.finish == b.finish
    decreases |pieces|
  {
    hide FlatParts, Collect, PieceMarks, SeenWith, Kept;
    if pieces == [] {
      assert FlatParts(c, calls, b.blocks) + [] == FlatParts(c, calls, b.blocks) && b.refusal + "" == b.refusal;
    } else {
      var p, rest := pieces[0], pieces[1..];
      assert p in pieces && NoLegacy(rest);
      CollectTold(c, calls, b, p);
      CollectKeeps(b, p);
      var next := Collect(b, p).value;
      CollectAllTold(c, calls, next, rest);
      Assoc(FlatParts(c, calls, b.blocks), PieceMarks(c, calls, p, b.tools.Keys), PiecesMarks(c, calls, rest, next.tools.Keys));
      Assoc(b.refusal, if p.Refuse? then p.text else "", RefusedBy(rest));
    }
  }

  lemma {:induction false} CollectAllAt(b: Collected, pieces: seq<Piece>, i: nat, fs: seq<Fragment>)
    requires HoldsAt(b.tools, i, fs) && CollectAll(b, pieces).Some? && NoLegacy(pieces)
    ensures HoldsAt(CollectAll(b, pieces).value.tools, i, fs + PiecesFragments(pieces, i))
    decreases |pieces|
  {
    hide HoldsAt, Collect, PieceFragments;
    if pieces == [] {
      assert fs + [] == fs;
    } else {
      assert pieces[0] in pieces && NoLegacy(pieces[1..]);
      CollectAt(b, pieces[0], i, fs);
      CollectAllAt(Collect(b, pieces[0]).value, pieces[1..], i, fs + PieceFragments(pieces[0], i));
      Assoc(fs, PieceFragments(pieces[0], i), PiecesFragments(pieces[1..], i));
    }
  }

  // ---- one delta, in the order of the buffered path ----

  lemma PiecesWithoutLegacy(d: Delta)
    requires d.functionCall.None?
    ensures NoLegacy(BufferedPieces(d))
  {
    HeadAndNotesSpeak(d);
    assert forall p :: p in ToolList(d.toolCalls) ==> p.Tool?;
    hide HeadPieces, NotePieces, ToolList;
  }

  lemma WholePieces(c: Context, calls: Calls, d: Delta, seen: set<nat>)
    requires d.functionCall.None?
    ensures PiecesMarks(c, calls, BufferedPieces(d), seen) == WholeMarks(c, calls, d, seen)
    ensures SeenAfter(BufferedPieces(d), seen) == SeenWithDelta(d, seen)
  {
    var head, tool, note := HeadPieces(d), ToolPieces(d), NotePieces(d);
    HeadPiecesMarks(c, calls, d, seen);
    NotePiecesMarks(c, calls, d, seen);
    ToolPiecesMarks(c, calls, d, seen);
    assert LegacyMarks(calls, d, seen + SeenIn(d.toolCalls)) == [];
    hide PiecesMarks, SeenAfter, HeadPieces, ToolPieces, NotePieces, HeadMarks, CallMarks, LegacyMarks, SeenIn, NoteText;
    PiecesMarksConcat(c, calls, head + note, tool, seen);
    PiecesMarksConcat(c, calls, head, note, seen);
    assert CallMarks(calls, d.toolCalls, seen) + [] == CallMarks(calls, d.toolCalls, seen);
  }

  lemma WholeRefusal(d: Delta)
    ensures RefusedBy(BufferedPieces(d)) == d.refusal.GetOr("")
    ensures BufferedPieces(d) == [] <==> Silent(d)
  {
    DeltaRefusal(d);
    SilentPieces(d);
    var head, tool, note := HeadPieces(d), ToolPieces(d), NotePieces(d);
    HeadAndNotesSpeak(d);
    assert forall p :: p in ToolList(d.toolCalls) ==> p.Tool?;
    assert forall p :: p in tool ==> !p.Refuse?;
    assert forall p :: p in note ==> !p.Refuse?;
    hide HeadPieces, ToolPieces, NotePieces, RefusedBy, Silent;
    NothingRefused(tool);
    NothingRefused(note);
    RefusedConcat(head + tool, note);
    RefusedConcat(head, tool);
    RefusedConcat(head + note, tool);
    RefusedConcat(head, note);
  }

  // ---- whole streams ----

  lemma CollectEventTold(c: Context, calls: Calls, b: Collected, e: Event, i: nat, fs: seq<Fragment>)
    requires CollectEvent(b, e).Some? && PlainEvent(e) && Kept(b) && HoldsAt(b.tools, i, fs)
    ensures var next := CollectEvent(b, e).value;
            && e.Event? && Kept(next) && next.legacy == b.legacy && next.usage == (if e.usage.Some? then e.usage else b.usage)
            && if b.finish != NoFinish || e.choice.None? then
                 && next.blocks == b.blocks && next.tools == b.tools && next.refusal == b.refusal && next.finish == b.finish
               else
                 var d := e.choice.value.delta;
                 && FlatParts(c, calls, next.blocks) == FlatParts(c, calls, b.blocks) + WholeMarks(c, calls, d, b.tools.Keys)
                 && next.tools.Keys == SeenWithDelta(d, b.tools.Keys)
                 && next.refusal == b.refusal + d.refusal.GetOr("")
                 && (next.blocks == [] <==> b.blocks == [] && Silent(d))
                 && next.finish == (if Finishes(e.choice.value.finish) then e.choice.value.finish else NoFinish)
                 && HoldsAt(next.tools, i, fs + FragmentsOf(d, i))
  {
    hide CollectAll, BufferedPieces, WholeMarks, SeenWithDelta, Silent, FlatParts, HoldsAt, FragmentsOf;
    if b.finish == NoFinish && e.choice.Some? {
      var d, h := e.choice.value.delta, HeaderOf(b, e);
      PiecesWithoutLegacy(d);
      CollectAllTold(c, calls, h, BufferedPieces(d));
      CollectAllAt(h, BufferedPieces(d), i, fs);
      DeltaFragments(d, i);
      WholePieces(c, calls, d, b.tools.Keys);
      WholeRefusal(d);
    }
  }

  function FinishOf(reason: Option<string>): Finish { if reason.Some? then StringFinish(reason.value) else NoFinish }

  lemma {:induction false} CollectEventsTold(c: Context, calls: Calls, b: Collected, events: seq<Event>, i: nat, fs: seq<Fragment>)
    requires CollectEvents(b, events).Some? && (forall e :: e in events ==> PlainEvent(e)) && Kept(b) && HoldsAt(b.tools, i, fs)
    ensures var next, heard := CollectEvents(b, events).value, if b.finish != NoFinish then [] else Heard(events);
            && FlatParts(c, calls, next.blocks) == FlatParts(c, calls, b.blocks) + WholeTranscript(c, calls, heard, b.tools.Keys)
            && next.tools.Keys == CallsSeen(heard, b.tools.Keys)
            && next.refusal == b.refusal + RefusalText(heard)
            && (next.blocks == [] <==> b.blocks == [] && AllSilent(heard))
            && next.usage == Usage(b.usage, events) && next.legacy == b.legacy && Kept(next)
            && next.finish == (if b.finish != NoFinish then b.finish else FinishOf(Reason(events)))
            && HoldsAt(next.tools, i, fs + FragmentsIn(heard, i))
    decreases |events|
  {
    hide CollectEvent, WholeMarks, SeenWithDelta, Silent, FlatParts, HoldsAt, FragmentsOf, Kept;
    assert FlatParts(c, calls, b.blocks) + [] == FlatParts(c, calls, b.blocks) && b.refusal + "" == b.refusal && fs + [] == fs;
    if events != [] {
      var e, next := events[0], CollectEvent(b, events[0]).value;
      assert PlainEvent(e);
      CollectEventTold(c, calls, b, e, i, fs);
      if b.finish == NoFinish && e.choice.Some? {
        var d, rest := e.choice.value.delta, if Finishes(e.choice.value.finish) then [] else Heard(events[1..]);
        var heard := [d] + rest;
        assert Heard(events) == heard && heard[1..] == rest && heard[0] == d;
        assert AllSilent(heard) <==> Silent(d) && AllSilent(rest);
        CollectEventsTold(c, calls, next, events[1..], i, fs + FragmentsOf(d, i));
        Assoc(FlatParts(c, calls, b.blocks), WholeMarks(c, calls, d, b.tools.Keys), WholeTranscript(c, calls, rest, next.tools.Keys));
        Assoc(b.refusal, d.refusal.GetOr(""), RefusalText(rest));
        Assoc(fs, FragmentsOf(d, i), FragmentsIn(rest, i));
      } else {
        CollectEventsTold(c, calls, next, events[1..], i, fs);
      }
    }
  }

  // The rendered blocks say what was collected.
  lemma {:induction false} RenderedMarks(c: Context, calls: Calls, tools: map<nat, ToolBuffer>, makes: bool, parts: seq<Semantic>,
                                         fs: nat -> seq<Fragment>)
    requires RenderAll(c, tools, !makes, parts).Some?
    requires forall i: nat :: ToolAt(i) in parts ==> ToolSoFar(tools, i) == Assembled(fs(i)) && calls(i) == CallWhole(c, fs(i), makes)
    ensures Flat(RenderAll(c, tools, !makes, parts).value) == FlatParts(c, calls, parts)
    decreases |parts|
  {
    hide RenderPart, CallWhole, Assembled, ToolSoFar, PartMarks, BlockMarks;
    if parts != [] {
      var init, last := parts[..|parts| - 1], Last(parts);
      assert last in parts;
      RenderedMarks(c, calls, tools, makes, init, fs);
      PartRendered(c, calls, tools, makes, last, fs);
      FlatSnoc(RenderAll(c, tools, !makes, init).value, RenderPart(c, tools, !makes, last).value);
    }
  }

  lemma PartRendered(c: Context, calls: Calls, tools: map<nat, ToolBuffer>, makes: bool, part: Semantic, fs: nat -> seq<Fragment>)
    requires RenderPart(c, tools, !makes, part).Some?
    requires part.ToolAt? ==>
               ToolSoFar(tools, part.index) == Assembled(fs(part.index)) && calls(part.index) == CallWhole(c, fs(part.index), makes)
    ensures BlockMarks(RenderPart(c, tools, !makes, part).value) == PartMarks(c, calls, part)
  {
    hide FirstId, Named, Spelled;
  }

  lemma CollectedTools(c: Context, events: seq<Event>)
    requires CollectEvents(NOTHING, events).Some? && forall e :: e in events ==> PlainEvent(e)
    ensures ToolsAre(CollectEvents(NOTHING, events).value.tools, Heard(events))
  {
    var b, heard := CollectEvents(NOTHING, events).value, Heard(events);
    hide CollectEvents, Heard;
    forall i: nat
      ensures (i in b.tools <==> FragmentsIn(heard, i) != []) && (i in b.tools ==> b.tools[i] == Assembled(FragmentsIn(heard, i)))
    {
      AssembledNothing();
      CollectEventsTold(c, (k: nat) => [], NOTHING, events, i, []);
      assert [] + FragmentsIn(heard, i) == FragmentsIn(heard, i);
    }
  }

  lemma Collecting(c: Context, calls: Calls, events: seq<Event>, sawDone: bool)
    requires CollectEvents(NOTHING, events).Some? && forall e :: e in events ==> PlainEvent(e)
    ensures var b, heard := CollectEvents(NOTHING, events).value, Heard(events);
            && FlatParts(c, calls, b.blocks) == WholeTranscript(c, calls, heard, {})
            && b.refusal == RefusalText(heard) && b.usage == Usage(None, events) && b.legacy.None? && Kept(b)
            && ToolsAre(b.tools, heard)
            && FinishFor(b, sawDone)
               == (if ReasonTold(events, sawDone).None? then None else Some(StringFinish(ReasonTold(events, sawDone).value)))
  {
    hide CollectEvents, WholeTranscript, AllSilent, CallsSeen, FragmentsIn, Heard, Reason, ToolsAre, RefusalText, Usage;
    var b, heard := CollectEvents(NOTHING, events).value, Heard(events);
    AssembledNothing();
    CollectEventsTold(c, calls, NOTHING, events, 0, []);
    CollectedTools(c, events);
    assert NOTHING.tools.Keys == {} && FlatParts(c, calls, []) == [];
    assert [] + WholeTranscript(c, calls, heard, {}) == WholeTranscript(c, calls, heard, {});
    assert "" + RefusalText(heard) == RefusalText(heard);
    assert b.tools == map[] <==> b.tools.Keys == {};
  }

  // The buffered message says what the events say, too: its annotations ahead of the calls of the same event, its calls
  // made unless the stream was cut off or refused.
  lemma BufferedSays(c: Context, freshId: string, events: seq<Event>, sawDone: bool)
    requires (forall e :: e in events ==> PlainEvent(e)) && ConvertBuffered(c, freshId, events, sawDone).Some?
    ensures ReasonTold(events, sawDone).Some?
    ensures var m, heard, reason := ConvertBuffered(c, freshId, events, sawDone).value, Heard(events), ReasonTold(events, sawDone).value;
            var makes := reason != "length" && reason != "content_filter" && RefusalText(heard) == "";
            && Flat(m.content) == WholeTranscript(c, CallsWhole(c, heard, makes), heard, {})
            && m.stop == StopTold(reason, RefusalText(heard), Usage(None, events))
  {
    hide CollectEvents, WholeTranscript, Heard, ReasonTold, ToolsAre, RefusalText, Usage, RenderAll, FlatParts, Flat, FinishFor;
    var b, heard := CollectEvents(NOTHING, events).value, Heard(events);
    Collecting(c, (i: nat) => [], events, sawDone);
    var reason := ReasonTold(events, sawDone).value;
    var makes := reason != "length" && reason != "content_filter" && RefusalText(heard) == "";
    Collecting(c, CallsWhole(c, heard, makes), events, sawDone);
    ContentWhole(c, b, heard, makes, freshId);
  }

  lemma ContentWhole(c: Context, b: Collected, heard: seq<Delta>, makes: bool, freshId: string)
    requires b.legacy.None? && ToolsAre(b.tools, heard) && ChatBufferedSpec.Content(c, b, !makes, freshId).Some?
    requires forall i: nat :: ToolAt(i) in b.blocks ==> i in b.tools
    ensures Flat(ChatBufferedSpec.Content(c, b, !makes, freshId).value) == FlatParts(c, CallsWhole(c, heard, makes), b.blocks)
  {
    hide FragmentsIn, CallWhole, Assembled;
    if b.blocks != [] {
      RenderedMarks(c, CallsWhole(c, heard, makes), b.tools, makes, b.blocks, (i: nat) => FragmentsIn(heard, i));
    }
  }
}
