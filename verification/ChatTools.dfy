// The tool calls of a Chat stream, told from the fields of its events alone.
module ChatTools {
  import opened Wrappers
  import opened ChatEvents
  import opened ChatLiveSpec
  import opened Anthropic

  // ---- tool calls, fragment by fragment ----

  // One fragment of a call: `spare` is the id made up for a legacy call that has none.
  datatype Fragment = Fragment(id: string, spare: string, name: string, arguments: string)

  function CallFragments(calls: seq<ToolDelta>, i: nat): seq<Fragment> {
    if calls == [] then []
    else
      (if calls[0].index != i then []
       else [Fragment(calls[0].id.GetOr(""), "", calls[0].name.GetOr(""), calls[0].arguments.GetOr(""))])
      + CallFragments(calls[1..], i)
  }

  function FragmentsOf(d: Delta, i: nat): seq<Fragment> {
    CallFragments(d.toolCalls, i)
    + (if i != 0 || d.functionCall.None? then []
       else [Fragment("", d.functionCall.value.freshId, d.functionCall.value.name.GetOr(""),
                      d.functionCall.value.arguments.GetOr(""))])
  }

  function FragmentsIn(deltas: seq<Delta>, i: nat): seq<Fragment> {
    if deltas == [] then [] else FragmentsOf(deltas[0], i) + FragmentsIn(deltas[1..], i)
  }

  // The arguments one after the other, the first id there is, and the name by extension or repetition.
  function Spelled(fs: seq<Fragment>): string { if fs == [] then "" else fs[0].arguments + Spelled(fs[1..]) }

  function FirstId(fs: seq<Fragment>): string {
    if fs == [] then "" else if fs[0].id != "" then fs[0].id else if fs[0].spare != "" then fs[0].spare else FirstId(fs[1..])
  }

  function NameWith(name: string, more: string): string { if name <= more then more else name + more }

  function Named(name: string, fs: seq<Fragment>): string
    decreases |fs|
  {
    if fs == [] then name else Named(if fs[0].name == "" then name else NameWith(name, fs[0].name), fs[1..])
  }

  // No fragment gives another id than the first one.
  predicate OneId(fs: seq<Fragment>) { forall k :: 0 <= k < |fs| && fs[k].id != "" ==> fs[k].id == FirstId(fs) }

  function Assembled(fs: seq<Fragment>): ToolBuffer { ToolBuffer(FirstId(fs), Named("", fs), Spelled(fs)) }

  lemma {:induction false} SpelledConcat(a: seq<Fragment>, b: seq<Fragment>)
    ensures Spelled(a + b) == Spelled(a) + Spelled(b)
    decreases |a|
  {
    if a == [] {
      assert a + b == b;
    } else {
      assert (a + b)[0] == a[0] && (a + b)[1..] == a[1..] + b;
      SpelledConcat(a[1..], b);
      Assoc(a[0].arguments, Spelled(a[1..]), Spelled(b));
    }
  }

  lemma {:induction false} FirstIdConcat(a: seq<Fragment>, b: seq<Fragment>)
    ensures FirstId(a + b) == if FirstId(a) != "" then FirstId(a) else FirstId(b)
    decreases |a|
  {
    if a == [] {
      assert a + b == b;
    } else {
      assert (a + b)[0] == a[0] && (a + b)[1..] == a[1..] + b;
      FirstIdConcat(a[1..], b);
    }
  }

  lemma {:induction false} NamedConcat(name: string, a: seq<Fragment>, b: seq<Fragment>)
    ensures Named(name, a + b) == Named(Named(name, a), b)
    decreases |a|
  {
    if a == [] {
      assert a + b == b;
    } else {
      assert (a + b)[0] == a[0] && (a + b)[1..] == a[1..] + b;
      NamedConcat(if a[0].name == "" then name else NameWith(name, a[0].name), a[1..], b);
    }
  }

  // Extending what has been assembled by one fragment.
  lemma AssembledSnoc(fs: seq<Fragment>, f: Fragment)
    ensures var was, now := Assembled(fs), Assembled(fs + [f]);
            && now.arguments == was.arguments + f.arguments
            && now.id == (if was.id != "" then was.id else if f.id != "" then f.id else f.spare)
            && now.name == (if f.name == "" then was.name else NameWith(was.name, f.name))
    ensures OneId(fs + [f]) <==> OneId(fs) && (f.id != "" ==> f.id == Assembled(fs + [f]).id)
  {
    SpelledConcat(fs, [f]);
    FirstIdConcat(fs, [f]);
    NamedConcat("", fs, [f]);
    assert [f][1..] == [];
    assert f.arguments + "" == f.arguments;
    assert (fs + [f])[|fs|] == f && forall k :: 0 <= k < |fs| ==> (fs + [f])[k] == fs[k];
    NoIdNoFirst(fs);
  }

  lemma {:induction false} NoIdNoFirst(fs: seq<Fragment>)
    ensures FirstId(fs) == "" ==> forall k :: 0 <= k < |fs| ==> fs[k].id == ""
    decreases |fs|
  {
    if fs != [] { NoIdNoFirst(fs[1..]); }
  }

  // The buffers hold, at `i`, what its fragments so far assemble.
  ghost predicate HoldsAt(tools: map<nat, ToolBuffer>, i: nat, fs: seq<Fragment>) {
    && (i in tools <==> fs != [])
    && (i in tools ==> tools[i] == Assembled(fs))
    && OneId(fs)
  }

  function PieceFragments(p: Piece, i: nat): seq<Fragment> {
    match p
    case Tool(d) =>
      if d.index == i then [Fragment(d.id.GetOr(""), "", d.name.GetOr(""), d.arguments.GetOr(""))] else []
    case Legacy(f) => if i == 0 then [Fragment("", f.freshId, f.name.GetOr(""), f.arguments.GetOr(""))] else []
    case _ => []
  }

  lemma MergeAssembles(fs: seq<Fragment>, d: ToolDelta)
    requires OneId(fs)
    ensures var f := Fragment(d.id.GetOr(""), "", d.name.GetOr(""), d.arguments.GetOr(""));
            && (MergedTool(Assembled(fs), d).Some? <==> OneId(fs + [f]))
            && (MergedTool(Assembled(fs), d).Some? ==> MergedTool(Assembled(fs), d).value == Assembled(fs + [f]))
  {
    AssembledSnoc(fs, Fragment(d.id.GetOr(""), "", d.name.GetOr(""), d.arguments.GetOr("")));
    hide Assembled, OneId;
  }

  lemma ApplyAt(c: Context, l: Live, p: Piece, i: nat, fs: seq<Fragment>)
    requires HoldsAt(l.tools, i, fs) && Apply(c, l, p).Some?
    ensures HoldsAt(Apply(c, l, p).value.tools, i, fs + PieceFragments(p, i))
  {
    assert fs + [] == fs;
    hide EmitText, EmitThinking, TakeSignature, MergedTool, Assembled, OneId;
    match p {
      case Tool(d) => if d.index == i {
        AssembledNothing();
        MergeAssembles(fs, d);
      }
      case Legacy(f) => if i == 0 {
        AssembledNothing();
        LegacyAssembles(fs, f);
      }
      case Signature(s) => SignatureLeavesTools(c, l.(semantic := true), s);
      case Reasoning(t) => EmitLeavesTools(c, l.(semantic := true), t);
      case Say(t) => EmitLeavesTools(c, l.(semantic := true), t);
      case Refuse(t) => EmitLeavesTools(c, l.(semantic := true, refusal := l.refusal + t), t);
    }
  }

  lemma EmitLeavesTools(c: Context, l: Live, t: string)
    ensures EmitText(c, l, t).tools == l.tools && EmitThinking(c, l, t).tools == l.tools
  {
  }

  lemma SignatureLeavesTools(c: Context, l: Live, s: string)
    ensures TakeSignature(c, l, s).tools == l.tools
  {
    EmitLeavesTools(c, l, "");
    hide EmitThinking;
  }

  lemma AssembledNothing()
    ensures Assembled([]) == EMPTY_TOOL && OneId([])
  {
  }

  lemma LegacyAssembles(fs: seq<Fragment>, f: FunctionDelta)
    requires OneId(fs)
    ensures var was, whole := Assembled(fs), fs + [Fragment("", f.freshId, f.name.GetOr(""), f.arguments.GetOr(""))];
            && OneId(whole)
            && Assembled(whole) == ToolBuffer(if was.id == "" then f.freshId else was.id, MergedName(was.name, f.name),
                                              was.arguments + f.arguments.GetOr(""))
  {
    AssembledSnoc(fs, Fragment("", f.freshId, f.name.GetOr(""), f.arguments.GetOr("")));
    hide Assembled, OneId;
  }

  function PiecesFragments(pieces: seq<Piece>, i: nat): seq<Fragment> {
    if pieces == [] then [] else PieceFragments(pieces[0], i) + PiecesFragments(pieces[1..], i)
  }

  lemma {:induction false} PiecesFragmentsConcat(a: seq<Piece>, b: seq<Piece>, i: nat)
    ensures PiecesFragments(a + b, i) == PiecesFragments(a, i) + PiecesFragments(b, i)
    decreases |a|
  {
    hide PieceFragments;
    if a == [] {
      assert a + b == b;
    } else {
      assert (a + b)[0] == a[0] && (a + b)[1..] == a[1..] + b;
      PiecesFragmentsConcat(a[1..], b, i);
    }
  }

  predicate Speaks(p: Piece) { !p.Tool? && !p.Legacy? }

  lemma {:induction false} SpeechHasNoFragments(pieces: seq<Piece>, i: nat)
    requires forall p :: p in pieces ==> Speaks(p)
    ensures PiecesFragments(pieces, i) == []
    decreases |pieces|
  {
    if pieces != [] {
      assert Speaks(pieces[0]);
      SpeechHasNoFragments(pieces[1..], i);
    }
  }

  lemma {:induction false} ToolListFragments(calls: seq<ToolDelta>, i: nat)
    ensures PiecesFragments(ToolList(calls), i) == CallFragments(calls, i)
    decreases |calls|
  {
    if calls != [] {
      ToolListFragments(calls[1..], i);
      assert ToolList(calls)[0] == Tool(calls[0]) && ToolList(calls)[1..] == ToolList(calls[1..]);
    }
  }

  lemma {:induction false} PartsSpeak(parts: seq<ContentPart>)
    ensures forall p :: p in SpokenParts(parts) ==> p.Say?
    decreases |parts|
  {
    if parts != [] { PartsSpeak(parts[1..]); }
  }

  lemma HeadAndNotesSpeak(d: Delta)
    ensures forall p :: p in HeadPieces(d) ==> Speaks(p)
    ensures forall p :: p in NotePieces(d) ==> Speaks(p)
  {
    if d.content.PartsContent? { PartsSpeak(d.content.parts); }
    assert forall p :: p in ContentPieces(d.content) ==> p.Say?;
    hide ContentPieces;
  }

  lemma ToolPiecesFragments(d: Delta, i: nat)
    ensures PiecesFragments(ToolPieces(d), i) == FragmentsOf(d, i)
  {
    ToolListFragments(d.toolCalls, i);
    if d.functionCall.Some? {
      PiecesFragmentsConcat(ToolList(d.toolCalls), [Legacy(d.functionCall.value)], i);
      assert PiecesFragments([Legacy(d.functionCall.value)], i) == PieceFragments(Legacy(d.functionCall.value), i) + [];
    }
    hide ToolList, CallFragments;
    assert ToolList(d.toolCalls) + [] == ToolList(d.toolCalls);
  }

  // Both paths read the same fragments out of one delta.
  lemma DeltaFragments(d: Delta, i: nat)
    ensures PiecesFragments(LivePieces(d), i) == FragmentsOf(d, i)
    ensures PiecesFragments(BufferedPieces(d), i) == FragmentsOf(d, i)
  {
    HeadAndNotesSpeak(d);
    ToolPiecesFragments(d, i);
    var head, tool, note := HeadPieces(d), ToolPieces(d), NotePieces(d);
    SpeechHasNoFragments(head, i);
    SpeechHasNoFragments(note, i);
    PiecesFragmentsConcat(head + tool, note, i);
    PiecesFragmentsConcat(head, tool, i);
    PiecesFragmentsConcat(head + note, tool, i);
    PiecesFragmentsConcat(head, note, i);
    hide HeadPieces, ToolPieces, NotePieces, FragmentsOf, PiecesFragments;
  }

  lemma {:induction false} ApplyAllAt(c: Context, l: Live, pieces: seq<Piece>, i: nat, fs: seq<Fragment>)
    requires HoldsAt(l.tools, i, fs) && ApplyAll(c, l, pieces).Some?
    ensures HoldsAt(ApplyAll(c, l, pieces).value.tools, i, fs + PiecesFragments(pieces, i))
    decreases |pieces|
  {
    hide HoldsAt, Apply, PieceFragments;
    if pieces == [] {
      assert fs + [] == fs;
    } else {
      ApplyAt(c, l, pieces[0], i, fs);
      ApplyAllAt(c, Apply(c, l, pieces[0]).value, pieces[1..], i, fs + PieceFragments(pieces[0], i));
      Assoc(fs, PieceFragments(pieces[0], i), PiecesFragments(pieces[1..], i));
    }
  }

  // ---- what counts of a stream ----

  predicate Finishes(f: Finish) { f.StringFinish? && f.reason != "" }

  // The deltas up to the first that comes with a finish reason, and that reason.
  function Heard(events: seq<Event>): seq<Delta> {
    if events == [] then []
    else if events[0].Malformed? || events[0].choice.None? then Heard(events[1..])
    else [events[0].choice.value.delta] + if Finishes(events[0].choice.value.finish) then [] else Heard(events[1..])
  }

  function Reason(events: seq<Event>): Option<string> {
    if events == [] then None
    else if events[0].Event? && events[0].choice.Some? && Finishes(events[0].choice.value.finish) then
      Some(events[0].choice.value.finish.reason)
    else Reason(events[1..])
  }

  // The usage the stream ends with.
  function Usage(was: Option<string>, events: seq<Event>): Option<string>
    decreases |events|
  {
    if events == [] then was
    else Usage(if events[0].Event? && events[0].usage.Some? then events[0].usage else was, events[1..])
  }

  lemma EventAt(c: Context, l: Live, e: Event, i: nat, fs: seq<Fragment>)
    requires HoldsAt(l.tools, i, fs) && OnEvent(c, l, e).Some?
    ensures var next := OnEvent(c, l, e).value;
            if l.finish.Some? || e.choice.None? then next.tools == l.tools && next.finish == l.finish
            else HoldsAt(next.tools, i, fs + FragmentsOf(e.choice.value.delta, i))
                 && next.finish == if Finishes(e.choice.value.finish) then Some(e.choice.value.finish.reason) else None
  {
    hide ApplyAll, LivePieces, FragmentsOf, HoldsAt;
    if l.finish.None? && e.choice.Some? {
      var d := e.choice.value.delta;
      ApplyAllAt(c, Header(l, e).(started := true), LivePieces(d), i, fs);
      DeltaFragments(d, i);
    }
  }

  // At every index the live stream holds what the fragments of the events heard assemble.
  lemma {:induction false} EventsAt(c: Context, l: Live, events: seq<Event>, i: nat, fs: seq<Fragment>)
    requires HoldsAt(l.tools, i, fs) && OnEvents(c, l, events).Some?
    ensures HoldsAt(OnEvents(c, l, events).value.tools, i, fs + if l.finish.Some? then [] else FragmentsIn(Heard(events), i))
    ensures OnEvents(c, l, events).value.finish == if l.finish.Some? then l.finish else Reason(events)
    decreases |events|
  {
    hide HoldsAt, OnEvent, FragmentsOf;
    assert fs + [] == fs;
    if events != [] {
      var e, next := events[0], OnEvent(c, l, events[0]).value;
      assert e.Event? by { GoodEvent(c, l, e); }
      EventAt(c, l, e, i, fs);
      if l.finish.None? && e.choice.Some? {
        var d := e.choice.value.delta;
        var rest := if Finishes(e.choice.value.finish) then [] else Heard(events[1..]);
        EventsAt(c, next, events[1..], i, fs + FragmentsOf(d, i));
        assert ([d] + rest)[1..] == rest && Heard(events) == [d] + rest;
        Assoc(fs, FragmentsOf(d, i), FragmentsIn(rest, i));
      } else {
        EventsAt(c, next, events[1..], i, fs);
      }
    }
  }

  lemma GoodEvent(c: Context, l: Live, e: Event)
    requires OnEvent(c, l, e).Some?
    ensures e.Event? && e.error.None?
  {
  }

  // Told for whole streams: the tools of the live stream are what its events spell.
  lemma LiveTools(c: Context, freshId: string, events: seq<Event>, i: nat)
    requires OnEvents(c, Fresh(freshId), events).Some?
    ensures var l, fs := OnEvents(c, Fresh(freshId), events).value, FragmentsIn(Heard(events), i);
            && (i in l.tools <==> fs != [])
            && (i in l.tools ==> l.tools[i].arguments == Spelled(fs) && l.tools[i].id == FirstId(fs) && l.tools[i].name == Named("", fs))
            && OneId(fs)
            && l.finish == Reason(events)
  {
    EventsAt(c, Fresh(freshId), events, i, []);
    assert [] + FragmentsIn(Heard(events), i) == FragmentsIn(Heard(events), i);
  }

  // ---- when a stream fails ----

  lemma FirstIdIsSome(fs: seq<Fragment>, more: seq<Fragment>)
    ensures OneId(fs + more) ==> OneId(fs)
  {
    FirstIdConcat(fs, more);
    NoIdNoFirst(fs);
    assert forall k :: 0 <= k < |fs| ==> (fs + more)[k] == fs[k];
  }

  ghost predicate HoldsAll(tools: map<nat, ToolBuffer>, fs: nat -> seq<Fragment>) { forall i: nat :: HoldsAt(tools, i, fs(i)) }

  lemma PieceFails(c: Context, l: Live, p: Piece, fs: nat -> seq<Fragment>)
    requires HoldsAll(l.tools, fs) && Apply(c, l, p).None?
    ensures p.Tool? && !OneId(fs(p.delta.index) + PieceFragments(p, p.delta.index))
  {
    hide EmitText, EmitThinking, TakeSignature, MergedTool, Assembled, OneId;
    assert HoldsAt(l.tools, p.delta.index, fs(p.delta.index));
    AssembledNothing();
    MergeAssembles(fs(p.delta.index), p.delta);
  }

  lemma {:induction false} PiecesFail(c: Context, l: Live, pieces: seq<Piece>, fs: nat -> seq<Fragment>) returns (i: nat)
    requires HoldsAll(l.tools, fs) && ApplyAll(c, l, pieces).None?
    ensures !OneId(fs(i) + PiecesFragments(pieces, i))
    decreases |pieces|
  {
    hide Apply, HoldsAt, OneId, PieceFragments;
    var p := pieces[0];
    if Apply(c, l, p).None? {
      PieceFails(c, l, p, fs);
      i := p.delta.index;
      FirstIdIsSome(fs(i) + PieceFragments(p, i), PiecesFragments(pieces[1..], i));
    } else {
      var more := (k: nat) => fs(k) + PieceFragments(p, k);
      forall k: nat ensures HoldsAt(Apply(c, l, p).value.tools, k, more(k)) { ApplyAt(c, l, p, k, fs(k)); }
      i := PiecesFail(c, Apply(c, l, p).value, pieces[1..], more);
    }
    Assoc(fs(i), PieceFragments(p, i), PiecesFragments(pieces[1..], i));
  }

  predicate Good(e: Event) { e.Event? && e.error.None? }

  lemma {:induction false} EventsFail(c: Context, l: Live, events: seq<Event>, fs: nat -> seq<Fragment>) returns (i: nat)
    requires HoldsAll(l.tools, fs) && OnEvents(c, l, events).None? && forall e :: e in events ==> Good(e)
    ensures l.finish.None? && !OneId(fs(i) + FragmentsIn(Heard(events), i))
    decreases |events|
  {
    hide HoldsAt, OneId, FragmentsOf, ApplyAll, LivePieces;
    var e, rest := events[0], events[1..];
    assert Good(e);
    if OnEvent(c, l, e).None? {
      var d := e.choice.value.delta;
      i := PiecesFail(c, Header(l, e).(started := true), LivePieces(d), fs);
      DeltaFragments(d, i);
      var after := if Finishes(e.choice.value.finish) then [] else Heard(rest);
      assert Heard(events) == [d] + after && ([d] + after)[1..] == after;
      FirstIdIsSome(fs(i) + FragmentsOf(d, i), FragmentsIn(after, i));
      Assoc(fs(i), FragmentsOf(d, i), FragmentsIn(after, i));
    } else {
      var next := OnEvent(c, l, e).value;
      if l.finish.None? && e.choice.Some? {
        var d := e.choice.value.delta;
        var more := (k: nat) => fs(k) + FragmentsOf(d, k);
        forall k: nat ensures HoldsAt(next.tools, k, more(k)) { EventAt(c, l, e, k, fs(k)); }
        EventAt(c, l, e, 0, fs(0));
        hide OnEvent;
        i := EventsFail(c, next, rest, more);
        assert Heard(events) == [d] + Heard(rest) && ([d] + Heard(rest))[1..] == Heard(rest);
        Assoc(fs(i), FragmentsOf(d, i), FragmentsIn(Heard(rest), i));
      } else {
        EventAt(c, l, e, 0, fs(0));
        hide OnEvent;
        i := EventsFail(c, next, rest, fs);
      }
    }
  }

  lemma {:induction false} GoodEvents(c: Context, l: Live, events: seq<Event>)
    requires OnEvents(c, l, events).Some?
    ensures forall e :: e in events ==> Good(e)
    decreases |events|
  {
    hide OnEvent;
    if events != [] {
      GoodEvent(c, l, events[0]);
      GoodEvents(c, OnEvent(c, l, events[0]).value, events[1..]);
    }
  }

  // No call is given two ids.
  ghost predicate NoneChanges(deltas: seq<Delta>) { forall i: nat :: OneId(FragmentsIn(deltas, i)) }

  // The events of a stream are followed to the end if and only if none is malformed or an error and no call
  // is given two ids.
  lemma FollowedExactly(c: Context, freshId: string, events: seq<Event>)
    ensures OnEvents(c, Fresh(freshId), events).Some?
            <==> (forall e :: e in events ==> Good(e)) && NoneChanges(Heard(events))
  {
    hide OnEvents, OneId, FragmentsIn;
    if OnEvents(c, Fresh(freshId), events).Some? {
      GoodEvents(c, Fresh(freshId), events);
      forall i: nat ensures OneId(FragmentsIn(Heard(events), i)) { LiveTools(c, freshId, events, i); }
    } else if forall e :: e in events ==> Good(e) {
      assert HoldsAll(Fresh(freshId).tools, (k: nat) => []) by { AssembledNothing(); }
      var i := EventsFail(c, Fresh(freshId), events, (k: nat) => []);
      assert [] + FragmentsIn(Heard(events), i) == FragmentsIn(Heard(events), i);
    }
  }
}
