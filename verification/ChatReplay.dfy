// Signatures of a live Chat message: that omitted reasoning can be read back from them, and which ones come from upstream.
module ChatReplay {
  import opened Wrappers
  import opened ChatEvents
  import opened ChatLiveSpec
  import opened ChatTools
  import opened ChatTranscript
  import opened Anthropic

  // Reads the reasoning back out of a signature.
  type Decoder = string -> Option<string>

  // The router reads back what it encodes, and only signatures of its own.
  ghost predicate ReadsBack(c: Context, decode: Decoder) {
    && (forall t :: decode(c.codec.encode(t)) == Some(t))
    && (forall s :: decode(s).Some? ==> "ocr-chat-reasoning-v1:" <= s)
  }

  predicate RoutersOwn(s: string) { "ocr-chat-reasoning-v1:" <= s || "ocr-responses-reasoning-v1:" <= s }

  // What a client that sends the thinking blocks back makes the router remember.
  function Replayed(decode: Decoder, blocks: seq<Block>): string
    decreases |blocks|
  {
    if blocks == [] then ""
    else
      var last := blocks[|blocks| - 1];
      Replayed(decode, blocks[..|blocks| - 1]) + if last.Thinking? then decode(last.signature).GetOr("") else ""
  }

  function ReasoningIn(deltas: seq<Delta>): string {
    if deltas == [] then "" else deltas[0].reasoning.GetOr("") + ReasoningIn(deltas[1..])
  }

  // None, or one that gives way to the router's own because thinking is omitted and the router cannot read it.
  predicate Foreign(c: Context, signature: Option<string>) {
    signature.Some? ==> c.omitThinking && !RoutersOwn(signature.value)
  }

  predicate AllForeign(c: Context, deltas: seq<Delta>) { forall d :: d in deltas ==> Foreign(c, d.signature) }

  lemma ReplayedSnoc(decode: Decoder, blocks: seq<Block>, b: Block)
    ensures Replayed(decode, blocks + [b])
            == Replayed(decode, blocks) + if b.Thinking? then decode(b.signature).GetOr("") else ""
  {
    assert (blocks + [b])[..|blocks|] == blocks;
  }

  // ---- what has been sent ----

  lemma Sealing(c: Context, decode: Decoder, t: string, signature: Option<string>)
    requires ReadsBack(c, decode) && Foreign(c, signature)
    ensures decode(ReplaySafeSignature(signature, t, c.omitThinking, c.codec)).GetOr("") == t
  {
    assert decode(c.codec.encode(t)) == Some(t);
  }

  function ReplayOf(c: Context, decode: Decoder, s: Sent): string { Replayed(decode, Close(c, s).blocks) }

  lemma SentReplays(c: Context, decode: Decoder, s: Sent, t: string, signature: Option<string>)
    requires ReadsBack(c, decode) && Foreign(c, s.signature) && Foreign(c, signature)
    ensures ReplayOf(c, decode, SendText(c, s, t)) == ReplayOf(c, decode, Close(c, s)) == ReplayOf(c, decode, s)
    ensures ReplayOf(c, decode, SendThinking(c, s, t)) == ReplayOf(c, decode, s) + t
    ensures ReplayOf(c, decode, s.(signature := signature)) == ReplayOf(c, decode, s)
  {
    SealReplays(c, decode, s, signature);
    TextReplays(c, decode, s, t);
    ThinkingReplays(c, decode, s, t);
  }

  lemma SealReplays(c: Context, decode: Decoder, s: Sent, signature: Option<string>)
    requires ReadsBack(c, decode) && Foreign(c, s.signature) && Foreign(c, signature)
    ensures ReplayOf(c, decode, s.(signature := signature)) == ReplayOf(c, decode, s)
            == Replayed(decode, s.blocks) + match s.open case OpenThinking(t) => t case _ => ""
  {
    hide ReplaySafeSignature, ReadsBack, Foreign;
    match s.open {
      case NoBlock =>
      case OpenText(u) => ReplayedSnoc(decode, s.blocks, Text(u));
      case OpenThinking(u) =>
        Sealing(c, decode, u, s.signature);
        Sealing(c, decode, u, signature);
        ReplayedSnoc(decode, s.blocks, Thinking(Shown(c, u), ReplaySafeSignature(s.signature, u, c.omitThinking, c.codec)));
        ReplayedSnoc(decode, s.blocks, Thinking(Shown(c, u), ReplaySafeSignature(signature, u, c.omitThinking, c.codec)));
    }
  }

  lemma TextReplays(c: Context, decode: Decoder, s: Sent, t: string)
    requires ReadsBack(c, decode) && Foreign(c, s.signature)
    ensures ReplayOf(c, decode, SendText(c, s, t)) == ReplayOf(c, decode, Close(c, s)) == ReplayOf(c, decode, s)
  {
    SealReplays(c, decode, s, None);
    SealReplays(c, decode, SendText(c, s, t), None);
    hide ReadsBack, ReplaySafeSignature;
  }

  lemma ThinkingReplays(c: Context, decode: Decoder, s: Sent, t: string)
    requires ReadsBack(c, decode) && Foreign(c, s.signature)
    ensures ReplayOf(c, decode, SendThinking(c, s, t)) == ReplayOf(c, decode, s) + t
  {
    SealReplays(c, decode, s, None);
    SealReplays(c, decode, SendThinking(c, s, t), None);
    hide ReadsBack, ReplaySafeSignature;
    if s.open.OpenThinking? { Assoc(Replayed(decode, s.blocks), s.open.replay, t); }
  }

  // ---- what has been deferred ----

  function ThoughtOf(parts: seq<Semantic>): string
    decreases |parts|
  {
    if parts == [] then "" else ThoughtOf(parts[..|parts| - 1]) + if Last(parts).ThinkingPart? then Last(parts).text else ""
  }

  lemma ThoughtSnoc(parts: seq<Semantic>, part: Semantic)
    ensures ThoughtOf(parts + [part]) == ThoughtOf(parts) + if part.ThinkingPart? then part.text else ""
  {
    assert (parts + [part])[..|parts|] == parts;
  }

  lemma AddThought(parts: seq<Semantic>, t: string)
    ensures ThoughtOf(AddThinking(parts, t)) == ThoughtOf(parts) + t && ThoughtOf(AddText(parts, t)) == ThoughtOf(parts)
  {
    hide ThoughtOf;
    ThoughtSnoc(parts, ThinkingPart(t, None));
    ThoughtSnoc(parts, TextPart(t));
    if parts != [] {
      var init, last := parts[..|parts| - 1], Last(parts);
      assert parts == init + [last];
      ThoughtSnoc(init, last);
      match last {
        case ToolAt(_) =>
        case TextPart(was) => ThoughtSnoc(init, TextPart(was + t));
        case ThinkingPart(was, signature) =>
          ThoughtSnoc(init, ThinkingPart(was + t, signature));
          Assoc(ThoughtOf(init), was, t);
      }
    }
  }

  predicate ForeignParts(c: Context, parts: seq<Semantic>) { forall p :: p in parts && p.ThinkingPart? ==> Foreign(c, p.signature) }

  predicate OnlyForeign(c: Context, l: Live) { Foreign(c, l.sent.signature) && ForeignParts(c, l.deferred) }

  function Remembered(c: Context, decode: Decoder, l: Live): string { ReplayOf(c, decode, l.sent) + ThoughtOf(l.deferred) }

  lemma StaysForeign(c: Context, l: Live, t: string)
    requires OnlyForeign(c, l)
    ensures OnlyForeign(c, EmitThinking(c, l, t)) && OnlyForeign(c, EmitText(c, l, t))
  {
    hide RoutersOwn, ReplaySafeSignature;
    AddedForeign(c, l.deferred, t);
    hide ForeignParts, AddText, AddThinking;
  }

  lemma AddedForeign(c: Context, parts: seq<Semantic>, t: string)
    requires ForeignParts(c, parts)
    ensures ForeignParts(c, AddThinking(parts, t)) && ForeignParts(c, AddText(parts, t))
  {
    assert Foreign(c, None);
    hide Foreign;
    assert parts != [] ==> Last(parts) in parts && forall p :: p in parts[..|parts| - 1] ==> p in parts;
  }

  lemma EmitReplays(c: Context, decode: Decoder, l: Live, t: string)
    requires ReadsBack(c, decode) && OnlyForeign(c, l) && Tidy(l)
    ensures Remembered(c, decode, EmitThinking(c, l, t)) == Remembered(c, decode, l) + t && OnlyForeign(c, EmitThinking(c, l, t))
    ensures Remembered(c, decode, EmitText(c, l, t)) == Remembered(c, decode, l) && OnlyForeign(c, EmitText(c, l, t))
  {
    assert !l.deferring ==> ThoughtOf(l.deferred) == "";
    hide ReadsBack, RoutersOwn, Foreign, ForeignParts;
    assert Foreign(c, l.sent.signature);
    StaysForeign(c, l, t);
    SentReplays(c, decode, l.sent, t, l.sent.signature);
    AddThought(l.deferred, t);
    hide *;
    EmitParts(c, l, t);
    Parts(c, decode, l);
    Parts(c, decode, EmitThinking(c, l, t));
    Parts(c, decode, EmitText(c, l, t));
    if l.deferring {
      Assoc(ReplayOf(c, decode, l.sent), ThoughtOf(l.deferred), t);
    } else {
      assert ReplayOf(c, decode, l.sent) + t + "" == ReplayOf(c, decode, l.sent) + "" + t;
    }
  }

  lemma Parts(c: Context, decode: Decoder, l: Live)
    ensures Remembered(c, decode, l) == ReplayOf(c, decode, l.sent) + ThoughtOf(l.deferred)
  {
  }

  lemma EmitParts(c: Context, l: Live, t: string)
    ensures var spoken, thought := EmitText(c, l, t), EmitThinking(c, l, t);
            if l.deferring then
              && spoken.sent == thought.sent == Close(c, l.sent)
              && spoken.deferred == AddText(l.deferred, t) && thought.deferred == AddThinking(l.deferred, t)
            else
              && spoken.sent == SendText(c, l.sent, t) && thought.sent == SendThinking(c, l.sent, t)
              && spoken.deferred == thought.deferred == l.deferred
  {
    hide SendText, SendThinking, Close, AddText, AddThinking;
  }

  lemma SignatureReplays(c: Context, decode: Decoder, l: Live, signature: string)
    requires ReadsBack(c, decode) && OnlyForeign(c, l) && Tidy(l) && Foreign(c, Some(signature))
    ensures Remembered(c, decode, TakeSignature(c, l, signature)) == Remembered(c, decode, l)
    ensures OnlyForeign(c, TakeSignature(c, l, signature))
  {
    EmitReplays(c, decode, l, "");
    assert Remembered(c, decode, l) + "" == Remembered(c, decode, l);
    if l.deferring {
      ThoughtSnoc(l.deferred, ThinkingPart("", Some(signature)));
      assert ThoughtOf(l.deferred) + "" == ThoughtOf(l.deferred);
      if Last(l.deferred).ThinkingPart? {
        ThoughtSnoc(l.deferred[..|l.deferred| - 1], ThinkingPart(Last(l.deferred).text, Some(signature)));
      }
    } else {
      var ready := if l.sent.open.NoBlock? then EmitThinking(c, l, "") else l;
      hide EmitThinking;
      assert ready.deferred == l.deferred by { EmitLeavesDeferred(c, l); }
      SentReplays(c, decode, ready.sent, "", Some(signature));
    }
  }

  lemma EmitLeavesDeferred(c: Context, l: Live)
    requires !l.deferring
    ensures EmitThinking(c, l, "").deferred == l.deferred
  {
  }

  // A piece adds its reasoning and nothing else.
  lemma ApplyReplays(c: Context, decode: Decoder, l: Live, p: Piece)
    requires ReadsBack(c, decode) && OnlyForeign(c, l) && Tidy(l) && Apply(c, l, p).Some?
    requires p.Signature? ==> Foreign(c, Some(p.signature))
    ensures OnlyForeign(c, Apply(c, l, p).value)
    ensures Remembered(c, decode, Apply(c, l, p).value) == Remembered(c, decode, l) + if p.Reasoning? then p.text else ""
  {
    hide ReadsBack, ReplayOf, Foreign, ForeignParts, ThoughtOf, Tidy, EmitText, EmitThinking, TakeSignature, MergedTool, MergedName;
    var heard := l.(semantic := true);
    assert Tidy(heard) && Tidy(heard.(refusal := l.refusal + (if p.Refuse? then p.text else ""))) by { StillTidy(l, p); }
    assert Remembered(c, decode, l) + "" == Remembered(c, decode, l);
    match p {
      case Reasoning(t) => EmitReplays(c, decode, heard, t);
      case Signature(s) => SignatureReplays(c, decode, heard, s);
      case Say(t) => EmitReplays(c, decode, heard, t);
      case Refuse(t) => EmitReplays(c, decode, heard.(refusal := l.refusal + t), t);
      case Tool(d) => ToolReplays(c, l, d.index);
      case Legacy(_) => ToolReplays(c, l, 0);
    }
  }

  lemma ToolReplays(c: Context, l: Live, index: nat)
    ensures ThoughtOf(AddTool(l.deferred, l.tools, index)) == ThoughtOf(l.deferred)
    ensures ForeignParts(c, l.deferred) ==> ForeignParts(c, AddTool(l.deferred, l.tools, index))
  {
    hide ThoughtOf, Foreign;
    ThoughtSnoc(l.deferred, ToolAt(index));
    assert ThoughtOf(l.deferred) + "" == ThoughtOf(l.deferred);
  }

  lemma StillTidy(l: Live, p: Piece)
    requires Tidy(l)
    ensures Tidy(l.(semantic := true))
    ensures Tidy(l.(semantic := true, refusal := l.refusal + (if p.Refuse? then p.text else "")))
  {
    hide Placed;
  }

  lemma {:induction false} PiecesReplay(c: Context, decode: Decoder, l: Live, pieces: seq<Piece>)
    requires ReadsBack(c, decode) && OnlyForeign(c, l) && Tidy(l) && ApplyAll(c, l, pieces).Some?
    requires forall p :: p in pieces ==> !p.Reasoning? && (p.Signature? ==> Foreign(c, Some(p.signature)))
    ensures OnlyForeign(c, ApplyAll(c, l, pieces).value)
    ensures Remembered(c, decode, ApplyAll(c, l, pieces).value) == Remembered(c, decode, l)
    decreases |pieces|
  {
    hide ReadsBack, Remembered, OnlyForeign, Tidy, Foreign, Apply;
    if pieces != [] {
      var p := pieces[0];
      assert p in pieces;
      ApplyReplays(c, decode, l, p);
      ApplyKeepsTidy(c, l, p);
      assert Remembered(c, decode, l) + "" == Remembered(c, decode, l);
      PiecesReplay(c, decode, Apply(c, l, p).value, pieces[1..]);
    }
  }

  // What a delta holds besides its reasoning.
  function Others(d: Delta): seq<Piece> {
    SigningPieces(d) + ContentPieces(d.content) + RefusalPieces(d) + ToolPieces(d) + NotePieces(d)
  }

  lemma OthersAre(d: Delta)
    ensures LivePieces(d) == ReasoningPieces(d) + Others(d)
    ensures forall p :: p in Others(d) ==> !p.Reasoning? && (p.Signature? ==> d.signature == Some(p.signature))
  {
    var r, s, t, f, tools, notes :=
      ReasoningPieces(d), SigningPieces(d), ContentPieces(d.content), RefusalPieces(d), ToolPieces(d), NotePieces(d);
    if d.content.PartsContent? { PartsSpeak(d.content.parts); }
    assert forall p :: p in t ==> p.Say?;
    assert forall p :: p in tools ==> p.Tool? || p.Legacy?;
    assert forall p :: p in notes ==> p.Say?;
    assert HeadPieces(d) == r + s + t + f;
    assert LivePieces(d) == HeadPieces(d) + tools + notes;
    assert Others(d) == s + t + f + tools + notes;
    hide ContentPieces, ToolPieces, NotePieces, HeadPieces, LivePieces, Others, ReasoningPieces;
    Assoc(r, s, t);
    Assoc(r, s + t, f);
    Assoc(r, s + t + f, tools);
    Assoc(r, s + t + f + tools, notes);
  }

  lemma DeltaReplays(c: Context, decode: Decoder, l: Live, d: Delta)
    requires ReadsBack(c, decode) && OnlyForeign(c, l) && Tidy(l) && Foreign(c, d.signature)
    requires ApplyAll(c, l, LivePieces(d)).Some?
    ensures OnlyForeign(c, ApplyAll(c, l, LivePieces(d)).value)
    ensures Remembered(c, decode, ApplyAll(c, l, LivePieces(d)).value) == Remembered(c, decode, l) + d.reasoning.GetOr("")
  {
    hide ReadsBack, Remembered, OnlyForeign, Tidy, RoutersOwn, ApplyAll, Apply, Others, LivePieces;
    OthersAre(d);
    ApplyAllConcat(c, l, ReasoningPieces(d), Others(d));
    var m := ApplyAll(c, l, ReasoningPieces(d)).value;
    if d.reasoning.GetOr("") != "" {
      ApplyOne(c, l, Reasoning(d.reasoning.value));
      ApplyReplays(c, decode, l, Reasoning(d.reasoning.value));
      ApplyKeepsTidy(c, l, Reasoning(d.reasoning.value));
    } else {
      assert m == l by { NoPieces(c, l); }
      assert Remembered(c, decode, l) + "" == Remembered(c, decode, l);
    }
    PiecesReplay(c, decode, m, Others(d));
  }

  lemma NoPieces(c: Context, l: Live)
    ensures ApplyAll(c, l, []) == Some(l)
  {
  }

  lemma {:induction false} EventsReplay(c: Context, decode: Decoder, l: Live, events: seq<Event>)
    requires ReadsBack(c, decode) && OnlyForeign(c, l) && Tidy(l) && OnEvents(c, l, events).Some?
    requires l.finish.None? ==> AllForeign(c, Heard(events))
    ensures OnlyForeign(c, OnEvents(c, l, events).value)
    ensures Remembered(c, decode, OnEvents(c, l, events).value)
            == Remembered(c, decode, l) + if l.finish.None? then ReasoningIn(Heard(events)) else ""
    decreases |events|
  {
    hide ReadsBack, Tidy, RoutersOwn, LivePieces, ApplyAll, ReplayOf, ThoughtOf, Foreign, ForeignParts;
    assert Remembered(c, decode, l) + "" == Remembered(c, decode, l);
    if events != [] {
      var e := events[0];
      OnEventKeepsTidy(c, l, e);
      var next := OnEvent(c, l, e).value;
      if l.finish.Some? || e.choice.None? {
        EventsReplay(c, decode, next, events[1..]);
      } else {
        var d, h := e.choice.value.delta, Header(l, e).(started := true);
        assert d == Heard(events)[0] && d in Heard(events);
        assert Tidy(h) by { HeaderKeepsTidy(l, e); }
        DeltaReplays(c, decode, h, d);
        var rest := if Finishes(e.choice.value.finish) then [] else Heard(events[1..]);
        assert Heard(events) == [d] + rest && (forall x :: x in rest ==> x in Heard(events));
        EventsReplay(c, decode, next, events[1..]);
        Assoc(Remembered(c, decode, l), d.reasoning.GetOr(""), ReasoningIn(rest));
      }
    }
  }

  lemma HeaderKeepsTidy(l: Live, e: Event)
    requires Tidy(l) && e.Event?
    ensures Tidy(Header(l, e).(started := true))
  {
  }

  // ---- the end of the stream ----

  lemma {:induction false} ThoughtCons(part: Semantic, parts: seq<Semantic>)
    ensures ThoughtOf([part] + parts) == (if part.ThinkingPart? then part.text else "") + ThoughtOf(parts)
    decreases |parts|
  {
    hide ThoughtOf;
    assert ThoughtOf([]) == "" by { NoThought(); }
    if parts == [] {
      ThoughtSnoc([], part);
      assert [] + [part] == [part] + [];
    } else {
      var init, last := parts[..|parts| - 1], Last(parts);
      ThoughtCons(part, init);
      assert [part] + parts == ([part] + init) + [last] && parts == init + [last];
      ThoughtSnoc([part] + init, last);
      ThoughtSnoc(init, last);
      Assoc(if part.ThinkingPart? then part.text else "", ThoughtOf(init), if last.ThinkingPart? then last.text else "");
    }
  }

  lemma NoThought()
    ensures ThoughtOf([]) == ""
  {
  }

  lemma PartReplays(c: Context, decode: Decoder, s: Sent, tools: map<nat, ToolBuffer>, makes: bool, part: Semantic)
    requires ReadsBack(c, decode) && Foreign(c, s.signature) && (part.ThinkingPart? ==> Foreign(c, part.signature))
    ensures var next := SendDeferred(c, s, tools, makes, part);
            && Foreign(c, next.signature)
            && ReplayOf(c, decode, next) == ReplayOf(c, decode, s) + if part.ThinkingPart? then part.text else ""
  {
    hide ReadsBack, ReplayOf, RoutersOwn, ReplaySafeSignature, IncompleteToolText, ToolName;
    assert ReplayOf(c, decode, s) + "" == ReplayOf(c, decode, s);
    match part {
      case TextPart(t) => SentReplays(c, decode, s, t, None);
      case ThinkingPart(t, signature) =>
        SentReplays(c, decode, s, t, None);
        SentReplays(c, decode, SendThinking(c, s, t), "", signature);
      case ToolAt(i) =>
        var closed, tool := Close(c, s), ToolSoFar(tools, i);
        SentReplays(c, decode, s, "", None);
        if makes {
          var use := ToolUse(tool.id, ToolName(c, tool), c.codec.parseObject(Arguments(tool)).GetOr(""));
          ClosedReplays(c, decode, closed, use);
        } else {
          SentReplays(c, decode, closed, IncompleteToolText(ToolName(c, tool), tool.arguments), None);
        }
    }
  }

  lemma ClosedReplays(c: Context, decode: Decoder, s: Sent, b: Block)
    requires s.open.NoBlock? && b.ToolUse?
    ensures ReplayOf(c, decode, s.(blocks := s.blocks + [b])) == ReplayOf(c, decode, s)
  {
    ReplayedSnoc(decode, s.blocks, b);
  }

  lemma {:induction false} DeferredReplay(c: Context, decode: Decoder, s: Sent, tools: map<nat, ToolBuffer>, makes: bool,
                                          deferred: seq<Semantic>)
    requires ReadsBack(c, decode) && Foreign(c, s.signature) && ForeignParts(c, deferred)
    ensures ReplayOf(c, decode, SendAllDeferred(c, s, tools, makes, deferred)) == ReplayOf(c, decode, s) + ThoughtOf(deferred)
    decreases |deferred|
  {
    hide ReadsBack, ReplayOf, Foreign, SendDeferred, ThoughtOf;
    NoThought();
    assert ReplayOf(c, decode, s) + "" == ReplayOf(c, decode, s);
    if deferred != [] {
      var part, rest := deferred[0], deferred[1..];
      assert part in deferred && deferred == [part] + rest;
      PartReplays(c, decode, s, tools, makes, part);
      DeferredReplay(c, decode, SendDeferred(c, s, tools, makes, part), tools, makes, rest);
      ThoughtCons(part, rest);
      Assoc(ReplayOf(c, decode, s), if part.ThinkingPart? then part.text else "", ThoughtOf(rest));
    }
  }

  // When thinking is omitted and upstream sends no signature of the router's own, or when it is shown and upstream sends
  // none, the signatures of the message give back all the reasoning of the stream, in order.
  lemma ReasoningIsReplayed(c: Context, decode: Decoder, freshId: string, events: seq<Event>, sawDone: bool)
    requires ReadsBack(c, decode) && AllForeign(c, Heard(events)) && Convert(c, freshId, events, sawDone).Some?
    ensures Replayed(decode, Convert(c, freshId, events, sawDone).value.content) == ReasoningIn(Heard(events))
  {
    hide ReadsBack, OnEvents, Heard, ReasoningIn, SendAllDeferred, Close, ReasonFor, Sendable, StopFor, RoutersOwn, ThoughtOf, Replayed;
    var start, l := Fresh(freshId), OnEvents(c, Fresh(freshId), events).value;
    var makes := CompleteTools(l, ReasonFor(l, sawDone).value);
    assert Tidy(start) && Remembered(c, decode, start) == "" by { NothingRemembered(c, decode, freshId); }
    EventsReplay(c, decode, start, events);
    assert "" + ReasoningIn(Heard(events)) == ReasoningIn(Heard(events));
    SentReplays(c, decode, l.sent, "", None);
    assert Close(c, l.sent).signature in {None, l.sent.signature} by { ClosingSignature(c, l.sent); }
    DeferredReplay(c, decode, Close(c, l.sent), l.tools, makes, l.deferred);
  }

  lemma NothingRemembered(c: Context, decode: Decoder, freshId: string)
    ensures Tidy(Fresh(freshId)) && Remembered(c, decode, Fresh(freshId)) == ""
  {
  }

  lemma ClosingSignature(c: Context, s: Sent)
    ensures Close(c, s).signature in {None, s.signature}
  {
  }

  // ---- signatures from upstream ----

  // What has been sent stays.
  lemma SentStays(c: Context, l: Live, p: Piece)
    requires Apply(c, l, p).Some?
    ensures l.sent.blocks <= Apply(c, l, p).value.sent.blocks
  {
    hide ReplaySafeSignature, MergedTool, MergedName, AddTool, AddText, AddThinking;
  }

  lemma {:induction false} AllSentStays(c: Context, l: Live, pieces: seq<Piece>)
    requires ApplyAll(c, l, pieces).Some?
    ensures l.sent.blocks <= ApplyAll(c, l, pieces).value.sent.blocks
    decreases |pieces|
  {
    hide Apply;
    if pieces != [] {
      SentStays(c, l, pieces[0]);
      AllSentStays(c, Apply(c, l, pieces[0]).value, pieces[1..]);
    }
  }

  lemma {:induction false} EventsSentStay(c: Context, l: Live, events: seq<Event>)
    requires OnEvents(c, l, events).Some?
    ensures l.sent.blocks <= OnEvents(c, l, events).value.sent.blocks
    decreases |events|
  {
    hide ApplyAll, LivePieces;
    if events != [] {
      var e := events[0];
      if l.finish.None? && e.choice.Some? { AllSentStays(c, Header(l, e).(started := true), LivePieces(e.choice.value.delta)); }
      EventsSentStay(c, OnEvent(c, l, e).value, events[1..]);
    }
  }

  lemma {:induction false} DeferredSentStays(c: Context, s: Sent, tools: map<nat, ToolBuffer>, makes: bool, deferred: seq<Semantic>)
    ensures s.blocks <= SendAllDeferred(c, s, tools, makes, deferred).blocks
    decreases |deferred|
  {
    hide ReplaySafeSignature, IncompleteToolText;
    if deferred != [] { DeferredSentStays(c, SendDeferred(c, s, tools, makes, deferred[0]), tools, makes, deferred[1..]); }
  }

  lemma ConcludedStays(c: Context, freshId: string, events: seq<Event>, sawDone: bool)
    requires Convert(c, freshId, events, sawDone).Some?
    ensures OnEvents(c, Fresh(freshId), events).value.sent.blocks <= Convert(c, freshId, events, sawDone).value.content
  {
    hide OnEvents, SendAllDeferred, ReasonFor, Sendable, StopFor, ReplaySafeSignature;
    var l := OnEvents(c, Fresh(freshId), events).value;
    DeferredSentStays(c, Close(c, l.sent), l.tools, CompleteTools(l, ReasonFor(l, sawDone).value), l.deferred);
  }

  // A thinking block that ends in this reasoning and has this signature.
  ghost predicate SealedWith(c: Context, blocks: seq<Block>, reasoning: string, signature: string) {
    exists k :: 0 <= k < |blocks| && Seals(c, blocks[k], reasoning, signature)
  }

  predicate Seals(c: Context, b: Block, reasoning: string, signature: string) {
    && b.Thinking? && b.signature == signature
    && if c.omitThinking then b.thinking == "" else |reasoning| <= |b.thinking| && b.thinking[|b.thinking| - |reasoning|..] == reasoning
  }

  lemma SealedStays(c: Context, a: seq<Block>, b: seq<Block>, reasoning: string, signature: string)
    requires a <= b && SealedWith(c, a, reasoning, signature)
    ensures SealedWith(c, b, reasoning, signature)
  {
    hide Seals;
    var k :| 0 <= k < |a| && Seals(c, a[k], reasoning, signature);
    assert b[k] == a[k];
  }

  // Reasoning, its signature and then a text.
  lemma SealedByText(c: Context, l: Live, t: string, signature: string, p: Piece)
    requires !l.deferring && (c.omitThinking ==> RoutersOwn(signature)) && (p.Say? || p.Refuse?)
    ensures var pieces := [Reasoning(t), Signature(signature), p];
            && ApplyAll(c, l, pieces).Some?
            && SealedWith(c, ApplyAll(c, l, pieces).value.sent.blocks, t, signature)
  {
    var thought := EmitThinking(c, l.(semantic := true), t);
    var reasoned := thought.sent.open.replay;
    assert |t| <= |reasoned| && reasoned[|reasoned| - |t|..] == t;
    var signed := TakeSignature(c, thought, signature);
    var b := Thinking(Shown(c, reasoned), signature);
    assert Seals(c, b, t, signature);
    assert signed.sent == Sent(thought.sent.blocks, thought.sent.open, Some(signature)) && !signed.deferring && signed.semantic;
    assert Close(c, signed.sent).blocks == thought.sent.blocks + [b];
    hide EmitThinking, TakeSignature, Close, Seals, RoutersOwn;
    var said := Apply(c, signed, p).value;
    assert said.sent.blocks == thought.sent.blocks + [b];
    assert said.sent.blocks[|thought.sent.blocks|] == b;
    ThreePieces(c, l, Reasoning(t), Signature(signature), p);
  }

  lemma ThreePieces(c: Context, l: Live, p: Piece, q: Piece, r: Piece)
    requires Apply(c, l, p).Some? && Apply(c, Apply(c, l, p).value, q).Some?
    ensures ApplyAll(c, l, [p, q, r]) == Apply(c, Apply(c, Apply(c, l, p).value, q).value, r)
  {
    hide Apply;
    ApplyOne(c, Apply(c, Apply(c, l, p).value, q).value, r);
    assert [p, q, r][1..] == [q, r] && [q, r][1..] == [r];
  }

  // The first piece behind reasoning and signature is a text, if there is one in the delta.
  lemma TextComesNext(d: Delta) returns (p: Piece, rest: seq<Piece>)
    requires d.reasoning.GetOr("") != "" && d.signature.Some? && (ContentText(d.content) != "" || d.refusal.GetOr("") != "")
    ensures (p.Say? || p.Refuse?) && LivePieces(d) == [Reasoning(d.reasoning.value), Signature(d.signature.value), p] + rest
  {
    if d.content.PartsContent? { SilentParts(d.content.parts); PartsSpeak(d.content.parts); }
    var t, f, back := ContentPieces(d.content), RefusalPieces(d), ToolPieces(d) + NotePieces(d);
    assert t == [] <==> ContentText(d.content) == "";
    assert forall p :: p in t ==> p.Say?;
    var r, g := Reasoning(d.reasoning.value), Signature(d.signature.value);
    assert HeadPieces(d) == [r] + [g] + t + f;
    hide ContentPieces, ContentText, ToolPieces, NotePieces, HeadPieces;
    assert LivePieces(d) == [r] + [g] + t + f + back by { Assoc(HeadPieces(d), ToolPieces(d), NotePieces(d)); }
    hide LivePieces;
    if t != [] {
      p, rest := t[0], t[1..] + f + back;
      assert p in t && t == [p] + t[1..];
      Regroup(r, g, p, t[1..], f, back);
    } else {
      assert f != [];
      p, rest := f[0], f[1..] + back + [];
      assert f == [p] + f[1..] && [r] + [g] + t == [r] + [g] && [r] + [g] + f + back + [] == [r] + [g] + f + back;
      Regroup(r, g, p, f[1..], back, []);
    }
  }

  lemma Regroup<T>(r: T, g: T, p: T, a: seq<T>, b: seq<T>, d: seq<T>)
    ensures [r] + [g] + ([p] + a) + b + d == [r, g, p] + (a + b + d)
  {
    assert [r] + [g] + ([p] + a) == [r, g, p] + a;
    Assoc([r, g, p], a, b);
    Assoc([r, g, p], a + b, d);
  }

  // A signature that comes with its reasoning and ahead of a text, before any call, seals the block of that reasoning:
  // always when thinking is shown, and when it is omitted if the router made it.
  lemma UpstreamSignatureIsSent(c: Context, freshId: string, before: seq<Event>, e: Event, after: seq<Event>, sawDone: bool)
    requires Convert(c, freshId, before + [e] + after, sawDone).Some?
    requires Reason(before).None? && CallsSeen(Heard(before), {}) == {} && e.Event? && e.choice.Some?
    requires var d := e.choice.value.delta;
             && d.reasoning.GetOr("") != "" && d.signature.Some? && (c.omitThinking ==> RoutersOwn(d.signature.value))
             && (ContentText(d.content) != "" || d.refusal.GetOr("") != "")
    ensures var d, m := e.choice.value.delta, Convert(c, freshId, before + [e] + after, sawDone).value;
            SealedWith(c, m.content, d.reasoning.value, d.signature.value)
  {
    var d := e.choice.value.delta;
    var p, rest := TextComesNext(d);
    var sealed_ := [Reasoning(d.reasoning.value), Signature(d.signature.value), p];
    ConcludedStays(c, freshId, before + [e] + after, sawDone);
    hide ContentText, OnEvents, ApplyAll, Finished, Heard, Reason, CallsSeen, SealedWith, RoutersOwn, LivePieces, Tidy;
    Assoc(before, [e], after);
    OnEventsConcat(c, Fresh(freshId), before, [e] + after);
    var l := OnEvents(c, Fresh(freshId), before).value;
    NoCallsYet(c, freshId, before);
    OnEventsConcat(c, l, [e], after);
    OneEvent(c, l, e);
    var h, next := Header(l, e).(started := true), OnEvent(c, l, e).value;
    EventsSentStay(c, next, after);
    SealedByText(c, h, d.reasoning.value, d.signature.value, p);
    ApplyAllConcat(c, h, sealed_, rest);
    AllSentStays(c, ApplyAll(c, h, sealed_).value, rest);
    SealedStays(c, ApplyAll(c, h, sealed_).value.sent.blocks,
                Convert(c, freshId, before + [e] + after, sawDone).value.content, d.reasoning.value, d.signature.value);
  }

  lemma OneEvent(c: Context, l: Live, e: Event)
    ensures OnEvents(c, l, [e]) == OnEvent(c, l, e)
  {
    hide OnEvent;
    assert [e][1..] == [];
  }

  lemma NoCallsYet(c: Context, freshId: string, events: seq<Event>)
    requires OnEvents(c, Fresh(freshId), events).Some? && Reason(events).None? && CallsSeen(Heard(events), {}) == {}
    ensures var l := OnEvents(c, Fresh(freshId), events).value; l.finish.None? && !l.deferring
  {
    hide OnEvents, Told, Transcript, AllSilent, CallsSeen, FragmentsIn, Heard, Reason, RefusalText, Usage;
    EventsTold(c, (i: nat) => [], Fresh(freshId), events);
    LiveTools(c, freshId, events, 0);
    EventsKeepTidy(c, Fresh(freshId), events);
    assert Fresh(freshId).tools.Keys == {};
  }
}
