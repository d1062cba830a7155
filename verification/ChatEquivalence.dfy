// The live stream, as its client reads it, against the buffered conversion of the same events.
module ChatEquivalence {
  import opened Wrappers
  import opened ChatEvents
  import opened ChatLiveSpec
  import opened ChatBufferedSpec
  import opened Anthropic
  import opened Identity

  // ---- the events both paths read alike ----

  predicate Ordinary(d: Delta) {
    && d.functionCall.None?
    && (d.toolCalls == [] || (d.citations.None? && d.outputBlock.None?))
  }

  predicate OrdinaryEvent(e: Event) {
    e.Event? && e.choice.Some? ==> !e.choice.value.finish.OddFinish? && Ordinary(e.choice.value.delta)
  }

  predicate OrdinaryPiece(p: Piece) { !p.Legacy? }

  lemma {:induction false} PartsAreSpoken(parts: seq<ContentPart>)
    ensures forall p :: p in SpokenParts(parts) ==> p.Say?
    decreases |parts|
  {
    if parts != [] { PartsAreSpoken(parts[1..]); }
  }

  lemma OrdinaryPieces(d: Delta)
    requires Ordinary(d)
    ensures LivePieces(d) == BufferedPieces(d)
    ensures forall p :: p in LivePieces(d) ==> OrdinaryPiece(p)
  {
    if d.content.PartsContent? { PartsAreSpoken(d.content.parts); }
    assert forall p :: p in ToolList(d.toolCalls) ==> p.Tool?;
    hide HeadPieces;
    if d.toolCalls == [] {
      assert ToolPieces(d) == [];
      assert HeadPieces(d) + [] + NotePieces(d) == HeadPieces(d) + NotePieces(d) + [];
    } else {
      assert NotePieces(d) == [];
      assert HeadPieces(d) + ToolPieces(d) + [] == HeadPieces(d) + [] + ToolPieces(d);
    }
  }

  // ---- what the two states have in common ----

  // Text and thinking, as closed blocks.
  function Plain(c: Context, parts: seq<Semantic>): seq<Block>
    decreases |parts|
  {
    if parts == [] then [] else Plain(c, parts[..|parts| - 1]) + [PlainPart(c, Last(parts))]
  }

  function PlainPart(c: Context, part: Semantic): Block {
    match part
    case TextPart(t) => Text(t)
    case ThinkingPart(t, s) => Thinking(Shown(c, t), ReplaySafeSignature(s, t, c.omitThinking, c.codec))
    case ToolAt(_) => Text("")
  }

  function AsOpen(part: Semantic): OpenBlock {
    match part
    case TextPart(t) => OpenText(t)
    case ThinkingPart(t, _) => OpenThinking(t)
    case ToolAt(_) => NoBlock
  }

  function SignatureOf(part: Semantic): Option<string> { if part.ThinkingPart? then part.signature else None }

  // The sent blocks, the open one and its signature are the collected parts.
  ghost predicate SentIs(c: Context, s: Sent, parts: seq<Semantic>) {
    if parts == [] then s == Sent([], NoBlock, None)
    else s == Sent(Plain(c, parts[..|parts| - 1]), AsOpen(Last(parts)), SignatureOf(Last(parts)))
  }

  // No signature waits for a thinking block still to come.
  predicate NothingWaits(s: Sent) { s.signature.Some? ==> s.open.OpenThinking? }

  ghost predicate NoTools(parts: seq<Semantic>) { forall k :: 0 <= k < |parts| ==> !parts[k].ToolAt? }

  ghost predicate Apart(parts: seq<Semantic>) {
    forall k :: 0 <= k < |parts| - 1 ==> !(parts[k].ThinkingPart? && parts[k + 1].ThinkingPart?)
  }

  // What was collected is `pre`, which has been sent, followed by what is deferred.
  ghost predicate Laid(c: Context, l: Live, pre: seq<Semantic>) {
    && Apart(pre + l.deferred) && NoTools(pre)
    && (l.deferring <==> l.deferred != []) && (l.deferring <==> l.tools != map[])
    && (l.deferring ==> l.deferred[0].ToolAt?)
    && NothingWaits(l.sent)
    && if l.deferring then Close(c, l.sent).blocks == Plain(c, pre) else SentIs(c, l.sent, pre)
  }

  ghost predicate Agree(c: Context, l: Live, b: Collected, pre: seq<Semantic>) {
    && !b.finish.OddFinish? && (b.finish.StringFinish? ==> b.finish.reason != "")
    && l.finish == (if b.finish.StringFinish? then Some(b.finish.reason) else None)
    && l.refusal == b.refusal && l.usage == b.usage && l.tools == b.tools && b.legacy.None?
    && (l.semantic <==> b.blocks != [])
    && b.blocks == pre + l.deferred && Laid(c, l, pre)
  }

  lemma ClosePlain(c: Context, s: Sent, parts: seq<Semantic>)
    requires SentIs(c, s, parts) && NoTools(parts)
    ensures Close(c, s).blocks == Plain(c, parts) && Close(c, s).signature.None?
    ensures NothingWaits(s) && (parts == [] ==> s.open == NoBlock)
    ensures parts != [] ==> s.open == AsOpen(Last(parts)) && s.signature == SignatureOf(Last(parts)) && s.open != NoBlock
  {
  }

  lemma SentIsSnoc(c: Context, parts: seq<Semantic>, part: Semantic)
    ensures SentIs(c, Sent(Plain(c, parts), AsOpen(part), SignatureOf(part)), parts + [part])
  {
    assert (parts + [part])[..|parts|] == parts;
  }

  lemma SentIsSetLast(c: Context, s: Sent, parts: seq<Semantic>, part: Semantic)
    requires parts != [] && SentIs(c, s, parts)
    ensures SentIs(c, s.(open := AsOpen(part), signature := SignatureOf(part)), SetLast(parts, part))
  {
    assert SetLast(parts, part)[..|parts| - 1] == parts[..|parts| - 1];
  }

  lemma SendPlainText(c: Context, s: Sent, parts: seq<Semantic>, text: string)
    requires SentIs(c, s, parts) && NoTools(parts)
    ensures SentIs(c, SendText(c, s, text), AddText(parts, text)) && NothingWaits(SendText(c, s, text))
  {
    hide Close, Plain, SentIs, NoTools, SetLast;
    ClosePlain(c, s, parts);
    ClosedHasNothingOpen(c, s);
    if parts != [] && Last(parts).TextPart? {
      SentIsSetLast(c, s, parts, TextPart(Last(parts).text + text));
    } else {
      SentIsSnoc(c, parts, TextPart(text));
      assert Close(c, s).(open := OpenText(text)) == Sent(Plain(c, parts), OpenText(text), None);
    }
  }

  lemma SendPlainThinking(c: Context, s: Sent, parts: seq<Semantic>, text: string)
    requires SentIs(c, s, parts) && NoTools(parts)
    ensures SentIs(c, SendThinking(c, s, text), AddThinking(parts, text)) && NothingWaits(SendThinking(c, s, text))
  {
    hide Close, Plain, SentIs, NoTools, SetLast;
    ClosePlain(c, s, parts);
    ClosedHasNothingOpen(c, s);
    if parts != [] && Last(parts).ThinkingPart? {
      SentIsSetLast(c, s, parts, ThinkingPart(Last(parts).text + text, Last(parts).signature));
    } else {
      SentIsSnoc(c, parts, ThinkingPart(text, None));
      assert Close(c, s).(open := OpenThinking(text)) == Sent(Plain(c, parts), OpenThinking(text), None);
    }
  }

  lemma ClosedHasNothingOpen(c: Context, s: Sent)
    ensures Close(c, s).open == NoBlock
  {
  }

  lemma ShapeKept(parts: seq<Semantic>, text: string)
    requires Apart(parts)
    ensures Apart(AddText(parts, text)) && Apart(AddThinking(parts, text))
    ensures NoTools(parts) ==> NoTools(AddText(parts, text)) && NoTools(AddThinking(parts, text))
    ensures AddText(parts, text) != [] && AddThinking(parts, text) != []
  {
  }

  lemma AddAfter(pre: seq<Semantic>, deferred: seq<Semantic>, text: string)
    requires deferred != [] && deferred[0].ToolAt?
    ensures AddText(pre + deferred, text) == pre + AddText(deferred, text)
    ensures AddThinking(pre + deferred, text) == pre + AddThinking(deferred, text)
    ensures AddText(deferred, text) != [] && AddText(deferred, text)[0] == deferred[0]
    ensures AddThinking(deferred, text) != [] && AddThinking(deferred, text)[0] == deferred[0]
  {
    assert forall x :: SetLast(pre + deferred, x) == pre + SetLast(deferred, x);
    assert forall x :: pre + deferred + [x] == pre + (deferred + [x]);
  }

  lemma DeferLaid(c: Context, l: Live, pre: seq<Semantic>, text: string)
    requires Laid(c, l, pre) && l.deferring
    ensures Laid(c, EmitText(c, l, text), pre) && Laid(c, EmitThinking(c, l, text), pre)
    ensures AddText(pre + l.deferred, text) == pre + EmitText(c, l, text).deferred
    ensures AddThinking(pre + l.deferred, text) == pre + EmitThinking(c, l, text).deferred
  {
    ShapeKept(pre + l.deferred, text);
    AddAfter(pre, l.deferred, text);
    ClosedStaysClosed(c, l.sent);
    hide Plain, AddText, AddThinking, Apart, NoTools, Close;
  }

  lemma EmitLaid(c: Context, l: Live, pre: seq<Semantic>, text: string)
    requires Laid(c, l, pre)
    ensures Laid(c, EmitText(c, l, text), if l.deferring then pre else AddText(pre, text))
    ensures Laid(c, EmitThinking(c, l, text), if l.deferring then pre else AddThinking(pre, text))
    ensures AddText(pre + l.deferred, text)
            == (if l.deferring then pre else AddText(pre, text)) + EmitText(c, l, text).deferred
    ensures AddThinking(pre + l.deferred, text)
            == (if l.deferring then pre else AddThinking(pre, text)) + EmitThinking(c, l, text).deferred
  {
    if l.deferring {
      DeferLaid(c, l, pre, text);
      hide Laid, AddText, AddThinking;
    } else {
      assert pre + l.deferred == pre;
      hide Plain, AddText, AddThinking, SendText, SendThinking, SentIs, Apart, NoTools, Close;
      ShapeKept(pre, text);
      SendPlainText(c, l.sent, pre, text);
      SendPlainThinking(c, l.sent, pre, text);
      assert AddText(pre, text) + [] == AddText(pre, text) && AddThinking(pre, text) + [] == AddThinking(pre, text);
    }
  }

  lemma ClosedStaysClosed(c: Context, s: Sent)
    ensures Close(c, Close(c, s)).blocks == Close(c, s).blocks
    ensures NothingWaits(s) ==> Close(c, s).signature.None?
  {
  }

  lemma ToolLaid(c: Context, l: Live, pre: seq<Semantic>, index: nat, tool: ToolBuffer)
    requires Laid(c, l, pre)
    ensures Laid(c, WithTool(l, index, tool), pre)
    ensures AddTool(pre + l.deferred, l.tools, index) == pre + WithTool(l, index, tool).deferred
    ensures pre + WithTool(l, index, tool).deferred != []
  {
    if !l.deferring {
      assert pre + l.deferred == pre;
      ClosePlain(c, l.sent, pre);
    }
    hide Plain, Close;
    assert pre + l.deferred + [ToolAt(index)] == pre + (l.deferred + [ToolAt(index)]);
    assert l.deferred == [] ==> index !in l.tools;
  }

  // ---- signatures ----

  // A signature comes in time: first of all, right behind thinking, or behind a tool call when nothing was thought.
  predicate InTime(b: Collected) {
    || b.blocks == []
    || Last(b.blocks).ThinkingPart?
    || (b.tools != map[] && LastThinking(b.blocks).None?)
  }

  // The live stream seals the open block, or the last one deferred.
  lemma SealOpenLaid(c: Context, l: Live, pre: seq<Semantic>, signature: string)
    requires Laid(c, l, pre) && !l.deferring && (pre == [] || Last(pre).ThinkingPart?)
    ensures Laid(c, TakeSignature(c, l, signature), Sealed(pre, signature))
  {
    assert pre + [] == pre && Sealed(pre, signature) + [] == Sealed(pre, signature);
    if pre != [] {
      var part := ThinkingPart(Last(pre).text, Some(signature));
      assert Sealed(pre, signature) == SetLast(pre, part);
      hide Plain, LastThinking, SetLast, Sealed, Close;
      SentIsSetLast(c, l.sent, pre, part);
      ClosePlain(c, l.sent, pre);
    }
  }

  lemma SealOpen(c: Context, l: Live, b: Collected, pre: seq<Semantic>, signature: string)
    requires Agree(c, l, b, pre) && !l.deferring && InTime(b)
    ensures Agree(c, TakeSignature(c, l.(semantic := true), signature), b.(blocks := Sealed(b.blocks, signature)),
                  Sealed(pre, signature))
  {
    assert pre + [] == pre && Sealed(pre, signature) + [] == Sealed(pre, signature);
    var heard := l.(semantic := true);
    assert Laid(c, heard, pre);
    SealOpenLaid(c, heard, pre, signature);
    hide Laid, LastThinking, SentIs, Apart, NoTools, SendThinking;
  }

  lemma SealDeferred(c: Context, l: Live, b: Collected, pre: seq<Semantic>, signature: string)
    requires Agree(c, l, b, pre) && l.deferring && InTime(b)
    ensures Agree(c, TakeSignature(c, l.(semantic := true), signature), b.(blocks := Sealed(b.blocks, signature)), pre)
  {
    hide Plain, Close;
    if Last(l.deferred).ThinkingPart? {
      var part := ThinkingPart(Last(l.deferred).text, Some(signature));
      assert Sealed(b.blocks, signature) == pre + SetLast(l.deferred, part);
    } else {
      assert Sealed(b.blocks, signature) == pre + (l.deferred + [ThinkingPart("", Some(signature))]);
    }
  }

  // Only such a signature goes to the same place on both paths.
  lemma SignatureAgreesExactly(c: Context, l: Live, b: Collected, pre: seq<Semantic>, signature: string)
    requires Agree(c, l, b, pre)
    ensures (exists next :: Agree(c, TakeSignature(c, l.(semantic := true), signature),
                                  b.(blocks := Sealed(b.blocks, signature)), next))
            <==> InTime(b)
  {
    if InTime(b) {
      if l.deferring { SealDeferred(c, l, b, pre, signature); } else { SealOpen(c, l, b, pre, signature); }
    } else {
      var live, collected := TakeSignature(c, l.(semantic := true), signature), b.(blocks := Sealed(b.blocks, signature));
      forall next ensures !Agree(c, live, collected, next) { LateDisagrees(c, l, b, pre, signature, next); }
    }
  }

  lemma LateDisagrees(c: Context, l: Live, b: Collected, pre: seq<Semantic>, signature: string, next: seq<Semantic>)
    requires Agree(c, l, b, pre) && !InTime(b)
    ensures !Agree(c, TakeSignature(c, l.(semantic := true), signature), b.(blocks := Sealed(b.blocks, signature)), next)
  {
    if l.deferring {
      PlainLength(c, pre);
      PlainLength(c, next);
    } else {
      assert pre + [] == pre;
      ClosePlain(c, l.sent, pre);
    }
    hide Plain, Close;
  }

  lemma {:induction false} PlainLength(c: Context, parts: seq<Semantic>)
    ensures |Plain(c, parts)| == |parts|
    decreases |parts|
  {
    if parts != [] { PlainLength(c, parts[..|parts| - 1]); }
  }

  // Every signature of a stream comes in time.
  predicate PiecesInTime(b: Collected, pieces: seq<Piece>)
    decreases |pieces|
  {
    pieces != [] ==>
      && (pieces[0].Signature? ==> InTime(b))
      && (Collect(b, pieces[0]).Some? ==> PiecesInTime(Collect(b, pieces[0]).value, pieces[1..]))
  }

  predicate EventInTime(b: Collected, e: Event) {
    e.Event? && e.error.None? && b.finish == NoFinish && e.choice.Some? ==>
      PiecesInTime(HeaderOf(b, e), BufferedPieces(e.choice.value.delta))
  }

  predicate EventsInTime(b: Collected, events: seq<Event>)
    decreases |events|
  {
    events != [] ==>
      && EventInTime(b, events[0])
      && (CollectEvent(b, events[0]).Some? ==> EventsInTime(CollectEvent(b, events[0]).value, events[1..]))
  }

  lemma {:induction false} NoSignatureInTime(b: Collected, pieces: seq<Piece>)
    requires forall p :: p in pieces ==> !p.Signature?
    ensures PiecesInTime(b, pieces)
    decreases |pieces|
  {
    hide Collect;
    if pieces != [] && Collect(b, pieces[0]).Some? { NoSignatureInTime(Collect(b, pieces[0]).value, pieces[1..]); }
  }

  // The signature comes with the thinking it belongs to, or there is none.
  predicate WithItsReasoning(e: Event) {
    e.Event? && e.choice.Some? && e.choice.value.delta.signature.Some? ==>
      e.choice.value.delta.reasoning.Some? && e.choice.value.delta.reasoning.value != ""
  }

  lemma ReasoningThenSignature(b: Collected, text: string, signature: string, rest: seq<Piece>)
    requires forall p :: p in rest ==> !p.Signature?
    ensures PiecesInTime(b, [Reasoning(text), Signature(signature)] + rest)
  {
    var pieces := [Reasoning(text), Signature(signature)] + rest;
    var thought := Collect(b, Reasoning(text)).value;
    assert InTime(thought);
    assert pieces[1..] == [Signature(signature)] + rest && pieces[1..][1..] == rest;
    NoSignatureInTime(Collect(thought, Signature(signature)).value, rest);
    assert PiecesInTime(thought, pieces[1..]) by { assert pieces[1..][0] == Signature(signature); }
  }

  function BehindSignature(d: Delta): seq<Piece> {
    ContentPieces(d.content) + (if d.refusal.Some? && d.refusal.value != "" then [Refuse(d.refusal.value)] else [])
  }

  function SignaturePieces(d: Delta): seq<Piece> {
    (if d.reasoning.Some? && d.reasoning.value != "" then [Reasoning(d.reasoning.value)] else [])
    + (if d.signature.Some? then [Signature(d.signature.value)] else [])
  }

  lemma PiecesAroundSignature(d: Delta)
    ensures BufferedPieces(d) == SignaturePieces(d) + (BehindSignature(d) + (NotePieces(d) + ToolPieces(d)))
  {
    assert HeadPieces(d) == SignaturePieces(d) + BehindSignature(d) by { hide ContentPieces; }
    hide HeadPieces, SignaturePieces, BehindSignature, NotePieces, ToolPieces;
    Assoc(SignaturePieces(d) + BehindSignature(d), NotePieces(d), ToolPieces(d));
    Assoc(SignaturePieces(d), BehindSignature(d), NotePieces(d) + ToolPieces(d));
  }

  lemma NoSignatureBehind(d: Delta)
    ensures forall p :: p in BehindSignature(d) + (NotePieces(d) + ToolPieces(d)) ==> !p.Signature?
  {
    SpokenIsNoSignature(d.content);
    assert forall p :: p in BehindSignature(d) ==> !p.Signature? by { hide ContentPieces; }
    assert forall p :: p in ToolPieces(d) ==> !p.Signature? by { assert forall p :: p in ToolList(d.toolCalls) ==> p.Tool?; }
    assert forall p :: p in NotePieces(d) ==> !p.Signature?;
    hide BehindSignature, NotePieces, ToolPieces;
  }

  lemma TogetherInTime(b: Collected, e: Event)
    requires WithItsReasoning(e)
    ensures EventInTime(b, e)
  {
    if e.Event? && e.error.None? && b.finish == NoFinish && e.choice.Some? {
      var d := e.choice.value.delta;
      var rest := BehindSignature(d) + (NotePieces(d) + ToolPieces(d));
      PiecesAroundSignature(d);
      NoSignatureBehind(d);
      hide BehindSignature, NotePieces, ToolPieces, BufferedPieces, PiecesInTime;
      if d.signature.Some? {
        assert SignaturePieces(d) == [Reasoning(d.reasoning.value), Signature(d.signature.value)];
        ReasoningThenSignature(HeaderOf(b, e), d.reasoning.value, d.signature.value, rest);
      } else {
        NoSignatureInTime(HeaderOf(b, e), SignaturePieces(d) + rest);
      }
    }
  }

  lemma SpokenIsNoSignature(content: Content)
    ensures forall p :: p in ContentPieces(content) ==> !p.Signature?
  {
    if content.PartsContent? { PartsAreSpoken(content.parts); }
  }

  // So nothing is asked of a stream that sends each signature with its thinking, or none.
  lemma {:induction false} AllTogetherInTime(b: Collected, events: seq<Event>)
    requires forall e :: e in events ==> WithItsReasoning(e)
    ensures EventsInTime(b, events)
    decreases |events|
  {
    hide EventInTime, CollectEvent, WithItsReasoning;
    if events != [] {
      TogetherInTime(b, events[0]);
      if CollectEvent(b, events[0]).Some? { AllTogetherInTime(CollectEvent(b, events[0]).value, events[1..]); }
    }
  }

  // ---- one piece, one event, all events ----

  // Text or reasoning goes to the same place on both paths.
  lemma EmitAgrees(c: Context, l: Live, b: Collected, pre: seq<Semantic>, t: string)
    requires Agree(c, l, b, pre)
    ensures Agree(c, EmitText(c, l.(semantic := true), t), b.(blocks := AddText(b.blocks, t)),
                  if l.deferring then pre else AddText(pre, t))
    ensures Agree(c, EmitThinking(c, l.(semantic := true), t), b.(blocks := AddThinking(b.blocks, t)),
                  if l.deferring then pre else AddThinking(pre, t))
  {
    var heard := l.(semantic := true);
    assert Laid(c, heard, pre);
    EmitLaid(c, heard, pre, t);
    ShapeKept(b.blocks, t);
    hide Laid, AddText, AddThinking, Apart, NoTools;
  }

  lemma PieceAgrees(c: Context, l: Live, b: Collected, pre: seq<Semantic>, p: Piece) returns (next: seq<Semantic>)
    requires Agree(c, l, b, pre) && OrdinaryPiece(p) && (p.Signature? ==> InTime(b))
    ensures Apply(c, l, p).Some? <==> Collect(b, p).Some?
    ensures Apply(c, l, p).Some? ==> Agree(c, Apply(c, l, p).value, Collect(b, p).value, next)
  {
    next := pre;
    match p {
      case Reasoning(t) =>
        EmitAgrees(c, l, b, pre, t);
        hide Agree, AddThinking, EmitThinking;
        next := if l.deferring then pre else AddThinking(pre, t);
      case Signature(s) =>
        if l.deferring {
          SealDeferred(c, l, b, pre, s);
        } else {
          SealOpen(c, l, b, pre, s);
          next := Sealed(pre, s);
        }
        hide Agree, TakeSignature, Sealed;
      case Say(t) =>
        EmitAgrees(c, l, b, pre, t);
        hide Agree, AddText, EmitText;
        next := if l.deferring then pre else AddText(pre, t);
      case Refuse(t) =>
        var refused, told := l.(refusal := l.refusal + t), b.(refusal := b.refusal + t);
        assert Laid(c, refused, pre);
        hide Laid;
        EmitAgrees(c, refused, told, pre, t);
        hide Agree, AddText, EmitText;
        next := if l.deferring then pre else AddText(pre, t);
      case Tool(d) =>
        hide MergedTool;
        var merged := MergedTool(ToolSoFar(l.tools, d.index), d);
        if merged.Some? {
          var heard := l.(semantic := true);
          assert Laid(c, heard, pre);
          ToolLaid(c, heard, pre, d.index, merged.value);
          hide Laid;
        }
    }
  }

  lemma {:induction false} PiecesAgree(c: Context, l: Live, b: Collected, pre: seq<Semantic>, pieces: seq<Piece>)
    returns (next: seq<Semantic>)
    requires Agree(c, l, b, pre) && PiecesInTime(b, pieces) && forall p :: p in pieces ==> OrdinaryPiece(p)
    ensures ApplyAll(c, l, pieces).Some? <==> CollectAll(b, pieces).Some?
    ensures ApplyAll(c, l, pieces).Some? ==> Agree(c, ApplyAll(c, l, pieces).value, CollectAll(b, pieces).value, next)
    decreases |pieces|
  {
    hide Agree, Apply, Collect, InTime;
    next := pre;
    if pieces != [] {
      next := PieceAgrees(c, l, b, pre, pieces[0]);
      if Apply(c, l, pieces[0]).Some? {
        next := PiecesAgree(c, Apply(c, l, pieces[0]).value, Collect(b, pieces[0]).value, next, pieces[1..]);
      }
    }
  }

  lemma EventAgrees(c: Context, l: Live, b: Collected, pre: seq<Semantic>, e: Event) returns (next: seq<Semantic>)
    requires Agree(c, l, b, pre) && OrdinaryEvent(e) && EventInTime(b, e)
    ensures OnEvent(c, l, e).Some? <==> CollectEvent(b, e).Some?
    ensures OnEvent(c, l, e).Some? ==> Agree(c, OnEvent(c, l, e).value, CollectEvent(b, e).value, next)
  {
    next := pre;
    if e.Malformed? || e.error.Some? { return; }
    hide PiecesInTime, Apply, Collect, ApplyAll, CollectAll, LivePieces, BufferedPieces, Plain, Close, Apart, NoTools;
    assert Agree(c, Header(l, e), HeaderOf(b, e), pre);
    if b.finish == NoFinish && e.choice.Some? {
      var delta := e.choice.value.delta;
      var h := Header(l, e).(started := true);
      assert Agree(c, h, HeaderOf(b, e), pre);
      OrdinaryPieces(delta);
      next := PiecesAgree(c, h, HeaderOf(b, e), pre, LivePieces(delta));
      if ApplyAll(c, h, LivePieces(delta)).Some? {
        ghost var after := ApplyAll(c, h, LivePieces(delta)).value;
        assert OnEvent(c, l, e).value == after.(finish := FinishReason(e.choice.value.finish));
      }
    }
  }

  lemma {:induction false} EventsAgree(c: Context, l: Live, b: Collected, pre: seq<Semantic>, events: seq<Event>)
    returns (next: seq<Semantic>)
    requires Agree(c, l, b, pre) && EventsInTime(b, events) && forall e :: e in events ==> OrdinaryEvent(e)
    ensures OnEvents(c, l, events).Some? <==> CollectEvents(b, events).Some?
    ensures OnEvents(c, l, events).Some? ==> Agree(c, OnEvents(c, l, events).value, CollectEvents(b, events).value, next)
    decreases |events|
  {
    hide Agree, OnEvent, CollectEvent, EventInTime;
    next := pre;
    if events != [] {
      next := EventAgrees(c, l, b, pre, events[0]);
      if OnEvent(c, l, events[0]).Some? {
        next := EventsAgree(c, OnEvent(c, l, events[0]).value, CollectEvent(b, events[0]).value, next, events[1..]);
      }
    }
  }

  // ---- the end of the stream ----

  function Shape(c: Context, s: Sent): seq<Block> { Joined(Close(c, s).blocks) }

  lemma SendTextShape(c: Context, s: Sent, text: string)
    requires NothingWaits(s)
    ensures Shape(c, SendText(c, s, text)) == AddJoined(Shape(c, s), Text(text)) && SendText(c, s, text).signature.None?
  {
    if s.open.OpenText? {
      JoinedSnoc(s.blocks, Text(s.open.text));
      JoinedSnoc(s.blocks, Text(s.open.text + text));
      var j := Joined(s.blocks);
      if j != [] && j[|j| - 1].Text? {
        assert j[|j| - 1].text + (s.open.text + text) == j[|j| - 1].text + s.open.text + text;
      }
    } else {
      JoinedSnoc(Close(c, s).blocks, Text(text));
    }
  }

  // The tool call or its diagnostic, alike on both paths.
  predicate SameTool(c: Context, tool: ToolBuffer, complete: bool) {
    complete ==> Sendable(c, tool) && tool.arguments != ""
  }

  lemma SendToolShape(c: Context, s: Sent, tools: map<nat, ToolBuffer>, complete: bool, i: nat)
    requires NothingWaits(s) && "unknown" !in c.names.reverse && SameTool(c, ToolSoFar(tools, i), complete)
    ensures RenderTool(c, ToolSoFar(tools, i), !complete).Some?
    ensures var next := SendDeferred(c, s, tools, complete, ToolAt(i));
            && next.signature.None? && !next.open.OpenThinking?
            && Shape(c, next) == AddJoined(Shape(c, s), RenderTool(c, ToolSoFar(tools, i), !complete).value)
  {
    var closed, tool := Close(c, s), ToolSoFar(tools, i);
    assert closed.signature.None? && closed.open.NoBlock? && Close(c, closed) == closed;
    hide Close, IncompleteToolText;
    if complete {
      JoinedSnoc(closed.blocks, RenderTool(c, tool, false).value);
      ClosedBlocks(c, SendDeferred(c, s, tools, complete, ToolAt(i)));
    } else {
      SendTextShape(c, closed, IncompleteToolText(ToolName(c, tool), tool.arguments));
    }
  }

  lemma ClosedBlocks(c: Context, s: Sent)
    requires s.open.NoBlock?
    ensures Close(c, s) == s
  {
  }

  lemma SendThinkingShape(c: Context, s: Sent, t: string, signature: Option<string>)
    requires NothingWaits(s) && !s.open.OpenThinking?
    ensures var next := SendThinking(c, s, t).(signature := signature);
            Shape(c, next)
            == AddJoined(Shape(c, s), Thinking(Shown(c, t), ReplaySafeSignature(signature, t, c.omitThinking, c.codec)))
  {
    var b := Thinking(Shown(c, t), ReplaySafeSignature(signature, t, c.omitThinking, c.codec));
    var closed := Close(c, s);
    assert closed.signature.None?;
    assert Close(c, SendThinking(c, s, t).(signature := signature)).blocks == closed.blocks + [b];
    hide Close, ReplaySafeSignature, AddJoined;
    JoinedSnoc(closed.blocks, b);
  }

  lemma SendDeferredShape(c: Context, s: Sent, tools: map<nat, ToolBuffer>, complete: bool, d: Semantic)
    requires NothingWaits(s) && "unknown" !in c.names.reverse
    requires d.ThinkingPart? ==> !s.open.OpenThinking?
    requires d.ToolAt? ==> SameTool(c, ToolSoFar(tools, d.index), complete)
    ensures RenderPart(c, tools, !complete, d).Some?
    ensures var next := SendDeferred(c, s, tools, complete, d);
            && NothingWaits(next) && (next.open.OpenThinking? ==> d.ThinkingPart?)
            && Shape(c, next) == AddJoined(Shape(c, s), RenderPart(c, tools, !complete, d).value)
  {
    match d {
      case TextPart(t) =>
        SendTextShape(c, s, t);
        hide Shape, AddJoined, SendText;
        SendTextOpensText(c, s, t);
      case ThinkingPart(t, signature) => SendThinkingShape(c, s, t, signature);
      case ToolAt(i) =>
        SendToolShape(c, s, tools, complete, i);
        hide Shape, AddJoined, SendDeferred, RenderTool;
    }
  }

  lemma SendTextOpensText(c: Context, s: Sent, text: string)
    ensures SendText(c, s, text).open.OpenText?
  {
  }

  lemma RenderSnoc(c: Context, tools: map<nat, ToolBuffer>, incomplete: bool, parts: seq<Semantic>, d: Semantic)
    ensures RenderAll(c, tools, incomplete, parts).Some? && RenderPart(c, tools, incomplete, d).Some? ==>
              RenderAll(c, tools, incomplete, parts + [d])
              == Some(RenderAll(c, tools, incomplete, parts).value + [RenderPart(c, tools, incomplete, d).value])
  {
    assert (parts + [d])[..|parts|] == parts;
  }

  ghost predicate SameTools(c: Context, deferred: seq<Semantic>, tools: map<nat, ToolBuffer>, complete: bool) {
    forall k :: 0 <= k < |deferred| && deferred[k].ToolAt? ==> SameTool(c, ToolSoFar(tools, deferred[k].index), complete)
  }

  lemma TailApart(c: Context, deferred: seq<Semantic>, tools: map<nat, ToolBuffer>, complete: bool)
    requires deferred != [] && Apart(deferred) && SameTools(c, deferred, tools, complete)
    ensures Apart(deferred[1..]) && SameTools(c, deferred[1..], tools, complete)
    ensures deferred[0].ToolAt? ==> SameTool(c, ToolSoFar(tools, deferred[0].index), complete)
    ensures deferred[0].ThinkingPart? && |deferred| > 1 ==> !deferred[1].ThinkingPart?
  {
  }

  lemma {:induction false} SendAllShape(c: Context, s: Sent, tools: map<nat, ToolBuffer>, complete: bool,
                                        pre: seq<Semantic>, deferred: seq<Semantic>)
    requires NothingWaits(s) && "unknown" !in c.names.reverse
    requires Apart(deferred)
    requires deferred != [] && deferred[0].ThinkingPart? ==> !s.open.OpenThinking?
    requires SameTools(c, deferred, tools, complete)
    requires RenderAll(c, tools, !complete, pre).Some? && Shape(c, s) == Joined(RenderAll(c, tools, !complete, pre).value)
    ensures RenderAll(c, tools, !complete, pre + deferred).Some?
    ensures Shape(c, SendAllDeferred(c, s, tools, complete, deferred))
            == Joined(RenderAll(c, tools, !complete, pre + deferred).value)
    decreases |deferred|
  {
    if deferred == [] {
      assert pre + deferred == pre;
    } else {
      var d, rest := deferred[0], deferred[1..];
      TailApart(c, deferred, tools, complete);
      hide Shape, SendDeferred, RenderPart, RenderAll, Joined, Apart, SameTool, SameTools, Close, ToolSoFar;
      SendDeferredShape(c, s, tools, complete, d);
      RenderSnoc(c, tools, !complete, pre, d);
      JoinedSnoc(RenderAll(c, tools, !complete, pre).value, RenderPart(c, tools, !complete, d).value);
      SendAllShape(c, SendDeferred(c, s, tools, complete, d), tools, complete, pre + [d], rest);
      assert deferred == [d] + rest;
      Shift(pre, d, rest);
    }
  }

  lemma {:induction false} RenderPlain(c: Context, tools: map<nat, ToolBuffer>, incomplete: bool, parts: seq<Semantic>)
    requires NoTools(parts)
    ensures RenderAll(c, tools, incomplete, parts) == Some(Plain(c, parts))
    decreases |parts|
  {
    if parts != [] { RenderPlain(c, tools, incomplete, parts[..|parts| - 1]); }
  }

  // Rendering fails exactly when a part fails.
  lemma {:induction false} RenderAllOrNone(c: Context, tools: map<nat, ToolBuffer>, incomplete: bool, parts: seq<Semantic>)
    ensures RenderAll(c, tools, incomplete, parts).Some? <==>
              forall k :: 0 <= k < |parts| ==> RenderPart(c, tools, incomplete, parts[k]).Some?
    ensures RenderAll(c, tools, incomplete, parts).Some? ==>
              |RenderAll(c, tools, incomplete, parts).value| == |parts|
              && forall k :: 0 <= k < |parts| ==>
                   RenderPart(c, tools, incomplete, parts[k]) == Some(RenderAll(c, tools, incomplete, parts).value[k])
    decreases |parts|
  {
    hide RenderPart;
    if parts != [] {
      RenderAllOrNone(c, tools, incomplete, parts[..|parts| - 1]);
      assert RenderPart(c, tools, incomplete, Last(parts)).None? ==>
               RenderPart(c, tools, incomplete, parts[|parts| - 1]).None?;
    }
  }

  // ---- the theorem ----

  // Both fail, or both succeed with the same blocks once adjacent texts are joined, and the same stop.
  predicate SameMessage(live: Option<Message>, buffered: Option<Message>) {
    match (live, buffered)
    case (None, None) => true
    case (Some(a), Some(b)) => Joined(a.content) == Joined(b.content) && a.stop == b.stop
    case _ => false
  }

  // The three guards on which the paths part: "stop" after tool calls, a tool call without arguments,
  // and refusal text under a finish reason neither path knows (only the buffered path accepts it).
  predicate StopsWithTools(l: Live, reason: string) { reason == "stop" && l.refusal == "" && l.tools != map[] }

  predicate SendsBareTool(c: Context, l: Live, reason: string) {
    && CompleteTools(l, reason)
    && (forall i :: i in l.tools ==> Sendable(c, l.tools[i]))
    && (exists i :: i in l.tools && l.tools[i].arguments == "")
  }

  predicate RefusesOddly(l: Live, reason: string) { !KnownReason(reason) && l.refusal != "" }

  predicate PathsPart(c: Context, l: Live, sawDone: bool) {
    var reason := ReasonFor(l, sawDone);
    reason.Some? && (StopsWithTools(l, reason.value) || SendsBareTool(c, l, reason.value) || RefusesOddly(l, reason.value))
  }

  lemma ReasonsAgree(c: Context, l: Live, b: Collected, pre: seq<Semantic>, sawDone: bool)
    requires Agree(c, l, b, pre)
    ensures ReasonFor(l, sawDone).Some? <==> FinishFor(b, sawDone).Some?
    ensures ReasonFor(l, sawDone).Some? ==> FinishFor(b, sawDone) == Some(StringFinish(ReasonFor(l, sawDone).value))
  {
  }

  lemma DeferredApart(c: Context, l: Live, pre: seq<Semantic>)
    requires Laid(c, l, pre)
    ensures Apart(l.deferred) && Close(c, l.sent).signature.None?
    ensures Close(c, l.sent).blocks == Plain(c, pre) && NoTools(pre)
  {
    var parts := pre + l.deferred;
    assert forall k :: 0 <= k < |l.deferred| ==> l.deferred[k] == parts[|pre| + k];
    assert forall k :: 0 <= k < |pre| ==> pre[k] == parts[k];
    if !l.deferring { ClosePlain(c, l.sent, pre); }
    ClosedStaysClosed(c, l.sent);
  }

  // What is sent after the blocks of `pre` renders like them.
  lemma SentContents(c: Context, l: Live, pre: seq<Semantic>, deferred: seq<Semantic>, complete: bool)
    requires Laid(c, l, pre) && Apart(deferred) && SameTools(c, deferred, l.tools, complete) && "unknown" !in c.names.reverse
    ensures RenderAll(c, l.tools, !complete, pre + deferred).Some?
    ensures Joined(Close(c, SendAllDeferred(c, Close(c, l.sent), l.tools, complete, deferred)).blocks)
            == Joined(RenderAll(c, l.tools, !complete, pre + deferred).value)
  {
    DeferredApart(c, l, pre);
    ClosedStaysClosed(c, l.sent);
    RenderPlain(c, l.tools, !complete, pre);
    var s := Close(c, l.sent);
    assert s.open == NoBlock;
    assert Shape(c, s) == Joined(Plain(c, pre));
    hide Close, Plain, Joined, SendAllDeferred, RenderAll, Apart, SameTools;
    SendAllShape(c, s, l.tools, complete, pre, deferred);
    assert Shape(c, SendAllDeferred(c, s, l.tools, complete, deferred))
           == Joined(Close(c, SendAllDeferred(c, s, l.tools, complete, deferred)).blocks);
  }

  // Away from the guards: the content is the same.
  lemma ContentsAgree(c: Context, l: Live, b: Collected, pre: seq<Semantic>, complete: bool)
    requires Agree(c, l, b, pre) && Tidy(l) && "unknown" !in c.names.reverse
    requires complete ==> forall i :: i in l.tools ==> Sendable(c, l.tools[i]) && l.tools[i].arguments != ""
    ensures RenderAll(c, b.tools, !complete, b.blocks).Some?
    ensures Joined(Close(c, SendAllDeferred(c, Close(c, l.sent), l.tools, complete, l.deferred)).blocks)
            == Joined(RenderAll(c, b.tools, !complete, b.blocks).value)
  {
    DeferredApart(c, l, pre);
    assert SameTools(c, l.deferred, l.tools, complete);
    hide Close, Plain, Joined, SendAllDeferred, RenderAll, Apart, Sendable, Laid;
    SentContents(c, l, pre, l.deferred, complete);
  }

  // Tool calls reach the buffered content, so it fails, or shows one.
  lemma BufferedNeedsTools(c: Context, l: Live, b: Collected, pre: seq<Semantic>, i: nat)
    requires Agree(c, l, b, pre) && Tidy(l) && i in l.tools
    ensures RenderAll(c, b.tools, false, b.blocks).Some? ==>
              && RenderTool(c, l.tools[i], false).Some?
              && RenderTool(c, l.tools[i], false).value in RenderAll(c, b.tools, false, b.blocks).value
  {
    assert ToolAt(i) in l.deferred;
    assert ToolAt(i) in b.blocks;
    RenderAllOrNone(c, b.tools, false, b.blocks);
    var k :| 0 <= k < |b.blocks| && b.blocks[k] == ToolAt(i);
    assert RenderPart(c, b.tools, false, b.blocks[k]) == RenderTool(c, l.tools[i], false);
  }

  function FromBuffered(c: Context, b: Collected, sawDone: bool, freshId: string): Option<Message> {
    if FinishFor(b, sawDone).None? then None else Transformed(c, b, FinishFor(b, sawDone).value, freshId)
  }

  // A reason neither path knows: the live path fails, the buffered one too unless it saw a refusal.
  lemma UnknownReason(c: Context, l: Live, b: Collected, pre: seq<Semantic>, reason: string, freshId: string)
    requires Agree(c, l, b, pre) && !KnownReason(reason)
    ensures Transformed(c, b, StringFinish(reason), freshId).Some? <==> l.refusal != ""
  {
    RenderAllOrNone(c, b.tools, true, b.blocks);
  }

  // Tool calls before "stop": live shows diagnostics, buffered calls them or fails.
  lemma StopsApart(c: Context, l: Live, b: Collected, pre: seq<Semantic>, freshId: string)
    requires Agree(c, l, b, pre) && Tidy(l) && StopsWithTools(l, "stop")
    ensures !SameMessage(Some(Concluded(c, l, "stop")), Transformed(c, b, StringFinish("stop"), freshId))
  {
    var i :| i in l.tools;
    BufferedNeedsTools(c, l, b, pre, i);
    DeferredApart(c, l, pre);
    PlainSendsNoTools(c, pre);
    DeferredSendsToolsOnlyComplete(c, Close(c, l.sent), l.tools, l.deferred);
    var live := Concluded(c, l, "stop").content;
    JoinedKeepsToolUse(live);
    if Transformed(c, b, StringFinish("stop"), freshId).Some? {
      var buffered := Transformed(c, b, StringFinish("stop"), freshId).value.content;
      JoinedKeepsToolUse(buffered);
      assert RenderTool(c, l.tools[i], false).value in buffered;
    }
  }

  lemma {:induction false} PlainSendsNoTools(c: Context, parts: seq<Semantic>)
    ensures NoToolUse(Plain(c, parts))
    decreases |parts|
  {
    if parts != [] { PlainSendsNoTools(c, parts[..|parts| - 1]); }
  }

  // Tools that cannot be called fail the buffered path; a missing argument list fails only there.
  lemma ToolsFail(c: Context, l: Live, b: Collected, pre: seq<Semantic>, reason: string, i: nat, freshId: string)
    requires Agree(c, l, b, pre) && Tidy(l) && CompleteTools(l, reason) && c.codec.parseObject("").None?
    requires i in l.tools && !SameTool(c, l.tools[i], true)
    ensures Transformed(c, b, StringFinish(reason), freshId).None?
  {
    BufferedNeedsTools(c, l, b, pre, i);
    assert ToolAt(i) in l.deferred;
    assert b.blocks != [];
  }

  // Where both paths finish, the contents decide.
  lemma ContentsDecide(c: Context, l: Live, b: Collected, reason: string, freshId: string)
    requires KnownReason(reason) && l.refusal == b.refusal && l.usage == b.usage
    requires ChatBufferedSpec.Content(c, b, reason == "length" || IsRefusal(reason, b.refusal), freshId)
             == RenderAll(c, b.tools, reason == "length" || IsRefusal(reason, b.refusal), b.blocks)
    requires RenderAll(c, b.tools, reason == "length" || IsRefusal(reason, b.refusal), b.blocks).Some?
    ensures SameMessage(Some(Concluded(c, l, reason)), Transformed(c, b, StringFinish(reason), freshId))
            <==> Joined(Concluded(c, l, reason).content)
                 == Joined(RenderAll(c, b.tools, reason == "length" || IsRefusal(reason, b.refusal), b.blocks).value)
  {
    hide RenderAll, ChatBufferedSpec.Content, Close, SendAllDeferred, Joined;
  }

  lemma MessagesAgree(c: Context, l: Live, b: Collected, pre: seq<Semantic>, reason: string, freshId: string)
    requires Agree(c, l, b, pre) && Tidy(l) && "unknown" !in c.names.reverse
    requires KnownReason(reason) && !StopsWithTools(l, reason)
    requires CompleteTools(l, reason) ==> forall i :: i in l.tools ==> SameTool(c, l.tools[i], true)
    ensures SameMessage(Some(Concluded(c, l, reason)), Transformed(c, b, StringFinish(reason), freshId))
  {
    hide RenderAll, Close, Joined, Laid, Transformed;
    var complete := !(reason == "length" || IsRefusal(reason, l.refusal));
    assert complete ==> CompleteTools(l, reason) || l.tools == map[];
    assert l.tools == map[] ==> l.deferred == [];
    ContentsAgree(c, l, b, pre, complete);
    NothingRenders(c, b, !complete, freshId);
    ContentsDecide(c, l, b, reason, freshId);
  }

  lemma NothingRenders(c: Context, b: Collected, incomplete: bool, freshId: string)
    requires b.legacy.None?
    ensures ChatBufferedSpec.Content(c, b, incomplete, freshId) == RenderAll(c, b.tools, incomplete, b.blocks)
  {
  }

  // One finished state against the other: same message exactly when no guard holds.
  lemma FinishAgrees(c: Context, l: Live, b: Collected, pre: seq<Semantic>, sawDone: bool, freshId: string)
    requires Agree(c, l, b, pre) && Tidy(l)
    requires "unknown" !in c.names.reverse && c.codec.parseObject("").None?
    ensures SameMessage(Finished(c, l, sawDone), FromBuffered(c, b, sawDone, freshId)) <==> !PathsPart(c, l, sawDone)
  {
    hide Tidy, Transformed, Concluded, Sendable, Arguments;
    ReasonsAgree(c, l, b, pre, sawDone);
    if ReasonFor(l, sawDone).Some? {
      var reason := ReasonFor(l, sawDone).value;
      if !KnownReason(reason) {
        UnknownReason(c, l, b, pre, reason, freshId);
      } else if StopsWithTools(l, reason) {
        StopsApart(c, l, b, pre, freshId);
      } else if CompleteTools(l, reason) && exists i :: i in l.tools && !SameTool(c, l.tools[i], true) {
        var i :| i in l.tools && !SameTool(c, l.tools[i], true);
        ToolsFail(c, l, b, pre, reason, i, freshId);
      } else {
        assert CompleteTools(l, reason) ==> forall i :: i in l.tools ==> SameTool(c, l.tools[i], true);
        MessagesAgree(c, l, b, pre, reason, freshId);
      }
    }
  }

  lemma AgreesFromStart(c: Context, liveId: string, events: seq<Event>) returns (pre: seq<Semantic>)
    requires (forall e :: e in events ==> OrdinaryEvent(e)) && EventsInTime(NOTHING, events)
    ensures OnEvents(c, Fresh(liveId), events).Some? <==> CollectEvents(NOTHING, events).Some?
    ensures OnEvents(c, Fresh(liveId), events).Some? ==>
              && Agree(c, OnEvents(c, Fresh(liveId), events).value, CollectEvents(NOTHING, events).value, pre)
              && Tidy(OnEvents(c, Fresh(liveId), events).value)
  {
    var l0 := Fresh(liveId);
    assert Agree(c, l0, NOTHING, []) by { assert [] + l0.deferred == []; }
    assert Tidy(l0);
    pre := EventsAgree(c, l0, NOTHING, [], events);
    if OnEvents(c, l0, events).Some? { EventsKeepTidy(c, l0, events); }
  }

  // For every stream of ordinary events whose signatures come in time: the frames sent live decode to the buffered message, up to
  // joining adjacent texts, exactly unless a guard holds; both paths fail on the same streams.
  lemma LiveEqualsBuffered(c: Context, liveId: string, freshId: string, events: seq<Event>, sawDone: bool)
    requires (forall e :: e in events ==> OrdinaryEvent(e)) && EventsInTime(NOTHING, events)
    requires "unknown" !in c.names.reverse && c.codec.parseObject("").None?
    ensures OnEvents(c, Fresh(liveId), events).None? ==>
              Convert(c, liveId, events, sawDone).None? && ConvertBuffered(c, freshId, events, sawDone).None?
    ensures OnEvents(c, Fresh(liveId), events).Some? ==>
              (SameMessage(Convert(c, liveId, events, sawDone), ConvertBuffered(c, freshId, events, sawDone))
               <==> !PathsPart(c, OnEvents(c, Fresh(liveId), events).value, sawDone))
  {
    var pre := AgreesFromStart(c, liveId, events);
    if OnEvents(c, Fresh(liveId), events).Some? {
      FinishAgrees(c, OnEvents(c, Fresh(liveId), events).value, CollectEvents(NOTHING, events).value, pre, sawDone, freshId);
    }
  }

  // The maps of real requests meet the demand on names: an alias is longer than "unknown".
  lemma RequestMapsSpareUnknown(names: seq<string>)
    requires 2 * |names| < TWO_64
    ensures "unknown" !in MapOf(ChatName, names).reverse
  {
    AliasMapTheorem(ChatName, names);
  }
}
