// Signatures that come late: when the live stream and the buffered conversion part on one.
module ChatSignatures {
  import opened Wrappers
  import opened ChatEvents
  import opened ChatLiveSpec
  import opened ChatBufferedSpec
  import opened ChatEquivalence
  import opened Anthropic
  import opened Marks

  // Replacing a block that is no text by another changes the joined blocks, unless it is the same.
  lemma JoinedUpdate(blocks: seq<Block>, i: nat, b: Block)
    requires i < |blocks| && !blocks[i].Text? && !b.Text?
    ensures Joined(blocks[i := b]) == Joined(blocks) <==> blocks[i] == b
    ensures |Solid(blocks[i := b])| == |Solid(blocks)|
  {
    var before, after := blocks[..i], blocks[i + 1..];
    assert blocks == (before + [blocks[i]]) + after && blocks[i := b] == (before + [b]) + after;
    SolidConcat(before + [blocks[i]], after);
    SolidConcat(before + [b], after);
    SolidSnoc(before, blocks[i]);
    SolidSnoc(before, b);
    SolidJoined(blocks);
    SolidJoined(blocks[i := b]);
    assert blocks[i] == b ==> blocks[i := b] == blocks;
    assert Solid(blocks)[|Solid(before)|] == blocks[i] && Solid(blocks[i := b])[|Solid(before)|] == b;
  }

  lemma JoinedExtra(blocks: seq<Block>, others: seq<Block>, b: Block)
    requires !b.Text? && |Solid(others)| == |Solid(blocks)|
    ensures Joined(blocks + [b]) != Joined(others)
  {
    SolidSnoc(blocks, b);
    SolidJoined(blocks + [b]);
    SolidJoined(others);
  }

  // ---- one late signature ----

  function Sealing(part: Semantic, signature: string): Semantic
    requires part.ThinkingPart?
  {
    ThinkingPart(part.text, Some(signature))
  }

  // The buffered path seals a block that has left the live stream, and it comes out as it left.
  predicate SealsAlike(c: Context, b: Collected, signature: string) {
    && b.tools == map[] && LastThinking(b.blocks).Some?
    && var part := b.blocks[LastThinking(b.blocks).value]; PlainPart(c, Sealing(part, signature)) == PlainPart(c, part)
  }

  // What the live stream shows of it: a block of its own behind a tool call, nothing otherwise.
  function ShownLive(b: Collected, signature: string): seq<Semantic> {
    if b.tools != map[] then b.blocks + [ThinkingPart("", Some(signature))] else b.blocks
  }

  lemma RenderSealed(c: Context, b: Collected, incomplete: bool, i: nat, part: Semantic)
    requires i < |b.blocks| && part.ThinkingPart? && RenderAll(c, b.tools, incomplete, b.blocks).Some?
    ensures |RenderAll(c, b.tools, incomplete, b.blocks).value| == |b.blocks|
    ensures RenderAll(c, b.tools, incomplete, b.blocks[i := part])
            == Some(RenderAll(c, b.tools, incomplete, b.blocks).value[i := PlainPart(c, part)])
  {
    hide RenderPart;
    RenderAllOrNone(c, b.tools, incomplete, b.blocks);
    RenderAllOrNone(c, b.tools, incomplete, b.blocks[i := part]);
    RenderThinking(c, b.tools, incomplete, part);
    var sealed_ := b.blocks[i := part];
    assert forall k :: 0 <= k < |sealed_| ==> RenderPart(c, b.tools, incomplete, sealed_[k]).Some?;
    var before, after := RenderAll(c, b.tools, incomplete, b.blocks).value, RenderAll(c, b.tools, incomplete, sealed_).value;
    assert |after| == |before|;
    forall k | 0 <= k < |sealed_| ensures after[k] == before[i := PlainPart(c, part)][k] {
      assert RenderPart(c, b.tools, incomplete, sealed_[k]) == Some(after[k]);
      assert RenderPart(c, b.tools, incomplete, b.blocks[k]) == Some(before[k]);
    }
    assert after == before[i := PlainPart(c, part)];
  }

  lemma RenderThinking(c: Context, tools: map<nat, ToolBuffer>, incomplete: bool, part: Semantic)
    requires part.ThinkingPart?
    ensures RenderPart(c, tools, incomplete, part) == Some(PlainPart(c, part)) && PlainPart(c, part).Thinking?
  {
  }

  // A late signature shows in one of the two contents, unless it seals alike.
  lemma LateContents(c: Context, b: Collected, incomplete: bool, signature: string)
    requires !InTime(b) && RenderAll(c, b.tools, incomplete, b.blocks).Some?
    ensures RenderAll(c, b.tools, incomplete, Sealed(b.blocks, signature)).Some?
    ensures RenderAll(c, b.tools, incomplete, ShownLive(b, signature)).Some?
    ensures Joined(RenderAll(c, b.tools, incomplete, ShownLive(b, signature)).value)
            == Joined(RenderAll(c, b.tools, incomplete, Sealed(b.blocks, signature)).value)
            <==> SealsAlike(c, b, signature)
  {
    var extra := ThinkingPart("", Some(signature));
    var blocks := RenderAll(c, b.tools, incomplete, b.blocks).value;
    RenderSnoc(c, b.tools, incomplete, b.blocks, extra);
    RenderThinking(c, b.tools, incomplete, extra);
    match LastThinking(b.blocks) {
      case None =>
        JoinedExtra(blocks, blocks, PlainPart(c, extra));
      case Some(i) =>
        var part := Sealing(b.blocks[i], signature);
        RenderSealed(c, b, incomplete, i, part);
        RenderAllOrNone(c, b.tools, incomplete, b.blocks);
        RenderThinking(c, b.tools, incomplete, b.blocks[i]);
        RenderThinking(c, b.tools, incomplete, part);
        JoinedUpdate(blocks, i, PlainPart(c, part));
        JoinedExtra(blocks, blocks[i := PlainPart(c, part)], PlainPart(c, extra));
    }
  }

  // The live content after a late signature and the end of the stream.
  lemma LateDeferred(c: Context, l: Live, b: Collected, pre: seq<Semantic>, signature: string, complete: bool)
    requires Agree(c, l, b, pre) && Tidy(l) && l.deferring && !Last(l.deferred).ThinkingPart? && "unknown" !in c.names.reverse
    requires complete ==> forall i :: i in l.tools ==> Sendable(c, l.tools[i]) && l.tools[i].arguments != ""
    ensures RenderAll(c, b.tools, !complete, b.blocks + [ThinkingPart("", Some(signature))]).Some?
    ensures Joined(Close(c, SendAllDeferred(c, Close(c, l.sent), l.tools, complete,
                                            l.deferred + [ThinkingPart("", Some(signature))])).blocks)
            == Joined(RenderAll(c, b.tools, !complete, b.blocks + [ThinkingPart("", Some(signature))]).value)
  {
    hide Close, Joined, SendAllDeferred, RenderAll, Plain, Sendable, SentIs;
    var extra := ThinkingPart("", Some(signature));
    DeferredApart(c, l, pre);
    assert Apart(l.deferred + [extra]);
    assert ChatEquivalence.SameTools(c, l.deferred + [extra], l.tools, complete);
    SentContents(c, l, pre, l.deferred + [extra], complete);
    assert pre + (l.deferred + [extra]) == b.blocks + [extra];
  }

  lemma LateOpen(c: Context, l: Live, b: Collected, pre: seq<Semantic>, signature: string)
    requires Agree(c, l, b, pre) && !l.deferring && !InTime(b)
    ensures TakeSignature(c, l, signature) == l.(sent := l.sent.(signature := Some(signature)))
    ensures Close(c, Close(c, l.sent.(signature := Some(signature)))).blocks == Close(c, Close(c, l.sent)).blocks
  {
    assert pre + [] == pre;
    ClosePlain(c, l.sent, pre);
    hide Plain, LastThinking;
  }

  lemma LateLive(c: Context, l: Live, b: Collected, pre: seq<Semantic>, signature: string, complete: bool)
    requires Agree(c, l, b, pre) && Tidy(l) && !InTime(b) && "unknown" !in c.names.reverse
    requires complete ==> forall i :: i in l.tools ==> Sendable(c, l.tools[i]) && l.tools[i].arguments != ""
    ensures RenderAll(c, b.tools, !complete, ShownLive(b, signature)).Some?
    ensures var late := TakeSignature(c, l, signature);
            Joined(Close(c, SendAllDeferred(c, Close(c, late.sent), l.tools, complete, late.deferred)).blocks)
            == Joined(RenderAll(c, b.tools, !complete, ShownLive(b, signature)).value)
  {
    if l.deferring {
      assert Last(l.deferred) == Last(b.blocks);
      LateDeferred(c, l, b, pre, signature, complete);
      hide Close, Joined, SendAllDeferred, RenderAll, Laid;
    } else {
      LateOpen(c, l, b, pre, signature);
      assert l.deferred == [] && l.tools == map[];
      hide Close, Joined, RenderAll, Laid, InTime;
      ContentsAgree(c, l, b, pre, complete);
    }
  }

  lemma LateFinish(c: Context, l: Live, b: Collected, pre: seq<Semantic>, signature: string, reason: string, freshId: string)
    requires Agree(c, l, b, pre) && Tidy(l) && !InTime(b) && "unknown" !in c.names.reverse
    requires KnownReason(reason) && !StopsWithTools(l, reason)
    requires CompleteTools(l, reason) ==> forall i :: i in l.tools ==> SameTool(c, l.tools[i], true)
    ensures SameMessage(Some(Concluded(c, TakeSignature(c, l, signature), reason)),
                        Transformed(c, b.(blocks := Sealed(b.blocks, signature)), StringFinish(reason), freshId))
            <==> SealsAlike(c, b, signature)
  {
    hide RenderAll, Close, Joined, Laid, SealsAlike, InTime, ShownLive, Transformed;
    var late := TakeSignature(c, l, signature);
    assert late.refusal == b.refusal && late.usage == b.usage && late.tools == b.tools && Sealed(b.blocks, signature) != [];
    assert l.tools == map[] ==> late.deferred == [];
    hide TakeSignature, Sealed;
    var complete := !(reason == "length" || IsRefusal(reason, l.refusal));
    assert complete ==> CompleteTools(l, reason) || l.tools == map[];
    LateLive(c, l, b, pre, signature, complete);
    ContentsAgree(c, l, b, pre, complete);
    LateContents(c, b, !complete, signature);
    NothingRenders(c, b.(blocks := Sealed(b.blocks, signature)), !complete, freshId);
    ContentsDecide(c, late, b.(blocks := Sealed(b.blocks, signature)), reason, freshId);
  }

  // A signature sent behind text is no loss when the first thinking follows: it takes it, on both paths.
  lemma SignatureBeforeThinking(c: Context, l: Live, b: Collected, pre: seq<Semantic>, signature: string, thought: string)
    requires Agree(c, l, b, pre) && l.tools == map[] && b.blocks != [] && LastThinking(b.blocks).None?
    ensures !InTime(b)
    ensures Agree(c, EmitThinking(c, TakeSignature(c, l.(semantic := true), signature), thought),
                  b.(blocks := AddThinking(Sealed(b.blocks, signature), thought)), pre + [ThinkingPart(thought, Some(signature))])
  {
    var part := ThinkingPart(thought, Some(signature));
    assert pre + [] == pre && pre + [part] + [] == pre + [part];
    ClosePlain(c, l.sent, pre);
    assert "" + thought == thought;
    assert AddThinking(Sealed(b.blocks, signature), thought) == pre + [part];
    SentIsSnoc(c, pre, part);
    hide Plain, SentIs, LastThinking, Sealed, AddThinking;
  }

  // ---- a stream that ends with a signature ----

  const SILENT := Delta(None, None, NoContent, None, [], None, None, None)

  function SignedEnd(signature: string, reason: string): Event {
    Event(None, None, None, None, None, Some(Choice(StringFinish(reason), SILENT.(signature := Some(signature)))))
  }

  lemma SignedEndPieces(signature: string, reason: string)
    ensures LivePieces(SignedEnd(signature, reason).choice.value.delta) == [Signature(signature)]
    ensures BufferedPieces(SignedEnd(signature, reason).choice.value.delta) == [Signature(signature)]
  {
  }

  lemma {:induction false} CollectEventsSnoc(b: Collected, events: seq<Event>, e: Event)
    requires CollectEvents(b, events).Some?
    ensures CollectEvents(b, events + [e]) == CollectEvent(CollectEvents(b, events).value, e)
    decreases |events|
  {
    hide CollectEvent;
    if events == [] {
      assert events + [e] == [e];
      if CollectEvent(b, e).Some? { assert CollectEvents(CollectEvent(b, e).value, []) == CollectEvent(b, e); }
    } else {
      assert (events + [e])[0] == events[0] && (events + [e])[1..] == events[1..] + [e];
      CollectEventsSnoc(CollectEvent(b, events[0]).value, events[1..], e);
    }
  }

  lemma OnEventsSnoc(c: Context, l: Live, events: seq<Event>, e: Event)
    requires OnEvents(c, l, events).Some?
    ensures OnEvents(c, l, events + [e]) == OnEvent(c, OnEvents(c, l, events).value, e)
  {
    hide OnEvent;
    OnEventsConcat(c, l, events, [e]);
    var m := OnEvents(c, l, events).value;
    if OnEvent(c, m, e).Some? { assert OnEvents(c, OnEvent(c, m, e).value, []) == OnEvent(c, m, e); }
  }

  function LiveAfter(c: Context, l: Live, signature: string, reason: string): Live {
    TakeSignature(c, l.(started := true, semantic := true), signature).(finish := Some(reason))
  }

  function CollectedAfter(b: Collected, signature: string, reason: string): Collected {
    b.(blocks := Sealed(b.blocks, signature), finish := StringFinish(reason))
  }

  lemma SignedEndStates(c: Context, l: Live, b: Collected, signature: string, reason: string)
    requires l.finish.None? && b.finish == NoFinish && reason != ""
    ensures OnEvent(c, l, SignedEnd(signature, reason)) == Some(LiveAfter(c, l, signature, reason))
    ensures CollectEvent(b, SignedEnd(signature, reason)) == Some(CollectedAfter(b, signature, reason))
  {
    SignedEndPieces(signature, reason);
    ApplyOne(c, l.(started := true), Signature(signature));
    CollectOne(b, Signature(signature));
    hide LivePieces, BufferedPieces, TakeSignature, Sealed, ApplyAll, CollectAll;
    assert Header(l, SignedEnd(signature, reason)) == l && HeaderOf(b, SignedEnd(signature, reason)) == b;
  }

  lemma ToolsStay(c: Context, l: Live, signature: string, reason: string)
    ensures LiveAfter(c, l, signature, reason).tools == l.tools && LiveAfter(c, l, signature, reason).refusal == l.refusal
  {
    hide Close, SendThinking;
  }

  lemma InTimeFinish(c: Context, l: Live, b: Collected, pre: seq<Semantic>, signature: string, reason: string, sawDone: bool,
                     freshId: string)
    requires Agree(c, l, b, pre) && Tidy(l) && InTime(b) && reason != ""
    requires "unknown" !in c.names.reverse && c.codec.parseObject("").None?
    requires !PathsPart(c, LiveAfter(c, l, signature, reason), sawDone)
    ensures SameMessage(Finished(c, LiveAfter(c, l, signature, reason), sawDone),
                        FromBuffered(c, CollectedAfter(b, signature, reason), sawDone, freshId))
  {
    var begun := l.(started := true, semantic := true);
    TakeSignatureKeepsTidy(c, begun, signature);
    assert Agree(c, l.(started := true), b, pre) by { assert Laid(c, l.(started := true), pre); }
    hide InTime, Sealed, TakeSignature, PathsPart, FromBuffered, Finished;
    var next := PieceAgrees(c, l.(started := true), b, pre, Signature(signature));
    assert Laid(c, LiveAfter(c, l, signature, reason), next);
    hide Laid;
    FinishAgrees(c, LiveAfter(c, l, signature, reason), CollectedAfter(b, signature, reason), next, sawDone, freshId);
  }

  // What finishing without a guard asks of the tools.
  lemma FinishedIs(c: Context, l: Live, reason: string, sawDone: bool)
    requires l.finish == Some(reason) && Finished(c, l, sawDone).Some? && !PathsPart(c, l, sawDone)
    ensures Finished(c, l, sawDone) == Some(Concluded(c, l, reason)) && !StopsWithTools(l, reason)
    ensures CompleteTools(l, reason) ==> forall i :: i in l.tools ==> SameTool(c, l.tools[i], true)
  {
    hide Concluded, Sendable, KnownReason;
  }

  lemma FinishIsNoPart(c: Context, l: Live, b: Collected, reason: string, freshId: string)
    ensures Concluded(c, l.(finish := Some(reason)), reason) == Concluded(c, l, reason)
    ensures FromBuffered(c, b.(finish := StringFinish(reason)), false, freshId) == Transformed(c, b, StringFinish(reason), freshId)
    ensures FromBuffered(c, b.(finish := StringFinish(reason)), true, freshId) == Transformed(c, b, StringFinish(reason), freshId)
  {
    hide SendAllDeferred, Close, RenderAll;
  }

  lemma LateStates(c: Context, l: Live, b: Collected, pre: seq<Semantic>, signature: string, reason: string, sawDone: bool,
                   freshId: string)
    requires Agree(c, l, b, pre) && Tidy(l) && !InTime(b) && KnownReason(reason) && "unknown" !in c.names.reverse
    requires Finished(c, LiveAfter(c, l, signature, reason), sawDone).Some?
    requires !PathsPart(c, LiveAfter(c, l, signature, reason), sawDone)
    ensures SameMessage(Finished(c, LiveAfter(c, l, signature, reason), sawDone),
                        FromBuffered(c, CollectedAfter(b, signature, reason), sawDone, freshId))
            <==> SealsAlike(c, b, signature)
  {
    var begun := l.(started := true, semantic := true);
    assert Agree(c, begun, b, pre) && Tidy(begun) by { assert Laid(c, begun, pre); }
    var live := LiveAfter(c, l, signature, reason);
    ToolsStay(c, l, signature, reason);
    hide SealsAlike, Laid, Agree, Tidy, Finished, Concluded, PathsPart, SameMessage, TakeSignature, FromBuffered, Transformed,
         Sealed, InTime, KnownReason;
    FinishedIs(c, live, reason, sawDone);
    FinishIsNoPart(c, TakeSignature(c, begun, signature), b.(blocks := Sealed(b.blocks, signature)), reason, freshId);
    LateFinish(c, begun, b, pre, signature, reason, freshId);
  }

  // A stream that ends with a signature, right after events whose signatures came in time: both paths give one
  // message if and only if this one comes in time too, or changes nothing in the block it seals.
  lemma LastSignatureExactly(c: Context, liveId: string, freshId: string, events: seq<Event>, signature: string,
                             reason: string, sawDone: bool)
    requires (forall e :: e in events ==> OrdinaryEvent(e)) && EventsInTime(NOTHING, events)
    requires "unknown" !in c.names.reverse && c.codec.parseObject("").None? && KnownReason(reason)
    requires OnEvents(c, Fresh(liveId), events).Some? && OnEvents(c, Fresh(liveId), events).value.finish.None?
    requires Convert(c, liveId, events + [SignedEnd(signature, reason)], sawDone).Some?
    requires !PathsPart(c, OnEvents(c, Fresh(liveId), events + [SignedEnd(signature, reason)]).value, sawDone)
    ensures CollectEvents(NOTHING, events).Some?
    ensures var all, collected := events + [SignedEnd(signature, reason)], CollectEvents(NOTHING, events).value;
            SameMessage(Convert(c, liveId, all, sawDone), ConvertBuffered(c, freshId, all, sawDone))
            <==> InTime(collected) || SealsAlike(c, collected, signature)
  {
    var pre := AgreesFromStart(c, liveId, events);
    var l, b := OnEvents(c, Fresh(liveId), events).value, CollectEvents(NOTHING, events).value;
    OnEventsSnoc(c, Fresh(liveId), events, SignedEnd(signature, reason));
    CollectEventsSnoc(NOTHING, events, SignedEnd(signature, reason));
    hide OnEvents, CollectEvents, OnEvent, CollectEvent, SealsAlike, InTime, PathsPart, Finished, Transformed, Tidy;
    SignedEndStates(c, l, b, signature, reason);
    hide Agree, LiveAfter, CollectedAfter;
    if InTime(b) {
      InTimeFinish(c, l, b, pre, signature, reason, sawDone, freshId);
    } else {
      LateStates(c, l, b, pre, signature, reason, sawDone, freshId);
    }
  }

  // Without tool calls no guard is in the way.
  lemma SignatureThenStop(c: Context, liveId: string, freshId: string, events: seq<Event>, signature: string)
    requires (forall e :: e in events ==> OrdinaryEvent(e)) && EventsInTime(NOTHING, events)
    requires "unknown" !in c.names.reverse && c.codec.parseObject("").None?
    requires CollectEvents(NOTHING, events).Some?
    requires CollectEvents(NOTHING, events).value.tools == map[] && CollectEvents(NOTHING, events).value.finish == NoFinish
    ensures var all, collected := events + [SignedEnd(signature, "stop")], CollectEvents(NOTHING, events).value;
            SameMessage(Convert(c, liveId, all, false), ConvertBuffered(c, freshId, all, false))
            <==> InTime(collected) || SealsAlike(c, collected, signature)
  {
    hide OnEvents, OnEvent, CollectEvents, CollectEvent, Concluded, Transformed, SealsAlike, InTime;
    var pre := AgreesFromStart(c, liveId, events);
    var l, b := OnEvents(c, Fresh(liveId), events).value, CollectEvents(NOTHING, events).value;
    assert l.tools == map[] && l.finish.None?;
    hide Agree, Tidy;
    OnEventsSnoc(c, Fresh(liveId), events, SignedEnd(signature, "stop"));
    SignedEndStates(c, l, b, signature, "stop");
    ToolsStay(c, l, signature, "stop");
    LastSignatureExactly(c, liveId, freshId, events, signature, "stop", false);
  }

  // ---- thinking, text, and then the signature of the thinking ----

  function ThoughtThenText(thought: string, text: string): Event {
    Event(None, None, None, None, None,
          Some(Choice(NoFinish, SILENT.(reasoning := Some(thought), content := TextContent(text)))))
  }

  lemma ThoughtThenTextPieces(thought: string, text: string)
    requires thought != "" && text != ""
    ensures BufferedPieces(ThoughtThenText(thought, text).choice.value.delta) == [Reasoning(thought)] + [Say(text)]
  {
  }

  lemma ThoughtThenTextCollected(thought: string, text: string)
    requires thought != "" && text != ""
    ensures CollectEvents(NOTHING, [ThoughtThenText(thought, text)])
            == Some(NOTHING.(blocks := [ThinkingPart(thought, None), TextPart(text)]))
  {
    var e := ThoughtThenText(thought, text);
    ThoughtThenTextPieces(thought, text);
    hide BufferedPieces;
    var thinking := NOTHING.(blocks := [ThinkingPart(thought, None)]);
    CollectAllConcat(NOTHING, [Reasoning(thought)], [Say(text)]);
    CollectOne(NOTHING, Reasoning(thought));
    assert AddThinking([], thought) == thinking.blocks;
    assert Collect(NOTHING, Reasoning(thought)) == Some(thinking);
    CollectOne(thinking, Say(text));
    assert AddText(thinking.blocks, text) == [ThinkingPart(thought, None), TextPart(text)];
    hide CollectAll;
    assert HeaderOf(NOTHING, e) == NOTHING;
    CollectEventsSnoc(NOTHING, [], e);
    assert [] + [e] == [e];
  }

  lemma ThoughtSealed(c: Context, thought: string, text: string, signature: string)
    ensures var b := NOTHING.(blocks := [ThinkingPart(thought, None), TextPart(text)]);
            && !InTime(b)
            && (SealsAlike(c, b, signature)
                <==> ReplaySafeSignature(Some(signature), thought, c.omitThinking, c.codec)
                     == ReplaySafeSignature(None, thought, c.omitThinking, c.codec))
  {
    hide ReplaySafeSignature;
    var blocks := [ThinkingPart(thought, None), TextPart(text)];
    assert LastThinking(blocks[..1]) == Some(0);
    assert LastThinking(blocks) == Some(0);
  }

  // The buffered message seals the thinking, the live one has sent it: they agree just when that shows nowhere.
  lemma SignatureBehindText(c: Context, liveId: string, freshId: string, thought: string, text: string, signature: string)
    requires thought != "" && text != "" && "unknown" !in c.names.reverse && c.codec.parseObject("").None?
    ensures var all := [ThoughtThenText(thought, text), SignedEnd(signature, "stop")];
            SameMessage(Convert(c, liveId, all, false), ConvertBuffered(c, freshId, all, false))
            <==> ReplaySafeSignature(Some(signature), thought, c.omitThinking, c.codec)
                 == ReplaySafeSignature(None, thought, c.omitThinking, c.codec)
  {
    var e := ThoughtThenText(thought, text);
    assert OrdinaryEvent(e) && WithItsReasoning(e);
    hide CollectEvents, Convert, ConvertBuffered, ReplaySafeSignature, SameMessage, SealsAlike, InTime, EventsInTime,
         ThoughtThenText, SignedEnd, OrdinaryEvent, WithItsReasoning;
    ThoughtThenTextCollected(thought, text);
    AllTogetherInTime(NOTHING, [e]);
    ThoughtSealed(c, thought, text, signature);
    assert [e] + [SignedEnd(signature, "stop")] == [e, SignedEnd(signature, "stop")];
    SignatureThenStop(c, liveId, freshId, [e], signature);
  }

  // An instance: the thinking is shown, and its upstream signature is not the one the router makes up.
  lemma SignaturesPart(c: Context, liveId: string, freshId: string)
    requires "unknown" !in c.names.reverse && c.codec.parseObject("").None? && !c.omitThinking && c.codec.encode("a") != "sig"
    ensures var all := [ThoughtThenText("a", "b"), SignedEnd("sig", "stop")];
            !SameMessage(Convert(c, liveId, all, false), ConvertBuffered(c, freshId, all, false))
  {
    hide Convert, ConvertBuffered;
    SignatureBehindText(c, liveId, freshId, "a", "b", "sig");
  }
}
