// What a Chat message says and in which order, told from the fields of the events alone.
module ChatTranscript {
  import opened Wrappers
  import opened ChatEvents
  import opened ChatLiveSpec
  import opened ChatTools
  import opened Anthropic
  import opened Marks

  // ---- the transcript of the events ----

  // What a call comes to, once all its fragments are there.
  type Calls = nat -> seq<Mark>

  // Other content is shown as its JSON, or by its size when it is long.
  function JsonSaid(json: JsonText): string {
    if |json| <= 4096 then json else "[unsupported upstream content omitted: " + Decimal(|json|) + " chars]"
  }

  function PartSaid(p: ContentPart): string {
    match p
    case RawText(t) => t
    case TypedText(t) => t
    case ImagePart => "[generated image omitted]"
    case OtherPart(json) => JsonSaid(json)
  }

  lemma SaidAlike(p: ContentPart)
    ensures PartSaid(p) == PartText(p)
  {
  }

  function PartsText(parts: seq<ContentPart>): string {
    if parts == [] then "" else PartSaid(parts[0]) + PartsText(parts[1..])
  }

  function ContentText(content: Content): string {
    match content
    case NoContent => ""
    case TextContent(t) => t
    case PartsContent(parts) => PartsText(parts)
  }

  function NoteText(d: Delta): string {
    (if d.citations.Some? then JsonSaid(d.citations.value) else "")
    + (if d.outputBlock.Some? then JsonSaid(d.outputBlock.value) else "")
  }

  // Each call shows where its first fragment is.
  function CallMarks(calls: Calls, deltas: seq<ToolDelta>, seen: set<nat>): seq<Mark> {
    if deltas == [] then []
    else (if deltas[0].index in seen then [] else calls(deltas[0].index)) + CallMarks(calls, deltas[1..], seen + {deltas[0].index})
  }

  function SeenIn(deltas: seq<ToolDelta>): set<nat> { if deltas == [] then {} else {deltas[0].index} + SeenIn(deltas[1..]) }

  function LegacyMarks(calls: Calls, d: Delta, seen: set<nat>): seq<Mark> {
    if d.functionCall.None? || 0 in seen then [] else calls(0)
  }

  function LegacySeen(d: Delta): set<nat> { if d.functionCall.None? then {} else {0} }

  function HeadMarks(c: Context, d: Delta): seq<Mark> {
    Thoughts(if c.omitThinking then "" else d.reasoning.GetOr("")) + Chars(ContentText(d.content)) + Chars(d.refusal.GetOr(""))
  }

  // Reasoning, text, refusal, calls, and then annotations.
  function DeltaMarks(c: Context, calls: Calls, d: Delta, seen: set<nat>): seq<Mark> {
    HeadMarks(c, d) + CallMarks(calls, d.toolCalls, seen) + LegacyMarks(calls, d, seen + SeenIn(d.toolCalls)) + Chars(NoteText(d))
  }

  function SeenWithDelta(d: Delta, seen: set<nat>): set<nat> { seen + SeenIn(d.toolCalls) + LegacySeen(d) }

  function Transcript(c: Context, calls: Calls, deltas: seq<Delta>, seen: set<nat>): seq<Mark>
    decreases |deltas|
  {
    if deltas == [] then []
    else
      DeltaMarks(c, calls, deltas[0], seen)
      + Transcript(c, calls, deltas[1..], SeenWithDelta(deltas[0], seen))
  }

  // ---- the transcript of pieces ----

  function PieceMarks(c: Context, calls: Calls, p: Piece, seen: set<nat>): seq<Mark> {
    match p
    case Reasoning(t) => Thoughts(Shown(c, t))
    case Signature(_) => []
    case Say(t) => Chars(t)
    case Refuse(t) => Chars(t)
    case Tool(d) => if d.index in seen then [] else calls(d.index)
    case Legacy(_) => if 0 in seen then [] else calls(0)
  }

  function SeenWith(p: Piece, seen: set<nat>): set<nat> {
    if p.Tool? then seen + {p.delta.index} else if p.Legacy? then seen + {0} else seen
  }

  function PiecesMarks(c: Context, calls: Calls, pieces: seq<Piece>, seen: set<nat>): seq<Mark>
    decreases |pieces|
  {
    if pieces == [] then [] else PieceMarks(c, calls, pieces[0], seen) + PiecesMarks(c, calls, pieces[1..], SeenWith(pieces[0], seen))
  }

  function SeenAfter(pieces: seq<Piece>, seen: set<nat>): set<nat>
    decreases |pieces|
  {
    if pieces == [] then seen else SeenAfter(pieces[1..], SeenWith(pieces[0], seen))
  }

  lemma {:induction false} PiecesMarksConcat(c: Context, calls: Calls, a: seq<Piece>, b: seq<Piece>, seen: set<nat>)
    ensures PiecesMarks(c, calls, a + b, seen) == PiecesMarks(c, calls, a, seen) + PiecesMarks(c, calls, b, SeenAfter(a, seen))
    ensures SeenAfter(a + b, seen) == SeenAfter(b, SeenAfter(a, seen))
    decreases |a|
  {
    hide PieceMarks, SeenWith;
    if a == [] {
      assert a + b == b;
    } else {
      assert (a + b)[0] == a[0] && (a + b)[1..] == a[1..] + b;
      PiecesMarksConcat(c, calls, a[1..], b, SeenWith(a[0], seen));
      Assoc(PieceMarks(c, calls, a[0], seen), PiecesMarks(c, calls, a[1..], SeenWith(a[0], seen)),
            PiecesMarks(c, calls, b, SeenAfter(a, seen)));
    }
  }

  lemma OnePieceMarks(c: Context, calls: Calls, p: Piece, seen: set<nat>)
    ensures PiecesMarks(c, calls, [p], seen) == PieceMarks(c, calls, p, seen)
    ensures SeenAfter([p], seen) == SeenWith(p, seen)
  {
    hide PieceMarks, SeenWith;
    assert [p][1..] == [];
    assert PieceMarks(c, calls, p, seen) + [] == PieceMarks(c, calls, p, seen);
  }

  // A piece for every text that is not empty shows that text.
  lemma SaidMarks(c: Context, calls: Calls, t: string, seen: set<nat>)
    ensures PiecesMarks(c, calls, Spoken(t), seen) == Chars(t) && SeenAfter(Spoken(t), seen) == seen
  {
    if t != "" { OnePieceMarks(c, calls, Say(t), seen); }
  }

  lemma {:induction false} PartsMarks(c: Context, calls: Calls, parts: seq<ContentPart>, seen: set<nat>)
    ensures PiecesMarks(c, calls, SpokenParts(parts), seen) == Chars(PartsText(parts)) && SeenAfter(SpokenParts(parts), seen) == seen
    decreases |parts|
  {
    hide PiecesMarks, SeenAfter, PartText, Spoken;
    if parts == [] {
      SaidMarks(c, calls, "", seen);
      EmptyMarks(c, calls, seen);
    } else {
      SaidAlike(parts[0]);
      hide PartSaid;
      SaidMarks(c, calls, PartText(parts[0]), seen);
      PartsMarks(c, calls, parts[1..], seen);
      PiecesMarksConcat(c, calls, Spoken(PartText(parts[0])), SpokenParts(parts[1..]), seen);
      MarksConcat(PartText(parts[0]), PartsText(parts[1..]));
    }
  }

  lemma EmptyMarks(c: Context, calls: Calls, seen: set<nat>)
    ensures PiecesMarks(c, calls, [], seen) == [] && SeenAfter([], seen) == seen && Chars("") == [] && Thoughts("") == []
  {
  }

  lemma {:induction false} ToolListMarks(c: Context, calls: Calls, deltas: seq<ToolDelta>, seen: set<nat>)
    ensures PiecesMarks(c, calls, ToolList(deltas), seen) == CallMarks(calls, deltas, seen)
    ensures SeenAfter(ToolList(deltas), seen) == seen + SeenIn(deltas)
    decreases |deltas|
  {
    if deltas != [] {
      ToolListMarks(c, calls, deltas[1..], seen + {deltas[0].index});
      assert ToolList(deltas)[0] == Tool(deltas[0]) && ToolList(deltas)[1..] == ToolList(deltas[1..]);
    }
  }

  lemma DeltaPieces(c: Context, calls: Calls, d: Delta, seen: set<nat>)
    ensures PiecesMarks(c, calls, LivePieces(d), seen) == DeltaMarks(c, calls, d, seen)
    ensures SeenAfter(LivePieces(d), seen) == seen + SeenIn(d.toolCalls) + LegacySeen(d)
  {
    var head, tool, note := HeadPieces(d), ToolPieces(d), NotePieces(d);
    HeadPiecesMarks(c, calls, d, seen);
    ToolPiecesMarks(c, calls, d, seen);
    NotePiecesMarks(c, calls, d, SeenAfter(tool, seen));
    hide PiecesMarks, SeenAfter, HeadPieces, ToolPieces, NotePieces, HeadMarks, CallMarks, LegacyMarks, LegacySeen, SeenIn, NoteText;
    PiecesMarksConcat(c, calls, head + tool, note, seen);
    PiecesMarksConcat(c, calls, head, tool, seen);
    Assoc(HeadMarks(c, d), CallMarks(calls, d.toolCalls, seen), LegacyMarks(calls, d, seen + SeenIn(d.toolCalls)));
  }

  lemma ContentPiecesMarks(c: Context, calls: Calls, content: Content, seen: set<nat>)
    ensures PiecesMarks(c, calls, ContentPieces(content), seen) == Chars(ContentText(content))
    ensures SeenAfter(ContentPieces(content), seen) == seen
  {
    hide PiecesMarks, SeenAfter, Spoken, SpokenParts, PartsText;
    match content {
      case NoContent => EmptyMarks(c, calls, seen);
      case TextContent(t) => SaidMarks(c, calls, t, seen);
      case PartsContent(parts) => PartsMarks(c, calls, parts, seen);
    }
  }

  // At most one piece, for a text that is there and not empty.
  lemma MaybeMarks(c: Context, calls: Calls, p: Piece, there: bool, seen: set<nat>)
    requires Speaks(p)
    ensures PiecesMarks(c, calls, if there then [p] else [], seen) == if there then PieceMarks(c, calls, p, seen) else []
    ensures SeenAfter(if there then [p] else [], seen) == seen
  {
    OnePieceMarks(c, calls, p, seen);
  }

  function ReasoningPieces(d: Delta): seq<Piece> {
    if d.reasoning.Some? && d.reasoning.value != "" then [Reasoning(d.reasoning.value)] else []
  }

  function SigningPieces(d: Delta): seq<Piece> { if d.signature.Some? then [Signature(d.signature.value)] else [] }

  function RefusalPieces(d: Delta): seq<Piece> {
    if d.refusal.Some? && d.refusal.value != "" then [Refuse(d.refusal.value)] else []
  }

  lemma SmallPieces(c: Context, calls: Calls, d: Delta, seen: set<nat>)
    ensures PiecesMarks(c, calls, ReasoningPieces(d), seen) == Thoughts(Shown(c, d.reasoning.GetOr("")))
    ensures PiecesMarks(c, calls, SigningPieces(d), seen) == []
    ensures PiecesMarks(c, calls, RefusalPieces(d), seen) == Chars(d.refusal.GetOr(""))
    ensures SeenAfter(ReasoningPieces(d), seen) == SeenAfter(SigningPieces(d), seen) == SeenAfter(RefusalPieces(d), seen) == seen
  {
    MaybeMarks(c, calls, Reasoning(d.reasoning.GetOr("")), d.reasoning.Some? && d.reasoning.value != "", seen);
    MaybeMarks(c, calls, Signature(d.signature.GetOr("")), d.signature.Some?, seen);
    MaybeMarks(c, calls, Refuse(d.refusal.GetOr("")), d.refusal.Some? && d.refusal.value != "", seen);
    EmptyMarks(c, calls, seen);
    hide PiecesMarks, SeenAfter;
  }

  lemma HeadPiecesMarks(c: Context, calls: Calls, d: Delta, seen: set<nat>)
    ensures PiecesMarks(c, calls, HeadPieces(d), seen) == HeadMarks(c, d) && SeenAfter(HeadPieces(d), seen) == seen
  {
    var r, s, t, f := ReasoningPieces(d), SigningPieces(d), ContentPieces(d.content), RefusalPieces(d);
    assert HeadPieces(d) == r + s + t + f;
    hide PiecesMarks, SeenAfter, ContentPieces, ContentText, HeadPieces, ReasoningPieces, SigningPieces, RefusalPieces, Shown;
    SmallPieces(c, calls, d, seen);
    ContentPiecesMarks(c, calls, d.content, seen);
    PiecesMarksConcat(c, calls, r + s + t, f, seen);
    PiecesMarksConcat(c, calls, r + s, t, seen);
    PiecesMarksConcat(c, calls, r, s, seen);
    assert Thoughts(Shown(c, d.reasoning.GetOr(""))) + [] == Thoughts(Shown(c, d.reasoning.GetOr("")));
  }

  lemma ToolPiecesMarks(c: Context, calls: Calls, d: Delta, seen: set<nat>)
    ensures PiecesMarks(c, calls, ToolPieces(d), seen)
            == CallMarks(calls, d.toolCalls, seen) + LegacyMarks(calls, d, seen + SeenIn(d.toolCalls))
    ensures SeenAfter(ToolPieces(d), seen) == seen + SeenIn(d.toolCalls) + LegacySeen(d)
  {
    var tools := ToolList(d.toolCalls);
    ToolListMarks(c, calls, d.toolCalls, seen);
    if d.functionCall.Some? {
      OnePieceMarks(c, calls, Legacy(d.functionCall.value), seen + SeenIn(d.toolCalls));
      hide PiecesMarks, SeenAfter, ToolList, CallMarks;
      PiecesMarksConcat(c, calls, tools, [Legacy(d.functionCall.value)], seen);
    } else {
      hide PiecesMarks, SeenAfter, ToolList, CallMarks;
      assert tools + [] == tools;
    }
  }

  lemma NotePiecesMarks(c: Context, calls: Calls, d: Delta, seen: set<nat>)
    ensures PiecesMarks(c, calls, NotePieces(d), seen) == Chars(NoteText(d)) && SeenAfter(NotePieces(d), seen) == seen
  {
    var cites, blocks := d.citations.Some?, d.outputBlock.Some?;
    var a := if cites then [Say(BoundedJson(d.citations.value))] else [];
    var b := if blocks then [Say(BoundedJson(d.outputBlock.value))] else [];
    if cites { MaybeMarks(c, calls, Say(BoundedJson(d.citations.value)), true, seen); }
    if blocks { MaybeMarks(c, calls, Say(BoundedJson(d.outputBlock.value)), true, seen); }
    EmptyMarks(c, calls, seen);
    MarksConcat(if cites then BoundedJson(d.citations.value) else "", if blocks then BoundedJson(d.outputBlock.value) else "");
    hide PiecesMarks, SeenAfter, BoundedJson;
    PiecesMarksConcat(c, calls, a, b, seen);
    assert NotePieces(d) == a + b;
  }

  // ---- what the live stream has sent and deferred ----

  function PartMarks(c: Context, calls: Calls, part: Semantic): seq<Mark> {
    match part
    case TextPart(t) => Chars(t)
    case ThinkingPart(t, _) => Thoughts(Shown(c, t))
    case ToolAt(i) => calls(i)
  }

  function FlatParts(c: Context, calls: Calls, parts: seq<Semantic>): seq<Mark>
    decreases |parts|
  {
    if parts == [] then [] else FlatParts(c, calls, parts[..|parts| - 1]) + PartMarks(c, calls, parts[|parts| - 1])
  }

  lemma FlatPartsSnoc(c: Context, calls: Calls, parts: seq<Semantic>, part: Semantic)
    ensures FlatParts(c, calls, parts + [part]) == FlatParts(c, calls, parts) + PartMarks(c, calls, part)
  {
    assert (parts + [part])[..|parts|] == parts;
  }

  lemma {:induction false} FlatPartsCons(c: Context, calls: Calls, part: Semantic, parts: seq<Semantic>)
    ensures FlatParts(c, calls, [part] + parts) == PartMarks(c, calls, part) + FlatParts(c, calls, parts)
    decreases |parts|
  {
    hide PartMarks;
    if parts == [] {
      FlatPartsSnoc(c, calls, [], part);
      assert [] + [part] == [part] + [];
    } else {
      var init, last := parts[..|parts| - 1], parts[|parts| - 1];
      FlatPartsCons(c, calls, part, init);
      assert [part] + parts == ([part] + init) + [last];
      FlatPartsSnoc(c, calls, [part] + init, last);
      Assoc(PartMarks(c, calls, part), FlatParts(c, calls, init), PartMarks(c, calls, last));
    }
  }

  lemma ThoughtsConcat(c: Context, a: string, b: string)
    ensures Thoughts(Shown(c, a + b)) == Thoughts(Shown(c, a)) + Thoughts(Shown(c, b))
  {
    MarksConcat(a, b);
  }

  // More text at the end is more characters at the end.
  lemma AddMarks(c: Context, calls: Calls, parts: seq<Semantic>, t: string)
    ensures FlatParts(c, calls, AddText(parts, t)) == FlatParts(c, calls, parts) + Chars(t)
    ensures FlatParts(c, calls, AddThinking(parts, t)) == FlatParts(c, calls, parts) + Thoughts(Shown(c, t))
  {
    FlatPartsSnoc(c, calls, parts, TextPart(t));
    FlatPartsSnoc(c, calls, parts, ThinkingPart(t, None));
    if parts != [] {
      var init, last := parts[..|parts| - 1], Last(parts);
      match last {
        case TextPart(was) =>
          FlatPartsSnoc(c, calls, init, TextPart(was + t));
          MarksConcat(was, t);
          Assoc(FlatParts(c, calls, init), Chars(was), Chars(t));
        case ThinkingPart(was, signature) =>
          FlatPartsSnoc(c, calls, init, ThinkingPart(was + t, signature));
          ThoughtsConcat(c, was, t);
          Assoc(FlatParts(c, calls, init), Thoughts(Shown(c, was)), Thoughts(Shown(c, t)));
        case ToolAt(_) =>
      }
    }
  }

  lemma ThinkingOutOfNothing(c: Context)
    ensures Thoughts(Shown(c, "")) == [] && Chars("") == []
  {
  }

  lemma SignatureMarks(c: Context, calls: Calls, parts: seq<Semantic>, signature: string)
    ensures parts != [] && Last(parts).ThinkingPart? ==>
              FlatParts(c, calls, SetLast(parts, ThinkingPart(Last(parts).text, Some(signature)))) == FlatParts(c, calls, parts)
    ensures FlatParts(c, calls, parts + [ThinkingPart("", Some(signature))]) == FlatParts(c, calls, parts)
  {
    FlatPartsSnoc(c, calls, parts, ThinkingPart("", Some(signature)));
    ThinkingOutOfNothing(c);
    if parts != [] && Last(parts).ThinkingPart? {
      FlatPartsSnoc(c, calls, parts[..|parts| - 1], ThinkingPart(Last(parts).text, Some(signature)));
    }
  }

  function FlatSent(c: Context, s: Sent): seq<Mark> { Flat(Close(c, s).blocks) }

  lemma SendMarks(c: Context, s: Sent, t: string)
    ensures FlatSent(c, SendText(c, s, t)) == FlatSent(c, s) + Chars(t)
    ensures FlatSent(c, SendThinking(c, s, t)) == FlatSent(c, s) + Thoughts(Shown(c, t))
    ensures FlatSent(c, Close(c, s)) == FlatSent(c, s)
  {
    SendTextMarks(c, s, t);
    SendThinkingMarks(c, s, t);
  }

  lemma SendTextMarks(c: Context, s: Sent, t: string)
    ensures FlatSent(c, SendText(c, s, t)) == FlatSent(c, s) + Chars(t)
  {
    if s.open.OpenText? {
      FlatSnoc(s.blocks, Text(s.open.text));
      FlatSnoc(s.blocks, Text(s.open.text + t));
      MarksConcat(s.open.text, t);
      Assoc(Flat(s.blocks), Chars(s.open.text), Chars(t));
    } else {
      FlatSnoc(Close(c, s).blocks, Text(t));
    }
  }

  lemma SendThinkingMarks(c: Context, s: Sent, t: string)
    ensures FlatSent(c, SendThinking(c, s, t)) == FlatSent(c, s) + Thoughts(Shown(c, t))
  {
    hide ReplaySafeSignature;
    var now := SendThinking(c, s, t);
    var sealed_ := ReplaySafeSignature(now.signature, now.open.replay, c.omitThinking, c.codec);
    if s.open.OpenThinking? {
      FlatSnoc(s.blocks, Thinking(Shown(c, s.open.replay), ReplaySafeSignature(s.signature, s.open.replay, c.omitThinking, c.codec)));
      FlatSnoc(s.blocks, Thinking(Shown(c, s.open.replay + t), sealed_));
      ThoughtsConcat(c, s.open.replay, t);
      Assoc(Flat(s.blocks), Thoughts(Shown(c, s.open.replay)), Thoughts(Shown(c, t)));
    } else {
      FlatSnoc(Close(c, s).blocks, Thinking(Shown(c, t), sealed_));
    }
  }

  // A signature shows nowhere in the characters.
  lemma SignedSent(c: Context, s: Sent, signature: Option<string>)
    ensures FlatSent(c, s.(signature := signature)) == FlatSent(c, s)
  {
    hide ReplaySafeSignature;
    if s.open.OpenThinking? {
      FlatSnoc(s.blocks, Thinking(Shown(c, s.open.replay), ReplaySafeSignature(s.signature, s.open.replay, c.omitThinking, c.codec)));
      FlatSnoc(s.blocks, Thinking(Shown(c, s.open.replay), ReplaySafeSignature(signature, s.open.replay, c.omitThinking, c.codec)));
    }
  }

  function Told(c: Context, calls: Calls, l: Live): seq<Mark> { FlatSent(c, l.sent) + FlatParts(c, calls, l.deferred) }

  lemma EmitTold(c: Context, calls: Calls, l: Live, t: string)
    requires Tidy(l)
    ensures Told(c, calls, EmitText(c, l, t)) == Told(c, calls, l) + Chars(t)
    ensures Told(c, calls, EmitThinking(c, l, t)) == Told(c, calls, l) + Thoughts(Shown(c, t))
  {
    hide FlatSent, SendText, SendThinking, Close, AddText, AddThinking, Placed;
    SendMarks(c, l.sent, t);
    AddMarks(c, calls, l.deferred, t);
    if l.deferring {
      hide FlatParts;
      Assoc(FlatSent(c, l.sent), FlatParts(c, calls, l.deferred), Chars(t));
      Assoc(FlatSent(c, l.sent), FlatParts(c, calls, l.deferred), Thoughts(Shown(c, t)));
    } else {
      assert FlatParts(c, calls, l.deferred) == [];
      assert FlatSent(c, l.sent) + [] == FlatSent(c, l.sent);
    }
  }

  lemma SignatureTold(c: Context, calls: Calls, l: Live, signature: string)
    requires Tidy(l)
    ensures Told(c, calls, TakeSignature(c, l, signature)) == Told(c, calls, l)
  {
    SignatureMarks(c, calls, l.deferred, signature);
    EmitTold(c, calls, l, "");
    ThinkingOutOfNothing(c);
    if !l.deferring {
      var ready := if l.sent.open.NoBlock? then EmitThinking(c, l, "") else l;
      hide EmitThinking, FlatSent, FlatParts;
      SignedSent(c, ready.sent, Some(signature));
      assert Told(c, calls, l) + [] == Told(c, calls, l);
    }
  }

  lemma ToolTold(c: Context, calls: Calls, l: Live, index: nat, tool: ToolBuffer)
    ensures Told(c, calls, WithTool(l, index, tool)) == Told(c, calls, l) + if index in l.tools then [] else calls(index)
  {
    hide FlatSent, FlatParts;
    FlatPartsSnoc(c, calls, l.deferred, ToolAt(index));
    Assoc(FlatSent(c, l.sent), FlatParts(c, calls, l.deferred), calls(index));
    assert Told(c, calls, l) + [] == Told(c, calls, l);
  }

  lemma ApplyTold(c: Context, calls: Calls, l: Live, p: Piece)
    requires Tidy(l) && Apply(c, l, p).Some?
    ensures Told(c, calls, Apply(c, l, p).value) == Told(c, calls, l) + PieceMarks(c, calls, p, l.tools.Keys)
  {
    hide FlatSent, FlatParts, EmitText, EmitThinking, TakeSignature, MergedTool, MergedName, AddTool, Placed;
    var heard := l.(semantic := true);
    assert Told(c, calls, heard) == Told(c, calls, l) && Tidy(heard);
    assert Told(c, calls, l) + [] == Told(c, calls, l);
    match p {
      case Reasoning(t) => EmitTold(c, calls, heard, t);
      case Say(t) => EmitTold(c, calls, heard, t);
      case Refuse(t) =>
        var refused := heard.(refusal := l.refusal + t);
        assert Told(c, calls, refused) == Told(c, calls, l) && Tidy(refused);
        EmitTold(c, calls, refused, t);
      case Signature(s) => SignatureTold(c, calls, heard, s);
      case Tool(d) => ToolTold(c, calls, heard, d.index, MergedTool(ToolSoFar(l.tools, d.index), d).value);
      case Legacy(f) => ToolTold(c, calls, heard, 0, Apply(c, l, p).value.tools[0]);
    }
  }

  // The rest of what a piece does.
  lemma ApplyCounts(c: Context, l: Live, p: Piece)
    requires Apply(c, l, p).Some?
    ensures var next := Apply(c, l, p).value;
            && next.tools.Keys == SeenWith(p, l.tools.Keys)
            && next.semantic && next.refusal == l.refusal + (if p.Refuse? then p.text else "")
  {
    hide EmitText, EmitThinking, MergedTool, MergedName, AddTool;
    var heard := l.(semantic := true);
    match p {
      case Reasoning(t) => EmitLeavesTools(c, heard, t); EmitLeavesRefusal(c, heard, t);
      case Say(t) => EmitLeavesTools(c, heard, t); EmitLeavesRefusal(c, heard, t);
      case Refuse(t) =>
        EmitLeavesTools(c, heard.(refusal := l.refusal + t), t); EmitLeavesRefusal(c, heard.(refusal := l.refusal + t), t);
      case Signature(s) => SignatureLeavesTools(c, heard, s); EmitLeavesRefusal(c, heard, "");
      case Tool(d) =>
      case Legacy(f) =>
    }
  }

  lemma EmitLeavesRefusal(c: Context, l: Live, t: string)
    ensures EmitText(c, l, t).refusal == l.refusal && EmitThinking(c, l, t).refusal == l.refusal
    ensures EmitText(c, l, t).semantic == l.semantic && EmitThinking(c, l, t).semantic == l.semantic
  {
  }

  // ---- one delta, a whole stream ----

  function RefusedBy(pieces: seq<Piece>): string {
    if pieces == [] then "" else (if pieces[0].Refuse? then pieces[0].text else "") + RefusedBy(pieces[1..])
  }

  lemma {:induction false} RefusedConcat(a: seq<Piece>, b: seq<Piece>)
    ensures RefusedBy(a + b) == RefusedBy(a) + RefusedBy(b)
    decreases |a|
  {
    if a == [] {
      assert a + b == b;
    } else {
      assert (a + b)[0] == a[0] && (a + b)[1..] == a[1..] + b;
      RefusedConcat(a[1..], b);
    }
  }

  lemma {:induction false} NothingRefused(pieces: seq<Piece>)
    requires forall p :: p in pieces ==> !p.Refuse?
    ensures RefusedBy(pieces) == ""
    decreases |pieces|
  {
    if pieces != [] {
      assert !pieces[0].Refuse?;
      NothingRefused(pieces[1..]);
    }
  }

  lemma DeltaRefusal(d: Delta)
    ensures RefusedBy(LivePieces(d)) == d.refusal.GetOr("")
  {
    var front := ReasoningPieces(d) + SigningPieces(d) + ContentPieces(d.content);
    var refusal, back := RefusalPieces(d), ToolPieces(d) + NotePieces(d);
    if d.content.PartsContent? { PartsSpeak(d.content.parts); }
    assert forall p :: p in ContentPieces(d.content) ==> p.Say?;
    assert forall p :: p in ToolList(d.toolCalls) ==> p.Tool?;
    assert refusal == [] || refusal == [Refuse(d.refusal.value)];
    assert RefusedBy(refusal) == d.refusal.GetOr("") by { if refusal != [] { assert refusal[1..] == []; } }
    hide ContentPieces, ToolList, RefusedBy;
    assert forall p :: p in front ==> !p.Refuse?;
    assert forall p :: p in back ==> !p.Refuse?;
    NothingRefused(front);
    NothingRefused(back);
    assert HeadPieces(d) == front + refusal;
    assert LivePieces(d) == front + refusal + back;
    RefusedConcat(front + refusal, back);
    RefusedConcat(front, refusal);
  }

  // Nothing at all in a delta.
  predicate Silent(d: Delta) {
    && d.reasoning.GetOr("") == "" && d.signature.None? && ContentText(d.content) == "" && d.refusal.GetOr("") == ""
    && d.toolCalls == [] && d.functionCall.None? && d.citations.None? && d.outputBlock.None?
  }

  lemma {:induction false} SilentParts(parts: seq<ContentPart>)
    ensures SpokenParts(parts) == [] <==> PartsText(parts) == ""
    decreases |parts|
  {
    if parts != [] {
      SaidAlike(parts[0]);
      SilentParts(parts[1..]);
    }
  }

  lemma SilentPieces(d: Delta)
    ensures Silent(d) <==> LivePieces(d) == []
  {
    if d.content.PartsContent? { SilentParts(d.content.parts); }
    assert ContentPieces(d.content) == [] <==> ContentText(d.content) == "";
    hide ContentPieces, ContentText, ToolList;
    assert HeadPieces(d) == []
           <==> ReasoningPieces(d) == [] && SigningPieces(d) == [] && ContentPieces(d.content) == [] && RefusalPieces(d) == [];
    assert ToolPieces(d) == [] <==> d.toolCalls == [] && d.functionCall.None?;
    assert NotePieces(d) == [] <==> d.citations.None? && d.outputBlock.None?;
    hide HeadPieces, ToolPieces, NotePieces;
  }

  lemma {:induction false} ApplyAllTold(c: Context, calls: Calls, l: Live, pieces: seq<Piece>)
    requires Tidy(l) && ApplyAll(c, l, pieces).Some?
    ensures var next := ApplyAll(c, l, pieces).value;
            && Told(c, calls, next) == Told(c, calls, l) + PiecesMarks(c, calls, pieces, l.tools.Keys)
            && next.tools.Keys == SeenAfter(pieces, l.tools.Keys)
            && next.refusal == l.refusal + RefusedBy(pieces)
            && next.semantic == (l.semantic || pieces != [])
    decreases |pieces|
  {
    hide Told, Apply, PieceMarks, SeenWith, Tidy;
    if pieces == [] {
      assert Told(c, calls, l) + [] == Told(c, calls, l) && l.refusal + "" == l.refusal;
    } else {
      var p, rest := pieces[0], pieces[1..];
      ApplyTold(c, calls, l, p);
      ApplyCounts(c, l, p);
      ApplyKeepsTidy(c, l, p);
      var next := Apply(c, l, p).value;
      ApplyAllTold(c, calls, next, rest);
      Assoc(Told(c, calls, l), PieceMarks(c, calls, p, l.tools.Keys), PiecesMarks(c, calls, rest, next.tools.Keys));
      Assoc(l.refusal, if p.Refuse? then p.text else "", RefusedBy(rest));
    }
  }

  lemma EventTold(c: Context, calls: Calls, l: Live, e: Event)
    requires Tidy(l) && OnEvent(c, l, e).Some?
    ensures var next := OnEvent(c, l, e).value;
            && next.usage == (if e.usage.Some? then e.usage else l.usage)
            && if l.finish.Some? || e.choice.None? then
                 && Told(c, calls, next) == Told(c, calls, l) && next.tools == l.tools && next.refusal == l.refusal
                 && next.semantic == l.semantic && next.finish == l.finish
               else
                 var d := e.choice.value.delta;
                 && Told(c, calls, next) == Told(c, calls, l) + DeltaMarks(c, calls, d, l.tools.Keys)
                 && next.tools.Keys == SeenWithDelta(d, l.tools.Keys)
                 && next.refusal == l.refusal + d.refusal.GetOr("")
                 && next.semantic == (l.semantic || !Silent(d))
                 && next.finish == if Finishes(e.choice.value.finish) then Some(e.choice.value.finish.reason) else None
  {
    hide ApplyAll, LivePieces, DeltaMarks, SeenIn, Silent, FlatSent, FlatParts;
    if l.finish.None? && e.choice.Some? {
      var d, h := e.choice.value.delta, Header(l, e).(started := true);
      assert Tidy(h) && Told(c, calls, h) == Told(c, calls, l);
      ApplyAllTold(c, calls, h, LivePieces(d));
      UsageStays(c, h, LivePieces(d));
      DeltaPieces(c, calls, d, l.tools.Keys);
      DeltaRefusal(d);
      SilentPieces(d);
    }
  }

  lemma {:induction false} UsageStays(c: Context, l: Live, pieces: seq<Piece>)
    requires ApplyAll(c, l, pieces).Some?
    ensures ApplyAll(c, l, pieces).value.usage == l.usage
    decreases |pieces|
  {
    if pieces != [] {
      PieceLeavesUsage(c, l, pieces[0]);
      UsageStays(c, Apply(c, l, pieces[0]).value, pieces[1..]);
    }
  }

  lemma PieceLeavesUsage(c: Context, l: Live, p: Piece)
    requires Apply(c, l, p).Some?
    ensures Apply(c, l, p).value.usage == l.usage
  {
    hide MergedTool, MergedName, AddTool, Close, SendText, SendThinking, AddText, AddThinking;
  }

  function RefusalText(deltas: seq<Delta>): string {
    if deltas == [] then "" else deltas[0].refusal.GetOr("") + RefusalText(deltas[1..])
  }

  function CallsSeen(deltas: seq<Delta>, seen: set<nat>): set<nat>
    decreases |deltas|
  {
    if deltas == [] then seen else CallsSeen(deltas[1..], SeenWithDelta(deltas[0], seen))
  }

  predicate AllSilent(deltas: seq<Delta>) { forall d :: d in deltas ==> Silent(d) }

  lemma {:induction false} EventsTold(c: Context, calls: Calls, l: Live, events: seq<Event>)
    requires Tidy(l) && OnEvents(c, l, events).Some?
    ensures var next, heard := OnEvents(c, l, events).value, if l.finish.Some? then [] else Heard(events);
            && Told(c, calls, next) == Told(c, calls, l) + Transcript(c, calls, heard, l.tools.Keys)
            && next.tools.Keys == CallsSeen(heard, l.tools.Keys)
            && next.refusal == l.refusal + RefusalText(heard)
            && next.semantic == (l.semantic || !AllSilent(heard))
            && next.usage == Usage(l.usage, events)
    decreases |events|
  {
    hide Told, OnEvent, DeltaMarks, SeenWithDelta, Silent, Tidy;
    assert Told(c, calls, l) + [] == Told(c, calls, l) && l.refusal + "" == l.refusal;
    if events != [] {
      var e, next := events[0], OnEvent(c, l, events[0]).value;
      GoodEvent(c, l, e);
      EventTold(c, calls, l, e);
      OnEventKeepsTidy(c, l, e);
      EventsTold(c, calls, next, events[1..]);
      if l.finish.None? && e.choice.Some? {
        var d, rest := e.choice.value.delta, if Finishes(e.choice.value.finish) then [] else Heard(events[1..]);
        var heard := [d] + rest;
        assert Heard(events) == heard && heard[1..] == rest && heard[0] == d;
        assert AllSilent(heard) <==> Silent(d) && AllSilent(rest);
        Assoc(Told(c, calls, l), DeltaMarks(c, calls, d, l.tools.Keys), Transcript(c, calls, rest, next.tools.Keys));
        Assoc(l.refusal, d.refusal.GetOr(""), RefusalText(rest));
      }
    }
  }
}
