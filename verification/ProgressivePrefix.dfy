// When text forwarded early begins what the aggregate holds.
module ProgressivePrefix {
  import opened Wrappers
  import opened ResponsesItems
  import opened ResponsesOrder
  import opened ResponsesSpec
  import opened ResponsesLaws
  import opened ResponsesTransformSpec
  import opened ProgressiveSpec
  import Anthropic
  import Progressive

  predicate Visible(c: Channel) { c.OutputText? || c.Refusal? }

  function TextOf(a: AbsItem, c: Channel): string { if 0 in a.content then Said(a.content[0], c) else "" }

  // What the aggregate holds for the first part of the first item, on one channel.
  function Held(s: State, c: Channel): string { if 0 in s.items then TextOf(s.items[0], c) else "" }

  // This event's text goes out.
  predicate Forwards(p: Early, e: Event) {
    && !p.terminal && LiveText(e) && !p.blocked
    && IndexOf(p.indices, e.outputIndex, e.itemId) == 0 && e.partIndex.GetOr(0) == 0
  }

  lemma ForwardsIs(p: Early, e: Event)
    ensures EarlyStep(p, e).text == if Forwards(p, e) then p.text + e.text.value else p.text
  {
  }

  // The aggregate takes the delta as new, and at the end of what it holds.
  ghost predicate Fresh(s: State, p: Early, c: Channel) { (0, 0, c) !in s.finalized && Held(s, c) == p.text }

  // A delta for the first part of the first item.
  predicate FirstDelta(e: Event, c: Channel) {
    LiveText(e) && e.channel == c && e.outputIndex == Some(0) && e.partIndex.GetOr(0) == 0
  }

  // Whatever the delta says, it takes the text held one step with the text forwarded, or leaves it.
  lemma DeltaStep(s: State, e: Event)
    requires LiveText(e) && s.terminal.None? && IndexOf(s.ids, e.outputIndex, e.itemId) == 0 && e.partIndex.GetOr(0) == 0
    ensures Step(s, e).Some?
    ensures Held(Step(s, e).value, e.channel)
            == if (0, 0, e.channel) in s.finalized then Held(s, e.channel) else Held(s, e.channel) + e.text.value
  {
  }

  // A text that goes on from `a` otherwise than `b` does.
  lemma OneCharApart(a: string, b: string) returns (t: string)
    requires a <= b
    ensures t != "" && !(a + t <= b) && (a != b ==> !(a + t <= b + t))
  {
    if a == b {
      t := "x";
    } else {
      t := if b[|a|] == 'x' then "y" else "x";
      assert (a + t)[|a|] == t[0] && (b + t)[|a|] == b[|a|];
    }
  }

  // Where the forwarded text begins what is held, it still does after the next delta, whatever that says,
  // if and only if the part is not settled and nothing but forwarded text is held.
  lemma PrefixKeptExactly(s: State, p: Early, c: Channel)
    requires Visible(c) && s.terminal.None? && !p.terminal && !p.blocked && p.text <= Held(s, c)
    ensures (forall e :: FirstDelta(e, c) ==> Step(s, e).Some? && EarlyStep(p, e).text <= Held(Step(s, e).value, c))
            <==> Fresh(s, p, c)
  {
    hide Step, EarlyStep, Held;
    if Fresh(s, p, c) {
      forall e | FirstDelta(e, c) ensures Step(s, e).Some? && EarlyStep(p, e).text <= Held(Step(s, e).value, c) {
        DeltaStep(s, e);
        ForwardsIs(p, e);
      }
    } else {
      var t := OneCharApart(p.text, Held(s, c));
      var e := TextEvent(c, Some(0), None, Some(0), Some(t), false);
      assert FirstDelta(e, c);
      DeltaStep(s, e);
      ForwardsIs(p, e);
    }
  }

  // ---- whole streams ----

  // Both sides stop at the same event, and where one takes a delta for the first item so does the other.
  ghost predicate Aligned(s: State, p: Early) {
    && (p.terminal <==> s.terminal.Some?)
    && (forall id :: id in p.indices ==> id in s.ids && (s.ids[id] == p.indices[id] || s.ids[id] == 0))
    && (forall id :: id in s.ids && id !in p.indices ==> s.ids[id] == 0)
  }

  lemma AlignedStep(s: State, p: Early, e: Event)
    requires Aligned(s, p) && Step(s, e).Some?
    ensures Aligned(Step(s, e).value, EarlyStep(p, e))
  {
    hide JoinItem, FromRaw, MessageSnapshots, ReasoningSnapshots, GrowItem, ItemAt, Grown;
  }

  lemma ForwardedIsFirst(s: State, p: Early, e: Event)
    requires Aligned(s, p) && Forwards(p, e)
    ensures s.terminal.None? && IndexOf(s.ids, e.outputIndex, e.itemId) == 0
  {
  }

  lemma HeldGrows(s: State, e: Event, c: Channel)
    requires Visible(c) && Step(s, e).Some?
    ensures Held(s, c) <= Held(Step(s, e).value, c)
  {
    StepExtends(s, e);
    hide Step;
  }

  // The delta is new and goes to the end of what is held, or what is held says it already.
  ghost predicate Keeps(s: State, p: Early, c: Channel, text: string) { Fresh(s, p, c) || p.text + text <= Held(s, c) }

  // Every delta that is forwarded is on channel `c` and meets the guard in the state before it.
  ghost predicate Guarded(s: State, p: Early, events: seq<Event>, c: Channel)
    decreases |events|
  {
    events != [] && Step(s, events[0]).Some? ==>
      && (Forwards(p, events[0]) ==> events[0].channel == c && Keeps(s, p, c, events[0].text.value))
      && Guarded(Step(s, events[0]).value, EarlyStep(p, events[0]), events[1..], c)
  }

  // Then what has been forwarded begins what is held.
  lemma {:induction false} ForwardedBeginsHeld(s: State, p: Early, events: seq<Event>, c: Channel)
    requires Visible(c) && Aligned(s, p) && p.text <= Held(s, c) && Guarded(s, p, events, c) && Steps(s, events).Some?
    ensures Earlies(p, events).text <= Held(Steps(s, events).value, c)
    decreases |events|
  {
    if events != [] {
      var e := events[0];
      hide Step, EarlyStep, Held;
      AlignedStep(s, p, e);
      ForwardsIs(p, e);
      HeldGrows(s, e, c);
      if Forwards(p, e) {
        ForwardedIsFirst(s, p, e);
        DeltaStep(s, e);
      }
      ForwardedBeginsHeld(Step(s, e).value, EarlyStep(p, e), events[1..], c);
    }
  }

  // What is at index 0 comes out first.
  lemma FirstOfAll<T>(m: map<nat, T>)
    requires 0 in m
    ensures InOrder(m) != [] && InOrder(m)[0] == m[0]
  {
    InOrderIsDense(m);
  }

  // And what comes out of the terminal merge.
  lemma ForwardedBeginsOutput(events: seq<Event>, c: Channel)
    requires Visible(c) && Guarded(EMPTY_STATE, NOT_STARTED, events, c) && Aggregate(events).Some?
    ensures Steps(EMPTY_STATE, events).Some?
    ensures var text, last := Earlies(NOT_STARTED, events).text, Steps(EMPTY_STATE, events).value;
            && text <= Held(last, c)
            && Output(last.items, last.terminal.value.output.value).Some?
            && var output := Output(last.items, last.terminal.value.output.value).value;
               text != "" ==> output != [] && text <= TextOf(output[0], c)
  {
    ForwardedBeginsHeld(EMPTY_STATE, NOT_STARTED, events, c);
    AcceptedTextSurvives(events, |events|);
    assert events[..|events|] == events;
    var text, last := Earlies(NOT_STARTED, events).text, Steps(EMPTY_STATE, events).value;
    var terminal := last.terminal.value.output.value;
    if text != "" {
      assert 0 in last.items;
      var output := Output(last.items, terminal).value;
      if terminal == [] { FirstOfAll(last.items); }
      assert output != [] && Extends(last.items[0], output[0]) by { ExtendsReflexive(last.items[0]); }
      hide Output, Steps, Earlies;
    }
  }

  // ---- the end of the stream ----

  lemma {:induction false} StartedWithText(p: Early, events: seq<Event>)
    requires p.started ==> p.text != ""
    ensures Earlies(p, events).started ==> Earlies(p, events).text != ""
    decreases |events|
  {
    if events != [] { StartedWithText(EarlyStep(p, events[0]), events[1..]); }
  }

  // The content begins with a text that begins with `text`.
  predicate OpensWith(blocks: seq<Anthropic.Block>, text: string) {
    blocks != [] && blocks[0].Text? && text <= blocks[0].text
  }

  lemma {:induction false} JoinedOpensWith(blocks: seq<Anthropic.Block>, text: string)
    requires OpensWith(blocks, text)
    ensures OpensWith(Anthropic.Joined(blocks), text)
    decreases |blocks|
  {
    if |blocks| > 1 {
      var init := blocks[..|blocks| - 1];
      JoinedOpensWith(init, text);
    } else {
      assert Anthropic.Joined(blocks[..0]) == [];
    }
  }

  // The first text of a message item is that of its first part.
  lemma {:induction false} PartsOpenWith(codec: Codec, parts: seq<Body>, c: Channel)
    requires Visible(c) && parts != [] && parts[0].kind == Some(c.Kind())
    ensures OpensWith(EmitParts(codec, NOTHING_EMITTED, parts).content, Said(parts[0], c))
    decreases |parts|
  {
    var init, last := parts[..|parts| - 1], parts[|parts| - 1];
    var before := EmitParts(codec, NOTHING_EMITTED, init);
    var texts := EmitPartText(codec, before, last);
    AnnotationsAreTexts(codec, texts, texts, last.annotations.GetOr([]));
    if init != [] {
      PartsOpenWith(codec, init, c);
      PartTextIsText(codec, before, before, last);
    }
  }

  lemma {:induction false} ItemsOpenWith(s: Setting, output: seq<OutItem>, c: Channel)
    requires Visible(c) && EmitItems(s, output).Some? && OpensOn(output, c)
    ensures OpensWith(EmitItems(s, output).value.content, Said(output[0].content[0], c))
    decreases |output|
  {
    var init, last := output[..|output| - 1], output[|output| - 1];
    if init == [] {
      PartsOpenWith(s.codec, last.content, c);
    } else {
      ItemsOpenWith(s, init, c);
      ItemsOnlyAdd(s, EmitItems(s, init).value, last);
    }
  }

  // The first item is a message, and its first part is of the kind of the channel.
  predicate OpensOn(output: seq<OutItem>, c: Channel) {
    && output != [] && output[0].head.kind == Some("message")
    && output[0].content != [] && output[0].content[0].kind == Some(c.Kind())
  }

  lemma TransformOpensWith(codec: Codec, omit: bool, payload: Payload, c: Channel)
    requires Visible(c) && Transform(codec, omit, payload).Some? && OpensOn(payload.output.value, c)
    ensures OpensWith(Transform(codec, omit, payload).value.content, Said(payload.output.value[0].content[0], c))
  {
    var text := Said(payload.output.value[0].content[0], c);
    var content := EmitItems(SettingFor(codec, omit, payload), payload.output.value).value.content;
    ItemsOpenWith(SettingFor(codec, omit, payload), payload.output.value, c);
    hide EmitItems, Anthropic.Joined;
    forall blocks | OpensWith(blocks, text) ensures OpensWith(Anthropic.Joined(blocks), text) { JoinedOpensWith(blocks, text); }
    assert OpensWith(DiagnosedAll(Incomplete, content), text) && OpensWith(DiagnosedAll(Suppressed, content), text)
           && OpensWith(DiagnosedAll(Suppressed, DiagnosedAll(Incomplete, content)), text);
  }

  // Such a stream is never refused at its end: where its first item comes out as a message with a first part
  // of that kind, the message follows what has been forwarded.
  lemma GuardedFits(codec: Codec, omit: bool, events: seq<Event>, c: Channel)
    requires Visible(c) && Guarded(EMPTY_STATE, NOT_STARTED, events, c)
    requires Progressive.Buffered(codec, omit, events).Some? && OpensOn(Aggregate(events).value.output.value, c)
    ensures Fits(Earlies(NOT_STARTED, events), Progressive.Buffered(codec, omit, events).value.content)
  {
    var early, last, payload := Earlies(NOT_STARTED, events), Steps(EMPTY_STATE, events).value, Aggregate(events).value;
    if early.started {
      StartedWithText(NOT_STARTED, events);
      ForwardedBeginsOutput(events, c);
      var first := Output(last.items, last.terminal.value.output.value).value[0];
      hide Guarded, Earlies, Steps, Output;
      assert payload.output.value[0] == Normal(first);
      FirstOfAll(first.content);
      TransformOpensWith(codec, omit, payload, c);
    }
  }

  // ---- streams that miss the guard ----

  function Delta(c: Channel, text: string): Event { TextEvent(c, Some(0), None, Some(0), Some(text), false) }

  function Done(text: string): Event { TextEvent(OutputText, Some(0), None, Some(0), Some(text), true) }

  // What a stream from the start has forwarded, what it holds and what it has settled.
  ghost predicate Leads(events: seq<Event>, forwarded: string, text: string, refusal: string, finalized: set<Key>) {
    && Steps(EMPTY_STATE, events).Some?
    && var s := Steps(EMPTY_STATE, events).value;
       && s.terminal.None? && s.ids == map[] && s.finalized == finalized
       && Held(s, OutputText) == text && Held(s, Refusal) == refusal
       && Earlies(NOT_STARTED, events) == Early(false, forwarded != "", map[], forwarded, false)
  }

  lemma LeadsNowhere()
    ensures Leads([], "", "", "", {})
  {
  }

  // One more delta: always forwarded, held unless its part is settled, on its own channel.
  lemma LeadsOn(events: seq<Event>, c: Channel, t: string, forwarded: string, text: string, refusal: string, finalized: set<Key>)
    requires Visible(c) && t != "" && Leads(events, forwarded, text, refusal, finalized)
    ensures var more := if (0, 0, c) in finalized then "" else t;
            Leads(events + [Delta(c, t)], forwarded + t, if c.OutputText? then text + more else text,
                  if c.Refusal? then refusal + more else refusal, finalized)
  {
    StepsConcat(EMPTY_STATE, events, [Delta(c, t)]);
    EarliesConcat(NOT_STARTED, events, [Delta(c, t)]);
  }

  // A done event settles the output text, at whatever it says beyond what was held.
  lemma LeadsOnDone(events: seq<Event>, whole: string, forwarded: string, text: string, refusal: string)
    requires Leads(events, forwarded, text, refusal, {}) && text <= whole
    ensures Leads(events + [Done(whole)], forwarded, whole, refusal, {(0, 0, OutputText)})
  {
    StepsConcat(EMPTY_STATE, events, [Done(whole)]);
    EarliesConcat(NOT_STARTED, events, [Done(whole)]);
  }

  // A delta after its part was settled is forwarded and not held: the prefix is kept just when the settled
  // text said it already.
  lemma SettledThenDelta(first: string, whole: string, more: string)
    requires first != "" && more != "" && first <= whole
    ensures Leads([Delta(OutputText, first), Done(whole), Delta(OutputText, more)], first + more, whole, "", {(0, 0, OutputText)})
  {
    hide Leads;
    LeadsNowhere();
    LeadsOn([], OutputText, first, "", "", "", {});
    var one, two := [Delta(OutputText, first)], [Delta(OutputText, first), Done(whole)];
    assert [] + one == one && one + [Done(whole)] == two && "" + first == first;
    LeadsOnDone(one, whole, first, first, "");
    LeadsOn(two, OutputText, more, first, whole, "", {(0, 0, OutputText)});
    assert two + [Delta(OutputText, more)] == [Delta(OutputText, first), Done(whole), Delta(OutputText, more)] && whole + "" == whole;
  }

  // Text after a refusal in the same part: nothing is settled, but the two are held apart.
  lemma RefusalThenText(refusal: string, text: string)
    requires refusal != "" && text != ""
    ensures Leads([Delta(Refusal, refusal), Delta(OutputText, text)], refusal + text, text, refusal, {})
    ensures !(refusal + text <= text) && !(refusal + text <= refusal)
  {
    hide Leads;
    LeadsNowhere();
    LeadsOn([], Refusal, refusal, "", "", "", {});
    var one, two := [Delta(Refusal, refusal)], [Delta(Refusal, refusal), Delta(OutputText, text)];
    assert [] + one == one && one + [Delta(OutputText, text)] == two && "" + refusal == refusal && "" + text == text;
    LeadsOn(one, OutputText, text, refusal, "", refusal, {});
  }

  // The three at small texts: a repeat that breaks the prefix, a refusal and a text that break it with nothing
  // settled, and a repeat that keeps it.
  lemma SmallStreams()
    ensures Leads([Delta(OutputText, "a"), Done("a"), Delta(OutputText, "b")], "ab", "a", "", {(0, 0, OutputText)}) && !("ab" <= "a")
    ensures Leads([Delta(Refusal, "r"), Delta(OutputText, "t")], "rt", "t", "r", {}) && !("rt" <= "t") && !("rt" <= "r")
    ensures Leads([Delta(OutputText, "a"), Done("ab"), Delta(OutputText, "b")], "ab", "ab", "", {(0, 0, OutputText)})
  {
    hide Leads;
    SettledThenDelta("a", "a", "b");
    RefusalThenText("r", "t");
    SettledThenDelta("a", "ab", "b");
    assert "a" + "b" == "ab" && "r" + "t" == "rt";
  }
}
