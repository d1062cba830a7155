// Interleaving of streams: only the order within each slot matters.
module ResponsesInterleaving {
  import opened Wrappers
  import opened ResponsesSpec
  import opened ResponsesLaws

  // What a stream says about one slot.
  function Only(events: seq<Event>, slot: Slot): seq<Event>
    decreases |events|
  {
    if events == [] then [] else (if At(events[0], slot) then [events[0]] else []) + Only(events[1..], slot)
  }

  predicate At(e: Event, slot: Slot) { Explicit(e) && SlotOf(e) == slot }

  // Whichever event comes first, it makes up the same item.
  ghost predicate OneHead(s: State, events: seq<Event>) {
    && (forall e :: e in events ==> Explicit(e))
    && forall a, b :: a in events && b in events ==> SameItem(s, a, b)
  }

  lemma OneHeadStays(s: State, e: Event, events: seq<Event>, fewer: seq<Event>)
    requires OneHead(s, events) && Step(s, e).Some? && forall f :: f in fewer ==> f in events
    ensures OneHead(Step(s, e).value, fewer)
  {
    StepExtends(s, e);
    hide Step, Extends, NewHead;
  }

  lemma ConsSteps(s: State, e: Event, rest: seq<Event>)
    ensures Steps(s, [e] + rest) == match Step(s, e) case None => None case Some(next) => Steps(next, rest)
  {
    assert ([e] + rest)[1..] == rest;
    hide Step;
  }

  lemma TwoSteps(s: State, a: Event, b: Event, rest: seq<Event>)
    ensures Steps(s, [a] + ([b] + rest)) == match Both(s, a, b) case None => None case Some(next) => Steps(next, rest)
  {
    hide Step;
    ConsSteps(s, a, [b] + rest);
    if Step(s, a).Some? { ConsSteps(Step(s, a).value, b, rest); }
  }

  // An event passes those of other slots.
  lemma {:induction false} MoveFront(s: State, before: seq<Event>, e: Event)
    requires OneHead(s, before + [e]) && Explicit(e) && forall f :: f in before ==> Explicit(f) && SlotOf(f) != SlotOf(e)
    ensures Steps(s, before + [e]) == Steps(s, [e] + before)
    decreases |before|
  {
    hide Step, Steps, Both, OneHead;
    if before == [] {
      assert before + [e] == [e] + before;
    } else {
      var a, rest := before[0], before[1..];
      assert a in before && before + [e] == [a] + (rest + [e]) && [e] + before == [e] + ([a] + rest);
      OnePair(s, before + [e], a, e);
      EventsCommute(s, a, e);
      ConsSteps(s, a, rest + [e]);
      TwoSteps(s, e, a, rest);
      TwoSteps(s, a, e, rest);
      if Step(s, a).Some? {
        OneHeadStays(s, a, before + [e], rest + [e]);
        MoveFront(Step(s, a).value, rest, e);
        ConsSteps(s, a, [e] + rest);
      } else {
        ConsSteps(s, a, [e] + rest);
      }
    }
  }

  lemma OnePair(s: State, events: seq<Event>, a: Event, b: Event)
    requires OneHead(s, events) && a in events && b in events
    ensures Explicit(a) && Explicit(b) && SameItem(s, a, b)
  {
  }

  // The first event of a slot stands behind events of other slots only.
  lemma {:induction false} FirstOf(events: seq<Event>, slot: Slot) returns (n: nat)
    requires (forall e :: e in events ==> Explicit(e)) && Only(events, slot) != []
    ensures n < |events| && events[n] == Only(events, slot)[0] && SlotOf(events[n]) == slot
    ensures forall i :: 0 <= i < n ==> SlotOf(events[i]) != slot
    decreases |events|
  {
    if SlotOf(events[0]) == slot {
      n := 0;
    } else {
      var rest := FirstOf(events[1..], slot);
      n := rest + 1;
    }
  }

  lemma {:induction false} OnlyConcat(a: seq<Event>, b: seq<Event>, slot: Slot)
    ensures Only(a + b, slot) == Only(a, slot) + Only(b, slot)
    decreases |a|
  {
    hide At;
    if a == [] {
      assert a + b == b;
    } else {
      assert (a + b)[0] == a[0] && (a + b)[1..] == a[1..] + b;
      OnlyConcat(a[1..], b, slot);
    }
  }

  ghost predicate SameSlots(x: seq<Event>, y: seq<Event>) { forall slot :: Only(x, slot) == Only(y, slot) }

  lemma {:induction false} SilentSlot(events: seq<Event>, slot: Slot)
    requires forall e :: e in events ==> !At(e, slot)
    ensures Only(events, slot) == []
    decreases |events|
  {
    if events != [] { SilentSlot(events[1..], slot); }
  }

  lemma OnlyOne(h: Event, slot: Slot)
    requires Explicit(h)
    ensures Only([h], slot) == if SlotOf(h) == slot then [h] else []
  {
    assert [h][1..] == [];
  }

  // Taking the first event of its slot out of both leaves the same slots.
  lemma TakenOut(h: Event, rest: seq<Event>, before: seq<Event>, after: seq<Event>, slot: Slot)
    requires Explicit(h) && forall e :: e in before ==> !At(e, SlotOf(h))
    requires Only([h] + rest, slot) == Only(before + ([h] + after), slot)
    ensures Only(rest, slot) == Only(before + after, slot)
  {
    hide Only;
    OnlyConcat([h], rest, slot);
    OnlyConcat(before, [h] + after, slot);
    OnlyConcat([h], after, slot);
    OnlyConcat(before, after, slot);
    if slot == SlotOf(h) { SilentSlot(before, slot); }
    OnlyOne(h, slot);
    if slot != SlotOf(h) {
      assert [] + Only(rest, slot) == Only(rest, slot) && [] + Only(after, slot) == Only(after, slot);
    } else {
      assert ([h] + Only(rest, slot))[1..] == Only(rest, slot) && ([] + ([h] + Only(after, slot)))[1..] == Only(after, slot);
      assert [] + Only(after, slot) == Only(after, slot);
    }
  }

  lemma {:induction false} NothingSaid(events: seq<Event>)
    requires (forall e :: e in events ==> Explicit(e)) && forall slot :: Only(events, slot) == []
    ensures events == []
  {
    if events != [] {
      FirstIsSaid(events);
      assert false;
    }
  }

  lemma FirstIsSaid(events: seq<Event>)
    requires events != [] && forall e :: e in events ==> Explicit(e)
    ensures events[0] in events && Only(events, SlotOf(events[0])) != []
  {
    assert events[0] in events;
  }

  lemma {:induction false} OnlyHas(events: seq<Event>, slot: Slot, e: Event)
    ensures e in Only(events, slot) <==> e in events && At(e, slot)
    decreases |events|
  {
    if events != [] {
      OnlyHas(events[1..], slot, e);
      assert e in events <==> e == events[0] || e in events[1..];
    }
  }

  // The same events, then, make up the same items.
  lemma OneHeadOfBoth(s: State, x: seq<Event>, y: seq<Event>)
    requires (forall e :: e in x ==> Explicit(e)) && (forall e :: e in y ==> Explicit(e)) && SameSlots(x, y) && OneHead(s, x)
    ensures OneHead(s, y)
  {
    forall e | e in y ensures e in x {
      OnlyHas(y, SlotOf(e), e);
      OnlyHas(x, SlotOf(e), e);
    }
    hide SameItem;
  }

  // Streams that say the same about every slot, in the same order within it, do the same to any state.
  lemma {:induction false} SlotsDecide(s: State, x: seq<Event>, y: seq<Event>)
    requires OneHead(s, x) && OneHead(s, y) && SameSlots(x, y)
    ensures Steps(s, x) == Steps(s, y)
    decreases |x|
  {
    if x == [] {
      NothingSaid(y);
    } else {
      var h, rest := x[0], x[1..];
      assert h in x && x == [h] + rest;
      assert Only(x, SlotOf(h)) != [] && Only(x, SlotOf(h))[0] == h;
      var n := FirstOf(y, SlotOf(h));
      var before, after := y[..n], y[n + 1..];
      assert y == before + ([h] + after);
      assert forall e :: e in before ==> e in y && SlotOf(e) != SlotOf(h) by {
        forall e | e in before ensures e in y && SlotOf(e) != SlotOf(h) { var i :| 0 <= i < n && before[i] == e; assert y[i] == e; }
      }
      hide Step, Steps, SameItem;
      forall slot ensures Only(rest, slot) == Only(before + after, slot) { TakenOut(h, rest, before, after, slot); }
      OneHeadOfPart(s, y, before + [h]);
      MoveFront(s, before, h);
      BroughtForward(s, before, h, after);
      ConsSteps(s, h, rest);
      ConsSteps(s, h, before + after);
      if Step(s, h).Some? {
        OneHeadStays(s, h, x, rest);
        OneHeadStays(s, h, y, before + after);
        SlotsDecide(Step(s, h).value, rest, before + after);
      }
    }
  }

  lemma OneHeadOfPart(s: State, events: seq<Event>, part: seq<Event>)
    requires OneHead(s, events) && forall e :: e in part ==> e in events
    ensures OneHead(s, part)
  {
    hide SameItem;
  }

  lemma BroughtForward(s: State, before: seq<Event>, h: Event, after: seq<Event>)
    requires Steps(s, before + [h]) == Steps(s, [h] + before)
    ensures Steps(s, before + ([h] + after)) == Steps(s, [h] + (before + after))
  {
    hide Step, Steps;
    StepsConcat(s, before + [h], after);
    StepsConcat(s, [h] + before, after);
    assert before + [h] + after == before + ([h] + after) && [h] + before + after == [h] + (before + after);
  }

  // So they aggregate alike, wherever they stand in a stream, errors included.
  lemma AnyInterleaving(before: seq<Event>, x: seq<Event>, y: seq<Event>, after: seq<Event>)
    requires (forall e :: e in x ==> Explicit(e)) && (forall e :: e in y ==> Explicit(e)) && SameSlots(x, y)
    requires Steps(EMPTY_STATE, before).Some? ==> OneHead(Steps(EMPTY_STATE, before).value, x)
    ensures Aggregate(before + x + after) == Aggregate(before + y + after)
  {
    hide Steps, Only, OneHead, SameSlots;
    StepsConcat(EMPTY_STATE, before + x, after);
    StepsConcat(EMPTY_STATE, before + y, after);
    StepsConcat(EMPTY_STATE, before, x);
    StepsConcat(EMPTY_STATE, before, y);
    if Steps(EMPTY_STATE, before).Some? {
      OneHeadOfBoth(Steps(EMPTY_STATE, before).value, x, y);
      SlotsDecide(Steps(EMPTY_STATE, before).value, x, y);
    }
  }
}
