// What every run of the aggregation keeps: accepted text survives, and interleaving does not matter.
module ResponsesLaws {
  import opened Wrappers
  import opened ResponsesItems
  import opened ResponsesOrder
  import opened ResponsesSpec

  // ---- the prefix order on parts, items and outputs ----

  ghost predicate Within(a: Option<string>, b: Option<string>) { a.GetOr("") <= b.GetOr("") }

  ghost predicate KindKept(a: Option<string>, b: Option<string>) { a.Some? && a.value != "" ==> b == a }

  ghost predicate IdentityKept(a: Field, b: Field) { a.Given() ==> b == a }

  ghost predicate BodyExtends(a: Body, b: Body) {
    Within(a.text, b.text) && Within(a.refusal, b.refusal) && Within(a.transcript, b.transcript) && KindKept(a.kind, b.kind)
  }

  ghost predicate PartsExtend(a: map<nat, Body>, b: map<nat, Body>) {
    forall k :: k in a ==> k in b && BodyExtends(a[k], b[k])
  }

  // Every part and the arguments only grow; a part never moves; identities and kinds stay.
  ghost predicate Extends(a: AbsItem, b: AbsItem) {
    && a.head.arguments.GetOr("") <= b.head.arguments.GetOr("")
    && IdentityKept(a.head.id, b.head.id) && IdentityKept(a.head.callId, b.head.callId)
    && IdentityKept(a.head.name, b.head.name) && KindKept(a.head.kind, b.head.kind)
    && PartsExtend(a.content, b.content) && PartsExtend(a.summary, b.summary)
  }

  ghost predicate ItemsExtend(a: map<nat, AbsItem>, b: map<nat, AbsItem>) {
    forall k :: k in a ==> k in b && Extends(a[k], b[k])
  }

  lemma PrefixTransitive(a: string, b: string, c: string)
    requires a <= b && b <= c
    ensures a <= c
  {
  }

  lemma BodyExtendsTransitive(a: Body, b: Body, c: Body)
    requires BodyExtends(a, b) && BodyExtends(b, c)
    ensures BodyExtends(a, c)
  {
    PrefixTransitive(a.text.GetOr(""), b.text.GetOr(""), c.text.GetOr(""));
    PrefixTransitive(a.refusal.GetOr(""), b.refusal.GetOr(""), c.refusal.GetOr(""));
    PrefixTransitive(a.transcript.GetOr(""), b.transcript.GetOr(""), c.transcript.GetOr(""));
  }

  lemma PartsExtendTransitive(a: map<nat, Body>, b: map<nat, Body>, c: map<nat, Body>)
    requires PartsExtend(a, b) && PartsExtend(b, c)
    ensures PartsExtend(a, c)
  {
    forall k | k in a ensures k in c && BodyExtends(a[k], c[k]) {
      BodyExtendsTransitive(a[k], b[k], c[k]);
    }
  }

  lemma ExtendsTransitive(a: AbsItem, b: AbsItem, c: AbsItem)
    requires Extends(a, b) && Extends(b, c)
    ensures Extends(a, c)
  {
    PrefixTransitive(a.head.arguments.GetOr(""), b.head.arguments.GetOr(""), c.head.arguments.GetOr(""));
    PartsExtendTransitive(a.content, b.content, c.content);
    PartsExtendTransitive(a.summary, b.summary, c.summary);
    hide PartsExtend;
  }

  lemma ExtendsReflexive(a: AbsItem)
    ensures Extends(a, a)
  {
  }

  lemma ItemsExtendTransitive(a: map<nat, AbsItem>, b: map<nat, AbsItem>, c: map<nat, AbsItem>)
    requires ItemsExtend(a, b) && ItemsExtend(b, c)
    ensures ItemsExtend(a, c)
  {
    forall k | k in a ensures k in c && Extends(a[k], c[k]) {
      ExtendsTransitive(a[k], b[k], c[k]);
    }
  }

  // ---- each way an item changes extends it ----

  lemma GrowPartExtends(parts: map<nat, Body>, index: nat, channel: Channel, text: Option<string>, done: bool)
    ensures GrowPart(parts, index, channel, text, done).Some? ==>
              PartsExtend(parts, GrowPart(parts, index, channel, text, done).value)
  {
  }

  lemma JoinBodyExtends(b: Body, t: Body)
    ensures JoinBody(b, t).Some? ==> BodyExtends(b, JoinBody(b, t).value) && BodyExtends(t, JoinBody(b, t).value)
  {
  }

  lemma JoinPartsExtends(parts: map<nat, Body>, terminal: seq<Body>)
    ensures JoinParts(parts, terminal).Some? ==>
              && PartsExtend(parts, JoinParts(parts, terminal).value)
              && PartsExtend(Range(terminal), JoinParts(parts, terminal).value)
              && (terminal != [] ==> forall k: nat :: k in JoinParts(parts, terminal).value <==> k < |terminal|)
  {
    forall k: nat | k < |terminal| ensures k in parts ==> JoinBody(parts[k], terminal[k]).Some? ==>
                                             BodyExtends(parts[k], JoinBody(parts[k], terminal[k]).value)
                                             && BodyExtends(terminal[k], JoinBody(parts[k], terminal[k]).value)
    {
      if k in parts { JoinBodyExtends(parts[k], terminal[k]); }
    }
    hide JoinBody;
  }

  lemma JoinHeadExtends(h: Head, t: Head)
    requires JoinHead(h, t).Some?
    ensures var j := JoinHead(h, t).value;
            && h.arguments.GetOr("") <= j.arguments.GetOr("") && t.arguments.GetOr("") <= j.arguments.GetOr("")
            && IdentityKept(h.id, j.id) && IdentityKept(h.callId, j.callId) && IdentityKept(h.name, j.name)
            && IdentityKept(t.id, j.id) && IdentityKept(t.callId, j.callId) && IdentityKept(t.name, j.name)
            && KindKept(h.kind, j.kind) && KindKept(t.kind, j.kind)
  {
    JoinIsLeastUpperBound(h.arguments.GetOr(""), t.arguments.GetOr(""));
  }

  // The join of a streamed item and a snapshot extends both.
  lemma JoinItemExtends(a: AbsItem, t: RawItem)
    ensures JoinItem(a, t).Some? ==> Extends(a, JoinItem(a, t).value) && Extends(FromRaw(t), JoinItem(a, t).value)
  {
    JoinPartsExtends(a.content, BodiesOf(t.content));
    JoinPartsExtends(a.summary, BodiesOf(t.summary));
    if JoinHead(a.head, t.head).Some? { JoinHeadExtends(a.head, t.head); }
    hide JoinParts, JoinHead, PartsExtend, BodiesOf, Range;
  }

  lemma StepExtends(s: State, e: Event)
    ensures Step(s, e).Some? ==> ItemsExtend(s.items, Step(s, e).value.items)
  {
    hide Extends, JoinItem, FromRaw, MessageSnapshots, ReasoningSnapshots, GrowPart;
    forall k | k in s.items ensures Extends(s.items[k], s.items[k]) { ExtendsReflexive(s.items[k]); }
    if Step(s, e).None? || s.terminal.Some? { return; }
    match e {
      case ItemEvent(index, Some(item)) =>
        if index.GetOr(0) in s.items { JoinItemExtends(s.items[index.GetOr(0)], item); }
      case TextEvent(channel, outputIndex, itemId, part, text, done) =>
        var index := IndexOf(s.ids, outputIndex, itemId);
        if index in s.items { GrowItemExtends(s.items[index], channel, part.GetOr(0), text, done); }
      case ArgumentsEvent(outputIndex, itemId, _, _, text, done) =>
        var index := IndexOf(s.ids, outputIndex, itemId);
        if index in s.items { ArgumentsExtend(s.items[index], text.GetOr(""), done); }
      case _ =>
    }
  }

  lemma GrowItemExtends(a: AbsItem, channel: Channel, part: nat, text: Option<string>, done: bool)
    ensures GrowItem(a, channel, part, text, done).Some? ==> Extends(a, GrowItem(a, channel, part, text, done).value)
  {
    GrowPartExtends(a.content, part, channel, text, done);
    GrowPartExtends(a.summary, part, channel, text, done);
    ExtendsReflexive(a);
    hide GrowPart;
  }

  lemma ArgumentsExtend(a: AbsItem, text: string, done: bool)
    ensures Grown(a.head.arguments.GetOr(""), text, done).Some? ==>
              Extends(a, a.(head := a.head.(arguments := Str(Grown(a.head.arguments.GetOr(""), text, done).value))))
  {
    ExtendsReflexive(a);
  }

  lemma {:induction false} StepsExtend(s: State, events: seq<Event>)
    ensures Steps(s, events).Some? ==> ItemsExtend(s.items, Steps(s, events).value.items)
    decreases |events|
  {
    hide Step, Extends;
    if events == [] {
      forall k | k in s.items ensures Extends(s.items[k], s.items[k]) { ExtendsReflexive(s.items[k]); }
    } else if Step(s, events[0]).Some? {
      var next := Step(s, events[0]).value;
      StepExtends(s, events[0]);
      StepsExtend(next, events[1..]);
      if Steps(next, events[1..]).Some? {
        ItemsExtendTransitive(s.items, next.items, Steps(next, events[1..]).value.items);
      }
    }
  }

  // ---- the terminal merge extends too ----

  // What has been settled about the output while the streamed items are merged in.
  ghost predicate Merging(items: map<nat, AbsItem>, terminal: seq<RawItem>, output: seq<AbsItem>, todo: seq<nat>) {
    && |terminal| <= |output|
    && (forall k :: k in items && k !in todo ==> k < |output| && Extends(items[k], output[k]))
    && (forall k :: 0 <= k < |terminal| ==> Extends(FromRaw(terminal[k]), output[k]))
  }

  lemma MergingReplaces(items: map<nat, AbsItem>, terminal: seq<RawItem>, output: seq<AbsItem>, keys: seq<nat>, joined: AbsItem)
    requires keys != [] && keys[0] in items && keys[0] < |terminal| && Merging(items, terminal, output, keys)
    requires Extends(items[keys[0]], joined) && Extends(FromRaw(terminal[keys[0]]), joined)
    ensures Merging(items, terminal, output[keys[0] := joined], keys[1..])
  {
    hide Extends, FromRaw;
    assert forall j :: j in keys ==> j == keys[0] || j in keys[1..];
  }

  lemma MergingPushes(items: map<nat, AbsItem>, terminal: seq<RawItem>, output: seq<AbsItem>, keys: seq<nat>)
    requires keys != [] && keys[0] in items && keys[0] == |output| && Merging(items, terminal, output, keys)
    ensures Merging(items, terminal, output + [items[keys[0]]], keys[1..])
  {
    ExtendsReflexive(items[keys[0]]);
    hide Extends, FromRaw;
    assert forall j :: j in keys ==> j == keys[0] || j in keys[1..];
  }

  lemma {:induction false} JoinOutputExtends(items: map<nat, AbsItem>, terminal: seq<RawItem>, keys: seq<nat>, output: seq<AbsItem>)
    requires (forall k :: k in keys ==> k in items) && Merging(items, terminal, output, keys)
    ensures var r := JoinOutput(items, terminal, keys, output); r.Some? ==> Merging(items, terminal, r.value, [])
    decreases |keys|
  {
    if keys != [] {
      var k, rest := keys[0], keys[1..];
      assert |terminal| <= |output|;
      assert k in items && (forall j :: j in rest ==> j in items);
      hide JoinItem, Extends, FromRaw, Merging;
      if k < |terminal| {
        JoinItemExtends(items[k], terminal[k]);
        if JoinItem(items[k], terminal[k]).Some? {
          var joined := JoinItem(items[k], terminal[k]).value;
          MergingReplaces(items, terminal, output, keys, joined);
          JoinOutputExtends(items, terminal, rest, output[k := joined]);
        }
      } else if k == |output| {
        MergingPushes(items, terminal, output, keys);
        JoinOutputExtends(items, terminal, rest, output + [items[k]]);
      }
    }
  }

  // Every streamed item, and every terminal one, is within the output at its own place.
  lemma OutputExtends(items: map<nat, AbsItem>, terminal: seq<RawItem>)
    requires Output(items, terminal).Some? && terminal != []
    ensures forall k :: k in items ==> k < |Output(items, terminal).value| && Extends(items[k], Output(items, terminal).value[k])
    ensures |terminal| <= |Output(items, terminal).value|
    ensures forall k :: 0 <= k < |terminal| ==> Extends(FromRaw(terminal[k]), Output(items, terminal).value[k])
  {
    AscendIsAscending(items.Keys);
    hide Ascend, Extends, FromRaw;
    forall k | 0 <= k < |terminal| ensures Extends(FromRaw(terminal[k]), FromRaws(terminal)[k]) {
      ExtendsReflexive(FromRaw(terminal[k]));
    }
    JoinOutputExtends(items, terminal, Ascend(items.Keys), FromRaws(terminal));
  }

  // No accepted text is lost or rewritten: whatever a prefix of the stream said is a prefix of what
  // the aggregate says, part by part and call by call (an empty terminal output keeps streamed order).
  lemma AcceptedTextSurvives(events: seq<Event>, n: nat)
    requires n <= |events| && Aggregate(events).Some?
    ensures Steps(EMPTY_STATE, events[..n]).Some?
    ensures var early := Steps(EMPTY_STATE, events[..n]).value.items;
            var last := Steps(EMPTY_STATE, events).value;
            var terminal := last.terminal.value.output.value;
            && ItemsExtend(early, last.items)
            && Output(last.items, terminal).Some?
            && Aggregate(events).value.output == Some(Normals(Output(last.items, terminal).value))
            && (terminal == [] ==> Output(last.items, terminal).value == InOrder(last.items))
            && (terminal != [] ==>
                  forall k :: k in early ==>
                    k < |Output(last.items, terminal).value| && Extends(early[k], Output(last.items, terminal).value[k]))
  {
    hide Step, Extends, Output;
    StepsConcat(EMPTY_STATE, events[..n], events[n..]);
    assert events == events[..n] + events[n..];
    var middle, last := Steps(EMPTY_STATE, events[..n]).value, Steps(EMPTY_STATE, events).value;
    StepsExtend(middle, events[n..]);
    var terminal := last.terminal.value.output.value;
    if terminal != [] {
      OutputExtends(last.items, terminal);
      forall k | k in middle.items
        ensures k < |Output(last.items, terminal).value| && Extends(middle.items[k], Output(last.items, terminal).value[k])
      {
        ExtendsTransitive(middle.items[k], last.items[k], Output(last.items, terminal).value[k]);
      }
    }
    EmptyOutput(last.items);
  }

  lemma EmptyOutput(items: map<nat, AbsItem>)
    ensures Output(items, []) == Some(InOrder(items))
  {
  }

  // ---- interleaving ----

  // The one place an event with an explicit output index writes to.
  datatype Slot = ContentSlot(item: nat, part: nat) | SummarySlot(item: nat, part: nat) | ArgumentsSlot(item: nat)

  predicate Explicit(e: Event) { (e.TextEvent? || e.ArgumentsEvent?) && e.outputIndex.Some? }

  function SlotOf(e: Event): Slot
    requires Explicit(e)
  {
    match e
    case ArgumentsEvent(Some(i), _, _, _, _, _) => ArgumentsSlot(i)
    case TextEvent(SummaryText, Some(i), _, part, _, _) => SummarySlot(i, part.GetOr(0))
    case TextEvent(_, Some(i), _, part, _, _) => ContentSlot(i, part.GetOr(0))
  }

  // Both events belong to one item: it is there already, or both would make up the same one.
  predicate SameItem(s: State, a: Event, b: Event)
    requires Explicit(a) && Explicit(b)
  {
    a.outputIndex == b.outputIndex ==> a.outputIndex.value in s.items || NewHead(a) == NewHead(b)
  }

  function KeyOf(e: Event): Option<Key>
    requires Explicit(e)
  {
    if e.TextEvent? then Some((e.outputIndex.value, e.partIndex.GetOr(0), e.channel)) else None
  }

  predicate Repeats(s: State, e: Event)
    requires Explicit(e)
  {
    e.TextEvent? && !e.done && KeyOf(e).value in s.finalized
  }

  function Change(a: AbsItem, e: Event): Option<AbsItem>
    requires Explicit(e)
  {
    if e.TextEvent? then GrowItem(a, e.channel, e.partIndex.GetOr(0), e.text, e.done)
    else match Grown(a.head.arguments.GetOr(""), e.text.GetOr(""), e.done)
      case None => None
      case Some(text) => Some(a.(head := a.head.(arguments := Str(text))))
  }

  function Finalizes(e: Event): set<Key>
    requires Explicit(e)
  {
    if e.TextEvent? && e.done then {KeyOf(e).value} else {}
  }

  function Put(s: State, e: Event, x: AbsItem): State
    requires Explicit(e)
  {
    s.(items := s.items[e.outputIndex.value := x], finalized := s.finalized + Finalizes(e))
  }

  lemma PutsCommute(s: State, a: Event, b: Event, x: AbsItem, y: AbsItem)
    requires Explicit(a) && Explicit(b) && a.outputIndex != b.outputIndex
    ensures Put(Put(s, a, x), b, y) == Put(Put(s, b, y), a, x)
    ensures ItemAt(Put(s, a, x), b.outputIndex.value, b) == ItemAt(s, b.outputIndex.value, b)
  {
    assert s.finalized + Finalizes(a) + Finalizes(b) == s.finalized + Finalizes(b) + Finalizes(a);
    assert Put(Put(s, a, x), b, y).items == Put(Put(s, b, y), a, x).items;
  }

  lemma PutsOverlap(s: State, a: Event, b: Event, x: AbsItem, y: AbsItem, z: AbsItem)
    requires Explicit(a) && Explicit(b) && a.outputIndex == b.outputIndex
    ensures Put(Put(s, a, x), b, z) == Put(Put(s, b, y), a, z)
    ensures ItemAt(Put(s, a, x), b.outputIndex.value, b) == x
  {
    assert s.finalized + Finalizes(a) + Finalizes(b) == s.finalized + Finalizes(b) + Finalizes(a);
    assert Put(Put(s, a, x), b, z).items == Put(Put(s, b, y), a, z).items;
  }

  lemma StepIsChange(s: State, e: Event)
    requires Explicit(e) && s.terminal.None?
    ensures var i := e.outputIndex.value;
            Step(s, e) == if Repeats(s, e) then Some(s)
                          else match Change(ItemAt(s, i, e), e)
                            case None => None
                            case Some(x) => Some(Put(s, e, x))
  {
    if e.ArgumentsEvent? { assert s.finalized + {} == s.finalized; }
  }

  function Bind(a: Option<AbsItem>, e: Event): Option<AbsItem>
    requires Explicit(e)
  {
    if a.None? then None else Change(a.value, e)
  }

  lemma GrowPartCommutes(m: map<nat, Body>, i: nat, j: nat, c: Channel, d: Channel, t: Option<string>, u: Option<string>, p: bool, q: bool)
    requires i != j && GrowPart(m, i, c, t, p).Some?
    ensures GrowPart(GrowPart(m, i, c, t, p).value, j, d, u, q).Some? <==> GrowPart(m, j, d, u, q).Some?
    ensures GrowPart(m, j, d, u, q).Some? ==>
              GrowPart(GrowPart(m, i, c, t, p).value, j, d, u, q) == GrowPart(GrowPart(m, j, d, u, q).value, i, c, t, p)
  {
    hide Grown, Saying, Said, NewBody;
    if GrowPart(m, j, d, u, q).Some? {
      var x, y := GrowPart(m, i, c, t, p).value[i], GrowPart(m, j, d, u, q).value[j];
      assert m[i := x][j := y] == m[j := y][i := x];
    }
  }

  // Changes at different slots of one item do not see each other.
  lemma ChangesCommute(a: AbsItem, e: Event, f: Event)
    requires Explicit(e) && Explicit(f) && SlotOf(e) != SlotOf(f) && e.outputIndex == f.outputIndex
    ensures Bind(Change(a, e), f) == Bind(Change(a, f), e)
    ensures Change(a, e).Some? && Change(a, f).Some? ==> Bind(Change(a, e), f).Some?
  {
    if e.TextEvent? && f.TextEvent? {
      var i, j := e.partIndex.GetOr(0), f.partIndex.GetOr(0);
      if e.channel.SummaryText? == f.channel.SummaryText? {
        assert i != j;
        var m := if e.channel.SummaryText? then a.summary else a.content;
        hide GrowPart;
        if GrowPart(m, i, e.channel, e.text, e.done).Some? {
          GrowPartCommutes(m, i, j, e.channel, f.channel, e.text, f.text, e.done, f.done);
        }
        if GrowPart(m, j, f.channel, f.text, f.done).Some? {
          GrowPartCommutes(m, j, i, f.channel, e.channel, f.text, e.text, f.done, e.done);
        }
      } else {
        hide GrowPart;
      }
    } else {
      hide GrowPart, Grown;
    }
  }

  function Both(s: State, a: Event, b: Event): Option<State> {
    match Step(s, a)
    case None => None
    case Some(next) => Step(next, b)
  }

  // What `a` finalizes is not what `b` looks up.
  lemma DifferentKeys(s: State, a: Event, b: Event, x: AbsItem)
    requires Explicit(a) && Explicit(b) && SlotOf(a) != SlotOf(b)
    ensures Repeats(Put(s, a, x), b) == Repeats(s, b)
  {
  }

  // `b` after `a` has changed its item to `x`.
  lemma SecondStep(s: State, a: Event, b: Event, x: AbsItem)
    requires Explicit(a) && Explicit(b) && SlotOf(a) != SlotOf(b) && s.terminal.None?
    ensures Step(Put(s, a, x), b)
            == if Repeats(s, b) then Some(Put(s, a, x))
               else match Change(if a.outputIndex == b.outputIndex then x else ItemAt(s, b.outputIndex.value, b), b)
                 case None => None
                 case Some(y) => Some(Put(Put(s, a, x), b, y))
  {
    StepIsChange(Put(s, a, x), b);
    DifferentKeys(s, a, b, x);
    if a.outputIndex == b.outputIndex { PutsOverlap(s, a, b, x, x, x); } else { PutsCommute(s, a, b, x, x); }
    hide Step, Change;
  }

  // Events that write to different slots commute.
  lemma EventsCommute(s: State, a: Event, b: Event)
    requires Explicit(a) && Explicit(b) && SlotOf(a) != SlotOf(b) && SameItem(s, a, b)
    ensures Both(s, a, b) == Both(s, b, a)
  {
    if s.terminal.Some? { return; }
    StepIsChange(s, a);
    StepIsChange(s, b);
    var forA, forB := ItemAt(s, a.outputIndex.value, a), ItemAt(s, b.outputIndex.value, b);
    assert a.outputIndex == b.outputIndex ==> forA == forB;
    if a.outputIndex == b.outputIndex { ChangesCommute(forA, a, b); }
    hide Step, Change, Put, ItemAt, Repeats;
    var x, y := Change(forA, a), Change(forB, b);
    if x.Some? { SecondStep(s, a, b, x.value); }
    if y.Some? { SecondStep(s, b, a, y.value); }
    if x.Some? && y.Some? {
      if a.outputIndex == b.outputIndex {
        PutsOverlap(s, a, b, x.value, y.value, Change(x.value, b).value);
      } else {
        PutsCommute(s, a, b, x.value, y.value);
      }
    }
  }

  lemma ChangeKeepsHead(a: AbsItem, e: Event)
    requires Explicit(e) && Change(a, e).Some?
    ensures Change(a, e).value.head.kind == a.head.kind && (e.TextEvent? ==> Change(a, e).value.head == a.head)
  {
    hide GrowPart, Grown;
  }

  // Unless the first event to name an item would make up another one: then order shows in its head.
  lemma EventsCommuteExactly(s: State, a: Event, b: Event)
    requires Explicit(a) && Explicit(b) && SlotOf(a) != SlotOf(b) && s.terminal.None?
    requires !Repeats(s, a) && !Repeats(s, b) && Both(s, a, b).Some?
    ensures Both(s, a, b) == Both(s, b, a) <==> SameItem(s, a, b)
  {
    if SameItem(s, a, b) {
      EventsCommute(s, a, b);
    } else {
      StepIsChange(s, a);
      StepIsChange(s, b);
      var i := a.outputIndex.value;
      var forA, forB := AbsItem(NewHead(a), map[], map[]), AbsItem(NewHead(b), map[], map[]);
      assert forA == ItemAt(s, i, a) && forB == ItemAt(s, i, b);
      hide Step, Change, ItemAt, Repeats;
      var x, y := Change(forA, a), Change(forB, b);
      SecondStep(s, a, b, x.value);
      ChangeKeepsHead(forA, a);
      ChangeKeepsHead(x.value, b);
      if Both(s, b, a).Some? {
        SecondStep(s, b, a, y.value);
        ChangeKeepsHead(forB, b);
        ChangeKeepsHead(y.value, a);
        assert Both(s, a, b).value.items[i] == Change(x.value, b).value;
        assert Both(s, b, a).value.items[i] == Change(y.value, a).value;
        assert (a.TextEvent? && b.TextEvent?) || NewHead(a).kind != NewHead(b).kind;
      }
    }
  }

  // Swapping two such events anywhere in a stream changes nothing in the aggregate, errors included.
  lemma InterleavingIsIrrelevant(before: seq<Event>, a: Event, b: Event, after: seq<Event>)
    requires Explicit(a) && Explicit(b) && SlotOf(a) != SlotOf(b)
    requires Steps(EMPTY_STATE, before).Some? ==> SameItem(Steps(EMPTY_STATE, before).value, a, b)
    ensures Aggregate(before + [a, b] + after) == Aggregate(before + [b, a] + after)
  {
    StepsSwapped(before, a, b, after);
    StepsSwapped(before, b, a, after);
    if Steps(EMPTY_STATE, before).Some? { EventsCommute(Steps(EMPTY_STATE, before).value, a, b); }
  }

  lemma StepsSwapped(before: seq<Event>, a: Event, b: Event, after: seq<Event>)
    ensures Steps(EMPTY_STATE, before + [a, b] + after)
            == match Steps(EMPTY_STATE, before)
               case None => None
               case Some(s) => match Both(s, a, b) case None => None case Some(t) => Steps(t, after)
  {
    hide Step;
    StepsConcat(EMPTY_STATE, before + [a, b], after);
    StepsConcat(EMPTY_STATE, before, [a, b]);
    if Steps(EMPTY_STATE, before).Some? {
      var s := Steps(EMPTY_STATE, before).value;
      assert [a, b][1..] == [b] && [b][1..] == [];
      if Step(s, a).Some? { assert Steps(Step(s, a).value, [b]) == Both(s, a, b) by { StepsOne(Step(s, a).value, b); } }
    }
  }

  lemma StepsOne(s: State, e: Event)
    ensures Steps(s, [e]) == Step(s, e)
  {
    hide Step;
    if Step(s, e).Some? { assert Steps(Step(s, e).value, [e][1..]) == Step(s, e); }
  }
}
