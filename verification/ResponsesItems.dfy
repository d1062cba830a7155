// Output items of a Responses stream, their parts, and what it means to extend or to join them.
module ResponsesItems {
  import opened Wrappers

  // A string member of a JSON object.
  datatype Field = Absent | Null | Str(text: string) {
    function GetOr(default: string): string { if Str? then text else default }

    predicate Given() { Str? && text != "" }
  }

  datatype Body = Body(
    kind: Option<string>, text: Option<string>, refusal: Option<string>, transcript: Option<string>,
    annotations: Option<seq<string>>, extra: map<string, string>)

  // A part as it is stored: `marker` is the index the stream gave it, when it is not its position.
  datatype Part = Part(marker: Option<nat>, body: Body)

  datatype Head = Head(
    kind: Option<string>, id: Field, callId: Field, name: Field, arguments: Field, status: Field,
    encrypted: Field, caller: Field, extra: map<string, string>)

  datatype Item = Item(head: Head, content: Option<seq<Part>>, summary: Option<seq<Part>>)

  predicate Bare(parts: Option<seq<Part>>) {
    parts.Some? ==> forall i :: 0 <= i < |parts.value| ==> parts.value[i].marker.None?
  }

  const EMPTY_HEAD := Head(None, Absent, Absent, Absent, Absent, Absent, Absent, Absent, map[])

  // An item as upstream sends it.
  type RawItem = i: Item | Bare(i.content) && Bare(i.summary) witness Item(EMPTY_HEAD, None, None)

  // ---- the prefix order ----

  // `merge_snapshot_text`: the longer text, when one begins with the other.
  function Join(streamed: string, terminal: string): Option<string> {
    if terminal == "" || terminal <= streamed then Some(streamed)
    else if streamed == "" || streamed <= terminal then Some(terminal)
    else None
  }

  predicate Bounds(a: string, b: string, c: string) { a <= c && b <= c }

  predicate Comparable(a: string, b: string) { a <= b || b <= a }

  // The join is the least upper bound of the prefix order, defined exactly for comparable texts.
  lemma JoinIsLeastUpperBound(a: string, b: string)
    ensures Join(a, b).Some? <==> Comparable(a, b)
    ensures Join(a, b).Some? ==>
              var j := Join(a, b).value;
              Bounds(a, b, j) && forall c :: Bounds(a, b, c) ==> j <= c
  {
  }

  lemma JoinLaws(a: string, b: string)
    ensures Join(a, a) == Some(a) && Join(a, b) == Join(b, a)
  {
    if a <= b && b <= a { assert a == b; }
  }

  function JoinAll(a: Option<string>, b: Option<string>): Option<string> {
    if a.None? || b.None? then None else Join(a.value, b.value)
  }

  lemma PrefixesOfOneText(a: string, b: string, c: string)
    requires a <= c && b <= c
    ensures Comparable(a, b)
  {
    assert forall i :: 0 <= i < |a| ==> a[i] == c[i];
    assert forall i :: 0 <= i < |b| ==> b[i] == c[i];
  }

  lemma JoinAssociates(a: string, b: string, c: string)
    ensures JoinAll(Join(a, b), Some(c)) == JoinAll(Some(a), Join(b, c))
  {
    JoinIsLeastUpperBound(a, b);
    JoinIsLeastUpperBound(b, c);
    if JoinAll(Join(a, b), Some(c)).Some? {
      var abc := JoinAll(Join(a, b), Some(c)).value;
      JoinIsLeastUpperBound(Join(a, b).value, c);
      PrefixesOfOneText(b, c, abc);
      JoinIsLeastUpperBound(a, Join(b, c).value);
      PrefixesOfOneText(a, Join(b, c).value, abc);
    }
    if JoinAll(Some(a), Join(b, c)).Some? {
      var abc := JoinAll(Some(a), Join(b, c)).value;
      JoinIsLeastUpperBound(a, Join(b, c).value);
      PrefixesOfOneText(a, b, abc);
      JoinIsLeastUpperBound(Join(a, b).value, c);
      PrefixesOfOneText(Join(a, b).value, c, abc);
    }
    if JoinAll(Join(a, b), Some(c)).Some? && JoinAll(Some(a), Join(b, c)).Some? {
      var left, right := JoinAll(Join(a, b), Some(c)).value, JoinAll(Some(a), Join(b, c)).value;
      JoinIsLeastUpperBound(Join(a, b).value, c);
      JoinIsLeastUpperBound(a, Join(b, c).value);
      assert Bounds(a, b, right) && Bounds(Join(a, b).value, c, right);
      assert Bounds(b, c, left) && Bounds(a, Join(b, c).value, left);
    }
  }

  // ---- growing one text ----

  // A delta is appended; a "done" snapshot must begin with what came before.
  function Grown(existing: string, incoming: string, done: bool): Option<string> {
    if !done then Some(existing + incoming) else if existing <= incoming then Some(incoming) else None
  }

  // ---- indices ----

  function EffectiveIndex(parts: seq<Part>, i: nat): nat
    requires i < |parts|
  {
    parts[i].marker.GetOr(i)
  }

  // Parts without a marker come first, and no two parts answer to one index.
  ghost predicate WellIndexed(parts: seq<Part>) {
    && (forall i, j :: 0 <= i < j < |parts| && parts[i].marker.Some? ==> parts[j].marker.Some?)
    && (forall i, j :: 0 <= i < j < |parts| ==> EffectiveIndex(parts, i) != EffectiveIndex(parts, j))
  }

  // The parts by index: what the stream has said, whatever order it said it in.
  ghost function ByIndex(parts: seq<Part>): map<nat, Body>
    requires WellIndexed(parts)
  {
    map i | 0 <= i < |parts| :: EffectiveIndex(parts, i) := parts[i].body
  }

  // `m` holds just the bodies of `parts`, by index.
  ghost predicate Indexes(parts: seq<Part>, m: map<nat, Body>) {
    && (forall i :: 0 <= i < |parts| ==> EffectiveIndex(parts, i) in m && m[EffectiveIndex(parts, i)] == parts[i].body)
    && (forall k :: k in m ==> exists i :: 0 <= i < |parts| && EffectiveIndex(parts, i) == k)
  }

  lemma ByIndexIndexes(parts: seq<Part>)
    requires WellIndexed(parts)
    ensures Indexes(parts, ByIndex(parts))
  {
  }

  lemma IndexesIsByIndex(parts: seq<Part>, m: map<nat, Body>)
    requires WellIndexed(parts) && Indexes(parts, m)
    ensures ByIndex(parts) == m
  {
    ByIndexIndexes(parts);
    hide WellIndexed, ByIndex;
    forall k | k in m ensures k in ByIndex(parts) && ByIndex(parts)[k] == m[k] {
      var i :| 0 <= i < |parts| && EffectiveIndex(parts, i) == k;
    }
    forall k | k in ByIndex(parts) ensures k in m {
      var i :| 0 <= i < |parts| && EffectiveIndex(parts, i) == k;
    }
  }

  lemma SameMarkers(parts: seq<Part>, next: seq<Part>)
    requires WellIndexed(parts) && |next| == |parts|
    requires forall j :: 0 <= j < |parts| ==> next[j].marker == parts[j].marker
    ensures WellIndexed(next) && forall j :: 0 <= j < |parts| ==> EffectiveIndex(next, j) == EffectiveIndex(parts, j)
  {
    assert forall j :: 0 <= j < |parts| ==> EffectiveIndex(next, j) == EffectiveIndex(parts, j);
  }

  function WithBody(parts: seq<Part>, i: nat, body: Body): seq<Part>
    requires i < |parts|
  {
    parts[i := Part(parts[i].marker, body)]
  }

  lemma SetBodyIndexes(parts: seq<Part>, i: nat, body: Body, m: map<nat, Body>)
    requires WellIndexed(parts) && i < |parts| && Indexes(parts, m)
    ensures Indexes(WithBody(parts, i, body), m[EffectiveIndex(parts, i) := body])
  {
    var next, after := WithBody(parts, i, body), m[EffectiveIndex(parts, i) := body];
    assert forall j :: 0 <= j < |parts| ==> EffectiveIndex(next, j) == EffectiveIndex(parts, j);
    forall j | 0 <= j < |next| ensures EffectiveIndex(next, j) in after && after[EffectiveIndex(next, j)] == next[j].body {
      assert j == i || EffectiveIndex(parts, j) != EffectiveIndex(parts, i);
    }
    hide WellIndexed;
    forall k | k in after ensures exists j :: 0 <= j < |next| && EffectiveIndex(next, j) == k {
      var j :| 0 <= j < |parts| && EffectiveIndex(parts, j) == k;
      assert EffectiveIndex(next, j) == k;
    }
  }

  lemma SetBody(parts: seq<Part>, i: nat, body: Body)
    requires WellIndexed(parts) && i < |parts|
    ensures var next := WithBody(parts, i, body);
            WellIndexed(next) && ByIndex(next) == ByIndex(parts)[EffectiveIndex(parts, i) := body]
  {
    SameMarkers(parts, WithBody(parts, i, body));
    ByIndexIndexes(parts);
    hide ByIndex;
    SetBodyIndexes(parts, i, body, ByIndex(parts));
    hide *;
    IndexesIsByIndex(WithBody(parts, i, body), ByIndex(parts)[EffectiveIndex(parts, i) := body]);
  }

  lemma PushIndex(parts: seq<Part>, index: nat, body: Body)
    requires WellIndexed(parts) && Indexes(parts, ByIndex(parts)) && index !in ByIndex(parts)
    ensures WellIndexed(parts + [Part(Some(index), body)])
  {
    hide ByIndex;
    var next := parts + [Part(Some(index), body)];
    assert forall j :: 0 <= j < |parts| ==> EffectiveIndex(next, j) == EffectiveIndex(parts, j) != index;
  }

  lemma PushIndexes(parts: seq<Part>, index: nat, body: Body, m: map<nat, Body>)
    requires Indexes(parts, m) && index !in m
    ensures Indexes(parts + [Part(Some(index), body)], m[index := body])
  {
    var next, after := parts + [Part(Some(index), body)], m[index := body];
    assert EffectiveIndex(next, |parts|) == index;
    forall j | 0 <= j < |next| ensures EffectiveIndex(next, j) in after && after[EffectiveIndex(next, j)] == next[j].body {
      if j < |parts| { assert EffectiveIndex(next, j) == EffectiveIndex(parts, j); }
    }
    forall k | k in after ensures exists j :: 0 <= j < |next| && EffectiveIndex(next, j) == k {
      if k != index {
        var j :| 0 <= j < |parts| && EffectiveIndex(parts, j) == k;
        assert EffectiveIndex(next, j) == k;
      }
    }
  }

  lemma PushBody(parts: seq<Part>, index: nat, body: Body)
    requires WellIndexed(parts) && index !in ByIndex(parts)
    ensures var next := parts + [Part(Some(index), body)];
            WellIndexed(next) && ByIndex(next) == ByIndex(parts)[index := body]
  {
    ByIndexIndexes(parts);
    PushIndex(parts, index, body);
    hide *;
    PushIndexes(parts, index, body, ByIndex(parts));
    IndexesIsByIndex(parts + [Part(Some(index), body)], ByIndex(parts)[index := body]);
  }

  lemma BareIsWellIndexed(parts: seq<Part>)
    requires forall i :: 0 <= i < |parts| ==> parts[i].marker.None?
    ensures WellIndexed(parts) && forall k: nat :: k in ByIndex(parts) <==> k < |parts|
    ensures forall k: nat :: k < |parts| ==> ByIndex(parts)[k] == parts[k].body
  {
    assert forall i :: 0 <= i < |parts| ==> EffectiveIndex(parts, i) == i;
    ByIndexIndexes(parts);
    forall k: nat ensures k in ByIndex(parts) <==> k < |parts| {
      if k < |parts| { assert EffectiveIndex(parts, k) == k; }
    }
  }

  lemma NotFound(parts: seq<Part>, index: nat, m: map<nat, Body>)
    requires Indexes(parts, m) && forall j :: 0 <= j < |parts| ==> EffectiveIndex(parts, j) != index
    ensures index !in m
  {
  }

  // The part that answers to `index`, by its marker or else by its position.
  method FindPart(parts: seq<Part>, index: nat) returns (position: Option<nat>)
    requires WellIndexed(parts)
    ensures position.Some? ==> position.value < |parts| && EffectiveIndex(parts, position.value) == index
    ensures position.Some? ==> index in ByIndex(parts) && ByIndex(parts)[index] == parts[position.value].body
    ensures position.None? ==> index !in ByIndex(parts)
  {
    position := None;
    for i := 0 to |parts|
      invariant position == None && forall j :: 0 <= j < i ==> parts[j].marker != Some(index)
    {
      if parts[i].marker == Some(index) {
        position := Some(i);
        break;
      }
    }
    if position.None? && index < |parts| && parts[index].marker.None? { position := Some(index); }
    ByIndexIndexes(parts);
    hide ByIndex, WellIndexed;
    if position.None? { NotFound(parts, index, ByIndex(parts)); }
  }

  // ---- one part grows ----

  datatype Channel = OutputText | Refusal | ReasoningText | SummaryText {
    function Kind(): string {
      match this
      case OutputText => "output_text"
      case Refusal => "refusal"
      case ReasoningText => "reasoning_text"
      case SummaryText => "summary_text"
    }
  }

  const EMPTY_BODY := Body(None, None, None, None, None, map[])

  function Said(b: Body, channel: Channel): string { (if channel.Refusal? then b.refusal else b.text).GetOr("") }

  function Saying(b: Body, channel: Channel, s: string): Body {
    if channel.Refusal? then b.(refusal := Some(s)) else b.(text := Some(s))
  }

  function NewBody(channel: Channel): Body { Saying(EMPTY_BODY.(kind := Some(channel.Kind())), channel, "") }

  function GrowPart(parts: map<nat, Body>, index: nat, channel: Channel, text: Option<string>, done: bool): Option<map<nat, Body>> {
    var body := if index in parts then parts[index] else NewBody(channel);
    match Grown(Said(body, channel), text.GetOr(""), done)
    case None => None
    case Some(s) => Some(parts[index := Saying(body, channel, s)])
  }

  // The part for `index`, added at the end when there is none.
  method PartFor(parts: seq<Part>, index: nat, channel: Channel) returns (grown: seq<Part>, at: nat)
    requires WellIndexed(parts)
    ensures WellIndexed(grown) && at < |grown| && EffectiveIndex(grown, at) == index
    ensures grown[at].body == (if index in ByIndex(parts) then ByIndex(parts)[index] else NewBody(channel))
    ensures ByIndex(grown) == ByIndex(parts)[index := grown[at].body]
  {
    var position := FindPart(parts, index);
    if position.Some? {
      assert ByIndex(parts) == ByIndex(parts)[index := parts[position.value].body];
      return parts, position.value;
    }
    PushBody(parts, index, NewBody(channel));
    return parts + [Part(Some(index), NewBody(channel))], |parts|;
  }

  lemma UpdateTwice(m: map<nat, Body>, index: nat, a: Body, b: Body)
    ensures m[index := a][index := b] == m[index := b]
  {
  }

  // `append_message_part` and `append_array_text_part`.
  method AppendPart(parts: seq<Part>, index: nat, channel: Channel, text: Option<string>, done: bool) returns (r: Option<seq<Part>>)
    requires WellIndexed(parts)
    ensures r.Some? <==> GrowPart(ByIndex(parts), index, channel, text, done).Some?
    ensures r.Some? ==> WellIndexed(r.value) && Some(ByIndex(r.value)) == GrowPart(ByIndex(parts), index, channel, text, done)
  {
    var grown, at := PartFor(parts, index, channel);
    var part := grown[at];
    hide WellIndexed, ByIndex, WithBody, Said, Saying, NewBody, Grown;
    var next := Grown(Said(part.body, channel), text.GetOr(""), done);
    if next.None? { return None; }
    var said := Saying(part.body, channel, next.value);
    SetBody(grown, at, said);
    UpdateTwice(ByIndex(parts), index, part.body, said);
    return Some(WithBody(grown, at, said));
  }

  // ---- merging a snapshot of the parts ----

  function JoinField(streamed: Option<string>, terminal: Option<string>): Option<Option<string>> {
    if terminal.None? then Some(streamed)
    else match Join(streamed.GetOr(""), terminal.value)
      case None => None
      case Some(s) => Some(Some(s))
  }

  predicate KindsDiffer(a: Option<string>, b: Option<string>) { a.Some? && b.Some? && a != b }

  function Override(a: Option<string>, b: Option<string>): Option<string> { if b.Some? && b.value != "" then b else a }

  function JoinBody(b: Body, t: Body): Option<Body> {
    var text, refusal, transcript := JoinField(b.text, t.text), JoinField(b.refusal, t.refusal), JoinField(b.transcript, t.transcript);
    if KindsDiffer(b.kind, t.kind) || text.None? || refusal.None? || transcript.None? then None
    else Some(Body(Override(b.kind, t.kind), text.value, refusal.value, transcript.value,
                   if t.annotations.Some? then t.annotations else b.annotations, b.extra + t.extra))
  }

  function Bodies(parts: seq<Part>): (r: seq<Body>)
    ensures |r| == |parts| && forall i :: 0 <= i < |r| ==> r[i] == parts[i].body
  {
    seq(|parts|, i requires 0 <= i < |parts| => parts[i].body)
  }

  // Every streamed part has a counterpart and joins with it.
  predicate PartsJoin(parts: map<nat, Body>, terminal: seq<Body>) {
    forall k :: k in parts ==> k < |terminal| && JoinBody(parts[k], terminal[k]).Some?
  }

  function JoinedPart(parts: map<nat, Body>, terminal: seq<Body>, k: nat): Body
    requires k < |terminal|
  {
    if k in parts then JoinBody(parts[k], terminal[k]).GetOr(parts[k]) else terminal[k]
  }

  function JoinParts(parts: map<nat, Body>, terminal: seq<Body>): Option<map<nat, Body>> {
    if terminal == [] then Some(parts)
    else if !PartsJoin(parts, terminal) then None
    else Some(map k: nat | k < |terminal| :: JoinedPart(parts, terminal, k))
  }

  ghost predicate JoinedUpTo(before: map<nat, Body>, terminal: seq<Body>, n: nat, now: map<nat, Body>)
    requires n <= |terminal|
  {
    && (forall k: nat :: k in before && k < n ==> JoinBody(before[k], terminal[k]).Some?)
    && (forall k: nat :: k in now <==> k < n || k in before)
    && (forall k: nat :: k in now ==> now[k] == if k < n then JoinedPart(before, terminal, k) else before[k])
  }

  lemma BeyondTerminal(before: map<nat, Body>, terminal: seq<Body>)
    requires terminal != []
    ensures !(forall k :: k in before ==> k < |terminal|) ==> JoinParts(before, terminal).None?
  {
    hide JoinBody;
  }

  lemma JoinedNone(before: map<nat, Body>, terminal: seq<Body>)
    ensures JoinedUpTo(before, terminal, 0, before)
  {
  }

  lemma JoinedNext(before: map<nat, Body>, terminal: seq<Body>, n: nat, now: map<nat, Body>)
    requires n < |terminal| && JoinedUpTo(before, terminal, n, now)
    ensures n in now && JoinBody(now[n], terminal[n]).None? ==> JoinParts(before, terminal).None?
    ensures n in now && JoinBody(now[n], terminal[n]).Some? ==>
              JoinedUpTo(before, terminal, n + 1, now[n := JoinBody(now[n], terminal[n]).value])
    ensures n !in now ==> JoinedUpTo(before, terminal, n + 1, now[n := terminal[n]])
  {
    hide JoinBody;
    assert n in now <==> n in before;
  }

  lemma JoinedAll(before: map<nat, Body>, terminal: seq<Body>, now: map<nat, Body>)
    requires terminal != [] && JoinedUpTo(before, terminal, |terminal|, now) && forall k :: k in before ==> k < |terminal|
    ensures JoinParts(before, terminal) == Some(now)
  {
    hide JoinBody;
    assert now == map k: nat | k < |terminal| :: JoinedPart(before, terminal, k);
  }

  // `merge_terminal_parts`; an empty snapshot is skipped by its caller.
  method MergeParts(streamed: seq<Part>, terminal: seq<Body>) returns (r: Option<seq<Part>>)
    requires WellIndexed(streamed) && terminal != []
    ensures r.Some? <==> JoinParts(ByIndex(streamed), terminal).Some?
    ensures r.Some? ==> WellIndexed(r.value) && Some(ByIndex(r.value)) == JoinParts(ByIndex(streamed), terminal)
  {
    hide WellIndexed, JoinedUpTo, JoinParts, JoinBody, ByIndex;
    ghost var before := ByIndex(streamed);
    BeyondTerminal(before, terminal);
    var within := AllWithin(streamed, |terminal|);
    if !within { return None; }
    var parts := streamed;
    JoinedNone(before, terminal);
    for index := 0 to |terminal|
      invariant WellIndexed(parts) && JoinedUpTo(before, terminal, index, ByIndex(parts))
    {
      JoinedNext(before, terminal, index, ByIndex(parts));
      var next := MergePart(parts, terminal[index], index);
      if next.None? { return None; }
      parts := next.value;
    }
    JoinedAll(before, terminal, ByIndex(parts));
    return Some(parts);
  }

  method AllWithin(streamed: seq<Part>, n: nat) returns (within: bool)
    requires WellIndexed(streamed)
    ensures within <==> forall k :: k in ByIndex(streamed) ==> k < n
  {
    ByIndexIndexes(streamed);
    hide ByIndex;
    for i := 0 to |streamed|
      invariant forall j :: 0 <= j < i ==> EffectiveIndex(streamed, j) < n
    {
      if EffectiveIndex(streamed, i) >= n {
        assert EffectiveIndex(streamed, i) in ByIndex(streamed);
        return false;
      }
    }
    return true;
  }

  method MergePart(parts: seq<Part>, terminal: Body, index: nat) returns (r: Option<seq<Part>>)
    requires WellIndexed(parts)
    ensures r.Some? <==> (index in ByIndex(parts) ==> JoinBody(ByIndex(parts)[index], terminal).Some?)
    ensures r.Some? ==>
              && WellIndexed(r.value)
              && ByIndex(r.value) == ByIndex(parts)[index :=
                   if index in ByIndex(parts) then JoinBody(ByIndex(parts)[index], terminal).value else terminal]
  {
    var position := FindPart(parts, index);
    if position.None? {
      PushBody(parts, index, terminal);
      return Some(parts + [Part(Some(index), terminal)]);
    }
    var at := position.value;
    var joined := JoinBody(parts[at].body, terminal);
    if joined.None? { return None; }
    SetBody(parts, at, joined.value);
    return Some(WithBody(parts, at, joined.value));
  }
}
