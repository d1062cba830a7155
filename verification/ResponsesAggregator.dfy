// The aggregator: items in place, parts in the order they came, markers where that is not their index.
module ResponsesAggregator {
  import opened Wrappers
  import opened ResponsesItems
  import opened ResponsesOrder
  import opened ResponsesSpec

  ghost predicate PartsOk(parts: Option<seq<Part>>) { parts.Some? ==> WellIndexed(parts.value) }

  ghost predicate WellFormed(item: Item) { PartsOk(item.content) && PartsOk(item.summary) }

  ghost function PartsOf(parts: Option<seq<Part>>): map<nat, Body> {
    if parts.Some? && WellIndexed(parts.value) then ByIndex(parts.value) else map[]
  }

  ghost function Abs(item: Item): AbsItem { AbsItem(item.head, PartsOf(item.content), PartsOf(item.summary)) }

  lemma NoParts()
    ensures WellIndexed([]) && ByIndex([]) == map[]
  {
  }

  lemma RawParts(parts: Option<seq<Part>>)
    requires Bare(parts)
    ensures PartsOk(parts) && PartsOf(parts) == Range(BodiesOf(parts))
  {
    if parts.Some? { BareIsWellIndexed(parts.value); }
    hide WellIndexed, ByIndex;
  }

  lemma RawItemAbs(item: RawItem)
    ensures WellFormed(item) && Abs(item) == FromRaw(item)
  {
    RawParts(item.content);
    RawParts(item.summary);
  }

  // An absent or empty list of parts starts as an empty one.
  method StartParts(parts: Option<seq<Part>>) returns (r: seq<Part>)
    requires PartsOk(parts)
    ensures WellIndexed(r) && ByIndex(r) == PartsOf(parts)
  {
    NoParts();
    return if parts.None? then [] else parts.value;
  }

  // `append_message_part` or `append_array_text_part` on the list the channel belongs to.
  method AppendToItem(item: Item, channel: Channel, index: nat, text: Option<string>, done: bool) returns (r: Option<Item>)
    requires WellFormed(item)
    ensures r.Some? <==> GrowItem(Abs(item), channel, index, text, done).Some?
    ensures r.Some? ==> WellFormed(r.value) && Some(Abs(r.value)) == GrowItem(Abs(item), channel, index, text, done)
  {
    hide WellIndexed, ByIndex, GrowPart;
    var parts := StartParts(if channel.SummaryText? then item.summary else item.content);
    var grown := AppendPart(parts, index, channel, text, done);
    if grown.None? { return None; }
    return Some(if channel.SummaryText? then item.(summary := grown) else item.(content := grown));
  }

  // ---- `merge_terminal_item` ----

  method MergeIdentity(streamed: Field, terminal: Field) returns (r: Option<Field>)
    ensures r == JoinIdentity(streamed, terminal)
  {
    if terminal.Str? && terminal.text != "" {
      if streamed.Str? && streamed.text != "" && streamed.text != terminal.text { return None; }
      return Some(terminal);
    }
    return Some(streamed);
  }

  method MergeHead(h: Head, t: Head) returns (r: Option<Head>)
    ensures r == JoinHead(h, t)
  {
    if h.kind.Some? && t.kind.Some? && h.kind != t.kind { return None; }
    var id := MergeIdentity(h.id, t.id);
    var callId := MergeIdentity(h.callId, t.callId);
    var name := MergeIdentity(h.name, t.name);
    if id.None? || callId.None? || name.None? { return None; }
    var arguments := h.arguments;
    if t.arguments.Str? {
      var merged := Join(h.arguments.GetOr(""), t.arguments.text);
      if merged.None? { return None; }
      arguments := Str(merged.value);
    }
    return Some(Head(Override(h.kind, t.kind), id.value, callId.value, name.value, arguments,
                     if t.status.Given() then t.status else h.status, if t.encrypted.Given() then t.encrypted else h.encrypted,
                     if t.caller.Str? then t.caller else h.caller, h.extra + t.extra));
  }

  // An empty list of terminal parts is skipped.
  method MergePartList(parts: Option<seq<Part>>, terminal: seq<Body>) returns (r: Option<Option<seq<Part>>>)
    requires PartsOk(parts)
    ensures r.Some? <==> JoinParts(PartsOf(parts), terminal).Some?
    ensures r.Some? ==> PartsOk(r.value) && Some(PartsOf(r.value)) == JoinParts(PartsOf(parts), terminal)
  {
    hide WellIndexed, ByIndex;
    if terminal == [] { return Some(parts); }
    var streamed := StartParts(parts);
    hide JoinParts;
    var merged := MergeParts(streamed, terminal);
    if merged.None? { return None; }
    return Some(merged);
  }

  method MergeItem(item: Item, terminal: RawItem) returns (r: Option<Item>)
    requires WellFormed(item)
    ensures r.Some? <==> JoinItem(Abs(item), terminal).Some?
    ensures r.Some? ==> WellFormed(r.value) && Some(Abs(r.value)) == JoinItem(Abs(item), terminal)
  {
    hide PartsOk, PartsOf, JoinParts, JoinHead;
    var head := MergeHead(item.head, terminal.head);
    if head.None? { return None; }
    var content := MergePartList(item.content, BodiesOf(terminal.content));
    if content.None? { return None; }
    var summary := MergePartList(item.summary, BodiesOf(terminal.summary));
    if summary.None? { return None; }
    return Some(Item(head.value, content.value, summary.value));
  }

  // ---- `normalize_stream_part_indices` ----

  method NormalizeList(parts: Option<seq<Part>>) returns (r: seq<Body>)
    requires PartsOk(parts)
    ensures r == InOrder(PartsOf(parts))
  {
    if parts.None? {
      InOrderOfRange<Body>(map[], 0);
      return [];
    }
    hide InOrder;
    r := NormalizeParts(parts.value);
  }

  method Normalize(item: Item) returns (r: OutItem)
    requires WellFormed(item)
    ensures r == Normal(Abs(item))
  {
    hide PartsOk, PartsOf, InOrder;
    var content := NormalizeList(item.content);
    var summary := NormalizeList(item.summary);
    return OutItem(item.head, content, summary);
  }

  ghost function AbsItems(items: map<nat, Item>): map<nat, AbsItem> { map k | k in items :: Abs(items[k]) }

  // ---- the terminal output ----

  method ValidateFunctions(streamed: map<nat, Item>, terminal: seq<RawItem>) returns (ok: bool)
    ensures ok <==> CallsConfirmed(AbsItems(streamed), terminal)
  {
    AscendIsAscending(streamed.Keys);
    var keys := Ascend(streamed.Keys);
    hide Ascend, CallConfirmed;
    for i := 0 to |keys|
      invariant forall j :: 0 <= j < i ==> CallConfirmed(streamed[keys[j]].head, keys[j], terminal)
    {
      assert keys[i] in keys;
      var confirmed := ConfirmCall(streamed[keys[i]].head, keys[i], terminal);
      if !confirmed {
        assert AbsItems(streamed)[keys[i]].head == streamed[keys[i]].head;
        return false;
      }
    }
    forall k | k in AbsItems(streamed) ensures CallConfirmed(AbsItems(streamed)[k].head, k, terminal) {
      assert k in keys;
    }
    return true;
  }

  method ConfirmCall(head: Head, index: nat, terminal: seq<RawItem>) returns (ok: bool)
    ensures ok == CallConfirmed(head, index, terminal)
  {
    var expected := FunctionIdentity(head);
    if expected.None? { return true; }
    if index >= |terminal| || terminal[index].head.kind != Some("function_call") { return false; }
    if IsSkeleton(terminal[index].head) { return true; }
    return FunctionIdentity(terminal[index].head) == expected;
  }

  ghost function AbsList(items: seq<Item>): (r: seq<AbsItem>)
    ensures |r| == |items|
  {
    seq(|items|, i requires 0 <= i < |items| => Abs(items[i]))
  }

  ghost predicate AllWellFormed(items: seq<Item>) { forall i :: 0 <= i < |items| ==> WellFormed(items[i]) }

  // Streamed items come in ascending order of their keys.
  method StreamedValues(streamed: map<nat, Item>) returns (r: seq<Item>)
    requires forall k :: k in streamed ==> WellFormed(streamed[k])
    ensures AllWellFormed(r) && AbsList(r) == InOrder(AbsItems(streamed))
  {
    AscendIsAscending(streamed.Keys);
    InOrderIsDense(AbsItems(streamed));
    assert AbsItems(streamed).Keys == streamed.Keys;
    var keys := Ascend(streamed.Keys);
    hide Ascend, InOrder, WellFormed, Abs;
    assert forall i :: 0 <= i < |keys| ==> keys[i] in keys;
    return seq(|keys|, i requires 0 <= i < |keys| => assert keys[i] in keys; streamed[keys[i]]);
  }

  lemma FromRawList(terminal: seq<RawItem>)
    ensures AllWellFormed(terminal) && AbsList(terminal) == FromRaws(terminal)
  {
    forall i | 0 <= i < |terminal| ensures WellFormed(terminal[i]) && Abs(terminal[i]) == FromRaw(terminal[i]) {
      RawItemAbs(terminal[i]);
    }
    hide WellFormed, Abs, FromRaw;
  }

  lemma ListUpdated(items: seq<Item>, i: nat, item: Item)
    requires i < |items| && AllWellFormed(items) && WellFormed(item)
    ensures AllWellFormed(items[i := item]) && AbsList(items[i := item]) == AbsList(items)[i := Abs(item)]
  {
    hide WellFormed, Abs;
  }

  lemma ListPushed(items: seq<Item>, item: Item)
    requires AllWellFormed(items) && WellFormed(item)
    ensures AllWellFormed(items + [item]) && AbsList(items + [item]) == AbsList(items) + [Abs(item)]
  {
    hide WellFormed, Abs;
  }

  // Where the merge stands: keys still to come are in order, and their terminal items untouched.
  ghost predicate MergingAt(keys: seq<nat>, i: nat, streamed: map<nat, Item>, terminal: seq<RawItem>, output: seq<Item>) {
    && i <= |keys| && |terminal| <= |output| && Ascending(keys)
    && (forall k :: k in keys ==> k in streamed)
    && (forall j :: i <= j < |keys| && keys[j] < |terminal| ==> output[keys[j]] == terminal[keys[j]])
    && (i < |keys| && |output| > |terminal| ==> keys[i] >= |output|)
  }

  lemma MergingHead(keys: seq<nat>, i: nat, streamed: map<nat, Item>, terminal: seq<RawItem>, output: seq<Item>)
    requires i < |keys| && MergingAt(keys, i, streamed, terminal, output)
    ensures keys[i] in keys && keys[i] in streamed && keys[i..][0] == keys[i] && keys[i..][1..] == keys[i + 1..]
    ensures keys[i] < |output| ==> keys[i] < |terminal| && output[keys[i]] == terminal[keys[i]]
    ensures keys[i] in AbsItems(streamed) && AbsItems(streamed)[keys[i]] == Abs(streamed[keys[i]])
  {
  }

  lemma MergingNext(keys: seq<nat>, i: nat, streamed: map<nat, Item>, terminal: seq<RawItem>, output: seq<Item>, item: Item)
    requires i < |keys| && MergingAt(keys, i, streamed, terminal, output)
    ensures keys[i] < |output| ==> MergingAt(keys, i + 1, streamed, terminal, output[keys[i] := item])
    ensures keys[i] == |output| ==> MergingAt(keys, i + 1, streamed, terminal, output + [item])
  {
    assert i + 1 < |keys| ==> keys[i] < keys[i + 1];
  }

  // What is left of the merge, one key at a time.
  ghost function Rest(items: map<nat, AbsItem>, terminal: seq<RawItem>, keys: seq<nat>, i: nat, output: seq<AbsItem>): Option<seq<AbsItem>>
    requires i <= |keys| && |terminal| <= |output| && forall k :: k in keys ==> k in items
  {
    JoinOutput(items, terminal, keys[i..], output)
  }

  lemma RestNext(items: map<nat, AbsItem>, terminal: seq<RawItem>, keys: seq<nat>, i: nat, output: seq<AbsItem>)
    requires i <= |keys| && |terminal| <= |output| && forall k :: k in keys ==> k in items
    ensures i == |keys| ==> Rest(items, terminal, keys, i, output) == Some(output)
    ensures i < |keys| ==> keys[i] in keys
    ensures i < |keys| && keys[i] < |terminal| ==>
              Rest(items, terminal, keys, i, output) ==
              match JoinItem(items[keys[i]], terminal[keys[i]])
              case None => None
              case Some(joined) => Rest(items, terminal, keys, i + 1, output[keys[i] := joined])
    ensures i < |keys| && |terminal| <= keys[i] ==>
              Rest(items, terminal, keys, i, output)
              == if keys[i] == |output| then Rest(items, terminal, keys, i + 1, output + [items[keys[i]]]) else None
  {
    hide JoinItem;
    if i < |keys| { assert keys[i..][0] == keys[i] && keys[i..][1..] == keys[i + 1..]; }
  }

  // `merge_terminal_output`.
  method MergeOutput(streamed: map<nat, Item>, terminal: seq<RawItem>) returns (r: Option<seq<Item>>)
    requires forall k :: k in streamed ==> WellFormed(streamed[k])
    ensures r.Some? <==> Output(AbsItems(streamed), terminal).Some?
    ensures r.Some? ==> AllWellFormed(r.value) && Some(AbsList(r.value)) == Output(AbsItems(streamed), terminal)
  {
    if terminal == [] {
      var values := StreamedValues(streamed);
      return Some(values);
    }
    FromRawList(terminal);
    AscendIsAscending(streamed.Keys);
    var keys := Ascend(streamed.Keys);
    ghost var abs := AbsItems(streamed);
    assert abs.Keys == streamed.Keys;
    ghost var goal := Output(abs, terminal);
    var output: seq<Item> := terminal;
    assert MergingAt(keys, 0, streamed, terminal, output);
    assert keys[0..] == keys;
    hide Ascend, WellFormed, Abs, FromRaw, AllWellFormed, Ascending, MergingAt, JoinItem, Output, JoinOutput;
    assert goal == Rest(abs, terminal, keys, 0, AbsList(output));
    hide Rest, AbsItems;
    for i := 0 to |keys|
      invariant AllWellFormed(output) && |terminal| <= |output| && MergingAt(keys, i, streamed, terminal, output)
      invariant goal == Rest(abs, terminal, keys, i, AbsList(output))
    {
      var index := keys[i];
      MergingHead(keys, i, streamed, terminal, output);
      RestNext(abs, terminal, keys, i, AbsList(output));
      if index < |output| {
        var merged := MergeItem(streamed[index], output[index]);
        if merged.None? { return None; }
        MergingNext(keys, i, streamed, terminal, output, merged.value);
        ListUpdated(output, index, merged.value);
        output := output[index := merged.value];
      } else if index == |output| {
        MergingNext(keys, i, streamed, terminal, output, streamed[index]);
        ListPushed(output, streamed[index]);
        output := output + [streamed[index]];
      } else {
        return None;
      }
    }
    RestNext(abs, terminal, keys, |keys|, AbsList(output));
    return Some(output);
  }

  // ---- the class ----

  predicate MessageChannel(c: Channel) { c.OutputText? || c.Refusal? }

  class ResponsesSseAggregator {
    var terminal: Option<Response>
    var items: map<nat, Item>
    var itemIds: map<string, nat>
    var finalizedMessageParts: set<Key>
    var finalizedReasoningParts: set<Key>
    var sawTerminal: bool

    // In every reachable state no two parts of an item answer to one index.
    ghost predicate Valid()
      reads this
    {
      && (forall k :: k in items ==> WellFormed(items[k]))
      && sawTerminal == terminal.Some?
      && (forall k :: k in finalizedMessageParts ==> MessageChannel(k.2))
      && (forall k :: k in finalizedReasoningParts ==> !MessageChannel(k.2))
    }

    ghost function View(): State
      reads this
    {
      State(AbsItems(items), itemIds, finalizedMessageParts + finalizedReasoningParts, terminal)
    }

    constructor ()
      ensures Valid() && View() == EMPTY_STATE
    {
      terminal, items, itemIds := None, map[], map[];
      finalizedMessageParts, finalizedReasoningParts, sawTerminal := {}, {}, false;
      assert AbsItems(map[]) == map[];
    }

    method SetItem(index: nat, item: Item)
      requires Valid() && WellFormed(item)
      modifies this`items
      ensures Valid() && View() == old(View()).(items := old(View()).items[index := Abs(item)])
    {
      hide WellFormed, Abs;
      items := items[index := item];
      assert AbsItems(items) == AbsItems(old(items))[index := Abs(item)];
    }

    // Later deltas for these parts are repeats.
    method Finalize(keys: set<Key>)
      requires Valid()
      modifies this`finalizedMessageParts, this`finalizedReasoningParts
      ensures Valid() && View() == old(View()).(finalized := old(View()).finalized + keys)
    {
      finalizedMessageParts := finalizedMessageParts + (set k | k in keys && MessageChannel(k.2));
      finalizedReasoningParts := finalizedReasoningParts + (set k | k in keys && !MessageChannel(k.2));
    }

    method OnItem(index: nat, item: RawItem) returns (ok: bool)
      requires Valid()
      modifies this
      ensures ok <==> ResponsesSpec.OnItem(old(View()), index, item).Some?
      ensures ok ==> Valid() && ResponsesSpec.OnItem(old(View()), index, item) == Some(View())
    {
      RawItemAbs(item);
      hide WellFormed, Abs, FromRaw, JoinItem, MessageSnapshots, ReasoningSnapshots;
      if index in items {
        var merged := MergeItem(items[index], item);
        if merged.None? { return false; }
        SetItem(index, merged.value);
      } else {
        SetItem(index, item);
      }
      Finalize(MessageSnapshots(index, item));
      Finalize(ReasoningSnapshots(index, item));
      if item.head.id.Str? { itemIds := itemIds[item.head.id.text := index]; }
      return true;
    }

    // An item for text or arguments that name one not seen before.
    method ItemFor(index: nat, e: Event) returns (item: Item)
      requires Valid() && (e.TextEvent? || e.ArgumentsEvent?)
      ensures WellFormed(item) && Abs(item) == ItemAt(View(), index, e)
    {
      if index in items { return items[index]; }
      NoParts();
      item := Item(NewHead(e), if e.TextEvent? then Some([]) else None,
                   if e.TextEvent? && !MessageChannel(e.channel) then Some([]) else None);
    }

    method OnText(e: Event) returns (ok: bool)
      requires Valid() && e.TextEvent?
      modifies this
      ensures ok <==> ResponsesSpec.OnText(old(View()), e).Some?
      ensures ok ==> Valid() && ResponsesSpec.OnText(old(View()), e) == Some(View())
    {
      var index, part := IndexOf(itemIds, e.outputIndex, e.itemId), e.partIndex.GetOr(0);
      var key := (index, part, e.channel);
      if !e.done && key in (if MessageChannel(e.channel) then finalizedMessageParts else finalizedReasoningParts) { return true; }
      var item := ItemFor(index, e);
      hide WellFormed, Abs, GrowItem, ItemAt;
      var grown := AppendToItem(item, e.channel, part, e.text, e.done);
      if grown.None? { return false; }
      SetItem(index, grown.value);
      Finalize(if e.done then {key} else {});
      return true;
    }

    method OnArguments(e: Event) returns (ok: bool)
      requires Valid() && e.ArgumentsEvent?
      modifies this
      ensures ok <==> ResponsesSpec.OnArguments(old(View()), e).Some?
      ensures ok ==> Valid() && ResponsesSpec.OnArguments(old(View()), e) == Some(View())
    {
      var index := IndexOf(itemIds, e.outputIndex, e.itemId);
      var item := ItemFor(index, e);
      var next := Grown(item.head.arguments.GetOr(""), e.text.GetOr(""), e.done);
      if next.None? { return false; }
      hide ItemAt;
      SetItem(index, item.(head := item.head.(arguments := Str(next.value))));
      return true;
    }

    method PushRaw(e: Event) returns (ok: bool)
      requires Valid()
      modifies this
      ensures ok <==> Step(old(View()), e).Some?
      ensures ok ==> Valid() && Step(old(View()), e) == Some(View())
    {
      hide ResponsesSpec.OnItem, ResponsesSpec.OnText, ResponsesSpec.OnArguments, WellFormed;
      if e.Malformed? { return false; }
      if sawTerminal { return true; }
      match e {
        case ItemEvent(index, Some(item)) => ok := OnItem(index.GetOr(0), item);
        case TextEvent(_, _, _, _, _, _) => ok := OnText(e);
        case ArgumentsEvent(_, _, _, _, _, _) => ok := OnArguments(e);
        case EndEvent(expected, response) =>
          if response.None? || response.value.status != Some(expected) { return false; }
          sawTerminal, terminal := true, response;
          ok := true;
        case FailEvent(expected, response, error) =>
          var failed := Failed(expected, response, error);
          if failed.status != Some(expected) { return false; }
          sawTerminal, terminal := true, Some(failed);
          ok := true;
        case ErrorEvent(error) =>
          sawTerminal, terminal := true, Some(Response(Some("failed"), None, error, Some([]), None));
          ok := true;
        case _ => ok := true;
      }
    }

    // The payload handed to the transform.
    method Finish() returns (r: Option<Payload>)
      requires Valid()
      ensures r == Finished(View())
    {
      if !sawTerminal { return None; }
      var response := terminal.value;
      if response.output.None? { return None; }
      hide WellFormed, Abs, Output, CallsConfirmed;
      var confirmed := ValidateFunctions(items, response.output.value);
      if !confirmed { return None; }
      var output := MergeOutput(items, response.output.value);
      if output.None? { return None; }
      var normalized := NormalizeAll(output.value);
      return Some(Payload(response.status, response.incompleteReason, response.error, Some(normalized), response.usage, true));
    }
  }

  method NormalizeAll(items: seq<Item>) returns (r: seq<OutItem>)
    requires AllWellFormed(items)
    ensures r == Normals(AbsList(items))
  {
    r := [];
    hide WellFormed, Abs, Normal;
    for i := 0 to |items|
      invariant |r| == i && forall j :: 0 <= j < i ==> r[j] == Normal(Abs(items[j]))
    {
      var item := Normalize(items[i]);
      r := r + [item];
    }
  }
}
