// The live Chat message against the fields of the events it came from.
module ChatSays {
  import opened Wrappers
  import opened ChatEvents
  import opened ChatLiveSpec
  import opened ChatTools
  import opened ChatTranscript
  import opened Anthropic
  import opened Marks

  // ---- what the events amount to ----

  // The finish reason, or what [DONE] stands for when anything was said.
  function ReasonTold(events: seq<Event>, sawDone: bool): Option<string> {
    if Reason(events).Some? then Reason(events)
    else if !sawDone || AllSilent(Heard(events)) then None
    else Some(if CallsSeen(Heard(events), {}) == {} then "stop" else "length")
  }

  predicate Known(reason: string) { reason in {"stop", "length", "tool_calls", "function_call", "content_filter"} }

  // Calls are made only when the stream stops for them and nothing was refused.
  predicate MakesCalls(reason: string, refusal: string) { reason in {"tool_calls", "function_call"} && refusal == "" }

  function Input(c: Context, fs: seq<Fragment>): Option<string> {
    c.codec.parseObject(if Spelled(fs) == "" then "{}" else Spelled(fs))
  }

  predicate Callable(c: Context, fs: seq<Fragment>) { FirstId(fs) != "" && Named("", fs) != "" && Input(c, fs).Some? }

  // A call as it is made, or what is said of one that is not made.
  function CallShown(c: Context, fs: seq<Fragment>, makes: bool): seq<Mark> {
    var name := if Named("", fs) == "" then "unknown" else c.names.Original(Named("", fs));
    if makes then [Uses(ToolUse(FirstId(fs), name, Input(c, fs).GetOr("")))]
    else
      Chars("[incomplete tool_use " + name + ": "
            + (if |Spelled(fs)| > 4096 then Spelled(fs)[..4096] + ['\U{2026}'] else Spelled(fs)) + "]")
  }

  function CallsOf(c: Context, heard: seq<Delta>, makes: bool): Calls { (i: nat) => CallShown(c, FragmentsIn(heard, i), makes) }

  function StopTold(reason: string, refusal: string, usage: Option<string>): Stop {
    if reason == "content_filter" || refusal != "" then
      Stop("refusal", Some(if refusal == "" then None else Some(refusal)), usage)
    else Stop(match reason case "stop" => "end_turn" case "length" => "max_tokens" case _ => "tool_use", None, usage)
  }

  // ---- sending what was deferred ----

  lemma ToolMarks(c: Context, calls: Calls, s: Sent, tools: map<nat, ToolBuffer>, makes: bool, fs: seq<Fragment>, i: nat)
    requires ToolSoFar(tools, i) == Assembled(fs) && calls(i) == CallShown(c, fs, makes)
    ensures FlatSent(c, SendDeferred(c, s, tools, makes, ToolAt(i))) == FlatSent(c, s) + calls(i)
  {
    var closed := Close(c, s);
    assert closed.open.NoBlock?;
    if makes {
      FlatSnoc(closed.blocks, ToolUse(FirstId(fs), ToolName(c, Assembled(fs)), Input(c, fs).GetOr("")));
    } else {
      hide Close, FirstId, Named, Spelled, Chars;
      SendTextMarks(c, closed, IncompleteToolText(ToolName(c, Assembled(fs)), Spelled(fs)));
      SendMarks(c, s, "");
    }
  }

  lemma {:induction false} DeferredMarks(c: Context, calls: Calls, s: Sent, tools: map<nat, ToolBuffer>, makes: bool,
                                         deferred: seq<Semantic>, fs: nat -> seq<Fragment>)
    requires forall i: nat :: ToolAt(i) in deferred ==> ToolSoFar(tools, i) == Assembled(fs(i)) && calls(i) == CallShown(c, fs(i), makes)
    ensures FlatSent(c, SendAllDeferred(c, s, tools, makes, deferred)) == FlatSent(c, s) + FlatParts(c, calls, deferred)
    decreases |deferred|
  {
    hide FlatSent, SendDeferred, CallShown, Assembled, ToolSoFar;
    if deferred == [] {
      assert FlatSent(c, s) + [] == FlatSent(c, s);
    } else {
      var d, rest := deferred[0], deferred[1..];
      assert d in deferred && deferred == [d] + rest;
      var next := SendDeferred(c, s, tools, makes, d);
      PieceOfDeferred(c, calls, s, tools, makes, d, fs);
      DeferredMarks(c, calls, next, tools, makes, rest, fs);
      FlatPartsCons(c, calls, d, rest);
      Assoc(FlatSent(c, s), PartMarks(c, calls, d), FlatParts(c, calls, rest));
    }
  }

  lemma PieceOfDeferred(c: Context, calls: Calls, s: Sent, tools: map<nat, ToolBuffer>, makes: bool, d: Semantic,
                        fs: nat -> seq<Fragment>)
    requires d.ToolAt? ==> ToolSoFar(tools, d.index) == Assembled(fs(d.index)) && calls(d.index) == CallShown(c, fs(d.index), makes)
    ensures FlatSent(c, SendDeferred(c, s, tools, makes, d)) == FlatSent(c, s) + PartMarks(c, calls, d)
  {
    hide FlatSent, CallShown, Assembled, ToolSoFar, SendText, SendThinking;
    match d {
      case TextPart(t) => SendMarks(c, s, t);
      case ThinkingPart(t, signature) =>
        SendMarks(c, s, t);
        SignedSent(c, SendThinking(c, s, t), signature);
      case ToolAt(i) => ToolMarks(c, calls, s, tools, makes, fs(i), i);
    }
  }

  // ---- the message ----

  // The live stream holds just the calls of the events heard.
  ghost predicate ToolsAre(tools: map<nat, ToolBuffer>, heard: seq<Delta>) {
    forall i: nat ::
      (i in tools <==> FragmentsIn(heard, i) != []) && (i in tools ==> tools[i] == Assembled(FragmentsIn(heard, i)))
  }

  lemma ToolsHeard(c: Context, freshId: string, events: seq<Event>)
    requires OnEvents(c, Fresh(freshId), events).Some?
    ensures ToolsAre(OnEvents(c, Fresh(freshId), events).value.tools, Heard(events))
    ensures OnEvents(c, Fresh(freshId), events).value.finish == Reason(events)
  {
    hide OnEvents, Heard, Reason, OneId;
    var l, heard := OnEvents(c, Fresh(freshId), events).value, Heard(events);
    forall i: nat
      ensures (i in l.tools <==> FragmentsIn(heard, i) != []) && (i in l.tools ==> l.tools[i] == Assembled(FragmentsIn(heard, i)))
    {
      LiveTools(c, freshId, events, i);
    }
    LiveTools(c, freshId, events, 0);
  }

  lemma {:induction false} SilentSeesNothing(deltas: seq<Delta>, seen: set<nat>)
    requires AllSilent(deltas)
    ensures CallsSeen(deltas, seen) == seen
    decreases |deltas|
  {
    if deltas != [] {
      assert Silent(deltas[0]);
      SilentSeesNothing(deltas[1..], seen);
    }
  }

  lemma Finishing(c: Context, freshId: string, events: seq<Event>, sawDone: bool)
    requires OnEvents(c, Fresh(freshId), events).Some?
    ensures var l, heard := OnEvents(c, Fresh(freshId), events).value, Heard(events);
            && ReasonFor(l, sawDone) == ReasonTold(events, sawDone) && ToolsAre(l.tools, heard)
            && l.refusal == RefusalText(heard) && l.usage == Usage(None, events)
  {
    hide OnEvents, Told, Transcript, AllSilent, CallsSeen, FragmentsIn, Heard, Reason, ToolsAre, RefusalText, Usage;
    var l, heard := OnEvents(c, Fresh(freshId), events).value, Heard(events);
    EventsTold(c, (i: nat) => [], Fresh(freshId), events);
    ToolsHeard(c, freshId, events);
    assert "" + RefusalText(heard) == RefusalText(heard);
    assert Fresh(freshId).tools.Keys == {};
    assert l.tools == map[] <==> l.tools.Keys == {};
    if !l.semantic { SilentSeesNothing(heard, {}); }
  }

  // Every call there is has an id, a name and an object for arguments.
  ghost predicate AllCallable(c: Context, heard: seq<Delta>) {
    forall i: nat :: FragmentsIn(heard, i) != [] ==> Callable(c, FragmentsIn(heard, i))
  }

  lemma SendableExactly(c: Context, tools: map<nat, ToolBuffer>, heard: seq<Delta>)
    requires ToolsAre(tools, heard)
    ensures (forall i :: i in tools ==> Sendable(c, tools[i])) <==> AllCallable(c, heard)
  {
    assert forall fs :: Sendable(c, Assembled(fs)) <==> Callable(c, fs);
    hide Sendable, Callable, Assembled;
    if forall i :: i in tools ==> Sendable(c, tools[i]) {
      forall i: nat | FragmentsIn(heard, i) != [] ensures Callable(c, FragmentsIn(heard, i)) {
        assert Sendable(c, tools[i]);
      }
    } else {
      var i :| i in tools && !Sendable(c, tools[i]);
      assert !Callable(c, FragmentsIn(heard, i));
    }
  }

  // A stream is converted if and only if no event is malformed or an error, no call gets two ids, it ends for a known
  // reason, and every call it makes has an id, a name and an object for arguments.
  lemma LiveConvertsExactly(c: Context, freshId: string, events: seq<Event>, sawDone: bool)
    ensures Convert(c, freshId, events, sawDone).Some?
            <==> && (forall e :: e in events ==> Good(e))
                 && NoneChanges(Heard(events))
                 && ReasonTold(events, sawDone).Some? && Known(ReasonTold(events, sawDone).value)
                 && (MakesCalls(ReasonTold(events, sawDone).value, RefusalText(Heard(events)))
                     ==> AllCallable(c, Heard(events)))
  {
    hide OnEvents, FragmentsIn, Heard, ReasonFor, ReasonTold, RefusalText, ToolsAre, Sendable, AllCallable, NoneChanges, Good,
         Concluded, Usage;
    FollowedExactly(c, freshId, events);
    if OnEvents(c, Fresh(freshId), events).Some? {
      Finishing(c, freshId, events, sawDone);
      SendableExactly(c, OnEvents(c, Fresh(freshId), events).value.tools, Heard(events));
    }
  }

  // What has been told and what is sent at the end make up the content.
  lemma ContentTold(c: Context, calls: Calls, l: Live, heard: seq<Delta>, makes: bool)
    requires Tidy(l) && ToolsAre(l.tools, heard) && calls == CallsOf(c, heard, makes)
    ensures Flat(Close(c, SendAllDeferred(c, Close(c, l.sent), l.tools, makes, l.deferred)).blocks) == Told(c, calls, l)
  {
    hide FragmentsIn, CallShown, Assembled, FlatParts, SendAllDeferred, Close, Placed;
    forall i: nat | ToolAt(i) in l.deferred
      ensures ToolSoFar(l.tools, i) == Assembled(FragmentsIn(heard, i)) && calls(i) == CallShown(c, FragmentsIn(heard, i), makes)
    {
      assert i in l.tools by { ToolInPlace(l, i); }
    }
    DeferredMarks(c, calls, Close(c, l.sent), l.tools, makes, l.deferred, (i: nat) => FragmentsIn(heard, i));
    SendMarks(c, l.sent, "");
  }

  lemma NothingTold(c: Context, calls: Calls, freshId: string)
    ensures Told(c, calls, Fresh(freshId)) == [] && Fresh(freshId).tools.Keys == {} && Tidy(Fresh(freshId))
  {
  }

  // And then it says what its events say: every character of the reasoning (unless it is omitted), of the texts and of
  // the refusal in the order of the events, each call where its first fragment came, with the first id, the whole name
  // and all its arguments; and it stops for the reason, with the refusal and the usage they give.
  lemma LiveSays(c: Context, freshId: string, events: seq<Event>, sawDone: bool)
    requires Convert(c, freshId, events, sawDone).Some?
    ensures ReasonTold(events, sawDone).Some?
    ensures var m, heard, reason := Convert(c, freshId, events, sawDone).value, Heard(events), ReasonTold(events, sawDone).value;
            && Flat(m.content) == Transcript(c, CallsOf(c, heard, MakesCalls(reason, RefusalText(heard))), heard, {})
            && m.stop == StopTold(reason, RefusalText(heard), Usage(None, events))
  {
    hide OnEvents, Heard, ReasonFor, ReasonTold, RefusalText, ToolsAre, CallsOf, Transcript, Told, Tidy, SendAllDeferred, Close,
         Sendable, Usage, Flat, AllSilent;
    Finishing(c, freshId, events, sawDone);
    var l, heard, reason := OnEvents(c, Fresh(freshId), events).value, Heard(events), ReasonTold(events, sawDone).value;
    var makes := MakesCalls(reason, RefusalText(heard));
    var calls := CallsOf(c, heard, makes);
    NothingTold(c, calls, freshId);
    EventsTold(c, calls, Fresh(freshId), events);
    EventsKeepTidy(c, Fresh(freshId), events);
    ContentTold(c, calls, l, heard, makes);
    assert [] + Transcript(c, calls, heard, {}) == Transcript(c, calls, heard, {});
  }

  lemma ToolInPlace(l: Live, i: nat)
    requires Tidy(l) && ToolAt(i) in l.deferred
    ensures i in l.tools
  {
    var k :| 0 <= k < |l.deferred| && l.deferred[k] == ToolAt(i);
  }
}
