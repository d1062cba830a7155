// Message frames as an Anthropic client sees them, and the client that reads them.
module Anthropic {
  import opened Wrappers

  datatype Block =
    | Text(text: string)
    | Thinking(thinking: string, signature: string)
    | ToolUse(id: string, name: string, input: string)
    | OtherBlock(json: string)

  datatype Stop = Stop(reason: string, refusal: Option<Option<string>>, usage: Option<string>)

  datatype BlockHeader = TextHeader | ThinkingHeader | ToolHeader(id: string, name: string) | OtherHeader(json: string)

  datatype Increment = TextDelta(text: string) | ThinkingDelta(text: string) | SignatureDelta(signature: string)
                 | InputJsonDelta(json: string)

  datatype Frame =
    | MessageStart(id: string, model: string, tier: Option<string>)
    | BlockStart(index: nat, header: BlockHeader)
    | BlockDelta(index: nat, delta: Increment)
    | BlockStop(index: nat)
    | MessageDelta(stop: Stop)
    | MessageStop

  datatype Message = Message(content: seq<Block>, stop: Stop)

  predicate NoToolUse(blocks: seq<Block>) { forall i :: 0 <= i < |blocks| ==> !blocks[i].ToolUse? }

  // ---- the client ----

  // A block being received. A signature, and the input of a tool call, arrive once.
  datatype Partial =
    | PartialText(text: string)
    | PartialThinking(thinking: string, signature: Option<string>)
    | PartialTool(id: string, name: string, input: Option<string>)
    | PartialOther(json: string)

  datatype Client =
    | Waiting
    | Receiving(blocks: seq<Block>, open: Option<Partial>)
    | Stopping(blocks: seq<Block>, stop: Stop)
    | Complete(blocks: seq<Block>, stop: Stop)
    | Broken

  function Opened(header: BlockHeader): Partial {
    match header
    case TextHeader => PartialText("")
    case ThinkingHeader => PartialThinking("", None)
    case ToolHeader(id, name) => PartialTool(id, name, None)
    case OtherHeader(json) => PartialOther(json)
  }

  function Extended(p: Partial, d: Increment): Option<Partial> {
    match (p, d)
    case (PartialText(t), TextDelta(more)) => Some(PartialText(t + more))
    case (PartialThinking(t, None), ThinkingDelta(more)) => Some(PartialThinking(t + more, None))
    case (PartialThinking(t, None), SignatureDelta(s)) => Some(PartialThinking(t, Some(s)))
    case (PartialTool(id, name, None), InputJsonDelta(json)) => Some(PartialTool(id, name, Some(json)))
    case _ => None
  }

  function Closed(p: Partial): Option<Block> {
    match p
    case PartialText(t) => Some(Text(t))
    case PartialThinking(t, Some(s)) => Some(Thinking(t, s))
    case PartialTool(id, name, Some(json)) => Some(ToolUse(id, name, json))
    case PartialOther(json) => Some(OtherBlock(json))
    case _ => None
  }

  // The grammar: one start; blocks numbered from 0, one at a time, each closed before the next, a
  // signature last in its thinking block; then the stop reason and the end.
  function Step(c: Client, f: Frame): Client {
    match (c, f)
    case (Waiting, MessageStart(_, _, _)) => Receiving([], None)
    case (Receiving(bs, None), BlockStart(i, header)) => if i == |bs| then Receiving(bs, Some(Opened(header))) else Broken
    case (Receiving(bs, Some(p)), BlockDelta(i, d)) =>
      if i == |bs| && Extended(p, d).Some? then Receiving(bs, Some(Extended(p, d).value)) else Broken
    case (Receiving(bs, Some(p)), BlockStop(i)) =>
      if i == |bs| && Closed(p).Some? then Receiving(bs + [Closed(p).value], None) else Broken
    case (Receiving(bs, None), MessageDelta(stop)) => Stopping(bs, stop)
    case (Stopping(bs, stop), MessageStop) => Complete(bs, stop)
    case _ => Broken
  }

  function Run(c: Client, frames: seq<Frame>): Client
    decreases |frames|
  {
    if frames == [] then c else Run(Step(c, frames[0]), frames[1..])
  }

  lemma {:induction false} RunConcat(c: Client, a: seq<Frame>, b: seq<Frame>)
    ensures Run(c, a + b) == Run(Run(c, a), b)
    decreases |a|
  {
    if a == [] {
      assert a + b == b;
    } else {
      assert (a + b)[1..] == a[1..] + b;
      RunConcat(Step(c, a[0]), a[1..], b);
    }
  }

  lemma RunSnoc(c: Client, frames: seq<Frame>, f: Frame)
    ensures Run(c, frames + [f]) == Step(Run(c, frames), f)
  {
    RunConcat(c, frames, [f]);
  }

  lemma RunOne(c: Client, f: Frame)
    ensures Run(c, [f]) == Step(c, f)
  {
    RunSnoc(c, [], f);
    assert [] + [f] == [f];
  }

  lemma StepsOfOpenBlock(bs: seq<Block>, p: Partial, d: Increment)
    ensures Extended(p, d).Some? ==>
      Step(Receiving(bs, Some(p)), BlockDelta(|bs|, d)) == Receiving(bs, Some(Extended(p, d).value))
    ensures Closed(p).Some? ==>
      Step(Receiving(bs, Some(p)), BlockStop(|bs|)) == Receiving(bs + [Closed(p).value], None)
  {
  }

  // A broken run stays broken, so every prefix of a good run is good.
  lemma {:induction false} BrokenForever(frames: seq<Frame>)
    ensures Run(Broken, frames) == Broken
    decreases |frames|
  {
    if frames != [] { BrokenForever(frames[1..]); }
  }

  lemma PrefixOfGoodRun(frames: seq<Frame>, n: nat)
    requires n <= |frames| && Run(Waiting, frames) != Broken
    ensures Run(Waiting, frames[..n]) != Broken
  {
    assert frames == frames[..n] + frames[n..];
    RunConcat(Waiting, frames[..n], frames[n..]);
    BrokenForever(frames[n..]);
  }

  // ---- joining adjacent text ----

  function AddJoined(blocks: seq<Block>, b: Block): seq<Block> {
    if blocks != [] && blocks[|blocks| - 1].Text? && b.Text? then
      blocks[..|blocks| - 1] + [Text(blocks[|blocks| - 1].text + b.text)]
    else blocks + [b]
  }

  function Joined(blocks: seq<Block>): seq<Block>
    decreases |blocks|
  {
    if blocks == [] then [] else AddJoined(Joined(blocks[..|blocks| - 1]), blocks[|blocks| - 1])
  }

  lemma JoinedSnoc(blocks: seq<Block>, b: Block)
    ensures Joined(blocks + [b]) == AddJoined(Joined(blocks), b)
  {
    assert (blocks + [b])[..|blocks|] == blocks;
  }

  // Joining a text into the last block, or leaving that to `Joined`, is the same.
  lemma JoinedAbsorbs(blocks: seq<Block>, b: Block)
    ensures Joined(AddJoined(blocks, b)) == AddJoined(Joined(blocks), b)
  {
    if blocks != [] && blocks[|blocks| - 1].Text? && b.Text? {
      var init, last := blocks[..|blocks| - 1], blocks[|blocks| - 1];
      assert blocks == init + [last];
      JoinedSnoc(init, last);
      JoinedSnoc(init, Text(last.text + b.text));
      var j := Joined(init);
      if j != [] && j[|j| - 1].Text? {
        assert j[|j| - 1].text + (last.text + b.text) == j[|j| - 1].text + last.text + b.text;
      }
    } else {
      JoinedSnoc(blocks, b);
    }
  }

  lemma {:induction false} JoinedHasNoNeighbours(blocks: seq<Block>)
    ensures forall i :: 0 <= i < |Joined(blocks)| - 1 ==> !(Joined(blocks)[i].Text? && Joined(blocks)[i + 1].Text?)
    decreases |blocks|
  {
    if blocks != [] { JoinedHasNoNeighbours(blocks[..|blocks| - 1]); }
  }

  lemma {:induction false} JoinedKeepsToolUse(blocks: seq<Block>)
    ensures NoToolUse(Joined(blocks)) <==> NoToolUse(blocks)
    decreases |blocks|
  {
    if blocks != [] {
      var init, last := blocks[..|blocks| - 1], blocks[|blocks| - 1];
      JoinedKeepsToolUse(init);
      var j := Joined(init);
      assert blocks == init + [last];
      NoToolUseSnoc(init, last);
      NoToolUseSnoc(j, last);
      if j != [] && j[|j| - 1].Text? && last.Text? {
        assert j == j[..|j| - 1] + [j[|j| - 1]];
        NoToolUseSnoc(j[..|j| - 1], j[|j| - 1]);
        NoToolUseSnoc(j[..|j| - 1], Text(j[|j| - 1].text + last.text));
      }
    }
  }

  lemma NoToolUseSnoc(blocks: seq<Block>, b: Block)
    ensures NoToolUse(blocks + [b]) <==> NoToolUse(blocks) && !b.ToolUse?
  {
    assert (blocks + [b])[|blocks|] == b;
    assert forall k :: 0 <= k < |blocks| ==> (blocks + [b])[k] == blocks[k];
  }

  lemma {:induction false} NoToolUseConcat(a: seq<Block>, b: seq<Block>)
    ensures NoToolUse(a + b) <==> NoToolUse(a) && NoToolUse(b)
  {
    assert forall k :: 0 <= k < |a| ==> (a + b)[k] == a[k];
    assert forall k :: 0 <= k < |b| ==> (a + b)[|a| + k] == b[k];
  }
}
