// A whole message as frames, and back.
module AnthropicFrames {
  import opened Wrappers
  import opened Anthropic

  function HeaderOf(b: Block): BlockHeader {
    match b
    case Text(_) => TextHeader
    case Thinking(_, _) => ThinkingHeader
    case ToolUse(id, name, _) => ToolHeader(id, name)
    case OtherBlock(json) => OtherHeader(json)
  }

  function Increments(b: Block): seq<Increment> {
    match b
    case Text(t) => if t == "" then [] else [TextDelta(t)]
    case Thinking(t, s) => (if t == "" then [] else [ThinkingDelta(t)]) + [SignatureDelta(s)]
    case ToolUse(_, _, input) => [InputJsonDelta(input)]
    case OtherBlock(_) => []
  }

  function Deltas(index: nat, increments: seq<Increment>): (r: seq<Frame>)
    ensures |r| == |increments| && forall i :: 0 <= i < |r| ==> r[i] == BlockDelta(index, increments[i])
  {
    seq(|increments|, i requires 0 <= i < |increments| => BlockDelta(index, increments[i]))
  }

  // `anthropic_content_block_to_sse`.
  function BlockFrames(b: Block, index: nat): seq<Frame> {
    [BlockStart(index, HeaderOf(b))] + Deltas(index, Increments(b)) + [BlockStop(index)]
  }

  // What the increments of a block make of a block just opened.
  function Filled(b: Block): Partial {
    match b
    case Text(t) => PartialText(t)
    case Thinking(t, s) => PartialThinking(t, Some(s))
    case ToolUse(id, name, input) => PartialTool(id, name, Some(input))
    case OtherBlock(json) => PartialOther(json)
  }

  lemma DeltasFill(blocks: seq<Block>, b: Block)
    ensures Run(Receiving(blocks, Some(Opened(HeaderOf(b)))), Deltas(|blocks|, Increments(b))) == Receiving(blocks, Some(Filled(b)))
  {
    var start := Receiving(blocks, Some(Opened(HeaderOf(b))));
    var increments := Increments(b);
    var frames := Deltas(|blocks|, increments);
    assert b.Text? ==> "" + b.text == b.text;
    assert b.Thinking? ==> "" + b.thinking == b.thinking;
    if |increments| == 1 {
      assert frames == [BlockDelta(|blocks|, increments[0])];
      RunOne(start, frames[0]);
    } else if |increments| == 2 {
      assert frames == [BlockDelta(|blocks|, increments[0])] + [BlockDelta(|blocks|, increments[1])];
      RunOne(start, frames[0]);
      RunSnoc(start, [frames[0]], frames[1]);
    }
  }

  // A closed block decodes to itself, next in line.
  lemma BlockDecodes(blocks: seq<Block>, b: Block)
    ensures Run(Receiving(blocks, None), BlockFrames(b, |blocks|)) == Receiving(blocks + [b], None)
  {
    var head, deltas := [BlockStart(|blocks|, HeaderOf(b))], Deltas(|blocks|, Increments(b));
    RunOne(Receiving(blocks, None), head[0]);
    DeltasFill(blocks, b);
    RunConcat(Receiving(blocks, None), head, deltas);
    RunSnoc(Receiving(blocks, None), head + deltas, BlockStop(|blocks|));
    hide Run, Deltas, Increments;
  }

  // `anthropic_terminal_to_sse`.
  function TerminalFrames(stop: Stop): seq<Frame> { [MessageDelta(stop), MessageStop] }

  lemma TerminalDecodes(blocks: seq<Block>, stop: Stop)
    ensures Run(Receiving(blocks, None), TerminalFrames(stop)) == Complete(blocks, stop)
  {
    var c := Receiving(blocks, None);
    RunOne(c, MessageDelta(stop));
    RunSnoc(c, [MessageDelta(stop)], MessageStop);
    assert TerminalFrames(stop) == [MessageDelta(stop)] + [MessageStop];
  }

  // The blocks of `content` from `from` on, for a client that has the earlier ones.
  method RemainingBlocks(content: seq<Block>, from: nat) returns (frames: seq<Frame>)
    requires from <= |content|
    ensures Run(Receiving(content[..from], None), frames) == Receiving(content, None)
  {
    frames := [];
    ghost var start := Receiving(content[..from], None);
    RunConcat(start, [], []);
    for i := from to |content|
      invariant Run(start, frames) == Receiving(content[..i], None)
    {
      BlockDecodes(content[..i], content[i]);
      RunConcat(start, frames, BlockFrames(content[i], i));
      assert content[..i + 1] == content[..i] + [content[i]];
      frames := frames + BlockFrames(content[i], i);
    }
    assert content[..|content|] == content;
  }

  // `anthropic_json_to_sse`: the client gets the message back.
  method MessageToSse(message: Message, id: string, model: string) returns (frames: seq<Frame>)
    ensures Run(Waiting, frames) == Complete(message.content, message.stop)
  {
    var start := MessageStart(id, model, None);
    RunOne(Waiting, start);
    assert message.content[..0] == [];
    var blocks := RemainingBlocks(message.content, 0);
    RunConcat(Waiting, [start], blocks);
    TerminalDecodes(message.content, message.stop);
    RunConcat(Waiting, [start] + blocks, TerminalFrames(message.stop));
    return [start] + blocks + TerminalFrames(message.stop);
  }
}
