// Content character by character.
module Marks {
  import opened Wrappers
  import opened Anthropic

  // What content says, in order: it does not matter how the characters are cut into blocks.
  datatype Mark = Shows(letter: char) | Thinks(letter: char) | Uses(block: Block)

  function Chars(t: string): (r: seq<Mark>)
    ensures |r| == |t| && forall i :: 0 <= i < |t| ==> r[i] == Shows(t[i])
  {
    seq(|t|, i requires 0 <= i < |t| => Shows(t[i]))
  }

  function Thoughts(t: string): (r: seq<Mark>)
    ensures |r| == |t| && forall i :: 0 <= i < |t| ==> r[i] == Thinks(t[i])
  {
    seq(|t|, i requires 0 <= i < |t| => Thinks(t[i]))
  }

  lemma MarksConcat(a: string, b: string)
    ensures Chars(a + b) == Chars(a) + Chars(b) && Thoughts(a + b) == Thoughts(a) + Thoughts(b)
  {
  }

  function BlockMarks(b: Block): seq<Mark> {
    match b
    case Text(t) => Chars(t)
    case Thinking(t, _) => Thoughts(t)
    case _ => [Uses(b)]
  }

  function Flat(blocks: seq<Block>): seq<Mark>
    decreases |blocks|
  {
    if blocks == [] then [] else Flat(blocks[..|blocks| - 1]) + BlockMarks(blocks[|blocks| - 1])
  }

  lemma FlatSnoc(blocks: seq<Block>, b: Block)
    ensures Flat(blocks + [b]) == Flat(blocks) + BlockMarks(b)
  {
    assert (blocks + [b])[..|blocks|] == blocks;
  }

  // Joining adjacent texts keeps every character in its place.
  lemma {:induction false} FlatJoined(blocks: seq<Block>)
    ensures Flat(Joined(blocks)) == Flat(blocks)
    decreases |blocks|
  {
    if blocks != [] {
      var init, last := blocks[..|blocks| - 1], blocks[|blocks| - 1];
      FlatJoined(init);
      var j := Joined(init);
      FlatSnoc(j, last);
      if j != [] && j[|j| - 1].Text? && last.Text? {
        var rest, end := j[..|j| - 1], j[|j| - 1];
        assert j == rest + [end];
        FlatSnoc(rest, end);
        FlatSnoc(rest, Text(end.text + last.text));
        MarksConcat(end.text, last.text);
        Assoc(Flat(rest), Chars(end.text), Chars(last.text));
      }
    }
  }

  // ---- blocks that are no text ----

  function Solid(blocks: seq<Block>): seq<Block>
    decreases |blocks|
  {
    if blocks == [] then []
    else Solid(blocks[..|blocks| - 1]) + (if blocks[|blocks| - 1].Text? then [] else [blocks[|blocks| - 1]])
  }

  lemma SolidSnoc(blocks: seq<Block>, b: Block)
    ensures Solid([]) == []
    ensures Solid(blocks + [b]) == Solid(blocks) + (if b.Text? then [] else [b])
  {
    assert (blocks + [b])[..|blocks|] == blocks;
  }

  lemma {:induction false} SolidConcat(a: seq<Block>, b: seq<Block>)
    ensures Solid(a + b) == Solid(a) + Solid(b)
    decreases |b|
  {
    hide Solid;
    if b == [] {
      SolidSnoc(a, Text(""));
      assert a + b == a;
    } else {
      var init, last := b[..|b| - 1], b[|b| - 1];
      SolidConcat(a, init);
      assert a + b == (a + init) + [last] && b == init + [last];
      SolidSnoc(a + init, last);
      SolidSnoc(init, last);
      Assoc(Solid(a), Solid(init), if last.Text? then [] else [last]);
    }
  }

  // Joining texts leaves the other blocks alone.
  lemma {:induction false} SolidJoined(blocks: seq<Block>)
    ensures Solid(Joined(blocks)) == Solid(blocks)
    decreases |blocks|
  {
    if blocks != [] {
      var init, last := blocks[..|blocks| - 1], blocks[|blocks| - 1];
      SolidJoined(init);
      var j := Joined(init);
      SolidSnoc(j, last);
      if j != [] && j[|j| - 1].Text? && last.Text? {
        var rest, end := j[..|j| - 1], j[|j| - 1];
        assert j == rest + [end];
        SolidSnoc(rest, end);
        SolidSnoc(rest, Text(end.text + last.text));
      }
    }
  }
}
