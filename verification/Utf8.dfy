// Byte strings, UTF-8 well-formedness (RFC 3629, section 4) and Unicode trimming.
module Utf8 {

  type byte = b: int | 0 <= b < 256
  type Bytes = seq<byte>

  predicate Tail(b: byte) { 0x80 <= b <= 0xBF }

  // Length of the well-formed character a byte string starts with; 0 when there is none.
  function CharLen(s: Bytes): (n: nat)
    ensures n <= |s|
    ensures forall i :: 1 <= i < n ==> Tail(s[i])
  {
    if |s| >= 1 && s[0] < 0x80 then 1
    else if |s| >= 2 && 0xC2 <= s[0] <= 0xDF && Tail(s[1]) then 2
    else if |s| >= 3 && Tail(s[1]) && Tail(s[2]) && (
        || (s[0] == 0xE0 && 0xA0 <= s[1])
        || 0xE1 <= s[0] <= 0xEC
        || (s[0] == 0xED && s[1] <= 0x9F)
        || 0xEE <= s[0] <= 0xEF) then 3
    else if |s| >= 4 && Tail(s[1]) && Tail(s[2]) && Tail(s[3]) && (
        || (s[0] == 0xF0 && 0x90 <= s[1])
        || 0xF1 <= s[0] <= 0xF3
        || (s[0] == 0xF4 && s[1] <= 0x8F)) then 4
    else 0
  }

  predicate Valid(s: Bytes)
    decreases |s|
  {
    s == [] || (CharLen(s) > 0 && Valid(s[CharLen(s)..]))
  }

  // A character never spans an ASCII byte.
  lemma CharLenStopsAtAscii(a: Bytes, c: byte, b: Bytes)
    requires a != [] && c < 0x80
    ensures CharLen(a + [c] + b) == CharLen(a)
  {
    var s := a + [c] + b;
    assert s[|a|] == c;
    assert forall i :: 0 <= i < |a| ==> s[i] == a[i];
  }

  // Cutting at an ASCII byte keeps both halves valid, and joining there keeps the whole valid.
  lemma {:induction false} CutAtAscii(a: Bytes, c: byte, b: Bytes)
    requires c < 0x80
    ensures Valid(a + [c] + b) <==> Valid(a) && Valid(b)
    decreases |a|
  {
    var s := a + [c] + b;
    if a == [] {
      assert s[1..] == b;
    } else {
      CharLenStopsAtAscii(a, c, b);
      var n := CharLen(a);
      if n > 0 {
        assert s[n..] == a[n..] + [c] + b;
        CutAtAscii(a[n..], c, b);
      }
    }
  }

  // Length of the White_Space character at the start (end) of a text; 0 when there is none.
  predicate Ws2(x: byte, y: byte) { x == 0xC2 && (y == 0x85 || y == 0xA0) }

  predicate Ws3(x: byte, y: byte, z: byte) {
    || (x == 0xE1 && y == 0x9A && z == 0x80)
    || (x == 0xE2 && y == 0x80 && (0x80 <= z <= 0x8A || z == 0xA8 || z == 0xA9 || z == 0xAF))
    || (x == 0xE2 && y == 0x81 && z == 0x9F)
    || (x == 0xE3 && y == 0x80 && z == 0x80)
  }

  predicate Ws1(x: byte) { 0x09 <= x <= 0x0D || x == 0x20 }

  function WsStart(s: Bytes): (n: nat)
    ensures n <= |s|
  {
    if |s| >= 1 && Ws1(s[0]) then 1
    else if |s| >= 2 && Ws2(s[0], s[1]) then 2
    else if |s| >= 3 && Ws3(s[0], s[1], s[2]) then 3
    else 0
  }

  function WsEnd(s: Bytes): (n: nat)
    ensures n <= |s|
  {
    var k := |s|;
    if k >= 1 && Ws1(s[k - 1]) then 1
    else if k >= 2 && Ws2(s[k - 2], s[k - 1]) then 2
    else if k >= 3 && Ws3(s[k - 3], s[k - 2], s[k - 1]) then 3
    else 0
  }

  function TrimStart(s: Bytes): Bytes
    decreases |s|
  {
    if WsStart(s) == 0 then s else TrimStart(s[WsStart(s)..])
  }

  function TrimEnd(s: Bytes): (r: Bytes)
    ensures r <= s
    decreases |s|
  {
    if WsEnd(s) == 0 then s else TrimEnd(s[..|s| - WsEnd(s)])
  }

  function Trim(s: Bytes): Bytes { TrimEnd(TrimStart(s)) }
}
