// The byte strings that count as UTF-8 are the encodings of texts (RFC 3629, section 3).
module Utf8Strings {
  import opened Utf8
  import opened Identity

  lemma CharReads(c: char, rest: Bytes)
    ensures CharLen(Utf8Of(c) + rest) == |Utf8Of(c)| > 0
  {
  }

  lemma {:induction false} EncodingIsValid(s: string)
    ensures Valid(AsBytes(s))
    decreases |s|
  {
    hide CharLen, Utf8Of;
    if s != "" {
      var first, rest := Utf8Of(s[0]), AsBytes(s[1..]);
      CharReads(s[0], rest);
      EncodingIsValid(s[1..]);
      assert (first + rest)[|first|..] == rest;
    }
  }

  // A number by its digits to base 64.
  lemma Digits(a: nat, x: nat, y: nat, z: nat)
    requires x < 64 && y < 64 && z < 64
    ensures var v := a * 262144 + x * 4096 + y * 64 + z;
            && v % 64 == z && v / 64 % 64 == y && v / 4096 % 64 == x && v / 262144 == a
            && v / 4096 == a * 64 + x && v / 64 == a * 4096 + x * 64 + y
  {
  }

  // The character that well-formed bytes begin with.
  lemma CharAhead(b: Bytes) returns (c: char)
    requires CharLen(b) > 0
    ensures Utf8Of(c) == b[..CharLen(b)]
  {
    if CharLen(b) == 1 {
      c := b[0] as char;
    } else if CharLen(b) == 2 {
      c := Two(b[0], b[1]);
      assert b[..2] == [b[0], b[1]];
    } else if CharLen(b) == 3 {
      c := Three(b[0], b[1], b[2]);
      assert b[..3] == [b[0], b[1], b[2]];
    } else {
      c := Four(b[0], b[1], b[2], b[3]);
      assert b[..4] == [b[0], b[1], b[2], b[3]];
    }
  }

  lemma Two(p: byte, q: byte) returns (c: char)
    requires 0xC2 <= p <= 0xDF && Tail(q)
    ensures Utf8Of(c) == [p, q]
  {
    Digits(0, 0, p as int - 0xC0, q as int - 0x80);
    c := ((p as int - 0xC0) * 64 + (q as int - 0x80)) as char;
  }

  lemma Three(p: byte, q: byte, r: byte) returns (c: char)
    requires 0xE0 <= p <= 0xEF && Tail(q) && Tail(r) && (p == 0xE0 ==> 0xA0 <= q) && (p == 0xED ==> q <= 0x9F)
    ensures Utf8Of(c) == [p, q, r]
  {
    Digits(0, p as int - 0xE0, q as int - 0x80, r as int - 0x80);
    c := ((p as int - 0xE0) * 4096 + (q as int - 0x80) * 64 + (r as int - 0x80)) as char;
  }

  lemma Four(p: byte, q: byte, r: byte, t: byte) returns (c: char)
    requires 0xF0 <= p <= 0xF4 && Tail(q) && Tail(r) && Tail(t) && (p == 0xF0 ==> 0x90 <= q) && (p == 0xF4 ==> q <= 0x8F)
    ensures Utf8Of(c) == [p, q, r, t]
  {
    Digits(p as int - 0xF0, q as int - 0x80, r as int - 0x80, t as int - 0x80);
    c := ((p as int - 0xF0) * 262144 + (q as int - 0x80) * 4096 + (r as int - 0x80) * 64 + (t as int - 0x80)) as char;
  }

  lemma {:induction false} ValidIsEncoding(b: Bytes) returns (s: string)
    requires Valid(b)
    ensures AsBytes(s) == b
    decreases |b|
  {
    hide CharLen, Utf8Of;
    if b == [] {
      s := "";
    } else {
      var c := CharAhead(b);
      var rest := b[CharLen(b)..];
      var more := ValidIsEncoding(rest);
      s := [c] + more;
      assert s[1..] == more && b == b[..CharLen(b)] + rest;
    }
  }

  lemma ValidExactly(b: Bytes)
    ensures Valid(b) <==> exists s :: AsBytes(s) == b
  {
    if Valid(b) { var _ := ValidIsEncoding(b); }
    if s :| AsBytes(s) == b { EncodingIsValid(s); }
  }
}
