// Deterministic, collision-free aliases for identifiers the upstream protocol does not accept.
module Identity {
  import Utf8

  const OPENAI_IDENTIFIER_LIMIT: nat := 64
  const HASH_HEX_LEN: nat := 16
  const ALIAS_PREFIX_LIMIT: nat := 47
  const TWO_64: nat := 0x1_0000_0000_0000_0000
  const FNV_OFFSET: nat := 0xcbf29ce484222325
  const FNV_PRIME: nat := 0x100000001b3

  // ---- 64-bit exclusive or, on numbers ----

  function Xor(a: nat, b: nat): nat
    decreases a + b
  {
    if a == 0 && b == 0 then 0 else (a % 2 + b % 2) % 2 + 2 * Xor(a / 2, b / 2)
  }

  lemma LowAndHigh(low: nat, high: nat)
    requires low < 2
    ensures (low + 2 * high) % 2 == low && (low + 2 * high) / 2 == high
  {
  }

  lemma BitTwice(p: nat, q: nat)
    requires p < 2 && q < 2
    ensures (p + (p + q) % 2) % 2 == q
  {
  }

  lemma {:induction false} XorTwice(a: nat, b: nat)
    ensures Xor(a, Xor(a, b)) == b
    decreases a + b
  {
    if a != 0 || b != 0 {
      XorTwice(a / 2, b / 2);
      var x := Xor(a, b);
      assert x % 2 == (a % 2 + b % 2) % 2 && x / 2 == Xor(a / 2, b / 2) by { LowAndHigh((a % 2 + b % 2) % 2, Xor(a / 2, b / 2)); }
      assert (a % 2 + x % 2) % 2 == b % 2 by { BitTwice(a % 2, b % 2); }
    }
  }

  function Pow2(n: nat): nat { if n == 0 then 1 else 2 * Pow2(n - 1) }

  function Pow16(n: nat): nat { if n == 0 then 1 else 16 * Pow16(n - 1) }

  lemma {:induction false} XorBound(a: nat, b: nat, n: nat)
    requires a < Pow2(n) && b < Pow2(n)
    ensures Xor(a, b) < Pow2(n)
    decreases n
  {
    if n > 0 && (a != 0 || b != 0) { XorBound(a / 2, b / 2, n - 1); }
  }

  lemma {:induction false} NibblesAreBits(n: nat)
    ensures Pow2(4 * n) == Pow16(n)
  {
    if n > 0 {
      NibblesAreBits(n - 1);
      var k := 4 * (n - 1);
      assert Pow2(k + 1) == 2 * Pow2(k) && Pow2(k + 2) == 2 * Pow2(k + 1);
      assert Pow2(k + 3) == 2 * Pow2(k + 2) && Pow2(k + 4) == 2 * Pow2(k + 3);
    }
  }

  lemma WordSize()
    ensures Pow16(16) == TWO_64 && Pow2(64) == TWO_64
  {
    assert Pow16(4) == 65536;
    assert Pow16(8) == 65536 * Pow16(4);
    assert Pow16(12) == 65536 * Pow16(8);
    assert Pow16(16) == 65536 * Pow16(12);
    NibblesAreBits(16);
  }

  // ---- hexadecimal of fixed width ----

  const HEX: string := "0123456789abcdef"

  function Hex(v: nat, width: nat): (s: string)
    ensures |s| == width
  {
    if width == 0 then "" else Hex(v / 16, width - 1) + [HEX[v % 16]]
  }

  lemma HexDigitInjective(a: nat, b: nat)
    requires a < 16 && b < 16 && HEX[a] == HEX[b]
    ensures a == b
  {
  }

  lemma {:induction false} HexInjective(a: nat, b: nat, width: nat)
    requires a < Pow16(width) && b < Pow16(width) && Hex(a, width) == Hex(b, width)
    ensures a == b
    decreases width
  {
    if width > 0 {
      var s, t := Hex(a, width), Hex(b, width);
      assert s[width - 1] == HEX[a % 16] && t[width - 1] == HEX[b % 16];
      assert s[..width - 1] == Hex(a / 16, width - 1) && t[..width - 1] == Hex(b / 16, width - 1);
      HexDigitInjective(a % 16, b % 16);
      HexInjective(a / 16, b / 16, width - 1);
    }
  }

  lemma {:induction false} HexIsLegal(v: nat, width: nat)
    ensures forall i :: 0 <= i < width ==> LegalChar(Hex(v, width)[i])
    decreases width
  {
    if width > 0 { HexIsLegal(v / 16, width - 1); }
  }

  // ---- names ----

  predicate LegalChar(c: char) {
    'a' <= c <= 'z' || 'A' <= c <= 'Z' || '0' <= c <= '9' || c == '_' || c == '-'
  }

  // A name with a non-ASCII character is refused by its bytes, so characters and bytes count alike.
  predicate IsChatFunctionName(name: string) {
    0 < |name| <= OPENAI_IDENTIFIER_LIMIT && forall i :: 0 <= i < |name| ==> LegalChar(name[i])
  }

  function ChatNamePrefix(name: string): (prefix: string)
    ensures 0 < |prefix| <= ALIAS_PREFIX_LIMIT
    ensures forall i :: 0 <= i < |prefix| ==> LegalChar(prefix[i])
  {
    var n := if |name| < ALIAS_PREFIX_LIMIT then |name| else ALIAS_PREFIX_LIMIT;
    if n == 0 then "tool"
    else seq(n, i requires 0 <= i < n => if LegalChar(name[i]) then name[i] else '_')
  }

  predicate FitsCallId(id: string) { |id| <= OPENAI_IDENTIFIER_LIMIT }

  function CallIdPrefix(id: string): (prefix: string)
    ensures |prefix| <= ALIAS_PREFIX_LIMIT
    ensures |id| > OPENAI_IDENTIFIER_LIMIT ==> |prefix| == ALIAS_PREFIX_LIMIT
  {
    if |id| < ALIAS_PREFIX_LIMIT then id else id[..ALIAS_PREFIX_LIMIT]
  }

  // Which identifiers stay as they are, and how the alias of any other begins.
  datatype Kind = ChatName | CallId {
    predicate Kept(s: string) { if ChatName? then IsChatFunctionName(s) else FitsCallId(s) }

    function Prefix(s: string): (p: string)
      ensures |p| <= ALIAS_PREFIX_LIMIT && (ChatName? ==> |p| > 0)
    {
      if ChatName? then ChatNamePrefix(s) else CallIdPrefix(s)
    }
  }

  // ---- the hash ----

  function Utf8Of(c: char): Utf8.Bytes {
    var v := c as int;
    if v < 0x80 then [v]
    else if v < 0x800 then [0xC0 + v / 64, 0x80 + v % 64]
    else if v < 0x10000 then [0xE0 + v / 4096, 0x80 + v / 64 % 64, 0x80 + v % 64]
    else [0xF0 + v / 262144, 0x80 + v / 4096 % 64, 0x80 + v / 64 % 64, 0x80 + v % 64]
  }

  function AsBytes(s: string): Utf8.Bytes { if s == "" then [] else Utf8Of(s[0]) + AsBytes(s[1..]) }

  function LeBytes(v: nat, width: nat): Utf8.Bytes {
    if width == 0 then [] else [v % 256] + LeBytes(v / 256, width - 1)
  }

  function Fnv(hash: nat, bytes: Utf8.Bytes): (h: nat)
    requires hash < TWO_64
    ensures h < TWO_64
    decreases |bytes|
  {
    if bytes == [] then hash else Fnv(Xor(hash, bytes[0]) * FNV_PRIME % TWO_64, bytes[1..])
  }

  function HashOf(value: string, attempt: nat): (h: nat)
    ensures h < TWO_64
  {
    Fnv(FNV_OFFSET, AsBytes(value) + LeBytes(attempt, 8))
  }

  method StableHash(value: string, attempt: nat) returns (hash: nat)
    ensures hash == HashOf(value, attempt)
  {
    hash := FNV_OFFSET;
    var bytes := AsBytes(value) + LeBytes(attempt, 8);
    assert bytes[0..] == bytes;
    for i := 0 to |bytes|
      invariant hash < TWO_64 && Fnv(hash, bytes[i..]) == HashOf(value, attempt)
    {
      hash := Xor(hash, bytes[i]);
      hash := hash * FNV_PRIME % TWO_64;
      assert bytes[i..][1..] == bytes[i + 1..];
    }
  }

  // ---- one alias ----

  function Candidate(prefix: string, base: nat, attempt: nat): (c: string)
    ensures |c| == |prefix| + 1 + HASH_HEX_LEN
  {
    prefix + "_" + Hex(Xor(base, attempt), HASH_HEX_LEN)
  }

  lemma CandidatesDiffer(prefix: string, base: nat, p: nat, q: nat)
    requires base < TWO_64 && p < TWO_64 && q < TWO_64 && Candidate(prefix, base, p) == Candidate(prefix, base, q)
    ensures p == q
  {
    var s, t := Candidate(prefix, base, p), Candidate(prefix, base, q);
    assert s[|prefix| + 1..] == Hex(Xor(base, p), 16) && t[|prefix| + 1..] == Hex(Xor(base, q), 16);
    WordSize();
    XorBound(base, p, 64);
    XorBound(base, q, 64);
    HexInjective(Xor(base, p), Xor(base, q), 16);
    XorTwice(base, p);
    XorTwice(base, q);
  }

  ghost predicate AllTaken(prefix: string, base: nat, used: set<string>, n: nat) {
    forall k :: 0 <= k < n ==> Candidate(prefix, base, k) in used
  }

  // Pigeonhole: no more candidates can be taken than there are names in use.
  lemma {:induction false} TakenFitInUsed(prefix: string, base: nat, used: set<string>, n: nat)
    requires base < TWO_64 && n <= TWO_64 && AllTaken(prefix, base, used, n)
    ensures n <= |used|
    decreases n
  {
    if n > 0 {
      var last := Candidate(prefix, base, n - 1);
      forall k | 0 <= k < n - 1 ensures Candidate(prefix, base, k) in used - {last} {
        if Candidate(prefix, base, k) == last { CandidatesDiffer(prefix, base, k, n - 1); }
      }
      TakenFitInUsed(prefix, base, used - {last}, n - 1);
    }
  }

  function FirstFree(prefix: string, base: nat, used: set<string>, from: nat): (alias: string)
    requires base < TWO_64 && |used| < TWO_64 && from <= |used| && AllTaken(prefix, base, used, from)
    ensures alias !in used && |alias| == |prefix| + 1 + HASH_HEX_LEN
    decreases |used| - from
  {
    var c := Candidate(prefix, base, from);
    if c !in used then c
    else
      assert AllTaken(prefix, base, used, from + 1);
      TakenFitInUsed(prefix, base, used, from + 1);
      FirstFree(prefix, base, used, from + 1)
  }

  // One probe either finds the name or adds one more taken candidate.
  lemma Probe(prefix: string, base: nat, used: set<string>, at: nat)
    requires base < TWO_64 && |used| < TWO_64 && at <= |used| + 1 && AllTaken(prefix, base, used, at)
    ensures Candidate(prefix, base, at) in used ==> AllTaken(prefix, base, used, at + 1)
    ensures at <= |used| && Candidate(prefix, base, at) !in used
            ==> FirstFree(prefix, base, used, at) == Candidate(prefix, base, at)
    ensures at < |used| && Candidate(prefix, base, at) in used
            ==> FirstFree(prefix, base, used, at) == FirstFree(prefix, base, used, at + 1)
  {
    hide Candidate;
  }

  function Alias(original: string, prefix: string, used: set<string>): (alias: string)
    requires |used| < TWO_64
    ensures alias !in used && |alias| == |prefix| + 1 + HASH_HEX_LEN
  {
    FirstFree(prefix, HashOf(original, 0), used, 0)
  }

  // The probing loop: it always returns within `|used| + 1` probes.
  method UniqueAlias(original: string, prefix: string, used: set<string>) returns (alias: string, nowUsed: set<string>)
    requires |used| < TWO_64
    ensures alias == Alias(original, prefix, used) && nowUsed == used + {alias}
  {
    var base := StableHash(original, 0);
    hide HashOf, Xor, Hex, AllTaken, Alias, FirstFree;
    for attempt := 0 to |used| + 1
      invariant AllTaken(prefix, base, used, attempt)
      invariant attempt <= |used| ==> Alias(original, prefix, used) == FirstFree(prefix, base, used, attempt)
    {
      var hash := Xor(base, attempt);
      var candidate := prefix + "_" + Hex(hash, HASH_HEX_LEN);
      assert candidate == Candidate(prefix, base, attempt);
      Probe(prefix, base, used, attempt);
      if candidate !in used {
        return candidate, used + {candidate};
      }
    }
    TakenFitInUsed(prefix, base, used, |used| + 1);
    assert false;
    alias, nowUsed := "", {};
  }

  // ---- the ordered set of identifiers ----

  predicate Less(a: string, b: string) {
    if b == "" then false
    else if a == "" then true
    else a[0] < b[0] || (a[0] == b[0] && Less(a[1..], b[1..]))
  }

  lemma {:induction false} LessTotal(a: string, b: string)
    ensures a == b || Less(a, b) || Less(b, a)
    ensures !(Less(a, b) && Less(b, a)) && !Less(a, a)
    decreases |a|
  {
    if a != "" {
      LessTotal(a[1..], a[1..]);
      if b != "" {
        LessTotal(a[1..], b[1..]);
        assert a == [a[0]] + a[1..] && b == [b[0]] + b[1..];
      }
    }
  }

  lemma {:induction false} LessTransitive(a: string, b: string, c: string)
    requires Less(a, b) && Less(b, c)
    ensures Less(a, c)
    decreases |a|
  {
    if a != "" && a[0] == b[0] && b[0] == c[0] { LessTransitive(a[1..], b[1..], c[1..]); }
  }

  predicate Ascending(names: seq<string>) {
    forall i, j :: 0 <= i < j < |names| ==> Less(names[i], names[j])
  }

  function Elements(names: seq<string>): set<string> { set n | n in names }

  lemma ElementsCons(x: string, rest: seq<string>)
    ensures Elements([x] + rest) == {x} + Elements(rest)
  {
    assert forall n :: n in [x] + rest <==> n == x || n in rest;
  }

  lemma AscendingCons(x: string, rest: seq<string>)
    requires Ascending(rest) && (forall n :: n in Elements(rest) ==> Less(x, n))
    ensures Ascending([x] + rest)
  {
    forall i | 0 <= i < |rest| ensures Less(x, rest[i]) { assert rest[i] in Elements(rest); }
  }

  lemma BelowHead(name: string, sorted: seq<string>)
    requires Ascending(sorted) && sorted != [] && Less(name, sorted[0])
    ensures forall n :: n in Elements(sorted) ==> Less(name, n)
  {
    forall n | n in Elements(sorted) ensures Less(name, n) {
      var i :| 0 <= i < |sorted| && sorted[i] == n;
      if i > 0 { LessTransitive(name, sorted[0], sorted[i]); }
    }
  }

  function Insert(sorted: seq<string>, name: string): (r: seq<string>)
    requires Ascending(sorted)
    ensures Ascending(r) && Elements(r) == Elements(sorted) + {name} && |r| <= |sorted| + 1
    decreases |sorted|
  {
    if sorted == [] then ElementsCons(name, []); [name] + []
    else if name == sorted[0] then sorted
    else if Less(name, sorted[0]) then
      BelowHead(name, sorted);
      ElementsCons(name, sorted);
      AscendingCons(name, sorted);
      [name] + sorted
    else
      var rest := Insert(sorted[1..], name);
      LessTotal(name, sorted[0]);
      assert sorted == [sorted[0]] + sorted[1..];
      ElementsCons(sorted[0], sorted[1..]);
      ElementsCons(sorted[0], rest);
      AscendingCons(sorted[0], rest);
      [sorted[0]] + rest
  }

  // Collecting into an ordered set: ascending, without duplicates.
  function BTreeSet(names: seq<string>): (r: seq<string>)
    ensures Ascending(r) && Elements(r) == Elements(names) && |r| <= |names|
    decreases |names|
  {
    if names == [] then []
    else
      assert Elements(names) == Elements(names[1..]) + {names[0]};
      Insert(BTreeSet(names[1..]), names[0])
  }

  lemma {:induction false} AscendingIsUnique(a: seq<string>, b: seq<string>)
    requires Ascending(a) && Ascending(b) && Elements(a) == Elements(b)
    ensures a == b
    decreases |a|
  {
    assert a != [] ==> a[0] in Elements(a);
    assert b != [] ==> b[0] in Elements(b);
    if a != [] && b != [] {
      HeadIsLeast(a, b);
      HeadIsLeast(b, a);
      LessTotal(a[0], b[0]);
      TailElements(a);
      TailElements(b);
      AscendingIsUnique(a[1..], b[1..]);
      assert a == [a[0]] + a[1..] && b == [b[0]] + b[1..];
    }
  }

  lemma HeadIsLeast(a: seq<string>, b: seq<string>)
    requires Ascending(a) && a != [] && b != [] && Elements(a) == Elements(b)
    ensures a[0] == b[0] || Less(a[0], b[0])
  {
    assert b[0] in Elements(a);
  }

  lemma TailElements(a: seq<string>)
    requires Ascending(a) && a != []
    ensures Elements(a[1..]) == Elements(a) - {a[0]}
  {
    LessTotal(a[0], a[0]);
    forall n | n in Elements(a) && n != a[0] ensures n in a[1..] {
      var i :| 0 <= i < |a| && a[i] == n;
      assert a[1..][i - 1] == n;
    }
  }

  // ---- the maps ----

  datatype AliasMap = AliasMap(forward: map<string, string>, reverse: map<string, string>) {
    function Wire(name: string): string { if name in forward then forward[name] else name }

    function Original(name: string): string { if name in reverse then reverse[name] else name }
  }

  function KeptOf(kind: Kind, names: seq<string>): set<string> { set n | n in names && kind.Kept(n) }

  // Gives every identifier that cannot be kept its alias, in order.
  function Assign(kind: Kind, todo: seq<string>, m: AliasMap, used: set<string>): AliasMap
    requires |used| + |todo| < TWO_64
    decreases |todo|
  {
    if todo == [] then m
    else if kind.Kept(todo[0]) then Assign(kind, todo[1..], m, used)
    else
      var alias := Alias(todo[0], kind.Prefix(todo[0]), used);
      Assign(kind, todo[1..], AliasMap(m.forward[todo[0] := alias], m.reverse[alias := todo[0]]), used + {alias})
  }

  lemma AssignNil(kind: Kind, m: AliasMap, used: set<string>)
    requires |used| < TWO_64
    ensures Assign(kind, [], m, used) == m
  {
  }

  lemma AssignCons(kind: Kind, todo: seq<string>, i: nat, m: AliasMap, used: set<string>)
    requires i < |todo| && |used| + |todo| - i < TWO_64
    ensures Assign(kind, todo[i..], m, used) ==
            if kind.Kept(todo[i]) then Assign(kind, todo[i + 1..], m, used)
            else
              var alias := Alias(todo[i], kind.Prefix(todo[i]), used);
              Assign(kind, todo[i + 1..], AliasMap(m.forward[todo[i] := alias], m.reverse[alias := todo[i]]), used + {alias})
  {
    assert todo[i..][1..] == todo[i + 1..];
  }

  function MapOf(kind: Kind, names: seq<string>): AliasMap
    requires 2 * |names| < TWO_64
  {
    var sorted := BTreeSet(names);
    KeptSize(kind, sorted);
    Assign(kind, sorted, AliasMap(map[], map[]), KeptOf(kind, sorted))
  }

  lemma {:induction false} KeptSize(kind: Kind, names: seq<string>)
    ensures |KeptOf(kind, names)| <= |names|
  {
    if names != [] {
      KeptSize(kind, names[1..]);
      assert KeptOf(kind, names) <= KeptOf(kind, names[1..]) + {names[0]};
      SubsetSize(KeptOf(kind, names), KeptOf(kind, names[1..]) + {names[0]});
    }
  }

  lemma {:induction false} SubsetSize<T>(a: set<T>, b: set<T>)
    requires a <= b
    ensures |a| <= |b|
    decreases b
  {
    if a != {} {
      var x :| x in a;
      SubsetSize(a - {x}, b - {x});
    }
  }

  predicate LowerHex(c: char) { '0' <= c <= '9' || 'a' <= c <= 'f' }

  // The first 47 characters, in a tool name each illegal one as an underscore ("tool" if there are none),
  // an underscore, and 16 lower-case hexadecimal digits.
  ghost predicate Resembles(kind: Kind, original: string, alias: string) {
    var shown := if |original| < 47 then |original| else 47;
    var head := if kind.ChatName? && original == "" then "tool" else alias[..if shown < |alias| then shown else |alias|];
    && |alias| == |head| + 17 && alias[..|head|] == head && alias[|head|] == '_'
    && (forall i :: |head| < i < |alias| ==> LowerHex(alias[i]))
    && (forall i :: 0 <= i < shown ==>
          alias[i] == if kind.CallId? || LegalChar(original[i]) then original[i] else '_')
  }

  lemma {:induction false} HexIsLower(v: nat, width: nat)
    ensures forall i :: 0 <= i < width ==> LowerHex(Hex(v, width)[i])
    decreases width
  {
    if width > 0 { HexIsLower(v / 16, width - 1); }
  }

  lemma CandidateResembles(kind: Kind, original: string, base: nat, attempt: nat)
    ensures Resembles(kind, original, Candidate(kind.Prefix(original), base, attempt))
  {
    var head, digits := kind.Prefix(original), Hex(Xor(base, attempt), HASH_HEX_LEN);
    HexIsLower(Xor(base, attempt), HASH_HEX_LEN);
    hide Hex, Xor, LowerHex;
    var alias := Candidate(head, base, attempt);
    assert alias[..|head|] == head && alias[|head| + 1..] == digits;
    forall i | |head| < i < |alias| ensures LowerHex(alias[i]) { assert alias[i] == digits[i - |head| - 1]; }
  }

  ghost predicate IsAliasOf(kind: Kind, original: string, alias: string) {
    && |alias| == |kind.Prefix(original)| + 1 + HASH_HEX_LEN && (kind.ChatName? ==> IsChatFunctionName(alias))
    && Resembles(kind, original, alias)
  }

  // Forward and reverse undo each other; aliases are in use and stay clear of the kept names.
  ghost predicate Consistent(kind: Kind, m: AliasMap, kept: set<string>, used: set<string>) {
    && kept <= used
    && (forall n :: n in m.forward ==>
          && !kind.Kept(n) && IsAliasOf(kind, n, m.forward[n])
          && m.forward[n] in m.reverse && m.reverse[m.forward[n]] == n)
    && (forall a :: a in m.reverse ==> a in used && a !in kept && m.reverse[a] in m.forward && m.forward[m.reverse[a]] == a)
  }

  lemma CandidateIsAlias(kind: Kind, original: string, base: nat, attempt: nat)
    ensures IsAliasOf(kind, original, Candidate(kind.Prefix(original), base, attempt))
  {
    HexIsLegal(Xor(base, attempt), HASH_HEX_LEN);
    CandidateResembles(kind, original, base, attempt);
    hide Resembles;
  }

  lemma {:induction false} FirstFreeIsAlias(kind: Kind, original: string, base: nat, used: set<string>, from: nat)
    requires base < TWO_64 && |used| < TWO_64 && from <= |used|
    requires AllTaken(kind.Prefix(original), base, used, from)
    ensures IsAliasOf(kind, original, FirstFree(kind.Prefix(original), base, used, from))
    decreases |used| - from
  {
    CandidateIsAlias(kind, original, base, from);
    if Candidate(kind.Prefix(original), base, from) in used {
      TakenFitInUsed(kind.Prefix(original), base, used, from + 1);
      FirstFreeIsAlias(kind, original, base, used, from + 1);
    }
  }

  lemma AssignStep(kind: Kind, n: string, m: AliasMap, kept: set<string>, used: set<string>)
    requires |used| < TWO_64 && Consistent(kind, m, kept, used) && n !in m.forward && !kind.Kept(n)
    ensures var alias := Alias(n, kind.Prefix(n), used);
            Consistent(kind, AliasMap(m.forward[n := alias], m.reverse[alias := n]), kept, used + {alias})
  {
    var alias := Alias(n, kind.Prefix(n), used);
    assert IsAliasOf(kind, n, alias) by { FirstFreeIsAlias(kind, n, HashOf(n, 0), used, 0); }
    hide Alias, FirstFree, IsAliasOf, Kind.Kept, Kind.Prefix;
    var next := AliasMap(m.forward[n := alias], m.reverse[alias := n]);
    forall x | x in next.forward
      ensures !kind.Kept(x) && IsAliasOf(kind, x, next.forward[x])
      ensures next.forward[x] in next.reverse && next.reverse[next.forward[x]] == x
    {
      if x != n { assert m.forward[x] in m.reverse && m.forward[x] in used; }
    }
    forall a | a in next.reverse
      ensures a in used + {alias} && a !in kept && next.reverse[a] in next.forward && next.forward[next.reverse[a]] == a
    {
    }
  }

  lemma {:induction false} AssignIsConsistent(kind: Kind, todo: seq<string>, m: AliasMap, kept: set<string>, used: set<string>)
    returns (after: set<string>)
    requires |used| + |todo| < TWO_64 && Consistent(kind, m, kept, used)
    requires Ascending(todo) && (forall n :: n in Elements(todo) ==> n !in m.forward)
    ensures Consistent(kind, Assign(kind, todo, m, used), kept, after)
    ensures Assign(kind, todo, m, used).forward.Keys
            == m.forward.Keys + (set n | n in Elements(todo) && !kind.Kept(n))
    decreases |todo|
  {
    hide Alias, Consistent, Kind.Kept, Kind.Prefix;
    if todo == [] {
      after := used;
    } else {
      var n := todo[0];
      TailElements(todo);
      assert n in Elements(todo);
      if kind.Kept(n) {
        after := AssignIsConsistent(kind, todo[1..], m, kept, used);
      } else {
        AssignStep(kind, n, m, kept, used);
        var alias := Alias(n, kind.Prefix(n), used);
        var next := AliasMap(m.forward[n := alias], m.reverse[alias := n]);
        after := AssignIsConsistent(kind, todo[1..], next, kept, used + {alias});
      }
    }
  }

  // Everything promised of one request's map. Identifiers outside the request pass through.
  lemma AliasMapTheorem(kind: Kind, names: seq<string>)
    requires 2 * |names| < TWO_64
    ensures var m := MapOf(kind, names);
            && (forall n :: n in names && kind.Kept(n) ==> m.Wire(n) == n)
            && (forall n :: n in names && !kind.Kept(n) ==> m.Wire(n) !in names)
            && (forall n :: n in names ==> kind.Kept(m.Wire(n)) && |m.Wire(n)| <= OPENAI_IDENTIFIER_LIMIT)
            && (forall n, k :: n in names && k in names && m.Wire(n) == m.Wire(k) ==> n == k)
            && (forall n :: n in names ==> m.Original(m.Wire(n)) == n)
            && (forall n :: n in names && !kind.Kept(n) ==> |m.Wire(n)| > HASH_HEX_LEN)
            && (forall n :: n in names && !kind.Kept(n) ==> Resembles(kind, n, m.Wire(n)))
            && (forall n :: n !in names ==> m.Wire(n) == n)
            && (forall a :: a in m.reverse ==> |a| > HASH_HEX_LEN)
  {
    hide Resembles;
    var sorted := BTreeSet(names);
    var kept := KeptOf(kind, sorted);
    var m := MapOf(kind, names);
    KeptSize(kind, sorted);
    var _ := AssignIsConsistent(kind, sorted, AliasMap(map[], map[]), kept, kept);
    assert forall n :: n in names <==> n in Elements(names);
    assert forall n :: n in sorted <==> n in Elements(sorted);
  }

  // Neither order nor repetition of the identifiers matters.
  lemma MapDependsOnSetOnly(kind: Kind, names: seq<string>, others: seq<string>)
    requires 2 * |names| < TWO_64 && 2 * |others| < TWO_64 && Elements(names) == Elements(others)
    ensures MapOf(kind, names) == MapOf(kind, others)
  {
    AscendingIsUnique(BTreeSet(names), BTreeSet(others));
  }

  // Both constructors: collect, keep what is legal, alias the rest in order.
  method BuildMap(kind: Kind, names: seq<string>) returns (m: AliasMap)
    requires 2 * |names| < TWO_64
    ensures m == MapOf(kind, names)
  {
    var sorted := BTreeSet(names);
    KeptSize(kind, sorted);
    var used := KeptOf(kind, sorted);
    hide Assign, Alias, BTreeSet, Ascending;
    var forward, reverse := map[], map[];
    assert sorted[0..] == sorted;
    for i := 0 to |sorted|
      invariant |used| + |sorted| - i < TWO_64
      invariant Assign(kind, sorted[i..], AliasMap(forward, reverse), used) == MapOf(kind, names)
    {
      var name := sorted[i];
      AssignCons(kind, sorted, i, AliasMap(forward, reverse), used);
      if !kind.Kept(name) {
        var alias;
        alias, used := UniqueAlias(name, kind.Prefix(name), used);
        forward := forward[name := alias];
        reverse := reverse[alias := name];
      }
    }
    AssignNil(kind, AliasMap(forward, reverse), used);
    assert sorted[|sorted|..] == [];
    m := AliasMap(forward, reverse);
  }
}
