// The text that ends a stream, and trimming.
module SseMarker {
  import opened Wrappers
  import opened Utf8
  import opened SseFormat

  // White space, told from either end.
  predicate BlankAhead(s: Bytes)
    decreases |s|
  {
    s == [] || (WsStart(s) > 0 && BlankAhead(s[WsStart(s)..]))
  }

  predicate BlankBehind(s: Bytes)
    decreases |s|
  {
    s == [] || (WsEnd(s) > 0 && BlankBehind(s[..|s| - WsEnd(s)]))
  }

  // The white space character at either end is told by its own bytes.
  lemma SameStart(s: Bytes, t: Bytes)
    requires WsStart(s) > 0 && WsStart(s) <= |t| && t[..WsStart(s)] == s[..WsStart(s)]
    ensures WsStart(t) == WsStart(s)
  {
    var n := WsStart(s);
    assert t[0] == t[..n][0] == s[..n][0];
    if n > 1 { assert t[1] == t[..n][1] == s[..n][1]; }
    if n > 2 { assert t[2] == t[..n][2] == s[..n][2]; }
  }

  lemma SameEnd(s: Bytes, t: Bytes)
    requires WsEnd(s) > 0 && WsEnd(s) <= |t| && t[|t| - WsEnd(s)..] == s[|s| - WsEnd(s)..]
    ensures WsEnd(t) == WsEnd(s)
  {
    var n, x, y := WsEnd(s), t[|t| - WsEnd(s)..], s[|s| - WsEnd(s)..];
    assert t[|t| - 1] == x[n - 1] == y[n - 1] == s[|s| - 1];
    if n > 1 { assert t[|t| - 2] == x[n - 2] == y[n - 2] == s[|s| - 2]; }
    if n > 2 { assert t[|t| - 3] == x[n - 3] == y[n - 3] == s[|s| - 3]; }
  }

  lemma MoreAhead(w: Bytes, a: Bytes)
    requires WsStart(w) == |w| > 0 && BlankAhead(a)
    ensures BlankAhead(w + a)
  {
    hide WsStart;
    assert (w + a)[..|w|] == w[..|w|] && (w + a)[|w|..] == a;
    SameStart(w, w + a);
  }

  lemma MoreBehind(b: Bytes, w: Bytes)
    requires WsEnd(w) == |w| > 0 && BlankBehind(b)
    ensures BlankBehind(b + w)
  {
    hide WsEnd;
    var s := b + w;
    assert s[|s| - |w|..] == w == w[0..] && s[..|s| - |w|] == b;
    SameEnd(w, s);
  }

  lemma {:induction false} TrimmedAhead(s: Bytes) returns (a: Bytes)
    ensures BlankAhead(a) && s == a + TrimStart(s)
    decreases |s|
  {
    hide WsStart;
    a := [];
    var n := WsStart(s);
    if n > 0 {
      var w := s[..n];
      var more := TrimmedAhead(s[n..]);
      SameStart(s, w);
      MoreAhead(w, more);
      a := w + more;
      assert s == w + s[n..];
    }
  }

  lemma {:induction false} TrimmedBehind(s: Bytes) returns (b: Bytes)
    ensures BlankBehind(b) && s == TrimEnd(s) + b
    decreases |s|
  {
    hide WsEnd;
    b := [];
    var n := WsEnd(s);
    if n > 0 {
      var init, w := s[..|s| - n], s[|s| - n..];
      assert TrimEnd(s) == TrimEnd(init) && s == init + w && w[|w| - n..] == w;
      hide TrimEnd, BlankBehind;
      var more := TrimmedBehind(init);
      SameEnd(s, w);
      MoreBehind(more, w);
      Assoc(TrimEnd(init), more, w);
      b := more + w;
    } else {
      assert TrimEnd(s) + [] == s;
    }
  }

  lemma {:induction false} TrimsAhead(a: Bytes, t: Bytes)
    requires BlankAhead(a) && WsStart(t) == 0
    ensures TrimStart(a + t) == t
    decreases |a|
  {
    hide WsStart;
    if a == [] {
      assert a + t == t;
    } else {
      var n := WsStart(a);
      assert (a + t)[..n] == a[..n] && (a + t)[n..] == a[n..] + t;
      SameStart(a, a + t);
      TrimsAhead(a[n..], t);
    }
  }

  lemma {:induction false} TrimsBehind(t: Bytes, b: Bytes)
    requires BlankBehind(b) && WsEnd(t) == 0
    ensures TrimEnd(t + b) == t
    decreases |b|
  {
    hide WsEnd;
    if b == [] {
      assert t + b == t;
    } else {
      var n, s := WsEnd(b), t + b;
      assert s[|s| - n..] == b[|b| - n..] && s[..|s| - n] == t + b[..|b| - n];
      SameEnd(b, s);
      TrimsBehind(t, b[..|b| - n]);
    }
  }

  // "[DONE]" with nothing but white space around it.
  ghost predicate Marker(p: Bytes, a: Bytes, b: Bytes) {
    BlankAhead(a) && BlankBehind(b) && p == a + ([91, 68, 79, 78, 69, 93] + b)
  }

  lemma DoneExactly(p: Bytes)
    ensures IsDone(p) <==> exists a, b :: Marker(p, a, b)
  {
    if IsDone(p) {
      var a := TrimmedAhead(p);
      var b := TrimmedBehind(TrimStart(p));
      assert Marker(p, a, b);
    }
    if a, b :| Marker(p, a, b) {
      assert WsStart(DONE + b) == 0 && WsEnd(DONE) == 0;
      TrimsAhead(a, DONE + b);
      TrimsBehind(DONE, b);
    }
  }
}
