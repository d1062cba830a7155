// Keys in ascending order, as a BTreeMap walks them, and parts put in the order of their indices.
module ResponsesOrder {
  import opened ResponsesItems

  predicate IsLeast(k: nat, s: set<nat>) { k in s && forall j :: j in s ==> k <= j }

  lemma LeastOf(s: set<nat>, x: nat, k: nat)
    requires x in s && IsLeast(k, s - {x})
    ensures IsLeast(if x < k then x else k, s)
  {
    assert forall j :: j in s ==> j == x || j in s - {x};
  }

  lemma {:induction false} LeastExists(s: set<nat>)
    requires s != {}
    ensures exists k :: IsLeast(k, s)
    decreases |s|
  {
    var x :| x in s;
    if s == {x} {
      assert IsLeast(x, s);
    } else {
      assert s - {x} != {};
      LeastExists(s - {x});
      var k :| IsLeast(k, s - {x});
      LeastOf(s, x, k);
    }
  }

  function Ascend(s: set<nat>): (keys: seq<nat>)
    decreases |s|
  {
    if s == {} then []
    else
      LeastExists(s);
      var k :| k in s && IsLeast(k, s);
      [k] + Ascend(s - {k})
  }

  ghost predicate Ascending(keys: seq<nat>) { forall i, j :: 0 <= i < j < |keys| ==> keys[i] < keys[j] }

  lemma AscendCons(s: set<nat>)
    requires s != {}
    ensures Ascend(s) != [] && Ascend(s)[0] in s && (forall j :: j in s ==> Ascend(s)[0] <= j)
    ensures Ascend(s) == [Ascend(s)[0]] + Ascend(s - {Ascend(s)[0]})
  {
  }

  lemma {:induction false} AscendIsAscending(s: set<nat>)
    ensures Ascending(Ascend(s)) && (forall k :: k in Ascend(s) <==> k in s) && |Ascend(s)| == |s|
    decreases |s|
  {
    if s != {} {
      AscendCons(s);
      hide Ascend;
      var k, rest := Ascend(s)[0], Ascend(s - {Ascend(s)[0]});
      AscendIsAscending(s - {k});
      ConsAscending(k, rest);
      assert forall j :: j in s <==> j == k || j in s - {k};
    }
  }

  lemma ConsAscending(k: nat, rest: seq<nat>)
    requires Ascending(rest) && forall j :: j in rest ==> k < j
    ensures Ascending([k] + rest) && forall j :: j in [k] + rest <==> j == k || j in rest
  {
    var keys := [k] + rest;
    forall i, j | 0 <= i < j < |keys| ensures keys[i] < keys[j] {
      assert keys[j] == rest[j - 1] && keys[j] in rest;
      if i > 0 { assert keys[i] == rest[i - 1]; }
    }
    assert keys[0] == k && forall i :: 0 <= i < |rest| ==> rest[i] == keys[i + 1];
  }

  lemma SomeElement(keys: seq<nat>)
    ensures keys != [] ==> exists k :: k in keys
  {
    if keys != [] { assert keys[0] in keys; }
  }

  // An ascending list is settled by its elements.
  lemma {:induction false} AscendingIsUnique(a: seq<nat>, b: seq<nat>)
    requires Ascending(a) && Ascending(b) && forall k :: k in a <==> k in b
    ensures a == b
    decreases |a|
  {
    if a == [] {
      SomeElement(b);
    } else {
      assert a[0] in b && b != [];
      assert b[0] in a;
      assert a[0] == b[0];
      forall k ensures k in a[1..] <==> k in b[1..] {
        assert k in a[1..] ==> k in a && k != a[0];
        assert k in b[1..] ==> k in b && k != b[0];
        assert k in a && k != a[0] ==> k in a[1..];
        assert k in b && k != b[0] ==> k in b[1..];
      }
      AscendingIsUnique(a[1..], b[1..]);
      assert a == [a[0]] + a[1..] && b == [b[0]] + b[1..];
    }
  }

  // The values of a map in the order of its keys.
  function InOrder<T>(m: map<nat, T>): (r: seq<T>)
    ensures |r| == |Ascend(m.Keys)|
  {
    AscendIsAscending(m.Keys);
    var keys := Ascend(m.Keys);
    seq(|keys|, i requires 0 <= i < |keys| => assert keys[i] in keys; m[keys[i]])
  }

  // As many values as keys, whatever the keys: a huge index leaves no hole behind.
  lemma InOrderIsDense<T>(m: map<nat, T>)
    ensures |InOrder(m)| == |m.Keys|
    ensures forall i :: 0 <= i < |InOrder(m)| ==> Ascend(m.Keys)[i] in m && InOrder(m)[i] == m[Ascend(m.Keys)[i]]
  {
    AscendIsAscending(m.Keys);
    assert forall i :: 0 <= i < |Ascend(m.Keys)| ==> Ascend(m.Keys)[i] in Ascend(m.Keys);
  }

  function UpTo(n: nat): (r: seq<nat>)
    ensures |r| == n && forall i :: 0 <= i < n ==> r[i] == i
  {
    seq(n, (i: nat) => i)
  }

  lemma AscendRange(s: set<nat>, n: nat)
    requires forall k: nat :: k in s <==> k < n
    ensures Ascend(s) == UpTo(n)
  {
    AscendIsAscending(s);
    hide Ascend;
    forall k: nat ensures k in UpTo(n) <==> k in Ascend(s) {
      if k < n { assert UpTo(n)[k] == k; }
    }
    AscendingIsUnique(Ascend(s), UpTo(n));
  }

  // When the keys are 0..n, the values stand at their own keys.
  lemma InOrderOfRange<T>(m: map<nat, T>, n: nat)
    requires forall k: nat :: k in m <==> k < n
    ensures |InOrder(m)| == n && forall k :: 0 <= k < n ==> InOrder(m)[k] == m[k]
  {
    AscendRange(m.Keys, n);
  }

  // ---- `normalize_stream_part_indices` ----

  datatype Indexed = Indexed(index: nat, body: Body)

  ghost predicate Sorted(list: seq<Indexed>) { forall i, j :: 0 <= i < j < |list| ==> list[i].index < list[j].index }

  // `list` holds the entries of `m`, in order.
  ghost predicate Lists(list: seq<Indexed>, m: map<nat, Body>) {
    && Sorted(list)
    && (forall i :: 0 <= i < |list| ==> list[i].index in m && m[list[i].index] == list[i].body)
    && (forall k :: k in m ==> exists i :: 0 <= i < |list| && list[i].index == k)
  }

  // Insertion keeps the list sorted by index; indices are distinct, so positions never decide.
  method InsertSorted(list: seq<Indexed>, entry: Indexed, ghost m: map<nat, Body>) returns (r: seq<Indexed>)
    requires Lists(list, m) && entry.index !in m
    ensures Lists(r, m[entry.index := entry.body]) && |r| == |list| + 1
  {
    var i := 0;
    while i < |list| && list[i].index < entry.index
      invariant 0 <= i <= |list| && forall j :: 0 <= j < i ==> list[j].index < entry.index
    {
      i := i + 1;
    }
    r := list[..i] + [entry] + list[i..];
    InsertedAt(list, i, entry, m);
  }

  // `r` is `list` with `entry` put in at `i`.
  ghost predicate Spliced(list: seq<Indexed>, i: nat, entry: Indexed, r: seq<Indexed>) {
    && i <= |list| && |r| == |list| + 1 && r[i] == entry
    && (forall j :: 0 <= j < i ==> r[j] == list[j]) && (forall j :: i < j < |r| ==> r[j] == list[j - 1])
  }

  lemma SplicedSorted(list: seq<Indexed>, i: nat, entry: Indexed, r: seq<Indexed>)
    requires Sorted(list) && Spliced(list, i, entry, r)
    requires (forall j :: 0 <= j < i ==> list[j].index < entry.index) && (i < |list| ==> list[i].index > entry.index)
    ensures Sorted(r)
  {
    forall p, q | 0 <= p < q < |r| ensures r[p].index < r[q].index {
      if q == i {
      } else if p == i {
        assert list[i].index <= list[q - 1].index;
      }
    }
  }

  lemma SplicedEntries(list: seq<Indexed>, i: nat, entry: Indexed, r: seq<Indexed>, m: map<nat, Body>, j: nat)
    requires Lists(list, m) && entry.index !in m && Spliced(list, i, entry, r) && j < |r|
    ensures var next := m[entry.index := entry.body]; r[j].index in next && next[r[j].index] == r[j].body
  {
    if j < i {
      assert r[j] == list[j] && list[j].index in m;
    } else if j > i {
      assert r[j] == list[j - 1] && list[j - 1].index in m;
    }
  }

  lemma SplicedKeys(list: seq<Indexed>, i: nat, entry: Indexed, r: seq<Indexed>, m: map<nat, Body>, k: nat) returns (j: nat)
    requires Lists(list, m) && Spliced(list, i, entry, r) && (k == entry.index || k in m)
    ensures j < |r| && r[j].index == k
  {
    hide Sorted, InOrder;
    if k == entry.index { return i; }
    j :| 0 <= j < |list| && list[j].index == k;
    if j >= i {
      assert r[j + 1] == list[j];
      return j + 1;
    }
  }

  lemma SplicedLists(list: seq<Indexed>, i: nat, entry: Indexed, r: seq<Indexed>, m: map<nat, Body>)
    requires Lists(list, m) && entry.index !in m && Spliced(list, i, entry, r) && Sorted(r)
    ensures Lists(r, m[entry.index := entry.body])
  {
    var next := m[entry.index := entry.body];
    forall j | 0 <= j < |r| ensures r[j].index in next && next[r[j].index] == r[j].body {
      SplicedEntries(list, i, entry, r, m, j);
    }
    forall k | k in next ensures exists j :: 0 <= j < |r| && r[j].index == k {
      var j := SplicedKeys(list, i, entry, r, m, k);
    }
    hide Spliced, Sorted;
    IsListed(r, next);
  }

  lemma IsListed(list: seq<Indexed>, m: map<nat, Body>)
    requires Sorted(list)
    requires forall i :: 0 <= i < |list| ==> list[i].index in m && m[list[i].index] == list[i].body
    requires forall k :: k in m ==> exists i :: 0 <= i < |list| && list[i].index == k
    ensures Lists(list, m)
  {
  }

  lemma InsertedAt(list: seq<Indexed>, i: nat, entry: Indexed, m: map<nat, Body>)
    requires Lists(list, m) && entry.index !in m && i <= |list|
    requires (forall j :: 0 <= j < i ==> list[j].index < entry.index) && (i < |list| ==> list[i].index >= entry.index)
    ensures Lists(list[..i] + [entry] + list[i..], m[entry.index := entry.body])
  {
    var r := list[..i] + [entry] + list[i..];
    assert Spliced(list, i, entry, r);
    hide Spliced;
    SplicedSorted(list, i, entry, r);
    SplicedLists(list, i, entry, r, m);
  }

  lemma ListsInOrder(list: seq<Indexed>, m: map<nat, Body>)
    requires Lists(list, m)
    ensures |list| == |InOrder(m)| && forall i :: 0 <= i < |list| ==> InOrder(m)[i] == list[i].body
  {
    var keys := seq(|list|, i requires 0 <= i < |list| => list[i].index);
    AscendIsAscending(m.Keys);
    hide Ascend;
    forall k ensures k in keys <==> k in Ascend(m.Keys) {
      if k in m {
        var i :| 0 <= i < |list| && list[i].index == k;
        assert keys[i] == k;
      }
    }
    AscendingIsUnique(keys, Ascend(m.Keys));
  }

  ghost predicate IndexesUpTo(parts: seq<Part>, n: nat, m: map<nat, Body>)
    requires n <= |parts|
  {
    && (forall i :: 0 <= i < n ==> EffectiveIndex(parts, i) in m && m[EffectiveIndex(parts, i)] == parts[i].body)
    && (forall k :: k in m ==> exists i :: 0 <= i < n && EffectiveIndex(parts, i) == k)
  }

  lemma IndexesNext(parts: seq<Part>, n: nat, m: map<nat, Body>)
    requires WellIndexed(parts) && n < |parts| && IndexesUpTo(parts, n, m)
    ensures EffectiveIndex(parts, n) !in m
    ensures IndexesUpTo(parts, n + 1, m[EffectiveIndex(parts, n) := parts[n].body])
  {
    var next := m[EffectiveIndex(parts, n) := parts[n].body];
    assert forall i :: 0 <= i < n ==> EffectiveIndex(parts, i) != EffectiveIndex(parts, n);
    hide WellIndexed;
    forall k | k in next ensures exists i :: 0 <= i < n + 1 && EffectiveIndex(parts, i) == k {
      if k != EffectiveIndex(parts, n) {
        var i :| 0 <= i < n && EffectiveIndex(parts, i) == k;
        assert i < n + 1;
      }
    }
  }

  // The parts without markers, sorted by index: a function of what was said at which index.
  method NormalizeParts(parts: seq<Part>) returns (r: seq<Body>)
    requires WellIndexed(parts)
    ensures r == InOrder(ByIndex(parts)) && |r| == |parts|
  {
    var list: seq<Indexed> := [];
    ghost var m: map<nat, Body> := map[];
    hide Lists, WellIndexed, ByIndex;
    assert Lists(list, m) && IndexesUpTo(parts, 0, m) by { NothingListed(parts); }
    for i := 0 to |parts|
      invariant Lists(list, m) && |list| == i && IndexesUpTo(parts, i, m)
    {
      IndexesNext(parts, i, m);
      var index := EffectiveIndex(parts, i);
      list := InsertSorted(list, Indexed(index, parts[i].body), m);
      m := m[index := parts[i].body];
    }
    IndexesIsByIndex(parts, m);
    ListsInOrder(list, m);
    return seq(|list|, i requires 0 <= i < |list| => list[i].body);
  }

  lemma NothingListed(parts: seq<Part>)
    ensures Lists([], map[]) && IndexesUpTo(parts, 0, map[])
  {
  }
}
