// What the order of scans can change, exactly.
module IngestOrders {
  import opened Wrappers
  import opened IngestRows
  import opened IngestSchedule
  import opened IngestSafety

  // ---- reading whole files, one after the other, in any order ----

  function Applies(f: string, n: nat): seq<Step> { seq(n, i => Apply(f)) }

  function ReadFile(logs: Logs, f: string): seq<Step>
    requires f in logs
  {
    [Begin(f)] + Applies(f, |All(logs, f)|)
  }

  function ReadFiles(logs: Logs, order: seq<string>): seq<Step>
    requires forall f :: f in order ==> f in logs
    decreases |order|
  {
    if order == [] then [] else ReadFile(logs, order[0]) + ReadFiles(logs, order[1..])
  }

  lemma ForSnoc(all: seq<Statement>, from: nat, to: nat, r: string)
    requires from < to <= |all|
    ensures For(all[from..to], r) == (if all[from].request == r then [all[from].op] else []) + For(all[from + 1..to], r)
  {
    assert all[from..to][1..] == all[from + 1..to];
  }

  lemma RunCons(logs: Logs, s: Sys, step: Step, rest: seq<Step>)
    requires Next(logs, s, step).Some?
    ensures Run(logs, s, [step] + rest) == Run(logs, Next(logs, s, step).value, rest)
  {
    assert ([step] + rest)[1..] == rest;
    hide Next;
  }

  lemma ApplyOne(logs: Logs, s: Sys, f: string, r: string)
    requires f in logs && f in s.cursors && s.cursors[f] < |All(logs, f)|
    ensures Next(logs, s, Apply(f)).Some?
    ensures var t := Next(logs, s, Apply(f)).value;
            && t.offsets == s.offsets && t.cursors == s.cursors[f := s.cursors[f] + 1]
            && EntryOf(t, r) == if All(logs, f)[s.cursors[f]].request == r then Execute(EntryOf(s, r), All(logs, f)[s.cursors[f]].op)
                                else EntryOf(s, r)
  {
    hide Flatten, Execute;
  }

  lemma ApplyThen(e: Entry, all: seq<Statement>, q: nat, to: nat, r: string)
    requires q < to <= |all|
    ensures ExecuteAll(e, For(all[q..to], r))
            == ExecuteAll(if all[q].request == r then Execute(e, all[q].op) else e, For(all[q + 1..to], r))
  {
    ForSnoc(all, q, to, r);
    hide Execute, For;
    assert ([all[q].op] + For(all[q + 1..to], r))[1..] == For(all[q + 1..to], r);
    assert [] + For(all[q + 1..to], r) == For(all[q + 1..to], r);
  }

  lemma {:induction false} AppliesRun(logs: Logs, s: Sys, f: string, r: string, n: nat)
    requires f in logs && f in s.cursors && s.cursors[f] + n <= |All(logs, f)|
    ensures Run(logs, s, Applies(f, n)).Some?
    ensures var t := Run(logs, s, Applies(f, n)).value;
            && t.offsets == s.offsets && t.cursors == s.cursors[f := s.cursors[f] + n]
            && EntryOf(t, r) == ExecuteAll(EntryOf(s, r), For(All(logs, f)[s.cursors[f]..s.cursors[f] + n], r))
    decreases n
  {
    var all, q, to := All(logs, f), s.cursors[f], s.cursors[f] + n;
    if n == 0 {
      assert all[q..to] == [] && s.cursors == s.cursors[f := q];
    } else {
      assert Applies(f, n) == [Apply(f)] + Applies(f, n - 1);
      ApplyOne(logs, s, f, r);
      RunCons(logs, s, Apply(f), Applies(f, n - 1));
      hide Execute, For, Flatten, Next, Run, ExecuteAll, Applies;
      var t := Next(logs, s, Apply(f)).value;
      AppliesRun(logs, t, f, r, n - 1);
      ApplyThen(EntryOf(s, r), all, q, to, r);
      assert t.cursors[f := to] == s.cursors[f := to];
    }
  }

  // A scan from the stored offset to some later statement.
  function Scan(logs: Logs, f: string, from: nat, to: nat): seq<Step>
    requires f in logs && from <= |logs[f]| && Ends(logs[f], from) <= to <= |All(logs, f)|
  {
    [Begin(f)] + Applies(f, to - Ends(logs[f], from))
  }

  lemma BeginOne(logs: Logs, s: Sys, f: string)
    requires f in logs && OffsetOf(s, f) <= |logs[f]|
    ensures Next(logs, s, Begin(f)) == Some(s.(cursors := s.cursors[f := Ends(logs[f], OffsetOf(s, f))]))
  {
  }

  lemma SameEntries(s: Sys, t: Sys, r: string)
    requires s.entries == t.entries
    ensures EntryOf(s, r) == EntryOf(t, r)
  {
  }

  lemma ScanRun(logs: Logs, s: Sys, f: string, from: nat, to: nat, r: string)
    requires f in logs && OffsetOf(s, f) == from <= |logs[f]| && Ends(logs[f], from) <= to <= |All(logs, f)|
    ensures Run(logs, s, Scan(logs, f, from, to)).Some?
    ensures var t := Run(logs, s, Scan(logs, f, from, to)).value;
            && t.offsets == s.offsets && t.cursors == s.cursors[f := to]
            && EntryOf(t, r) == ExecuteAll(EntryOf(s, r), For(All(logs, f)[Ends(logs[f], from)..to], r))
  {
    hide Next, For, ExecuteAll, Flatten, Ends, Run, Applies, All, EntryOf;
    var at := Ends(logs[f], from);
    var t := s.(cursors := s.cursors[f := at]);
    BeginOne(logs, s, f);
    SameEntries(s, t, r);
    RunCons(logs, s, Begin(f), Applies(f, to - at));
    AppliesRun(logs, t, f, r, to - at);
    assert t.cursors[f := to] == s.cursors[f := to];
  }

  lemma ReadFileRun(logs: Logs, s: Sys, f: string, r: string)
    requires f in logs && OffsetOf(s, f) == 0
    ensures Run(logs, s, ReadFile(logs, f)).Some?
    ensures var t := Run(logs, s, ReadFile(logs, f)).value;
            && t.offsets == s.offsets && t.cursors == s.cursors[f := |All(logs, f)|]
            && EntryOf(t, r) == ExecuteAll(EntryOf(s, r), For(All(logs, f), r))
  {
    EndsWithin(logs[f], 0);
    hide Run, For, ExecuteAll, Flatten, Ends;
    ScanRun(logs, s, f, 0, |All(logs, f)|, r);
    assert All(logs, f)[0..|All(logs, f)|] == All(logs, f);
  }

  lemma {:induction false} ReadFilesRun(logs: Logs, s: Sys, order: seq<string>, r: string)
    requires (forall f :: f in order ==> f in logs) && s.offsets == map[]
    ensures Run(logs, s, ReadFiles(logs, order)).Some?
    ensures var t := Run(logs, s, ReadFiles(logs, order)).value;
            && t.offsets == map[] && EntryOf(t, r) == ExecuteAll(EntryOf(s, r), For(Flatten(Whole(logs, order)), r))
            && (forall f :: f in order || (f in s.cursors && f in logs && s.cursors[f] == |All(logs, f)|) ==>
                  f in t.cursors && t.cursors[f] == |All(logs, f)|)
    decreases |order|
  {
    if order != [] {
      var f, rest := order[0], order[1..];
      ReadFileRun(logs, s, f, r);
      var t := Run(logs, s, ReadFile(logs, f)).value;
      ReadFilesRun(logs, t, rest, r);
      FlattenConcat(logs[f], Whole(logs, rest));
      ForConcat(All(logs, f), Flatten(Whole(logs, rest)), r);
      ExecuteConcat(EntryOf(s, r), For(All(logs, f), r), For(Flatten(Whole(logs, rest)), r));
      hide Run, For, Flatten, ExecuteAll, ReadFile;
      RunConcat(logs, s, ReadFile(logs, f), ReadFiles(logs, rest));
    }
  }

  lemma OrderFinishes(logs: Logs, order: seq<string>, r: string)
    requires forall f :: f in order <==> f in logs
    ensures Finished(logs, ReadFiles(logs, order), r)
    ensures EntryAfter(logs, ReadFiles(logs, order), r) == Once(Whole(logs, order), r)
  {
    ReadFilesRun(logs, FRESH, order, r);
    hide Run, For, Flatten, ExecuteAll;
  }

  // ---- exactly when the order does not matter ----

  function Without(order: seq<string>, f: string): seq<string>
    decreases |order|
  {
    if order == [] then [] else (if order[0] == f then [] else [order[0]]) + Without(order[1..], f)
  }

  lemma {:induction false} WithoutIs(order: seq<string>, f: string)
    ensures forall g :: g in Without(order, f) <==> g in order && g != f
    decreases |order|
  {
    if order != [] { WithoutIs(order[1..], f); }
  }

  // A deciding file can be made to decide: read last if it overwrites, first if it fills.
  lemma CanDecide(logs: Logs, order: seq<string>, r: string, c: Column, f: string) returns (steps: seq<Step>)
    requires Enumerates(order, logs) && Wins(logs, r, c, f)
    ensures Finished(logs, steps, r)
    ensures Cell(EntryAfter(logs, steps, r), c) == Gives(logs, f, r, c).On(Cell(NO_ENTRY, c)) && Fits(c, Gives(logs, f, r, c))
  {
    var others := Without(order, f);
    WithoutIs(order, f);
    var chosen := if Gives(logs, f, r, c).Put? then others + [f] else [f] + others;
    hide Gives, Sum, Whole, Flatten, Finished, Cell;
    OrderFinishes(logs, chosen, r);
    OnceCell(Whole(logs, chosen), r, c);
    if Gives(logs, f, r, c).Put? {
      WholeOfLastPut(logs, chosen, r, c, |others|);
    } else {
      WholeOfFirstFill(logs, chosen, r, c, 0);
    }
    steps := ReadFiles(logs, chosen);
  }

  // Two values differ when what wrote them does, nothing having been there before.
  lemma ValuesDiffer(c: Column, a: Change, b: Change)
    requires Fits(c, a) && Fits(c, b) && a != b && a.Rank() == b.Rank()
    ensures a.On(Cell(NO_ENTRY, c)) != b.On(Cell(NO_ENTRY, c))
  {
  }

  lemma Disagreement(logs: Logs, r: string, c: Column) returns (f: string, g: string)
    requires !Agree(logs, r, c)
    ensures Wins(logs, r, c, f) && Wins(logs, r, c, g) && f in logs && g in logs && Gives(logs, f, r, c) != Gives(logs, g, r, c)
    ensures Gives(logs, f, r, c).Rank() == Gives(logs, g, r, c).Rank()
  {
    f, g :| Wins(logs, r, c, f) && Wins(logs, r, c, g) && Gives(logs, f, r, c) != Gives(logs, g, r, c);
  }

  // A column comes out the same from every finished schedule exactly when the files agree on it.
  lemma OrderMattersExactly(logs: Logs, order: seq<string>, r: string, c: Column)
    requires Enumerates(order, logs)
    ensures (forall x, y :: Finished(logs, x, r) && Finished(logs, y, r) ==>
               Cell(EntryAfter(logs, x, r), c) == Cell(EntryAfter(logs, y, r), c))
            <==> Agree(logs, r, c)
  {
    if Agree(logs, r, c) {
      hide Agree, Finished, EntryAfter, Cell, Enumerates, Once, Whole;
      forall x, y | Finished(logs, x, r) && Finished(logs, y, r)
        ensures Cell(EntryAfter(logs, x, r), c) == Cell(EntryAfter(logs, y, r), c)
      {
        CrashSafe(logs, order, x, r, c);
        CrashSafe(logs, order, y, r, c);
      }
    } else {
      var f, g := Disagreement(logs, r, c);
      hide Agree, Gives, Finished, EntryAfter, Cell, Wins, Enumerates;
      var x := CanDecide(logs, order, r, c, f);
      var y := CanDecide(logs, order, r, c, g);
      ValuesDiffer(c, Gives(logs, f, r, c), Gives(logs, g, r, c));
    }
  }

  lemma WinnersRank(logs: Logs, r: string, c: Column, f: string, g: string)
    requires Wins(logs, r, c, f) && Wins(logs, r, c, g)
    ensures Gives(logs, f, r, c).Rank() == Gives(logs, g, r, c).Rank()
  {
  }

  // ---- entries that no order of the files gives ----

  function Side(a: seq<Op>, b: seq<Op>, first: bool): seq<Op> { if first then a else b }

  // Two files, read whole in some order and as often as offsets are lost.
  function Reads(a: seq<Op>, b: seq<Op>, word: seq<bool>): seq<Op>
    decreases |word|
  {
    if word == [] then [] else Side(a, b, word[0]) + Reads(a, b, word[1..])
  }

  ghost predicate Mixed(word: seq<bool>) { true in word && false in word }

  predicate PutsClash(a: seq<Op>, b: seq<Op>, c: Column) { Total(a, c).Put? && Total(b, c).Put? && Total(a, c) != Total(b, c) }

  predicate FillsClash(a: seq<Op>, b: seq<Op>, c: Column) { Total(a, c).Fill? && Total(b, c).Fill? && Total(a, c) != Total(b, c) }

  function After(ops: seq<Op>): Entry { ExecuteAll(NO_ENTRY, ops) }

  ghost predicate Logged(ops: seq<Op>) { ops != [] && ops[0].Insert? }

  lemma AfterCell(ops: seq<Op>, c: Column)
    requires Logged(ops)
    ensures Cell(After(ops), c) == Total(ops, c).On(Cell(NO_ENTRY, c)) && Fits(c, Total(ops, c))
  {
    ColumnsChangeByTotal(NO_ENTRY, ops, c);
  }

  ghost predicate SameTotals(x: seq<Op>, y: seq<Op>) { forall c :: Total(x, c) == Total(y, c) }

  ghost predicate SameRanks(x: seq<Op>, y: seq<Op>) { forall c :: Total(x, c).Rank() == Total(y, c).Rank() }

  lemma CellsSameAfter(x: seq<Op>, y: seq<Op>, c: Column)
    requires Logged(x) && Logged(y) && SameRanks(x, y)
    ensures Cell(After(x), c) == Cell(After(y), c) <==> Total(x, c) == Total(y, c)
  {
    assert Total(x, c).Rank() == Total(y, c).Rank();
    AfterCell(x, c);
    AfterCell(y, c);
    if Total(x, c) != Total(y, c) { ValuesDiffer(c, Total(x, c), Total(y, c)); }
  }

  // Entries differ exactly when what wrote some column does.
  lemma SameAfter(x: seq<Op>, y: seq<Op>)
    requires Logged(x) && Logged(y) && SameRanks(x, y)
    ensures After(x) == After(y) <==> SameTotals(x, y)
  {
    forall c ensures Cell(After(x), c) == Cell(After(y), c) <==> Total(x, c) == Total(y, c) { CellsSameAfter(x, y, c); }
    assert SameTotals(x, y) <==> SameCells(After(x), After(y));
    hide Cell, Total, After;
    if SameTotals(x, y) { CellsDetermine(After(x), After(y)); }
  }

  // What a sequence of reads amounts to, by who is first and who is last.
  function Decided(a: seq<Op>, b: seq<Op>, first: bool, last: bool, c: Column): Change {
    if PutsClash(a, b, c) then Total(Side(a, b, last), c)
    else if FillsClash(a, b, c) then Total(Side(a, b, first), c)
    else Total(a, c).Then(Total(b, c))
  }

  // One file more in front.
  lemma DecidedCons(a: seq<Op>, b: seq<Op>, first: bool, next: bool, last: bool, c: Column)
    ensures Total(Side(a, b, first), c).Then(Decided(a, b, next, last, c)) == Decided(a, b, first, last, c)
    ensures Total(Side(a, b, first), c).Then(Total(Side(a, b, !first), c)) == Decided(a, b, first, !first, c)
  {
    hide Total;
  }

  // In what order whole files are read shows only in who was first and who was last.
  lemma {:induction false} ReadsTotal(a: seq<Op>, b: seq<Op>, word: seq<bool>, c: Column)
    requires Mixed(word)
    ensures Total(Reads(a, b, word), c) == Decided(a, b, word[0], word[|word| - 1], c)
    decreases |word|
  {
    var rest, first, last := word[1..], word[0], word[|word| - 1];
    TotalConcat(Side(a, b, first), Reads(a, b, rest), c);
    hide Total, Decided;
    if Mixed(rest) {
      ReadsTotal(a, b, rest, c);
      DecidedCons(a, b, first, rest[0], last, c);
    } else {
      assert forall i :: 0 <= i < |rest| ==> rest[i] == !first;
      ReadsOne(a, b, rest, !first, c);
      DecidedCons(a, b, first, !first, !first, c);
    }
  }

  lemma {:induction false} ReadsOne(a: seq<Op>, b: seq<Op>, word: seq<bool>, first: bool, c: Column)
    requires word != [] && forall i :: 0 <= i < |word| ==> word[i] == first
    ensures Total(Reads(a, b, word), c) == Total(Side(a, b, first), c)
    decreases |word|
  {
    TotalConcat(Side(a, b, first), Reads(a, b, word[1..]), c);
    if |word| > 1 {
      hide Total;
      ReadsOne(a, b, word[1..], first, c);
    } else {
      assert Reads(a, b, word[1..]) == [] && Total([], c) == Keep;
    }
  }

  lemma {:induction false} ReadsLogged(a: seq<Op>, b: seq<Op>, word: seq<bool>)
    requires Logged(a) && Logged(b) && word != []
    ensures Logged(Reads(a, b, word))
  {
  }

  lemma TwoReads(a: seq<Op>, b: seq<Op>)
    ensures Reads(a, b, [true, false]) == a + b && Reads(a, b, [false, true]) == b + a
  {
    assert [true, false][1..] == [false] && [false, true][1..] == [true] && [false][1..] == [] && [true][1..] == [];
    assert Reads(a, b, [false]) == b + Reads(a, b, []) && Reads(a, b, [true]) == a + Reads(a, b, []);
    assert b + [] == b && a + [] == a;
  }

  ghost predicate Explained(a: seq<Op>, b: seq<Op>, word: seq<bool>) {
    After(Reads(a, b, word)) == After(a + b) || After(Reads(a, b, word)) == After(b + a)
  }

  ghost predicate Alike(a: seq<Op>, b: seq<Op>, x: seq<bool>, y: seq<bool>, c: Column)
    requires Mixed(x) && Mixed(y)
  {
    (x[|x| - 1] == y[|y| - 1] || !PutsClash(a, b, c)) && (x[0] == y[0] || !FillsClash(a, b, c))
  }

  lemma DecidedAlike(a: seq<Op>, b: seq<Op>, f: bool, l: bool, g: bool, m: bool, c: Column)
    ensures Decided(a, b, f, l, c).Rank() == Decided(a, b, g, m, c).Rank()
    ensures Decided(a, b, f, l, c) == Decided(a, b, g, m, c)
            <==> (l == m || !PutsClash(a, b, c)) && (f == g || !FillsClash(a, b, c))
  {
    hide Total;
  }

  lemma TotalsAlike(a: seq<Op>, b: seq<Op>, x: seq<bool>, y: seq<bool>, c: Column)
    requires Mixed(x) && Mixed(y)
    ensures Total(Reads(a, b, x), c).Rank() == Total(Reads(a, b, y), c).Rank()
    ensures Total(Reads(a, b, x), c) == Total(Reads(a, b, y), c) <==> Alike(a, b, x, y, c)
  {
    hide Total, Reads, Decided, PutsClash, FillsClash, Change.Rank;
    ReadsTotal(a, b, x, c);
    ReadsTotal(a, b, y, c);
    DecidedAlike(a, b, x[0], x[|x| - 1], y[0], y[|y| - 1], c);
  }

  // When one sequence of reads comes out like another.
  lemma ReadsAlike(a: seq<Op>, b: seq<Op>, x: seq<bool>, y: seq<bool>)
    requires Logged(a) && Logged(b) && Mixed(x) && Mixed(y)
    ensures After(Reads(a, b, x)) == After(Reads(a, b, y)) <==> forall c :: Alike(a, b, x, y, c)
  {
    ReadsLogged(a, b, x);
    ReadsLogged(a, b, y);
    AllAlike(a, b, x, y);
    hide SameTotals, SameRanks, After, Reads, Alike, Logged;
    SameAfter(Reads(a, b, x), Reads(a, b, y));
  }

  lemma AllAlike(a: seq<Op>, b: seq<Op>, x: seq<bool>, y: seq<bool>)
    requires Mixed(x) && Mixed(y)
    ensures SameRanks(Reads(a, b, x), Reads(a, b, y))
    ensures SameTotals(Reads(a, b, x), Reads(a, b, y)) <==> forall c :: Alike(a, b, x, y, c)
  {
    forall c ensures Total(Reads(a, b, x), c).Rank() == Total(Reads(a, b, y), c).Rank()
                     && (Total(Reads(a, b, x), c) == Total(Reads(a, b, y), c) <==> Alike(a, b, x, y, c))
    {
      TotalsAlike(a, b, x, y, c);
    }
    hide Alike, Reads;
  }

  lemma ExplainedExactly(a: seq<Op>, b: seq<Op>, word: seq<bool>)
    requires Logged(a) && Logged(b) && Mixed(word)
    ensures Explained(a, b, word)
            <==> (word[0] != word[|word| - 1] || (forall c :: !PutsClash(a, b, c)) || (forall c :: !FillsClash(a, b, c)))
  {
    TwoReads(a, b);
    var ab, ba := [true, false], [false, true];
    assert Mixed(ab) && Mixed(ba) by { assert ab[0] && !ab[1] && !ba[0] && ba[1]; }
    ReadsAlike(a, b, word, ab);
    ReadsAlike(a, b, word, ba);
    hide Reads, After, PutsClash, FillsClash, Logged;
    AlikeThroughout(a, b, word, ab);
    AlikeThroughout(a, b, word, ba);
  }

  lemma AlikeThroughout(a: seq<Op>, b: seq<Op>, x: seq<bool>, y: seq<bool>)
    requires Mixed(x) && Mixed(y)
    ensures (forall c :: Alike(a, b, x, y, c))
            <==> && (x[|x| - 1] == y[|y| - 1] || forall c :: !PutsClash(a, b, c))
                 && (x[0] == y[0] || forall c :: !FillsClash(a, b, c))
  {
    hide PutsClash, FillsClash;
    if forall c :: Alike(a, b, x, y, c) {
      forall c ensures x[|x| - 1] == y[|y| - 1] || !PutsClash(a, b, c) { assert Alike(a, b, x, y, c); }
      forall c ensures x[0] == y[0] || !FillsClash(a, b, c) { assert Alike(a, b, x, y, c); }
    }
  }

  // Reading whole files leaves an entry that neither order of them gives in some schedule, exactly when
  // they clash on a column that is overwritten and on one that is filled: b, then a, then b once more.
  lemma UnexplainedExactly(a: seq<Op>, b: seq<Op>)
    requires Logged(a) && Logged(b)
    ensures (exists word :: Mixed(word) && !Explained(a, b, word))
            <==> (exists c :: PutsClash(a, b, c)) && (exists c :: FillsClash(a, b, c))
  {
    hide Reads, After, PutsClash, FillsClash, Logged, Explained;
    forall word | Mixed(word)
      ensures Explained(a, b, word)
              <==> (word[0] != word[|word| - 1] || (forall c :: !PutsClash(a, b, c)) || (forall c :: !FillsClash(a, b, c)))
    {
      ExplainedExactly(a, b, word);
    }
    var again := [false, true, false];
    assert Mixed(again) by { assert again[0] == false && again[1] == true; }
    assert again[0] == again[|again| - 1];
  }

  // The same of schedules: any number of whole reads of two files.
  lemma {:induction false} NamesRead(logs: Logs, f: string, g: string, names: seq<string>, r: string) returns (word: seq<bool>)
    requires f in logs && g in logs && f != g && forall h :: h in names ==> h == f || h == g
    ensures Spells(names, f, word)
    ensures For(Flatten(Whole(logs, names)), r) == Reads(For(All(logs, f), r), For(All(logs, g), r), word)
    decreases |names|
  {
    word := [];
    if names != [] {
      assert names[0] in names && forall h :: h in names[1..] ==> h in names;
      var rest := NamesRead(logs, f, g, names[1..], r);
      word := [names[0] == f] + rest;
      assert word[1..] == rest;
      FlattenConcat(logs[names[0]], Whole(logs, names[1..]));
      ForConcat(All(logs, names[0]), Flatten(Whole(logs, names[1..])), r);
    }
  }

  function NamesOf(f: string, g: string, word: seq<bool>): seq<string> { seq(|word|, i requires 0 <= i < |word| => if word[i] then f else g) }

  ghost predicate ReadsBoth(f: string, g: string, names: seq<string>) {
    f in names && g in names && forall h :: h in names ==> h == f || h == g
  }

  ghost predicate Unexplained(logs: Logs, f: string, g: string, r: string, names: seq<string>)
    requires f in logs && g in logs && forall h :: h in names ==> h in logs
  {
    var e := EntryAfter(logs, ReadFiles(logs, names), r);
    e != Once(Whole(logs, [f, g]), r) && e != Once(Whole(logs, [g, f]), r)
  }

  ghost predicate Spells(names: seq<string>, f: string, word: seq<bool>) {
    |word| == |names| && forall i :: 0 <= i < |word| ==> word[i] == (names[i] == f)
  }

  lemma BothMixed(f: string, g: string, names: seq<string>, word: seq<bool>)
    requires f != g && ReadsBoth(f, g, names) && Spells(names, f, word)
    ensures Mixed(word)
  {
    var i :| 0 <= i < |names| && names[i] == f;
    var j :| 0 <= j < |names| && names[j] == g;
    assert word[i] && !word[j];
  }

  lemma OrderReads(logs: Logs, f: string, g: string, r: string)
    requires logs.Keys == {f, g} && f != g
    ensures var a, b := For(All(logs, f), r), For(All(logs, g), r);
            Once(Whole(logs, [f, g]), r) == After(a + b) && Once(Whole(logs, [g, f]), r) == After(b + a)
  {
    var fg := NamesRead(logs, f, g, [f, g], r);
    var gf := NamesRead(logs, f, g, [g, f], r);
    assert fg == [true, false] && gf == [false, true];
    TwoReads(For(All(logs, f), r), For(All(logs, g), r));
    hide For, Flatten, Whole, All;
  }

  lemma UnexplainedReads(logs: Logs, f: string, g: string, r: string, names: seq<string>) returns (word: seq<bool>)
    requires logs.Keys == {f, g} && f != g && ReadsBoth(f, g, names)
    ensures Spells(names, f, word) && Mixed(word)
    ensures Unexplained(logs, f, g, r, names) <==> !Explained(For(All(logs, f), r), For(All(logs, g), r), word)
  {
    word := NamesRead(logs, f, g, names, r);
    BothMixed(f, g, names, word);
    OrderFinishes(logs, names, r);
    OrderReads(logs, f, g, r);
    hide For, Flatten, Whole, Finished, EntryAfter, All, Mixed, Spells;
  }

  // When lost offsets make whole files be read again, some schedule leaves an entry that neither order
  // of the two files gives, exactly when they clash both on an overwritten and on a filled column.
  lemma UnexplainedSchedules(logs: Logs, f: string, g: string, r: string)
    requires logs.Keys == {f, g} && f != g && For(All(logs, f), r) != [] && For(All(logs, g), r) != []
    ensures var a, b := For(All(logs, f), r), For(All(logs, g), r);
            (exists names :: ReadsBoth(f, g, names) && Unexplained(logs, f, g, r, names))
            <==> (exists c :: PutsClash(a, b, c)) && (exists c :: FillsClash(a, b, c))
  {
    var a, b := For(All(logs, f), r), For(All(logs, g), r);
    StartsWithInsert(logs[f], r);
    StartsWithInsert(logs[g], r);
    UnexplainedExactly(a, b);
    hide Explained, PutsClash, FillsClash, Unexplained, For;
    if names :| ReadsBoth(f, g, names) && Unexplained(logs, f, g, r, names) {
      var word := UnexplainedReads(logs, f, g, r, names);
    }
    if word :| Mixed(word) && !Explained(a, b, word) {
      var names := NamesOf(f, g, word);
      NamesReadBoth(f, g, word);
      var same := UnexplainedReads(logs, f, g, r, names);
      assert same == word;
    }
  }

  lemma NamesReadBoth(f: string, g: string, word: seq<bool>)
    requires f != g && Mixed(word)
    ensures ReadsBoth(f, g, NamesOf(f, g, word))
  {
    var i :| 0 <= i < |word| && word[i];
    var j :| 0 <= j < |word| && !word[j];
    assert NamesOf(f, g, word)[i] == f && NamesOf(f, g, word)[j] == g;
  }

  // ---- a file interrupted at a stored offset ----

  function Interrupted(logs: Logs, f: string, g: string, k: nat): seq<Step>
    requires f in logs && g in logs && k <= |logs[f]|
  {
    EndsWithin(logs[f], 0);
    EndsWithin(logs[f], k);
    Scan(logs, f, 0, Ends(logs[f], k)) + ([Save(f, k)] + (ReadFile(logs, g) + Scan(logs, f, k, |All(logs, f)|)))
  }

  lemma SavedRun(logs: Logs, s: Sys, f: string, k: nat)
    requires f in logs && f in s.cursors && OffsetOf(s, f) <= k <= |logs[f]| && s.cursors[f] == Ends(logs[f], k)
    ensures Run(logs, s, [Save(f, k)]) == Some(s.(offsets := s.offsets[f := k]))
  {
    RunOne(logs, s, Save(f, k));
    hide Ends;
  }

  lemma RestOfFile(logs: Logs, s: Sys, f: string, k: nat, r: string)
    requires f in logs && OffsetOf(s, f) == k <= |logs[f]| && Ends(logs[f], k) <= |All(logs, f)|
    ensures var steps := Scan(logs, f, k, |All(logs, f)|);
            && Run(logs, s, steps).Some? && Run(logs, s, steps).value.cursors == s.cursors[f := |All(logs, f)|]
            && EntryOf(Run(logs, s, steps).value, r) == ExecuteAll(EntryOf(s, r), For(Flatten(logs[f][k..]), r))
  {
    var end, at := |All(logs, f)|, Ends(logs[f], k);
    SplitAt(logs[f], k);
    ScanRun(logs, s, f, k, end, r);
    hide Run, For, Flatten, ExecuteAll, Ends, Scan;
    assert All(logs, f)[at..end] == All(logs, f)[at..];
  }

  lemma HeadRun(logs: Logs, f: string, k: nat, r: string)
    requires f in logs && k <= |logs[f]|
    ensures Ends(logs[f], 0) == 0 <= Ends(logs[f], k) <= |All(logs, f)|
    ensures var steps := Scan(logs, f, 0, Ends(logs[f], k));
            && Run(logs, FRESH, steps).Some?
            && var s := Run(logs, FRESH, steps).value;
               s.offsets == map[] && s.cursors == map[f := Ends(logs[f], k)] && EntryOf(s, r) == After(For(Flatten(logs[f][..k]), r))
  {
    EndsWithin(logs[f], 0);
    EndsWithin(logs[f], k);
    HeadOfFile(logs[f], k);
    ScanRun(logs, FRESH, f, 0, Ends(logs[f], k), r);
    hide Run, For, Flatten, ExecuteAll, Ends, Scan;
  }

  // Then the lines of another file can come in between: this is how the columns come to have different
  // last writers, and why they are compared one by one.
  lemma InterruptedEntry(logs: Logs, f: string, g: string, k: nat, r: string)
    requires logs.Keys == {f, g} && f != g && k <= |logs[f]|
    ensures Finished(logs, Interrupted(logs, f, g, k), r)
    ensures EntryAfter(logs, Interrupted(logs, f, g, k), r)
            == After(For(Flatten(logs[f][..k]), r) + (For(All(logs, g), r) + For(Flatten(logs[f][k..]), r)))
  {
    var end, at := |All(logs, f)|, Ends(logs[f], k);
    HeadRun(logs, f, k, r);
    hide Run, Next, For, Flatten, ExecuteAll, Ends, Scan, ReadFile;
    var s1 := Run(logs, FRESH, Scan(logs, f, 0, at)).value;
    SavedRun(logs, s1, f, k);
    var s2 := s1.(offsets := s1.offsets[f := k]);
    ReadFileRun(logs, s2, g, r);
    var s3 := Run(logs, s2, ReadFile(logs, g)).value;
    RestOfFile(logs, s3, f, k, r);
    RunFour(logs, Scan(logs, f, 0, at), Save(f, k), ReadFile(logs, g), Scan(logs, f, k, end));
    var x, y, z := For(Flatten(logs[f][..k]), r), For(All(logs, g), r), For(Flatten(logs[f][k..]), r);
    ExecuteConcat(NO_ENTRY, x, y + z);
    ExecuteConcat(After(x), y, z);
  }

  lemma RunFour(logs: Logs, w: seq<Step>, step: Step, x: seq<Step>, y: seq<Step>)
    requires Run(logs, FRESH, w).Some?
    requires Run(logs, Run(logs, FRESH, w).value, [step]).Some?
    requires Run(logs, Run(logs, Run(logs, FRESH, w).value, [step]).value, x).Some?
    ensures Run(logs, FRESH, w + ([step] + (x + y)))
            == Run(logs, Run(logs, Run(logs, Run(logs, FRESH, w).value, [step]).value, x).value, y)
  {
    hide Run;
    var s1 := Run(logs, FRESH, w).value;
    var s2 := Run(logs, s1, [step]).value;
    RunConcat(logs, FRESH, w, [step] + (x + y));
    RunConcat(logs, s1, [step], x + y);
    RunConcat(logs, s2, x, y);
  }

  lemma HeadOfFile(lines: seq<Line>, k: nat)
    requires k <= |lines|
    ensures Ends(lines, k) <= |Flatten(lines)| && Flatten(lines)[0..Ends(lines, k)] == Flatten(lines[..k])
  {
    assert lines == lines[..k] + lines[k..];
    FlattenConcat(lines[..k], lines[k..]);
  }

  // ---- the lines the router writes ----

  // One line tells of the client's request, one of the request sent on, one of how it ended.
  datatype Kind = Shared | OfClient | OfRequest | OfEnd

  function KindOf(op: Op): Kind {
    match op
    case Insert(_) => Shared
    case ClientSession(_, _) => OfClient
    case StoreClientRequest(_) => OfClient
    case Request(_, _, _, _) => OfRequest
    case StoreRequest(_) => OfRequest
    case _ => OfEnd
  }

  // Each kind of line about `r` is in one file at most; which kinds share a file is left open.
  ghost predicate KindsApart(logs: Logs, r: string) {
    forall f, g, p, q | f in logs && g in logs && 0 <= p < |All(logs, f)| && 0 <= q < |All(logs, g)| ::
      (All(logs, f)[p].request == r && All(logs, g)[q].request == r
       && KindOf(All(logs, f)[p].op) == KindOf(All(logs, g)[q].op) != Shared) ==> f == g
  }

  // The kind of line that writes a column with a given strength.
  lemma KindDecides(a: Op, b: Op, c: Column)
    requires !c.Meta? && !c.Stored? && !Writes(a, c).Keep? && Writes(a, c).Rank() == Writes(b, c).Rank()
    ensures KindOf(a) == KindOf(b) != Shared
  {
  }

  lemma WriterOf(all: seq<Statement>, r: string, c: Column) returns (q: nat)
    requires !Sum(all, r, c).Keep?
    ensures q < |all| && all[q].request == r && Writes(all[q].op, c).Rank() == Sum(all, r, c).Rank()
    ensures !Writes(all[q].op, c).Keep?
  {
    SumRank(all, r, c);
    q :| 0 <= q < |all| && At(all, q, r, c).Rank() == Sum(all, r, c).Rank();
  }

  lemma StoredIsStored(ops: seq<Op>)
    ensures Total(ops, Stored) in {Keep, Put(Flag(Some(true)))}
  {
  }

  // So they agree on everything but the shared columns, which the first line read fills in: a request
  // that spans midnight is safe whatever the crashes and whatever the order.
  lemma RouterLinesAgree(logs: Logs, r: string, c: Column)
    requires KindsApart(logs, r) && !c.Meta?
    ensures Agree(logs, r, c)
  {
    forall f, g | Wins(logs, r, c, f) && Wins(logs, r, c, g) ensures Gives(logs, f, r, c) == Gives(logs, g, r, c) {
      WinnersRank(logs, r, c, f, g);
      if c.Stored? {
        StoredIsStored(For(All(logs, f), r));
        StoredIsStored(For(All(logs, g), r));
      } else {
        var p := WriterOf(All(logs, f), r, c);
        var q := WriterOf(All(logs, g), r, c);
        KindDecides(All(logs, f)[p].op, All(logs, g)[q].op, c);
      }
    }
  }

  // Nor do they clash on what is overwritten, so that reading whole files again is always explained.
  lemma RouterLinesDoNotClash(logs: Logs, f: string, g: string, r: string, c: Column)
    requires KindsApart(logs, r) && f in logs && g in logs && f != g
    ensures !PutsClash(For(All(logs, f), r), For(All(logs, g), r), c)
  {
    var a, b := For(All(logs, f), r), For(All(logs, g), r);
    StartsWithInsert(logs[f], r);
    ColumnsChangeByTotal(NO_ENTRY, a, c);
    StoredIsStored(a);
    StoredIsStored(b);
    if PutsClash(a, b, c) && !c.Stored? {
      var p := WriterOf(All(logs, f), r, c);
      var q := WriterOf(All(logs, g), r, c);
      KindDecides(All(logs, f)[p].op, All(logs, g)[q].op, c);
    }
  }

  // What is left to the order is whose line is read first.
  lemma SharedColumnsAreAFiles(logs: Logs, order: seq<string>, steps: seq<Step>, r: string)
    requires Enumerates(order, logs) && Finished(logs, steps, r) && EntryAfter(logs, steps, r).row.Some?
    ensures exists f :: f in logs && Cell(EntryAfter(logs, steps, r), Meta) == Cell(Once(logs[f], r), Meta)
  {
    var e := EntryAfterCell(logs, order, false, steps, r, Meta);
    OneFileDecides(logs, order, false, Run(logs, FRESH, steps).value, r, Meta, e);
    hide Finished, EntryAfter, Marked;
    assert !e.Keep?;
    var f :| f in logs && Wins(logs, r, Meta, f) && Gives(logs, f, r, Meta) == e;
    OnceCell(logs[f], r, Meta);
  }
}
