// Why replaying log files is harmless, and what the order in which they are read can change.
module IngestSafety {
  import opened Wrappers
  import opened IngestRows
  import opened IngestSchedule

  type Logs = map<string, seq<Line>>

  // The files of the directory, in the order of their names.
  ghost predicate Enumerates(order: seq<string>, logs: Logs) {
    && (forall f :: f in order <==> f in logs)
    && (forall i, j :: 0 <= i < j < |order| ==> order[i] != order[j])
  }

  ghost predicate Before(order: seq<string>, f: string, g: string) {
    exists i, j :: 0 <= i < j < |order| && order[i] == f && order[j] == g
  }

  // ---- what one file does to a column of an entry ----

  function All(logs: Logs, f: string): seq<Statement>
    requires f in logs
  {
    Flatten(logs[f])
  }

  function At(all: seq<Statement>, q: nat, r: string, c: Column): Change
    requires q < |all|
  {
    if all[q].request == r then Writes(all[q].op, c) else Keep
  }

  function Sum(all: seq<Statement>, r: string, c: Column): Change { Total(For(all, r), c) }

  lemma SumCons(all: seq<Statement>, r: string, c: Column)
    requires all != []
    ensures Sum(all, r, c) == At(all, 0, r, c).Then(Sum(all[1..], r, c))
  {
    var rest := For(all[1..], r);
    if all[0].request == r {
      assert For(all, r) == [all[0].op] + rest;
      assert ([all[0].op] + rest)[1..] == rest;
    } else {
      assert For(all, r) == rest;
    }
    hide For, Writes;
  }

  // The strongest statement decides.
  lemma {:induction false} SumRank(all: seq<Statement>, r: string, c: Column)
    ensures forall q :: 0 <= q < |all| ==> At(all, q, r, c).Rank() <= Sum(all, r, c).Rank()
    ensures Sum(all, r, c) == Keep || exists q :: 0 <= q < |all| && At(all, q, r, c).Rank() == Sum(all, r, c).Rank()
    decreases |all|
  {
    if all != [] {
      var rest := all[1..];
      SumCons(all, r, c);
      SumRank(rest, r, c);
      hide Sum, Writes;
      assert forall q :: 0 <= q < |rest| ==> At(rest, q, r, c) == At(all, q + 1, r, c);
      assert forall q :: 1 <= q < |all| ==> At(all, q, r, c) == At(rest, q - 1, r, c);
    }
  }

  // The last overwriting statement gives the value.
  lemma {:induction false} SumOfLastPut(all: seq<Statement>, r: string, c: Column, p: nat)
    requires p < |all| && At(all, p, r, c).Put? && forall q :: p < q < |all| ==> !At(all, q, r, c).Put?
    ensures Sum(all, r, c) == At(all, p, r, c)
    decreases |all|
  {
    var rest := all[1..];
    SumCons(all, r, c);
    SumRank(rest, r, c);
    hide Sum, Writes;
    assert forall q :: 0 <= q < |rest| ==> At(rest, q, r, c) == At(all, q + 1, r, c);
    if p > 0 { SumOfLastPut(rest, r, c, p - 1); }
  }

  // With none, the first filling one does.
  lemma {:induction false} SumOfFirstFill(all: seq<Statement>, r: string, c: Column, p: nat)
    requires p < |all| && At(all, p, r, c).Fill? && forall q :: 0 <= q < p ==> At(all, q, r, c).Keep?
    requires forall q :: 0 <= q < |all| ==> !At(all, q, r, c).Put?
    ensures Sum(all, r, c) == At(all, p, r, c)
    decreases |all|
  {
    var rest := all[1..];
    SumCons(all, r, c);
    SumRank(rest, r, c);
    hide Sum, Writes;
    assert forall q :: 0 <= q < |rest| ==> At(rest, q, r, c) == At(all, q + 1, r, c);
    if p > 0 { SumOfFirstFill(rest, r, c, p - 1); }
  }

  function Gives(logs: Logs, f: string, r: string, c: Column): Change
    requires f in logs
  {
    Sum(All(logs, f), r, c)
  }

  // ---- all files, one after the other ----

  function Whole(logs: Logs, order: seq<string>): seq<Line>
    requires forall f :: f in order ==> f in logs
    decreases |order|
  {
    if order == [] then [] else logs[order[0]] + Whole(logs, order[1..])
  }

  // The entry after each complete line has been applied once.
  function Once(lines: seq<Line>, r: string): Entry { ExecuteAll(NO_ENTRY, For(Flatten(lines), r)) }

  lemma OnceCell(lines: seq<Line>, r: string, c: Column)
    ensures Cell(Once(lines, r), c) == Sum(Flatten(lines), r, c).On(Cell(NO_ENTRY, c)) && Fits(c, Sum(Flatten(lines), r, c))
  {
    StartsWithInsert(lines, r);
    ColumnsChangeByTotal(NO_ENTRY, For(Flatten(lines), r), c);
  }

  lemma WholeCons(logs: Logs, order: seq<string>, r: string, c: Column)
    requires order != [] && forall f :: f in order ==> f in logs
    ensures Sum(Flatten(Whole(logs, order)), r, c)
            == Gives(logs, order[0], r, c).Then(Sum(Flatten(Whole(logs, order[1..])), r, c))
  {
    var rest := Whole(logs, order[1..]);
    FlattenConcat(logs[order[0]], rest);
    ForConcat(All(logs, order[0]), Flatten(rest), r);
    TotalConcat(For(All(logs, order[0]), r), For(Flatten(rest), r), c);
  }

  lemma {:induction false} WholeRank(logs: Logs, order: seq<string>, r: string, c: Column)
    requires forall f :: f in order ==> f in logs
    ensures forall f :: f in order ==> Gives(logs, f, r, c).Rank() <= Sum(Flatten(Whole(logs, order)), r, c).Rank()
    ensures Sum(Flatten(Whole(logs, order)), r, c) == Keep || exists f :: f in order && Gives(logs, f, r, c) == Sum(Flatten(Whole(logs, order)), r, c)
    decreases |order|
  {
    if order != [] {
      WholeCons(logs, order, r, c);
      hide Sum, Whole, Gives;
      WholeRank(logs, order[1..], r, c);
    } else {
      assert Whole(logs, order) == [] && For(Flatten([]), r) == [];
    }
  }

  lemma {:induction false} WholeOfLastPut(logs: Logs, order: seq<string>, r: string, c: Column, i: nat)
    requires (forall f :: f in order ==> f in logs) && i < |order| && Gives(logs, order[i], r, c).Put?
    requires forall j :: i < j < |order| ==> !Gives(logs, order[j], r, c).Put?
    ensures Sum(Flatten(Whole(logs, order)), r, c) == Gives(logs, order[i], r, c)
    decreases |order|
  {
    WholeCons(logs, order, r, c);
    hide Sum, Whole, Gives;
    if i > 0 {
      WholeOfLastPut(logs, order[1..], r, c, i - 1);
    } else {
      WholeRank(logs, order[1..], r, c);
      forall f | f in order[1..] ensures !Gives(logs, f, r, c).Put? {
        var j :| 0 <= j < |order[1..]| && order[1..][j] == f;
        assert order[j + 1] == f;
      }
    }
  }

  lemma {:induction false} WholeOfFirstFill(logs: Logs, order: seq<string>, r: string, c: Column, i: nat)
    requires (forall f :: f in order ==> f in logs) && i < |order| && Gives(logs, order[i], r, c).Fill?
    requires forall j :: 0 <= j < i ==> Gives(logs, order[j], r, c).Keep?
    requires forall f :: f in order ==> !Gives(logs, f, r, c).Put?
    ensures Sum(Flatten(Whole(logs, order)), r, c) == Gives(logs, order[i], r, c)
    decreases |order|
  {
    WholeCons(logs, order, r, c);
    hide Sum, Whole, Gives;
    WholeRank(logs, order[1..], r, c);
    if i > 0 { WholeOfFirstFill(logs, order[1..], r, c, i - 1); }
  }

  // ---- every schedule ----

  function Reached(s: Sys, f: string): nat { if f in s.cursors then s.cursors[f] else 0 }

  ghost predicate Sane(logs: Logs, s: Sys) {
    && (forall f :: f in s.cursors ==> f in logs && s.cursors[f] <= |All(logs, f)|)
    && (forall f :: f in s.offsets ==>
          && f in s.cursors && f in logs && s.offsets[f] <= |logs[f]|
          && Ends(logs[f], s.offsets[f]) <= s.cursors[f])
  }

  // A scan comes to a file when those before it have been read and their offsets stored.
  ghost predicate InTurn(logs: Logs, order: seq<string>, s: Sys) {
    forall f, g :: Before(order, f, g) && g in s.cursors && f in logs ==> OffsetOf(s, f) == |logs[f]|
  }

  ghost predicate StepInTurn(logs: Logs, order: seq<string>, s: Sys, step: Step) {
    step.Begin? ==> forall f :: Before(order, f, step.file) && f in logs ==> OffsetOf(s, f) == |logs[f]|
  }

  // Whatever has been executed is no stronger than what has been written.
  ghost predicate Heard(logs: Logs, s: Sys, r: string, c: Column, e: Change) {
    forall f, q :: f in logs && 0 <= q < |All(logs, f)| && q < Reached(s, f) ==> At(All(logs, f), q, r, c).Rank() <= e.Rank()
  }

  // `e` was written by statement `p` of `f`: no overwriting statement of `f` has been passed since, or no
  // statement of `f` before it fills. In turn, the same holds of later files, or of earlier ones.
  ghost predicate From(logs: Logs, order: seq<string>, turns: bool, s: Sys, r: string, c: Column, e: Change, f: string, p: nat) {
    && f in logs && p < |All(logs, f)| && At(All(logs, f), p, r, c) == e
    && (e.Put? ==> f in s.cursors && forall q :: p < q < Reached(s, f) && q < |All(logs, f)| ==> !At(All(logs, f), q, r, c).Put?)
    && (e.Fill? ==> forall q :: 0 <= q < p ==> At(All(logs, f), q, r, c).Keep?)
    && (turns && e.Put? ==> NoneLater(logs, order, s, r, c, f))
    && (turns && e.Fill? ==> NoneEarlier(logs, order, r, c, f))
  }

  ghost predicate NoneLater(logs: Logs, order: seq<string>, s: Sys, r: string, c: Column, f: string) {
    forall g, q :: Before(order, f, g) && g in logs && 0 <= q < |All(logs, g)| && q < Reached(s, g) ==> !At(All(logs, g), q, r, c).Put?
  }

  ghost predicate NoneEarlier(logs: Logs, order: seq<string>, r: string, c: Column, f: string) {
    forall g, q :: Before(order, g, f) && g in logs && 0 <= q < |All(logs, g)| ==> At(All(logs, g), q, r, c).Keep?
  }

  ghost predicate Marked(logs: Logs, order: seq<string>, turns: bool, s: Sys, r: string, c: Column, e: Change) {
    Heard(logs, s, r, c, e) && (e.Keep? || exists f, p :: From(logs, order, turns, s, r, c, e, f, p))
  }

  // `ops` is what has been executed for `r`, replays included.
  ghost predicate Tracked(logs: Logs, order: seq<string>, turns: bool, s: Sys, r: string, ops: seq<Op>) {
    && Sane(logs, s) && (turns ==> InTurn(logs, order, s))
    && EntryOf(s, r) == ExecuteAll(NO_ENTRY, ops) && (ops == [] || ops[0].Insert?)
    && forall c :: Marked(logs, order, turns, s, r, c, Total(ops, c))
  }

  lemma EndsWithin(lines: seq<Line>, k: nat)
    requires k <= |lines|
    ensures Ends(lines, k) <= |Flatten(lines)| && (k == 0 ==> Ends(lines, k) == 0) && (k == |lines| ==> Ends(lines, k) == |Flatten(lines)|)
  {
    SplitAt(lines, k);
    assert lines[..0] == [];
  }

  ghost predicate SaneAt(logs: Logs, s: Sys, f: string) {
    && (f in s.cursors ==> f in logs && s.cursors[f] <= |All(logs, f)|)
    && (f in s.offsets ==>
          f in s.cursors && f in logs && s.offsets[f] <= |logs[f]| && Ends(logs[f], s.offsets[f]) <= s.cursors[f])
  }

  lemma NextSaneAt(logs: Logs, s: Sys, step: Step)
    requires SaneAt(logs, s, step.file) && Next(logs, s, step).Some?
    ensures SaneAt(logs, Next(logs, s, step).value, step.file)
  {
    EndsWithin(logs[step.file], OffsetOf(s, step.file));
    hide Flatten, Ends;
  }

  lemma OtherFilesStay(logs: Logs, s: Sys, step: Step, f: string)
    requires Next(logs, s, step).Some? && f != step.file && SaneAt(logs, s, f)
    ensures SaneAt(logs, Next(logs, s, step).value, f)
  {
    hide Flatten, Ends, Execute;
  }

  lemma NextSane(logs: Logs, s: Sys, step: Step)
    requires Sane(logs, s) && Next(logs, s, step).Some?
    ensures Sane(logs, Next(logs, s, step).value)
  {
    var t := Next(logs, s, step).value;
    SaneEverywhere(logs, s);
    hide Next, Sane, SaneAt;
    forall f ensures SaneAt(logs, t, f) {
      if f == step.file { NextSaneAt(logs, s, step); } else { OtherFilesStay(logs, s, step, f); }
    }
    SaneEverywhere(logs, t);
  }

  lemma SaneEverywhere(logs: Logs, s: Sys)
    ensures Sane(logs, s) <==> forall f :: SaneAt(logs, s, f)
  {
    hide All, Ends;
    if forall f :: SaneAt(logs, s, f) {
      forall f | f in s.cursors ensures f in logs && s.cursors[f] <= |All(logs, f)| { assert SaneAt(logs, s, f); }
      forall f | f in s.offsets
        ensures f in s.cursors && f in logs && s.offsets[f] <= |logs[f]| && Ends(logs[f], s.offsets[f]) <= s.cursors[f]
      {
        assert SaneAt(logs, s, f);
      }
    }
  }

  lemma NextInTurn(logs: Logs, order: seq<string>, s: Sys, step: Step)
    requires Sane(logs, s) && InTurn(logs, order, s) && Next(logs, s, step).Some? && StepInTurn(logs, order, s, step)
    ensures InTurn(logs, order, Next(logs, s, step).value)
  {
    hide Flatten, Ends, Before;
  }

  ghost predicate ReachesLess(t: Sys, s: Sys) {
    forall f :: Reached(t, f) <= Reached(s, f) && (f in s.cursors ==> f in t.cursors)
  }

  lemma FromLess(logs: Logs, order: seq<string>, turns: bool, s: Sys, t: Sys, r: string, c: Column, e: Change, f: string, p: nat)
    requires From(logs, order, turns, s, r, c, e, f, p) && ReachesLess(t, s)
    ensures From(logs, order, turns, t, r, c, e, f, p)
  {
    hide Before, At, All, Reached;
  }

  // Nothing is forgotten when less has been reached.
  lemma MarksStay(logs: Logs, order: seq<string>, turns: bool, s: Sys, t: Sys, r: string, c: Column, e: Change)
    requires Marked(logs, order, turns, s, r, c, e) && ReachesLess(t, s)
    ensures Marked(logs, order, turns, t, r, c, e)
  {
    assert Heard(logs, t, r, c, e) by { hide At, All, Reached, From; }
    hide Heard, From, ReachesLess;
    if !e.Keep? {
      var f, p :| From(logs, order, turns, s, r, c, e, f, p);
      FromLess(logs, order, turns, s, t, r, c, e, f, p);
    }
  }

  // A restart goes back to a stored offset, and no further than had been read.
  lemma BeginReaches(logs: Logs, s: Sys, step: Step)
    requires Sane(logs, s) && Next(logs, s, step).Some? && !step.Apply?
    ensures ReachesLess(Next(logs, s, step).value, s)
  {
    EndsWithin(logs[step.file], 0);
    hide Flatten, Ends;
  }

  lemma StrongerStays(a: Change, b: Change)
    ensures a.Then(b).Rank() >= a.Rank() && a.Then(b).Rank() >= b.Rank()
    ensures a.Then(b) == (if b.Put? || (a.Keep? && b.Fill?) then b else a)
  {
  }

  // The file being read has not been finished, so in turn none after it has begun.
  lemma NoneBegunLater(logs: Logs, order: seq<string>, s: Sys, f: string)
    requires Sane(logs, s) && InTurn(logs, order, s) && f in s.cursors && s.cursors[f] < |All(logs, f)|
    ensures forall g :: Before(order, f, g) ==> g !in s.cursors
    ensures forall g :: Before(order, g, f) && g in logs ==> Reached(s, g) == |All(logs, g)|
  {
    EndsWithin(logs[f], OffsetOf(s, f));
    assert OffsetOf(s, f) != |logs[f]|;
    forall g | Before(order, g, f) && g in logs ensures Reached(s, g) == |All(logs, g)| {
      EndsWithin(logs[g], OffsetOf(s, g));
    }
  }

  lemma HeardNext(logs: Logs, s: Sys, t: Sys, f: string, r: string, c: Column, e: Change, next: Change)
    requires Heard(logs, s, r, c, e) && f in logs && Reached(s, f) < |All(logs, f)| && e.Rank() <= next.Rank()
    requires At(All(logs, f), Reached(s, f), r, c).Rank() <= next.Rank()
    requires Reached(t, f) == Reached(s, f) + 1 && forall g :: g != f ==> Reached(t, g) == Reached(s, g)
    ensures Heard(logs, t, r, c, next)
  {
    hide At, All, Reached, Change.Rank;
  }

  // The statement just executed is the one that counts.
  lemma FromNew(logs: Logs, order: seq<string>, turns: bool, s: Sys, t: Sys, f: string, r: string, c: Column, e: Change)
    requires Heard(logs, s, r, c, e) && f in logs && f in t.cursors && Reached(s, f) < |All(logs, f)|
    requires Reached(t, f) == Reached(s, f) + 1 && forall g :: g != f ==> Reached(t, g) == Reached(s, g)
    requires turns ==> forall g :: Before(order, f, g) ==> g !in s.cursors && g != f
    requires turns ==> forall g :: Before(order, g, f) && g in logs ==> Reached(s, g) == |All(logs, g)|
    requires var w := At(All(logs, f), Reached(s, f), r, c); w.Put? || (e.Keep? && w.Fill?)
    ensures From(logs, order, turns, t, r, c, At(All(logs, f), Reached(s, f), r, c), f, Reached(s, f))
  {
    hide At, All, Before;
  }

  // An earlier one still does.
  lemma FromOld(logs: Logs, order: seq<string>, turns: bool, s: Sys, t: Sys, f: string, r: string, c: Column, e: Change, g: string, p: nat)
    requires From(logs, order, turns, s, r, c, e, g, p) && f in logs && Reached(s, f) < |All(logs, f)|
    requires forall h :: h in s.cursors ==> h in t.cursors
    requires Reached(t, f) == Reached(s, f) + 1 && forall h :: h != f ==> Reached(t, h) == Reached(s, h)
    requires !At(All(logs, f), Reached(s, f), r, c).Put?
    ensures From(logs, order, turns, t, r, c, e, g, p)
  {
    hide At, All, Before, Reached;
  }

  lemma NotBefore(order: seq<string>, f: string)
    requires forall i, j :: 0 <= i < j < |order| ==> order[i] != order[j]
    ensures !Before(order, f, f)
  {
  }

  lemma ApplyReaches(logs: Logs, s: Sys, f: string)
    requires Next(logs, s, Apply(f)).Some?
    ensures var t := Next(logs, s, Apply(f)).value;
            && f in s.cursors && Reached(s, f) == s.cursors[f] < |All(logs, f)| && t.cursors.Keys == s.cursors.Keys
            && Reached(t, f) == Reached(s, f) + 1 && forall g :: g != f ==> Reached(t, g) == Reached(s, g)
  {
    hide Flatten;
  }

  // One statement more.
  lemma ApplyMarks(logs: Logs, order: seq<string>, turns: bool, s: Sys, f: string, r: string, c: Column, e: Change)
    requires Enumerates(order, logs) && Sane(logs, s) && (turns ==> InTurn(logs, order, s)) && f in logs
    requires Next(logs, s, Apply(f)).Some? && Marked(logs, order, turns, s, r, c, e)
    ensures f in s.cursors && s.cursors[f] < |All(logs, f)|
    ensures Marked(logs, order, turns, Next(logs, s, Apply(f)).value, r, c, e.Then(At(All(logs, f), s.cursors[f], r, c)))
  {
    ApplyReaches(logs, s, f);
    var t, q := Next(logs, s, Apply(f)).value, s.cursors[f];
    var w := At(All(logs, f), q, r, c);
    StrongerStays(e, w);
    NotBefore(order, f);
    if turns { NoneBegunLater(logs, order, s, f); }
    hide Next, Before, At, All, Change.Then, InTurn, Sane, Enumerates, Reached, Change.Rank, From, Heard;
    HeardNext(logs, s, t, f, r, c, e, e.Then(w));
    if w.Put? || (e.Keep? && w.Fill?) {
      FromNew(logs, order, turns, s, t, f, r, c, e);
    } else if !e.Keep? {
      var g, p :| From(logs, order, turns, s, r, c, e, g, p);
      FromOld(logs, order, turns, s, t, f, r, c, e, g, p);
    }
  }

  lemma HistorySnoc(ops: seq<Op>, op: Op, c: Column)
    ensures Total(ops + [op], c) == Total(ops, c).Then(Writes(op, c))
    ensures ExecuteAll(NO_ENTRY, ops + [op]) == Execute(ExecuteAll(NO_ENTRY, ops), op)
  {
    TotalConcat(ops, [op], c);
    ExecuteConcat(NO_ENTRY, ops, [op]);
    assert [op][1..] == [] && Total([op][1..], c) == Keep;
    assert ExecuteAll(Execute(ExecuteAll(NO_ENTRY, ops), op), [op][1..]) == Execute(ExecuteAll(NO_ENTRY, ops), op);
    hide Writes, Execute;
  }

  // No update comes before the insert of its line.
  lemma FirstIsInsert(logs: Logs, order: seq<string>, turns: bool, s: Sys, f: string, r: string)
    requires Tracked(logs, order, turns, s, r, []) && f in s.cursors && s.cursors[f] < |All(logs, f)|
    requires All(logs, f)[s.cursors[f]].request == r
    ensures All(logs, f)[s.cursors[f]].op.Insert?
  {
    var q := s.cursors[f];
    assert Marked(logs, order, turns, s, r, Meta, Total([], Meta));
    assert forall p :: 0 <= p < q ==> At(All(logs, f), p, r, Meta).Keep?;
    forall p | 0 <= p < q && All(logs, f)[p].request == r ensures !All(logs, f)[p].op.Insert? {
      assert At(All(logs, f), p, r, Meta).Keep?;
    }
    if !All(logs, f)[q].op.Insert? {
      var p := InsertBefore(logs[f], q);
      assert false;
    }
  }

  function Executed(logs: Logs, s: Sys, step: Step, r: string): seq<Op>
    requires Next(logs, s, step).Some?
  {
    if step.Apply? && All(logs, step.file)[s.cursors[step.file]].request == r then [All(logs, step.file)[s.cursors[step.file]].op] else []
  }

  lemma ApplyKeeps(logs: Logs, order: seq<string>, turns: bool, s: Sys, f: string, r: string, ops: seq<Op>)
    requires Enumerates(order, logs) && Tracked(logs, order, turns, s, r, ops) && Next(logs, s, Apply(f)).Some?
    ensures Tracked(logs, order, turns, Next(logs, s, Apply(f)).value, r, ops + Executed(logs, s, Apply(f), r))
  {
    var t, done := Next(logs, s, Apply(f)).value, Executed(logs, s, Apply(f), r);
    var statement := All(logs, f)[s.cursors[f]];
    NextSane(logs, s, Apply(f));
    if turns { NextInTurn(logs, order, s, Apply(f)); }
    if ops == [] && statement.request == r { FirstIsInsert(logs, order, turns, s, f, r); }
    assert EntryOf(t, r) == if statement.request == r then Execute(EntryOf(s, r), statement.op) else EntryOf(s, r);
    forall c ensures Marked(logs, order, turns, t, r, c, Total(ops + done, c)) {
      ApplyMarks(logs, order, turns, s, f, r, c, Total(ops, c));
      hide Marked, Sane, InTurn, Execute, Writes;
      if statement.request == r {
        HistorySnoc(ops, statement.op, c);
      } else {
        assert ops + [] == ops;
      }
    }
    hide Sane, InTurn, Marked, Execute, Next, Total;
    if statement.request == r {
      HistorySnoc(ops, statement.op, Meta);
    } else {
      assert ops + [] == ops;
    }
  }

  lemma StepKeeps(logs: Logs, order: seq<string>, turns: bool, s: Sys, step: Step, r: string, ops: seq<Op>)
    requires Enumerates(order, logs) && Tracked(logs, order, turns, s, r, ops) && Next(logs, s, step).Some?
    requires turns ==> StepInTurn(logs, order, s, step)
    ensures Tracked(logs, order, turns, Next(logs, s, step).value, r, ops + Executed(logs, s, step, r))
  {
    if step.Apply? {
      ApplyKeeps(logs, order, turns, s, step.file, r, ops);
    } else {
      var t := Next(logs, s, step).value;
      NextSane(logs, s, step);
      if turns { NextInTurn(logs, order, s, step); }
      BeginReaches(logs, s, step);
      assert EntryOf(t, r) == EntryOf(s, r) && ops + [] == ops;
      hide Sane, InTurn, Marked, Next, ReachesLess, Total, ExecuteAll;
      forall c ensures Marked(logs, order, turns, t, r, c, Total(ops, c)) {
        MarksStay(logs, order, turns, s, t, r, c, Total(ops, c));
      }
    }
  }

  ghost predicate AllInTurn(logs: Logs, order: seq<string>, s: Sys, steps: seq<Step>)
    decreases |steps|
  {
    steps != [] && Next(logs, s, steps[0]).Some? ==>
      StepInTurn(logs, order, s, steps[0]) && AllInTurn(logs, order, Next(logs, s, steps[0]).value, steps[1..])
  }

  lemma {:induction false} InTurnSnoc(logs: Logs, order: seq<string>, s: Sys, steps: seq<Step>, step: Step)
    requires Run(logs, s, steps).Some? && AllInTurn(logs, order, s, steps)
    ensures AllInTurn(logs, order, s, steps + [step]) <==>
            (Next(logs, Run(logs, s, steps).value, step).Some? ==> StepInTurn(logs, order, Run(logs, s, steps).value, step))
    decreases |steps|
  {
    hide Next, StepInTurn;
    if steps == [] {
      assert steps + [step] == [step] && [step][1..] == [];
    } else {
      assert (steps + [step])[0] == steps[0] && (steps + [step])[1..] == steps[1..] + [step];
      InTurnSnoc(logs, order, Next(logs, s, steps[0]).value, steps[1..], step);
    }
  }

  lemma {:induction false} RunKeeps(logs: Logs, order: seq<string>, turns: bool, s: Sys, steps: seq<Step>, r: string, ops: seq<Op>)
    returns (all: seq<Op>)
    requires Enumerates(order, logs) && Tracked(logs, order, turns, s, r, ops) && Run(logs, s, steps).Some?
    requires turns ==> AllInTurn(logs, order, s, steps)
    ensures Tracked(logs, order, turns, Run(logs, s, steps).value, r, all)
    decreases |steps|
  {
    all := ops;
    if steps != [] {
      hide Tracked, Next, StepInTurn, Enumerates;
      StepKeeps(logs, order, turns, s, steps[0], r, ops);
      all := RunKeeps(logs, order, turns, Next(logs, s, steps[0]).value, steps[1..], r, ops + Executed(logs, s, steps[0], r));
    }
  }

  lemma StartTracked(logs: Logs, order: seq<string>, turns: bool, r: string)
    ensures Tracked(logs, order, turns, FRESH, r, [])
  {
  }

  // ---- what a finished schedule leaves ----

  // Every file that says something about `r` has been read to its end, however often it was begun.
  ghost predicate ReadToEnd(logs: Logs, s: Sys, r: string) {
    forall f :: f in logs && For(All(logs, f), r) != [] ==> f in s.cursors && s.cursors[f] == |All(logs, f)|
  }

  // No file writes the column more strongly.
  ghost predicate Wins(logs: Logs, r: string, c: Column, f: string) {
    f in logs && !Gives(logs, f, r, c).Keep? && forall g :: g in logs ==> Gives(logs, g, r, c).Rank() <= Gives(logs, f, r, c).Rank()
  }

  // All files that could decide the column agree on it.
  ghost predicate Agree(logs: Logs, r: string, c: Column) {
    forall f, g :: Wins(logs, r, c, f) && Wins(logs, r, c, g) ==> Gives(logs, f, r, c) == Gives(logs, g, r, c)
  }

  lemma {:induction false} SilentFile(all: seq<Statement>, q: nat, r: string, c: Column)
    requires q < |all| && For(all, r) == []
    ensures At(all, q, r, c).Keep?
    decreases |all|
  {
    if q > 0 { SilentFile(all[1..], q - 1, r, c); }
  }

  // Everything about `r` has been executed.
  lemma HeardAll(logs: Logs, s: Sys, r: string, c: Column, e: Change, f: string)
    requires Heard(logs, s, r, c, e) && ReadToEnd(logs, s, r) && f in logs
    ensures Gives(logs, f, r, c).Rank() <= e.Rank()
    ensures forall q :: 0 <= q < |All(logs, f)| ==> At(All(logs, f), q, r, c).Rank() <= e.Rank()
  {
    var all := All(logs, f);
    SumRank(all, r, c);
    forall q | 0 <= q < |all| ensures At(all, q, r, c).Rank() <= e.Rank() {
      if For(all, r) == [] { SilentFile(all, q, r, c); } else { assert q < Reached(s, f); }
    }
  }

  lemma FromDecides(logs: Logs, order: seq<string>, turns: bool, s: Sys, r: string, c: Column, e: Change, f: string, p: nat)
    requires Heard(logs, s, r, c, e) && ReadToEnd(logs, s, r) && !e.Keep? && From(logs, order, turns, s, r, c, e, f, p)
    ensures Gives(logs, f, r, c) == e && Wins(logs, r, c, f)
  {
    var all := All(logs, f);
    HeardAll(logs, s, r, c, e, f);
    if For(all, r) == [] { SilentFile(all, p, r, c); }
    assert Reached(s, f) == |all|;
    if e.Put? {
      SumOfLastPut(all, r, c, p);
    } else {
      SumOfFirstFill(all, r, c, p);
    }
    hide Heard, From, At, All, ReadToEnd;
    forall g | g in logs ensures Gives(logs, g, r, c).Rank() <= e.Rank() { HeardAll(logs, s, r, c, e, g); }
  }

  // A finished schedule leaves in each column what one of the deciding files puts there.
  lemma OneFileDecides(logs: Logs, order: seq<string>, turns: bool, s: Sys, r: string, c: Column, e: Change)
    requires Marked(logs, order, turns, s, r, c, e) && ReadToEnd(logs, s, r)
    ensures forall f :: f in logs ==> Gives(logs, f, r, c).Rank() <= e.Rank()
    ensures e.Keep? || exists f :: Wins(logs, r, c, f) && Gives(logs, f, r, c) == e
  {
    forall f | f in logs ensures Gives(logs, f, r, c).Rank() <= e.Rank() { HeardAll(logs, s, r, c, e, f); }
    if !e.Keep? {
      var f, p :| From(logs, order, turns, s, r, c, e, f, p);
      hide Gives, Wins, From, Heard;
      FromDecides(logs, order, turns, s, r, c, e, f, p);
    }
  }

  // So does the concatenation.
  lemma OneFileDecidesWhole(logs: Logs, order: seq<string>, r: string, c: Column)
    requires Enumerates(order, logs)
    ensures var e := Sum(Flatten(Whole(logs, order)), r, c);
            && (forall f :: f in logs ==> Gives(logs, f, r, c).Rank() <= e.Rank())
            && (e.Keep? || exists f :: Wins(logs, r, c, f) && Gives(logs, f, r, c) == e)
  {
    WholeRank(logs, order, r, c);
    hide Gives, Sum, Whole, Flatten;
    var e := Sum(Flatten(Whole(logs, order)), r, c);
    if !e.Keep? {
      var f :| f in order && Gives(logs, f, r, c) == e;
      assert Wins(logs, r, c, f);
    }
  }

  lemma LastPutInTurn(logs: Logs, order: seq<string>, s: Sys, r: string, c: Column, e: Change, f: string, p: nat)
    requires Enumerates(order, logs) && Heard(logs, s, r, c, e) && ReadToEnd(logs, s, r) && e.Put?
    requires From(logs, order, true, s, r, c, e, f, p)
    ensures e == Sum(Flatten(Whole(logs, order)), r, c)
  {
    FromDecides(logs, order, true, s, r, c, e, f, p);
    var i :| 0 <= i < |order| && order[i] == f;
    hide Sum, Whole, Flatten, Heard, Gives, From;
    forall j | i < j < |order| ensures !Gives(logs, order[j], r, c).Put? {
      LaterGivesNone(logs, order, s, r, c, e, f, p, order[j]);
    }
    WholeOfLastPut(logs, order, r, c, i);
  }

  lemma FirstFillInTurn(logs: Logs, order: seq<string>, s: Sys, r: string, c: Column, e: Change, f: string, p: nat)
    requires Enumerates(order, logs) && Heard(logs, s, r, c, e) && ReadToEnd(logs, s, r) && e.Fill?
    requires From(logs, order, true, s, r, c, e, f, p)
    ensures e == Sum(Flatten(Whole(logs, order)), r, c)
  {
    FromDecides(logs, order, true, s, r, c, e, f, p);
    var i :| 0 <= i < |order| && order[i] == f;
    hide Sum, Whole, Flatten, Heard, Gives, From;
    forall j | 0 <= j < i ensures Gives(logs, order[j], r, c).Keep? {
      EarlierGivesNone(logs, order, s, r, c, e, f, p, order[j]);
    }
    WholeOfFirstFill(logs, order, r, c, i);
  }

  // In turn, it is the very file that decides the concatenation.
  lemma InTurnDecides(logs: Logs, order: seq<string>, s: Sys, r: string, c: Column, e: Change)
    requires Enumerates(order, logs) && Marked(logs, order, true, s, r, c, e) && ReadToEnd(logs, s, r)
    ensures e == Sum(Flatten(Whole(logs, order)), r, c)
  {
    if e.Keep? {
      OneFileDecides(logs, order, true, s, r, c, e);
      OneFileDecidesWhole(logs, order, r, c);
    } else {
      var f, p :| From(logs, order, true, s, r, c, e, f, p);
      hide Sum, Whole, Flatten, Gives, From;
      if e.Put? {
        LastPutInTurn(logs, order, s, r, c, e, f, p);
      } else {
        FirstFillInTurn(logs, order, s, r, c, e, f, p);
      }
    }
  }

  lemma LaterGivesNone(logs: Logs, order: seq<string>, s: Sys, r: string, c: Column, e: Change, f: string, p: nat, g: string)
    requires From(logs, order, true, s, r, c, e, f, p) && e.Put? && Before(order, f, g) && g in logs && ReadToEnd(logs, s, r)
    ensures !Gives(logs, g, r, c).Put?
  {
    var all := All(logs, g);
    SumRank(all, r, c);
    forall q | 0 <= q < |all| ensures !At(all, q, r, c).Put? {
      if For(all, r) == [] { SilentFile(all, q, r, c); } else { assert q < Reached(s, g); }
    }
  }

  lemma EarlierGivesNone(logs: Logs, order: seq<string>, s: Sys, r: string, c: Column, e: Change, f: string, p: nat, g: string)
    requires From(logs, order, true, s, r, c, e, f, p) && e.Fill? && Before(order, g, f) && g in logs
    ensures Gives(logs, g, r, c).Keep?
  {
    SumRank(All(logs, g), r, c);
  }

  // ---- the theorems ----

  function EntryAfter(logs: Logs, steps: seq<Step>, r: string): Entry {
    match Run(logs, FRESH, steps)
    case None => NO_ENTRY
    case Some(s) => EntryOf(s, r)
  }

  ghost predicate Finished(logs: Logs, steps: seq<Step>, r: string) {
    Run(logs, FRESH, steps).Some? && ReadToEnd(logs, Run(logs, FRESH, steps).value, r)
  }

  lemma EntryAfterCell(logs: Logs, order: seq<string>, turns: bool, steps: seq<Step>, r: string, c: Column) returns (e: Change)
    requires Enumerates(order, logs) && Finished(logs, steps, r) && (turns ==> AllInTurn(logs, order, FRESH, steps))
    ensures Marked(logs, order, turns, Run(logs, FRESH, steps).value, r, c, e)
    ensures Cell(EntryAfter(logs, steps, r), c) == e.On(Cell(NO_ENTRY, c)) && Fits(c, e)
  {
    StartTracked(logs, order, turns, r);
    var ops := RunKeeps(logs, order, turns, FRESH, steps, r, []);
    hide Marked, Sane, InTurn, Cell, Enumerates, AllInTurn, ReadToEnd;
    e := Total(ops, c);
    ColumnsChangeByTotal(NO_ENTRY, ops, c);
  }

  // Whatever the crashes and the order of the scans, once every file that mentions a request has been
  // read to its end, each column on which the files agree is as if every complete line had been applied
  // exactly once, file after file. A request in one file has nothing to disagree on.
  lemma CrashSafe(logs: Logs, order: seq<string>, steps: seq<Step>, r: string, c: Column)
    requires Enumerates(order, logs) && Finished(logs, steps, r) && Agree(logs, r, c)
    ensures Cell(EntryAfter(logs, steps, r), c) == Cell(Once(Whole(logs, order), r), c)
  {
    var e := EntryAfterCell(logs, order, false, steps, r, c);
    OnceCell(Whole(logs, order), r, c);
    OneFileDecides(logs, order, false, Run(logs, FRESH, steps).value, r, c, e);
    OneFileDecidesWhole(logs, order, r, c);
    hide Gives, Sum, Whole, Flatten, Wins, Marked, Cell, Finished, Enumerates;
    assert e == Sum(Flatten(Whole(logs, order)), r, c);
  }

  // In the order of their names, a file begun only when those before it are behind it, every request
  // stands so in every column, wherever its lines are.
  lemma ScansInTurnAreSafe(logs: Logs, order: seq<string>, steps: seq<Step>, r: string)
    requires Enumerates(order, logs) && Finished(logs, steps, r) && AllInTurn(logs, order, FRESH, steps)
    ensures EntryAfter(logs, steps, r) == Once(Whole(logs, order), r)
  {
    forall c ensures Cell(EntryAfter(logs, steps, r), c) == Cell(Once(Whole(logs, order), r), c) {
      var e := EntryAfterCell(logs, order, true, steps, r, c);
      OnceCell(Whole(logs, order), r, c);
      InTurnDecides(logs, order, Run(logs, FRESH, steps).value, r, c, e);
    }
    hide Cell, EntryAfter, Once;
    CellsDetermine(EntryAfter(logs, steps, r), Once(Whole(logs, order), r));
  }
}
