// Log files, and every schedule of scans, crashes and restarts while they are tailed.
module IngestSchedule {
  import opened Wrappers
  import opened IngestRows

  datatype Statement = Statement(request: string, op: Op)

  // The statements one log line issues: an insert first, all for one request.
  ghost predicate LineOk(line: seq<Statement>) {
    line != [] ==> line[0].op.Insert? && forall i :: 0 <= i < |line| ==> line[i].request == line[0].request
  }

  type Line = l: seq<Statement> | LineOk(l) ghost witness []

  function Flatten(lines: seq<Line>): seq<Statement>
    decreases |lines|
  {
    if lines == [] then [] else lines[0] + Flatten(lines[1..])
  }

  // Where the first `k` lines end.
  function Ends(lines: seq<Line>, k: nat): nat
    requires k <= |lines|
  {
    |Flatten(lines[..k])|
  }

  function For(statements: seq<Statement>, r: string): seq<Op>
    decreases |statements|
  {
    if statements == [] then []
    else (if statements[0].request == r then [statements[0].op] else []) + For(statements[1..], r)
  }

  lemma {:induction false} ForConcat(a: seq<Statement>, b: seq<Statement>, r: string)
    ensures For(a + b, r) == For(a, r) + For(b, r)
    decreases |a|
  {
    if a == [] {
      assert a + b == b;
    } else {
      assert (a + b)[0] == a[0] && (a + b)[1..] == a[1..] + b;
      ForConcat(a[1..], b, r);
      var head, rest, more := if a[0].request == r then [a[0].op] else [], For(a[1..], r), For(b, r);
      assert For(a, r) == head + rest && For(a + b, r) == head + (rest + more);
      hide For;
      Assoc(head, rest, more);
    }
  }

  lemma {:induction false} FlattenConcat(a: seq<Line>, b: seq<Line>)
    ensures Flatten(a + b) == Flatten(a) + Flatten(b)
    decreases |a|
  {
    if a == [] {
      assert a + b == b;
    } else {
      assert (a + b)[0] == a[0] && (a + b)[1..] == a[1..] + b;
      FlattenConcat(a[1..], b);
    }
  }

  // From the end of a line on, the statements are those of the later lines.
  lemma SplitAt(lines: seq<Line>, k: nat)
    requires k <= |lines|
    ensures Ends(lines, k) <= |Flatten(lines)| && Flatten(lines)[Ends(lines, k)..] == Flatten(lines[k..])
    ensures k == |lines| ==> Ends(lines, k) == |Flatten(lines)|
  {
    assert lines == lines[..k] + lines[k..];
    FlattenConcat(lines[..k], lines[k..]);
  }

  lemma {:induction false} ForOneRequest(statements: seq<Statement>, q: string, r: string)
    requires forall i :: 0 <= i < |statements| ==> statements[i].request == q
    ensures q != r ==> For(statements, r) == []
    ensures q == r && statements != [] ==> For(statements, r) != [] && For(statements, r)[0] == statements[0].op
    decreases |statements|
  {
    if statements != [] { ForOneRequest(statements[1..], q, r); }
  }

  // What a log says about a request begins with an insert.
  lemma {:induction false} StartsWithInsert(lines: seq<Line>, r: string)
    ensures var ops := For(Flatten(lines), r); ops == [] || ops[0].Insert?
    decreases |lines|
  {
    if lines != [] {
      var line, rest := lines[0], Flatten(lines[1..]);
      ForConcat(line, rest, r);
      if line != [] { ForOneRequest(line, line[0].request, r); }
      StartsWithInsert(lines[1..], r);
    }
  }

  // A statement that is no insert comes after one for the same request.
  lemma {:induction false} InsertBefore(lines: seq<Line>, q: nat) returns (p: nat)
    requires q < |Flatten(lines)| && !Flatten(lines)[q].op.Insert?
    ensures p < q && Flatten(lines)[p].op.Insert? && Flatten(lines)[p].request == Flatten(lines)[q].request
    decreases |lines|
  {
    var line := lines[0];
    if q < |line| {
      p := 0;
    } else {
      p := InsertBefore(lines[1..], q - |line|);
      p := p + |line|;
    }
  }

  // ---- the system ----

  // Entries and offsets are in the database; cursors live in the process and are lost in a crash.
  datatype Sys = Sys(entries: map<string, Entry>, offsets: map<string, nat>, cursors: map<string, nat>)

  const FRESH := Sys(map[], map[], map[])

  // A scan of a file begins at its stored offset, after a crash or not; then statements are executed
  // one by one, and at the end of a line the offset may be stored.
  datatype Step = Begin(file: string) | Apply(file: string) | Save(file: string, lines: nat)

  function EntryOf(s: Sys, r: string): Entry { if r in s.entries then s.entries[r] else NO_ENTRY }

  function OffsetOf(s: Sys, file: string): nat { if file in s.offsets then s.offsets[file] else 0 }

  function Next(logs: map<string, seq<Line>>, s: Sys, step: Step): Option<Sys> {
    if step.file !in logs then None
    else
      var lines := logs[step.file];
      match step
      case Begin(file) =>
        if OffsetOf(s, file) > |lines| then None
        else Some(s.(cursors := s.cursors[file := Ends(lines, OffsetOf(s, file))]))
      case Apply(file) =>
        if file !in s.cursors || s.cursors[file] >= |Flatten(lines)| then None
        else
          var statement := Flatten(lines)[s.cursors[file]];
          Some(s.(entries := s.entries[statement.request := Execute(EntryOf(s, statement.request), statement.op)],
                  cursors := s.cursors[file := s.cursors[file] + 1]))
      case Save(file, k) =>
        if file !in s.cursors || k > |lines| || k < OffsetOf(s, file) || s.cursors[file] != Ends(lines, k) then None
        else Some(s.(offsets := s.offsets[file := k]))
  }

  lemma ApplyNext(logs: map<string, seq<Line>>, s: Sys, file: string)
    requires file in logs && file in s.cursors && s.cursors[file] < |Flatten(logs[file])|
    ensures var statement := Flatten(logs[file])[s.cursors[file]];
            Next(logs, s, Apply(file))
            == Some(s.(entries := s.entries[statement.request := Execute(EntryOf(s, statement.request), statement.op)],
                       cursors := s.cursors[file := s.cursors[file] + 1]))
  {
    hide Flatten, Execute;
  }

  function Run(logs: map<string, seq<Line>>, s: Sys, steps: seq<Step>): Option<Sys>
    decreases |steps|
  {
    if steps == [] then Some(s)
    else match Next(logs, s, steps[0])
      case None => None
      case Some(t) => Run(logs, t, steps[1..])
  }

  lemma {:induction false} RunConcat(logs: map<string, seq<Line>>, s: Sys, x: seq<Step>, y: seq<Step>)
    requires Run(logs, s, x).Some?
    ensures Run(logs, s, x + y) == Run(logs, Run(logs, s, x).value, y)
    decreases |x|
  {
    hide Next;
    if x == [] {
      assert x + y == y;
    } else {
      assert (x + y)[0] == x[0] && (x + y)[1..] == x[1..] + y;
      RunConcat(logs, Next(logs, s, x[0]).value, x[1..], y);
    }
  }

  lemma RunOne(logs: map<string, seq<Line>>, s: Sys, step: Step)
    ensures Run(logs, s, [step]) == Next(logs, s, step)
  {
    hide Next;
    if Next(logs, s, step).Some? { assert Run(logs, Next(logs, s, step).value, [step][1..]) == Next(logs, s, step); }
  }

  lemma OneLine(line: Line)
    ensures Flatten([line]) == line && Ends([line], 0) == 0 && Ends([line], 1) == |line|
  {
    assert [line][1..] == [] && Flatten([line][1..]) == [];
    assert [line][..0] == [] && [line][..1] == [line];
    assert line + [] == line;
  }
}
