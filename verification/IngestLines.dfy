// What a log line puts into its columns, and what the lines of a log leave there.
module IngestLines {
  import opened Wrappers
  import opened IngestRows
  import opened IngestSchedule
  import opened IngestSafety
  import opened IngestLog
  import opened Ingest

  // ---- one line ----

  // What a line does to a column, told from the line alone.
  function LineSays(e: LogEntry, c: Column): Change {
    if e.event == "client_request" then
      match c
      case Meta => Fill(e.meta)
      case SessionKey => if e.clientKey.Some? then Put(Text(e.clientKey)) else Keep
      case SessionHint => if e.clientHint.Some? then Put(Text(e.clientHint)) else Keep
      case Stored => Put(Flag(Some(true)))
      case ClientRequestBody => Put(Text(e.body))
      case _ => Keep
    else if e.event == "model_request" then
      match c
      case Meta => Fill(e.meta)
      case ReqBytes => Put(Number(e.bytes))
      case ReqTruncated => Put(Flag(e.truncated))
      case SessionKey => if e.sessionKey.Some? then Fill(e.sessionKey.value) else Keep
      case SessionHint => if e.sessionHint.Some? then Fill(e.sessionHint.value) else Keep
      case Stored => Put(Flag(Some(true)))
      case RequestBody => Put(Text(e.body))
      case _ => Keep
    else if e.event == "model_response" then
      var ok := 200 <= e.status < 300;
      match c
      case Meta => Fill(e.meta)
      case Outcome => Put(Text(Some(if ok then "ok" else "http_error")))
      case Duration => Put(Number(e.duration))
      case Error => Put(Text(e.readError))
      case Answer =>
        Put(Columns(ResponseColumns(Some(e.status), e.complete, e.protocolComplete, e.bytes, e.truncated,
                                    if ok then e.derived.columns else None)))
      case Stored => Put(Flag(Some(true)))
      case ResponseHeaders => Put(Text(e.headers))
      case ResponseBody => Put(Text(e.body))
      case Aggregate => Put(Text(if ok then e.derived.aggregate else None))
      case AnthropicBody => Put(Text(if ok then e.derived.anthropic else None))
      case _ => Keep
    else if e.event == "model_cancelled" then
      match c
      case Meta => Fill(e.meta)
      case Outcome => Put(Text(Some("cancelled")))
      case Duration => Put(Number(e.duration))
      case CancelStage => Put(Text(e.stage))
      case Error => Put(Text(None))
      case _ => Keep
    else if e.event == "model_transport_error" then
      match c
      case Meta => Fill(e.meta)
      case Outcome => Put(Text(Some("transport_error")))
      case Duration => Put(Number(e.duration))
      case CancelStage => Put(Text(None))
      case Error => Put(Text(e.transportError))
      case _ => Keep
    else if c.Meta? then Fill(e.meta) else Keep
  }

  // The entry of a request after one line about it.
  function AfterLine(before: Entry, e: LogEntry): Entry
    requires e.request.Some?
  {
    ExecuteAll(before, For(EntryStatements(e), e.request.value))
  }

  lemma {:induction false} ForAll(r: string, ops: seq<Op>)
    ensures For(ForRequest(r, ops), r) == ops
    decreases |ops|
  {
    if ops != [] {
      assert ForRequest(r, ops)[1..] == ForRequest(r, ops[1..]);
      ForAll(r, ops[1..]);
      assert ops == [ops[0]] + ops[1..];
    }
  }

  lemma LineOps(e: LogEntry)
    requires e.request.Some?
    ensures For(EntryStatements(e), e.request.value) == [Insert(e.meta)] + EventOps(e)
  {
    var r := e.request.value;
    ForAll(r, EventOps(e));
    ForConcat([Statement(r, Insert(e.meta))], ForRequest(r, EventOps(e)), r);
    assert [Statement(r, Insert(e.meta))][1..] == [];
    hide EventOps, ForRequest;
    assert For([Statement(r, Insert(e.meta))], r) == [Insert(e.meta)] + For([], r);
  }

  lemma TotalOfOne(op: Op, c: Column)
    ensures Total([op], c) == Writes(op, c)
  {
    hide Writes;
    assert [op][1..] == [];
    assert Writes(op, c).Then(Keep) == Writes(op, c);
  }

  // The statements of a line, taken together, do to each column what the line says.
  lemma LineTotal(e: LogEntry, c: Column)
    ensures Total([Insert(e.meta)] + EventOps(e), c) == LineSays(e, c)
  {
    TotalConcat([Insert(e.meta)], EventOps(e), c);
    TotalOfOne(Insert(e.meta), c);
    EventTotal(e, c);
    hide EventOps, Total;
  }

  lemma TotalOfTwo(a: Op, b: Op, c: Column)
    ensures Total([a, b], c) == Writes(a, c).Then(Writes(b, c))
  {
    hide Writes, Total;
    assert [a, b] == [a] + [b];
    TotalConcat([a], [b], c);
    TotalOfOne(a, c);
    TotalOfOne(b, c);
  }

  lemma RequestTotals(e: LogEntry, c: Column)
    requires e.event == "client_request" || e.event == "model_request"
    ensures Total(EventOps(e), c) == if c.Meta? then Keep else LineSays(e, c)
  {
    hide Total;
    TotalOfTwo(EventOps(e)[0], EventOps(e)[1], c);
  }

  lemma ResponseTotal(e: LogEntry, c: Column)
    requires e.event == "model_response"
    ensures Total(EventOps(e), c) == if c.Meta? then Keep else LineSays(e, c)
  {
    hide Total;
    TotalOfTwo(EventOps(e)[0], EventOps(e)[1], c);
  }

  lemma TerminalTotals(e: LogEntry, c: Column)
    requires e.event == "model_cancelled" || e.event == "model_transport_error"
    ensures Total(EventOps(e), c) == if c.Meta? then Keep else LineSays(e, c)
  {
    hide Total;
    TotalOfOne(EventOps(e)[0], c);
  }

  lemma EventTotal(e: LogEntry, c: Column)
    ensures Total(EventOps(e), c) == if c.Meta? then Keep else LineSays(e, c)
  {
    if e.event == "client_request" || e.event == "model_request" { RequestTotals(e, c); }
    else if e.event == "model_response" { ResponseTotal(e, c); }
    else if e.event == "model_cancelled" || e.event == "model_transport_error" { TerminalTotals(e, c); }
  }

  // Every column after a line: what the line puts there, what it fills in where nothing was, or what was there.
  lemma LineDoes(before: Entry, e: LogEntry, c: Column)
    requires e.request.Some?
    ensures Cell(AfterLine(before, e), c)
            == match LineSays(e, c)
               case Keep => Cell(before, c)
               case Fill(t) => if Cell(before, c) == Text(None) then Text(Some(t)) else Cell(before, c)
               case Put(v) => v
  {
    LineOps(e);
    LineTotal(e, c);
    ColumnsChangeByTotal(before, [Insert(e.meta)] + EventOps(e), c);
    TextColumns(before, c);
    hide EventOps, Total, ExecuteAll, For, EntryStatements, Cell;
  }

  // Only these are filled, and they hold texts.
  lemma TextColumns(before: Entry, c: Column)
    ensures c.Meta? || c.SessionKey? || c.SessionHint? ==> Cell(before, c).Text?
  {
  }

  // ---- all the lines of a log ----

  // The lines about a request, in order: those that parse.
  function EntriesFor(parse: Bytes -> Option<LogEntry>, lines: seq<Bytes>, r: string): seq<LogEntry>
    decreases |lines|
  {
    if lines == [] then []
    else
      (if lines[0] != [] && parse(lines[0]).Some? && parse(lines[0]).value.request == Some(r) then [parse(lines[0]).value] else [])
      + EntriesFor(parse, lines[1..], r)
  }

  // The last line that writes a column decides it; if none does, the first that fills it; else nothing does.
  function LastPut(es: seq<LogEntry>, c: Column): Option<Value>
    decreases |es|
  {
    if es == [] then None
    else if LineSays(es[|es| - 1], c).Put? then Some(LineSays(es[|es| - 1], c).value)
    else LastPut(es[..|es| - 1], c)
  }

  function FirstFill(es: seq<LogEntry>, c: Column): Option<string>
    decreases |es|
  {
    if es == [] then None else if LineSays(es[0], c).Fill? then Some(LineSays(es[0], c).text) else FirstFill(es[1..], c)
  }

  function LinesSay(es: seq<LogEntry>, c: Column): Change {
    if LastPut(es, c).Some? then Put(LastPut(es, c).value)
    else if FirstFill(es, c).Some? then Fill(FirstFill(es, c).value)
    else Keep
  }

  lemma {:induction false} LastPutCons(e: LogEntry, es: seq<LogEntry>, c: Column)
    ensures LastPut([e] + es, c)
            == if LastPut(es, c).Some? then LastPut(es, c) else if LineSays(e, c).Put? then Some(LineSays(e, c).value) else None
    decreases |es|
  {
    hide LineSays;
    if es == [] {
      assert [e] + es == [e] && [e][..0] == [];
    } else {
      var init := es[..|es| - 1];
      assert ([e] + es)[..|es|] == [e] + init;
      LastPutCons(e, init, c);
    }
  }

  lemma LinesSayCons(e: LogEntry, es: seq<LogEntry>, c: Column)
    ensures LinesSay([e] + es, c) == LineSays(e, c).Then(LinesSay(es, c))
  {
    hide LineSays;
    LastPutCons(e, es, c);
    assert ([e] + es)[0] == e && ([e] + es)[1..] == es;
  }

  lemma {:induction false} TotalOfLines(parse: Bytes -> Option<LogEntry>, lines: seq<Bytes>, r: string, c: Column)
    ensures Total(For(Flatten(Parsed(parse, lines)), r), c) == LinesSay(EntriesFor(parse, lines, r), c)
    decreases |lines|
  {
    hide LineSays, LinesSay, EntryStatements, Total, For;
    if lines == [] {
      NothingSaid(r, c);
    } else {
      var parsed, line, rest := Parsed(parse, lines), LineStatements(parse, lines[0]), Parsed(parse, lines[1..]);
      assert parsed[0] == line && parsed[1..] == rest;
      ForConcat(line, Flatten(rest), r);
      TotalConcat(For(line, r), For(Flatten(rest), r), c);
      TotalOfLines(parse, lines[1..], r, c);
      OneLineTotal(parse, lines[0], r, c);
      if EntriesFor(parse, [lines[0]], r) != [] {
        LinesSayCons(parse(lines[0]).value, EntriesFor(parse, lines[1..], r), c);
      } else {
        assert EntriesFor(parse, lines, r) == EntriesFor(parse, lines[1..], r);
      }
    }
  }

  lemma NothingSaid(r: string, c: Column)
    ensures Total(For([], r), c) == Keep && LinesSay([], c) == Keep
  {
  }

  lemma OneLineTotal(parse: Bytes -> Option<LogEntry>, line: Bytes, r: string, c: Column)
    ensures EntriesFor(parse, [line], r) != [] <==> line != [] && parse(line).Some? && parse(line).value.request == Some(r)
    ensures EntriesFor(parse, [line], r) == [] || EntriesFor(parse, [line], r) == [parse(line).value]
    ensures Total(For(LineStatements(parse, line), r), c)
            == if EntriesFor(parse, [line], r) != [] then LineSays(parse(line).value, c) else Keep
  {
    hide LineSays, EventOps, Total;
    assert [line][1..] == [];
    NothingSaid(r, c);
    if line != [] && parse(line).Some? && parse(line).value.request.Some? {
      var e := parse(line).value;
      if e.request == Some(r) {
        LineOps(e);
        LineTotal(e, c);
      } else {
        ForOneRequest(EntryStatements(e), e.request.value, r);
      }
    }
  }

  // What an entry holds after every line about it was applied once, log after log.
  lemma OnceSays(parse: Bytes -> Option<LogEntry>, lines: seq<Bytes>, r: string, c: Column)
    ensures var es := EntriesFor(parse, lines, r);
            Cell(Once(Parsed(parse, lines), r), c)
            == if LastPut(es, c).Some? then LastPut(es, c).value
               else if FirstFill(es, c).Some? then Text(Some(FirstFill(es, c).value))
               else Cell(NO_ENTRY, c)
  {
    var es := EntriesFor(parse, lines, r);
    hide Cell, Flatten, LastPut, FirstFill;
    OnceCell(Parsed(parse, lines), r, c);
    TotalOfLines(parse, lines, r, c);
    FillsNothing(c);
    if LastPut(es, c).None? && FirstFill(es, c).Some? { FilledColumns(es, c); }
    hide LineSays;
  }

  lemma FillsNothing(c: Column)
    ensures c.Meta? || c.SessionKey? || c.SessionHint? ==> Cell(NO_ENTRY, c) == Text(None)
  {
  }

  lemma {:induction false} FilledColumns(es: seq<LogEntry>, c: Column)
    requires FirstFill(es, c).Some?
    ensures c.Meta? || c.SessionKey? || c.SessionHint?
    decreases |es|
  {
    if LineSays(es[0], c).Fill? {
    } else {
      FilledColumns(es[1..], c);
    }
  }

  // ---- the outcome of a request ----

  predicate Ending(e: LogEntry) { e.event in {"model_response", "model_cancelled", "model_transport_error"} }

  // "pending" before any line that ends the request, then what the last such line says.
  function OutcomeSaid(es: seq<LogEntry>): string
    decreases |es|
  {
    if es == [] then "pending"
    else
      var last := es[|es| - 1];
      if !Ending(last) then OutcomeSaid(es[..|es| - 1])
      else if last.event == "model_cancelled" then "cancelled"
      else if last.event == "model_transport_error" then "transport_error"
      else if 200 <= last.status < 300 then "ok"
      else "http_error"
  }

  lemma {:induction false} OutcomeIsSaid(es: seq<LogEntry>)
    ensures match LastPut(es, Outcome)
            case Some(v) => v == Text(Some(OutcomeSaid(es)))
            case None => OutcomeSaid(es) == "pending"
    decreases |es|
  {
    if es != [] { OutcomeIsSaid(es[..|es| - 1]); }
  }

  lemma {:induction false} NeverFilled(es: seq<LogEntry>)
    ensures FirstFill(es, Outcome).None?
    decreases |es|
  {
    if es != [] { NeverFilled(es[1..]); }
  }

  // The lines of all logs, one log after the other.
  function AllLines(contents: map<string, Bytes>, order: seq<string>): seq<Bytes>
    requires forall log :: log in order ==> log in contents
    decreases |order|
  {
    if order == [] then [] else Complete(contents[order[0]]) + AllLines(contents, order[1..])
  }

  lemma {:induction false} WholeIsAll(db: LensDb, order: seq<string>)
    requires forall log :: log in order ==> log in db.contents
    ensures Whole(db.Logs(), order) == Parsed(db.parse, AllLines(db.contents, order))
    decreases |order|
  {
    hide Complete;
    if order != [] { WholeIsAll(db, order[1..]); }
  }

  // After a scan that found every log whole: each column of each request holds what the last line about it wrote
  // there, else what the first filled in, else nothing.
  lemma WholeScanSays(db: LensDb, r: string, c: Column)
    requires db.Valid() && EntryOf(db.sys, r) == Once(Whole(db.Logs(), db.order), r)
    ensures forall log :: log in db.order ==> log in db.contents
    ensures var es := EntriesFor(db.parse, AllLines(db.contents, db.order), r);
            Cell(if r in db.entries then db.entries[r] else NO_ENTRY, c)
            == if LastPut(es, c).Some? then LastPut(es, c).value
               else if FirstFill(es, c).Some? then Text(Some(FirstFill(es, c).value))
               else Cell(NO_ENTRY, c)
  {
    assert Enumerates(db.order, db.Logs());
    assert forall log :: log in db.order ==> log in db.contents;
    WholeIsAll(db, db.order);
    OnceSays(db.parse, AllLines(db.contents, db.order), r, c);
    hide Cell, Once, LastPut, FirstFill, AllLines, EntriesFor, Whole, Run;
  }

  // And its outcome is that of the last line that ended it.
  lemma WholeScanOutcome(db: LensDb, r: string)
    requires db.Valid() && EntryOf(db.sys, r) == Once(Whole(db.Logs(), db.order), r)
    ensures forall log :: log in db.order ==> log in db.contents
    ensures r in db.entries && db.entries[r].row.Some? ==>
              db.entries[r].row.value.outcome == OutcomeSaid(EntriesFor(db.parse, AllLines(db.contents, db.order), r))
  {
    WholeScanSays(db, r, Outcome);
    OutcomeIsSaid(EntriesFor(db.parse, AllLines(db.contents, db.order), r));
    NeverFilled(EntriesFor(db.parse, AllLines(db.contents, db.order), r));
    hide Once, LastPut, FirstFill, AllLines, EntriesFor, Whole, OutcomeSaid;
    assert Cell(NO_ENTRY, Outcome) == Text(Some("pending"));
  }
}
