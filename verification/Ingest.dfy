// Tailing one log file: lines are applied as they are read, offsets stored batch by batch.
module IngestLog {
  import opened Wrappers
  import opened IngestRows
  import opened IngestSchedule
  import Utf8

  type Bytes = Utf8.Bytes

  const NEWLINE: Utf8.byte := 10

  // What `derive_response` makes of a log entry.
  datatype Derived = Derived(columns: Option<string>, aggregate: Option<string>, anthropic: Option<string>)

  // A log entry, down to what the statements take from it.
  datatype LogEntry = LogEntry(
    event: string, request: Option<string>, meta: string, body: Option<string>, bytes: Option<int>, truncated: Option<bool>,
    duration: Option<int>, clientKey: Option<string>, clientHint: Option<string>, sessionKey: Option<string>,
    sessionHint: Option<string>, stage: Option<string>, transportError: Option<string>, readError: Option<string>, status: int,
    complete: Option<bool>, protocolComplete: Option<bool>, headers: Option<string>, derived: Derived)

  function OutcomeOf(e: LogEntry): string { if 200 <= e.status < 300 then "ok" else "http_error" }

  function DerivedOf(e: LogEntry): Derived { if OutcomeOf(e) == "ok" then e.derived else Derived(None, None, None) }

  function ResponseOp(e: LogEntry): Op {
    Response(OutcomeOf(e), e.duration, e.readError,
             ResponseColumns(Some(e.status), e.complete, e.protocolComplete, e.bytes, e.truncated, DerivedOf(e).columns))
  }

  // The statements for an entry, after the insert.
  function EventOps(e: LogEntry): (ops: seq<Op>)
    ensures forall i :: 0 <= i < |ops| ==> !ops[i].Insert?
  {
    if e.event == "client_request" then [ClientSession(e.clientKey, e.clientHint), StoreClientRequest(e.body)]
    else if e.event == "model_request" then [Request(e.bytes, e.truncated, e.sessionKey, e.sessionHint), StoreRequest(e.body)]
    else if e.event == "model_response" then
      [ResponseOp(e), StoreResponse(e.headers, e.body, DerivedOf(e).aggregate, DerivedOf(e).anthropic)]
    else if e.event == "model_cancelled" then [Terminal("cancelled", e.duration, e.stage, None)]
    else if e.event == "model_transport_error" then [Terminal("transport_error", e.duration, None, e.transportError)]
    else []
  }

  function ForRequest(r: string, ops: seq<Op>): (s: seq<Statement>)
    ensures |s| == |ops| && forall i :: 0 <= i < |s| ==> s[i] == Statement(r, ops[i])
  {
    seq(|ops|, i requires 0 <= i < |ops| => Statement(r, ops[i]))
  }

  function EntryStatements(e: LogEntry): Line {
    if e.request.None? then [] else [Statement(e.request.value, Insert(e.meta))] + ForRequest(e.request.value, EventOps(e))
  }

  // ---- complete lines ----

  function FirstNewline(bytes: Bytes): (i: Option<nat>)
    ensures i.Some? ==> i.value < |bytes| && bytes[i.value] == NEWLINE && NEWLINE !in bytes[..i.value]
    ensures i.None? ==> NEWLINE !in bytes
    decreases |bytes|
  {
    if bytes == [] then None
    else if bytes[0] == NEWLINE then Some(0)
    else match FirstNewline(bytes[1..])
      case None => None
      case Some(i) => assert bytes[..i + 1] == [bytes[0]] + bytes[1..][..i]; Some(i + 1)
  }

  // The lines that end in a newline; a partly written last line waits.
  function Complete(bytes: Bytes): seq<Bytes>
    decreases |bytes|
  {
    match FirstNewline(bytes)
    case None => []
    case Some(i) => [bytes[..i]] + Complete(bytes[i + 1..])
  }

  // The offset after the first `k` lines.
  function Boundary(lines: seq<Bytes>, k: nat): nat
    requires k <= |lines|
  {
    if k == 0 then 0 else Boundary(lines, k - 1) + |lines[k - 1]| + 1
  }

  lemma {:induction false} FirstNewlineIs(bytes: Bytes, i: nat)
    requires i < |bytes| && bytes[i] == NEWLINE && NEWLINE !in bytes[..i]
    ensures FirstNewline(bytes) == Some(i)
    decreases i
  {
    if i > 0 {
      assert bytes[0] == bytes[..i][0];
      assert bytes[..i] == [bytes[0]] + bytes[1..][..i - 1];
      FirstNewlineIs(bytes[1..], i - 1);
    }
  }

  lemma CompleteCons(bytes: Bytes) returns (i: nat)
    requires Complete(bytes) != []
    ensures i < |bytes| && bytes[i] == NEWLINE && FirstNewline(bytes) == Some(i)
    ensures Complete(bytes)[0] == bytes[..i] && Complete(bytes)[1..] == Complete(bytes[i + 1..])
  {
    i := FirstNewline(bytes).value;
  }

  lemma DropTwice(bytes: Bytes, from: nat, i: nat)
    requires from + i <= |bytes|
    ensures bytes[from..][i..] == bytes[from + i..]
  {
  }

  // Line `k` is what is read at its boundary, and the lines after it are those of the rest.
  lemma {:induction false} LineAt(bytes: Bytes, k: nat)
    requires k <= |Complete(bytes)|
    ensures Boundary(Complete(bytes), k) <= |bytes|
    ensures Complete(bytes[Boundary(Complete(bytes), k)..]) == Complete(bytes)[k..]
    ensures k > 0 ==> bytes[Boundary(Complete(bytes), k) - 1] == NEWLINE
    decreases k
  {
    hide Complete, FirstNewline;
    var lines := Complete(bytes);
    if k == 0 {
      assert bytes[0..] == bytes;
    } else {
      LineAt(bytes, k - 1);
      var from := Boundary(lines, k - 1);
      var i := CompleteCons(bytes[from..]);
      assert lines[k - 1..][0] == lines[k - 1] && lines[k - 1..][1..] == lines[k..];
      DropTwice(bytes, from, i + 1);
    }
  }

  // A longer log has the same lines, and maybe more.
  lemma {:induction false} CompletePrefix(bytes: Bytes, more: Bytes)
    requires bytes <= more
    ensures Complete(bytes) <= Complete(more)
    decreases |bytes|
  {
    if FirstNewline(bytes).Some? {
      var i := FirstNewline(bytes).value;
      assert more[..i] == bytes[..i];
      FirstNewlineIs(more, i);
      CompletePrefix(bytes[i + 1..], more[i + 1..]);
    }
  }

  lemma {:induction false} BoundaryPrefix(lines: seq<Bytes>, more: seq<Bytes>, k: nat)
    requires lines <= more && k <= |lines|
    ensures Boundary(lines, k) == Boundary(more, k)
    decreases k
  {
    if k > 0 { BoundaryPrefix(lines, more, k - 1); }
  }

  // An offset is where a line ends, or the start.
  lemma OffsetsAreBoundaries(bytes: Bytes, k: nat)
    requires k <= |Complete(bytes)|
    ensures var offset := Boundary(Complete(bytes), k); offset <= |bytes| && (offset == 0 || bytes[offset - 1] == NEWLINE)
  {
    LineAt(bytes, k);
  }

  // The log so far, read from a boundary: either line `k` is there, or there are only `k` lines.
  lemma NextLine(seen: Bytes, log: Bytes, k: nat)
    requires seen <= log && k <= |Complete(log)| && Boundary(Complete(log), k) <= |seen|
    ensures var rest := seen[Boundary(Complete(log), k)..];
            && (FirstNewline(rest).Some? ==>
                  && k < |Complete(log)| && Complete(log)[k] == rest[..FirstNewline(rest).value]
                  && Boundary(Complete(log), k + 1) == Boundary(Complete(log), k) + FirstNewline(rest).value + 1)
            && (FirstNewline(rest).None? ==> |Complete(seen)| == k)
            && k <= |Complete(seen)|
  {
    var from := Boundary(Complete(log), k);
    var rest, all := seen[from..], log[from..];
    LineAt(log, k);
    assert rest <= all;
    CompletePrefix(seen, log);
    KnownLines(seen, log, k);
    LineAt(seen, k);
    BoundaryPrefix(Complete(seen), Complete(log), k);
    if FirstNewline(rest).Some? {
      var i := FirstNewline(rest).value;
      assert all[..i] == rest[..i];
      FirstNewlineIs(all, i);
      assert Complete(all)[0] == Complete(log)[k];
    } else {
      assert Complete(rest) == [];
    }
  }

  lemma {:induction false} KnownLines(seen: Bytes, log: Bytes, k: nat)
    requires seen <= log && k <= |Complete(log)| && Boundary(Complete(log), k) <= |seen|
    ensures k <= |Complete(seen)|
    decreases k
  {
    hide Complete, FirstNewline;
    if k > 0 {
      KnownLines(seen, log, k - 1);
      CompletePrefix(seen, log);
      BoundaryPrefix(Complete(seen), Complete(log), k - 1);
      LineAt(seen, k - 1);
      var from := Boundary(Complete(seen), k - 1);
      LineEndsAt(log, k - 1);
      NextEnds(seen, log, from, |Complete(log)[k - 1]|);
    }
  }

  // Where a line is, its newline is the first from its start on.
  lemma LineEndsAt(bytes: Bytes, k: nat)
    requires k < |Complete(bytes)|
    ensures var from := Boundary(Complete(bytes), k);
            from <= |bytes| && FirstNewline(bytes[from..]) == Some(|Complete(bytes)[k]|)
  {
    hide Complete, FirstNewline, Boundary;
    LineAt(bytes, k);
    var i := CompleteCons(bytes[Boundary(Complete(bytes), k)..]);
    assert Complete(bytes)[k..][0] == Complete(bytes)[k];
  }

  // A line that ends within what has been seen is read from it too.
  lemma NextEnds(seen: Bytes, log: Bytes, from: nat, i: nat)
    requires seen <= log && from + i + 1 <= |seen| && FirstNewline(log[from..]) == Some(i)
    ensures Complete(seen[from..]) != []
  {
    hide Complete, FirstNewline;
    PrefixFrom(seen, log, from);
    SameFirstNewline(seen[from..], log[from..], i);
    NotNone(seen[from..]);
  }

  lemma PrefixFrom(seen: Bytes, log: Bytes, from: nat)
    requires seen <= log && from <= |seen|
    ensures seen[from..] <= log[from..] && |seen[from..]| == |seen| - from
  {
  }

  lemma SameFirstNewline(rest: Bytes, all: Bytes, i: nat)
    requires rest <= all && FirstNewline(all) == Some(i) && i < |rest|
    ensures FirstNewline(rest) == Some(i)
  {
    assert rest[..i] == all[..i] && rest[i] == all[i];
    FirstNewlineIs(rest, i);
  }

  lemma NotNone(rest: Bytes)
    requires FirstNewline(rest).Some?
    ensures Complete(rest) != []
  {
  }
}

module Ingest {
  import opened Wrappers
  import opened IngestRows
  import opened IngestSchedule
  import opened IngestSafety
  import opened IngestLog

  const INGEST_BATCH_LINES: nat := 2000
  const INGEST_BATCH_BYTES: nat := 8 * 1024 * 1024

  // The statements of every complete line; a line that does not parse has none.
  function Parsed(parse: Bytes -> Option<LogEntry>, lines: seq<Bytes>): (r: seq<Line>)
    ensures |r| == |lines| && forall i :: 0 <= i < |r| ==> r[i] == LineStatements(parse, lines[i])
  {
    seq(|lines|, i requires 0 <= i < |lines| => LineStatements(parse, lines[i]))
  }

  function LineStatements(parse: Bytes -> Option<LogEntry>, line: Bytes): Line {
    if line == [] || parse(line).None? then [] else EntryStatements(parse(line).value)
  }

  // A truncated or replaced file is read from its start.
  function StartOffset(stored: nat, size: nat): nat { if size < stored then 0 else stored }

  // What is stored about files, and the system, at one moment.
  datatype Snapshot = Snapshot(offsets: map<string, nat>, current: map<string, string>, sys: Sys)

  // What belongs to other files and other logs is left alone.
  ghost predicate OnlyChanged(file: string, log: string, a: Snapshot, b: Snapshot) {
    && (forall g :: g != file ==> (g in b.offsets <==> g in a.offsets) && (g in b.current <==> g in a.current))
    && (forall g :: g != file && g in b.offsets && g in a.offsets ==> b.offsets[g] == a.offsets[g])
    && (forall g :: g != file && g in b.current && g in a.current ==> b.current[g] == a.current[g])
    && (file in b.current ==> b.current[file] == log || (file in a.current && b.current[file] == a.current[file]))
    && (forall h :: h != log ==> (h in b.sys.cursors <==> h in a.sys.cursors) && OffsetOf(b.sys, h) == OffsetOf(a.sys, h))
    && (forall h :: h != log && h in b.sys.cursors && h in a.sys.cursors ==> b.sys.cursors[h] == a.sys.cursors[h])
  }

  lemma NothingChanged(file: string, log: string, a: Snapshot)
    ensures OnlyChanged(file, log, a, a)
  {
  }

  lemma OnlyChangedTwice(file: string, log: string, a: Snapshot, b: Snapshot, c: Snapshot)
    requires OnlyChanged(file, log, a, b) && OnlyChanged(file, log, b, c)
    ensures OnlyChanged(file, log, a, c)
  {
  }

  lemma BeganOnly(file: string, log: string, a: Snapshot, b: Snapshot, at: nat)
    requires a.offsets == b.offsets && a.current == b.current && a.sys.offsets == b.sys.offsets
    requires b.sys.cursors == a.sys.cursors[log := at]
    ensures OnlyChanged(file, log, a, b)
  {
  }

  lemma SavedOnly(file: string, log: string, a: Snapshot, b: Snapshot, offset: nat, k: nat)
    requires b.offsets == a.offsets[file := offset] && b.current == a.current[file := log]
    requires b.sys.cursors == a.sys.cursors && b.sys.offsets == a.sys.offsets[log := k]
    ensures OnlyChanged(file, log, a, b)
  {
  }

  lemma EmptyTail(content: Bytes, offset: nat)
    requires offset <= |content|
    ensures offset == |content| ==> FirstNewline(content[offset..]).None?
  {
  }

  // No other file's offset is about this log.
  ghost predicate OwnLog(current: map<string, string>, file: string, log: string) {
    forall g :: g in current && g != file ==> current[g] != log
  }

  lemma OwnLogStays(file: string, log: string, a: Snapshot, b: Snapshot)
    requires OwnLog(a.current, file, log) && OnlyChanged(file, log, a, b)
    ensures OwnLog(b.current, file, log)
  {
  }

  ghost predicate StoredAt(contents: map<string, Bytes>, file: string, s: Snapshot)
    requires file in s.offsets && file in s.current
  {
    && s.current[file] in contents && s.current[file] in s.sys.offsets
    && s.sys.offsets[s.current[file]] <= |Complete(contents[s.current[file]])|
    && s.offsets[file] == Boundary(Complete(contents[s.current[file]]), s.sys.offsets[s.current[file]])
  }

  // Every stored offset is the end of a line of its log, and no two are about one log.
  ghost predicate OffsetsStored(contents: map<string, Bytes>, s: Snapshot) {
    && s.offsets.Keys == s.current.Keys
    && (forall file :: file in s.offsets ==> StoredAt(contents, file, s))
    && (forall f, g :: f in s.current && g in s.current && f != g ==> s.current[f] != s.current[g])
  }

  lemma OffsetsStay(contents: map<string, Bytes>, s: Snapshot, next: Sys)
    requires OffsetsStored(contents, s) && next.offsets == s.sys.offsets
    ensures OffsetsStored(contents, s.(sys := next))
  {
    hide Complete, Boundary;
    forall f | f in s.offsets ensures StoredAt(contents, f, s.(sys := next)) { assert StoredAt(contents, f, s); }
  }

  lemma SavedIsStored(contents: map<string, Bytes>, s: Snapshot, file: string, log: string, offset: nat, k: nat)
    requires OffsetsStored(contents, s) && OwnLog(s.current, file, log)
    requires log in contents && k <= |Complete(contents[log])| && offset == Boundary(Complete(contents[log]), k)
    ensures OffsetsStored(contents, Snapshot(s.offsets[file := offset], s.current[file := log], s.sys.(offsets := s.sys.offsets[log := k])))
  {
    hide Complete, Boundary;
    var t := Snapshot(s.offsets[file := offset], s.current[file := log], s.sys.(offsets := s.sys.offsets[log := k]));
    forall f | f in t.offsets ensures StoredAt(contents, f, t) {
      if f != file { assert StoredAt(contents, f, s); }
    }
  }

  // What a scan of a file may find: more of the log its offset belongs to, or, in a file that is new or
  // has been cut short or replaced, another log.
  ghost predicate CanScan(contents: map<string, Bytes>, s: Snapshot, file: string, log: string, content: Bytes) {
    && log in contents && content <= contents[log] && OwnLog(s.current, file, log)
    && if file in s.current && s.current[file] == log then file in s.offsets && s.offsets[file] <= |content|
       else OffsetOf(s.sys, log) == 0 && (file in s.offsets ==> |content| < s.offsets[file])
  }

  ghost predicate ReadUpTo(logs: Logs, sys: Sys, log: string, lines: nat) {
    log in logs && lines <= |logs[log]| && log in sys.cursors && sys.cursors[log] == Ends(logs[log], lines) && OffsetOf(sys, log) == lines
  }

  // Scanning one file leaves the others as they were.
  lemma OthersStay(contents: map<string, Bytes>, logs: Logs, a: Snapshot, b: Snapshot, file: string, log: string, other: string, its: string)
    requires OnlyChanged(file, log, a, b) && OwnLog(b.current, file, log) && file != other && log != its
    ensures forall content :: CanScan(contents, a, other, its, content) ==> CanScan(contents, b, other, its, content)
    ensures forall lines :: ReadUpTo(logs, a.sys, its, lines) ==> ReadUpTo(logs, b.sys, its, lines)
  {
    hide Ends;
  }

  class LensDb {
    const parse: Bytes -> Option<LogEntry>
    ghost const contents: map<string, Bytes>  // every log as it will be in the end; a replaced file is another log
    ghost const order: seq<string>            // the logs by the names of their files
    var entries: map<string, Entry>
    var offsets: map<string, nat>
    ghost var current: map<string, string>    // which log the stored offset of a file belongs to
    ghost var sys: Sys
    ghost var steps: seq<Step>
    ghost var inTurn: bool                    // so far no log was begun before those ahead of it were done

    ghost function Logs(): map<string, seq<Line>> {
      map log | log in contents :: Parsed(parse, Complete(contents[log]))
    }

    ghost function Now(): Snapshot
      reads this`offsets, this`current, this`sys
    {
      Snapshot(offsets, current, sys)
    }

    // The database is what some schedule of scans and crashes makes of the logs, and every stored offset
    // is the end of a line.
    ghost predicate Valid()
      reads this
    {
      && Enumerates(order, Logs())
      && entries == sys.entries && Run(Logs(), FRESH, steps) == Some(sys)
      && (inTurn ==> AllInTurn(Logs(), order, FRESH, steps))
      && OffsetsStored(contents, Now())
    }

    ghost predicate AtLine(log: string, offset: nat, k: nat)
      requires log in contents
    {
      k <= |Complete(contents[log])| && offset == Boundary(Complete(contents[log]), k)
    }

    constructor (parse: Bytes -> Option<LogEntry>, ghost contents: map<string, Bytes>, ghost order: seq<string>)
      requires forall log :: log in order <==> log in contents
      requires forall i, j :: 0 <= i < j < |order| ==> order[i] != order[j]
      ensures Valid() && sys == FRESH && this.parse == parse && this.contents == contents && this.order == order
      ensures steps == [] && inTurn
    {
      this.parse, this.contents, this.order := parse, contents, order;
      entries, offsets := map[], map[];
      current, sys, steps, inTurn := map[], FRESH, [], true;
    }

    // The system takes one more step.
    ghost method Take(step: Step)
      requires Run(Logs(), FRESH, steps) == Some(sys) && Next(Logs(), sys, step).Some?
      requires inTurn ==> AllInTurn(Logs(), order, FRESH, steps)
      modifies this`sys, this`steps, this`inTurn
      ensures Run(Logs(), FRESH, steps) == Some(sys) && Some(sys) == Next(Logs(), old(sys), step) && steps == old(steps) + [step]
      ensures inTurn == (old(inTurn) && StepInTurn(Logs(), order, old(sys), step))
      ensures inTurn ==> AllInTurn(Logs(), order, FRESH, steps)
    {
      hide Next;
      RunConcat(Logs(), FRESH, steps, [step]);
      RunOne(Logs(), sys, step);
      if inTurn { InTurnSnoc(Logs(), order, FRESH, steps, step); }
      inTurn := inTurn && StepInTurn(Logs(), order, sys, step);
      steps := steps + [step];
      sys := Next(Logs(), sys, step).value;
    }

    // `todo` is what is to be executed next.
    ghost predicate ComesNext(log: string, todo: seq<Statement>)
      reads this
    {
      && log in Logs() && log in sys.cursors
      && sys.cursors[log] + |todo| <= |Flatten(Logs()[log])|
      && Flatten(Logs()[log])[sys.cursors[log]..sys.cursors[log] + |todo|] == todo
    }

    // One statement, in a transaction of its own.
    method ExecuteOne(ghost log: string, ghost todo: seq<Statement>, request: string, op: Op)
      requires Valid() && ComesNext(log, todo) && todo != [] && todo[0] == Statement(request, op)
      modifies this`entries, this`sys, this`steps, this`inTurn
      ensures Valid() && sys.offsets == old(sys.offsets) && inTurn == old(inTurn) && ComesNext(log, todo[1..])
      ensures sys.cursors == old(sys.cursors)[log := old(sys.cursors[log]) + 1]
    {
      hide Run, Next, AllInTurn, Enumerates, Complete, Boundary, Flatten, LensDb.Logs, Execute, OffsetsStored;
      ghost var all, at := Flatten(Logs()[log]), sys.cursors[log];
      assert all[at] == all[at..at + |todo|][0];
      assert all[at + 1..at + |todo|] == all[at..at + |todo|][1..];
      ApplyNext(Logs(), sys, log);
      OffsetsStay(contents, Now(), sys.(cursors := sys.cursors[log := at + 1], entries := entries[request := Execute(EntryOf(sys, request), op)]));
      Take(Apply(log));
      var entry := if request in entries then entries[request] else NO_ENTRY;
      entries := entries[request := Execute(entry, op)];
    }

    // The two statements of an event that also stores bodies.
    method ExecuteBoth(ghost log: string, ghost todo: seq<Statement>, request: string, update: Op, store: Op)
      requires Valid() && ComesNext(log, todo) && todo == [Statement(request, update), Statement(request, store)]
      modifies this`entries, this`sys, this`steps, this`inTurn
      ensures Valid() && sys.offsets == old(sys.offsets) && inTurn == old(inTurn)
      ensures sys.cursors == old(sys.cursors)[log := old(sys.cursors[log]) + 2]
    {
      hide Valid;
      ExecuteOne(log, todo, request, update);
      ExecuteOne(log, todo[1..], request, store);
    }

    // What the event says, after the shared columns.
    method ApplyEvent(ghost log: string, request: string, e: LogEntry)
      requires Valid() && ComesNext(log, ForRequest(request, EventOps(e)))
      modifies this`entries, this`sys, this`steps, this`inTurn
      ensures Valid() && sys.offsets == old(sys.offsets) && inTurn == old(inTurn)
      ensures sys.cursors == old(sys.cursors)[log := old(sys.cursors[log]) + |EventOps(e)|]
    {
      assert sys.cursors == sys.cursors[log := sys.cursors[log] + 0];
      ghost var todo := ForRequest(request, EventOps(e));
      hide Valid, ComesNext, ResponseOp, DerivedOf;
      if e.event == "client_request" {
        ExecuteBoth(log, todo, request, ClientSession(e.clientKey, e.clientHint), StoreClientRequest(e.body));
      } else if e.event == "model_request" {
        ExecuteBoth(log, todo, request, Request(e.bytes, e.truncated, e.sessionKey, e.sessionHint), StoreRequest(e.body));
      } else if e.event == "model_response" {
        ExecuteBoth(log, todo, request, ResponseOp(e),
                    StoreResponse(e.headers, e.body, DerivedOf(e).aggregate, DerivedOf(e).anthropic));
      } else if e.event == "model_cancelled" {
        ExecuteOne(log, todo, request, Terminal("cancelled", e.duration, e.stage, None));
      } else if e.event == "model_transport_error" {
        ExecuteOne(log, todo, request, Terminal("transport_error", e.duration, None, e.transportError));
      }
    }

    // `apply_entry`: the shared columns first.
    method ApplyEntry(ghost log: string, e: LogEntry)
      requires Valid() && ComesNext(log, EntryStatements(e))
      modifies this`entries, this`sys, this`steps, this`inTurn
      ensures Valid() && sys.offsets == old(sys.offsets) && inTurn == old(inTurn)
      ensures sys.cursors == old(sys.cursors)[log := old(sys.cursors[log]) + |EntryStatements(e)|]
    {
      SameCursor(sys.cursors, log);
      hide Valid, ComesNext, EventOps, LensDb.Logs, ForRequest;
      if e.request.None? { return; }
      var request := e.request.value;
      ghost var todo := EntryStatements(e);
      assert todo[1..] == ForRequest(request, EventOps(e));
      ExecuteOne(log, todo, request, Insert(e.meta));
      ApplyEvent(log, request, e);
      CursorTwice(old(sys.cursors), log, old(sys.cursors[log]) + 1, sys.cursors[log]);
    }

    // The scan stands at the end of line `k`, having read `offset` bytes.
    ghost predicate StandsAt(log: string, offset: nat, k: nat)
      reads this
    {
      && log in contents && AtLine(log, offset, k)
      && log in sys.cursors && sys.cursors[log] == Ends(Logs()[log], k) && OffsetOf(sys, log) <= k
    }

    lemma SaveNext(log: string, offset: nat, k: nat)
      requires StandsAt(log, offset, k)
      ensures Next(Logs(), sys, Save(log, k)) == Some(sys.(offsets := sys.offsets[log := k]))
    {
      hide Ends, Complete, Boundary;
    }

    // `persist_offset`.
    method PersistOffset(file: string, ghost log: string, offset: nat, ghost k: nat)
      requires Valid() && StandsAt(log, offset, k) && OwnLog(current, file, log)
      modifies this`offsets, this`current, this`sys, this`steps, this`inTurn
      ensures Valid() && inTurn == old(inTurn) && sys.cursors == old(sys.cursors) && sys.offsets == old(sys.offsets)[log := k]
      ensures offsets == old(offsets)[file := offset] && current == old(current)[file := log]
    {
      hide Run, Next, AllInTurn, Enumerates, Complete, Boundary, Flatten, Ends, OffsetsStored, OwnLog, LensDb.Logs;
      SavedIsStored(contents, Now(), file, log, offset, k);
      SaveNext(log, offset, k);
      Take(Save(log, k));
      offsets := offsets[file := offset];
      current := current[file := log];
    }

    lemma LineComesNext(log: string, line: Bytes, k: nat)
      requires log in contents && k < |Complete(contents[log])| && line == Complete(contents[log])[k]
      requires log in sys.cursors && sys.cursors[log] == Ends(Logs()[log], k)
      ensures ComesNext(log, LineStatements(parse, line))
      ensures Ends(Logs()[log], k + 1) == Ends(Logs()[log], k) + |LineStatements(parse, line)|
    {
      LineStatementsAt(Logs()[log], k);
      assert Logs()[log][k] == LineStatements(parse, line);
      hide Flatten, Ends, EntryStatements, Complete;
    }

    // One complete line: skipped when it is empty or malformed.
    method ApplyLine(ghost log: string, line: Bytes, ghost k: nat)
      requires Valid() && log in contents && k < |Complete(contents[log])| && line == Complete(contents[log])[k]
      requires log in sys.cursors && sys.cursors[log] == Ends(Logs()[log], k)
      modifies this`entries, this`sys, this`steps, this`inTurn
      ensures Valid() && sys.offsets == old(sys.offsets) && inTurn == old(inTurn)
      ensures sys.cursors == old(sys.cursors)[log := Ends(Logs()[log], k + 1)]
    {
      hide Valid, ComesNext, Flatten, Ends, EntryStatements, Complete, LensDb.Logs;
      LineComesNext(log, line, k);
      SameCursor(sys.cursors, log);
      if line != [] {
        var entry := parse(line);
        if entry.Some? { ApplyEntry(log, entry.value); }
      }
    }

    // A scan begins at the stored offset, or at the start.
    method BeginScan(file: string, ghost log: string, content: Bytes) returns (offset: nat, ghost k: nat)
      requires Valid() && CanScan(contents, Now(), file, log, content)
      modifies this`sys, this`steps, this`inTurn
      ensures Valid() && StandsAt(log, offset, k) && offset <= |content| && OffsetOf(sys, log) == k
      ensures sys.offsets == old(sys.offsets) && sys.cursors == old(sys.cursors)[log := Ends(Logs()[log], k)]
      ensures inTurn == (old(inTurn) && StepInTurn(Logs(), order, old(sys), Begin(log)))
    {
      offset := StartOffset(if file in offsets then offsets[file] else 0, |content|);
      k := OffsetOf(sys, log);
      hide Run, AllInTurn, Enumerates, Complete, Boundary, Flatten, Ends, OffsetsStored, OwnLog, LensDb.Logs;
      StartsStored(file, log);
      Take(Begin(log));
    }

    lemma StartsStored(file: string, log: string)
      requires Valid() && log in contents && (file in current && current[file] == log ==> file in offsets)
      ensures AtLine(log, 0, 0) && log in Logs() && |Logs()[log]| == |Complete(contents[log])|
      ensures file in current && current[file] == log ==> log in sys.offsets && AtLine(log, offsets[file], sys.offsets[log])
    {
      if file in current && current[file] == log { assert StoredAt(contents, file, Now()); }
      hide Complete, Run, AllInTurn;
    }

    // The read loop, with its batches.
    method ReadLines(file: string, ghost log: string, content: Bytes, start: nat, ghost from: nat)
      returns (offset: nat, ghost k: nat, unsaved: bool)
      requires Valid() && log in contents && content <= contents[log] && OwnLog(current, file, log)
      requires StandsAt(log, start, from) && start <= |content| && OffsetOf(sys, log) == from
      modifies this`entries, this`offsets, this`current, this`sys, this`steps, this`inTurn
      ensures Valid() && StandsAt(log, offset, k) && k == |Complete(content)| && (!unsaved ==> OffsetOf(sys, log) == k)
      ensures OwnLog(current, file, log) && inTurn == old(inTurn) && OnlyChanged(file, log, old(Now()), Now())
    {
      hide Valid, StandsAt, Complete, FirstNewline, Boundary, Flatten, Ends, LensDb.Logs, OwnLog, OnlyChanged;
      ghost var all := contents[log];
      NothingChanged(file, log, Now());
      offset, k := start, from;
      var batchLines, batchBytes := 0, 0;
      StandsWhere(log, offset, k);
      NextLine(content, all, k);
      var next := FirstNewline(content[offset..]);
      while next.Some?
        invariant Valid() && StandsAt(log, offset, k) && offset <= |content| && next == FirstNewline(content[offset..])
        invariant k <= |Complete(all)| && offset == Boundary(Complete(all), k)
        invariant next.None? ==> k == |Complete(content)|
        invariant 0 <= batchLines && 0 <= batchBytes
        invariant batchLines == 0 && batchBytes == 0 ==> OffsetOf(sys, log) == k
        invariant OwnLog(current, file, log) && inTurn == old(inTurn) && OnlyChanged(file, log, old(Now()), Now())
        decreases |content| - offset
      {
        NextLine(content, all, k);
        var line := content[offset..][..next.value];
        ghost var before := Now();
        AdvanceLine(file, log, line, offset, k);
        OnlyChangedTwice(file, log, old(Now()), before, Now());
        OwnLogStays(file, log, before, Now());
        offset := offset + next.value + 1;
        k := k + 1;
        batchLines, batchBytes := batchLines + 1, batchBytes + next.value + 1;
        if batchLines >= INGEST_BATCH_LINES || batchBytes >= INGEST_BATCH_BYTES {
          ghost var unsavedYet := Now();
          SaveOffset(file, log, offset, k);
          OnlyChangedTwice(file, log, old(Now()), unsavedYet, Now());
          batchLines, batchBytes := 0, 0;
        }
        NextLine(content, all, k);
        next := FirstNewline(content[offset..]);
      }
      unsaved := batchLines > 0 || batchBytes > 0;
    }

    lemma StandsWhere(log: string, offset: nat, k: nat)
      requires StandsAt(log, offset, k)
      ensures log in contents && k <= |Complete(contents[log])| && offset == Boundary(Complete(contents[log]), k)
    {
    }

    method AdvanceLine(ghost file: string, ghost log: string, line: Bytes, ghost offset: nat, ghost k: nat)
      requires Valid() && StandsAt(log, offset, k) && k < |Complete(contents[log])| && line == Complete(contents[log])[k]
      modifies this`entries, this`sys, this`steps, this`inTurn
      ensures Valid() && inTurn == old(inTurn) && StandsAt(log, offset + |line| + 1, k + 1)
      ensures sys.offsets == old(sys.offsets) && OnlyChanged(file, log, old(Now()), Now())
    {
      hide Valid, Complete, Flatten, LineStatements;
      ApplyLine(log, line, k);
    }

    method SaveOffset(file: string, ghost log: string, offset: nat, ghost k: nat)
      requires Valid() && StandsAt(log, offset, k) && OwnLog(current, file, log)
      modifies this`offsets, this`current, this`sys, this`steps, this`inTurn
      ensures Valid() && inTurn == old(inTurn) && StandsAt(log, offset, k) && OffsetOf(sys, log) == k
      ensures OwnLog(current, file, log) && OnlyChanged(file, log, old(Now()), Now())
    {
      hide Valid, Complete, Flatten, Ends, Boundary, LensDb.Logs, OwnLog, OnlyChanged;
      ghost var before := Now();
      PersistOffset(file, log, offset, k);
      SavedOnly(file, log, before, Now(), offset, k);
      OwnLogStays(file, log, before, Now());
    }

    // `ingest_file` on what the file holds now: every complete line is applied, and the stored offset is
    // the end of the last of them.
    method IngestFile(file: string, ghost log: string, content: Bytes)
      requires Valid() && CanScan(contents, Now(), file, log, content)
      modifies this`entries, this`offsets, this`current, this`sys, this`steps, this`inTurn
      ensures Valid() && OnlyChanged(file, log, old(Now()), Now())
      ensures exists offset :: StandsAt(log, offset, |Complete(content)|)
      ensures OffsetOf(sys, log) == |Complete(content)| && OwnLog(current, file, log)
      ensures inTurn == (old(inTurn) && StepInTurn(Logs(), order, old(sys), Begin(log)))
    {
      hide Valid, Complete, FirstNewline, Boundary, Flatten, Ends, LensDb.Logs, OwnLog, OnlyChanged, LensDb.StandsAt, StepInTurn;
      var offset, k := BeginScan(file, log, content);
      BeganOnly(file, log, old(Now()), Now(), sys.cursors[log]);
      StandsWhere(log, offset, k);
      NextLine(content, contents[log], k);
      EmptyTail(content, offset);
      if |content| != offset {
        ghost var begun := Now();
        var unsaved;
        offset, k, unsaved := ReadLines(file, log, content, offset, k);
        OnlyChangedTwice(file, log, old(Now()), begun, Now());
        if unsaved {
          ghost var read := Now();
          SaveOffset(file, log, offset, k);
          OnlyChangedTwice(file, log, old(Now()), read, Now());
        }
      }
    }

    // What one file holds when the directory is scanned, or that it cannot be read.
    ghost predicate Listed(files: seq<string>, read: string -> Option<Bytes>, log: string -> string)
      reads this`offsets, this`current, this`sys
    {
      && (forall i, j :: 0 <= i < j < |files| ==> files[i] != files[j] && log(files[i]) != log(files[j]))
      && (forall i :: 0 <= i < |files| && read(files[i]).Some? ==>
            CanScan(contents, Now(), files[i], log(files[i]), read(files[i]).value))
    }

    // The files are the first of all, and all but the last of them will not grow any more.
    ghost predicate Settling(files: seq<string>, read: string -> Option<Bytes>, log: string -> string) {
      && |files| <= |order|
      && forall i :: 0 <= i < |files| ==>
           && log(files[i]) == order[i] && read(files[i]).Some? && order[i] in contents
           && (i < |files| - 1 ==> read(files[i]).value == contents[order[i]])
    }

    // `scan_once`: the files in the order of their names; one that cannot be read is passed over.
    method ScanOnce(files: seq<string>, read: string -> Option<Bytes>, ghost log: string -> string)
      requires Valid() && Listed(files, read, log)
      modifies this`entries, this`offsets, this`current, this`sys, this`steps, this`inTurn
      ensures Valid()
      ensures forall i :: 0 <= i < |files| && read(files[i]).Some? ==>
                ReadUpTo(Logs(), sys, log(files[i]), |Complete(read(files[i]).value)|)
      ensures old(inTurn) && Settling(files, read, log) ==> inTurn
      ensures old(inTurn) && FoundWhole(files, read, log) ==> forall r :: EntryOf(sys, r) == Once(Whole(Logs(), order), r)
    {
      hide Valid, Complete, Flatten, Ends, LensDb.Logs, OwnLog, OnlyChanged, LensDb.StandsAt, StepInTurn, ReadUpTo, CanScan;
      for n := 0 to |files|
        invariant Valid()
        invariant forall i :: n <= i < |files| && read(files[i]).Some? ==>
                    CanScan(contents, Now(), files[i], log(files[i]), read(files[i]).value)
        invariant forall i :: 0 <= i < n && read(files[i]).Some? ==>
                    ReadUpTo(Logs(), sys, log(files[i]), |Complete(read(files[i]).value)|)
        invariant old(inTurn) && Settling(files, read, log) ==> inTurn
      {
        if read(files[n]).Some? {
          ghost var before := Now();
          ScanIsInTurn(files, read, log, n);
          IngestFile(files[n], log(files[n]), read(files[n]).value);
          WasReadUpTo(log(files[n]), read(files[n]).value);
          forall i | 0 <= i < |files| && i != n && read(files[i]).Some?
            ensures forall content :: CanScan(contents, before, files[i], log(files[i]), content)
                                      ==> CanScan(contents, Now(), files[i], log(files[i]), content)
            ensures forall lines :: ReadUpTo(Logs(), before.sys, log(files[i]), lines) ==> ReadUpTo(Logs(), sys, log(files[i]), lines)
          {
            OthersStay(contents, Logs(), before, Now(), files[n], log(files[n]), files[i], log(files[i]));
          }
        }
      }
      if inTurn && FoundWhole(files, read, log) { EverythingIsThere(files, read, log); }
    }

    // Every log is there, and whole.
    ghost predicate FoundWhole(files: seq<string>, read: string -> Option<Bytes>, log: string -> string) {
      && Settling(files, read, log) && |files| == |order|
      && (files != [] ==> read(files[|files| - 1]) == Some(contents[order[|files| - 1]]))
    }

    lemma EverythingIsThere(files: seq<string>, read: string -> Option<Bytes>, log: string -> string)
      requires Valid() && inTurn && FoundWhole(files, read, log)
      requires forall i :: 0 <= i < |files| && read(files[i]).Some? ==>
                 ReadUpTo(Logs(), sys, log(files[i]), |Complete(read(files[i]).value)|)
      ensures forall r :: EntryOf(sys, r) == Once(Whole(Logs(), order), r)
    {
      assert Enumerates(order, Logs());
      hide Valid, LensDb.Settling, ReadUpTo, ReadToEnd, Once, Complete, Enumerates;
      forall r ensures EntryOf(sys, r) == Once(Whole(Logs(), order), r) {
        FullScan(files, read, log, r);
        WhatIsThere(r);
      }
    }

    // Logs read to the end, offsets stored: the next one is begun in turn.
    lemma ScanIsInTurn(files: seq<string>, read: string -> Option<Bytes>, log: string -> string, n: nat)
      requires n < |files| && Valid()
      requires forall i :: 0 <= i < n && read(files[i]).Some? ==>
                 ReadUpTo(Logs(), sys, log(files[i]), |Complete(read(files[i]).value)|)
      ensures Settling(files, read, log) ==> StepInTurn(Logs(), order, sys, Begin(log(files[n])))
    {
      hide Complete, Flatten, Ends;
    }

    lemma WasReadUpTo(log: string, content: Bytes)
      requires (exists offset :: StandsAt(log, offset, |Complete(content)|)) && OffsetOf(sys, log) == |Complete(content)|
      ensures ReadUpTo(Logs(), sys, log, |Complete(content)|)
    {
      hide Complete, Flatten, Ends;
    }

    lemma StoredOffsetsEndLines()
      requires Valid()
      ensures forall file :: file in offsets ==>
                && file in current && current[file] in contents && offsets[file] <= |contents[current[file]]|
                && (offsets[file] == 0 || contents[current[file]][offsets[file] - 1] == NEWLINE)
    {
      forall file | file in offsets
        ensures file in current && current[file] in contents && offsets[file] <= |contents[current[file]]|
                && (offsets[file] == 0 || contents[current[file]][offsets[file] - 1] == NEWLINE)
      {
        assert StoredAt(contents, file, Now());
        OffsetsAreBoundaries(contents[current[file]], sys.offsets[current[file]]);
      }
    }

    // Crash safety, for the database at hand: what all files agree on is there, and after scans in turn
    // everything is, as if every complete line had been applied once, log after log.
    lemma WhatIsThere(r: string)
      requires Valid() && ReadToEnd(Logs(), sys, r)
      ensures forall c :: Agree(Logs(), r, c) ==> Cell(EntryOf(sys, r), c) == Cell(Once(Whole(Logs(), order), r), c)
      ensures inTurn ==> EntryOf(sys, r) == Once(Whole(Logs(), order), r)
    {
      assert Finished(Logs(), steps, r) && EntryAfter(Logs(), steps, r) == EntryOf(sys, r);
      hide Finished, EntryAfter, Cell, Once, Whole, Agree, Complete, Run;
      forall c | Agree(Logs(), r, c) ensures Cell(EntryOf(sys, r), c) == Cell(Once(Whole(Logs(), order), r), c) {
        CrashSafe(Logs(), order, steps, r, c);
      }
      if inTurn { ScansInTurnAreSafe(Logs(), order, steps, r); }
    }

    // A scan that finds every log whole leaves nothing to be read.
    lemma FullScan(files: seq<string>, read: string -> Option<Bytes>, log: string -> string, r: string)
      requires Valid() && FoundWhole(files, read, log)
      requires forall i :: 0 <= i < |files| && read(files[i]).Some? ==>
                 ReadUpTo(Logs(), sys, log(files[i]), |Complete(read(files[i]).value)|)
      ensures ReadToEnd(Logs(), sys, r)
    {
      hide Complete, Run, AllInTurn, Ends, Flatten, OffsetsStored, ReadUpTo;
      forall f | f in Logs() ensures f in sys.cursors && sys.cursors[f] == |All(Logs(), f)| {
        var i :| 0 <= i < |order| && order[i] == f;
        WholeIsRead(f);
      }
    }

    lemma WholeIsRead(f: string)
      requires f in contents && ReadUpTo(Logs(), sys, f, |Complete(contents[f])|)
      ensures f in sys.cursors && sys.cursors[f] == |All(Logs(), f)|
    {
      EndsWithin(Logs()[f], |Logs()[f]|);
      hide Complete, Ends, Flatten;
    }
  }

  lemma SameCursor(cursors: map<string, nat>, log: string)
    requires log in cursors
    ensures cursors[log := cursors[log]] == cursors
  {
  }

  lemma CursorTwice(cursors: map<string, nat>, file: string, a: nat, b: nat)
    ensures cursors[file := a][file := b] == cursors[file := b]
  {
  }

  // What follows the first `k` lines is line `k`.
  lemma LineStatementsAt(lines: seq<Line>, k: nat)
    requires k < |lines|
    ensures Ends(lines, k + 1) == Ends(lines, k) + |lines[k]| && Ends(lines, k + 1) <= |Flatten(lines)|
    ensures Flatten(lines)[Ends(lines, k)..Ends(lines, k + 1)] == lines[k]
  {
    hide Flatten;
    SplitAt(lines, k);
    OneLine(lines[k]);
    assert lines[..k + 1] == lines[..k] + [lines[k]] && lines[k..] == [lines[k]] + lines[k + 1..];
    FlattenConcat(lines[..k], [lines[k]]);
    FlattenConcat([lines[k]], lines[k + 1..]);
    SliceOf(Flatten(lines), Ends(lines, k), lines[k], Flatten(lines[k + 1..]));
  }

  lemma SliceOf(all: seq<Statement>, at: nat, part: seq<Statement>, rest: seq<Statement>)
    requires at <= |all| && all[at..] == part + rest
    ensures at + |part| <= |all| && all[at..at + |part|] == part
  {
    assert all[at..at + |part|] == all[at..][..|part|];
  }
}
