// Rows of the lens database, the statements that change them, and why replaying a log is harmless.
module IngestRows {
  import opened Wrappers

  // Columns that only the response entry writes.
  datatype ResponseColumns = ResponseColumns(
    status: Option<int>, complete: Option<bool>, protocolComplete: Option<bool>, bytes: Option<int>, truncated: Option<bool>,
    derived: Option<string>)

  const NO_RESPONSE := ResponseColumns(None, None, None, None, None, None)

  // One row of `exchanges`; `meta` stands for the columns the insert fills in.
  datatype Row = Row(
    meta: string, reqBytes: Option<int>, reqTruncated: Option<bool>, outcome: string, duration: Option<int>,
    cancelStage: Option<string>, error: Option<string>, response: ResponseColumns,
    sessionKey: Option<string>, sessionHint: Option<string>)

  // One row of `exchange_bodies`; without `stored` there is none.
  datatype Bodies = Bodies(
    stored: bool, clientRequest: Option<string>, request: Option<string>, headers: Option<string>, response: Option<string>,
    aggregate: Option<string>, anthropic: Option<string>)

  const NO_BODIES := Bodies(false, None, None, None, None, None, None)

  // All the database holds about one request.
  datatype Entry = Entry(row: Option<Row>, bodies: Bodies)

  const NO_ENTRY := Entry(None, NO_BODIES)

  // The statements, one request at a time.
  datatype Op =
    | Insert(meta: string)
    | ClientSession(key: Option<string>, hint: Option<string>)
    | Request(bytes: Option<int>, truncated: Option<bool>, key: Option<string>, hint: Option<string>)
    | Response(outcome: string, duration: Option<int>, error: Option<string>, columns: ResponseColumns)
    | Terminal(outcome: string, duration: Option<int>, stage: Option<string>, error: Option<string>)
    | StoreClientRequest(body: Option<string>)
    | StoreRequest(body: Option<string>)
    | StoreResponse(headers: Option<string>, body: Option<string>, aggregate: Option<string>, anthropic: Option<string>)

  function NewRow(meta: string): Row { Row(meta, None, None, "pending", None, None, None, NO_RESPONSE, None, None) }

  function Coalesce(a: Option<string>, b: Option<string>): Option<string> { if a.Some? then a else b }

  function OnRow(row: Row, op: Op): Row {
    match op
    case ClientSession(key, hint) =>
      row.(sessionKey := Coalesce(key, row.sessionKey), sessionHint := Coalesce(hint, row.sessionHint))
    case Request(bytes, truncated, key, hint) =>
      row.(reqBytes := bytes, reqTruncated := truncated,
           sessionKey := Coalesce(row.sessionKey, key), sessionHint := Coalesce(row.sessionHint, hint))
    case Response(outcome, duration, error, columns) =>
      row.(outcome := outcome, duration := duration, error := error, response := columns)
    case Terminal(outcome, duration, stage, error) =>
      row.(outcome := outcome, duration := duration, cancelStage := stage, error := error)
    case _ => row
  }

  function OnBodies(b: Bodies, op: Op): Bodies {
    match op
    case StoreClientRequest(body) => b.(stored := true, clientRequest := body)
    case StoreRequest(body) => b.(stored := true, request := body)
    case StoreResponse(headers, body, aggregate, anthropic) =>
      b.(stored := true, headers := headers, response := body, aggregate := aggregate, anthropic := anthropic)
    case _ => b
  }

  // An insert leaves an existing row alone; an update without a row changes nothing.
  function Execute(e: Entry, op: Op): Entry {
    Entry(if op.Insert? then (if e.row.Some? then e.row else Some(NewRow(op.meta)))
          else if e.row.Some? then Some(OnRow(e.row.value, op)) else None,
          OnBodies(e.bodies, op))
  }

  function ExecuteAll(e: Entry, ops: seq<Op>): Entry
    decreases |ops|
  {
    if ops == [] then e else ExecuteAll(Execute(e, ops[0]), ops[1..])
  }

  lemma {:induction false} ExecuteConcat(e: Entry, a: seq<Op>, b: seq<Op>)
    ensures ExecuteAll(e, a + b) == ExecuteAll(ExecuteAll(e, a), b)
    decreases |a|
  {
    if a == [] {
      assert a + b == b;
    } else {
      assert (a + b)[0] == a[0] && (a + b)[1..] == a[1..] + b;
      ExecuteConcat(Execute(e, a[0]), a[1..], b);
    }
  }

  // ---- what a list of statements amounts to, column by column ----

  datatype Column =
    | Meta | ReqBytes | ReqTruncated | Outcome | Duration | CancelStage | Error | Answer | SessionKey | SessionHint
    | Stored | ClientRequestBody | RequestBody | ResponseHeaders | ResponseBody | Aggregate | AnthropicBody

  datatype Value = Text(text: Option<string>) | Number(number: Option<int>) | Flag(flag: Option<bool>) | Columns(columns: ResponseColumns)

  // What a column holds; without a row, what a new one would hold, and no shared columns.
  function Cell(e: Entry, c: Column): Value {
    var row := if e.row.Some? then e.row.value else NewRow("");
    match c
    case Meta => Text(if e.row.Some? then Some(row.meta) else None)
    case ReqBytes => Number(row.reqBytes)
    case ReqTruncated => Flag(row.reqTruncated)
    case Outcome => Text(Some(row.outcome))
    case Duration => Number(row.duration)
    case CancelStage => Text(row.cancelStage)
    case Error => Text(row.error)
    case Answer => Columns(row.response)
    case SessionKey => Text(row.sessionKey)
    case SessionHint => Text(row.sessionHint)
    case Stored => Flag(Some(e.bodies.stored))
    case ClientRequestBody => Text(e.bodies.clientRequest)
    case RequestBody => Text(e.bodies.request)
    case ResponseHeaders => Text(e.bodies.headers)
    case ResponseBody => Text(e.bodies.response)
    case Aggregate => Text(e.bodies.aggregate)
    case AnthropicBody => Text(e.bodies.anthropic)
  }

  ghost predicate SameCells(a: Entry, b: Entry) { forall c :: Cell(a, c) == Cell(b, c) }

  lemma SameRow(a: Entry, b: Entry)
    requires SameCells(a, b)
    ensures a.row == b.row
  {
    assert Cell(a, Meta) == Cell(b, Meta);
    assert a.row.Some? <==> b.row.Some?;
    if a.row.Some? { SameFields(a, b); }
  }

  lemma SameFields(a: Entry, b: Entry)
    requires SameCells(a, b) && a.row.Some? && b.row.Some?
    ensures a.row.value == b.row.value
  {
    var x, y := a.row.value, b.row.value;
    assert x.meta == y.meta by { assert Cell(a, Meta) == Cell(b, Meta); }
    assert x.reqBytes == y.reqBytes by { assert Cell(a, ReqBytes) == Cell(b, ReqBytes); }
    assert x.reqTruncated == y.reqTruncated by { assert Cell(a, ReqTruncated) == Cell(b, ReqTruncated); }
    assert x.outcome == y.outcome by { assert Cell(a, Outcome) == Cell(b, Outcome); }
    assert x.duration == y.duration by { assert Cell(a, Duration) == Cell(b, Duration); }
    assert x.cancelStage == y.cancelStage by { assert Cell(a, CancelStage) == Cell(b, CancelStage); }
    assert x.error == y.error by { assert Cell(a, Error) == Cell(b, Error); }
    assert x.response == y.response by { assert Cell(a, Answer) == Cell(b, Answer); }
    assert x.sessionKey == y.sessionKey by { assert Cell(a, SessionKey) == Cell(b, SessionKey); }
    assert x.sessionHint == y.sessionHint by { assert Cell(a, SessionHint) == Cell(b, SessionHint); }
    hide SameCells, Cell;
  }

  lemma SameBodies(a: Entry, b: Entry)
    requires SameCells(a, b)
    ensures a.bodies == b.bodies
  {
    var x, y := a.bodies, b.bodies;
    assert x.stored == y.stored by { assert Cell(a, Stored) == Cell(b, Stored); }
    assert x.clientRequest == y.clientRequest by { assert Cell(a, ClientRequestBody) == Cell(b, ClientRequestBody); }
    assert x.request == y.request by { assert Cell(a, RequestBody) == Cell(b, RequestBody); }
    assert x.headers == y.headers by { assert Cell(a, ResponseHeaders) == Cell(b, ResponseHeaders); }
    assert x.response == y.response by { assert Cell(a, ResponseBody) == Cell(b, ResponseBody); }
    assert x.aggregate == y.aggregate by { assert Cell(a, Aggregate) == Cell(b, Aggregate); }
    assert x.anthropic == y.anthropic by { assert Cell(a, AnthropicBody) == Cell(b, AnthropicBody); }
    hide SameCells, Cell;
  }

  // The columns are all there is to an entry.
  lemma CellsDetermine(a: Entry, b: Entry)
    requires SameCells(a, b)
    ensures a == b
  {
    SameRow(a, b);
    SameBodies(a, b);
    hide SameCells;
  }

  // A column is left alone, filled if it is empty, or overwritten.
  datatype Change = Keep | Fill(text: string) | Put(value: Value) {
    function On(current: Value): Value {
      match this
      case Keep => current
      case Fill(t) => if current.Text? && current.text.Some? then current else Text(Some(t))
      case Put(v) => v
    }

    function Then(later: Change): Change { if later.Put? || Keep? then later else this }

    // What is written more strongly stays.
    function Rank(): nat {
      match this
      case Keep => 0
      case Fill(_) => 1
      case Put(_) => 2
    }
  }

  function Replacing(s: Option<string>): Change { if s.Some? then Put(Text(s)) else Keep }

  function Filling(s: Option<string>): Change { if s.Some? then Fill(s.value) else Keep }

  function Writes(op: Op, c: Column): Change {
    match op
    case Insert(meta) => if c.Meta? then Fill(meta) else Keep
    case ClientSession(key, hint) =>
      if c.SessionKey? then Replacing(key) else if c.SessionHint? then Replacing(hint) else Keep
    case Request(bytes, truncated, key, hint) =>
      (match c
       case ReqBytes => Put(Number(bytes))
       case ReqTruncated => Put(Flag(truncated))
       case SessionKey => Filling(key)
       case SessionHint => Filling(hint)
       case _ => Keep)
    case Response(outcome, duration, error, columns) =>
      (match c
       case Outcome => Put(Text(Some(outcome)))
       case Duration => Put(Number(duration))
       case Error => Put(Text(error))
       case Answer => Put(Columns(columns))
       case _ => Keep)
    case Terminal(outcome, duration, stage, error) =>
      (match c
       case Outcome => Put(Text(Some(outcome)))
       case Duration => Put(Number(duration))
       case CancelStage => Put(Text(stage))
       case Error => Put(Text(error))
       case _ => Keep)
    case StoreClientRequest(body) => OfBody(c, ClientRequestBody, body)
    case StoreRequest(body) => OfBody(c, RequestBody, body)
    case StoreResponse(headers, body, aggregate, anthropic) =>
      (match c
       case Stored => Put(Flag(Some(true)))
       case ResponseHeaders => Put(Text(headers))
       case ResponseBody => Put(Text(body))
       case Aggregate => Put(Text(aggregate))
       case AnthropicBody => Put(Text(anthropic))
       case _ => Keep)
  }

  function OfBody(c: Column, stored: Column, body: Option<string>): Change {
    if c == stored then Put(Text(body)) else if c.Stored? then Put(Flag(Some(true))) else Keep
  }

  // Only the shared columns and the session are filled, and a session is never overwritten by nothing.
  ghost predicate Fits(c: Column, w: Change) {
    && (w.Fill? ==> c.Meta? || c.SessionKey? || c.SessionHint?)
    && (w.Put? && (c.SessionKey? || c.SessionHint?) ==> w.value.Text? && w.value.text.Some?)
    && (w.Put? ==> !c.Meta?)
  }

  lemma ChangesCompose(c: Column, a: Change, b: Change, v: Value)
    requires Fits(c, a) && Fits(c, b)
    ensures a.Then(b).On(v) == b.On(a.On(v)) && a.On(a.On(v)) == a.On(v) && Fits(c, a.Then(b))
  {
  }

  lemma ExecuteWrites(e: Entry, op: Op, c: Column)
    requires e.row.Some? || op.Insert?
    ensures Cell(Execute(e, op), c) == Writes(op, c).On(Cell(e, c)) && Fits(c, Writes(op, c))
  {
  }

  function Total(ops: seq<Op>, c: Column): Change
    decreases |ops|
  {
    if ops == [] then Keep else Writes(ops[0], c).Then(Total(ops[1..], c))
  }

  lemma {:induction false} TotalConcat(a: seq<Op>, b: seq<Op>, c: Column)
    ensures Total(a + b, c) == Total(a, c).Then(Total(b, c))
    decreases |a|
  {
    hide Writes;
    if a == [] {
      assert a + b == b;
    } else {
      assert (a + b)[0] == a[0] && (a + b)[1..] == a[1..] + b;
      TotalConcat(a[1..], b, c);
    }
  }

  // A list of statements amounts to one change per column.
  lemma {:induction false} ColumnsChangeByTotal(e: Entry, ops: seq<Op>, c: Column)
    requires e.row.Some? || ops == [] || ops[0].Insert?
    ensures Cell(ExecuteAll(e, ops), c) == Total(ops, c).On(Cell(e, c)) && Fits(c, Total(ops, c))
    decreases |ops|
  {
    if ops != [] {
      ExecuteWrites(e, ops[0], c);
      assert Execute(e, ops[0]).row.Some?;
      ColumnsChangeByTotal(Execute(e, ops[0]), ops[1..], c);
      hide Cell, Writes, Execute;
      ChangesCompose(c, Writes(ops[0], c), Total(ops[1..], c), Cell(e, c));
    }
  }

  // Statements that begin with an insert, run twice, do what they do once.
  lemma TwiceIsOnce(e: Entry, ops: seq<Op>)
    requires ops == [] || ops[0].Insert?
    ensures ExecuteAll(ExecuteAll(e, ops), ops) == ExecuteAll(e, ops)
  {
    var once := ExecuteAll(e, ops);
    forall c ensures Cell(ExecuteAll(once, ops), c) == Cell(once, c) {
      ColumnsChangeByTotal(e, ops, c);
      ColumnsChangeByTotal(once, ops, c);
      ChangesCompose(c, Total(ops, c), Keep, Cell(e, c));
    }
    assert SameCells(ExecuteAll(once, ops), once);
    CellsDetermine(ExecuteAll(once, ops), once);
  }

  // Replaying a beginning of the log before the whole of it changes nothing.
  lemma ReplayIsHarmless(e: Entry, done: seq<Op>, rest: seq<Op>)
    requires done == [] || done[0].Insert?
    ensures ExecuteAll(ExecuteAll(e, done), done + rest) == ExecuteAll(e, done + rest)
  {
    ExecuteConcat(ExecuteAll(e, done), done, rest);
    ExecuteConcat(e, done, rest);
    TwiceIsOnce(e, done);
  }
}
