// One exchange's audit records, whatever path it takes and wherever it is dropped.
module AuditRecords {
  import opened Wrappers
  import Utf8

  type Bytes = Utf8.Bytes

  datatype LogMode = Full | Metadata | Off

  datatype Config = Config(mode: LogMode, retentionDays: nat, maxBodyBytes: nat) {
    predicate Enabled() { mode != Off && retentionDays > 0 }
  }

  // The bytes of a body are kept up to the limit, and not at all in metadata mode.
  datatype Body = Body(total: nat, kept: Option<Bytes>, truncated: bool)

  datatype Ending = Whole | ReadFailed(message: string) | Abandoned

  datatype Record =
    | ClientRequest(body: Body)
    | ModelRequest(body: Body)
    | ModelResponse(status: nat, protocolComplete: Option<bool>, ending: Ending, body: Body)
    | ModelTransportError(message: string)
    | ModelCancelled(stage: string)

  predicate Terminal(r: Record) { r.ModelResponse? || r.ModelTransportError? || r.ModelCancelled? }

  function Terminals(records: seq<Record>): nat
    decreases |records|
  {
    if records == [] then 0 else (if Terminal(records[0]) then 1 else 0) + Terminals(records[1..])
  }

  function Min(a: nat, b: nat): nat { if a < b then a else b }

  // `add_body`.
  function BodyOf(c: Config, bytes: Bytes, total: nat): Body {
    if c.mode.Metadata? then Body(total, None, false)
    else
      var kept := bytes[..Min(|bytes|, c.maxBodyBytes)];
      Body(total, Some(kept), total > |kept|)
  }

  const MAX_BODY_READ_ERROR_CHARS: nat := 1024

  function Bounded(message: string): string {
    if |message| <= MAX_BODY_READ_ERROR_CHARS then message else message[..MAX_BODY_READ_ERROR_CHARS - 1] + ['\U{2026}']
  }

  // ---- what may happen to an exchange ----

  datatype StreamEvent = Chunk(bytes: Bytes) | ReadError(message: string) | ProtocolComplete

  // How the body of the upstream response was read, when it is not streamed on.
  datatype Reading = ReadCancelled | ReadFailure(bytes: Bytes, message: string) | ReadAll(bytes: Bytes)

  // A streamed body: what was captured before it ended or was dropped.
  datatype Path =
    | CancelledBeforeResponse
    | TransportFailed(message: string)
    | Buffered(status: nat, reading: Reading)
    | Streamed(status: nat, events: seq<StreamEvent>, finished: bool)

  function Pushed(events: seq<StreamEvent>): Bytes
    decreases |events|
  {
    if events == [] then []
    else Pushed(events[..|events| - 1]) + (if events[|events| - 1].Chunk? then events[|events| - 1].bytes else [])
  }

  function LastReadError(events: seq<StreamEvent>): Option<string>
    decreases |events|
  {
    if events == [] then None
    else if events[|events| - 1].ReadError? then Some(Bounded(events[|events| - 1].message))
    else LastReadError(events[..|events| - 1])
  }

  // The bytes captured of a stream: a prefix of what was pushed, up to the limit.
  function Captured(c: Config, events: seq<StreamEvent>): Bytes {
    if c.mode.Full? then Pushed(events)[..Min(|Pushed(events)|, c.maxBodyBytes)] else []
  }

  function EndingOf(events: seq<StreamEvent>, finished: bool): Ending {
    if finished then Whole
    else match LastReadError(events)
      case Some(message) => ReadFailed(message)
      case None => Abandoned
  }

  // The one terminal record of each path.
  function TerminalFor(c: Config, path: Path): Record {
    match path
    case CancelledBeforeResponse => ModelCancelled("waiting_for_upstream_response")
    case TransportFailed(message) => ModelTransportError(message)
    case Buffered(_, ReadCancelled) => ModelCancelled("reading_upstream_response")
    case Buffered(status, ReadFailure(bytes, message)) =>
      ModelResponse(status, None, ReadFailed(Bounded(message)), BodyOf(c, bytes, |bytes|))
    case Buffered(status, ReadAll(bytes)) => ModelResponse(status, None, Whole, BodyOf(c, bytes, |bytes|))
    case Streamed(status, events, finished) =>
      ModelResponse(status, Some(ProtocolComplete in events), EndingOf(events, finished),
                    BodyOf(c, Captured(c, events), |Pushed(events)|))
  }

  function RequestRecords(c: Config, client: Option<(Bytes, nat)>, outbound: Bytes): seq<Record> {
    (match client
     case None => []
     case Some((serialized, received)) =>
       [ClientRequest(if c.mode.Metadata? then BodyOf(c, [], received) else BodyOf(c, serialized, |serialized|))])
    + [ModelRequest(BodyOf(c, outbound, |outbound|))]
  }

  function ExchangeRecords(c: Config, client: Option<(Bytes, nat)>, outbound: Bytes, path: Path): seq<Record> {
    if c.Enabled() then RequestRecords(c, client, outbound) + [TerminalFor(c, path)] else []
  }

  // Exactly one terminal record, and it is the last; none when logging is off.
  lemma OneTerminal(c: Config, client: Option<(Bytes, nat)>, outbound: Bytes, path: Path)
    ensures var records := ExchangeRecords(c, client, outbound, path);
            && Terminals(records) == (if c.Enabled() then 1 else 0)
            && (records != [] ==> Terminal(records[|records| - 1]))
  {
    if c.Enabled() {
      var requests, last := RequestRecords(c, client, outbound), TerminalFor(c, path);
      TerminalsSnoc(requests, last);
      assert Terminals(requests) == 0 by { NoTerminals(requests); }
    }
  }

  lemma {:induction false} TerminalsSnoc(records: seq<Record>, r: Record)
    ensures Terminals(records + [r]) == Terminals(records) + if Terminal(r) then 1 else 0
    decreases |records|
  {
    if records == [] {
      assert [] + [r] == [r] && [r][1..] == [];
    } else {
      assert (records + [r])[1..] == records[1..] + [r];
      TerminalsSnoc(records[1..], r);
    }
  }

  lemma {:induction false} NoTerminals(records: seq<Record>)
    requires forall i :: 0 <= i < |records| ==> !Terminal(records[i])
    ensures Terminals(records) == 0
    decreases |records|
  {
    if records != [] { NoTerminals(records[1..]); }
  }

  // In full mode the record keeps the prefix of the pushed bytes of length min(total, limit), and says
  // whether that is all.
  lemma StreamedBodyIsPrefix(c: Config, status: nat, events: seq<StreamEvent>, finished: bool)
    requires c.mode.Full?
    ensures var body := TerminalFor(c, Streamed(status, events, finished)).body;
            && body.total == |Pushed(events)| && body.kept.Some? && body.kept.value <= Pushed(events)
            && |body.kept.value| == Min(body.total, c.maxBodyBytes)
            && (body.truncated <==> body.kept.value != Pushed(events))
  {
    var all := Pushed(events);
    var kept := all[..Min(|all|, c.maxBodyBytes)];
    assert kept[..Min(|kept|, c.maxBodyBytes)] == kept;
  }
}

module Exchange {
  import opened Wrappers
  import opened AuditRecords

  // The logger, with everything offered to its queue.
  class ModelInteractionLogger {
    const config: Config
    var offered: seq<Record>

    constructor (config: Config)
      ensures this.config == config && offered == []
    {
      this.config := config;
      offered := [];
    }

    method Append(record: Record)
      modifies this
      ensures offered == old(offered) + [record]
    {
      offered := offered + [record];
    }
  }

  class Exchange {
    const logger: ModelInteractionLogger
    var phase: string
    var terminalRecorded: bool

    constructor (logger: ModelInteractionLogger)
      ensures this.logger == logger && phase == "waiting_for_upstream_response" && !terminalRecorded
    {
      this.logger := logger;
      phase, terminalRecorded := "waiting_for_upstream_response", false;
    }

    method MarkUpstreamResponseStarted()
      modifies this`phase
      ensures phase == "reading_upstream_response"
    {
      phase := "reading_upstream_response";
    }

    // An exchange that goes away without a terminal record was cancelled.
    method Drop()
      modifies this`terminalRecorded, logger
      ensures logger.offered == old(logger.offered)
                + if old(terminalRecorded) || !logger.config.Enabled() then [] else [ModelCancelled(phase)]
    {
      if terminalRecorded || !logger.config.Enabled() { return; }
      logger.Append(ModelCancelled(phase));
      terminalRecorded := true;
    }
  }

  // `begin`.
  method Begin(logger: ModelInteractionLogger, client: Option<(Bytes, nat)>, outbound: Bytes) returns (exchange: Exchange)
    modifies logger
    ensures fresh(exchange) && exchange.logger == logger && !exchange.terminalRecorded
    ensures exchange.phase == "waiting_for_upstream_response"
    ensures logger.offered == old(logger.offered)
              + if logger.config.Enabled() then RequestRecords(logger.config, client, outbound) else []
  {
    exchange := new Exchange(logger);
    if logger.config.Enabled() {
      if client.Some? {
        var (serialized, received) := client.value;
        if logger.config.mode.Metadata? {
          logger.Append(ClientRequest(BodyOf(logger.config, [], received)));
        } else {
          logger.Append(ClientRequest(BodyOf(logger.config, serialized, |serialized|)));
        }
      }
      logger.Append(ModelRequest(BodyOf(logger.config, outbound, |outbound|)));
    }
  }

  // `response_with_read_error`.
  method RecordResponse(exchange: Exchange, status: nat, bytes: Bytes, readError: Option<string>)
    modifies exchange`terminalRecorded, exchange.logger
    ensures exchange.terminalRecorded
    ensures exchange.logger.offered == old(exchange.logger.offered)
              + if exchange.logger.config.Enabled()
                then [ModelResponse(status, None, if readError.Some? then ReadFailed(Bounded(readError.value)) else Whole,
                                    BodyOf(exchange.logger.config, bytes, |bytes|))]
                else []
  {
    if !exchange.logger.config.Enabled() {
      exchange.terminalRecorded := true;
      return;
    }
    exchange.logger.Append(ModelResponse(status, None, if readError.Some? then ReadFailed(Bounded(readError.value)) else Whole,
                                         BodyOf(exchange.logger.config, bytes, |bytes|)));
    exchange.terminalRecorded := true;
  }

  method RecordTransportError(exchange: Exchange, message: string)
    modifies exchange`terminalRecorded, exchange.logger
    ensures exchange.terminalRecorded
    ensures exchange.logger.offered == old(exchange.logger.offered)
              + if exchange.logger.config.Enabled() then [ModelTransportError(message)] else []
  {
    if !exchange.logger.config.Enabled() {
      exchange.terminalRecorded := true;
      return;
    }
    exchange.logger.Append(ModelTransportError(message));
    exchange.terminalRecorded := true;
  }

  // The capture of a streamed body; it owns its exchange.
  class StreamingCapture {
    const exchange: Exchange
    const status: nat
    var captured: Bytes
    var total: nat
    var finished: bool
    var bodyReadError: Option<string>
    var protocolComplete: bool
    ghost var events: seq<StreamEvent>  // what has happened to it

    ghost predicate Valid()
      reads this
    {
      && captured == Captured(exchange.logger.config, events) && total == |Pushed(events)|
      && bodyReadError == LastReadError(events) && protocolComplete == (ProtocolComplete in events)
    }

    constructor (exchange: Exchange, status: nat)
      ensures Valid() && !finished && events == [] && this.exchange == exchange && this.status == status
    {
      this.exchange, this.status := exchange, status;
      captured, total, finished, bodyReadError, protocolComplete := [], 0, false, None, false;
      events := [];
    }

    method Push(bytes: Bytes)
      requires Valid()
      modifies this`captured, this`total, this`events
      ensures Valid() && events == old(events) + [Chunk(bytes)]
    {
      ghost var before := Pushed(events);
      var c := exchange.logger.config;
      total := total + |bytes|;
      if c.mode == Full && |captured| < c.maxBodyBytes {
        var remaining := c.maxBodyBytes - |captured|;
        captured := captured + bytes[..Min(|bytes|, remaining)];
      }
      events := events + [Chunk(bytes)];
      assert events[..|events| - 1] == old(events);
      assert Pushed(events) == before + bytes;
    }

    method MarkReadError(message: string)
      requires Valid()
      modifies this`bodyReadError, this`events
      ensures Valid() && events == old(events) + [ReadError(message)]
    {
      bodyReadError := Some(Bounded(message));
      events := events + [ReadError(message)];
      assert events[..|events| - 1] == old(events);
      assert Pushed(events) == Pushed(old(events)) + [];
    }

    method MarkProtocolComplete()
      requires Valid()
      modifies this`protocolComplete, this`events
      ensures Valid() && events == old(events) + [ProtocolComplete]
    {
      protocolComplete := true;
      events := events + [ProtocolComplete];
      assert events[..|events| - 1] == old(events);
      assert Pushed(events) == Pushed(old(events)) + [];
    }

    method Record(complete: bool)
      requires Valid()
      modifies exchange`terminalRecorded, exchange.logger
      ensures exchange.terminalRecorded
      ensures exchange.logger.offered == old(exchange.logger.offered)
                + if exchange.logger.config.Enabled()
                  then [TerminalFor(exchange.logger.config, Streamed(status, events, complete))] else []
    {
      if !exchange.logger.config.Enabled() {
        exchange.terminalRecorded := true;
        return;
      }
      var ending := if complete then Whole else if bodyReadError.Some? then ReadFailed(bodyReadError.value) else Abandoned;
      exchange.logger.Append(ModelResponse(status, Some(protocolComplete), ending,
                                           BodyOf(exchange.logger.config, captured, total)));
      exchange.terminalRecorded := true;
    }

    // The capture goes away: first itself, then the exchange it owns.
    method Drop()
      requires Valid() && (finished ==> exchange.terminalRecorded)
      modifies exchange`terminalRecorded, exchange.logger
      ensures exchange.logger.offered == old(exchange.logger.offered)
                + if finished || !exchange.logger.config.Enabled() then []
                  else [TerminalFor(exchange.logger.config, Streamed(status, events, false))]
    {
      if !finished { Record(false); }
      exchange.Drop();
    }

    // `finish` consumes the capture: it is dropped at once.
    method Finish()
      requires Valid() && !finished
      modifies this`finished, exchange`terminalRecorded, exchange.logger
      ensures exchange.logger.offered == old(exchange.logger.offered)
                + if exchange.logger.config.Enabled()
                  then [TerminalFor(exchange.logger.config, Streamed(status, events, true))] else []
    {
      Record(true);
      finished := true;
      Drop();
    }
  }

  // A streamed body being read: any events in any order, then the end of the body or a drop.
  method ReadStream(exchange: Exchange, status: nat, events: seq<StreamEvent>, finished: bool)
    modifies exchange`terminalRecorded, exchange.logger
    ensures exchange.logger.offered == old(exchange.logger.offered)
              + if exchange.logger.config.Enabled()
                then [TerminalFor(exchange.logger.config, Streamed(status, events, finished))] else []
  {
    var capture := new StreamingCapture(exchange, status);
    for i := 0 to |events|
      invariant fresh(capture) && capture.exchange == exchange && capture.status == status
      invariant capture.Valid() && !capture.finished && capture.events == events[..i]
      invariant exchange.logger.offered == old(exchange.logger.offered)
    {
      assert events[..i + 1] == events[..i] + [events[i]];
      match events[i] {
        case Chunk(bytes) => capture.Push(bytes);
        case ReadError(message) => capture.MarkReadError(message);
        case ProtocolComplete => capture.MarkProtocolComplete();
      }
    }
    assert events[..|events|] == events;
    if finished { capture.Finish(); } else { capture.Drop(); }
  }

  // `forward`: from the request records to the drop of whatever holds the exchange.
  method Forward(logger: ModelInteractionLogger, client: Option<(Bytes, nat)>, outbound: Bytes, path: Path)
    modifies logger
    ensures logger.offered == old(logger.offered) + ExchangeRecords(logger.config, client, outbound, path)
    ensures Terminals(ExchangeRecords(logger.config, client, outbound, path)) == if logger.config.Enabled() then 1 else 0
  {
    OneTerminal(logger.config, client, outbound, path);
    var exchange := Begin(logger, client, outbound);
    match path {
      case CancelledBeforeResponse =>
      case TransportFailed(message) => RecordTransportError(exchange, message);
      case Buffered(status, reading) =>
        exchange.MarkUpstreamResponseStarted();
        match reading {
          case ReadCancelled =>
          case ReadFailure(bytes, message) => RecordResponse(exchange, status, bytes, Some(message));
          case ReadAll(bytes) => RecordResponse(exchange, status, bytes, None);
        }
      case Streamed(status, events, finished) =>
        exchange.MarkUpstreamResponseStarted();
        ReadStream(exchange, status, events, finished);
        return;
    }
    exchange.Drop();
  }
}
