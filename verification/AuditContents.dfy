// What the audit records of an exchange hold, told from the path it took.
module AuditContents {
  import opened Wrappers
  import opened AuditRecords

  predicate Cancelled(path: Path) { path.CancelledBeforeResponse? || (path.Buffered? && path.reading.ReadCancelled?) }

  function Records(c: Config, client: Option<(Bytes, nat)>, outbound: Bytes, path: Path): seq<Record> {
    ExchangeRecords(c, client, outbound, path)
  }

  function Last(records: seq<Record>): Record
    requires records != []
  {
    records[|records| - 1]
  }

  predicate HasBody(r: Record) { r.ClientRequest? || r.ModelRequest? || r.ModelResponse? }

  // Metadata mode keeps no byte of any body, only its length.
  lemma MetadataKeepsNoBody(c: Config, client: Option<(Bytes, nat)>, outbound: Bytes, path: Path)
    requires c.mode.Metadata?
    ensures forall r :: r in Records(c, client, outbound, path) && HasBody(r) ==> r.body.kept.None? && !r.body.truncated
  {
  }

  // The requests come first: the client's, when it is logged, with the length received, and then the one sent.
  lemma RequestsComeFirst(c: Config, client: Option<(Bytes, nat)>, outbound: Bytes, path: Path)
    requires c.Enabled()
    ensures var records := Records(c, client, outbound, path);
            && |records| == (if client.Some? then 3 else 2)
            && (client.Some? ==> records[0].ClientRequest?
                                 && records[0].body.total == if c.mode.Full? then |client.value.0| else client.value.1)
            && var sent := records[|records| - 2]; sent.ModelRequest? && sent.body.total == |outbound|
  {
  }

  // In full mode a body is kept up to the limit, and the record says whether that is all.
  predicate KeepsUpTo(body: Body, bytes: Bytes, limit: nat) {
    && body.total == |bytes| && body.kept.Some? && body.kept.value <= bytes
    && |body.kept.value| == (if |bytes| <= limit then |bytes| else limit) && (body.truncated <==> |bytes| > limit)
  }

  lemma RequestBodies(c: Config, client: Option<(Bytes, nat)>, outbound: Bytes, path: Path)
    requires c.Enabled() && c.mode.Full?
    ensures var records := Records(c, client, outbound, path);
            && (client.Some? ==> records[0].ClientRequest? && KeepsUpTo(records[0].body, client.value.0, c.maxBodyBytes))
            && |records| > 1 && records[|records| - 2].ModelRequest? && KeepsUpTo(records[|records| - 2].body, outbound, c.maxBodyBytes)
  {
  }

  // The terminal record by path: cancelled with the phase it was in, the transport's error, or the response.
  lemma TerminalByPath(c: Config, client: Option<(Bytes, nat)>, outbound: Bytes, path: Path)
    requires c.Enabled()
    ensures Records(c, client, outbound, path) != []
    ensures var last := Last(Records(c, client, outbound, path));
            && (last.ModelCancelled? <==> Cancelled(path)) && (last.ModelTransportError? <==> path.TransportFailed?)
            && (path.CancelledBeforeResponse? ==> last == ModelCancelled("waiting_for_upstream_response"))
            && (path.Buffered? && path.reading.ReadCancelled? ==> last == ModelCancelled("reading_upstream_response"))
            && (path.TransportFailed? ==> last == ModelTransportError(path.message))
            && (last.ModelResponse? ==> (path.Buffered? || path.Streamed?) && last.status == path.status)
  {
  }

  // A buffered response is whole exactly when all of it was read; what was read is in the record.
  lemma BufferedResponse(c: Config, client: Option<(Bytes, nat)>, outbound: Bytes, status: nat, reading: Reading)
    requires c.Enabled() && !reading.ReadCancelled?
    ensures Records(c, client, outbound, Buffered(status, reading)) != []
    ensures var last := Last(Records(c, client, outbound, Buffered(status, reading)));
            && last.ModelResponse? && last.protocolComplete.None? && (last.ending.Whole? <==> reading.ReadAll?)
            && (reading.ReadFailure? ==> last.ending.ReadFailed? && Shortened(last.ending.message, reading.message))
            && last.body.total == |reading.bytes| && (c.mode.Full? ==> KeepsUpTo(last.body, reading.bytes, c.maxBodyBytes))
  {
    ShortenedMessage(if reading.ReadFailure? then reading.message else "");
  }

  // At most 1024 characters, the last of them a mark when there were more.
  predicate Shortened(short: string, message: string) {
    if |message| <= 1024 then short == message
    else |short| == 1024 && short[..1023] == message[..1023] && short[1023] == '\U{2026}'
  }

  lemma ShortenedMessage(message: string)
    ensures Shortened(Bounded(message), message)
  {
  }

  function ChunkBytes(events: seq<StreamEvent>): Bytes {
    if events == [] then [] else (if events[0].Chunk? then events[0].bytes else []) + ChunkBytes(events[1..])
  }

  lemma {:induction false} ChunkBytesSnoc(events: seq<StreamEvent>, e: StreamEvent)
    ensures ChunkBytes(events + [e]) == ChunkBytes(events) + if e.Chunk? then e.bytes else []
    decreases |events|
  {
    if events == [] {
      assert [] + [e] == [e] && [e][1..] == [];
    } else {
      assert (events + [e])[0] == events[0] && (events + [e])[1..] == events[1..] + [e];
      ChunkBytesSnoc(events[1..], e);
    }
  }

  lemma {:induction false} PushedIsChunks(events: seq<StreamEvent>)
    ensures Pushed(events) == ChunkBytes(events)
    decreases |events|
  {
    if events != [] {
      var init, last := events[..|events| - 1], events[|events| - 1];
      PushedIsChunks(init);
      ChunkBytesSnoc(init, last);
      assert events == init + [last];
    }
  }

  predicate NoReadError(events: seq<StreamEvent>) { forall i :: 0 <= i < |events| ==> !events[i].ReadError? }

  predicate LastErrorAt(events: seq<StreamEvent>, i: nat) {
    i < |events| && events[i].ReadError? && forall j :: i < j < |events| ==> !events[j].ReadError?
  }

  // The last read error of a stream, if it had one.
  lemma {:induction false} ReadErrors(events: seq<StreamEvent>)
    ensures match LastReadError(events)
            case None => NoReadError(events)
            case Some(message) => exists i: nat :: LastErrorAt(events, i) && Shortened(message, events[i].message)
    decreases |events|
  {
    hide Shortened;
    if events != [] {
      var init, last := events[..|events| - 1], events[|events| - 1];
      assert forall i :: 0 <= i < |init| ==> events[i] == init[i];
      ReadErrors(init);
      if last.ReadError? {
        ShortenedMessage(last.message);
        assert LastErrorAt(events, |events| - 1);
      } else if LastReadError(init).Some? {
        var i: nat :| LastErrorAt(init, i) && Shortened(LastReadError(init).value, init[i].message);
        assert LastErrorAt(events, i);
      }
    }
  }

  // A streamed response is whole when its body ended; else it failed to be read, or was abandoned. All chunks count, and
  // the record says whether the protocol was complete.
  lemma StreamedResponse(c: Config, client: Option<(Bytes, nat)>, outbound: Bytes, status: nat, events: seq<StreamEvent>, finished: bool)
    requires c.Enabled()
    ensures Records(c, client, outbound, Streamed(status, events, finished)) != []
    ensures var last := Last(Records(c, client, outbound, Streamed(status, events, finished)));
            && last.ModelResponse? && (last.ending.Whole? <==> finished)
            && (last.ending.Abandoned? <==> !finished && NoReadError(events))
            && (last.ending.ReadFailed? ==> exists i: nat :: LastErrorAt(events, i) && Shortened(last.ending.message, events[i].message))
            && last.protocolComplete == Some(exists i :: 0 <= i < |events| && events[i] == ProtocolComplete)
            && last.body.total == |ChunkBytes(events)|
            && (c.mode.Full? ==> KeepsUpTo(last.body, ChunkBytes(events), c.maxBodyBytes))
  {
    PushedIsChunks(events);
    ReadErrors(events);
    if c.mode.Full? { StreamedBodyIsPrefix(c, status, events, finished); }
  }
}
