/** The send path: the ASGI `send` callback and `Monitoring.after` record
    into one event log; buffered responses send a start message and one body
    message; `StreamingResponse` sends one body frame per produced chunk and
    a terminal empty frame. */
module Protocol {
  import opened Wire
  import opened Dicts
  import opened Text
  import opened Normalize
  import opened Envelope

  /** The two ASGI message types a response sends. */
  datatype Message =
    | ResponseStart(status: StatusCode, headers: seq<(ByteString, ByteString)>)  // http.response.start
    | ResponseBody(body: ByteString, moreBody: bool)                             // http.response.body

  datatype Event = Sent(message: Message) | MonitoringAfter(status: StatusCode)

  /** What the transport and the monitoring hook have seen, in order. */
  class EventLog {
    var events: seq<Event>

    constructor ()
      ensures events == []
    {
      events := [];
    }

    /** `await send(message)`. */
    method Send(m: Message)
      modifies this
      ensures events == old(events) + [Sent(m)]
    {
      events := events + [Sent(m)];
    }

    /** `await monitoring.after(status_code)`. */
    method After(status: StatusCode)
      modifies this
      ensures events == old(events) + [MonitoringAfter(status)]
    {
      events := events + [MonitoringAfter(status)];
    }
  }

  // ---------------------------------------------------------------------
  // Buffered responses

  /** The events `Response.send` produces, or the exception it raises before
      anything is sent. */
  function BufferedTrace(r: Response, rt: Runtime): Result<seq<Event>> {
    var hs :- Headers(r, rt);
    var body :- Body(r, rt);
    Ok([Sent(ResponseStart(r.statusCode, BytesHeaders(hs, rt))),
        Sent(ResponseBody(body, false)),
        MonitoringAfter(r.statusCode)])
  }

  /** `send_headers`: computing `bytes_headers` may raise (through `body`),
      in which case nothing is sent. */
  method SendHeaders(r: Response, rt: Runtime, log: EventLog) returns (outcome: Outcome)
    modifies log
    ensures Headers(r, rt).Ok? ==>
      outcome == Pass &&
      log.events == old(log.events) + [Sent(ResponseStart(r.statusCode, BytesHeaders(Headers(r, rt).value, rt)))]
    ensures Headers(r, rt).Err? ==> outcome == Fail(Headers(r, rt).error) && log.events == old(log.events)
  {
    var hs := Headers(r, rt);
    if hs.Err? {
      return Fail(hs.error);
    }
    log.Send(ResponseStart(r.statusCode, BytesHeaders(hs.value, rt)));
    outcome := Pass;
  }

  /** `send_body`: the whole body in one message that says no more follows. */
  method SendBody(r: Response, rt: Runtime, log: EventLog) returns (outcome: Outcome)
    modifies log
    ensures Body(r, rt).Ok? ==>
      outcome == Pass && log.events == old(log.events) + [Sent(ResponseBody(Body(r, rt).value, false))]
    ensures Body(r, rt).Err? ==> outcome == Fail(Body(r, rt).error) && log.events == old(log.events)
  {
    var body := Body(r, rt);
    if body.Err? {
      return Fail(body.error);
    }
    log.Send(ResponseBody(body.value, false));
    outcome := Pass;
  }

  /** `send`: headers, body, then `monitoring.after(status_code)`. */
  method Send(r: Response, rt: Runtime, log: EventLog) returns (outcome: Outcome)
    modifies log
    ensures BufferedTrace(r, rt).Ok? ==> outcome == Pass && log.events == old(log.events) + BufferedTrace(r, rt).value
    ensures BufferedTrace(r, rt).Err? ==> outcome == Fail(BufferedTrace(r, rt).error) && log.events == old(log.events)
  {
    outcome := SendHeaders(r, rt, log);
    if outcome.Fail? {
      return;
    }
    outcome := SendBody(r, rt, log);
    if outcome.Fail? {
      return;
    }
    log.After(r.statusCode);
  }

  /** A buffered response sends exactly a start message with its status and
      header bytes, then one final body message carrying `body`, then calls the
      monitoring hook once with the status; it fails, sending nothing, exactly
      when `body` fails. Unless the user set Content-Length, the start message
      carries it as the decimal length of the body actually sent. */
  lemma BufferedTraceContract(r: Response, rt: Runtime)
    requires UniqueKeys(r.userHeaders)
    ensures BufferedTrace(r, rt).Ok? <==> Body(r, rt).Ok?
    ensures BufferedTrace(r, rt).Err? ==> BufferedTrace(r, rt).error == Body(r, rt).error
    ensures BufferedTrace(r, rt).Ok? ==>
      var t := BufferedTrace(r, rt).value;
      && |t| == 3
      && t[0].Sent? && t[0].message.ResponseStart? && t[0].message.status == r.statusCode
      && t[0].message.headers == BytesHeaders(Headers(r, rt).value, rt)
      && t[1] == Sent(ResponseBody(Body(r, rt).value, false))
      && t[2] == MonitoringAfter(r.statusCode)
      && (!HasKey(r.userHeaders, "Content-Length") ==>
            exists i :: 0 <= i < |t[0].message.headers| &&
              t[0].message.headers[i] == (rt.encode("Content-Length"), rt.encode(IntStr(|t[1].message.body|))))
  {
    HeadersContract(r, rt);
    if Body(r, rt).Ok? {
      var hs := Headers(r, rt).value;
      var body := Body(r, rt).value;
      BytesHeadersPointwise(hs, rt);
      if !HasKey(r.userHeaders, "Content-Length") {
        LookupFound(hs, "Content-Length");
        var i :| 0 <= i < |hs| && hs[i] == ("Content-Length", Int(|body|));
        assert BytesHeaders(hs, rt)[i] == (rt.encode("Content-Length"), rt.encode(IntStr(|body|)));
      }
    }
  }

  // ---------------------------------------------------------------------
  // Streaming responses

  /** The generator behind a streaming response. Sync and async generators are
      pulled alike; a chunk once pulled is gone, so a stream is one-pass. */
  class Producer {
    var remaining: seq<Value>

    constructor (chunks: seq<Value>)
      ensures remaining == chunks
    {
      remaining := chunks;
    }

    /** One pull of `async for`: the next chunk, or None when exhausted. */
    method Next() returns (chunk: Option<Value>)
      modifies this
      ensures old(remaining) == [] ==> chunk == None && remaining == []
      ensures old(remaining) != [] ==> chunk == Some(old(remaining)[0]) && remaining == old(remaining)[1..]
    {
      if remaining == [] {
        return None;
      }
      chunk := Some(remaining[0]);
      remaining := remaining[1..];
    }
  }

  const StreamingContentType: string := "application/octet-stream"

  /** A constructed `StreamingResponse`: `data` is the async generator it
      stores, `producer` the stream state that generator pulls from. */
  datatype StreamingResponse = StreamingResponse(
    userHeaders: seq<(string, Value)>, data: Value, producer: Producer, statusCode: StatusCode)

  /** `StreamingResponse.prepare_data`: an async generator is kept as it is,
      a sync generator is wrapped by `to_async_generator` into an async one
      over the same chunks, and every other value (lists included) raises
      TypeError. */
  function StreamingPrepare(data: Value): (r: Result<Value>)
    ensures r.Ok? <==> data.Generator?
    ensures r.Ok? ==> r.value == Generator(true, data.chunks)
    ensures r.Ok? && data.isAsync ==> r.value == data
    ensures r.Err? ==> r.error == TypeError(InvalidTypeMessage(data))
  {
    if data.Generator? && data.isAsync then Ok(data)
    else if data.Generator? then Ok(Generator(true, data.chunks))
    else Err(TypeError(InvalidTypeMessage(data)))
  }

  /** `StreamingResponse(data, headers, status_code)`: the data check comes
      before the status-code check. */
  method NewStreaming(data: Value, headers: Option<seq<(string, Value)>>, statusCode: Value, rt: Runtime)
    returns (r: Result<StreamingResponse>)
    ensures r.Ok? <==> data.Generator? && (statusCode.Int? || statusCode.Bool?)
    ensures !data.Generator? ==> r == Err(TypeError(InvalidTypeMessage(data)))
    ensures data.Generator? && !(statusCode.Int? || statusCode.Bool?) ==> r == Err(TypeError(StatusCodeMessage(statusCode, rt)))
    ensures r.Ok? ==>
      && fresh(r.value.producer) && r.value.producer.remaining == data.chunks
      && r.value.data == Generator(true, data.chunks) && r.value.statusCode == statusCode
      && r.value.userHeaders == (if headers.Some? then headers.value else [])
  {
    var userHeaders := if headers.Some? then headers.value else [];
    var prepared := StreamingPrepare(data);
    if prepared.Err? {
      return Err(prepared.error);
    }
    var status := CheckStatusCode(statusCode, rt);
    if status.Err? {
      return Err(status.error);
    }
    var producer := new Producer(prepared.value.chunks);
    r := Ok(StreamingResponse(userHeaders, prepared.value, producer, status.value));
  }

  /** The inherited `__str__` shows the stored async generator, which for a
      sync source is the `to_async_generator` wrapper. */
  function StreamingResponseStr(s: StreamingResponse, rt: Runtime): string {
    Describe(s.statusCode, s.data, rt)
  }

  const StreamingDefaultHeaders: seq<(string, Value)> :=
    [("Content-Type", Str(StreamingContentType)), ("Access-Control-Allow-Origin", Str("*"))]

  /** The streaming `headers` property: no Content-Length. */
  function StreamingHeaders(s: StreamingResponse): seq<(string, Value)> {
    Union(StreamingDefaultHeaders, s.userHeaders)
  }

  /** Content-Length is present only when the user put it there; the two
      defaults hold unless the user overrides them; user keys win; no other
      key appears; the defaults come first, then the user's other keys in the
      user's order; no key is repeated. */
  lemma StreamingHeadersContract(s: StreamingResponse)
    requires UniqueKeys(s.userHeaders)
    ensures UniqueKeys(StreamingHeaders(s))
    ensures Keys(StreamingHeaders(s)) == Keys(StreamingDefaultHeaders) + NewKeys(Keys(s.userHeaders), Keys(StreamingDefaultHeaders))
    ensures forall k :: HasKey(StreamingHeaders(s), k) ==> HasKey(s.userHeaders, k) || k in Keys(StreamingDefaultHeaders)
    ensures HasKey(StreamingHeaders(s), "Content-Length") <==> HasKey(s.userHeaders, "Content-Length")
    ensures Lookup(StreamingHeaders(s), "Content-Type") == Expected(s.userHeaders, "Content-Type", Str(StreamingContentType))
    ensures Lookup(StreamingHeaders(s), "Access-Control-Allow-Origin") == Expected(s.userHeaders, "Access-Control-Allow-Origin", Str("*"))
    ensures forall k :: HasKey(s.userHeaders, k) ==> Lookup(StreamingHeaders(s), k) == Lookup(s.userHeaders, k)
  {
    var d := StreamingDefaultHeaders;
    UniqueUnion(d, s.userHeaders);
    KeysUnion(d, s.userHeaders);
    assert |d[0].0| != |"Content-Length"| && |d[1].0| != |"Content-Length"| && |d[0].0| != |"Access-Control-Allow-Origin"|;
    assert Lookup(d[1..], "Content-Length") == None;
    assert Lookup(d[1..], "Access-Control-Allow-Origin") == Some(Str("*"));
    LookupUnion(d, s.userHeaders, "Content-Length");
    LookupUnion(d, s.userHeaders, "Content-Type");
    LookupUnion(d, s.userHeaders, "Access-Control-Allow-Origin");
    forall k | HasKey(s.userHeaders, k) ensures Lookup(StreamingHeaders(s), k) == Lookup(s.userHeaders, k) {
      LookupUnion(d, s.userHeaders, k);
    }
    forall k | HasKey(StreamingHeaders(s), k) ensures HasKey(s.userHeaders, k) || k in Keys(d) {
      LookupUnion(d, s.userHeaders, k);
      HasKeyIsInKeys(d, k);
    }
  }

  /** One chunk of the streaming `body`: bytes as they are, None as empty
      bytes, anything else JSON-encoded. */
  function ChunkBytes(chunk: Value, rt: Runtime): Result<ByteString> {
    if chunk.Bytes? then Ok(chunk.bytes)
    else if chunk.Null? then Ok([])
    else match rt.jsonDumps(chunk)
      case Some(b) => Ok(b)
      case None => Err(JsonEncodeError)
  }

  /** A run of the streaming `send_body`: the events sent, the chunks left in
      the producer and the exception that stopped the run, if any. */
  datatype StreamRun = StreamRun(sent: seq<Event>, rest: seq<Value>, failure: Option<Error>)

  function StreamBody(chunks: seq<Value>, rt: Runtime): StreamRun {
    if chunks == [] then StreamRun([Sent(ResponseBody([], false))], [], None)
    else match ChunkBytes(chunks[0], rt)
      case Err(e) => StreamRun([], chunks[1..], Some(e))
      case Ok(b) =>
        var run := StreamBody(chunks[1..], rt);
        run.(sent := [Sent(ResponseBody(b, true))] + run.sent)
  }

  /** The streaming `send_body`: pulls every chunk and sends it with
      `more_body` set, then an empty final frame. A chunk that cannot be
      encoded stops the loop after it was pulled, with no final frame. */
  method StreamingSendBody(s: StreamingResponse, rt: Runtime, log: EventLog) returns (outcome: Outcome)
    modifies log, s.producer
    ensures var run := StreamBody(old(s.producer.remaining), rt);
      && log.events == old(log.events) + run.sent
      && s.producer.remaining == run.rest
      && outcome == (if run.failure.Some? then Fail(run.failure.value) else Pass)
  {
    var producer := s.producer;
    ghost var total := StreamBody(producer.remaining, rt);
    ghost var sent: seq<Event> := [];
    while true
      invariant log.events == old(log.events) + sent
      invariant total == StreamBody(producer.remaining, rt).(sent := sent + StreamBody(producer.remaining, rt).sent)
      decreases |producer.remaining|
    {
      ghost var before := producer.remaining;
      var chunk := producer.Next();
      if chunk.None? {
        break;
      }
      var bytes := ChunkBytes(chunk.value, rt);
      if bytes.Err? {
        return Fail(bytes.error);
      }
      log.Send(ResponseBody(bytes.value, true));
      StreamBodyStep(before, rt, sent);
      sent := sent + [Sent(ResponseBody(bytes.value, true))];
    }
    log.Send(ResponseBody([], false));
    outcome := Pass;
  }

  /** One frame of the loop above, moved from the remaining run to what has
      been sent. */
  lemma StreamBodyStep(before: seq<Value>, rt: Runtime, sent: seq<Event>)
    requires before != [] && ChunkBytes(before[0], rt).Ok?
    ensures var frame := Sent(ResponseBody(ChunkBytes(before[0], rt).value, true));
      var run := StreamBody(before, rt);
      var next := StreamBody(before[1..], rt);
      run.(sent := sent + run.sent) == next.(sent := (sent + [frame]) + next.sent)
  {
    var frame := Sent(ResponseBody(ChunkBytes(before[0], rt).value, true));
    var next := StreamBody(before[1..], rt);
    assert sent + ([frame] + next.sent) == (sent + [frame]) + next.sent;
  }

  /** `send` on a streaming response (inherited from `Response`): the start
      message, the frames, then `monitoring.after`, which an exception in the
      middle of the stream skips. */
  method StreamingSend(s: StreamingResponse, rt: Runtime, log: EventLog) returns (outcome: Outcome)
    modifies log, s.producer
    ensures var run := StreamBody(old(s.producer.remaining), rt);
      && s.producer.remaining == run.rest
      && log.events == old(log.events) + [Sent(ResponseStart(s.statusCode, BytesHeaders(StreamingHeaders(s), rt)))]
           + run.sent + (if run.failure.None? then [MonitoringAfter(s.statusCode)] else [])
      && outcome == (if run.failure.Some? then Fail(run.failure.value) else Pass)
  {
    log.Send(ResponseStart(s.statusCode, BytesHeaders(StreamingHeaders(s), rt)));
    outcome := StreamingSendBody(s, rt, log);
    if outcome.Fail? {
      return;
    }
    log.After(s.statusCode);
  }

  /** When every chunk encodes, n chunks give n frames with `more_body` set,
      in producer order, then exactly one empty final frame: n + 1 in all, and
      the producer is exhausted. */
  lemma {:induction false} StreamBodyComplete(chunks: seq<Value>, rt: Runtime)
    requires forall i :: 0 <= i < |chunks| ==> ChunkBytes(chunks[i], rt).Ok?
    ensures var run := StreamBody(chunks, rt);
      && run.failure == None && run.rest == []
      && |run.sent| == |chunks| + 1
      && (forall i :: 0 <= i < |chunks| ==> run.sent[i] == Sent(ResponseBody(ChunkBytes(chunks[i], rt).value, true)))
      && run.sent[|chunks|] == Sent(ResponseBody([], false))
  {
    if chunks != [] {
      assert forall i :: 1 <= i < |chunks| ==> chunks[i] == chunks[1..][i - 1];
      assert ChunkBytes(chunks[0], rt).Ok?;
      StreamBodyComplete(chunks[1..], rt);
    }
  }

  /** When chunk k is the first that cannot be encoded, the k frames before
      it are sent, no final frame is, and the producer has moved past it. */
  lemma {:induction false} StreamBodyAborted(chunks: seq<Value>, rt: Runtime, k: nat)
    requires k < |chunks| && ChunkBytes(chunks[k], rt).Err?
    requires forall i :: 0 <= i < k ==> ChunkBytes(chunks[i], rt).Ok?
    ensures var run := StreamBody(chunks, rt);
      && run.failure == Some(ChunkBytes(chunks[k], rt).error) && run.rest == chunks[k + 1..]
      && |run.sent| == k
      && (forall i :: 0 <= i < k ==> run.sent[i] == Sent(ResponseBody(ChunkBytes(chunks[i], rt).value, true)))
  {
    if k > 0 {
      assert forall i :: 1 <= i < |chunks| ==> chunks[i] == chunks[1..][i - 1];
      assert ChunkBytes(chunks[0], rt).Ok?;
      StreamBodyAborted(chunks[1..], rt, k - 1);
      assert chunks[1..][k..] == chunks[k + 1..];
    }
  }

  /** The producer `[b"a", None, {"x": 1}]` gives four body frames: `b"a"`,
      `b""` and the JSON of the dict with `more_body` set, then a final
      `b""`. */
  lemma ThreeChunkExample(rt: Runtime, json: ByteString)
    requires rt.jsonDumps(Dict([("x", Int(1))])) == Some(json)
    ensures StreamBody([Bytes([97]), Null, Dict([("x", Int(1))])], rt).sent ==
      [Sent(ResponseBody([97], true)), Sent(ResponseBody([], true)),
       Sent(ResponseBody(json, true)), Sent(ResponseBody([], false))]
  {
    var chunks := [Bytes([97]), Null, Dict([("x", Int(1))])];
    assert chunks[1..] == [Null, Dict([("x", Int(1))])];
    assert chunks[1..][1..] == [Dict([("x", Int(1))])];
    assert StreamBody(chunks[1..][1..], rt).sent == [Sent(ResponseBody(json, true)), Sent(ResponseBody([], false))] by {
      assert ChunkBytes(Dict([("x", Int(1))]), rt) == Ok(json);
      assert chunks[1..][1..][1..] == [];
    }
    assert StreamBody(chunks[1..], rt).sent ==
      [Sent(ResponseBody([], true)), Sent(ResponseBody(json, true)), Sent(ResponseBody([], false))];
  }

  /** A stream is consumed once: sending the same streaming response again
      after a complete run sends only its start message, the empty final
      frame and the monitoring call. */
  method ResendAfterCompleteStream(s: StreamingResponse, rt: Runtime, log: EventLog)
    requires forall i :: 0 <= i < |s.producer.remaining| ==> ChunkBytes(s.producer.remaining[i], rt).Ok?
    modifies log, s.producer
    ensures var start := Sent(ResponseStart(s.statusCode, BytesHeaders(StreamingHeaders(s), rt)));
      log.events == old(log.events)
        + [start] + StreamBody(old(s.producer.remaining), rt).sent + [MonitoringAfter(s.statusCode)]
        + [start, Sent(ResponseBody([], false)), MonitoringAfter(s.statusCode)]
  {
    StreamBodyComplete(s.producer.remaining, rt);
    var first := StreamingSend(s, rt, log);
    var second := StreamingSend(s, rt, log);
  }
}
