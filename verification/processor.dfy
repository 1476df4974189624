/**
 * src/processor.rs: reading a POST body under a size bound, calling the
 * matched handler with the body or with nothing, turning its result into a
 * response, and copying the shared headers onto a response builder.
 */
module RobynProcessor {
  import opened Wrappers
  import opened Python
  import opened Actix
  import opened RobynTypes

  /** The largest body, in bytes, that is read into memory. */
  const MAX_SIZE: nat := 10_000

  type byte = x: int | 0 <= x < 0x100

  /** One item of the request's payload stream: some bytes, or a read error. */
  datatype Chunk = Data(bytes: seq<byte>) | ReadError

  /**
   * The body loop as written: before appending a chunk, fail with Overflow
   * if the body would grow past MAX_SIZE; a read error fails at once.
   */
  function Accumulate(body: seq<byte>, rest: seq<Chunk>): (r: Result<seq<byte>, Error>)
    ensures r.Err? ==> r.error in {PayloadError, Overflow}
    ensures r.Ok? ==> body <= r.value && (|body| <= MAX_SIZE ==> |r.value| <= MAX_SIZE)
    decreases |rest|
  {
    if rest == [] then Ok(body)
    else match rest[0]
      case ReadError => Err(PayloadError)
      case Data(bytes) =>
        if |body| + |bytes| > MAX_SIZE then Err(Overflow)
        else Accumulate(body + bytes, rest[1..])
  }

  /** The outcome of reading a whole payload into an empty body. */
  function BodyOf(payload: seq<Chunk>): Result<seq<byte>, Error> {
    Accumulate([], payload)
  }

  /** Reference definition: the chunks, read without a bound, concatenated in order. */
  function Concat(payload: seq<Chunk>): seq<byte> {
    if payload == [] then []
    else (if payload[0].Data? then payload[0].bytes else []) + Concat(payload[1..])
  }

  predicate NoReadError(payload: seq<Chunk>) {
    forall i :: 0 <= i < |payload| ==> payload[i].Data?
  }

  lemma {:induction false} AccumulateMeaning(body: seq<byte>, rest: seq<Chunk>)
    requires |body| <= MAX_SIZE
    ensures Accumulate(body, rest).Ok? <==> NoReadError(rest) && |body| + |Concat(rest)| <= MAX_SIZE
    ensures Accumulate(body, rest).Ok? ==> Accumulate(body, rest).value == body + Concat(rest)
    ensures NoReadError(rest) && |body| + |Concat(rest)| > MAX_SIZE ==> Accumulate(body, rest) == Err(Overflow)
    decreases |rest|
  {
    if rest != [] {
      match rest[0]
      case ReadError =>
      case Data(bytes) =>
        assert Concat(rest) == bytes + Concat(rest[1..]);
        assert NoReadError(rest) <==> NoReadError(rest[1..]) by {
          assert forall i :: 0 < i < |rest| ==> rest[i] == rest[1..][i - 1];
        }
        if |body| + |bytes| <= MAX_SIZE {
          AccumulateMeaning(body + bytes, rest[1..]);
          assert body + bytes + Concat(rest[1..]) == body + Concat(rest);
        }
    }
  }

  /**
   * A payload is accepted exactly when every chunk was read and all of them
   * together hold at most MAX_SIZE bytes; the body is then all chunks in
   * order. Too many bytes without a read error is an Overflow.
   */
  lemma BodyOfMeaning(payload: seq<Chunk>)
    ensures BodyOf(payload).Ok? <==> NoReadError(payload) && |Concat(payload)| <= MAX_SIZE
    ensures BodyOf(payload).Ok? ==> BodyOf(payload).value == Concat(payload)
    ensures NoReadError(payload) && |Concat(payload)| > MAX_SIZE ==> BodyOf(payload) == Err(Overflow)
  {
    AccumulateMeaning([], payload);
  }

  /** Exactly MAX_SIZE bytes are accepted; one byte more is an Overflow. */
  lemma BodyBoundIsInclusive(payload: seq<Chunk>)
    requires NoReadError(payload)
    ensures |Concat(payload)| == 10_000 ==> BodyOf(payload) == Ok(Concat(payload))
    ensures |Concat(payload)| == 10_001 ==> BodyOf(payload) == Err(Overflow)
  {
    BodyOfMeaning(payload);
  }

  /**
   * The `while let` loop of `handle_request`: pull chunks until the stream
   * ends, failing on a read error or when the next chunk would pass
   * MAX_SIZE.
   */
  method ReadBody(payload: seq<Chunk>) returns (r: Result<seq<byte>, Error>)
    ensures r == BodyOf(payload)
    ensures r.Ok? ==> |r.value| <= MAX_SIZE
  {
    var body: seq<byte> := [];
    var i := 0;
    while i < |payload|
      invariant 0 <= i <= |payload|
      invariant |body| <= MAX_SIZE
      invariant BodyOf(payload) == Accumulate(body, payload[i..])
    {
      assert payload[i..][1..] == payload[i + 1..];
      var chunk := payload[i];
      if chunk.ReadError? {
        return Err(PayloadError);
      }
      if |body| + |chunk.bytes| > MAX_SIZE {
        return Err(Overflow);
      }
      body := body + chunk.bytes;
      i := i + 1;
    }
    r := Ok(body);
  }

  /** How the handler is called: `call1((data,))` with the body, or `call0()`. */
  datatype Args = NoArgs | OneArg(data: seq<byte>)

  /** A Python value a handler call produces: a `Response`, or anything else. */
  datatype PyValue = ResponseValue(response: Response) | OtherValue(id: nat)

  /** An awaitable obtained from a coroutine (`pyo3_asyncio::into_future`). */
  datatype Future = Future(id: nat)

  /**
   * The interpreter as the dispatcher sees it: calling a handler, turning a
   * coroutine into a future, and awaiting a future. Each may raise.
   */
  datatype PyHost = PyHost(
    call: (PyCallable, Args) -> Result<PyValue, PyException>,
    intoFuture: PyValue -> Result<Future, PyException>,
    resolve: Future -> Result<PyValue, PyException>)

  /** `extract::<Response>()`: only a Response object converts. */
  function Extract(v: PyValue): (r: Result<Response, Error>)
    ensures r.Ok? <==> v.ResponseValue?
  {
    match v
    case ResponseValue(response) => Ok(response)
    case OtherValue(_) => Err(ExtractError)
  }

  /**
   * The `match function` part of `handle_request`: a coroutine handler is
   * called, its result turned into a future and awaited; a plain handler is
   * called directly. The final value must be a Response, which is then
   * rendered. Any failure along the way is the result.
   */
  function Invoke(f: PyFunction, args: Args, host: PyHost, files: set<string>): (r: Result<WireResponse, Error>)
    ensures r.Ok? ==> r.value.status == OK && r.value.headers == map[]
    ensures r.Err? ==> r.error.PyErr? || r.error == ExtractError || r.error.FileOpenError?
  {
    match f
    case CoRoutine(handler) =>
      (match host.call(handler, args)
       case Err(e) => Err(PyErr(e))
       case Ok(coro) =>
         match host.intoFuture(coro)
         case Err(e) => Err(PyErr(e))
         case Ok(future) =>
           match host.resolve(future)
           case Err(e) => Err(PyErr(e))
           case Ok(output) =>
             match Extract(output)
             case Err(e) => Err(e)
             case Ok(response) => MakeResponse(response, files))
    case SyncFunction(handler) =>
      match host.call(handler, args)
      case Err(e) => Err(PyErr(e))
      case Ok(res) =>
        match Extract(res)
        case Err(e) => Err(e)
        case Ok(response) => MakeResponse(response, files)
  }

  /** A final value that is not a Response fails the request, for either kind of handler. */
  lemma NotAResponseFails(f: PyFunction, args: Args, host: PyHost, files: set<string>, id: nat)
    requires f.SyncFunction? ==> host.call(f.handler, args) == Ok(OtherValue(id))
    requires f.CoRoutine? ==>
      && host.call(f.handler, args).Ok?
      && host.intoFuture(host.call(f.handler, args).value).Ok?
      && host.resolve(host.intoFuture(host.call(f.handler, args).value).value) == Ok(OtherValue(id))
    ensures Invoke(f, args, host, files) == Err(ExtractError)
  {
  }

  /** A plain handler that returns a Response is answered with that Response rendered. */
  lemma SyncResponseRenders(h: PyCallable, args: Args, host: PyHost, files: set<string>, resp: Response)
    requires host.call(h, args) == Ok(ResponseValue(resp))
    ensures Invoke(SyncFunction(h), args, host, files) == MakeResponse(resp, files)
  {
  }

  /** A coroutine handler whose awaited result is a Response is answered with that Response rendered. */
  lemma CoroutineResponseRenders(h: PyCallable, args: Args, host: PyHost, files: set<string>, resp: Response)
    requires host.call(h, args).Ok?
    requires host.intoFuture(host.call(h, args).value).Ok?
    requires host.resolve(host.intoFuture(host.call(h, args).value).value) == Ok(ResponseValue(resp))
    ensures Invoke(CoRoutine(h), args, host, files) == MakeResponse(resp, files)
  {
  }

  /** A handler that raises fails the request with its exception. */
  lemma RaisingHandlerFails(f: PyFunction, args: Args, host: PyHost, files: set<string>)
    requires host.call(f.handler, args).Err?
    ensures Invoke(f, args, host, files) == Err(PyErr(host.call(f.handler, args).error))
  {
  }

  /** What dispatch produced, and how the handler was called (None: it was not called). */
  datatype Dispatched = Dispatched(result: Result<WireResponse, Error>, called: Option<Args>)

  /**
   * `handle_request`, as a function of its inputs: only a POST reads a
   * body; a failed read ends dispatch before the handler is called; the
   * handler gets the body as its one argument when there is one, and no
   * argument otherwise.
   */
  function Dispatch(f: PyFunction, payload: seq<Chunk>, req: HttpRequest, host: PyHost, files: set<string>): (d: Dispatched)
    ensures d.called.Some? ==> d.result == Invoke(f, d.called.value, host, files)
    ensures d.called.None? ==> req.httpMethod == POST && d.result.Err? && d.result.error in {PayloadError, Overflow}
    ensures d.called == Some(NoArgs) <==> req.httpMethod != POST
  {
    if req.httpMethod == POST then
      match BodyOf(payload)
      case Err(e) => Dispatched(Err(e), None)
      case Ok(body) => Dispatched(Invoke(f, OneArg(body), host, files), Some(OneArg(body)))
    else
      Dispatched(Invoke(f, NoArgs, host, files), Some(NoArgs))
  }

  /** Any method but POST: the payload is not read and the handler is called with no argument. */
  lemma NoBodyUnlessPost(f: PyFunction, payload: seq<Chunk>, req: HttpRequest, host: PyHost, files: set<string>)
    requires req.httpMethod != POST
    ensures Dispatch(f, payload, req, host, files) == Dispatch(f, [], req, host, files)
    ensures Dispatch(f, payload, req, host, files).called == Some(NoArgs)
  {
  }

  /**
   * POST: the handler is called exactly when the body is accepted, and then
   * with one argument holding every chunk in order; otherwise dispatch fails
   * with the read error or Overflow and the handler is not called.
   */
  lemma PostBodySelection(f: PyFunction, payload: seq<Chunk>, req: HttpRequest, host: PyHost, files: set<string>)
    requires req.httpMethod == POST
    ensures var d := Dispatch(f, payload, req, host, files);
      && (d.called.Some? <==> NoReadError(payload) && |Concat(payload)| <= MAX_SIZE)
      && (d.called.Some? ==> d.called == Some(OneArg(Concat(payload))) && |d.called.value.data| <= MAX_SIZE)
      && (d.called.None? ==> d.result.Err? && d.result.error in {PayloadError, Overflow})
  {
    BodyOfMeaning(payload);
  }

  /** A POST body of 10,000 bytes reaches the handler; one of 10,001 bytes fails with Overflow first. */
  lemma PostBodyBoundary(f: PyFunction, payload: seq<Chunk>, req: HttpRequest, host: PyHost, files: set<string>)
    requires req.httpMethod == POST && NoReadError(payload)
    ensures |Concat(payload)| == 10_000 ==>
              Dispatch(f, payload, req, host, files).called == Some(OneArg(Concat(payload)))
    ensures |Concat(payload)| == 10_001 ==>
              Dispatch(f, payload, req, host, files) == Dispatched(Err(Overflow), None)
  {
    BodyBoundIsInclusive(payload);
  }

  /**
   * `handle_request` (the three-argument form): reads the body for POST,
   * keeps it in `data`, and calls the handler with it or without it.
   * `called` reports the call that was made.
   */
  method HandleRequest(f: PyFunction, payload: seq<Chunk>, req: HttpRequest, host: PyHost, files: set<string>)
    returns (result: Result<WireResponse, Error>, called: Option<Args>)
    ensures Dispatched(result, called) == Dispatch(f, payload, req, host, files)
  {
    var data: Option<seq<byte>> := None;
    if req.httpMethod == POST {
      var body := ReadBody(payload);
      if body.Err? {
        return Err(body.error), None;
      }
      data := Some(body.value);
    }
    var args := match data
      case Some(body) => OneArg(body)
      case None => NoArgs;
    called := Some(args);
    result := Invoke(f, args, host, files);
  }

  /**
   * `apply_headers`: insert every entry of the shared header map into the
   * builder, in the map's (unspecified) order. The builder fails exactly
   * when it had failed already or some entry is not a valid header;
   * otherwise it holds every entry.
   */
  method ApplyHeaders(response: ResponseBuilder, headers: Headers)
    modifies response
    ensures response.failed <==> old(response.failed) || !ValidHeaders(headers.entries)
    ensures !response.failed ==> response.headers == old(response.headers) + headers.entries
    ensures response.status == old(response.status)
  {
    var remaining := headers.entries.Keys;
    while remaining != {}
      invariant remaining <= headers.entries.Keys
      invariant response.status == old(response.status)
      invariant response.failed <==>
                  (old(response.failed) || exists k :: k in headers.entries && k !in remaining && !ValidHeader(k, headers.entries[k]))
      invariant !response.failed ==>
                  response.headers == old(response.headers) + (map k | k in headers.entries && k !in remaining :: headers.entries[k])
      decreases remaining
    {
      var key :| key in remaining;
      response.InsertHeader(key, headers.entries[key]);
      remaining := remaining - {key};
    }
    assert (map k | k in headers.entries && k !in remaining :: headers.entries[k]) == headers.entries;
  }
}
