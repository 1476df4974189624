/**
 * src/server.rs: the process-wide start guard, the `Server` object that
 * owns the route table and the header map, and `index`, the service
 * function that turns a lookup and a dispatch into the response sent.
 */
module RobynServer {
  import opened Wrappers
  import opened Actix
  import opened Python
  import opened RobynTypes
  import opened RobynRouter
  import opened RobynProcessor

  /** `AtomicBool`; the static `STARTED` is one such object shared by every `Server` of a process. */
  class AtomicBool {
    var value: bool

    constructor (value: bool)
      ensures this.value == value
    {
      this.value := value;
    }

    /** `compare_exchange`: store `next` if the value is `current`; report the previous value either way. */
    method CompareExchange(current: bool, next: bool) returns (r: Result<bool, bool>)
      modifies this
      ensures old(value) == current ==> value == next && r == Ok(current)
      ensures old(value) != current ==> value == old(value) && r == Err(old(value))
    {
      if value == current {
        value := next;
        r := Ok(current);
      } else {
        r := Err(value);
      }
    }
  }

  /** The listening socket a `SocketHeld` wraps, by descriptor. */
  datatype SocketHeld = SocketHeld(raw: nat)

  /**
   * What the spawned serving thread receives: the same route table and
   * header map as the server (shared, not copied) and the socket.
   */
  datatype Worker = Worker(router: Router, headers: Headers, socket: nat)

  /** One call of `start`, by the flag's value before it and the outcome of borrowing the socket. */
  datatype StartStep = StartStep(started: bool, result: Result<(), Error>, spawned: bool)

  /**
   * The start guard: when the flag is already set, report success and do
   * nothing; otherwise set it, and then spawn the serving thread unless the
   * socket object cannot be borrowed (`None`), which is an error. The flag
   * stays set in that case too.
   */
  function StartGuard(started: bool, socket: Option<SocketHeld>): (s: StartStep)
    ensures s.started
    ensures s.spawned <==> !started && socket.Some?
    ensures s.result.Err? <==> !started && socket.None?
  {
    if started then StartStep(true, Ok(()), false)
    else match socket
      case None => StartStep(true, Err(SocketBorrowError), false)
      case Some(_) => StartStep(true, Ok(()), true)
  }

  /** The flag after a series of `start` calls, and how many serving threads they spawned. */
  datatype RunOutcome = RunOutcome(started: bool, spawns: nat)

  /**
   * A series of `start` calls spawns at most once; once the flag is set no
   * call spawns and it stays set.
   */
  function Run(started: bool, attempts: seq<Option<SocketHeld>>): (r: RunOutcome)
    ensures r.spawns <= 1
    ensures started ==> r == RunOutcome(true, 0)
    decreases |attempts|
  {
    if attempts == [] then RunOutcome(started, 0)
    else
      var step := StartGuard(started, attempts[0]);
      var rest := Run(step.started, attempts[1..]);
      RunOutcome(rest.started, rest.spawns + if step.spawned then 1 else 0)
  }

  /**
   * Over any series of `start` calls in one process, on any servers, the
   * one serving thread is spawned exactly when the first call's socket could
   * be borrowed; after the first call the flag is set for good.
   */
  lemma AtMostOneSpawn(attempts: seq<Option<SocketHeld>>)
    ensures Run(false, attempts).spawns == 1 <==> attempts != [] && attempts[0].Some?
    ensures attempts != [] ==> Run(false, attempts).started
  {
  }

  /** `Server`: a route table and a header map, both shared with the serving thread once started. */
  class Server {
    const router: Router
    const headers: Headers

    /** `Server::new`: an empty route table and an empty header map. */
    constructor ()
      ensures fresh(router) && fresh(headers)
      ensures router.Tables() == EmptyTables() && headers.entries == map[]
    {
      router := new Router();
      headers := new Headers();
    }

    /**
     * `Server::start`: the compare-and-swap on `started` lets one call
     * through; that call borrows the socket and hands the shared table,
     * header map and socket to a new serving thread (`worker`). Binding and
     * serving happen on that thread and their errors never reach the caller.
     */
    method Start(started: AtomicBool, socket: Option<SocketHeld>) returns (r: Result<(), Error>, worker: Option<Worker>)
      modifies started
      ensures var step := StartGuard(old(started.value), socket);
        started.value == step.started && r == step.result && (worker.Some? <==> step.spawned)
      ensures worker.Some? ==> worker.value == Worker(router, headers, socket.value.raw)
    {
      var cas := started.CompareExchange(false, true);
      if cas.Err? {
        return Ok(()), None;
      }
      match socket {
        case None =>
          return Err(SocketBorrowError), None;
        case Some(held) =>
          worker := Some(Worker(router, headers, held.raw));
          r := Ok(());
      }
    }

    /** `Server::add_header`: set one header, replacing any value it had. */
    method AddHeader(key: string, value: string)
      modifies headers
      ensures headers.entries == old(headers.entries)[key := value]
    {
      headers.entries := headers.entries[key := value];
    }

    /** `Server::remove_header`: drop one header if it is there. */
    method RemoveHeader(key: string)
      modifies headers
      ensures headers.entries == old(headers.entries) - {key}
    {
      headers.entries := headers.entries - {key};
    }

    /** `Server::add_route`: the route table's `add_route`. */
    method AddRoute(routeType: string, route: string, handler: PyCallable, isAsync: bool)
      modifies router
      ensures router.Tables() == Inserted(old(router.Tables()), routeType, route, handler, isAsync)
    {
      router.AddRoute(routeType, route, handler, isAsync);
    }
  }

  /**
   * `index`: look the request up in the snapshot. A miss is a 404 carrying
   * every shared header; a dispatch failure is a 500 carrying every shared
   * header; a successful dispatch is sent as the handler made it, with no
   * shared header added. When some shared header is not a valid HTTP
   * header, the 404 or 500 turns into the builder's headerless 500.
   */
  method Index(routing: Routing, matchOf: Matcher, headers: Headers, payload: seq<Chunk>, req: HttpRequest,
               host: PyHost, files: set<string>)
    returns (resp: WireResponse)
    ensures !ValidHeaders(headers.entries) && resp.status != OK ==>
              resp == HttpResponse(INTERNAL_SERVER_ERROR, map[], BuilderErrorBody)
    ensures routing.GetRoute(req.httpMethod, req.path, matchOf).None? && ValidHeaders(headers.entries) ==>
              resp == HttpResponse(NOT_FOUND, headers.entries, EmptyBody)
    ensures routing.GetRoute(req.httpMethod, req.path, matchOf).None? && !ValidHeaders(headers.entries) ==>
              resp == HttpResponse(INTERNAL_SERVER_ERROR, map[], BuilderErrorBody)
    ensures routing.GetRoute(req.httpMethod, req.path, matchOf).Some? ==>
              var d := Dispatch(routing.GetRoute(req.httpMethod, req.path, matchOf).value, payload, req, host, files);
              && (d.result.Ok? ==> resp == d.result.value)
              && (d.result.Err? && ValidHeaders(headers.entries) ==>
                    resp == HttpResponse(INTERNAL_SERVER_ERROR, headers.entries, EmptyBody))
              && (d.result.Err? && !ValidHeaders(headers.entries) ==>
                    resp == HttpResponse(INTERNAL_SERVER_ERROR, map[], BuilderErrorBody))
  {
    match routing.GetRoute(req.httpMethod, req.path, matchOf) {
      case Some(handlerFunction) =>
        var result, _ := HandleRequest(handlerFunction, payload, req, host, files);
        match result {
          case Ok(res) =>
            resp := res;
          case Err(_) =>
            var response := new ResponseBuilder(INTERNAL_SERVER_ERROR);
            ApplyHeaders(response, headers);
            resp := response.Finish();
        }
      case None =>
        var response := new ResponseBuilder(NOT_FOUND);
        ApplyHeaders(response, headers);
        resp := response.Finish();
    }
  }
}
