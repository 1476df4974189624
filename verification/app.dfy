/**
 * robyn/__init__.py: the `Robyn` application object, which only records
 * routes and headers in Python lists, and `spawned_process`, which replays
 * the recorded routes into a fresh `Server` in each worker process.
 */
module RobynApp {
  import opened Wrappers
  import opened Python
  import opened Actix
  import opened RobynTypes
  import opened RobynRouter
  import opened RobynServer

  /** One element of `Robyn.routes`: `(route_type, endpoint, handler, is_coroutine)`. */
  datatype RouteEntry = RouteEntry(routeType: string, endpoint: string, handler: PyCallable, isCoroutine: bool)

  /** The Python values that end up in `Robyn.headers`: strings and tuples. */
  datatype PyObj = PyStr(s: string) | PyTuple(items: seq<PyObj>)

  /** The tuple `(key, value)` that `add_header` appends. */
  function Pair(key: string, value: string): PyObj {
    PyTuple([PyStr(key), PyStr(value)])
  }

  predicate IsPair(e: PyObj) {
    e.PyTuple? && |e.items| == 2
  }

  predicate AllPairs(xs: seq<PyObj>) {
    forall i :: 0 <= i < |xs| ==> IsPair(xs[i])
  }

  const NOT_IN_LIST: PyException := PyException("ValueError", "list.remove(x): x not in list")

  /**
   * Python's `list.remove(x)`: delete the first element equal to `x`, or
   * raise ValueError when there is none.
   */
  function ListRemove(xs: seq<PyObj>, x: PyObj): (r: Result<seq<PyObj>, PyException>)
    ensures r.Ok? <==> x in xs
    ensures r.Err? ==> r.error == NOT_IN_LIST
    ensures r.Ok? ==> |r.value| == |xs| - 1
  {
    if xs == [] then Err(NOT_IN_LIST)
    else if xs[0] == x then Ok(xs[1..])
    else match ListRemove(xs[1..], x)
      case Err(e) => Err(e)
      case Ok(rest) => Ok([xs[0]] + rest)
  }

  /** `list.remove` deletes exactly the first occurrence and keeps everything else in order. */
  lemma {:induction false} ListRemoveFirst(xs: seq<PyObj>, x: PyObj, i: nat)
    requires i < |xs| && xs[i] == x && x !in xs[..i]
    ensures ListRemove(xs, x) == Ok(xs[..i] + xs[i + 1..])
    decreases i
  {
    if i > 0 {
      assert xs[0] in xs[..i];
      assert xs[1..][..i - 1] == xs[..i][1..];
      ListRemoveFirst(xs[1..], x, i - 1);
      assert [xs[0]] + (xs[1..][..i - 1] + xs[1..][i..]) == xs[..i] + xs[i + 1..];
    } else {
      assert xs[..0] + xs[1..] == xs[1..];
    }
  }

  /**
   * `remove_header(key)` as written hands the bare key to `list.remove`; the
   * list holds only `(key, value)` tuples, so it always raises.
   */
  lemma RemoveHeaderNeverMatches(xs: seq<PyObj>, key: string)
    requires AllPairs(xs)
    ensures ListRemove(xs, PyStr(key)) == Err(NOT_IN_LIST)
  {
  }

  /** The concrete case: add a header, then remove it by its name. */
  lemma AddThenRemoveHeaderRaises()
    ensures ListRemove([Pair("X-Test", "1")], PyStr("X-Test")) == Err(NOT_IN_LIST)
  {
    RemoveHeaderNeverMatches([Pair("X-Test", "1")], "X-Test");
  }

  /** Whether a headers-list element is a pair for header `key`. */
  predicate HasKey(e: PyObj, key: string) {
    IsPair(e) && e.items[0] == PyStr(key)
  }

  /** The intended header removal: drop every pair whose name is `key`, keeping the rest in order. */
  function WithoutKey(xs: seq<PyObj>, key: string): (r: seq<PyObj>)
    ensures |r| <= |xs|
  {
    if xs == [] then []
    else (if HasKey(xs[0], key) then [] else [xs[0]]) + WithoutKey(xs[1..], key)
  }

  /** After the intended removal no pair names `key`, and every other element is still there. */
  lemma {:induction false} WithoutKeyMeaning(xs: seq<PyObj>, key: string)
    ensures forall e :: e in WithoutKey(xs, key) <==> e in xs && !HasKey(e, key)
    ensures AllPairs(xs) ==> AllPairs(WithoutKey(xs, key))
  {
    if xs != [] {
      WithoutKeyMeaning(xs[1..], key);
      assert xs == [xs[0]] + xs[1..];
      if AllPairs(xs) {
        assert AllPairs(xs[1..]) by {
          forall i | 0 <= i < |xs[1..]| ensures IsPair(xs[1..][i]) {
            assert xs[1..][i] == xs[i + 1];
          }
        }
        var r := WithoutKey(xs, key);
        forall i | 0 <= i < |r| ensures IsPair(r[i]) {
          assert r[i] in r;
        }
      }
    }
  }

  /** A worker process to launch: the routes it replays, the port it serves and its name. */
  datatype Launch = Launch(handlers: seq<RouteEntry>, port: int, name: string)

  /** What `Robyn.start` does: launch two worker processes, or run the reloading dev server. */
  datatype StartPlan = Workers(launches: seq<Launch>) | DevReload(directory: string)

  /** `f"Process {i}"` for a one-digit `i`. */
  function ProcessName(i: nat): string
    requires i < 10
  {
    "Process " + [('0' as int + i) as char]
  }

  /** `Robyn`: the application object that records routes and headers. */
  class Robyn {
    const filePath: string
    const directoryPath: string
    const dev: bool
    var routes: seq<RouteEntry>
    var headers: seq<PyObj>

    /**
     * `Robyn.__init__`. The directory of the file and the `--dev` flag come
     * from the file system and the command line; they are parameters here.
     */
    constructor (fileObject: string, directoryPath: string, dev: bool)
      ensures filePath == fileObject && this.directoryPath == directoryPath && this.dev == dev
      ensures routes == [] && headers == []
    {
      filePath := fileObject;
      this.directoryPath := directoryPath;
      this.dev := dev;
      routes := [];
      headers := [];
    }

    /** `Robyn.add_route`: append one entry, flagged by whether the handler is a coroutine function. */
    method AddRoute(routeType: string, endpoint: string, handler: PyCallable)
      modifies this`routes
      ensures routes == old(routes) + [RouteEntry(routeType, endpoint, handler, handler.isCoroutineFunction)]
    {
      routes := routes + [RouteEntry(routeType, endpoint, handler, handler.isCoroutineFunction)];
    }

    /** `Robyn.add_header`: append the pair `(key, value)`. */
    method AddHeader(key: string, value: string)
      modifies this`headers
      ensures headers == old(headers) + [Pair(key, value)]
      ensures AllPairs(old(headers)) ==> AllPairs(headers)
    {
      headers := headers + [Pair(key, value)];
    }

    /**
     * `Robyn.remove_header` as written: `list.remove(key)`. On a list of
     * pairs it raises ValueError and the list is unchanged.
     */
    method RemoveHeader(key: string) returns (r: Result<(), PyException>)
      modifies this`headers
      ensures ListRemove(old(headers), PyStr(key)).Ok? ==>
                r == Ok(()) && headers == ListRemove(old(headers), PyStr(key)).value
      ensures ListRemove(old(headers), PyStr(key)).Err? ==>
                r == Err(NOT_IN_LIST) && headers == old(headers)
    {
      match ListRemove(headers, PyStr(key)) {
        case Ok(rest) =>
          headers := rest;
          r := Ok(());
        case Err(e) =>
          r := Err(e);
      }
    }

    /** The corrected `remove_header`: drop the pairs named `key`. */
    method RemoveHeaderByKey(key: string)
      modifies this`headers
      ensures headers == WithoutKey(old(headers), key)
    {
      headers := WithoutKey(headers, key);
    }

    /** `@app.get(endpoint)` applied to `handler`. */
    method Get(endpoint: string, handler: PyCallable)
      modifies this`routes
      ensures routes == old(routes) + [RouteEntry("GET", endpoint, handler, handler.isCoroutineFunction)]
    {
      AddRoute("GET", endpoint, handler);
    }

    /** `@app.post(endpoint)` applied to `handler`: refused unless the handler takes exactly one parameter. */
    method Post(endpoint: string, handler: PyCallable)
      modifies this`routes
      ensures handler.paramCount != 1 ==> routes == old(routes)
      ensures handler.paramCount == 1 ==>
                routes == old(routes) + [RouteEntry("POST", endpoint, handler, handler.isCoroutineFunction)]
    {
      if handler.paramCount != 1 {
        return;
      }
      AddRoute("POST", endpoint, handler);
    }

    /** `@app.put(endpoint)` applied to `handler`. */
    method Put(endpoint: string, handler: PyCallable)
      modifies this`routes
      ensures routes == old(routes) + [RouteEntry("PUT", endpoint, handler, handler.isCoroutineFunction)]
    {
      AddRoute("PUT", endpoint, handler);
    }

    /** `@app.delete(endpoint)` applied to `handler`. */
    method Delete(endpoint: string, handler: PyCallable)
      modifies this`routes
      ensures routes == old(routes) + [RouteEntry("DELETE", endpoint, handler, handler.isCoroutineFunction)]
    {
      AddRoute("DELETE", endpoint, handler);
    }

    /** `@app.patch(endpoint)` applied to `handler`. */
    method Patch(endpoint: string, handler: PyCallable)
      modifies this`routes
      ensures routes == old(routes) + [RouteEntry("PATCH", endpoint, handler, handler.isCoroutineFunction)]
    {
      AddRoute("PATCH", endpoint, handler);
    }

    /**
     * The launching part of `Robyn.start`: outside dev mode, two worker
     * processes, each given the route list (and not the header list).
     */
    method Start(port: int) returns (plan: StartPlan)
      ensures plan.DevReload? <==> dev
      ensures plan.DevReload? ==> plan.directory == directoryPath
      ensures plan.Workers? ==>
                && |plan.launches| == 2
                && forall i :: 0 <= i < 2 ==> plan.launches[i] == Launch(routes, port, ProcessName(i))
    {
      if dev {
        return DevReload(directoryPath);
      }
      var launches: seq<Launch> := [];
      for i := 0 to 2
        invariant |launches| == i
        invariant forall j :: 0 <= j < i ==> launches[j] == Launch(routes, port, ProcessName(j))
      {
        launches := launches + [Launch(routes, port, ProcessName(i))];
      }
      plan := Workers(launches);
    }
  }

  /** Whether a list entry registers this method and path. */
  predicate Registers(e: RouteEntry, m: Method, route: string) {
    ParseMethod(e.routeType) == Some(m) && e.endpoint == route
  }

  /**
   * The route table after registering `handlers` in list order: each
   * method's table gains exactly the paths registered for that method.
   */
  function Replay(t: RouteTables, handlers: seq<RouteEntry>): (r: RouteTables)
    ensures forall m :: Supported(m) ==>
              Table(r, m).value.Keys == Table(t, m).value.Keys + RegisteredPaths(handlers, m)
    decreases |handlers|
  {
    if handlers == [] then t
    else
      var last := handlers[|handlers| - 1];
      Inserted(Replay(t, handlers[..|handlers| - 1]), last.routeType, last.endpoint, last.handler, last.isCoroutine)
  }

  /** The paths the list registers for a method. */
  function RegisteredPaths(handlers: seq<RouteEntry>, m: Method): set<string> {
    set i | 0 <= i < |handlers| && ParseMethod(handlers[i].routeType) == Some(m) :: handlers[i].endpoint
  }

  /** The last entry of a list that `pick` accepts. */
  function LastWhere(handlers: seq<RouteEntry>, pick: RouteEntry -> bool): (r: Option<RouteEntry>)
    ensures r.Some? ==> r.value in handlers && pick(r.value)
    decreases |handlers|
  {
    if handlers == [] then None
    else
      var last := handlers[|handlers| - 1];
      if pick(last) then Some(last) else LastWhere(handlers[..|handlers| - 1], pick)
  }

  /** `LastWhere` finds nothing exactly when `pick` accepts no entry. */
  lemma {:induction false} LastWhereNone(handlers: seq<RouteEntry>, pick: RouteEntry -> bool)
    ensures LastWhere(handlers, pick).None? <==> forall i :: 0 <= i < |handlers| ==> !pick(handlers[i])
    decreases |handlers|
  {
    if handlers != [] {
      var n := |handlers| - 1;
      if !pick(handlers[n]) {
        LastWhereNone(handlers[..n], pick);
        assert forall i :: 0 <= i < n ==> handlers[i] == handlers[..n][i];
      }
    }
  }

  /** What `LastWhere` finds sits at a position `i` after which `pick` accepts no entry. */
  lemma {:induction false} LastWhereIsLast(handlers: seq<RouteEntry>, pick: RouteEntry -> bool) returns (i: nat)
    requires LastWhere(handlers, pick).Some?
    ensures i < |handlers| && handlers[i] == LastWhere(handlers, pick).value
    ensures forall j :: i < j < |handlers| ==> !pick(handlers[j])
    decreases |handlers|
  {
    var n := |handlers| - 1;
    if pick(handlers[n]) {
      i := n;
    } else {
      var prefix := handlers[..n];
      i := LastWhereIsLast(prefix, pick);
      assert handlers[i] == prefix[i];
      forall j | i < j < |handlers|
        ensures !pick(handlers[j])
      {
        if j < n {
          assert handlers[j] == prefix[j];
        }
      }
    }
  }

  /** Reference definition: the last entry of the list registered for this method and path. */
  function LastMatching(handlers: seq<RouteEntry>, m: Method, route: string): (r: Option<RouteEntry>)
    ensures r.Some? ==> r.value in handlers && Registers(r.value, m, route)
  {
    LastWhere(handlers, e => Registers(e, m, route))
  }

  /**
   * `LastMatching` is None exactly when no entry registers the method and
   * path, and otherwise an entry that does with no later entry doing so.
   */
  lemma LastMatchingMeaning(handlers: seq<RouteEntry>, m: Method, route: string)
    ensures LastMatching(handlers, m, route).None? <==>
              forall i :: 0 <= i < |handlers| ==> !Registers(handlers[i], m, route)
    ensures LastMatching(handlers, m, route).Some? ==>
              exists i :: && 0 <= i < |handlers| && handlers[i] == LastMatching(handlers, m, route).value
                          && forall j :: i < j < |handlers| ==> !Registers(handlers[j], m, route)
  {
    var pick := e => Registers(e, m, route);
    LastWhereNone(handlers, pick);
    if LastMatching(handlers, m, route).Some? {
      var i := LastWhereIsLast(handlers, pick);
    }
  }

  /**
   * Replaying the list, the last registration of a method and path wins;
   * a path never registered for that method keeps what the table had.
   */
  lemma {:induction false} ReplayLastWins(t: RouteTables, handlers: seq<RouteEntry>, m: Method, route: string)
    requires Supported(m)
    ensures Lookup(Replay(t, handlers), m, route) ==
              match LastMatching(handlers, m, route)
              case None => Lookup(t, m, route)
              case Some(e) => Some(Tag(e.handler, e.isCoroutine))
    decreases |handlers|
  {
    if handlers != [] {
      var prefix := handlers[..|handlers| - 1];
      var last := handlers[|handlers| - 1];
      if Registers(last, m, route) {
        InsertedThenLookup(Replay(t, prefix), last.routeType, route, last.handler, last.isCoroutine);
      } else {
        InsertedFrame(Replay(t, prefix), last.routeType, last.endpoint, last.handler, last.isCoroutine, m, route);
        ReplayLastWins(t, prefix, m, route);
      }
    }
  }

  /** The five decorators register under method names the route table accepts. */
  lemma DecoratorNamesAreSupported()
    ensures ParseMethod("GET") == Some(GET) && ParseMethod("POST") == Some(POST)
    ensures ParseMethod("PUT") == Some(PUT) && ParseMethod("DELETE") == Some(DELETE)
    ensures ParseMethod("PATCH") == Some(PATCH)
  {
  }

  /** A route appended last to the list is what a worker's table holds for it. */
  lemma AppendedRouteIsServed(routes: seq<RouteEntry>, e: RouteEntry)
    requires ParseMethod(e.routeType).Some? && Supported(ParseMethod(e.routeType).value)
    ensures Lookup(Replay(EmptyTables(), routes + [e]), ParseMethod(e.routeType).value, e.endpoint)
         == Some(Tag(e.handler, e.isCoroutine))
  {
    assert (routes + [e])[..|routes|] == routes;
    InsertedThenLookup(Replay(EmptyTables(), routes), e.routeType, e.endpoint, e.handler, e.isCoroutine);
  }

  /**
   * `spawned_process`: a fresh `Server` in a fresh process (so its own
   * `STARTED` flag, unset), every recorded route registered in list order,
   * then `start`.
   */
  method SpawnedProcess(handlers: seq<RouteEntry>, socket: Option<SocketHeld>)
    returns (server: Server, started: AtomicBool, r: Result<(), Error>, worker: Option<Worker>)
    ensures fresh(server) && fresh(started) && started.value
    ensures server.router.Tables() == Replay(EmptyTables(), handlers)
    ensures server.headers.entries == map[]
    ensures r.Ok? <==> socket.Some?
    ensures worker.Some? <==> socket.Some?
    ensures worker.Some? ==> worker.value.router == server.router && worker.value.headers == server.headers
  {
    server := new Server();
    started := new AtomicBool(false);
    for i := 0 to |handlers|
      invariant fresh(server.router) && fresh(server.headers) && !started.value
      invariant server.router.Tables() == Replay(EmptyTables(), handlers[..i])
      invariant server.headers.entries == map[]
    {
      var h := handlers[i];
      assert handlers[..i + 1][..i] == handlers[..i];
      server.AddRoute(h.routeType, h.endpoint, h.handler, h.isCoroutine);
    }
    assert handlers[..|handlers|] == handlers;
    r, worker := server.Start(started, socket);
  }
}
