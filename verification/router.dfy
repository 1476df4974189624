/**
 * src/router.rs: the route table (`Router`, one map per supported method,
 * written by registration) and the matcher snapshot (`Routing`, one
 * matching tree per method, built once from the table and then only read).
 */
module RobynRouter {
  import opened Wrappers
  import opened Python
  import opened Actix
  import opened RobynTypes

  /** The five methods that have a table. */
  predicate Supported(m: Method) {
    m == GET || m == POST || m == PUT || m == DELETE || m == PATCH
  }

  /** The handler variant a registration stores: `is_async` picks CoRoutine. */
  function Tag(handler: PyCallable, isAsync: bool): (f: PyFunction)
    ensures f.CoRoutine? <==> isAsync
    ensures f.SyncFunction? <==> !isAsync
    ensures f.handler == handler
  {
    if isAsync then CoRoutine(handler) else SyncFunction(handler)
  }

  /** The contents of a `Router`: one map from path pattern to handler per method. */
  datatype RouteTables = RouteTables(
    get: map<string, PyFunction>,
    post: map<string, PyFunction>,
    put: map<string, PyFunction>,
    delete: map<string, PyFunction>,
    patch: map<string, PyFunction>)

  function EmptyTables(): RouteTables {
    RouteTables(map[], map[], map[], map[], map[])
  }

  /** `Router::get_relevant_map`: the table of a method, absent for unsupported methods. */
  function Table(t: RouteTables, m: Method): (r: Option<map<string, PyFunction>>)
    ensures r.Some? <==> Supported(m)
  {
    match m
    case GET => Some(t.get)
    case POST => Some(t.post)
    case PUT => Some(t.put)
    case DELETE => Some(t.delete)
    case PATCH => Some(t.patch)
    case _ => None
  }

  /** `Router::get_relevant_map_str`: parse the method name, then pick its table. */
  function TableByName(t: RouteTables, routeType: string): (r: Option<map<string, PyFunction>>)
    ensures r.Some? <==> ParseMethod(routeType).Some? && Supported(ParseMethod(routeType).value)
  {
    match ParseMethod(routeType)
    case None => None
    case Some(m) => Table(t, m)
  }

  /** The tables with the one of method `m` replaced. */
  function WithTable(t: RouteTables, m: Method, table: map<string, PyFunction>): RouteTables
    requires Supported(m)
  {
    match m
    case GET => t.(get := table)
    case POST => t.(post := table)
    case PUT => t.(put := table)
    case DELETE => t.(delete := table)
    case PATCH => t.(patch := table)
  }

  /**
   * What `Router::add_route` does to the tables: nothing when the method
   * name does not name a supported method; otherwise the route's entry in
   * that method's table becomes the tagged handler.
   */
  function Inserted(t: RouteTables, routeType: string, route: string, handler: PyCallable, isAsync: bool): (r: RouteTables)
    ensures forall m :: Supported(m) ==>
              Table(r, m).value.Keys == Table(t, m).value.Keys + (if ParseMethod(routeType) == Some(m) then {route} else {})
  {
    match ParseMethod(routeType)
    case None => t
    case Some(m) =>
      match Table(t, m)
      case None => t
      case Some(table) => WithTable(t, m, table[route := Tag(handler, isAsync)])
  }

  /**
   * `Router::get_route`: the handler stored for exactly this method and
   * path. The table is a plain map, so a path finds only the entry whose
   * key is that very string.
   */
  function Lookup(t: RouteTables, m: Method, route: string): (r: Option<PyFunction>)
    ensures r.Some? <==> Supported(m) && route in Table(t, m).value
  {
    match Table(t, m)
    case None => None
    case Some(table) => if route in table then Some(table[route]) else None
  }

  /** Registering under a name that is not GET, POST, PUT, DELETE or PATCH changes nothing. */
  lemma InsertedUnsupported(t: RouteTables, routeType: string, route: string, handler: PyCallable, isAsync: bool)
    requires routeType !in ["GET", "POST", "PUT", "DELETE", "PATCH"]
    ensures Inserted(t, routeType, route, handler, isAsync) == t
  {
    match ParseMethod(routeType)
    case None =>
    case Some(m) =>
      assert MethodName(m) == routeType;
      assert !Supported(m);
  }

  /** After registering, looking the route up under the same method gives the tagged handler. */
  lemma InsertedThenLookup(t: RouteTables, routeType: string, route: string, handler: PyCallable, isAsync: bool)
    requires ParseMethod(routeType).Some? && Supported(ParseMethod(routeType).value)
    ensures Lookup(Inserted(t, routeType, route, handler, isAsync), ParseMethod(routeType).value, route)
         == Some(Tag(handler, isAsync))
  {
  }

  /**
   * Registration touches one entry only: every other method, and every
   * other path of the same method, looks up as before.
   */
  lemma InsertedFrame(t: RouteTables, routeType: string, route: string, handler: PyCallable, isAsync: bool,
                      m: Method, other: string)
    requires ParseMethod(routeType) != Some(m) || other != route
    ensures Lookup(Inserted(t, routeType, route, handler, isAsync), m, other) == Lookup(t, m, other)
  {
  }

  /** Registering the same method and path twice keeps only the second handler. */
  lemma InsertedOverwrites(t: RouteTables, routeType: string, route: string,
                           h1: PyCallable, a1: bool, h2: PyCallable, a2: bool)
    ensures Inserted(Inserted(t, routeType, route, h1, a1), routeType, route, h2, a2)
         == Inserted(t, routeType, route, h2, a2)
  {
    match ParseMethod(routeType)
    case None =>
    case Some(m) =>
      if Supported(m) {
        var table := Table(t, m).value;
        assert table[route := Tag(h1, a1)][route := Tag(h2, a2)] == table[route := Tag(h2, a2)];
      }
  }

  /** No method outside the five ever finds a route. */
  lemma LookupUnsupported(t: RouteTables, m: Method, route: string)
    requires !Supported(m)
    ensures Lookup(t, m, route) == None
  {
  }

  /** `Router`: the mutable route table, one map per supported method. */
  class Router {
    var getRoutes: map<string, PyFunction>
    var postRoutes: map<string, PyFunction>
    var putRoutes: map<string, PyFunction>
    var deleteRoutes: map<string, PyFunction>
    var patchRoutes: map<string, PyFunction>

    /** The abstract value of this table. */
    function Tables(): RouteTables
      reads this
    {
      RouteTables(getRoutes, postRoutes, putRoutes, deleteRoutes, patchRoutes)
    }

    /** `Router::new`: five empty maps. */
    constructor ()
      ensures Tables() == EmptyTables()
    {
      getRoutes, postRoutes, putRoutes, deleteRoutes, patchRoutes := map[], map[], map[], map[], map[];
    }

    /** `Router::get_relevant_map`: a map for the five supported methods only. */
    function GetRelevantMap(m: Method): (r: Option<map<string, PyFunction>>)
      reads this
      ensures r.Some? <==> Supported(m)
    {
      Table(Tables(), m)
    }

    /** `Router::get_relevant_map_str`: a map only for the exact names GET, POST, PUT, DELETE and PATCH. */
    function GetRelevantMapStr(routeType: string): (r: Option<map<string, PyFunction>>)
      reads this
      ensures r.Some? <==> routeType in ["GET", "POST", "PUT", "DELETE", "PATCH"]
    {
      TableByName(Tables(), routeType)
    }

    /**
     * `Router::add_route`: returns at once for an unsupported method name;
     * otherwise stores the handler, tagged by `isAsync`, under `route` in
     * the method's map, replacing what was there.
     */
    method AddRoute(routeType: string, route: string, handler: PyCallable, isAsync: bool)
      modifies this
      ensures Tables() == Inserted(old(Tables()), routeType, route, handler, isAsync)
    {
      var table := GetRelevantMapStr(routeType);
      if table.None? {
        return;
      }
      var tagged := Tag(handler, isAsync);
      match ParseMethod(routeType).value {
        case GET => getRoutes := getRoutes[route := tagged];
        case POST => postRoutes := postRoutes[route := tagged];
        case PUT => putRoutes := putRoutes[route := tagged];
        case DELETE => deleteRoutes := deleteRoutes[route := tagged];
        case PATCH => patchRoutes := patchRoutes[route := tagged];
      }
    }

    /** `Router::get_route`: an exact-key lookup in the method's map. */
    function GetRoute(m: Method, route: string): (r: Option<PyFunction>)
      reads this
      ensures r.Some? <==> GetRelevantMap(m).Some? && route in GetRelevantMap(m).value
      ensures r.Some? ==> r.value == GetRelevantMap(m).value[route]
    {
      Lookup(Tables(), m, route)
    }
  }

  /**
   * matchit's matching: which of a tree's patterns (`/a/:id`, a catch-all,
   * or a literal path) a request path matches, if any. The pattern syntax
   * and the precedence between patterns are a parameter of the model.
   */
  type Matcher = (set<string>, string) -> Option<string>

  /**
   * What the model relies on from matchit: the pattern picked is one of
   * the tree's, and a path that is itself one of the tree's patterns
   * matches that pattern.
   */
  ghost predicate SoundMatcher(matchOf: Matcher) {
    && (forall s, path :: matchOf(s, path).Some? ==> matchOf(s, path).value in s)
    && (forall s, path :: path in s ==> matchOf(s, path) == Some(path))
  }

  /** A matchit `Node`: the patterns inserted into it, with their handlers. */
  datatype Tree = Tree(routes: map<string, PyFunction>) {
    /**
     * `Node::at`: the handler of the pattern the path matches, or a miss
     * (never an error the caller sees).
     */
    function At(path: string, matchOf: Matcher): (r: Option<PyFunction>)
      ensures r.Some? ==> exists p :: p in routes && r.value == routes[p]
      ensures SoundMatcher(matchOf) && path in routes ==> r == Some(routes[path])
    {
      match matchOf(routes.Keys, path)
      case None => None
      case Some(p) => if p in routes then Some(routes[p]) else None
    }
  }

  /**
   * Whether matchit refuses to insert a pattern into a tree that already
   * holds the given patterns (malformed or conflicting pattern). matchit's
   * rules are not modelled; this is a parameter of the build.
   */
  type Rejects = (set<string>, string) -> bool

  /** `Node::insert`: the pattern is added, or the tree is left as it was and an error is returned. */
  function TreeInsert(tree: Tree, pattern: string, f: PyFunction, rejects: Rejects): (r: Result<Tree, string>)
    ensures r.Err? <==> rejects(tree.routes.Keys, pattern)
    ensures r.Ok? ==> r.value.routes == tree.routes[pattern := f]
  {
    if rejects(tree.routes.Keys, pattern) then Err("insert error") else Ok(Tree(tree.routes[pattern := f]))
  }

  /**
   * The tree holds entries of `incoming` only, and every entry of
   * `incoming` it lacks was refused when it was inserted.
   */
  ghost predicate TreeFrom(tree: Tree, incoming: map<string, PyFunction>, rejects: Rejects) {
    && (forall k :: k in tree.routes ==> k in incoming && tree.routes[k] == incoming[k])
    && (forall k :: k in incoming && k !in tree.routes ==>
          exists s: set<string> :: s <= tree.routes.Keys && rejects(s, k))
  }

  /**
   * `Router::protocol_to_tree`: insert every entry of the map, in the map's
   * (unspecified) iteration order, into a fresh tree, discarding insertion
   * errors.
   */
  method ProtocolToTree(incoming: map<string, PyFunction>, rejects: Rejects) returns (tree: Tree)
    ensures TreeFrom(tree, incoming, rejects)
  {
    tree := Tree(map[]);
    var remaining := incoming.Keys;
    while remaining != {}
      invariant remaining <= incoming.Keys
      invariant forall k :: k in tree.routes ==> k in incoming && k !in remaining && tree.routes[k] == incoming[k]
      invariant forall k :: k in incoming && k !in remaining && k !in tree.routes ==>
                  exists s: set<string> :: s <= tree.routes.Keys && rejects(s, k)
      decreases remaining
    {
      var key :| key in remaining;
      var inserted := TreeInsert(tree, key, incoming[key], rejects);
      if inserted.Ok? {
        tree := inserted.value;
      } else {
        assert rejects(tree.routes.Keys, key);
      }
      remaining := remaining - {key};
    }
  }

  /**
   * When no pattern of the map is refused next to any set of the map's
   * other patterns, the tree holds exactly the map.
   */
  lemma TreeFromAllAccepted(tree: Tree, incoming: map<string, PyFunction>, rejects: Rejects)
    requires TreeFrom(tree, incoming, rejects)
    requires forall s, k :: k in incoming && s <= incoming.Keys && k !in s ==> !rejects(s, k)
    ensures tree.routes == incoming
  {
    assert tree.routes.Keys == incoming.Keys;
  }

  /** `Routing`: one matching tree per supported method, never changed once built. */
  datatype Routing = Routing(getRoutes: Tree, postRoutes: Tree, putRoutes: Tree, deleteRoutes: Tree, patchRoutes: Tree) {

    /** `Routing::get_relevant_map`. */
    function GetRelevantMap(m: Method): (r: Option<Tree>)
      ensures r.Some? <==> Supported(m)
    {
      match m
      case GET => Some(getRoutes)
      case POST => Some(postRoutes)
      case PUT => Some(putRoutes)
      case DELETE => Some(deleteRoutes)
      case PATCH => Some(patchRoutes)
      case _ => None
    }

    /** `Routing::get_route`: pick the method's tree, then match the path; a miss is None. */
    function GetRoute(m: Method, route: string, matchOf: Matcher): (r: Option<PyFunction>)
      ensures r.Some? ==> Supported(m) && exists p :: p in GetRelevantMap(m).value.routes && r.value == GetRelevantMap(m).value.routes[p]
    {
      match GetRelevantMap(m)
      case None => None
      case Some(tree) => tree.At(route, matchOf)
    }
  }

  /** Each tree of the snapshot was built from the table of the same method. */
  ghost predicate BuiltFrom(r: Routing, t: RouteTables, rejects: Rejects) {
    && TreeFrom(r.getRoutes, t.get, rejects)
    && TreeFrom(r.postRoutes, t.post, rejects)
    && TreeFrom(r.putRoutes, t.put, rejects)
    && TreeFrom(r.deleteRoutes, t.delete, rejects)
    && TreeFrom(r.patchRoutes, t.patch, rejects)
  }

  /**
   * `Routing::new`: a tree per method from the router's maps as they are
   * now. The result is a value; routes registered later do not reach it.
   */
  method NewRouting(router: Router, rejects: Rejects) returns (r: Routing)
    ensures BuiltFrom(r, router.Tables(), rejects)
  {
    var getRoutes := ProtocolToTree(router.getRoutes, rejects);
    var postRoutes := ProtocolToTree(router.postRoutes, rejects);
    var putRoutes := ProtocolToTree(router.putRoutes, rejects);
    var deleteRoutes := ProtocolToTree(router.deleteRoutes, rejects);
    var patchRoutes := ProtocolToTree(router.patchRoutes, rejects);
    r := Routing(getRoutes, postRoutes, putRoutes, deleteRoutes, patchRoutes);
  }

  /** The tree of a supported method was built from that method's table. */
  lemma BuiltFromTable(r: Routing, t: RouteTables, rejects: Rejects, m: Method)
    requires BuiltFrom(r, t, rejects) && Supported(m)
    ensures TreeFrom(r.GetRelevantMap(m).value, Table(t, m).value, rejects)
  {
  }

  /**
   * Every handler the snapshot finds is the handler the table held, when
   * the snapshot was built, under some pattern of the same method.
   */
  lemma SnapshotSound(r: Routing, t: RouteTables, rejects: Rejects, matchOf: Matcher, m: Method, route: string)
    requires BuiltFrom(r, t, rejects)
    requires r.GetRoute(m, route, matchOf).Some?
    ensures exists p :: Lookup(t, m, p) == r.GetRoute(m, route, matchOf)
  {
    var tree := r.GetRelevantMap(m).value;
    BuiltFromTable(r, t, rejects, m);
    var p :| p in tree.routes && r.GetRoute(m, route, matchOf).value == tree.routes[p];
    assert Lookup(t, m, p) == Some(tree.routes[p]);
  }

  /**
   * A route of the table that matchit accepts next to any set of the
   * table's other patterns is found by the snapshot, with the same handler.
   */
  lemma SnapshotComplete(r: Routing, t: RouteTables, rejects: Rejects, matchOf: Matcher, m: Method, route: string)
    requires BuiltFrom(r, t, rejects) && SoundMatcher(matchOf)
    requires Lookup(t, m, route).Some?
    requires forall s :: s <= Table(t, m).value.Keys && route !in s ==> !rejects(s, route)
    ensures r.GetRoute(m, route, matchOf) == Lookup(t, m, route)
  {
    BuiltFromTable(r, t, rejects, m);
    assert route in Table(t, m).value;
  }

  /**
   * The snapshot goes stale: a handler registered after the snapshot was
   * built, and not already in that method's table, is never served by the
   * snapshot, whatever the path, while the table itself now finds it.
   */
  lemma SnapshotStale(r: Routing, t: RouteTables, rejects: Rejects, matchOf: Matcher,
                      routeType: string, route: string, handler: PyCallable, isAsync: bool, path: string)
    requires BuiltFrom(r, t, rejects)
    requires ParseMethod(routeType).Some? && Supported(ParseMethod(routeType).value)
    requires forall p :: Lookup(t, ParseMethod(routeType).value, p).Some? ==>
                           Lookup(t, ParseMethod(routeType).value, p).value.handler != handler
    ensures r.GetRoute(ParseMethod(routeType).value, path, matchOf) != Some(Tag(handler, isAsync))
    ensures Lookup(Inserted(t, routeType, route, handler, isAsync), ParseMethod(routeType).value, route)
         == Some(Tag(handler, isAsync))
  {
    var m := ParseMethod(routeType).value;
    if r.GetRoute(m, path, matchOf).Some? {
      SnapshotSound(r, t, rejects, matchOf, m, path);
    }
    InsertedThenLookup(t, routeType, route, handler, isAsync);
  }

  /** The snapshot answers None for every method outside the five. */
  lemma RoutingUnsupported(r: Routing, matchOf: Matcher, m: Method, route: string)
    requires !Supported(m)
    ensures r.GetRoute(m, route, matchOf) == None
  {
  }
}
