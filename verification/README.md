# Robyn routing and dispatch, modelled in Dafny

Robyn is a Python web framework with a Rust core built on actix-web. Python
code registers handlers on a `Robyn` object. Each worker process replays
that route list into a Rust `Server`. The server keeps one route table per
HTTP method and, once started, one serving thread. That thread builds an
immutable matcher snapshot (`Routing`) from the table. Every request goes
through `index`:

1. look the method and path up in the snapshot;
2. read the body (POST only, at most 10,000 bytes);
3. call the Python handler with the body or with no argument;
4. turn the returned `Response` into an HTTP response;
5. on a miss or a failure, answer 404 or 500 with the shared headers.

The model covers these steps, file by file:

- `wrappers.dfy`: `Option` and `Result`.
- `python.dfy`: a handler object (its identity, its parameter count and whether it is a coroutine function) and a raised exception.
- `actix.dfy`: request methods and `Method::from_bytes`, the request, the response, and the response builder.
- `types.dfy` (`src/types.rs`): `PyFunction`, the `TEXT`/`STATIC_FILE` tags, `Response` with its two constructors and `make_response`, and the shared `Headers` map.
- `router.dfy` (`src/router.rs`): the `Router` class with its five maps. It is specified by the value-level functions `Inserted` and `Lookup` over `RouteTables`. Also `protocol_to_tree`, and `Routing` as an immutable value.
- `processor.dfy` (`src/processor.rs`): the bounded body loop, specified by the fold `Accumulate` and characterised by `Concat`. Also the handler call (`Invoke`), `handle_request` (`Dispatch`) and `apply_headers`.
- `server.dfy` (`src/server.rs`): the `STARTED` compare-and-swap guard (`StartGuard`, `Run`), the `Server` class and `index`.
- `app.dfy` (`robyn/__init__.py`): the `Robyn` class, Python's `list.remove`, the decorators, the launch loop of `start`, and `spawned_process` with its in-order replay (`Replay`).

Foreign behaviour becomes parameters:

- A `PyHost` value stands for the interpreter: calling a handler, making a future of a coroutine, and awaiting it.
- A set of openable paths stands for the file system that `NamedFile::open` sees.
- An `Option<JsonValue>` stands for the result of `depythonize`.
- A `Rejects` predicate stands for matchit's refusal to insert a pattern.
- A `Matcher` function stands for matchit's choice of the pattern a request path matches. The model relies only on two facts about it (`SoundMatcher`): the chosen pattern is one of the tree's, and a path that is itself a pattern of the tree matches that pattern.
- An `Option<SocketHeld>` stands for the result of borrowing the socket object.
- The directory and the `--dev` flag stand for what `Robyn.__init__` reads from the file system and the command line.

Some behaviour of the code worth knowing:

- A successful dispatch is sent without the shared headers. Only the 404 and 500 fallbacks carry them (src/server.rs:123-136).
- `add_header` accepts any strings (src/server.rs:93-95). A name or value that is not a valid HTTP header makes actix's `insert_header` record an error, and `finish` then answers a 500 without the shared headers. So one bad shared header turns every 404 and every dispatch-error 500 into that headerless 500.
- `TEXT` and `STATIC_FILE` are both 1. A response tagged `TEXT` is therefore served as the file named by its text (src/types.rs:15-16, 68-70). The model keeps this collision.
- `start` sets `STARTED` before it borrows the socket. A failed borrow therefore leaves the flag set, and no later `start` in that process spawns anything. Bind and serve errors happen on the spawned thread and never reach the caller (src/server.rs:41-49, 58-86).
- `index` passes four arguments to `handle_request`, which takes three (src/server.rs:122, src/processor.rs:31-35). The three-argument form is modelled. Headers are added only by `index`.
- The Python `headers` list is never passed to worker processes. Only `routes` is (robyn/__init__.py:28-29, 88).

## Model

| member | source | states |
|---|---|---|
| `Actix.ParseMethod` | src/router.rs:94-98 | a method name parses exactly when it is a non-empty token; the parsed method spells back to the same string |
| `Actix.ParseMethodRoundTrip` | src/router.rs:95 | parsing the canonical name of any method `from_bytes` can produce gives that method back |
| `RobynTypes.NewJson` | src/types.rs:46-57 | succeeds exactly when the JSON conversion succeeds; the response keeps the tag, has text "JSON" and holds the JSON; otherwise it raises ValueError "Cannot parse json" |
| `RobynTypes.NewResponse` | src/types.rs:36-42 | `Response::new` keeps the tag and text and holds no JSON |
| `RobynTypes.MakeResponse` | src/types.rs:62-75 | fails only for a non-JSON response tagged 1 whose file cannot be opened, with that path's open error; every success is a 200 |
| `RobynTypes.TagsCollide` | src/types.rs:15-16 | TEXT and STATIC_FILE are both 1 |
| `RobynTypes.JsonWins` | src/types.rs:63-66 | a response holding JSON renders as a 200 JSON body whatever its tag and text |
| `RobynTypes.NewJsonRendersJson` | src/types.rs:46-66 | a response built by a successful `newjson` renders as its JSON |
| `RobynTypes.NewResponseRendering` | src/types.rs:36-42 | `Response::new(t, m)` has no JSON; with tag 1 it renders as the file `m` or an open error, otherwise as a 200 with body `m` |
| `RobynTypes.TextTaggedIsServedAsFile` | src/types.rs:15-16 | a response tagged TEXT renders as the file named by its text, and succeeds only when that file opens |
| `RobynRouter.Tag` | src/router.rs:112-116 | `is_async` true gives CoRoutine and false gives SyncFunction, wrapping the same handler |
| `RobynRouter.Table` | src/router.rs:82-91 | a table exists exactly for GET, POST, PUT, DELETE and PATCH |
| `RobynRouter.TableByName` | src/router.rs:94-101 | a table exists exactly when the name parses to one of the five supported methods |
| `RobynRouter.Inserted` | src/router.rs:106-119 | registration adds exactly the route to its own method's key set (when the name is a supported method) and adds no key anywhere else |
| `RobynRouter.Lookup` | src/router.rs:122-125 | `get_route` on the route table finds an entry exactly when the method is supported and the path is a key of its map: an exact string lookup, unlike the snapshot's pattern matching |
| `RobynRouter.InsertedUnsupported` | src/router.rs:107-110 | registering under any name other than exactly GET, POST, PUT, DELETE or PATCH leaves every table unchanged |
| `RobynRouter.InsertedThenLookup` | src/router.rs:112-125 | after registering a route, `get_route` for that method and path returns the handler tagged by `is_async` |
| `RobynRouter.InsertedFrame` | src/router.rs:107-118 | registering changes only the entry for its own method and path; all other methods and paths look up as before |
| `RobynRouter.InsertedOverwrites` | src/router.rs:118 | a second registration of the same method and path replaces the first (last write wins) |
| `RobynRouter.LookupUnsupported` | src/router.rs:122-125 | `get_route` is None for any method outside the five |
| `RobynRouter.Router.constructor` | src/router.rs:71-79 | a new router has five empty tables |
| `RobynRouter.Router.GetRelevantMap` | src/router.rs:82-91 | the router has a map exactly for the five supported methods |
| `RobynRouter.Router.GetRelevantMapStr` | src/router.rs:94-101 | the router has a map exactly for the strings "GET", "POST", "PUT", "DELETE" and "PATCH" |
| `RobynRouter.Router.AddRoute` | src/router.rs:106-119 | the router's tables afterwards are `Inserted(old tables, ...)`, so the lemmas above apply to it |
| `RobynRouter.Router.GetRoute` | src/router.rs:122-125 | the router finds a handler exactly when the method has a map holding the path as a key, and it is that map's entry |
| `RobynRouter.Tree.At` | src/router.rs:54-57 | a hit is the handler of one of the tree's patterns; with a sound matcher, a path that is itself a pattern of the tree gets that pattern's handler; a miss is None, never an error |
| `RobynRouter.TreeInsert` | src/router.rs:132 | an insertion fails exactly when matchit rejects the pattern; otherwise the pattern maps to the handler |
| `RobynRouter.ProtocolToTree` | src/router.rs:128-136 | the tree holds only entries of the map, with the same handlers; each entry it lacks was rejected when inserted; the build never aborts |
| `RobynRouter.TreeFromAllAccepted` | src/router.rs:128-136 | when matchit refuses no pattern of the map next to any set of the map's other patterns, the tree holds exactly the map |
| `RobynRouter.Routing.GetRelevantMap` | src/router.rs:39-48 | the snapshot has a tree exactly for the five supported methods |
| `RobynRouter.Routing.GetRoute` | src/router.rs:51-58 | a snapshot hit is only ever for a supported method, and is the handler of some pattern in that method's tree |
| `RobynRouter.NewRouting` | src/router.rs:20-36 | each method's tree is built from that method's map as it is at that moment |
| `RobynRouter.SnapshotSound` | src/router.rs:20-58 | every handler the snapshot returns, for any path, is the handler the table held under some pattern of the same method when the snapshot was built |
| `RobynRouter.SnapshotComplete` | src/router.rs:20-58 | with a sound matcher, a path that is a key of the table, and that matchit accepts next to any set of the table's other patterns, is answered by the snapshot with the table's handler |
| `RobynRouter.SnapshotStale` | src/router.rs:20-36 | a handler registered after the snapshot was built, and not already in that method's table, is never returned by the snapshot for any path, while the table now finds it |
| `RobynRouter.RoutingUnsupported` | src/router.rs:51-52 | the snapshot answers None for any method outside the five |
| `RobynProcessor.Accumulate` | src/processor.rs:40-47 | the loop fails only with a read error or Overflow; on success the body extends the starting body and stays within MAX_SIZE |
| `RobynProcessor.AccumulateMeaning` | src/processor.rs:40-47 | from a body within the bound, the loop succeeds exactly when no read fails and the total fits in MAX_SIZE, yields body plus every chunk in order, and fails with Overflow when the chunks read but do not fit |
| `RobynProcessor.BodyOfMeaning` | src/processor.rs:38-50 | a payload is accepted exactly when all chunks are read and hold at most MAX_SIZE bytes in total; the body is all chunks in order |
| `RobynProcessor.BodyBoundIsInclusive` | src/processor.rs:10 | a body of exactly 10,000 bytes is accepted and one of 10,001 bytes fails with Overflow |
| `RobynProcessor.ReadBody` | src/processor.rs:39-47 | the `while let` loop returns the fold's result, and an accepted body is at most MAX_SIZE bytes |
| `RobynProcessor.Extract` | src/processor.rs:69 | extraction succeeds exactly for a Response object |
| `RobynProcessor.Invoke` | src/processor.rs:52-86 | a successful call renders a 200 with no Robyn-inserted headers; a failure is a Python exception, a failed extraction or a file that cannot be opened, never a body error |
| `RobynProcessor.SyncResponseRenders` | src/processor.rs:72-85 | a plain handler that returns a Response is answered with exactly that Response rendered by `make_response` |
| `RobynProcessor.CoroutineResponseRenders` | src/processor.rs:53-70 | a coroutine handler whose awaited result is a Response is answered with exactly that Response rendered by `make_response` |
| `RobynProcessor.NotAResponseFails` | src/processor.rs:69-83 | for either handler kind, a final value that is not a Response fails the request with an extraction error |
| `RobynProcessor.RaisingHandlerFails` | src/processor.rs:58-81 | a handler call that raises fails the request with that exception |
| `RobynProcessor.Dispatch` | src/processor.rs:31-87 | when the handler is called, the result is the call's outcome with the reported arguments; it is not called only for a POST whose body read fails or overflows; it is called with no argument exactly for non-POST methods |
| `RobynProcessor.NoBodyUnlessPost` | src/processor.rs:36-38 | for any method but POST the payload is not read and the handler is called with no argument |
| `RobynProcessor.PostBodySelection` | src/processor.rs:38-64 | for POST the handler is called exactly when the body is accepted, then with one argument holding every chunk in order; otherwise dispatch fails with the read error or Overflow before any call |
| `RobynProcessor.PostBodyBoundary` | src/processor.rs:43-45 | a 10,000-byte POST body reaches the handler; a 10,001-byte one fails with Overflow and the handler is not called |
| `RobynProcessor.HandleRequest` | src/processor.rs:31-87 | the method's result and the call it made are `Dispatch` of its inputs, so the dispatch lemmas apply to it |
| `RobynProcessor.ApplyHeaders` | src/processor.rs:13-17 | the builder fails exactly when it had failed or some shared header is not a valid HTTP header; otherwise it holds every shared header, replacing any of the same name; the status is kept |
| `Actix.ResponseBuilder.InsertHeader` | src/processor.rs:15 | a valid header is inserted, replacing one of the same name; an invalid name or value records an error, and after an error nothing is inserted |
| `Actix.ResponseBuilder.Finish` | src/server.rs:128-135 | without a recorded error, the builder's status and headers with no body; with one, a 500 that carries only the error text |
| `RobynServer.AtomicBool.CompareExchange` | src/server.rs:41-43 | stores the new value only when the current value matches, and reports the previous value either way |
| `RobynServer.StartGuard` | src/server.rs:41-49 | the flag is set after any call; a thread is spawned exactly when the flag was unset and the socket could be borrowed; the error case is exactly an unset flag with a socket object that cannot be borrowed |
| `RobynServer.Run` | src/server.rs:41-47 | repeated `start` calls spawn at most one thread; once the flag is set no call spawns and the flag stays set |
| `RobynServer.AtMostOneSpawn` | src/server.rs:41-47 | over any series of `start` calls in a process, on any servers, a thread is spawned exactly when the first call's socket can be borrowed, and the flag is then set for good |
| `RobynServer.Server.constructor` | src/server.rs:33-38 | a new server has an empty route table and an empty header map |
| `RobynServer.Server.Start` | src/server.rs:40-89 | follows `StartGuard` on the shared flag; the spawned worker shares the server's own table and header map |
| `RobynServer.Server.AddHeader` | src/server.rs:93-95 | the header map gains `key ↦ value`; every other entry is unchanged |
| `RobynServer.Server.RemoveHeader` | src/server.rs:99-101 | the header map loses `key` if present, and is otherwise unchanged |
| `RobynServer.Server.AddRoute` | src/server.rs:105-108 | has the same effect on the router as the router's `add_route` |
| `RobynServer.Index` | src/server.rs:114-138 | with valid shared headers, a lookup miss is a 404 and a dispatch error a 500, each carrying exactly the shared headers; with an invalid one, both become the builder's headerless 500; a dispatch success is the handler's response unchanged |
| `RobynApp.ListRemove` | robyn/__init__.py:72 | `list.remove` succeeds exactly when the element is present, removes one element, and otherwise raises ValueError |
| `RobynApp.ListRemoveFirst` | robyn/__init__.py:72 | `list.remove` deletes exactly the first equal element and keeps the rest in order |
| `RobynApp.RemoveHeaderNeverMatches` | robyn/__init__.py:69-72 | on a list of `(key, value)` pairs, removing a bare key always raises |
| `RobynApp.AddThenRemoveHeaderRaises` | robyn/__init__.py:68-72 | adding header X-Test and then removing it by name raises ValueError |
| `RobynApp.WithoutKey` | robyn/__init__.py:71-72 | the corrected removal never makes the list longer |
| `RobynApp.WithoutKeyMeaning` | robyn/__init__.py:71-72 | after the corrected removal no pair is named `key`, every other element remains, and a list of pairs stays a list of pairs |
| `RobynApp.Robyn.constructor` | robyn/__init__.py:38-44 | a new application has empty `routes` and `headers` lists |
| `RobynApp.Robyn.AddRoute` | robyn/__init__.py:53-66 | appends exactly one `(route_type, endpoint, handler, is_coroutine)` entry at the end, keeping duplicates and earlier entries |
| `RobynApp.Robyn.AddHeader` | robyn/__init__.py:68-69 | appends the pair `(key, value)`; the list stays a list of pairs |
| `RobynApp.Robyn.RemoveHeader` | robyn/__init__.py:71-72 | behaves as `list.remove(key)`: on success the first equal element is gone; otherwise it raises ValueError and the list is unchanged |
| `RobynApp.Robyn.RemoveHeaderByKey` | robyn/__init__.py:71-72 | the corrected removal drops every pair named `key` |
| `RobynApp.Robyn.Get` | robyn/__init__.py:109-119 | registers the handler under "GET" |
| `RobynApp.Robyn.Post` | robyn/__init__.py:121-136 | registers under "POST" only when the handler has exactly one parameter; otherwise the list is unchanged |
| `RobynApp.Robyn.Put` | robyn/__init__.py:138-148 | registers the handler under "PUT" |
| `RobynApp.Robyn.Delete` | robyn/__init__.py:150-160 | registers the handler under "DELETE" |
| `RobynApp.Robyn.Patch` | robyn/__init__.py:162-172 | registers the handler under "PATCH" |
| `RobynApp.Robyn.Start` | robyn/__init__.py:74-92 | outside dev mode it launches two worker processes, each given the route list (never the header list), named "Process 0" and "Process 1" |
| `RobynApp.LastMatching` | robyn/__init__.py:28-29 | the chosen entry is in the list and registers that method and path |
| `RobynApp.LastMatchingMeaning` | robyn/__init__.py:28-29 | the reference search finds nothing exactly when no entry registers the method and path, and otherwise finds an entry that does, with no later entry doing so |
| `RobynApp.Replay` | robyn/__init__.py:28-29 | replaying the list, each method's table gains exactly the paths the list registers for that method |
| `RobynApp.ReplayLastWins` | robyn/__init__.py:28-29 | replaying the list in order, the last registration of a method and path is what the table holds; unregistered paths keep their old lookup |
| `RobynApp.DecoratorNamesAreSupported` | robyn/__init__.py:116-170 | the five decorator method names parse to the five supported methods |
| `RobynApp.AppendedRouteIsServed` | robyn/__init__.py:28-29 | a route appended last to the list is what a worker's table holds for that method and path |
| `RobynApp.SpawnedProcess` | robyn/__init__.py:16-31 | a fresh server in a fresh process holds exactly the in-order replay of the routes; `start` then spawns exactly when the socket can be borrowed, and the worker shares that server's table |

## Left out

- `RobynRouter.Tree.At`: matchit's pattern syntax (`/a/:id`, catch-alls) and its precedence between patterns are not modelled. They are the `Matcher` parameter, of which only `SoundMatcher` is assumed. `SnapshotComplete` is therefore stated for paths that are keys of the table; what the snapshot answers for a path that only a parameterised pattern matches depends on matchit.
- `RobynRouter.TreeInsert`: matchit's rules for malformed or conflicting patterns are a parameter (`Rejects`) and are not modelled.
- `RobynRouter.ProtocolToTree`: DashMap's iteration order is unspecified, so the loop picks any remaining key. With a rejection rule that depends on the tree's contents, which entries survive may depend on that order.
- DashMap's and the shared-socket primitive's concurrency: the maps are sequential Dafny maps, and a registration racing a snapshot build is not modelled.
- `Server::start` after the guard: the thread, the actix `HttpServer`/`App`, keep-alive, client timeout and socket binding (src/server.rs:58-86) are runtime plumbing. The model returns the `Worker` the thread would receive. The thread's later `Routing::new` call is `NewRouting` on that worker's router.
- pyo3 GIL handling, `into_py`, `call0`/`call1`, `pyo3_asyncio::into_future` and `.await` are foreign and asynchronous. They are the `PyHost` parameter. The body is passed as its bytes. In the source it reaches Python as a list of ints.
- `depythonize` (src/types.rs:19-22) is a parameter of `NewJson`. `NamedFile::open` and its conditional or range responses (src/types.rs:69) become a set of openable paths and a 200 file body.
- Header name case-insensitivity and the content type each body kind sets are actix details. The model's response headers are the ones Robyn inserts. The text of a builder error and the status actix derives from it are one fixed body and 500.
- `RobynProcessor.ReadBody`: the payload stream is modelled as the sequence of its reads. The stream's state after an early return is not modelled. `usize` overflow of `body.len() + chunk.len()` cannot happen below the 10,000-byte bound and is not modelled.
- `src/lib.rs` (module registration, mimalloc, `prepare_to_run`), `falcon.py` and `fastapi_conf.py` are glue and benchmarks with no Robyn logic.
- In robyn/__init__.py:
  - the `multiprocessing` processes, `socket.try_clone`, `input()`, the watchdog observer and the busy loop of dev mode (lines 81-107);
  - `_is_dev`'s argparse;
  - uvloop setup and `run_forever` in `spawned_process`.
  These are process and I/O management. `RobynApp.Robyn.Start` models only the launch loop and which lists it passes.
- The `print` calls of the source are not modelled.
- The decorators return `inner`, which returns None, so a decorated name is rebound to None. `RobynApp.Robyn.Get` and its siblings model only the registration.
- robyn/responses.py and robyn/shared_socket are not part of this model.

## Findings

| source | as written | input that shows it | evidently intended | confidence | as-written member | corrected member |
|---|---|---|---|---|---|---|
| robyn/__init__.py:71-72 | `remove_header(key)` calls `self.headers.remove(key)`, but the list holds `(key, value)` tuples, and a string never equals a tuple | `add_header("X-Test", "1")` then `remove_header("X-Test")` raises ValueError and the header stays | remove the header pairs named `key` | high; not executed | `RobynApp.Robyn.RemoveHeader`, shown by `RobynApp.AddThenRemoveHeaderRaises` | `RobynApp.Robyn.RemoveHeaderByKey`, proved by `RobynApp.WithoutKeyMeaning` |
