/**
 * src/types.rs: the handler variants, the response value that Python
 * handlers return, its two constructors, and how it is turned into an HTTP
 * response. The header map shared by the server and its worker lives here
 * as well, as it does in the source.
 */
module RobynTypes {
  import opened Wrappers
  import opened Python
  import opened Actix

  /**
   * A registered handler: a coroutine function, whose call yields an
   * awaitable, or a plain function, whose call yields the result.
   */
  datatype PyFunction = CoRoutine(handler: PyCallable) | SyncFunction(handler: PyCallable)

  type u16 = x: int | 0 <= x < 0x1_0000
  type u8 = x: int | 0 <= x < 0x100

  /** The two response type tags. They are the same number. */
  const TEXT: u16 := 1
  const STATIC_FILE: u16 := 1

  /** A JSON value produced by converting a Python object (serde_json's `Value`). */
  datatype JsonValue = JsonValue(serialized: string)

  /** The `Response` object a handler returns. */
  datatype Response = Response(responseType: u16, meta: string, json: Option<JsonValue>)

  /** Everything that makes a request fail inside the dispatcher or while starting. */
  datatype Error =
    | PayloadError              // a chunk of the request body could not be read
    | Overflow                  // the body grew past MAX_SIZE
    | PyErr(exception: PyException)   // the handler, or awaiting it, raised
    | ExtractError              // the handler's result is not a Response
    | FileOpenError(path: string)     // the static file could not be opened
    | SocketBorrowError         // the socket object was already borrowed

  type WireResponse = HttpResponse<JsonValue>

  /** `Response::new`: a text or static-file response, without JSON. */
  function NewResponse(responseType: u16, meta: string): (r: Response)
    ensures r.json.None? && r.responseType == responseType && r.meta == meta
  {
    Response(responseType, meta, None)
  }

  /**
   * `Response::newjson`. `conversion` is the outcome of converting the Python
   * object to JSON (`depythonize`), which the model does not perform. The
   * tag is kept, the text becomes "JSON", and a failed conversion raises a
   * ValueError instead of building a response.
   */
  function NewJson(responseType: u16, padding: u8, conversion: Option<JsonValue>): (r: Result<Response, PyException>)
    ensures r.Ok? <==> conversion.Some?
    ensures r.Ok? ==> r.value == Response(responseType, "JSON", conversion)
    ensures r.Err? ==> r.error == PyException("ValueError", "Cannot parse json")
  {
    match conversion
    case Some(data) => Ok(Response(responseType, "JSON", Some(data)))
    case None => Err(PyException("ValueError", "Cannot parse json"))
  }

  /**
   * `Response::make_response`. `files` is the set of paths that
   * `NamedFile::open` succeeds on. JSON is checked first; then the tag
   * STATIC_FILE (which is also TEXT) means "serve the file named by meta";
   * otherwise meta is the body of a 200 response.
   */
  function MakeResponse(response: Response, files: set<string>): (r: Result<WireResponse, Error>)
    ensures r.Err? <==> response.json.None? && response.responseType == STATIC_FILE && response.meta !in files
    ensures r.Err? ==> r.error == FileOpenError(response.meta)
    ensures r.Ok? ==> r.value.status == OK && r.value.headers == map[]
  {
    if response.json.Some? then
      Ok(HttpResponse(OK, map[], JsonBody(response.json.value)))
    else if response.responseType == STATIC_FILE then
      if response.meta in files then Ok(HttpResponse(OK, map[], FileBody(response.meta)))
      else Err(FileOpenError(response.meta))
    else
      Ok(HttpResponse(OK, map[], TextBody(response.meta)))
  }

  /** The two tags cannot be told apart. */
  lemma TagsCollide()
    ensures TEXT == STATIC_FILE == 1
  {
  }

  /**
   * A response with JSON renders as JSON whatever its tag and its text say,
   * so a response built by a successful `newjson` always renders as JSON.
   */
  lemma JsonWins(response: Response, files: set<string>)
    requires response.json.Some?
    ensures MakeResponse(response, files) == Ok(HttpResponse(OK, map[], JsonBody(response.json.value)))
  {
  }

  lemma NewJsonRendersJson(responseType: u16, padding: u8, data: JsonValue, files: set<string>)
    ensures NewJson(responseType, padding, Some(data)).Ok?
    ensures MakeResponse(NewJson(responseType, padding, Some(data)).value, files)
         == Ok(HttpResponse(OK, map[], JsonBody(data)))
  {
  }

  /**
   * A response built by `Response::new` never renders as JSON: with the tag
   * 1 it is the file named by its text (or a file error), with any other tag
   * it is a 200 whose body is its text.
   */
  lemma NewResponseRendering(responseType: u16, meta: string, files: set<string>)
    ensures var r := MakeResponse(NewResponse(responseType, meta), files);
      && (responseType == STATIC_FILE && meta in files ==> r == Ok(HttpResponse(OK, map[], FileBody(meta))))
      && (responseType == STATIC_FILE && meta !in files ==> r == Err(FileOpenError(meta)))
      && (responseType != STATIC_FILE ==> r == Ok(HttpResponse(OK, map[], TextBody(meta))))
  {
  }

  /**
   * Because TEXT is STATIC_FILE, a response tagged TEXT is served as the
   * file whose path is its text, never as that text.
   */
  lemma TextTaggedIsServedAsFile(meta: string, files: set<string>)
    ensures MakeResponse(NewResponse(TEXT, meta), files).Ok? ==>
              MakeResponse(NewResponse(TEXT, meta), files).value.body == FileBody(meta)
    ensures MakeResponse(NewResponse(TEXT, meta), files).Ok? <==> meta in files
  {
  }

  /** `Headers`: the header map shared by a server and its worker. */
  class Headers {
    var entries: map<string, string>

    constructor ()
      ensures entries == map[]
    {
      entries := map[];
    }
  }
}
