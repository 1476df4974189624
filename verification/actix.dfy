/**
 * The parts of actix-web (and of the `http` crate beneath it) that the Robyn
 * core touches: request methods and how a method name is parsed, the request
 * as far as routing needs it, the response, and the response builder that
 * headers are inserted into.
 */
module Actix {
  import opened Wrappers

  /** Request methods: the nine standard ones and any other valid token. */
  datatype Method =
    | GET | POST | PUT | DELETE | PATCH
    | HEAD | OPTIONS | CONNECT | TRACE
    | Extension(name: string)

  /** The canonical spelling of a method. */
  function MethodName(m: Method): string {
    match m
    case GET => "GET"
    case POST => "POST"
    case PUT => "PUT"
    case DELETE => "DELETE"
    case PATCH => "PATCH"
    case HEAD => "HEAD"
    case OPTIONS => "OPTIONS"
    case CONNECT => "CONNECT"
    case TRACE => "TRACE"
    case Extension(name) => name
  }

  /** The method, if any, whose canonical spelling is exactly `s`. */
  function StandardMethod(s: string): Option<Method> {
    if s == "GET" then Some(GET)
    else if s == "POST" then Some(POST)
    else if s == "PUT" then Some(PUT)
    else if s == "DELETE" then Some(DELETE)
    else if s == "PATCH" then Some(PATCH)
    else if s == "HEAD" then Some(HEAD)
    else if s == "OPTIONS" then Some(OPTIONS)
    else if s == "CONNECT" then Some(CONNECT)
    else if s == "TRACE" then Some(TRACE)
    else None
  }

  /** A byte the `http` crate accepts in a method name (a token character of RFC 7230). */
  predicate IsTokenChar(c: char) {
    || ('a' <= c <= 'z')
    || ('A' <= c <= 'Z')
    || ('0' <= c <= '9')
    || c in "!#$%&'*+-.^_`|~"
  }

  predicate IsToken(s: string) {
    |s| > 0 && forall i :: 0 <= i < |s| ==> IsTokenChar(s[i])
  }

  /** A method value that `Method::from_bytes` can produce. */
  predicate ValidMethod(m: Method) {
    m.Extension? ==> IsToken(m.name) && StandardMethod(m.name).None?
  }

  /**
   * `Method::from_bytes`: the exact, case-sensitive spelling of a standard
   * method gives that method; any other non-empty token gives an extension
   * method; anything else is an error.
   */
  function ParseMethod(s: string): (r: Option<Method>)
    ensures r.Some? <==> IsToken(s)
    ensures r.Some? ==> MethodName(r.value) == s && ValidMethod(r.value)
  {
    match StandardMethod(s)
    case Some(m) => Some(m)
    case None => if IsToken(s) then Some(Extension(s)) else None
  }

  /** Parsing the canonical spelling of a method gives that method back. */
  lemma ParseMethodRoundTrip(m: Method)
    requires ValidMethod(m)
    ensures ParseMethod(MethodName(m)) == Some(m)
  {
    if !m.Extension? {
      var s := MethodName(m);
      assert forall i :: 0 <= i < |s| ==> 'A' <= s[i] <= 'Z';
    }
  }

  /** What routing sees of a request: its method and the path of its URI. */
  datatype HttpRequest = HttpRequest(httpMethod: Method, path: string)

  type StatusCode = x: int | 100 <= x < 1000 witness 200

  const OK: StatusCode := 200
  const NOT_FOUND: StatusCode := 404
  const INTERNAL_SERVER_ERROR: StatusCode := 500

  /**
   * A response body: none, plain text, serialized JSON, a file streamed
   * from disk, or the text of the error a response builder recorded.
   */
  datatype Body<J> = EmptyBody | TextBody(text: string) | JsonBody(json: J) | FileBody(path: string) | BuilderErrorBody

  /** The longest header name `HeaderName` accepts is one byte short of this. */
  const MAX_HEADER_NAME_LEN: nat := 0x1_0000

  /**
   * `HeaderName::try_from`: a non-empty token shorter than
   * MAX_HEADER_NAME_LEN (upper-case letters are accepted and lower-cased).
   */
  predicate ValidHeaderName(name: string) {
    IsToken(name) && |name| < MAX_HEADER_NAME_LEN
  }

  /**
   * `HeaderValue::try_from(String)`: every byte is a tab or at least a
   * space and not DEL; characters past ASCII encode to bytes that pass.
   */
  predicate ValidHeaderValue(value: string) {
    forall i :: 0 <= i < |value| ==> value[i] == '\t' || (' ' <= value[i] && value[i] != '\U{7F}')
  }

  predicate ValidHeader(name: string, value: string) {
    ValidHeaderName(name) && ValidHeaderValue(value)
  }

  /** Every entry of a header map can be inserted into a builder. */
  predicate ValidHeaders(entries: map<string, string>) {
    forall k :: k in entries ==> ValidHeader(k, entries[k])
  }

  /**
   * A finished response. `headers` holds the headers that Robyn's own code
   * inserted; the content type that a body kind implies is not listed.
   */
  datatype HttpResponse<J> = HttpResponse(status: StatusCode, headers: map<string, string>, body: Body<J>)

  /**
   * `HttpResponseBuilder`: a status, the headers inserted so far, and
   * whether an insertion failed (the builder's recorded error).
   */
  class ResponseBuilder {
    var status: StatusCode
    var headers: map<string, string>
    var failed: bool

    constructor (status: StatusCode)
      ensures this.status == status && headers == map[] && !failed
    {
      this.status := status;
      headers := map[];
      failed := false;
    }

    /**
     * `insert_header`: a header of the same name is replaced. A name or
     * value that does not convert records an error instead; once an error
     * is recorded, later insertions are ignored.
     */
    method InsertHeader(name: string, value: string)
      modifies this
      ensures failed <==> old(failed) || !ValidHeader(name, value)
      ensures headers == if failed then old(headers) else old(headers)[name := value]
      ensures status == old(status)
    {
      if failed {
        return;
      }
      if ValidHeader(name, value) {
        headers := headers[name := value];
      } else {
        failed := true;
      }
    }

    /**
     * `finish`: the response with the builder's status and headers and no
     * body; with a recorded error, a 500 that carries only that error's
     * text instead.
     */
    method Finish<J>() returns (r: HttpResponse<J>)
      ensures !failed ==> r == HttpResponse(status, headers, EmptyBody)
      ensures failed ==> r == HttpResponse(INTERNAL_SERVER_ERROR, map[], BuilderErrorBody)
    {
      if failed {
        r := HttpResponse(INTERNAL_SERVER_ERROR, map[], BuilderErrorBody);
      } else {
        r := HttpResponse(status, headers, EmptyBody);
      }
    }
  }
}
