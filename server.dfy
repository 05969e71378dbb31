/**
  The request dispatcher of the HTTP server: `handle_request` sends each
  request, by exact match on its method and path, to the greeting, the echo,
  the static-file or the catch-all arm, and every arm builds exactly one
  response.

  The request body enters the model already decoded (what serde would make of
  it as a `Message`), and the file system as the map of the files that can be
  opened and read as text.
*/
module Server {
  import opened Wrappers
  import opened JsonText

  /** hyper's request methods: the nine standard ones and any other token. */
  datatype Method = GET | POST | PUT | DELETE | HEAD | OPTIONS | CONNECT | PATCH | TRACE
                  | Extension(token: string)

  /** hyper's `StatusCode` holds a three-digit code. */
  type StatusCode = n: int | 100 <= n <= 999 witness 200

  const OK: StatusCode := 200
  const NOT_FOUND: StatusCode := 404

  /** The JSON shape the echo route reads from a request body. */
  datatype Message = Message(message: string)

  /**
    A request as the dispatcher sees it: its method (`verb`), the path of its URI and
    the result of decoding its body as a `Message` (None when the body is not
    such a JSON object).
  */
  datatype Request = Request(verb: Method, path: string, decoded: Option<Message>)

  /**
    A response body: the JSON value an arm serialises, or plain text.  The
    text sent is `BodyText(body)`; its UTF-8 encoding goes on the wire.
  */
  datatype Body = Json(object: OneKeyObject) | Text(text: string)

  /** A response: its status code and its body. */
  datatype Response = Response(status: StatusCode, body: Body)

  /** The text of a body, whose UTF-8 encoding is sent: `json.to_string()` for JSON, the text itself otherwise. */
  function BodyText(b: Body): string {
    match b
    case Json(o) => Encode(o)
    case Text(t) => t
  }

  /**
    The files the server can read: a path is a key exactly when opening it and
    reading it to a string succeed, and maps to the text read.
  */
  type FileSystem = map<string, string>

  const GREETING: string := "Hello, welcome to our server!"
  const INVALID_JSON: string := "Invalid JSON"
  const STATIC_FILE: string := "static/file.txt"
  const FILE_NOT_FOUND: string := "File not found"
  const ROUTE_NOT_FOUND: string := "Route not found"

  /** The four arms of the dispatcher. */
  datatype Route = Greeting | Echo | StaticFile | NotFound

  /** `Response::new`: the given body with the default status, 200 OK. */
  function NewResponse(body: Body): Response {
    Response(OK, body)
  }

  /** The body read of `serve_static_file`: the file's text, or None on any failure. */
  function ServeStaticFile(fs: FileSystem, path: string): Option<string> {
    if path in fs then Some(fs[path]) else None
  }

  /** The pattern part of the dispatcher's `match`: which arm a method and path select. */
  function RouteOf(verb: Method, path: string): Route {
    match (verb, path)
    case (GET, "/hello") => Greeting
    case (POST, "/echo") => Echo
    case (GET, "/static/file.txt") => StaticFile
    case _ => NotFound
  }

  /** A row of a routing table: a method, a path and the arm they select. */
  datatype RouteEntry = RouteEntry(verb: Method, path: string, route: Route)

  /** The dispatcher's routes, in the order of its match arms. */
  const ROUTES: seq<RouteEntry> := [
    RouteEntry(GET, "/hello", Greeting),
    RouteEntry(POST, "/echo", Echo),
    RouteEntry(GET, "/static/file.txt", StaticFile)
  ]

  /** A table row applies when its method and its path both equal the request's, byte for byte. */
  predicate Matches(e: RouteEntry, verb: Method, path: string) {
    e.verb == verb && e.path == path
  }

  /**
    The index of the first row that applies, or the table's length when none
    does: every earlier row fails to apply.
  */
  function FirstMatch(table: seq<RouteEntry>, verb: Method, path: string): (i: nat)
    ensures i <= |table|
    ensures i < |table| ==> Matches(table[i], verb, path)
    ensures forall j :: 0 <= j < i ==> !Matches(table[j], verb, path)
  {
    if table == [] then 0
    else if Matches(table[0], verb, path) then 0
    else 1 + FirstMatch(table[1..], verb, path)
  }

  /** Exact-match, first-match-wins routing over a table, with the catch-all behind it. */
  function Lookup(table: seq<RouteEntry>, verb: Method, path: string): Route {
    var i := FirstMatch(table, verb, path);
    if i < |table| then table[i].route else NotFound
  }

  /**
    `handle_request`: one response for every request, never an error.  The
    status is 404 exactly in the static-file arm when the file cannot be read
    and in the catch-all arm; everywhere else it is 200.
  */
  function HandleRequest(req: Request, fs: FileSystem): (r: Response)
    ensures r.status == OK || r.status == NOT_FOUND
    ensures r.status == NOT_FOUND <==>
              RouteOf(req.verb, req.path) == NotFound
              || (RouteOf(req.verb, req.path) == StaticFile && STATIC_FILE !in fs)
  {
    match RouteOf(req.verb, req.path)
    case Greeting =>
      NewResponse(Json(OneKeyObject("message", GREETING)))
    case Echo =>
      var received := (match req.decoded case Some(m) => m case None => Message(INVALID_JSON));
      NewResponse(Json(OneKeyObject("echoed_message", received.message)))
    case StaticFile =>
      (match ServeStaticFile(fs, STATIC_FILE)
       case Some(contents) => NewResponse(Text(contents))
       case None => NewResponse(Text(FILE_NOT_FOUND)).(status := NOT_FOUND))
    case NotFound =>
      NewResponse(Text(ROUTE_NOT_FOUND)).(status := NOT_FOUND)
  }

  /** The greeting text: `{"message":"Hello, welcome to our server!"}`. */
  lemma GreetingText()
    ensures Encode(OneKeyObject("message", GREETING)) == "{\"" + "message" + "\":\"" + GREETING + "\"}"
  {
    NothingToEscape("message");
    NothingToEscape(GREETING);
    EncodePlain("message", GREETING);
  }

  /** GET /hello answers 200 with the fixed greeting object, whatever the body and the files. */
  lemma HelloRoute(body: Option<Message>, fs: FileSystem)
    ensures HandleRequest(Request(GET, "/hello", body), fs).status == 200
    ensures BodyText(HandleRequest(Request(GET, "/hello", body), fs).body)
            == "{\"" + "message" + "\":\"" + GREETING + "\"}"
  {
    assert RouteOf(GET, "/hello") == Greeting;
    GreetingText();
  }

  /** The echo arm serialises the one-key object `echoed_message` holding the decoded message. */
  lemma EchoReply(s: string, fs: FileSystem)
    ensures HandleRequest(Request(POST, "/echo", Some(Message(s))), fs)
            == Response(200, Json(OneKeyObject("echoed_message", s)))
  {
  }

  /** POST /echo with a decodable body answers 200, and the reply gives the message back unchanged. */
  lemma EchoRoute(s: string, fs: FileSystem)
    ensures HandleRequest(Request(POST, "/echo", Some(Message(s))), fs).status == 200
    ensures Decode(BodyText(HandleRequest(Request(POST, "/echo", Some(Message(s))), fs).body))
            == Some(OneKeyObject("echoed_message", s))
  {
    EchoReply(s, fs);
    ObjectRoundTrip(OneKeyObject("echoed_message", s));
  }

  /** The fallback echo text: `{"echoed_message":"Invalid JSON"}`. */
  lemma InvalidJsonText()
    ensures Encode(OneKeyObject("echoed_message", INVALID_JSON))
            == "{\"" + "echoed_message" + "\":\"" + INVALID_JSON + "\"}"
  {
    NothingToEscape("echoed_message");
    NothingToEscape(INVALID_JSON);
    EncodePlain("echoed_message", INVALID_JSON);
  }

  /** POST /echo with a body that does not decode still answers 200, echoing "Invalid JSON". */
  lemma EchoInvalidJson(fs: FileSystem)
    ensures HandleRequest(Request(POST, "/echo", None), fs).status == 200
    ensures BodyText(HandleRequest(Request(POST, "/echo", None), fs).body)
            == "{\"" + "echoed_message" + "\":\"" + INVALID_JSON + "\"}"
  {
    assert RouteOf(POST, "/echo") == Echo;
    InvalidJsonText();
  }

  /** GET /static/file.txt answers 200 with the file's text, unwrapped, when it can be read. */
  lemma StaticFileFound(body: Option<Message>, fs: FileSystem)
    requires STATIC_FILE in fs
    ensures HandleRequest(Request(GET, "/static/file.txt", body), fs)
            == Response(OK, Text(fs[STATIC_FILE]))
  {
  }

  /** GET /static/file.txt answers 404 "File not found" when the file cannot be read. */
  lemma StaticFileMissing(body: Option<Message>, fs: FileSystem)
    requires STATIC_FILE !in fs
    ensures HandleRequest(Request(GET, "/static/file.txt", body), fs)
            == Response(NOT_FOUND, Text(FILE_NOT_FOUND))
  {
  }

  /** Every method and path outside the three exact routes answers 404 "Route not found". */
  lemma RouteNotFound(req: Request, fs: FileSystem)
    requires (req.verb, req.path) !in {(GET, "/hello"), (POST, "/echo"), (GET, "/static/file.txt")}
    ensures HandleRequest(req, fs) == Response(NOT_FOUND, Text(ROUTE_NOT_FOUND))
  {
  }

  /** The fixed keys and messages of the replies hold no character that JSON escapes. */
  lemma NothingToEscape(s: string)
    requires s in {"message", "echoed_message", GREETING, INVALID_JSON}
    ensures forall i :: 0 <= i < |s| ==> !NeedsEscape(s[i])
  {
  }

  /** The dispatcher's match is first-match lookup in its routing table. */
  lemma RouteOfIsTableLookup(verb: Method, path: string)
    ensures RouteOf(verb, path) == Lookup(ROUTES, verb, path)
  {
  }

  /** The request body decides nothing outside the echo arm. */
  lemma BodyReadOnlyByEcho(verb: Method, path: string, b1: Option<Message>, b2: Option<Message>, fs: FileSystem)
    requires RouteOf(verb, path) != Echo
    ensures HandleRequest(Request(verb, path, b1), fs) == HandleRequest(Request(verb, path, b2), fs)
  {
  }

  /** The file system decides nothing outside the static-file arm. */
  lemma FilesReadOnlyByStaticArm(req: Request, fs1: FileSystem, fs2: FileSystem)
    requires RouteOf(req.verb, req.path) != StaticFile
    ensures HandleRequest(req, fs1) == HandleRequest(req, fs2)
  {
  }

  /** No normalisation: a different method, a trailing slash or a change of case misses the routes. */
  lemma NoNormalisation(body: Option<Message>, fs: FileSystem)
    ensures HandleRequest(Request(DELETE, "/hello", body), fs).status == 404
    ensures HandleRequest(Request(GET, "/echo", body), fs).status == 404
    ensures HandleRequest(Request(GET, "/hello/", body), fs).status == 404
    ensures HandleRequest(Request(GET, "/Hello", body), fs).status == 404
    ensures HandleRequest(Request(Extension("get"), "/hello", body), fs).status == 404
  {
  }
}
