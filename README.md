# Request dispatcher of a minimal hyper HTTP server, in Dafny

This project models `handle_request` in `src/main.rs`, the whole decision
logic of a small HTTP server. The function matches the request's method and
URI path exactly, and the first match wins:

- `GET /hello`: status 200 and the JSON object `{"message":"Hello, welcome to our server!"}`.
- `POST /echo`: status 200 and `{"echoed_message": s}`. Here `s` is the
  `message` field of the JSON body, or `"Invalid JSON"` when the body does not
  decode as a `Message`.
- `GET /static/file.txt`: status 200 and the raw text of `static/file.txt`,
  or status 404 and `File not found` when the file cannot be read.
- Anything else: status 404 and `Route not found`.

The handler never fails; its error type is `Infallible`. Because it is pure,
the model writes it as total Dafny functions with lemmas, in two modules:

- `JsonText` (`json_text.dfy`) is the JSON text the replies are made of. It
  models a one-key object with a string value, written the way serde_json's
  compact formatter writes `json!({ key: value }).to_string()`. Inside a string
  literal, `"` and `\` are escaped, and so is every control character below
  U+0020: `\b`, `\t`, `\n`, `\f` and `\r` by short name, the rest as `\u00` and
  two lower-case hex digits. It also holds a decoder for that compact text,
  which follows the escape rules of section 7 of RFC 8259 but refuses every
  `\u` escape that names a surrogate code point, lone or paired. The lemmas
  prove the decoder undoes the encoder, so an echoed message comes back
  unchanged.
- `Server` (`server.dfy`) holds the request and response shapes and the route
  match (`RouteOf`). `Lookup` over the table `ROUTES` is an independent
  first-match reference for that match. `HandleRequest` is the handler itself,
  and one lemma per route states its behaviour.
- `Wrappers` (`wrappers.dfy`) holds the `Option` datatype.

The model's inputs are plain values:

- The request is its method, its path, and the result of decoding its body as a
  `Message` (`Option<Message>`).
- The file system is a `map<string, string>`. A path is a key exactly when
  opening it and reading it to a string succeed.
- A response is a status code (hyper's range 100 to 999) and a body. The body
  is either the JSON object an arm serialises or plain text. `BodyText` gives the
  text whose UTF-8 encoding is sent.

The handler is a function, so two identical requests against the same files
always get the same response.

The echo reply key is `echoed_message`, as the code writes it
(`src/main.rs:32`).

## Model

| member | source | states |
|---|---|---|
| `Server.HandleRequest` | src/main.rs:15-56 | Every request gets a response and never an error. The status is 200 or 404. It is 404 exactly in the catch-all arm and when the static file cannot be read. |
| `Server.RouteOf` | src/main.rs:16-50 | Which arm the dispatcher's `match` selects: `GET /hello`, `POST /echo` and `GET /static/file.txt` by exact equality of method and path, anything else the catch-all. Its property, exact first-match lookup in the routing table, is stated by `RouteOfIsTableLookup`. |
| `Server.NewResponse` | src/main.rs:22 | `Response::new`, as at lines 22, 34, 40, 42 and 51: the given body with hyper's default status 200. `HelloRoute`, `EchoReply` and `StaticFileFound` state the 200 responses built with it. |
| `Server.BodyText` | src/main.rs:34 | The text `Body::from` is given, as at lines 22, 34, 40, 42 and 51: the serialised JSON for the two JSON arms, the text itself otherwise. `GreetingText`, `InvalidJsonText` and `EchoRoute` state what it is for the JSON replies. |
| `Server.ServeStaticFile` | src/main.rs:59-64 | `serve_static_file`: the text of the file when opening and reading it succeed, and no text on any failure. `StaticFileFound` and `StaticFileMissing` state how the handler answers each outcome. |
| `Server.FirstMatch` | src/main.rs:16-50 | Gives the index of the first routing-table row whose method and path both equal the request's. Every earlier row differs. The table length means no row applies. |
| `Server.RouteOfIsTableLookup` | src/main.rs:16-55 | The dispatcher's match is exact-match, first-match-wins lookup in its three routes, ending in the catch-all. |
| `Server.NoNormalisation` | src/main.rs:16-18 | DELETE /hello, GET /echo, GET /hello/, GET /Hello and an extension method `get` on /hello all get 404. Matching does not normalise case or trailing slashes. |
| `Server.GreetingText` | src/main.rs:19-22 | The greeting body is exactly `{"message":"Hello, welcome to our server!"}`, with nothing escaped. |
| `Server.HelloRoute` | src/main.rs:18-23 | GET /hello gives status 200 and the greeting text, whatever the body and the files. |
| `Server.EchoReply` | src/main.rs:26-34 | POST /echo with a body that decodes to `Message { message: s }` answers 200 with the one-key JSON object `echoed_message` set to `s`. |
| `Server.EchoRoute` | src/main.rs:26-34 | POST /echo with a body that decodes to `Message { message: s }` gives 200. The reply decodes to the one-key object `echoed_message: s`, so `s` round-trips unchanged. |
| `Server.InvalidJsonText` | src/main.rs:28-33 | The fallback echo body is exactly `{"echoed_message":"Invalid JSON"}`. |
| `Server.EchoInvalidJson` | src/main.rs:28-34 | POST /echo with a body that does not decode still gives 200, never 4xx, echoing `Invalid JSON`. |
| `Server.BodyReadOnlyByEcho` | src/main.rs:26-28 | Outside the echo arm, the request body does not affect the response. |
| `Server.StaticFileFound` | src/main.rs:38-40 | GET /static/file.txt gives 200 and exactly the text of `static/file.txt`, unwrapped, when that file can be read. |
| `Server.StaticFileMissing` | src/main.rs:41-45 | GET /static/file.txt gives 404 and `File not found` when the file cannot be read, whatever the cause. |
| `Server.FilesReadOnlyByStaticArm` | src/main.rs:38-39 | Outside the static-file arm, the file system does not affect the response. |
| `Server.RouteNotFound` | src/main.rs:50-54 | Every method and path pair other than the three routes gives 404 and `Route not found`. |
| `JsonText.EscapeChar` | src/main.rs:31-33 | serde_json's escape of one character inside a string literal: `\"` and `\\` for quote and backslash, `\b`, `\t`, `\n`, `\f`, `\r` by short name, `\u00` and two lower-case hex digits for the other characters below U+0020, and the character itself otherwise. `EscapeCharRoundTrip` states that it can be read back. |
| `JsonText.Escape` | src/main.rs:31-33 | The escaped contents of a string literal, one character at a time. `EscapeRoundTrip`, `EscapePrintable` and `EscapePlain` state its properties. |
| `JsonText.Quote` | src/main.rs:31-33 | A string as a JSON string literal, its escaped contents between quotes. `QuoteRoundTrip` states that it reads back. |
| `JsonText.Encode` | src/main.rs:19-22 | The compact `json!({ key: value }).to_string()` text of a one-key object, as at lines 19-22 and 31-34. `ObjectRoundTrip`, `EncodePlain` and `EscapePrintable` state its properties. |
| `JsonText.EscapeCharRoundTrip` | src/main.rs:31-33 | Reading back the escape of any character gives that character, and the text after it is untouched. |
| `JsonText.EscapeRoundTrip` | src/main.rs:31-33 | The escaped string followed by a closing quote reads back as the original string, leaving the rest of the text. |
| `JsonText.QuoteRoundTrip` | src/main.rs:31-33 | A quoted string reads back as that string. |
| `JsonText.ObjectRoundTrip` | src/main.rs:31-34 | Decoding the compact text of a one-key object gives back its key and value unchanged. |
| `JsonText.EscapePrintable` | src/main.rs:31-33 | Escaped text holds no raw control character. |
| `JsonText.EscapePlain` | src/main.rs:19-21 | A string with nothing to escape is written as it is. |
| `JsonText.EncodePlain` | src/main.rs:19-21 | A one-key object whose key and value need no escaping is written as `{"key":"value"}`. |

## Left out

- `main` (`src/main.rs:66-84`) is not modelled: the socket address, `Server::bind`, the tokio runtime and `make_service_fn`. They are transport and concurrency plumbing, and each request is handled on its own.
- The file I/O of `serve_static_file` (`src/main.rs:59-64`) is not modelled: the async `File::open` and `read_to_string`. Only the outcome is kept, as membership in the file-system map, and the causes of failure are not told apart.
- The request-body decoding by `serde_json::from_slice` (`src/main.rs:28`) is an input, `Request.decoded`. serde_json is not part of this model, so which bodies decode is not modelled.
- The body read `hyper::body::to_bytes(...).await.unwrap()` (`src/main.rs:27`) is not modelled. It is async I/O, and its failure is a panic, not a response.
- Response bodies are modelled as Unicode text; the UTF-8 encoding applied by `Body::from` is not modelled.
- Response headers, the HTTP version and content types are not modelled. The source sets none beyond hyper's defaults.
- The method is not extracted from raw bytes. hyper never parses a standard method name into `Extension`, and the model does not enforce this: such values stand for no request hyper delivers, and the route lemmas hold over this larger set.
- The JSON encoder covers only the one-key, string-valued objects the handler builds. The decoder reads only that compact shape and rejects `\u` escapes that name surrogate code points.
- `Calculus/src/main.rs` (Simpson's rule on `f64` with a closure) is not modelled. It is floating-point numerics outside the dispatcher.
