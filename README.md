# xhttp, modelled in Dafny

xhttp is a small Kotlin HTTP and WebSocket client built on the JDK's
`java.net.http`. It has three parts:

- **Request DSL.** A call such as `client.get("/users") { header(...); queryParams { ... }; retry(2, 100) }`
  configures a `RequestBuilder`. `send` builds the final URL. It sends the request, retries while
  the response is not ok, and calls the `onError` callback when the last response is still not ok.
- **Client.** `XHttpClient` keeps a base URL and default headers. Each call installs the defaults
  before the block runs, so the block can override them.
- **WebSocket.** A `websocket(url) { onMessage { ... } }` session reassembles fragmented messages,
  asks the JDK for one frame at a time, and resolves a one-shot `done` future on close or error.

This project models those parts and proves properties of the model. Each `.dfy` file follows one
Kotlin file:

| Dafny module | file | Kotlin file |
|---|---|---|
| `RequestBuilding` | `request_builder.dfy` | `request/builder/RequestBuilder.kt` |
| `HeaderDsl` | `headers_builder.dfy` | `request/builder/HeadersBuilder.kt` |
| `QueryDsl` | `query_params_builder.dfy` | `request/builder/QueryParamsBuilder.kt` |
| `MultipartDsl` | `multipart_builder.dfy` | `request/builder/MultipartBuilder.kt` |
| `LegacyRequest` | `request.dfy` | `request/Request.kt` |
| `ClientBuilding` | `client_builder.dfy` | `XHttpClientBuilder.kt` |
| `Client` | `client.dfy` | `XHttpClient.kt` |
| `WebSocketBuilding` | `websocket_builder.dfy` | `websocket/WebSocketBuilder.kt` |
| `WebSocketSessions` | `websocket_session.dfy` | `websocket/WebSocketSession.kt` and `websocket()` of `WebSocket.kt` |

Supporting modules:

- `Base`: bytes, JVM `Int`/`Long` ranges, `Option`, `fold`-style concatenation, decimal rendering, `joinToString` and its inverse.
- `Utf8`: `toByteArray(Charsets.UTF_8)`, after RFC 3629.
- `FormEncoding`: `java.net.URLEncoder.encode(s, UTF_8)`.
- `LinkedMaps`: Kotlin's `linkedMapOf()`.
- `Http`: the `HttpRequest` that is built, the `Response` record, and the transport.

Conventions used throughout:

- **Classes.** Classes whose fields the Kotlin code updates are Dafny classes with the same fields.
  Each setter method states the new state in terms of a pure function of the old one:
  `Config() == Apply(old(Config()), setter)` or `State() == Step(old(State()), event)`.
  The properties are lemmas about those functions.
- **DSL blocks.** A block `T.() -> Unit` is a sequence of the statements it executes. For example,
  `RequestBuilding.Setter` is one call on the receiver.
- **User callbacks.** A user callback is an opaque `Handler` value. The model records that the
  callback was invoked and with what arguments.
- **The network.** `HttpClient.send` is an oracle `Transport = (Outgoing, nat) -> Exchange`. It
  gives the result of the n-th send of a request: a raw response, or a thrown exception.
- **Clock and sleeps.** `System.currentTimeMillis()` is a parameter (`clockMillis`).
  `Thread.sleep` is recorded in a list of sleeps.
- **WebSocket events.** The JDK's listener events are inputs. What the session does is an
  ordered log of effects: the handshake, callback invocations, and calls on the `WebSocket`.

Query names and values go through `URLEncoder.encode`, which is form encoding: a space becomes
`+` (`RequestBuilding.FinalUrlExample`).

The code and its documentation differ in one place, and the model follows the code. The KDoc of
`retry` (RequestBuilder.kt:108) says the request is retried when an exception is thrown. In the
code, an exception thrown by `attempt()` leaves `send` at once: there is no further attempt and the
`onError` callback is not called (`RequestBuilding.RunAttempts`, `RequestBuilding.AttemptsFacts`).

## Model


| member | source | states |
|---|---|---|
| `Base.Decimal` | src/main/kotlin/io/github/xerooup/xhttp/request/builder/MultipartBuilder.kt:7 | the clock reading in the boundary is rendered as at least one decimal digit, all digits, with no leading zero |
| `Base.DecimalRoundTrip` | src/main/kotlin/io/github/xerooup/xhttp/request/builder/MultipartBuilder.kt:7 | the digits read back as the clock reading, so different readings give different boundaries |
| `Base.FlattenAppend` | src/main/kotlin/io/github/xerooup/xhttp/request/builder/MultipartBuilder.kt:38 | folding a list of parts with `+` is the same as folding each half and joining the results |
| `Base.FlattenLength` | src/main/kotlin/io/github/xerooup/xhttp/request/builder/MultipartBuilder.kt:38 | the folded bytes are exactly as long as all the parts together |
| `Base.FlattenPlacesPart` | src/main/kotlin/io/github/xerooup/xhttp/request/builder/MultipartBuilder.kt:38 | part i appears unchanged in the fold, starting right after the parts before it |
| `Base.SplitJoin` | src/main/kotlin/io/github/xerooup/xhttp/request/builder/RequestBuilder.kt:130 | `joinToString(sep)` of pieces that never contain `sep` is undone by splitting at `sep` |
| `Utf8.EncodeChar` | src/main/kotlin/io/github/xerooup/xhttp/request/builder/RequestBuilder.kt:57 | a character becomes 1 to 4 bytes; the lead byte announces the length, the rest are continuation bytes, and an ASCII character is its own code |
| `Utf8.EncodeCharDecodes` | src/main/kotlin/io/github/xerooup/xhttp/request/builder/RequestBuilder.kt:57 | the bytes of one character decode back to that character |
| `Utf8.EncodeConcat` | src/main/kotlin/io/github/xerooup/xhttp/request/builder/MultipartBuilder.kt:16-19 | the bytes of a concatenated text are the bytes of each piece, in order |
| `Utf8.EncodeAscii` | src/main/kotlin/io/github/xerooup/xhttp/request/builder/MultipartBuilder.kt:37 | an ASCII text becomes its character codes, one byte each |
| `Utf8.DecodeEncode` | src/main/kotlin/io/github/xerooup/xhttp/request/builder/RequestBuilder.kt:57 | strict UTF-8 decoding gives back the text that was encoded |
| `Utf8.DecodeUnitEncodes` | src/main/kotlin/io/github/xerooup/xhttp/request/builder/RequestBuilder.kt:57 | any one- to four-byte sequence the decoder accepts is the encoding of the character it decodes to |
| `Utf8.EncodeDecode` | src/main/kotlin/io/github/xerooup/xhttp/request/builder/RequestBuilder.kt:57 | the decoder accepts exactly the encodings: whatever it decodes re-encodes to the same bytes |
| `Utf8.MalformedRefused` | src/main/kotlin/io/github/xerooup/xhttp/request/builder/RequestBuilder.kt:57 | an overlong form, a missing continuation byte, an encoded surrogate and a value above U+10FFFF are refused |
| `Utf8.EncodeInjective` | src/main/kotlin/io/github/xerooup/xhttp/request/Request.kt:38 | two texts with the same bytes are the same text |
| `FormEncoding.EncodeByte` | src/main/kotlin/io/github/xerooup/xhttp/request/builder/RequestBuilder.kt:131 | each byte becomes one or more characters from the encoded alphabet: unreserved characters, `+` and `%` |
| `FormEncoding.Encode` | src/main/kotlin/io/github/xerooup/xhttp/request/builder/RequestBuilder.kt:131 | an encoded name or value never contains `&`, `=`, `?` or `#` |
| `FormEncoding.DecodeEncode` | src/main/kotlin/io/github/xerooup/xhttp/request/builder/RequestBuilder.kt:131 | decoding an encoded component gives back the UTF-8 bytes of the original text |
| `FormEncoding.EncodeInjective` | src/main/kotlin/io/github/xerooup/xhttp/request/builder/RequestBuilder.kt:131 | different texts never encode alike |
| `FormEncoding.EncodeSpace` | src/main/kotlin/io/github/xerooup/xhttp/request/builder/RequestBuilder.kt:131 | `b c` encodes to `b+c`: a space becomes `+` |
| `LinkedMaps.IndexOf` | src/main/kotlin/io/github/xerooup/xhttp/request/builder/RequestBuilder.kt:17 | the position found holds the key and no earlier entry does; no position means the key is absent |
| `LinkedMaps.Get` | src/main/kotlin/io/github/xerooup/xhttp/request/builder/RequestBuilder.kt:17 | a lookup succeeds exactly when some entry has the key, and then gives that entry's value |
| `LinkedMaps.Put` | src/main/kotlin/io/github/xerooup/xhttp/request/builder/RequestBuilder.kt:40 | `m[k] = v`: k then maps to v and every other key is unchanged; an existing key keeps its place and a new key goes last |
| `LinkedMaps.PutAllGet` | src/main/kotlin/io/github/xerooup/xhttp/request/builder/RequestBuilder.kt:31 | after `putAll(other)`, a key of `other` has `other`'s value and every other key keeps its old value |
| `LinkedMaps.PutAllKeepsOrder` | src/main/kotlin/io/github/xerooup/xhttp/request/builder/RequestBuilder.kt:31 | `putAll` never reorders or drops the keys already present |
| `LinkedMaps.PutAllSnoc` | src/main/kotlin/io/github/xerooup/xhttp/request/builder/HeadersBuilder.kt:13-15 | writing one more entry after `putAll` is the same as `putAll` of the longer list |
| `Http.ToResponse` | src/main/kotlin/io/github/xerooup/xhttp/request/builder/RequestBuilder.kt:153-158 | the status and body are copied, `ok` holds exactly for statuses 200 to 299, and the response has the same header names |
| `Http.HeaderValuesRecoverable` | src/main/kotlin/io/github/xerooup/xhttp/request/builder/RequestBuilder.kt:155 | when no value of a header contains a comma, splitting the joined value at commas gives back every value |
| `Http.Assemble` | src/main/kotlin/io/github/xerooup/xhttp/request/builder/RequestBuilder.kt:140-150 | the request has the method's name, the URI, the timeout and the body; the user headers come first in insertion order; one `Content-Type` is added after them exactly when there is both a body and a content type |
| `HeaderDsl.HeadersBuilder.constructor` | src/main/kotlin/io/github/xerooup/xhttp/request/builder/HeadersBuilder.kt:7 | a new builder starts with an empty map |
| `HeaderDsl.HeadersBuilder.To` | src/main/kotlin/io/github/xerooup/xhttp/request/builder/HeadersBuilder.kt:13-15 | `"Name" to "v"` is `headers[Name] = v` |
| `HeaderDsl.HeadersBuilder.Invoke` | src/main/kotlin/io/github/xerooup/xhttp/request/builder/HeadersBuilder.kt:21-23 | `"Name"("v")` makes the same write as `to` |
| `HeaderDsl.Run` | src/main/kotlin/io/github/xerooup/xhttp/request/builder/RequestBuilder.kt:31 | the map a `headers { }` block builds is its entries written one by one into an empty map |
| `HeaderDsl.LastWrite` | src/main/kotlin/io/github/xerooup/xhttp/request/builder/HeadersBuilder.kt:13-23 | a block writes no value for a name exactly when none of its statements names it |
| `HeaderDsl.LastWriteIsLast` | src/main/kotlin/io/github/xerooup/xhttp/request/builder/HeadersBuilder.kt:13-23 | the value found comes from a statement for that name that no later statement for the name follows |
| `HeaderDsl.RunLastWriteWins` | src/main/kotlin/io/github/xerooup/xhttp/request/builder/HeadersBuilder.kt:13-23 | in the map a block builds, each name has its last written value, and a name the block never writes is absent |
| `QueryDsl.QueryParamsBuilder.constructor` | src/main/kotlin/io/github/xerooup/xhttp/request/builder/QueryParamsBuilder.kt:7 | a new builder starts with no parameters |
| `QueryDsl.QueryParamsBuilder.To` | src/main/kotlin/io/github/xerooup/xhttp/request/builder/QueryParamsBuilder.kt:13-15 | `"n" to "v"` appends the pair `(n, v)` |
| `QueryDsl.QueryParamsBuilder.Invoke` | src/main/kotlin/io/github/xerooup/xhttp/request/builder/QueryParamsBuilder.kt:21-23 | `"n"("v")` makes the same append as `to` |
| `QueryDsl.Run` | src/main/kotlin/io/github/xerooup/xhttp/request/builder/RequestBuilder.kt:48 | a `queryParams { }` block gives one pair per statement, in statement order, repeated names included |
| `MultipartDsl.MultipartBuilder.constructor` | src/main/kotlin/io/github/xerooup/xhttp/request/builder/MultipartBuilder.kt:7-8 | the boundary is `XHttpBoundary` followed by the clock reading, and there are no parts yet |
| `MultipartDsl.MultipartBuilder.Field` | src/main/kotlin/io/github/xerooup/xhttp/request/builder/MultipartBuilder.kt:15-20 | one field part is appended: delimiter, disposition with the name, a blank line, the value, CRLF |
| `MultipartDsl.MultipartBuilder.File` | src/main/kotlin/io/github/xerooup/xhttp/request/builder/MultipartBuilder.kt:29-34 | one file part is appended: the header text, the raw bytes, then CRLF |
| `MultipartDsl.MultipartBuilder.Build` | src/main/kotlin/io/github/xerooup/xhttp/request/builder/MultipartBuilder.kt:36-40 | the content type names the boundary; the body is every part unchanged, in order and at its offset, followed by the close delimiter and nothing else; with no parts, the body is just the close delimiter |
| `MultipartDsl.Run` | src/main/kotlin/io/github/xerooup/xhttp/request/builder/RequestBuilder.kt:88 | a `multipart { }` block gives the parts of its statements in order, then the close delimiter, and `multipart/form-data; boundary=...` |
| `MultipartDsl.PartOpensWithDelimiter` | src/main/kotlin/io/github/xerooup/xhttp/request/builder/MultipartBuilder.kt:16-33 | every field and file part starts with the bytes of `--boundary CRLF` |
| `MultipartDsl.FieldPartLayout` | src/main/kotlin/io/github/xerooup/xhttp/request/builder/MultipartBuilder.kt:16-19 | a field's bytes are the fixed framing with the name and the value inserted verbatim |
| `MultipartDsl.BoundaryIsAscii` | src/main/kotlin/io/github/xerooup/xhttp/request/builder/MultipartBuilder.kt:7 | the boundary is ASCII, so each of its characters is one byte on the wire |
| `RequestBuilding.EncodedParamPieces` | src/main/kotlin/io/github/xerooup/xhttp/request/builder/RequestBuilder.kt:130-131 | an encoded `name=value` piece holds no `&`, and splitting it at `=` gives exactly the encoded name and the encoded value |
| `RequestBuilding.QueryStringRoundTrip` | src/main/kotlin/io/github/xerooup/xhttp/request/builder/RequestBuilder.kt:130-132 | the query string reads back as the parameters: the same pairs, in insertion order, with duplicates kept |
| `RequestBuilding.FinalUrlComposition` | src/main/kotlin/io/github/xerooup/xhttp/request/builder/RequestBuilder.kt:129-134 | with no parameters the URL is unchanged; otherwise it is the URL, then `&` when the URL already has `?` (else `?`), then a query that reads back as the parameters |
| `RequestBuilding.FinalUrlExample` | src/main/kotlin/io/github/xerooup/xhttp/request/builder/RequestBuilder.kt:129-134 | `https://x/y` with `a` set to `b c` becomes `https://x/y?a=b+c` |
| `RequestBuilding.Apply` | src/main/kotlin/io/github/xerooup/xhttp/request/builder/RequestBuilder.kt:30-124 | no setter breaks the builder's invariant: the headers stay a map with no repeated name, and the body and content type are set together |
| `RequestBuilding.ApplyKeepsTarget` | src/main/kotlin/io/github/xerooup/xhttp/request/builder/RequestBuilder.kt:13-16 | no setter changes the method or the URL, and a setter acts the same whatever the method |
| `RequestBuilding.ApplyHeader` | src/main/kotlin/io/github/xerooup/xhttp/request/builder/RequestBuilder.kt:30-41 | after `header(n, v)` or `headers { }`, a header that the setter writes has the new value; every other header keeps its value |
| `RequestBuilding.BlockHeaderWins` | src/main/kotlin/io/github/xerooup/xhttp/request/builder/RequestBuilder.kt:30-41 | across a whole block, headers are last-write-wins, and a header the block does not name keeps its earlier value |
| `RequestBuilding.ApplyBody` | src/main/kotlin/io/github/xerooup/xhttp/request/builder/RequestBuilder.kt:56-90 | each body setter (`body`, `json`, `text`, `multipart`) replaces both the bytes and the content type; every other setter leaves both alone |
| `RequestBuilding.LastBodyWins` | src/main/kotlin/io/github/xerooup/xhttp/request/builder/RequestBuilder.kt:56-90 | after a block, the body and content type both come from its last body setter |
| `RequestBuilding.ContentTypeOnlyWithBody` | src/main/kotlin/io/github/xerooup/xhttp/request/builder/RequestBuilder.kt:143-148 | each attempt sends the user headers first; `Content-Type` is added exactly when a body is set, and carries that body's content type |
| `RequestBuilding.RunAttempts` | src/main/kotlin/io/github/xerooup/xhttp/request/builder/RequestBuilder.kt:161-168 | the requests sent, the sleeps and the outcome of the loop are those of the retry specification `Attempts` |
| `RequestBuilding.RetryingFacts` | src/main/kotlin/io/github/xerooup/xhttp/request/builder/RequestBuilder.kt:161-168 | from any point in the loop: attempts are bounded by the retries left; every attempt but the last got a non-ok response; the outcome is the last attempt's; a non-ok outcome means every retry was used |
| `RequestBuilding.AttemptsFacts` | src/main/kotlin/io/github/xerooup/xhttp/request/builder/RequestBuilder.kt:161-168 | there are between 1 and `max(retryTimes, 0) + 1` attempts; every attempt but the last got a non-ok response; the outcome is the last attempt's response or exception; a non-ok response is returned only after every retry |
| `RequestBuilding.AllFailing` | src/main/kotlin/io/github/xerooup/xhttp/request/builder/RequestBuilder.kt:136-170 | against a server that never answers ok, there are exactly `retryTimes + 1` attempts, the last response is returned, and `onError` receives it once; with a timeout of zero or less nothing is sent and `send` throws |
| `RequestBuilding.RejectedTimeoutSendsNothing` | src/main/kotlin/io/github/xerooup/xhttp/request/builder/RequestBuilder.kt:136-138 | a timeout of zero or less makes building the client throw: no request is sent, there is no sleep and `onError` is not called |
| `RequestBuilding.ErrorCallbackOnlyOnFinalFailure` | src/main/kotlin/io/github/xerooup/xhttp/request/builder/RequestBuilder.kt:170 | `onError` is called at most once, and exactly when a non-ok response is returned and a callback is registered: never after an ok response, never when an exception propagates |
| `RequestBuilding.ThreeAttemptsOn500` | src/main/kotlin/io/github/xerooup/xhttp/request/builder/RequestBuilder.kt:113-116 | `retry(2, 100)` against a server that always answers 500 gives 3 attempts, two sleeps of 100 ms, and one `onError` call, whenever the timeout is unset or positive |
| `RequestBuilding.RequestBuilder.constructor` | src/main/kotlin/io/github/xerooup/xhttp/request/builder/RequestBuilder.kt:13-24 | a new builder has no headers, timeout, body, parameters, retries or callback |
| `RequestBuilding.RequestBuilder.Headers` | src/main/kotlin/io/github/xerooup/xhttp/request/builder/RequestBuilder.kt:30-32 | the block's map is merged into the headers with `putAll`, and nothing else changes |
| `RequestBuilding.RequestBuilder.Header` | src/main/kotlin/io/github/xerooup/xhttp/request/builder/RequestBuilder.kt:39-41 | one header is written into the map, and nothing else changes |
| `RequestBuilding.RequestBuilder.QueryParams` | src/main/kotlin/io/github/xerooup/xhttp/request/builder/RequestBuilder.kt:47-49 | the block's pairs are appended to the parameters already there |
| `RequestBuilding.RequestBuilder.Body` | src/main/kotlin/io/github/xerooup/xhttp/request/builder/RequestBuilder.kt:56-59 | the body becomes the text's UTF-8 bytes, and the content type is set with it |
| `RequestBuilding.RequestBuilder.BodyBytes` | src/main/kotlin/io/github/xerooup/xhttp/request/builder/RequestBuilder.kt:66-69 | the bytes and the content type are installed as given |
| `RequestBuilding.RequestBuilder.Json` | src/main/kotlin/io/github/xerooup/xhttp/request/builder/RequestBuilder.kt:75 | `body(text, "application/json; charset=utf-8")` |
| `RequestBuilding.RequestBuilder.Text` | src/main/kotlin/io/github/xerooup/xhttp/request/builder/RequestBuilder.kt:81 | `body(text, "text/plain; charset=utf-8")` |
| `RequestBuilding.RequestBuilder.Multipart` | src/main/kotlin/io/github/xerooup/xhttp/request/builder/RequestBuilder.kt:87-90 | the built multipart body and its content type are installed |
| `RequestBuilding.RequestBuilder.Timeout` | src/main/kotlin/io/github/xerooup/xhttp/request/builder/RequestBuilder.kt:96-98 | the timeout is set, and nothing else changes |
| `RequestBuilding.RequestBuilder.Retry` | src/main/kotlin/io/github/xerooup/xhttp/request/builder/RequestBuilder.kt:113-116 | the retry count and delay are set together |
| `RequestBuilding.RequestBuilder.OnError` | src/main/kotlin/io/github/xerooup/xhttp/request/builder/RequestBuilder.kt:122-124 | the error callback is replaced |
| `RequestBuilding.RequestBuilder.Perform` | src/main/kotlin/io/github/xerooup/xhttp/request/builder/RequestBuilder.kt:30-124 | one statement of a block acts on the builder as its setter does |
| `RequestBuilding.RequestBuilder.Send` | src/main/kotlin/io/github/xerooup/xhttp/request/builder/RequestBuilder.kt:128-173 | the observable result of `send()` (outcome, requests sent, sleeps, `onError` calls) is `SendSpec` of the builder's configuration: a timeout of zero or less throws before anything is sent; otherwise the final URL and headers are built once, then the retry loop runs, then the callback |
| `LegacyRequest.Request.constructor` | src/main/kotlin/io/github/xerooup/xhttp/request/Request.kt:12-19 | a new request has no headers, timeout or body |
| `LegacyRequest.Request.Header` | src/main/kotlin/io/github/xerooup/xhttp/request/Request.kt:21-23 | one header is written, last write wins, the builder itself is returned, and nothing else changes |
| `LegacyRequest.Request.Headers` | src/main/kotlin/io/github/xerooup/xhttp/request/Request.kt:25-27 | the map's entries are written in its order; names not in the map keep their values; the builder is returned |
| `LegacyRequest.Request.Timeout` | src/main/kotlin/io/github/xerooup/xhttp/request/Request.kt:29-31 | the timeout is set, the builder is returned, and nothing else changes |
| `LegacyRequest.Request.BodyText` | src/main/kotlin/io/github/xerooup/xhttp/request/Request.kt:37-40 | the body becomes the text's UTF-8 bytes, with its content type |
| `LegacyRequest.Request.BodyBytes` | src/main/kotlin/io/github/xerooup/xhttp/request/Request.kt:42-45 | the bytes and content type replace the old ones |
| `LegacyRequest.Request.Send` | src/main/kotlin/io/github/xerooup/xhttp/request/Request.kt:48-81 | a timeout of zero or less throws before anything is sent; otherwise exactly one request is sent, with the method, URL and timeout, the headers in order, then `Content-Type` exactly when there is a body, and the body, and the outcome is that one exchange |
| `LegacyRequest.SendIsSingleAttempt` | src/main/kotlin/io/github/xerooup/xhttp/request/Request.kt:48-81 | the older `send` behaves as `RequestBuilder.send` with no parameters, no retries and no callback: one attempt (none when the timeout is rejected), no sleep, no callback, the same outcome |
| `ClientBuilding.ResolveShape` | src/main/kotlin/io/github/xerooup/xhttp/XHttpClientBuilder.kt:18 | the resolved URL always ends with the path; before it is nothing when the path starts with `http`, else the whole base URL |
| `ClientBuilding.ResolveEmpty` | src/main/kotlin/io/github/xerooup/xhttp/XHttpClient.kt:71 | `resolve("")` is the base URL |
| `ClientBuilding.ResolveIdempotent` | src/main/kotlin/io/github/xerooup/xhttp/XHttpClientBuilder.kt:18 | with an empty base URL, or one that starts with `http`, resolving twice gives the same URL as resolving once |
| `ClientBuilding.ResolveExamples` | src/main/kotlin/io/github/xerooup/xhttp/XHttpClientBuilder.kt:18 | the test is a plain prefix test: `httpfoo` is kept as given, and `/v1` goes after the base URL |
| `ClientBuilding.XHttpClientBuilder.constructor` | src/main/kotlin/io/github/xerooup/xhttp/XHttpClientBuilder.kt:4-6 | the base URL starts empty, with no default headers |
| `ClientBuilding.XHttpClientBuilder.SetBaseUrl` | src/main/kotlin/io/github/xerooup/xhttp/XHttpClientBuilder.kt:5 | assigning `baseUrl` leaves the default headers alone |
| `ClientBuilding.XHttpClientBuilder.DefaultHeader` | src/main/kotlin/io/github/xerooup/xhttp/XHttpClientBuilder.kt:13-15 | one default is written (last write wins); the base URL and the other defaults are unchanged |
| `ClientBuilding.XHttpClientBuilder.BuildDefaults` | src/main/kotlin/io/github/xerooup/xhttp/XHttpClientBuilder.kt:17 | the snapshot has the same names, in the same order, with the same values |
| `ClientBuilding.XHttpClientBuilder.Resolve` | src/main/kotlin/io/github/xerooup/xhttp/XHttpClientBuilder.kt:18 | a path that starts with `http` is returned as it is, any other path is appended to the base URL, and the empty path gives the base URL |
| `ClientBuilding.Configure` | src/main/kotlin/io/github/xerooup/xhttp/XHttpClient.kt:70 | running an `XHttpClient { }` block leaves the block's last base URL and its default headers |
| `ClientBuilding.DefaultsLastWriteWins` | src/main/kotlin/io/github/xerooup/xhttp/XHttpClientBuilder.kt:13-15 | a default that no later statement rewrites keeps its value, whatever base-URL assignments follow |
| `Client.InstallDefaults` | src/main/kotlin/io/github/xerooup/xhttp/XHttpClient.kt:13-15 | the defaults are written with `header(k, v)`, one by one, in their order |
| `Client.RunBlock` | src/main/kotlin/io/github/xerooup/xhttp/XHttpClient.kt:15 | the caller's block runs its setters on the builder, in order |
| `Client.XHttpClient.constructor` | src/main/kotlin/io/github/xerooup/xhttp/XHttpClient.kt:7-10 | the client keeps the base URL and the defaults it is given |
| `Client.XHttpClient.Request` | src/main/kotlin/io/github/xerooup/xhttp/XHttpClient.kt:11-16 | a call sends what a builder for the resolved URL sends after the defaults and then the block |
| `Client.XHttpClient.Get` | src/main/kotlin/io/github/xerooup/xhttp/XHttpClient.kt:24-25 | `get` is `request` with `GET` |
| `Client.XHttpClient.Post` | src/main/kotlin/io/github/xerooup/xhttp/XHttpClient.kt:33-34 | `post` is `request` with `POST` |
| `Client.XHttpClient.Put` | src/main/kotlin/io/github/xerooup/xhttp/XHttpClient.kt:42-43 | `put` is `request` with `PUT` |
| `Client.XHttpClient.Delete` | src/main/kotlin/io/github/xerooup/xhttp/XHttpClient.kt:51-52 | `delete` is `request` with `DELETE` |
| `Client.XHttpClient.Head` | src/main/kotlin/io/github/xerooup/xhttp/XHttpClient.kt:60-61 | `head` is `request` with `HEAD` |
| `Client.NewClient` | src/main/kotlin/io/github/xerooup/xhttp/XHttpClient.kt:69-72 | the client gets the block's base URL (`resolve("")`) and a snapshot of its defaults |
| `Client.DefaultsInstalled` | src/main/kotlin/io/github/xerooup/xhttp/XHttpClient.kt:13-14 | installing the defaults one by one gives each name its default value |
| `Client.BlockOverridesDefaults` | src/main/kotlin/io/github/xerooup/xhttp/XHttpClient.kt:11-16 | a header the block writes overrides the default of that name; a default the block does not write is sent as it is; a name neither writes is absent |
| `Client.EntryPointsDifferOnlyInVerb` | src/main/kotlin/io/github/xerooup/xhttp/XHttpClient.kt:24-61 | the five entry points prepare the same request except for the method, and the method sent is the entry point's own |
| `Client.RequestUrlIsResolved` | src/main/kotlin/io/github/xerooup/xhttp/XHttpClient.kt:12 | the URL a call targets, before query parameters, is the path resolved against the base URL; the block cannot change it |
| `WebSocketBuilding.Register` | src/main/kotlin/io/github/xerooup/xhttp/websocket/WebSocketBuilder.kt:19-53 | registering a callback sets its own slot and leaves the other four as they were |
| `WebSocketBuilding.WebSocketBuilder.constructor` | src/main/kotlin/io/github/xerooup/xhttp/websocket/WebSocketBuilder.kt:8-13 | all five callbacks start null, with no headers |
| `WebSocketBuilding.WebSocketBuilder.OnOpen` | src/main/kotlin/io/github/xerooup/xhttp/websocket/WebSocketBuilder.kt:19-21 | only the open callback is replaced |
| `WebSocketBuilding.WebSocketBuilder.OnMessage` | src/main/kotlin/io/github/xerooup/xhttp/websocket/WebSocketBuilder.kt:27-29 | only the message callback is replaced |
| `WebSocketBuilding.WebSocketBuilder.OnBinary` | src/main/kotlin/io/github/xerooup/xhttp/websocket/WebSocketBuilder.kt:35-37 | only the binary callback is replaced |
| `WebSocketBuilding.WebSocketBuilder.OnClose` | src/main/kotlin/io/github/xerooup/xhttp/websocket/WebSocketBuilder.kt:43-45 | only the close callback is replaced |
| `WebSocketBuilding.WebSocketBuilder.OnError` | src/main/kotlin/io/github/xerooup/xhttp/websocket/WebSocketBuilder.kt:51-53 | only the error callback is replaced |
| `WebSocketBuilding.WebSocketBuilder.Headers` | src/main/kotlin/io/github/xerooup/xhttp/websocket/WebSocketBuilder.kt:59-61 | the block's map is merged into the handshake headers; callbacks are untouched |
| `WebSocketBuilding.WebSocketBuilder.Header` | src/main/kotlin/io/github/xerooup/xhttp/websocket/WebSocketBuilder.kt:68-70 | one handshake header is written; callbacks are untouched |
| `WebSocketBuilding.Configure` | src/main/kotlin/io/github/xerooup/xhttp/WebSocket.kt:13 | running a `websocket { }` block leaves the callbacks and the headers that the block describes |
| `WebSocketBuilding.LastRegistration` | src/main/kotlin/io/github/xerooup/xhttp/websocket/WebSocketBuilder.kt:19-53 | a block registers nothing for a slot exactly when none of its statements registers that slot |
| `WebSocketBuilding.RegistrationLastWins` | src/main/kotlin/io/github/xerooup/xhttp/websocket/WebSocketBuilder.kt:19-53 | each callback is the last one registered for it, and null if never registered |
| `WebSocketBuilding.HandshakeHeaderLastWins` | src/main/kotlin/io/github/xerooup/xhttp/websocket/WebSocketBuilder.kt:59-70 | handshake headers are last-write-wins across `header` and `headers { }`, and registrations never touch them |
| `WebSocketSessions.JoinOf` | src/main/kotlin/io/github/xerooup/xhttp/websocket/WebSocketSession.kt:109 | `join()` blocks exactly while `done` is pending, returns exactly after completion, and exactly after exceptional completion throws a `CompletionException` carrying the cause |
| `WebSocketSessions.NonFinalTextBuffers` | src/main/kotlin/io/github/xerooup/xhttp/websocket/WebSocketSession.kt:53-61 | a non-final text fragment is appended to the buffer and pulls one frame; nothing is delivered, and the binary list, `done`, the connection and the callbacks are unchanged |
| `WebSocketSessions.FinalTextDelivers` | src/main/kotlin/io/github/xerooup/xhttp/websocket/WebSocketSession.kt:53-61 | a final fragment delivers the buffer plus the fragment once to `onMessage`, if registered; it empties the buffer and pulls once |
| `WebSocketSessions.TextReassembly` | src/main/kotlin/io/github/xerooup/xhttp/websocket/WebSocketSession.kt:53-61 | fragments f1..fn where only fn is final reach `onMessage` once, as f1+...+fn in arrival order, with one pull per fragment, leaving the buffer empty |
| `WebSocketSessions.HelloInTwoFragments` | src/main/kotlin/io/github/xerooup/xhttp/websocket/WebSocketSession.kt:53-61 | `Hel` then a final `lo` delivers one `Hello` |
| `WebSocketSessions.FinalBinaryDelivers` | src/main/kotlin/io/github/xerooup/xhttp/websocket/WebSocketSession.kt:63-74 | a final binary fragment delivers the joined fragments once to `onBinary`, if registered; it empties the list and pulls once |
| `WebSocketSessions.BinaryReassembly` | src/main/kotlin/io/github/xerooup/xhttp/websocket/WebSocketSession.kt:63-74 | binary fragments reach `onBinary` once, as the exact concatenation of what the list held and the fragments in arrival order, with one pull per fragment, leaving the list empty |
| `WebSocketSessions.BinaryExample` | src/main/kotlin/io/github/xerooup/xhttp/websocket/WebSocketSession.kt:63-74 | fragments `[1]` and a final `[2, 3]` deliver the single array `[1, 2, 3]` |
| `WebSocketSessions.OnePullPerFrame` | src/main/kotlin/io/github/xerooup/xhttp/websocket/WebSocketSession.kt:47-85 | open, text and binary events each add exactly one `request(1)`; close and error add none |
| `WebSocketSessions.SenderUsableInOnOpen` | src/main/kotlin/io/github/xerooup/xhttp/websocket/WebSocketSession.kt:47-51 | `ws` is stored before `onOpen` runs, so what the callback sends goes out after the callback starts and before the pull |
| `WebSocketSessions.SenderNeedsOpen` | src/main/kotlin/io/github/xerooup/xhttp/websocket/WebSocketSession.kt:27-37 | the sender fails exactly when `ws` is not yet set; otherwise each operation makes its one call: text and bytes as a single final frame, close as 1000 with an empty reason |
| `WebSocketSessions.TerminalEvents` | src/main/kotlin/io/github/xerooup/xhttp/websocket/WebSocketSession.kt:76-85 | close calls `onClose(code, reason)` and completes `done`; error calls `onError` and completes it exceptionally; buffers are untouched, and a resolved `done` stays as it was |
| `WebSocketSessions.FirstResolutionWins` | src/main/kotlin/io/github/xerooup/xhttp/websocket/WebSocketSession.kt:76-85 | over any run of events, the first close or error decides how `done` ends, and `done` stays pending if neither occurs |
| `WebSocketSessions.DataEventsInvokeNoTerminal` | src/main/kotlin/io/github/xerooup/xhttp/websocket/WebSocketSession.kt:47-74 | open, text and binary events invoke neither `onClose` nor `onError` |
| `WebSocketSessions.TerminalCallbackPerEvent` | src/main/kotlin/io/github/xerooup/xhttp/websocket/WebSocketSession.kt:47-85 | a close invokes `onClose` once and an error invokes `onError` once, each when registered; no other event invokes either |
| `WebSocketSessions.TerminalCallbacksBounded` | src/main/kotlin/io/github/xerooup/xhttp/websocket/WebSocketSession.kt:76-85 | over any run, `onClose` and `onError` together are invoked at most once per close or error event |
| `WebSocketSessions.AtMostOneTerminalCallback` | src/main/kotlin/io/github/xerooup/xhttp/websocket/WebSocketSession.kt:76-85 | when at most one close or error arrives, `onClose` and `onError` are invoked at most once in all, never both |
| `WebSocketSessions.BuffersFollowFrames` | src/main/kotlin/io/github/xerooup/xhttp/websocket/WebSocketSession.kt:53-74 | from empty buffers and with frames of different messages not interleaved, the text buffer is non-empty only inside an unfinished text message and the binary list only inside an unfinished binary one |
| `WebSocketSessions.NeverBothBuffered` | src/main/kotlin/io/github/xerooup/xhttp/websocket/WebSocketSession.kt:53-74 | from empty buffers and with frames not interleaved, the text buffer and the binary list are never both in use |
| `WebSocketSessions.JoinBlocksWithoutTerminal` | src/main/kotlin/io/github/xerooup/xhttp/websocket/WebSocketSession.kt:45-109 | from a new session, `join()` blocks for as long as no close or error has arrived, including when no event arrives at all because the handshake failed |
| `WebSocketSessions.OnlyTerminalEventsResolve` | src/main/kotlin/io/github/xerooup/xhttp/websocket/WebSocketSession.kt:47-74 | open, text and binary events never touch `done` or the callbacks |
| `WebSocketSessions.WebSocketSession.constructor` | src/main/kotlin/io/github/xerooup/xhttp/websocket/WebSocketSession.kt:39-45 | a new session has empty buffers, no connection and a pending `done`; the only effect so far is the handshake with the headers in insertion order |
| `WebSocketSessions.WebSocketSession.Sender` | src/main/kotlin/io/github/xerooup/xhttp/websocket/WebSocketSession.kt:27-37 | a sender operation succeeds exactly when `ws` is set, and then makes its one call; otherwise nothing changes |
| `WebSocketSessions.WebSocketSession.OnOpen` | src/main/kotlin/io/github/xerooup/xhttp/websocket/WebSocketSession.kt:47-51 | the listener's `onOpen` moves the session as `Step` does for an open event |
| `WebSocketSessions.WebSocketSession.OnText` | src/main/kotlin/io/github/xerooup/xhttp/websocket/WebSocketSession.kt:53-61 | the listener's `onText` moves the session as `Step` does for a text frame |
| `WebSocketSessions.WebSocketSession.OnBinary` | src/main/kotlin/io/github/xerooup/xhttp/websocket/WebSocketSession.kt:63-74 | the listener's `onBinary` moves the session as `Step` does for a binary frame |
| `WebSocketSessions.WebSocketSession.OnClose` | src/main/kotlin/io/github/xerooup/xhttp/websocket/WebSocketSession.kt:76-80 | the listener's `onClose` moves the session as `Step` does for a close |
| `WebSocketSessions.WebSocketSession.OnError` | src/main/kotlin/io/github/xerooup/xhttp/websocket/WebSocketSession.kt:82-85 | the listener's `onError` moves the session as `Step` does for an error |
| `WebSocketSessions.WebSocketSession.Send` | src/main/kotlin/io/github/xerooup/xhttp/websocket/WebSocketSession.kt:93 | `send(text)` makes one final text frame when open; before open it fails and changes nothing |
| `WebSocketSessions.WebSocketSession.SendBytes` | src/main/kotlin/io/github/xerooup/xhttp/websocket/WebSocketSession.kt:99 | `send(bytes)` makes one final binary frame when open; before open it fails and changes nothing |
| `WebSocketSessions.WebSocketSession.Close` | src/main/kotlin/io/github/xerooup/xhttp/websocket/WebSocketSession.kt:104 | `close()` sends close code 1000 with an empty reason when open; before open it fails and changes nothing |
| `WebSocketSessions.WebSocketSession.Join` | src/main/kotlin/io/github/xerooup/xhttp/websocket/WebSocketSession.kt:109 | `join()` blocks, returns or throws as `JoinOf` says: it returns normally exactly when `done` completed normally, and after an error throws a `CompletionException` carrying the cause |
| `WebSocketSessions.Connect` | src/main/kotlin/io/github/xerooup/xhttp/WebSocket.kt:12-23 | `websocket(url) { }` starts a session with the block's headers and callbacks |

## Left out

- The JDK `HttpClient` and `HttpClient.send` are a transport oracle. The model does not capture how the JDK itself sends, redirects, decompresses or caches.
- `connectTimeout` of the per-send `HttpClient` (RequestBuilder.kt:136-138, Request.kt:49-53) is modelled only in its refusal of a duration of zero or less. How long a connection may take is not modelled. The per-request timeout field carries the value.
- `RequestBuilding.RequestBuilder.Send` does not model the JDK's header checks in `HttpRequest.Builder.header`. That builder throws `IllegalArgumentException` for a restricted name (such as `Host`, `Connection`, `Content-Length`, `Expect` or `Upgrade`) or for a name or value with invalid characters. The model sends such headers as given. The rules are JDK internals and depend on a system property.
- `LegacyRequest.Request.Send` does not model the same JDK header checks, for the same reason.
- `WebSocketSessions.WebSocketSession.constructor` does not model the JDK's header checks in `WebSocket.Builder.header`. That builder throws `IllegalArgumentException` for a restricted name (such as `Sec-WebSocket-*`, `Connection`, `Upgrade` or `Host`) or for invalid characters. The model records the handshake with the headers as given.
- `Thread.sleep(retryDelayMs)` is recorded in a list of sleeps, because time does not pass in the model.
- `CompletableFuture.join()` blocking, the JDK's listener threads, and concurrency between the listener and the user's calls are left out. `join()` is modelled as blocks, returns or throws, read off the state of `done`.
- `WebSocketSessions.JoinOf` treats every cause alike. When the cause is itself a `CompletionException`, `CompletableFuture` keeps it as it is instead of wrapping it again; causes are opaque values here.
- `timeout(Duration)` (RequestBuilder.kt:104-106, Request.kt:33-35) is left out, because converting a `kotlin.time.Duration` to milliseconds is a library call.
- `Response.text()` and `Response.bytes()` (response/Response.kt:14-20) are left out: they only decode or return the stored body.
- `URI.create` failures on a malformed URL are left out, because URI parsing is not part of this model. A bad URL would throw before any attempt.
- What user callbacks do is left out, because callbacks are opaque `Handler` values. Only the invocation and its arguments are recorded. The one exception is `onOpen`: what it does with its sender is given as a list of sender operations. An exception thrown by a user callback is not modelled.
- request/Method.kt is not part of this model. `Http.Method` covers the five methods that the entry points use, and `Name()` is the constant's name.
- The `XHttp` object (XHttp.kt) and the older copy under `org/xeroup` are left out, since they only construct `Request` objects or repeat `Response`.
- The `WebSocketSender` interface (websocket/WebSocketSender.kt) is represented by `SenderOp`.
- The JDK's WebSocket behaviour after a close, and on concurrent sends, is left out. Each sender call is recorded as made; what the JDK then does with it is not modelled.
- Copying the `ByteBuffer` into a fresh array (WebSocketSession.kt:64-65) is left out: the model takes the fragment's remaining bytes as a value.
- `Utf8.DecodeEncode`: a Kotlin `String` is a sequence of UTF-16 code units and may hold an unpaired surrogate, which `toByteArray()` writes as `?`. A Dafny `string` holds only Unicode scalar values, so the model covers only well-formed text, where encoding loses nothing.
- `Utf8.EncodeInjective` holds only for well-formed text. Two Kotlin strings that differ only in unpaired surrogates encode to the same bytes.
- `FormEncoding.EncodeInjective` holds only for well-formed text, for the same reason: `URLEncoder` turns an unpaired surrogate into the byte of `?`, written `%3F`.
- A failed opening handshake is not reported to the session: the future returned by `buildAsync` (WebSocketSession.kt:45) is dropped, no event arrives, and `join()` blocks for ever (`WebSocketSessions.JoinBlocksWithoutTerminal`).
- `Utf8.Decode` is a strict reference decoder, used only to prove that encoding loses nothing. Kotlin's decoding of malformed input, with replacement characters, is not modelled.
- Integer widths: `Int32` and `Int64` bound the retry count, the delay, the timeout and status codes as the JVM types do. `attemptsLeft--` cannot wrap, because it only runs while the count is positive.
