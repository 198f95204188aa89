/** What the library exchanges with the JDK's `java.net.http` client: the
    request it hands over, the transport as an oracle, and the `Response`
    record it builds from what comes back (response/Response.kt). */
module Http {
  import opened Base
  import opened LinkedMaps

  /** The methods the entry points use; `Method.name` is the constant's own name. */
  datatype Method = GET | POST | PUT | DELETE | HEAD {
    function Name(): string {
      match this
      case GET => "GET"
      case POST => "POST"
      case PUT => "PUT"
      case DELETE => "DELETE"
      case HEAD => "HEAD"
    }
  }

  /** One `HttpRequest` as built: method name, URI, per-request timeout, the
      headers in the order they were added, and the body publisher
      (`None` is `BodyPublishers.noBody()`). */
  datatype Outgoing = Outgoing(
    methodName: string,
    uri: string,
    timeoutMs: Option<Int64>,
    headers: seq<(string, string)>,
    body: Option<Bytes>)

  /** What `HttpClient.send` returns: status, every header with all its values, body. */
  datatype RawResponse = RawResponse(status: Int32, headers: map<string, seq<string>>, body: Bytes)

  /** One call of `HttpClient.send`: a response, or the exception it throws. */
  datatype Exchange = Received(raw: RawResponse) | Failed(cause: Cause)

  /** The network, as an oracle: what the n-th send of a request yields. */
  type Transport = (Outgoing, nat) -> Exchange

  /** response/Response.kt. */
  datatype Response = Response(status: Int32, headers: map<string, string>, ok: bool, body: Bytes)

  /** `status in 200..299`. */
  predicate IsOk(status: int) {
    200 <= status <= 299
  }

  /** The `Response(...)` built after each send: `ok` from the status, and
      each multi-valued header flattened with `joinToString(",")`. */
  function ToResponse(raw: RawResponse): (r: Response)
    ensures r.status == raw.status && r.body == raw.body
    ensures r.ok <==> 200 <= raw.status <= 299
    ensures r.headers.Keys == raw.headers.Keys
  {
    Response(raw.status, map k | k in raw.headers :: Join(raw.headers[k], ','), IsOk(raw.status), raw.body)
  }

  /** No header value is lost in the flattening: when no single value holds a
      comma, splitting the joined value at commas gives back the list. */
  lemma HeaderValuesRecoverable(raw: RawResponse, name: string)
    requires name in raw.headers && |raw.headers[name]| >= 1
    requires forall i :: 0 <= i < |raw.headers[name]| ==> !Contains(raw.headers[name][i], ',')
    ensures Split(ToResponse(raw).headers[name], ',') == raw.headers[name]
  {
    SplitJoin(raw.headers[name], ',');
  }

  /** The request `attempt()` (and `Request.send`) builds: the user headers in
      insertion order, then a Content-Type header only when there is a body
      and a content type, and the body itself (or no body). */
  function Assemble(verb: Method, uri: string, timeoutMs: Option<Int64>, headers: LinkedMap<string, string>,
                    body: Option<Bytes>, contentType: Option<string>): (o: Outgoing)
    ensures o.methodName == verb.Name() && o.uri == uri && o.timeoutMs == timeoutMs && o.body == body
    ensures |o.headers| >= |headers| && o.headers[..|headers|] == headers
    ensures |o.headers| > |headers| <==> body.Some? && contentType.Some?
    ensures |o.headers| > |headers| ==> o.headers[|headers|..] == [("Content-Type", contentType.value)]
  {
    var extra := if body.Some? && contentType.Some? then [("Content-Type", contentType.value)] else [];
    Outgoing(verb.Name(), uri, timeoutMs, headers + extra, body)
  }
}
