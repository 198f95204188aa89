/** request/builder/RequestBuilder.kt: the receiver of the configuration
    block of every client call. Setters record headers, query parameters,
    one body with its content type, a timeout, a retry policy and an error
    callback; `send` composes the final URL, sends the request through the
    transport, retries while the response is not ok and retries remain, and
    calls the error callback once if the last response is still not ok.
    An exception from the transport ends `send` at once: it is not retried
    and the error callback is not called. */
module RequestBuilding {
  import opened Base
  import opened LinkedMaps
  import opened Http
  import FormEncoding
  import Utf8
  import HeaderDsl
  import QueryDsl
  import MultipartDsl

  type Param = (string, string)

  // ---------------------------------------------------------------------------
  // Final URL

  /** `"${encode(k)}=${encode(v)}"`. */
  function EncodedParam(p: Param): string {
    FormEncoding.Encode(p.0) + "=" + FormEncoding.Encode(p.1)
  }

  /** The encoded `name=value` pieces, one per parameter, in order. */
  function EncodedParams(params: seq<Param>): (r: seq<string>)
    ensures |r| == |params|
    ensures forall i :: 0 <= i < |params| ==> r[i] == EncodedParam(params[i])
  {
    seq(|params|, i requires 0 <= i < |params| => EncodedParam(params[i]))
  }

  /** `queryParams.joinToString("&") { ... }`. */
  function QueryString(params: seq<Param>): string {
    Join(EncodedParams(params), '&')
  }

  /** The URL `send` targets: `url` itself without parameters, otherwise the
      query appended after `&` when `url` already has a `?`, after `?` if not. */
  function FinalUrl(url: string, params: seq<Param>): string {
    if params == [] then url
    else if Contains(url, '?') then url + "&" + QueryString(params)
    else url + "?" + QueryString(params)
  }

  /** Reference reading of a query: split at `&`, each piece at `=`, and
      decode both sides to the bytes they stand for. */
  function ParseQuery(q: string): Option<seq<(Bytes, Bytes)>> {
    ParsePieces(Split(q, '&'))
  }

  function ParsePieces(pieces: seq<string>): Option<seq<(Bytes, Bytes)>>
    decreases |pieces|
  {
    if pieces == [] then Some([])
    else
      var kv := Split(pieces[0], '=');
      if |kv| != 2 then None
      else match (FormEncoding.DecodeBytes(kv[0]), FormEncoding.DecodeBytes(kv[1]), ParsePieces(pieces[1..]))
        case (Some(k), Some(v), Some(rest)) => Some([(k, v)] + rest)
        case _ => None
  }

  /** What a parameter list should read back as: each name and value as UTF-8. */
  function Utf8Pairs(params: seq<Param>): (r: seq<(Bytes, Bytes)>)
    ensures |r| == |params|
    ensures forall i :: 0 <= i < |params| ==> r[i] == (Utf8.Encode(params[i].0), Utf8.Encode(params[i].1))
  {
    seq(|params|, i requires 0 <= i < |params| => (Utf8.Encode(params[i].0), Utf8.Encode(params[i].1)))
  }

  lemma EncodedParamPieces(p: Param)
    ensures !Contains(EncodedParam(p), '&')
    ensures Split(EncodedParam(p), '=') == [FormEncoding.Encode(p.0), FormEncoding.Encode(p.1)]
  {
    var k, v := FormEncoding.Encode(p.0), FormEncoding.Encode(p.1);
    ContainsConcat(k, "=", '&');
    ContainsConcat(k + "=", v, '&');
    assert !Contains("=", '&');
    SplitAt(k, '=', v);
    SplitWithout(v, '=');
  }

  /** Reading the first piece, then the rest. */
  lemma ParsePiecesFirst(pieces: seq<string>, kt: string, vt: string, k: Bytes, v: Bytes, tail: seq<(Bytes, Bytes)>)
    requires pieces != [] && Split(pieces[0], '=') == [kt, vt]
    requires FormEncoding.DecodeBytes(kt) == Some(k) && FormEncoding.DecodeBytes(vt) == Some(v)
    requires ParsePieces(pieces[1..]) == Some(tail)
    ensures ParsePieces(pieces) == Some([(k, v)] + tail)
  {
  }

  lemma EncodedParamsCons(params: seq<Param>)
    requires params != []
    ensures EncodedParams(params)[0] == EncodedParam(params[0])
    ensures EncodedParams(params)[1..] == EncodedParams(params[1..])
  {
  }

  lemma Utf8PairsCons(params: seq<Param>)
    requires params != []
    ensures Utf8Pairs(params) == [(Utf8.Encode(params[0].0), Utf8.Encode(params[0].1))] + Utf8Pairs(params[1..])
  {
  }

  lemma {:induction false} ParseEncodedPieces(params: seq<Param>)
    ensures ParsePieces(EncodedParams(params)) == Some(Utf8Pairs(params))
    decreases |params|
  {
    if params != [] {
      var p, tail := params[0], params[1..];
      EncodedParamsCons(params);
      EncodedParamPieces(p);
      FormEncoding.DecodeEncode(p.0);
      FormEncoding.DecodeEncode(p.1);
      ParseEncodedPieces(tail);
      ParsePiecesFirst(EncodedParams(params), FormEncoding.Encode(p.0), FormEncoding.Encode(p.1),
        Utf8.Encode(p.0), Utf8.Encode(p.1), Utf8Pairs(tail));
      Utf8PairsCons(params);
    } else {
      assert EncodedParams(params) == [];
    }
  }

  /** The query string can be read back: the same pairs, in insertion order,
      duplicates kept (URLEncoder never emits `&` or `=`). */
  lemma QueryStringRoundTrip(params: seq<Param>)
    requires params != []
    ensures ParseQuery(QueryString(params)) == Some(Utf8Pairs(params))
  {
    var pieces := EncodedParams(params);
    forall i | 0 <= i < |pieces| ensures !Contains(pieces[i], '&') {
      EncodedParamPieces(params[i]);
    }
    SplitJoin(pieces, '&');
    ParseEncodedPieces(params);
  }

  /** With parameters, the final URL is the original URL, one separator
      (`&` if the URL already holds `?`, else `?`), then a query that reads
      back as the parameters; without parameters it is the URL itself. */
  lemma FinalUrlComposition(url: string, params: seq<Param>)
    ensures params == [] ==> FinalUrl(url, params) == url
    ensures params != [] ==>
      var r := FinalUrl(url, params);
      |r| > |url| && r[..|url|] == url &&
      r[|url|] == (if Contains(url, '?') then '&' else '?') &&
      ParseQuery(r[|url| + 1..]) == Some(Utf8Pairs(params))
  {
    if params != [] {
      var r := FinalUrl(url, params);
      assert r[|url| + 1..] == QueryString(params);
      QueryStringRoundTrip(params);
    }
  }

  /** `queryParams { "a" to "b c" }` on `https://x/y`: a space becomes `+`. */
  lemma FinalUrlExample()
    ensures FinalUrl("https://x/y", [("a", "b c")]) == "https://x/y?a=b+c"
  {
    FormEncoding.EncodeSpace();
    assert Utf8.Encode("a") == [0x61];
    assert !Contains("https://x/y", '?');
  }

  // ---------------------------------------------------------------------------
  // Configuration

  /** Everything a RequestBuilder holds. */
  datatype Settings = Settings(
    verb: Method,
    url: string,
    headers: LinkedMap<string, string>,
    timeoutMs: Option<Int64>,
    bodyBytes: Option<Bytes>,
    contentType: Option<string>,
    queryParams: seq<Param>,
    retryTimes: Int32,
    retryDelayMs: Int64,
    onError: Option<Handler>)

  /** Headers form a map, and body and content type are always set together. */
  ghost predicate WellFormed(c: Settings) {
    Distinct(c.headers) && (c.bodyBytes.Some? <==> c.contentType.Some?)
  }

  /** A fresh builder: nothing configured, no retries. */
  function Initial(verb: Method, url: string): (c: Settings)
    ensures WellFormed(c)
  {
    Settings(verb, url, [], None, None, None, [], 0, 0, None)
  }

  /** One statement of a request's configuration block. */
  datatype Setter =
    | SetHeaders(block: seq<HeaderDsl.HeaderCall>)
    | SetHeader(name: string, value: string)
    | AddQueryParams(params: seq<QueryDsl.ParamCall>)
    | SetBodyText(text: string, contentType: string)
    | SetBodyBytes(bytes: Bytes, contentType: string)
    | SetJson(json: string)
    | SetText(text: string)
    | SetMultipart(clockMillis: nat, parts: seq<MultipartDsl.PartCall>)
    | SetTimeout(ms: Int64)
    | SetRetry(times: Int32, delayMs: Int64)
    | SetOnError(handler: Handler)

  const JsonContentType: string := "application/json; charset=utf-8"
  const TextContentType: string := "text/plain; charset=utf-8"

  /** The body and content type a body setter installs. */
  function BodyOf(s: Setter): Option<(Bytes, string)> {
    match s
    case SetBodyText(t, ct) => Some((Utf8.Encode(t), ct))
    case SetBodyBytes(b, ct) => Some((b, ct))
    case SetJson(t) => Some((Utf8.Encode(t), JsonContentType))
    case SetText(t) => Some((Utf8.Encode(t), TextContentType))
    case SetMultipart(clock, parts) =>
      var boundary := MultipartDsl.Boundary(clock);
      Some((MultipartDsl.Body(boundary, MultipartDsl.Parts(boundary, parts)), MultipartDsl.ContentType(boundary)))
    case _ => None
  }

  function QueryPairs(block: seq<QueryDsl.ParamCall>): (ps: seq<Param>)
    ensures |ps| == |block| && forall i :: 0 <= i < |block| ==> ps[i] == block[i].Pair()
  {
    seq(|block|, i requires 0 <= i < |block| => block[i].Pair())
  }

  /** The effect of one setter on the configuration. */
  function Apply(c: Settings, s: Setter): (r: Settings)
    requires WellFormed(c)
    ensures WellFormed(r)
  {
    match s
    case SetHeaders(block) => c.(headers := PutAll(c.headers, PutAll([], HeaderDsl.Entries(block))))
    case SetHeader(n, v) => c.(headers := Put(c.headers, n, v))
    case AddQueryParams(block) => c.(queryParams := c.queryParams + QueryPairs(block))
    case SetTimeout(ms) => c.(timeoutMs := Some(ms))
    case SetRetry(times, delay) => c.(retryTimes := times, retryDelayMs := delay)
    case SetOnError(h) => c.(onError := Some(h))
    case _ => c.(bodyBytes := Some(BodyOf(s).value.0), contentType := Some(BodyOf(s).value.1))
  }

  /** No setter changes the method or the URL, and a setter acts the same
      whatever the method is. */
  lemma ApplyKeepsTarget(c: Settings, s: Setter, verb: Method)
    requires WellFormed(c)
    ensures Apply(c, s).verb == c.verb && Apply(c, s).url == c.url
    ensures Apply(c.(verb := verb), s) == Apply(c, s).(verb := verb)
  {
  }

  /** A block: its setters applied in order. */
  function ApplyAll(c: Settings, block: seq<Setter>): (r: Settings)
    requires WellFormed(c)
    ensures WellFormed(r)
    decreases |block|
  {
    if block == [] then c else Apply(ApplyAll(c, block[..|block| - 1]), block[|block| - 1])
  }

  /** The value one setter writes for header `name`, if it writes one. */
  function SetterHeader(s: Setter, name: string): Option<string> {
    match s
    case SetHeader(n, v) => if n == name then Some(v) else None
    case SetHeaders(hb) => HeaderDsl.LastWrite(hb, name)
    case _ => None
  }

  lemma ApplyHeader(c: Settings, s: Setter, name: string)
    requires WellFormed(c)
    ensures Get(Apply(c, s).headers, name) ==
      if SetterHeader(s, name).Some? then SetterHeader(s, name) else Get(c.headers, name)
  {
    match s
    case SetHeaders(hb) =>
      PutAllGet(c.headers, PutAll([], HeaderDsl.Entries(hb)), name);
      HeaderDsl.RunLastWriteWins(hb, name);
    case SetHeader(n, v) =>
    case AddQueryParams(_) =>
    case SetTimeout(_) =>
    case SetRetry(_, _) =>
    case SetOnError(_) =>
    case _ =>
      assert Apply(c, s).headers == c.headers;
  }

  /** The value the block itself writes last for header `name`, through
      `header(name, v)` or a `headers { }` block. */
  function BlockHeader(block: seq<Setter>, name: string): Option<string>
    decreases |block|
  {
    if block == [] then None
    else if SetterHeader(block[|block| - 1], name).Some? then SetterHeader(block[|block| - 1], name)
    else BlockHeader(block[..|block| - 1], name)
  }

  /** Headers are last-write-wins across a whole block, and a header the block
      does not name keeps the value it had before. */
  lemma {:induction false} BlockHeaderWins(c: Settings, block: seq<Setter>, name: string)
    requires WellFormed(c)
    ensures Get(ApplyAll(c, block).headers, name) ==
      if BlockHeader(block, name).Some? then BlockHeader(block, name) else Get(c.headers, name)
    decreases |block|
  {
    if block != [] {
      var init := block[..|block| - 1];
      BlockHeaderWins(c, init, name);
      ApplyHeader(ApplyAll(c, init), block[|block| - 1], name);
    }
  }

  lemma ApplyBody(c: Settings, s: Setter)
    requires WellFormed(c)
    ensures var r := Apply(c, s);
      match BodyOf(s)
      case Some(b) => r.bodyBytes == Some(b.0) && r.contentType == Some(b.1)
      case None => r.bodyBytes == c.bodyBytes && r.contentType == c.contentType
  {
  }

  /** The body setter that comes last in a block. */
  function LastBody(block: seq<Setter>): Option<(Bytes, string)>
    decreases |block|
  {
    if block == [] then None
    else if BodyOf(block[|block| - 1]).Some? then BodyOf(block[|block| - 1])
    else LastBody(block[..|block| - 1])
  }

  /** `body`, `json`, `text` and `multipart` each replace both the body and
      the content type: after a block, both come from its last body setter. */
  lemma {:induction false} LastBodyWins(c: Settings, block: seq<Setter>)
    requires WellFormed(c)
    ensures var r := ApplyAll(c, block);
      match LastBody(block)
      case Some(b) => r.bodyBytes == Some(b.0) && r.contentType == Some(b.1)
      case None => r.bodyBytes == c.bodyBytes && r.contentType == c.contentType
    decreases |block|
  {
    if block != [] {
      LastBodyWins(c, block[..|block| - 1]);
      ApplyBody(ApplyAll(c, block[..|block| - 1]), block[|block| - 1]);
    }
  }

  /** The request every attempt sends. */
  function RequestOf(c: Settings): Http.Outgoing {
    Assemble(c.verb, FinalUrl(c.url, c.queryParams), c.timeoutMs, c.headers, c.bodyBytes, c.contentType)
  }

  /** A Content-Type header goes out exactly when a body is set, after the
      user's headers, and carries the content type of that body. */
  lemma ContentTypeOnlyWithBody(c: Settings)
    requires WellFormed(c)
    ensures var o := RequestOf(c);
      o.headers[..|c.headers|] == c.headers &&
      (c.bodyBytes.None? ==> o.headers == c.headers && o.body.None?) &&
      (c.bodyBytes.Some? ==> o.headers == c.headers + [("Content-Type", c.contentType.value)] && o.body == c.bodyBytes)
  {
    var o := RequestOf(c);
    if c.bodyBytes.Some? {
      assert o.headers == o.headers[..|c.headers|] + o.headers[|c.headers|..];
    }
  }

  // ---------------------------------------------------------------------------
  // The retry loop, specified

  datatype Outcome = Returned(response: Response) | Threw(cause: Cause)

  /** How a send ended, and how many attempts it made. */
  datatype Trace = Trace(outcome: Outcome, attempts: nat)

  /** `attempts` requests have been sent, the last answered with `response`,
      and `left` retries remain. */
  function Retrying(req: Http.Outgoing, transport: Transport, attempts: nat, left: int, response: Response): (t: Trace)
    ensures t.attempts >= attempts
    decreases if left > 0 then left else 0
  {
    if response.ok || left <= 0 then Trace(Returned(response), attempts)
    else match transport(req, attempts)
      case Failed(cause) => Trace(Threw(cause), attempts + 1)
      case Received(raw) => Retrying(req, transport, attempts + 1, left - 1, ToResponse(raw))
  }

  /** The whole loop, from the first attempt. */
  function Attempts(req: Http.Outgoing, transport: Transport, retryTimes: int): (t: Trace)
    ensures t.attempts >= 1
  {
    match transport(req, 0)
    case Failed(cause) => Trace(Threw(cause), 1)
    case Received(raw) => Retrying(req, transport, 1, retryTimes, ToResponse(raw))
  }

  /** Everything observable about one `send`. */
  datatype SendResult = SendResult(
    outcome: Outcome,
    sent: seq<Http.Outgoing>,
    sleeps: seq<Int64>,
    errorCalls: seq<(Handler, Response)>)

  function Repeat<T>(x: T, n: nat): (r: seq<T>)
    ensures |r| == n && forall i :: 0 <= i < n ==> r[i] == x
  {
    seq(n, _ => x)
  }

  function ErrorCalls(c: Settings, outcome: Outcome): seq<(Handler, Response)> {
    if outcome.Returned? && !outcome.response.ok && c.onError.Some?
    then [(c.onError.value, outcome.response)] else []
  }

  /** `HttpClient.Builder.connectTimeout` accepts only a positive duration;
      with a timeout of zero or less, building the client throws. */
  predicate TimeoutAccepted(timeoutMs: Option<Int64>) {
    timeoutMs.None? || timeoutMs.value > 0
  }

  /** What building the client throws for a timeout of zero or less. */
  const RejectedTimeout := Cause("IllegalArgumentException: non-positive connect timeout")

  /** `send()` of a builder configured as `c`: the client is built first,
      so a rejected timeout throws before any request is sent. */
  function SendSpec(c: Settings, transport: Transport): SendResult {
    if !TimeoutAccepted(c.timeoutMs) then SendResult(Threw(RejectedTimeout), [], [], []) else
    var req := RequestOf(c);
    var t := Attempts(req, transport, c.retryTimes);
    SendResult(
      t.outcome,
      Repeat(req, t.attempts),
      if c.retryDelayMs > 0 then Repeat(c.retryDelayMs, t.attempts - 1) else [],
      ErrorCalls(c, t.outcome))
  }

  /** The attempt loop of `send`: attempt once, then, while the response is
      not ok and retries remain, sleep (when a delay is set) and attempt
      again; an exception from the transport ends the loop at once. What it
      sends, sleeps and ends with is what `Attempts` describes. */
  method RunAttempts(req: Http.Outgoing, transport: Transport, retryTimes: Int32, retryDelayMs: Int64)
    returns (outcome: Outcome, sent: seq<Http.Outgoing>, sleeps: seq<Int64>)
    ensures var t := Attempts(req, transport, retryTimes);
      outcome == t.outcome && sent == Repeat(req, t.attempts) &&
      sleeps == if retryDelayMs > 0 then Repeat(retryDelayMs, t.attempts - 1) else []
  {
    ghost var spec := Attempts(req, transport, retryTimes);
    sent, sleeps := [req], [];
    var exchange := transport(req, 0);
    if exchange.Failed? {
      return Threw(exchange.cause), sent, sleeps;
    }
    var response := ToResponse(exchange.raw);
    var attemptsLeft: int := retryTimes;

    while !response.ok && attemptsLeft > 0
      invariant 1 <= |sent|
      invariant sent == Repeat(req, |sent|)
      invariant sleeps == if retryDelayMs > 0 then Repeat(retryDelayMs, |sent| - 1) else []
      invariant Retrying(req, transport, |sent|, attemptsLeft, response) == spec
      decreases attemptsLeft
    {
      if retryDelayMs > 0 {
        sleeps := sleeps + [retryDelayMs];
      }
      exchange := transport(req, |sent|);
      sent := sent + [req];
      if exchange.Failed? {
        return Threw(exchange.cause), sent, sleeps;
      }
      response := ToResponse(exchange.raw);
      attemptsLeft := attemptsLeft - 1;
    }
    outcome := Returned(response);
  }

  function Max0(n: int): nat {
    if n > 0 then n else 0
  }

  /** The facts about the loop: bounded attempts, it stops at the first ok
      response or the first exception, the outcome is what the last attempt
      produced, and a non-ok outcome means every retry was used. */
  lemma {:induction false} RetryingFacts(req: Http.Outgoing, transport: Transport, attempts: nat, left: int, response: Response)
    requires attempts >= 1
    ensures var t := Retrying(req, transport, attempts, left, response);
      attempts <= t.attempts <= attempts + Max0(left) &&
      (forall i :: attempts <= i < t.attempts - 1 ==>
         transport(req, i).Received? && !ToResponse(transport(req, i).raw).ok) &&
      (t.attempts > attempts ==> !response.ok) &&
      (t.attempts == attempts ==> t.outcome == Returned(response)) &&
      (t.attempts > attempts ==>
         match transport(req, t.attempts - 1)
         case Failed(cause) => t.outcome == Threw(cause)
         case Received(raw) => t.outcome == Returned(ToResponse(raw))) &&
      (t.outcome.Returned? && !t.outcome.response.ok ==> t.attempts == attempts + Max0(left))
    decreases if left > 0 then left else 0
  {
    if !response.ok && left > 0 {
      match transport(req, attempts)
      case Failed(cause) =>
      case Received(raw) => RetryingFacts(req, transport, attempts + 1, left - 1, ToResponse(raw));
    }
  }

  /** Attempts are at least one and at most `max(retryTimes, 0) + 1`; every
      attempt but the last got a non-ok response; the outcome is the last
      attempt's response or exception; a non-ok outcome used every retry. */
  lemma AttemptsFacts(req: Http.Outgoing, transport: Transport, retryTimes: int)
    ensures var t := Attempts(req, transport, retryTimes);
      1 <= t.attempts <= Max0(retryTimes) + 1 &&
      (forall i :: 0 <= i < t.attempts - 1 ==>
         transport(req, i).Received? && !ToResponse(transport(req, i).raw).ok) &&
      (match transport(req, t.attempts - 1)
       case Failed(cause) => t.outcome == Threw(cause)
       case Received(raw) => t.outcome == Returned(ToResponse(raw))) &&
      (t.outcome.Returned? && !t.outcome.response.ok ==> t.attempts == Max0(retryTimes) + 1)
  {
    match transport(req, 0)
    case Failed(cause) =>
    case Received(raw) => RetryingFacts(req, transport, 1, retryTimes, ToResponse(raw));
  }

  /** A timeout of zero or less: `send` throws while building the client,
      sends nothing, does not sleep and does not call the error callback. */
  lemma RejectedTimeoutSendsNothing(c: Settings, transport: Transport)
    requires c.timeoutMs.Some? && c.timeoutMs.value <= 0
    ensures var r := SendSpec(c, transport);
      r.outcome == Threw(RejectedTimeout) && r.sent == [] && r.sleeps == [] && r.errorCalls == []
  {
  }

  /** A transport that never succeeds: exactly `retryTimes + 1` attempts (for
      `retryTimes >= 0`), the last non-ok response is returned, and the error
      callback receives it exactly once; unless the timeout is rejected, in
      which case nothing is sent. */
  lemma AllFailing(c: Settings, transport: Transport)
    requires WellFormed(c) && c.retryTimes >= 0
    requires forall i: nat :: transport(RequestOf(c), i).Received? && !IsOk(transport(RequestOf(c), i).raw.status)
    ensures var r := SendSpec(c, transport);
      if TimeoutAccepted(c.timeoutMs) then
        |r.sent| == c.retryTimes + 1 &&
        r.outcome == Returned(ToResponse(transport(RequestOf(c), c.retryTimes).raw)) &&
        (c.onError.Some? ==> r.errorCalls == [(c.onError.value, r.outcome.response)])
      else r.sent == [] && r.outcome == Threw(RejectedTimeout)
  {
    AttemptsFacts(RequestOf(c), transport, c.retryTimes);
  }

  /** The error callback fires once exactly when a non-ok response is
      returned and a callback is registered; never after an ok response,
      never when an exception propagates. */
  lemma ErrorCallbackOnlyOnFinalFailure(c: Settings, transport: Transport)
    ensures var r := SendSpec(c, transport);
      |r.errorCalls| <= 1 &&
      (|r.errorCalls| == 1 <==> r.outcome.Returned? && !r.outcome.response.ok && c.onError.Some?) &&
      (|r.errorCalls| == 1 ==> r.errorCalls[0] == (c.onError.value, r.outcome.response))
  {
  }

  /** `retry(2, 100)` with an error callback, against a server answering 500
      every time: three attempts, two sleeps of 100 ms, one error callback
      (when the timeout, if any, is accepted). */
  lemma ThreeAttemptsOn500(c: Settings, transport: Transport, h: Handler)
    requires WellFormed(c) && c.retryTimes == 2 && c.retryDelayMs == 100 && c.onError == Some(h)
    requires forall i: nat :: transport(RequestOf(c), i).Received? && transport(RequestOf(c), i).raw.status == 500
    ensures var r := SendSpec(c, transport);
      TimeoutAccepted(c.timeoutMs) ==>
        |r.sent| == 3 && r.sleeps == [100, 100] &&
        r.outcome.Returned? && r.outcome.response.status == 500 &&
        r.errorCalls == [(h, r.outcome.response)]
  {
    AllFailing(c, transport);
  }

  // ---------------------------------------------------------------------------
  // The builder

  class RequestBuilder {
    const verb: Method
    const url: string
    var headers: LinkedMap<string, string>
    var timeoutMs: Option<Int64>
    var bodyBytes: Option<Bytes>
    var contentType: Option<string>
    var queryParams: seq<Param>
    var retryTimes: Int32
    var retryDelayMs: Int64
    var onErrorCallback: Option<Handler>

    /** The builder's configuration as a value. */
    function Config(): Settings
      reads this
    {
      Settings(verb, url, headers, timeoutMs, bodyBytes, contentType, queryParams, retryTimes, retryDelayMs, onErrorCallback)
    }

    ghost predicate Valid()
      reads this
    {
      WellFormed(Config())
    }

    constructor (verb: Method, url: string)
      ensures Valid() && Config() == Initial(verb, url)
    {
      this.verb, this.url := verb, url;
      headers, timeoutMs, bodyBytes, contentType := [], None, None, None;
      queryParams, retryTimes, retryDelayMs, onErrorCallback := [], 0, 0, None;
    }

    /** `headers { ... }`: the block's map merged in with `putAll`. */
    method Headers(block: seq<HeaderDsl.HeaderCall>)
      requires Valid()
      modifies this
      ensures Valid() && Config() == Apply(old(Config()), SetHeaders(block))
    {
      var entries := HeaderDsl.Run(block);
      headers := PutAll(headers, entries);
    }

    /** `header(name, value)`. */
    method Header(name: string, value: string)
      requires Valid()
      modifies this
      ensures Valid() && Config() == Apply(old(Config()), SetHeader(name, value))
    {
      headers := Put(headers, name, value);
    }

    /** `queryParams { ... }`: the block's pairs appended with `addAll`. */
    method QueryParams(block: seq<QueryDsl.ParamCall>)
      requires Valid()
      modifies this
      ensures Valid() && Config() == Apply(old(Config()), AddQueryParams(block))
    {
      var params := QueryDsl.Run(block);
      assert params == QueryPairs(block);
      queryParams := queryParams + params;
    }

    /** `body(text, contentType)`. */
    method Body(text: string, contentType: string)
      requires Valid()
      modifies this
      ensures Valid() && Config() == Apply(old(Config()), SetBodyText(text, contentType))
    {
      this.bodyBytes := Some(Utf8.Encode(text));
      this.contentType := Some(contentType);
    }

    /** `body(bytes, contentType)`. */
    method BodyBytes(bytes: Bytes, contentType: string)
      requires Valid()
      modifies this
      ensures Valid() && Config() == Apply(old(Config()), SetBodyBytes(bytes, contentType))
    {
      this.bodyBytes := Some(bytes);
      this.contentType := Some(contentType);
    }

    /** `json(text)`. */
    method Json(text: string)
      requires Valid()
      modifies this
      ensures Valid() && Config() == Apply(old(Config()), SetJson(text))
    {
      Body(text, "application/json; charset=utf-8");
    }

    /** `text(text)`. */
    method Text(text: string)
      requires Valid()
      modifies this
      ensures Valid() && Config() == Apply(old(Config()), SetText(text))
    {
      Body(text, "text/plain; charset=utf-8");
    }

    /** `multipart { ... }`: the built body installed with its content type. */
    method Multipart(clockMillis: nat, parts: seq<MultipartDsl.PartCall>)
      requires Valid()
      modifies this
      ensures Valid() && Config() == Apply(old(Config()), SetMultipart(clockMillis, parts))
    {
      var bytes, contentType := MultipartDsl.Run(clockMillis, parts);
      BodyBytes(bytes, contentType);
    }

    /** `timeout(ms)`. */
    method Timeout(ms: Int64)
      requires Valid()
      modifies this
      ensures Valid() && Config() == Apply(old(Config()), SetTimeout(ms))
    {
      timeoutMs := Some(ms);
    }

    /** `retry(times, delayMs)`; the Kotlin default `delayMs = 0` makes
        `retry(n)` the call `Retry(n, 0)`: no sleep between attempts. */
    method Retry(times: Int32, delayMs: Int64)
      requires Valid()
      modifies this
      ensures Valid() && Config() == Apply(old(Config()), SetRetry(times, delayMs))
    {
      retryTimes := times;
      retryDelayMs := delayMs;
    }

    /** `onError(block)`. */
    method OnError(handler: Handler)
      requires Valid()
      modifies this
      ensures Valid() && Config() == Apply(old(Config()), SetOnError(handler))
    {
      onErrorCallback := Some(handler);
    }

    /** One statement of a configuration block, dispatched to its setter. */
    method Perform(s: Setter)
      requires Valid()
      modifies this
      ensures Valid() && Config() == Apply(old(Config()), s)
    {
      match s
      case SetHeaders(block) => Headers(block);
      case SetHeader(n, v) => Header(n, v);
      case AddQueryParams(block) => QueryParams(block);
      case SetBodyText(t, ct) => Body(t, ct);
      case SetBodyBytes(b, ct) => BodyBytes(b, ct);
      case SetJson(t) => Json(t);
      case SetText(t) => Text(t);
      case SetMultipart(clock, parts) => Multipart(clock, parts);
      case SetTimeout(ms) => Timeout(ms);
      case SetRetry(times, delay) => Retry(times, delay);
      case SetOnError(h) => OnError(h);
    }

    /** `send()`. Compose the final URL once, then attempt, and retry while
        the response is not ok and retries remain, sleeping between attempts
        when a delay is set; finally call the error callback on a non-ok
        response. A timeout of zero or less makes building the client throw
        before anything is sent. The builder itself is not changed. */
    method Send(transport: Transport) returns (r: SendResult)
      requires Valid()
      ensures r == SendSpec(Config(), transport)
    {
      if timeoutMs.Some? && timeoutMs.value <= 0 {
        return SendResult(Threw(RejectedTimeout), [], [], []);
      }
      var finalUrl := if queryParams == [] then url
        else if Contains(url, '?') then url + "&" + QueryString(queryParams)
        else url + "?" + QueryString(queryParams);
      var req := Assemble(verb, finalUrl, timeoutMs, headers, bodyBytes, contentType);
      assert req == RequestOf(Config());
      var outcome, sent, sleeps := RunAttempts(req, transport, retryTimes, retryDelayMs);
      var errorCalls := if outcome.Returned? && !outcome.response.ok && onErrorCallback.Some?
        then [(onErrorCallback.value, outcome.response)] else [];
      r := SendResult(outcome, sent, sleeps, errorCalls);
    }
  }
}
