/** request/Request.kt: the older fluent request builder behind `XHttp.get`
    and friends. Every setter changes the builder and returns the builder
    itself; `send` makes exactly one attempt, with no query parameters, no
    retry and no error callback. */
module LegacyRequest {
  import opened Base
  import opened LinkedMaps
  import opened Http
  import Utf8
  import RequestBuilding

  /** The single attempt of `send`: the response built from what the
      transport returned, or the exception it threw. */
  function SendOnce(req: Outgoing, transport: Transport): RequestBuilding.Outcome {
    match transport(req, 0)
    case Failed(cause) => RequestBuilding.Threw(cause)
    case Received(raw) => RequestBuilding.Returned(ToResponse(raw))
  }

  class Request {
    const verb: Method
    const url: string
    var headers: LinkedMap<string, string>
    var timeoutMs: Option<Int64>
    var bodyBytes: Option<Bytes>
    var contentType: Option<string>

    /** Headers form a map; body and content type are only ever set together. */
    ghost predicate Valid()
      reads this
    {
      Distinct(headers) && (bodyBytes.Some? <==> contentType.Some?)
    }

    constructor (verb: Method, url: string)
      ensures Valid()
      ensures this.verb == verb && this.url == url
      ensures headers == [] && timeoutMs.None? && bodyBytes.None? && contentType.None?
    {
      this.verb, this.url := verb, url;
      headers, timeoutMs, bodyBytes, contentType := [], None, None, None;
    }

    /** `header(name, value)`: last write wins. */
    method Header(name: string, value: string) returns (r: Request)
      requires Valid()
      modifies this
      ensures r == this && Valid()
      ensures headers == Put(old(headers), name, value)
      ensures timeoutMs == old(timeoutMs) && bodyBytes == old(bodyBytes) && contentType == old(contentType)
    {
      headers := Put(headers, name, value);
      r := this;
    }

    /** `headers(map)`: the entries of `map` written in its order; keys not in
        `map` keep their values. */
    method Headers(m: LinkedMap<string, string>) returns (r: Request)
      requires Valid() && Distinct(m)
      modifies this
      ensures r == this && Valid()
      ensures headers == PutAll(old(headers), m)
      ensures forall k :: Get(headers, k) == if Get(m, k).Some? then Get(m, k) else Get(old(headers), k)
      ensures timeoutMs == old(timeoutMs) && bodyBytes == old(bodyBytes) && contentType == old(contentType)
    {
      forall k ensures Get(PutAll(headers, m), k) == if Get(m, k).Some? then Get(m, k) else Get(headers, k) {
        PutAllGet(headers, m, k);
      }
      headers := PutAll(headers, m);
      r := this;
    }

    /** `timeout(ms)`. */
    method Timeout(ms: Int64) returns (r: Request)
      requires Valid()
      modifies this
      ensures r == this && Valid()
      ensures timeoutMs == Some(ms)
      ensures headers == old(headers) && bodyBytes == old(bodyBytes) && contentType == old(contentType)
    {
      timeoutMs := Some(ms);
      r := this;
    }

    /** `body(text, contentType)`: both the bytes and the content type are replaced. */
    method BodyText(text: string, contentType: string) returns (r: Request)
      requires Valid()
      modifies this
      ensures r == this && Valid()
      ensures bodyBytes == Some(Utf8.Encode(text)) && this.contentType == Some(contentType)
      ensures headers == old(headers) && timeoutMs == old(timeoutMs)
    {
      this.bodyBytes := Some(Utf8.Encode(text));
      this.contentType := Some(contentType);
      r := this;
    }

    /** `body(bytes, contentType)`. */
    method BodyBytes(bytes: Bytes, contentType: string) returns (r: Request)
      requires Valid()
      modifies this
      ensures r == this && Valid()
      ensures bodyBytes == Some(bytes) && this.contentType == Some(contentType)
      ensures headers == old(headers) && timeoutMs == old(timeoutMs)
    {
      this.bodyBytes := Some(bytes);
      this.contentType := Some(contentType);
      r := this;
    }

    /** The builder seen as a RequestBuilder configuration with nothing of
        what Request lacks: no query parameters, no retry, no callback. */
    function AsSettings(): (c: RequestBuilding.Settings)
      reads this
      requires Valid()
      ensures RequestBuilding.WellFormed(c)
    {
      RequestBuilding.Settings(verb, url, headers, timeoutMs, bodyBytes, contentType, [], 0, 0, None)
    }

    /** `send()`: the client is built first, so a timeout of zero or less
        throws before anything is sent. Otherwise the request is made of the
        URL, the timeout, every header in insertion order, then Content-Type
        when there is a body, and the body (or no body); it is sent once.
        `sent` lists the requests handed to the transport. The builder is not
        changed. */
    method Send(transport: Transport) returns (sent: seq<Outgoing>, r: RequestBuilding.Outcome)
      requires Valid()
      ensures !RequestBuilding.TimeoutAccepted(timeoutMs) ==>
        sent == [] && r == RequestBuilding.Threw(RequestBuilding.RejectedTimeout)
      ensures RequestBuilding.TimeoutAccepted(timeoutMs) ==> |sent| == 1
      ensures |sent| == 1 ==>
        sent[0].methodName == verb.Name() && sent[0].uri == url && sent[0].timeoutMs == timeoutMs &&
        sent[0].body == bodyBytes &&
        (bodyBytes.None? ==> sent[0].headers == headers) &&
        (bodyBytes.Some? ==> sent[0].headers == headers + [("Content-Type", contentType.value)]) &&
        r == SendOnce(sent[0], transport) &&
        sent[0] == RequestBuilding.RequestOf(AsSettings())
    {
      if timeoutMs.Some? && timeoutMs.value <= 0 {
        return [], RequestBuilding.Threw(RequestBuilding.RejectedTimeout);
      }
      var written: seq<(string, string)> := [];
      for i := 0 to |headers|
        invariant written == headers[..i]
      {
        written := written + [headers[i]];
      }
      assert headers[..|headers|] == headers;
      if bodyBytes.Some? {
        if contentType.Some? {
          written := written + [("Content-Type", contentType.value)];
        }
      }
      var req := Outgoing(verb.Name(), url, timeoutMs, written, bodyBytes);
      RequestBuilding.ContentTypeOnlyWithBody(AsSettings());
      var exchange := transport(req, 0);
      sent := [req];
      r := match exchange
        case Failed(cause) => RequestBuilding.Threw(cause)
        case Received(raw) => RequestBuilding.Returned(ToResponse(raw));
    }
  }

  /** `send` is RequestBuilder's `send` for a configuration without query
      parameters, retries or callback: at most one attempt, no sleep, no
      callback, the same outcome. */
  lemma SendIsSingleAttempt(c: RequestBuilding.Settings, transport: Transport)
    requires RequestBuilding.WellFormed(c)
    requires c.queryParams == [] && c.retryTimes == 0 && c.onError.None?
    ensures var r := RequestBuilding.SendSpec(c, transport);
      r.sleeps == [] && r.errorCalls == [] &&
      if RequestBuilding.TimeoutAccepted(c.timeoutMs) then
        r.sent == [RequestBuilding.RequestOf(c)] &&
        r.outcome == SendOnce(RequestBuilding.RequestOf(c), transport)
      else r.sent == [] && r.outcome == RequestBuilding.Threw(RequestBuilding.RejectedTimeout)
  {
    RequestBuilding.AttemptsFacts(RequestBuilding.RequestOf(c), transport, 0);
  }
}
