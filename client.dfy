/** XHttpClient.kt: a reusable client with a base URL and default headers.
    Every call resolves its path, starts a RequestBuilder, writes the default
    headers one by one, runs the caller's block, and sends. */
module Client {
  import opened Base
  import opened LinkedMaps
  import opened Http
  import opened RequestBuilding
  import ClientBuilding

  /** The defaults as the `header(k, v)` calls `forEach` makes, in map order. */
  function DefaultSetters(defaults: LinkedMap<string, string>): (r: seq<Setter>)
    ensures |r| == |defaults| && forall i :: 0 <= i < |r| ==> r[i] == SetHeader(defaults[i].0, defaults[i].1)
  {
    seq(|defaults|, i requires 0 <= i < |defaults| => SetHeader(defaults[i].0, defaults[i].1))
  }

  /** The configuration `request(verb, path, block)` sends. */
  function Prepared(baseUrl: string, defaults: LinkedMap<string, string>, verb: Method, path: string, block: seq<Setter>): Settings {
    ApplyAll(ApplyAll(Initial(verb, ClientBuilding.ResolveUrl(baseUrl, path)), DefaultSetters(defaults)), block)
  }

  /** `defaultHeaders.forEach { (k, v) -> builder.header(k, v) }`. */
  method InstallDefaults(b: RequestBuilder, defaults: LinkedMap<string, string>)
    requires b.Valid()
    modifies b
    ensures b.Valid() && b.Config() == ApplyAll(old(b.Config()), DefaultSetters(defaults))
  {
    ghost var start := b.Config();
    for i := 0 to |defaults|
      invariant b.Valid() && b.Config() == ApplyAll(start, DefaultSetters(defaults[..i]))
    {
      assert DefaultSetters(defaults[..i + 1])[..i] == DefaultSetters(defaults[..i]);
      b.Header(defaults[i].0, defaults[i].1);
    }
    assert defaults[..|defaults|] == defaults;
  }

  /** `builder.block()`: the caller's setters, in order. */
  method RunBlock(b: RequestBuilder, block: seq<Setter>)
    requires b.Valid()
    modifies b
    ensures b.Valid() && b.Config() == ApplyAll(old(b.Config()), block)
  {
    ghost var start := b.Config();
    for i := 0 to |block|
      invariant b.Valid() && b.Config() == ApplyAll(start, block[..i])
    {
      assert block[..i + 1][..i] == block[..i];
      b.Perform(block[i]);
    }
    assert block[..|block|] == block;
  }

  class XHttpClient {
    const baseUrl: string
    const defaultHeaders: LinkedMap<string, string>

    constructor (baseUrl: string, defaultHeaders: LinkedMap<string, string>)
      ensures this.baseUrl == baseUrl && this.defaultHeaders == defaultHeaders
    {
      this.baseUrl, this.defaultHeaders := baseUrl, defaultHeaders;
    }

    /** The private `request`: the URL is the path when it starts with `http`,
        else the base URL followed by the path; the defaults go in before the
        block, so the block can override them. */
    method Request(verb: Method, path: string, block: seq<Setter>, transport: Transport) returns (r: SendResult)
      ensures r == SendSpec(Prepared(baseUrl, defaultHeaders, verb, path, block), transport)
    {
      var url := if StartsWith(path, "http") then path else baseUrl + path;
      var b := new RequestBuilder(verb, url);
      InstallDefaults(b, defaultHeaders);
      RunBlock(b, block);
      r := b.Send(transport);
    }

    /** `get(path, block)`. */
    method Get(path: string, block: seq<Setter>, transport: Transport) returns (r: SendResult)
      ensures r == SendSpec(Prepared(baseUrl, defaultHeaders, GET, path, block), transport)
    {
      r := Request(GET, path, block, transport);
    }

    /** `post(path, block)`. */
    method Post(path: string, block: seq<Setter>, transport: Transport) returns (r: SendResult)
      ensures r == SendSpec(Prepared(baseUrl, defaultHeaders, POST, path, block), transport)
    {
      r := Request(POST, path, block, transport);
    }

    /** `put(path, block)`. */
    method Put(path: string, block: seq<Setter>, transport: Transport) returns (r: SendResult)
      ensures r == SendSpec(Prepared(baseUrl, defaultHeaders, PUT, path, block), transport)
    {
      r := Request(PUT, path, block, transport);
    }

    /** `delete(path, block)`. */
    method Delete(path: string, block: seq<Setter>, transport: Transport) returns (r: SendResult)
      ensures r == SendSpec(Prepared(baseUrl, defaultHeaders, DELETE, path, block), transport)
    {
      r := Request(DELETE, path, block, transport);
    }

    /** `head(path, block)`. */
    method Head(path: string, block: seq<Setter>, transport: Transport) returns (r: SendResult)
      ensures r == SendSpec(Prepared(baseUrl, defaultHeaders, HEAD, path, block), transport)
    {
      r := Request(HEAD, path, block, transport);
    }
  }

  /** The `XHttpClient(block)` factory: the builder's `resolve("")` as base
      URL and a snapshot of its defaults. */
  method NewClient(block: seq<ClientBuilding.ClientCall>) returns (c: XHttpClient)
    ensures fresh(c)
    ensures c.baseUrl == ClientBuilding.BaseOf(block)
    ensures c.defaultHeaders == ClientBuilding.DefaultsOf(block)
  {
    var cfg := ClientBuilding.Configure(block);
    c := new XHttpClient(cfg.Resolve(""), cfg.BuildDefaults());
  }

  lemma {:induction false} DefaultsInstalled(defaults: LinkedMap<string, string>, name: string)
    requires Distinct(defaults)
    ensures BlockHeader(DefaultSetters(defaults), name) == LinkedMaps.Get(defaults, name)
    decreases |defaults|
  {
    if defaults != [] {
      var n := |defaults| - 1;
      var ds := DefaultSetters(defaults);
      assert ds[..n] == DefaultSetters(defaults[..n]);
      assert ds[n] == SetHeader(defaults[n].0, defaults[n].1);
      LinkedMaps.GetLast(defaults, name);
      DefaultsInstalled(defaults[..n], name);
    }
  }

  /** A header the block writes overrides the default of the same name; a
      default the block does not write is sent as it is; a name neither
      writes is absent. */
  lemma BlockOverridesDefaults(baseUrl: string, defaults: LinkedMap<string, string>, verb: Method, path: string,
                               block: seq<Setter>, name: string)
    requires Distinct(defaults)
    ensures LinkedMaps.Get(Prepared(baseUrl, defaults, verb, path, block).headers, name) ==
      if BlockHeader(block, name).Some? then BlockHeader(block, name) else LinkedMaps.Get(defaults, name)
  {
    var start := Initial(verb, ClientBuilding.ResolveUrl(baseUrl, path));
    BlockHeaderWins(start, DefaultSetters(defaults), name);
    DefaultsInstalled(defaults, name);
    BlockHeaderWins(ApplyAll(start, DefaultSetters(defaults)), block, name);
  }

  lemma {:induction false} ApplyAllKeepsVerb(c: Settings, block: seq<Setter>, verb: Method)
    requires WellFormed(c)
    ensures ApplyAll(c.(verb := verb), block) == ApplyAll(c, block).(verb := verb)
    decreases |block|
  {
    if block != [] {
      ApplyAllKeepsVerb(c, block[..|block| - 1], verb);
      ApplyKeepsTarget(ApplyAll(c, block[..|block| - 1]), block[|block| - 1], verb);
    }
  }

  /** The entry points differ in the method and nothing else: the same path
      and block give the same configuration up to the verb, and the verb is
      the entry point's own. */
  lemma EntryPointsDifferOnlyInVerb(baseUrl: string, defaults: LinkedMap<string, string>, v1: Method, v2: Method,
                                    path: string, block: seq<Setter>)
    ensures Prepared(baseUrl, defaults, v2, path, block) == Prepared(baseUrl, defaults, v1, path, block).(verb := v2)
    ensures Prepared(baseUrl, defaults, v1, path, block).verb == v1
    ensures RequestOf(Prepared(baseUrl, defaults, v1, path, block)).methodName == v1.Name()
  {
    var url := ClientBuilding.ResolveUrl(baseUrl, path);
    var ds := DefaultSetters(defaults);
    ApplyAllKeepsVerb(Initial(v1, url), ds, v2);
    assert Initial(v1, url).(verb := v2) == Initial(v2, url);
    ApplyAllKeepsVerb(ApplyAll(Initial(v1, url), ds), block, v2);
    ApplyAllKeepsVerb(Initial(v2, url), ds, v1);
    assert Initial(v2, url).(verb := v1) == Initial(v1, url);
    ApplyAllKeepsVerb(ApplyAll(Initial(v2, url), ds), block, v1);
  }

  /** The URL a client call targets (before query parameters) is the
      builder's resolution of the path against the client's base URL. */
  lemma RequestUrlIsResolved(baseUrl: string, defaults: LinkedMap<string, string>, verb: Method, path: string,
                             block: seq<Setter>)
    ensures Prepared(baseUrl, defaults, verb, path, block).url == ClientBuilding.ResolveUrl(baseUrl, path)
  {
    var start := Initial(verb, ClientBuilding.ResolveUrl(baseUrl, path));
    ApplyAllKeepsUrl(start, DefaultSetters(defaults));
    ApplyAllKeepsUrl(ApplyAll(start, DefaultSetters(defaults)), block);
  }

  lemma {:induction false} ApplyAllKeepsUrl(c: Settings, block: seq<Setter>)
    requires WellFormed(c)
    ensures ApplyAll(c, block).url == c.url && ApplyAll(c, block).verb == c.verb
    decreases |block|
  {
    if block != [] {
      ApplyAllKeepsUrl(c, block[..|block| - 1]);
      ApplyKeepsTarget(ApplyAll(c, block[..|block| - 1]), block[|block| - 1], c.verb);
    }
  }
}
