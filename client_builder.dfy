/** XHttpClientBuilder.kt: the receiver of the `XHttpClient { }` block. It
    holds a base URL (initially empty) and an insertion-ordered map of
    default headers, and resolves paths against the base URL. */
module ClientBuilding {
  import opened Base
  import opened LinkedMaps

  /** A path that starts with `http` is taken as a full URL; any other path
      is appended to the base URL. */
  function ResolveUrl(baseUrl: string, path: string): string {
    if StartsWith(path, "http") then path else baseUrl + path
  }

  /** The path always ends the resolved URL, and what comes before it is
      either nothing (a full URL) or the whole base URL. */
  lemma ResolveShape(baseUrl: string, path: string)
    ensures var r := ResolveUrl(baseUrl, path);
      |r| >= |path| && r[|r| - |path|..] == path &&
      (r == path <== StartsWith(path, "http")) &&
      (!StartsWith(path, "http") ==> r[..|baseUrl|] == baseUrl && |r| == |baseUrl| + |path|)
  {
  }

  /** `resolve("")` is the base URL: the empty path never looks like a URL. */
  lemma ResolveEmpty(baseUrl: string)
    ensures ResolveUrl(baseUrl, "") == baseUrl
  {
    assert baseUrl + "" == baseUrl;
  }

  /** Resolving twice changes nothing when the base URL is empty or itself
      starts with `http`, which a usable base URL does. */
  lemma ResolveIdempotent(baseUrl: string, path: string)
    requires baseUrl == "" || StartsWith(baseUrl, "http")
    ensures ResolveUrl(baseUrl, ResolveUrl(baseUrl, path)) == ResolveUrl(baseUrl, path)
  {
    if !StartsWith(path, "http") {
      if baseUrl == "" {
        assert baseUrl + path == path;
      } else {
        StartsWithAppend(baseUrl, path, "http");
      }
    }
  }

  /** The check is a plain prefix test: `httpfoo` is kept as it is, and a path
      such as `/v1` goes after the base URL. */
  lemma ResolveExamples()
    ensures ResolveUrl("https://api.example.com", "httpfoo") == "httpfoo"
    ensures ResolveUrl("https://api.example.com", "/v1") == "https://api.example.com/v1"
    ensures ResolveUrl("https://api.example.com", "https://other/x") == "https://other/x"
  {
    assert "httpfoo"[..4] == "http";
    assert "https://other/x"[..4] == "http";
    assert !StartsWith("/v1", "http") by { assert "/v1"[0] != 'h'; }
  }

  class XHttpClientBuilder {
    var baseUrl: string
    var defaultHeaders: LinkedMap<string, string>

    ghost predicate Valid()
      reads this
    {
      Distinct(defaultHeaders)
    }

    constructor ()
      ensures Valid() && baseUrl == "" && defaultHeaders == []
    {
      baseUrl, defaultHeaders := "", [];
    }

    /** `baseUrl = url`. */
    method SetBaseUrl(url: string)
      requires Valid()
      modifies this
      ensures Valid() && baseUrl == url && defaultHeaders == old(defaultHeaders)
    {
      baseUrl := url;
    }

    /** `defaultHeader(name, value)`: last write wins, other defaults are kept. */
    method DefaultHeader(name: string, value: string)
      requires Valid()
      modifies this
      ensures Valid() && baseUrl == old(baseUrl)
      ensures defaultHeaders == Put(old(defaultHeaders), name, value)
    {
      defaultHeaders := Put(defaultHeaders, name, value);
    }

    /** `buildDefaults()`: a copy of the defaults, the same entries in the same
        order. It is a value: later writes to the builder do not reach it. */
    function BuildDefaults(): (r: LinkedMap<string, string>)
      reads this
      requires Valid()
      ensures Distinct(r) && Keys(r) == Keys(defaultHeaders)
      ensures forall k :: Get(r, k) == Get(defaultHeaders, k)
    {
      defaultHeaders[..]
    }

    /** `resolve(path)`: a full URL is kept, any other path follows the
        base URL, and the empty path gives the base URL itself. */
    function Resolve(path: string): (r: string)
      reads this
      ensures StartsWith(path, "http") ==> r == path
      ensures !StartsWith(path, "http") ==> r == baseUrl + path
      ensures path == "" ==> r == baseUrl
    {
      ResolveEmpty(baseUrl);
      ResolveUrl(baseUrl, path)
    }
  }

  /** One statement of an `XHttpClient { }` block. */
  datatype ClientCall = SetBase(url: string) | AddDefault(name: string, value: string)

  /** The base URL a block leaves: its last assignment, or the initial `""`. */
  function BaseOf(block: seq<ClientCall>): string
    decreases |block|
  {
    if block == [] then ""
    else match block[|block| - 1]
      case SetBase(u) => u
      case AddDefault(_, _) => BaseOf(block[..|block| - 1])
  }

  /** The default headers a block leaves. */
  function DefaultsOf(block: seq<ClientCall>): (r: LinkedMap<string, string>)
    ensures Distinct(r)
    decreases |block|
  {
    if block == [] then []
    else match block[|block| - 1]
      case SetBase(_) => DefaultsOf(block[..|block| - 1])
      case AddDefault(n, v) => Put(DefaultsOf(block[..|block| - 1]), n, v)
  }

  /** `XHttpClientBuilder().apply(block)`. */
  method Configure(block: seq<ClientCall>) returns (b: XHttpClientBuilder)
    ensures fresh(b) && b.Valid()
    ensures b.baseUrl == BaseOf(block) && b.defaultHeaders == DefaultsOf(block)
  {
    b := new XHttpClientBuilder();
    for i := 0 to |block|
      invariant b.Valid()
      invariant b.baseUrl == BaseOf(block[..i]) && b.defaultHeaders == DefaultsOf(block[..i])
    {
      assert block[..i + 1][..i] == block[..i];
      match block[i]
      case SetBase(u) => b.SetBaseUrl(u);
      case AddDefault(n, v) => b.DefaultHeader(n, v);
    }
    assert block[..|block|] == block;
  }

  /** Default headers are last-write-wins: a block that sets a default after
      every other write of that name decides its value, and setting the base
      URL never touches the defaults. */
  lemma {:induction false} DefaultsLastWriteWins(block: seq<ClientCall>, i: nat, name: string)
    requires i < |block| && block[i].AddDefault? && block[i].name == name
    requires forall j :: i < j < |block| ==> !(block[j].AddDefault? && block[j].name == name)
    ensures Get(DefaultsOf(block), name) == Some(block[i].value)
    decreases |block|
  {
    var n := |block| - 1;
    var init := block[..n];
    if i == n {
      assert DefaultsOf(block) == Put(DefaultsOf(init), name, block[i].value);
    } else {
      assert forall j :: i < j < n ==> init[j] == block[j];
      DefaultsLastWriteWins(init, i, name);
      var last := block[n];
      if last.AddDefault? {
        assert DefaultsOf(block) == Put(DefaultsOf(init), last.name, last.value);
        assert last.name != name;
      } else {
        assert DefaultsOf(block) == DefaultsOf(init);
      }
    }
  }
}
