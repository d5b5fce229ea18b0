/** The URL composition and header bookkeeping of `BaseAPI`. The HTTP session
    is reduced to its header store: `requests` keeps session headers in a
    case-insensitive dict, which stores each entry under the lower-cased name
    together with the name as last written. Sending a request is not modelled;
    each verb method yields the request it would hand to the session. */
module BaseApi {
  import opened Wrappers
  import opened Text

  // ---------------------------------------------------------------------------
  // `rstrip('/')`, `lstrip('/')` and the URL rule (api/base_api.py:15, 36-72)

  /** `s.rstrip(c)`: `s` without its trailing run of `c`. */
  function RStrip(s: string, c: char): (r: string)
    ensures r <= s
    ensures |r| > 0 ==> r[|r| - 1] != c
    ensures forall i :: |r| <= i < |s| ==> s[i] == c
  {
    if |s| > 0 && s[|s| - 1] == c then RStrip(s[..|s| - 1], c) else s
  }

  /** `s.lstrip(c)`: `s` without its leading run of `c`. */
  function LStrip(s: string, c: char): (r: string)
    ensures |r| <= |s| && r == s[|s| - |r|..]
    ensures |r| > 0 ==> r[0] != c
    ensures forall i :: 0 <= i < |s| - |r| ==> s[i] == c
  {
    if |s| > 0 && s[0] == c then LStrip(s[1..], c) else s
  }

  /** Stripping a string that has no trailing `c` changes nothing, and stripping
      twice is stripping once. */
  lemma RStripFixedPoint(s: string, c: char)
    ensures (|s| == 0 || s[|s| - 1] != c) ==> RStrip(s, c) == s
    ensures RStrip(RStrip(s, c), c) == RStrip(s, c)
  {
    var r := RStrip(s, c);
    assert |r| == 0 || r[|r| - 1] != c;
  }

  /** The three properties of `RStrip` pin its result down: any prefix with no
      trailing `c` after which only `c` follows is the stripped string. */
  lemma RStripUnique(s: string, c: char, r: string)
    requires r <= s && (|r| > 0 ==> r[|r| - 1] != c)
    requires forall i :: |r| <= i < |s| ==> s[i] == c
    ensures r == RStrip(s, c)
  {
    var t := RStrip(s, c);
    assert |t| == |r|;
  }

  /** `f"{base_url}/{endpoint.lstrip('/')}"`: the base, one '/', then the
      endpoint with only its leading '/' removed. */
  function JoinUrl(baseUrl: string, endpoint: string): (url: string)
    ensures |baseUrl| < |url| <= |baseUrl| + 1 + |endpoint|
    ensures url[..|baseUrl|] == baseUrl && url[|baseUrl|] == '/'
    ensures |url| > |baseUrl| + 1 ==> url[|baseUrl| + 1] != '/'
    ensures url[|baseUrl| + 1..] == endpoint[|baseUrl| + 1 + |endpoint| - |url|..]
    ensures forall i :: 0 <= i < |baseUrl| + 1 + |endpoint| - |url| ==> endpoint[i] == '/'
  {
    var rest := LStrip(endpoint, '/');
    var url := baseUrl + "/" + rest;
    assert url[..|baseUrl|] == baseUrl && url[|baseUrl| + 1..] == rest;
    url
  }

  /** `url` is `base`, then a '/' that is the only one where base and the rest
      meet. */
  predicate OneSlashBetween(url: string, base: string)
  {
    && |base| < |url| && url[..|base|] == base && url[|base|] == '/'
    && (|base| > 0 ==> url[|base| - 1] != '/')
    && (|url| > |base| + 1 ==> url[|base| + 1] != '/')
  }

  /** A base URL stripped as `__init__` strips it, joined with any endpoint,
      has exactly one '/' where the two meet: "https://host/" with "/posts"
      gives "https://host/posts". */
  lemma OneSlashAtSeam(rawBaseUrl: string, endpoint: string)
    ensures OneSlashBetween(JoinUrl(RStrip(rawBaseUrl, '/'), endpoint), RStrip(rawBaseUrl, '/'))
  {
    var base := RStrip(rawBaseUrl, '/');
    var url := JoinUrl(base, endpoint);
    if |base| > 0 {
      assert url[|base| - 1] == url[..|base|][|base| - 1];
    }
  }

  /** Leading slashes on the endpoint do not matter: "posts", "/posts" and
      "//posts" give the same URL. */
  lemma {:induction false} JoinUrlIgnoresLeadingSlashes(baseUrl: string, endpoint: string, k: nat)
    ensures JoinUrl(baseUrl, Repeat('/', k) + endpoint) == JoinUrl(baseUrl, endpoint)
  {
    if k > 0 {
      var e := Repeat('/', k) + endpoint;
      assert e[0] == '/' && e[1..] == Repeat('/', k - 1) + endpoint;
      assert LStrip(e, '/') == LStrip(e[1..], '/');
      JoinUrlIgnoresLeadingSlashes(baseUrl, endpoint, k - 1);
    } else {
      assert Repeat('/', k) + endpoint == endpoint;
    }
  }

  /** Two endpoints give the same URL exactly when they agree once their leading
      slashes are removed. */
  lemma JoinUrlInjective(baseUrl: string, e1: string, e2: string)
    ensures JoinUrl(baseUrl, e1) == JoinUrl(baseUrl, e2) <==> LStrip(e1, '/') == LStrip(e2, '/')
  {
    var u1, u2 := JoinUrl(baseUrl, e1), JoinUrl(baseUrl, e2);
    assert u1 == baseUrl + "/" + LStrip(e1, '/') && u2 == baseUrl + "/" + LStrip(e2, '/');
    if u1 == u2 {
      assert u1[|baseUrl| + 1..] == LStrip(e1, '/');
      assert u2[|baseUrl| + 1..] == LStrip(e2, '/');
    }
  }

  // ---------------------------------------------------------------------------
  // The session's header store (api/base_api.py:20-32)

  /** Lower-cased header name to (name as last written, value). */
  type HeaderStore = map<string, (string, string)>

  /** Every entry sits under the lower case of its own name. */
  ghost predicate WellKeyed(h: HeaderStore)
  {
    forall k :: k in h ==> k == Lower(h[k].0)
  }

  /** `headers[name] = value`, as `headers.update({name: value})` does it. */
  function WithHeader(h: HeaderStore, name: string, value: string): (r: HeaderStore)
    ensures WellKeyed(h) ==> WellKeyed(r)
  {
    h[Lower(name) := (name, value)]
  }

  /** `headers.get(name)`, ignoring letter case: in a well-keyed store it finds
      a header exactly when one is stored under a name equal to `name` up to
      case, and then returns that header's value. */
  function Lookup(h: HeaderStore, name: string): (r: Option<string>)
    ensures WellKeyed(h) ==> (r.Some? <==> exists k :: k in h && Lower(h[k].0) == Lower(name))
    ensures WellKeyed(h) ==> forall k :: k in h && Lower(h[k].0) == Lower(name) ==> r == Some(h[k].1)
  {
    if Lower(name) in h then Some(h[Lower(name)].1) else None
  }

  /** After `WithHeader`, the name (in any letter case) maps to the new value and every
      other name maps to what it did before. */
  lemma WithHeaderThenLookup(h: HeaderStore, name: string, value: string, other: string)
    ensures Lower(other) == Lower(name) ==> Lookup(WithHeader(h, name, value), other) == Some(value)
    ensures Lower(other) != Lower(name) ==> Lookup(WithHeader(h, name, value), other) == Lookup(h, other)
  {
  }

  const JsonMediaType: string := "application/json"
  const UserAgent: string := "Playwright-API-Tests/1.0"

  /** The session headers after `__init__`'s update: the session's own defaults
      with Content-Type, Accept and User-Agent written over them. */
  function DefaultHeaders(session: HeaderStore): (r: HeaderStore)
    ensures WellKeyed(session) ==> WellKeyed(r)
    ensures r.Keys == session.Keys + {"content-type", "accept", "user-agent"}
  {
    assert Lower("Content-Type") == "content-type";
    assert Lower("Accept") == "accept";
    assert Lower("User-Agent") == "user-agent";
    WithHeader(WithHeader(WithHeader(session, "Content-Type", JsonMediaType), "Accept", JsonMediaType), "User-Agent", UserAgent)
  }

  /** The three default headers are present whatever the session held before,
      and every other header the session held is kept. */
  lemma DefaultHeadersPresent(session: HeaderStore, other: string)
    ensures Lookup(DefaultHeaders(session), "Content-Type") == Some(JsonMediaType)
    ensures Lookup(DefaultHeaders(session), "Accept") == Some(JsonMediaType)
    ensures Lookup(DefaultHeaders(session), "User-Agent") == Some(UserAgent)
    ensures Lower(other) !in {"content-type", "accept", "user-agent"} ==>
      Lookup(DefaultHeaders(session), other) == Lookup(session, other)
  {
    assert Lower("Content-Type") == "content-type";
    assert Lower("Accept") == "accept";
    assert Lower("User-Agent") == "user-agent";
  }

  // ---------------------------------------------------------------------------
  // The client

  datatype HttpVerb = GET | POST | PUT | PATCH | DELETE

  /** What a verb method hands to the session: the verb, the URL and the timeout. */
  datatype Request = Request(verb: HttpVerb, url: string, timeout: int)

  const DefaultTimeout: int := 30

  class Client {
    var baseUrl: string
    var timeout: int
    var headers: HeaderStore

    ghost predicate Valid()
      reads this
    {
      (|baseUrl| == 0 || baseUrl[|baseUrl| - 1] != '/') && WellKeyed(headers)
    }

    /** `__init__(base_url, timeout)`. `sessionHeaders` stands for the headers a
        fresh `requests.Session()` starts with. */
    constructor (baseUrl: string, timeout: int, sessionHeaders: HeaderStore)
      requires WellKeyed(sessionHeaders)
      ensures Valid()
      ensures this.baseUrl == RStrip(baseUrl, '/') && this.timeout == timeout
      ensures headers == DefaultHeaders(sessionHeaders)
      ensures Header("Content-Type") == Some(JsonMediaType)
      ensures Header("Accept") == Some(JsonMediaType)
      ensures Header("User-Agent") == Some(UserAgent)
    {
      this.baseUrl := RStrip(baseUrl, '/');
      this.timeout := timeout;
      headers := DefaultHeaders(sessionHeaders);
      new;
      DefaultHeadersPresent(sessionHeaders, "");
    }

    /** `__init__(base_url)`, with `timeout` left at its default of 30 seconds. */
    constructor WithDefaultTimeout(baseUrl: string, sessionHeaders: HeaderStore)
      requires WellKeyed(sessionHeaders)
      ensures Valid()
      ensures this.baseUrl == RStrip(baseUrl, '/') && timeout == DefaultTimeout
      ensures headers == DefaultHeaders(sessionHeaders)
    {
      this.baseUrl := RStrip(baseUrl, '/');
      timeout := DefaultTimeout;
      headers := DefaultHeaders(sessionHeaders);
    }

    /** The value stored for `name`, ignoring letter case. */
    function Header(name: string): Option<string>
      reads this
    {
      Lookup(headers, name)
    }

    /** `set_auth_token(token)`. */
    method SetAuthToken(token: string)
      requires Valid()
      modifies this
      ensures Valid()
      ensures baseUrl == old(baseUrl) && timeout == old(timeout)
      ensures headers == WithHeader(old(headers), "Authorization", "Bearer " + token)
      ensures Header("Authorization") == Some("Bearer " + token)
    {
      headers := WithHeader(headers, "Authorization", "Bearer " + token);
    }

    /** `set_header(key, value)`. */
    method SetHeader(key: string, value: string)
      requires Valid()
      modifies this
      ensures Valid()
      ensures baseUrl == old(baseUrl) && timeout == old(timeout)
      ensures headers == WithHeader(old(headers), key, value)
      ensures Header(key) == Some(value)
      ensures forall other :: Lower(other) != Lower(key) ==> Header(other) == old(Header(other))
    {
      headers := WithHeader(headers, key, value);
    }

    /** The URL every verb method requests for `endpoint`; on a valid client
        it has a single '/' between the base URL and the endpoint. */
    function UrlFor(endpoint: string): (url: string)
      reads this
      ensures Valid() ==> OneSlashBetween(url, baseUrl)
    {
      assert |baseUrl| > 0 ==>
        JoinUrl(baseUrl, endpoint)[|baseUrl| - 1] == JoinUrl(baseUrl, endpoint)[..|baseUrl|][|baseUrl| - 1];
      JoinUrl(baseUrl, endpoint)
    }

    /** `get(endpoint)`. */
    method Get(endpoint: string) returns (req: Request)
      requires Valid()
      ensures req == Request(GET, UrlFor(endpoint), timeout)
      ensures OneSlashBetween(req.url, baseUrl)
    {
      req := Request(GET, JoinUrl(baseUrl, endpoint), timeout);
    }

    /** `post(endpoint)`. */
    method Post(endpoint: string) returns (req: Request)
      requires Valid()
      ensures req == Request(POST, UrlFor(endpoint), timeout)
      ensures OneSlashBetween(req.url, baseUrl)
    {
      req := Request(POST, JoinUrl(baseUrl, endpoint), timeout);
    }

    /** `put(endpoint)`. */
    method Put(endpoint: string) returns (req: Request)
      requires Valid()
      ensures req == Request(PUT, UrlFor(endpoint), timeout)
      ensures OneSlashBetween(req.url, baseUrl)
    {
      req := Request(PUT, JoinUrl(baseUrl, endpoint), timeout);
    }

    /** `patch(endpoint)`. */
    method Patch(endpoint: string) returns (req: Request)
      requires Valid()
      ensures req == Request(PATCH, UrlFor(endpoint), timeout)
      ensures OneSlashBetween(req.url, baseUrl)
    {
      req := Request(PATCH, JoinUrl(baseUrl, endpoint), timeout);
    }

    /** `delete(endpoint)`. */
    method Delete(endpoint: string) returns (req: Request)
      requires Valid()
      ensures req == Request(DELETE, UrlFor(endpoint), timeout)
      ensures OneSlashBetween(req.url, baseUrl)
    {
      req := Request(DELETE, JoinUrl(baseUrl, endpoint), timeout);
    }
  }
}
