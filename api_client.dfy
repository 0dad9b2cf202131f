/**
 * The request the API client builds before handing it to the HTTP library
 * (paladium_desktop.py:56-100): the URL, the headers carrying the
 * authentication scheme chosen in the settings, the query parameters and the
 * timeout.
 */
module Api {
  import opened Wrappers
  import opened PyText

  /** The settings the client reads; a key missing from the settings is None. */
  datatype Config = Config(
    apiBase: Option<string>,
    apiKey: Option<string>,
    authScheme: Option<string>,
    authHeader: Option<string>,
    timeout: Option<int>,
    pageSize: Option<int>)

  /** `cfg.get(k, default)`. */
  function GetOr<T>(o: Option<T>, default: T): T {
    if o.Some? then o.value else default
  }

  /** A query parameter value: the page numbers are integers, the rest text. */
  datatype Param = PInt(n: int) | PStr(s: string)

  /** Everything `requests.get` is called with. */
  datatype Request = Request(
    url: string,
    headers: map<string, string>,
    params: map<string, Param>,
    timeout: int)

  const AcceptJson := "application/json"
  const MarketPath := "/v1/paladium/shop/market/items"

  class ApiClient {
    const cfg: Config

    constructor(cfg: Config)
      ensures this.cfg == cfg
    {
      this.cfg := cfg;
    }

    /** The credential: `cfg.get("api_key") or ""`. */
    function KeyText(): string {
      GetOr(cfg.apiKey, "")
    }

    /** The scheme: `cfg.get("auth_scheme", "Bearer")`. */
    function Scheme(): string {
      GetOr(cfg.authScheme, "Bearer")
    }

    /** The header that carries the key under "X-API-Key". */
    function HeaderName(): string {
      GetOr(cfg.authHeader, "X-API-Key")
    }

    /** What `_headers()` returns under this client's settings. The Accept
        header is always there; the key goes into Authorization (with or
        without the "Bearer " prefix) or into the configured header, and
        nowhere for any other scheme. A configured header named "Accept"
        replaces the Accept value with the key. */
    ghost predicate AuthHeaders(h: map<string, string>) {
      && "Accept" in h
      && (h["Accept"] == AcceptJson || (Scheme() == "X-API-Key" && HeaderName() == "Accept"))
      && (Scheme() == "Bearer" ==>
            h == map["Accept" := AcceptJson, "Authorization" := "Bearer " + KeyText()])
      && (Scheme() == "Plain" ==>
            h == map["Accept" := AcceptJson, "Authorization" := KeyText()])
      && (Scheme() == "X-API-Key" ==>
            h == map["Accept" := AcceptJson][HeaderName() := KeyText()])
      && (Scheme() !in {"Bearer", "Plain", "X-API-Key"} ==> h == map["Accept" := AcceptJson])
    }

    /** `_headers()`. */
    method Headers() returns (headers: map<string, string>)
      ensures AuthHeaders(headers)
    {
      var key := KeyText();
      var scheme := Scheme();
      headers := map["Accept" := AcceptJson];
      if scheme == "Bearer" {
        headers := headers["Authorization" := "Bearer " + key];
      } else if scheme == "Plain" {
        headers := headers["Authorization" := key];
      } else if scheme == "X-API-Key" {
        headers := headers[HeaderName() := key];
      }
    }

    /** The base URL without its trailing '/' characters. */
    function Base(): (b: string)
      ensures |b| <= |GetOr(cfg.apiBase, "")| && b == GetOr(cfg.apiBase, "")[..|b|]
      ensures |b| == 0 || b[|b| - 1] != '/'
      ensures forall i | |b| <= i < |GetOr(cfg.apiBase, "")| :: GetOr(cfg.apiBase, "")[i] == '/'
    {
      StripRightChar(GetOr(cfg.apiBase, ""), '/')
    }

    /** `_get(path, params)` up to the HTTP call: the base URL loses every
        trailing '/' and is followed by the path; the "Query" scheme (and only
        it) adds the key as `apikey` to a copy of the parameters; the timeout
        defaults to 15 seconds. */
    method Get(path: string, params: map<string, Param>) returns (req: Request)
      ensures req.url == Base() + path
      ensures AuthHeaders(req.headers)
      ensures cfg.authScheme == Some("Query") ==>
                req.params == params["apikey" := PStr(GetOr(cfg.apiKey, ""))]
                && req.headers == map["Accept" := AcceptJson]
      ensures cfg.authScheme != Some("Query") ==> req.params == params
      ensures req.timeout == GetOr(cfg.timeout, 15)
    {
      var base := StripRightChar(GetOr(cfg.apiBase, ""), '/');
      var url := base + path;
      var headers := Headers();
      var ps := params;
      if cfg.authScheme == Some("Query") {
        ps := ps["apikey" := PStr(GetOr(cfg.apiKey, ""))];
      }
      req := Request(url, headers, ps, GetOr(cfg.timeout, 15));
    }

    /** The request `market_items(page, size, search, sort)` sends: the page
        and the page size are always there, the search term and the sort key
        only when they are not empty, and nothing else except the configured
        key, as `apikey`, under the "Query" scheme. */
    ghost predicate MarketRequest(req: Request, page: int, size: int, search: string, sort: string) {
      && req.url == Base() + MarketPath
      && AuthHeaders(req.headers)
      && "page" in req.params && req.params["page"] == PInt(page)
      && "size" in req.params && req.params["size"] == PInt(size)
      && ("q" in req.params) == (search != "")
      && (search != "" ==> req.params["q"] == PStr(search))
      && ("sort" in req.params) == (sort != "")
      && (sort != "" ==> req.params["sort"] == PStr(sort))
      && ("apikey" in req.params) == (cfg.authScheme == Some("Query"))
      && (cfg.authScheme == Some("Query") ==> req.params["apikey"] == PStr(GetOr(cfg.apiKey, "")))
      && req.params.Keys <= {"page", "size", "q", "sort", "apikey"}
      && req.timeout == GetOr(cfg.timeout, 15)
    }

    /** `market_items(page, size, search, sort)`. */
    method MarketItems(page: int, size: int, search: string, sort: string) returns (req: Request)
      ensures MarketRequest(req, page, size, search, sort)
    {
      var params := map["page" := PInt(page), "size" := PInt(size)];
      if search != "" {
        params := params["q" := PStr(search)];
      }
      if sort != "" {
        params := params["sort" := PStr(sort)];
      }
      req := Get(MarketPath, params);
    }

    /** `player_profile(ident)`: no parameters but the key, and that only
        under the "Query" scheme. */
    method PlayerProfile(ident: string) returns (req: Request)
      ensures req.url == Base() + "/v1/players/" + ident
      ensures AuthHeaders(req.headers)
      ensures req.params == if cfg.authScheme == Some("Query")
                            then map["apikey" := PStr(GetOr(cfg.apiKey, ""))] else map[]
      ensures req.timeout == GetOr(cfg.timeout, 15)
    {
      req := Get("/v1/players/" + ident, map[]);
    }

    /** `faction_profile(fid)`. */
    method FactionProfile(fid: string) returns (req: Request)
      ensures req.url == Base() + "/v1/factions/" + fid
      ensures AuthHeaders(req.headers)
      ensures req.params == if cfg.authScheme == Some("Query")
                            then map["apikey" := PStr(GetOr(cfg.apiKey, ""))] else map[]
      ensures req.timeout == GetOr(cfg.timeout, 15)
    {
      req := Get("/v1/factions/" + fid, map[]);
    }

    /** `server_status()`. */
    method ServerStatus() returns (req: Request)
      ensures req.url == Base() + "/v1/status"
      ensures AuthHeaders(req.headers)
      ensures req.params == if cfg.authScheme == Some("Query")
                            then map["apikey" := PStr(GetOr(cfg.apiKey, ""))] else map[]
      ensures req.timeout == GetOr(cfg.timeout, 15)
    {
      req := Get("/v1/status", map[]);
    }
  }

  /** Trailing slashes on the base never double the '/' at the seam: a base
      that differs only in how many '/' it ends with yields the same URL. */
  lemma {:induction false} TrailingSlashesIgnored(a: ApiClient, b: ApiClient, k: nat)
    requires a.cfg.apiBase.Some? && b.cfg.apiBase.Some?
    requires b.cfg.apiBase.value == a.cfg.apiBase.value + seq(k, _ => '/')
    ensures a.Base() == b.Base()
  {
    StripSlashesAppended(a.cfg.apiBase.value, k);
  }

  lemma {:induction false} StripSlashesAppended(s: string, k: nat)
    ensures StripRightChar(s + seq(k, _ => '/'), '/') == StripRightChar(s, '/')
  {
    if k > 0 {
      var t := s + seq(k - 1, _ => '/');
      var u := s + seq(k, _ => '/');
      assert u == t + ['/'];
      assert u[..|u| - 1] == t;
      assert StripRightChar(u, '/') == StripRightChar(t, '/');
      StripSlashesAppended(s, k - 1);
    } else {
      assert s + seq(k, _ => '/') == s;
    }
  }
}
