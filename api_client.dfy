/** The dashboard's API client: the interceptors around every request and
    response, and the services that build the query strings and paths of the
    backend's routes. */
module ApiClient {
  import opened Wrappers
  import opened Text
  import opened Http
  import opened Url
  import opened AuthService
  import opened AuthMiddleware
  import opened CampaignsRoutes

  const TokenKey := "google_ads_token"
  const AuthPage := "/auth"
  const DefaultApiUrl := "http://localhost:3000"

  /** `NEXT_PUBLIC_API_URL || 'http://localhost:3000'`. */
  function ApiBaseUrl(configured: Option<string>): (url: string)
    ensures Given(configured) ==> url == configured.value
    ensures !Given(configured) ==> url == DefaultApiUrl
  {
    OrElse(configured, DefaultApiUrl)
  }

  /** A campaign as the dashboards receive it. */
  datatype Campaign = Campaign(id: string, name: string, status: string, budget: int,
    impressions: int, clicks: int, cost: real, ctr: string)

  /** The account summary the metrics route answers with. */
  datatype MetricsSummary = MetricsSummary(totalCampaigns: int, activeCampaigns: int,
    totalImpressions: int, totalClicks: int, totalCost: real, averageCtr: string)

  /** The browser's `localStorage`. */
  class BrowserStorage {
    var items: map<string, string>

    constructor (items: map<string, string>)
      ensures this.items == items
    {
      this.items := items;
    }

    function GetItem(key: string): (r: Option<string>)
      reads this
      ensures r.Some? <==> key in items
      ensures r.Some? ==> r.value == items[key]
    {
      if key in items then Some(items[key]) else None
    }

    method SetItem(key: string, value: string)
      modifies this
      ensures items == old(items)[key := value]
    {
      items := items[key := value];
    }

    method RemoveItem(key: string)
      modifies this
      ensures items == old(items) - {key}
    {
      items := items - {key};
    }
  }

  /** The request configuration an interceptor receives; only its headers
      matter here. */
  class RequestConfig {
    var headers: map<string, string>

    constructor (headers: map<string, string>)
      ensures this.headers == headers
    {
      this.headers := headers;
    }
  }

  /** The request interceptor: a stored, non-empty session token is sent as a
      bearer token; otherwise the headers are left as they are. */
  method AddAuthorization(storage: BrowserStorage, config: RequestConfig)
    modifies config
    ensures var token := storage.GetItem(TokenKey);
      if Given(token) then config.headers == old(config.headers)["Authorization" := "Bearer " + token.value]
      else config.headers == old(config.headers)
  {
    var token := storage.GetItem(TokenKey);
    if Given(token) {
      config.headers := config.headers["Authorization" := "Bearer " + token.value];
    }
  }

  /** The header the interceptor writes is accepted by the backend's
      middleware for exactly the tokens that verify, provided the token has no
      space, as the tokens the backend issues do. */
  lemma AuthorizationAccepted(token: string, codec: JwtCodec, nowMs: nat)
    requires token != "" && ' ' !in token
    ensures ExtractTokenFromHeader(Some("Bearer " + token)) == Success(token)
    ensures Decide(Some("Bearer " + token), codec, nowMs).Proceed? <==> VerifyInternalToken(codec, token, nowMs).Success?
  {
    ExtractTokenRoundTrip(token);
  }

  /** The navigation target of the window. */
  class Window {
    var href: string

    constructor (href: string)
      ensures this.href == href
    {
      this.href := href;
    }
  }

  /** A failed response, with the HTTP status when there was a response. */
  datatype HttpError = HttpError(status: Option<int>, message: string)

  datatype Settled = Fulfilled(body: Json) | Rejected(error: HttpError)

  /** The response-error interceptor: a 401 forgets the session token and
      sends the browser to the auth page; every error is passed on,
      rejected, unchanged. */
  method OnResponseError(err: HttpError, storage: BrowserStorage, window: Window) returns (r: Settled)
    modifies storage, window
    ensures r == Rejected(err)
    ensures err.status == Some(401) ==> storage.items == old(storage.items) - {TokenKey} && window.href == AuthPage
    ensures err.status != Some(401) ==> storage.items == old(storage.items) && window.href == old(window.href)
  {
    if err.status == Some(401) {
      storage.RemoveItem(TokenKey);
      window.href := AuthPage;
    }
    r := Rejected(err);
  }

  /** A failed response followed by the next request: after a 401 the request
      goes out without an `Authorization` header of the interceptor's; after
      any other error it still carries the stored session. */
  method RequestAfterError(err: HttpError, storage: BrowserStorage, window: Window, config: RequestConfig)
    returns (r: Settled)
    modifies storage, window, config
    ensures r == Rejected(err)
    ensures err.status == Some(401) ==>
      config.headers == old(config.headers) && storage.GetItem(TokenKey) == None && window.href == AuthPage
    ensures var token := old(storage.GetItem(TokenKey));
      err.status != Some(401) && Given(token) ==>
        config.headers == old(config.headers)["Authorization" := "Bearer " + token.value]
  {
    r := OnResponseError(err, storage, window);
    AddAuthorization(storage, config);
  }

  // ---------------------------------------------------------------------------
  // URLSearchParams and the services

  class SearchParams {
    var pairs: seq<(string, string)>

    constructor ()
      ensures pairs == []
    {
      pairs := [];
    }

    method Append(key: string, value: string)
      modifies this
      ensures pairs == old(pairs) + [(key, value)]
    {
      pairs := pairs + [(key, value)];
    }

    function ToString(): string
      reads this
    {
      SerializeParams(pairs)
    }
  }

  /** The parameters `getAuthUrl` sends: each id only when it is non-empty,
      the customer id first. */
  function AuthUrlQuery(customerId: Option<string>, userId: Option<string>): seq<(string, string)> {
    (if Given(customerId) then [("customerId", customerId.value)] else [])
    + (if Given(userId) then [("userId", userId.value)] else [])
  }

  /** The path `getAuthUrl` requests. */
  method GetAuthUrlPath(customerId: Option<string>, userId: Option<string>) returns (path: string)
    ensures path == "/api/auth/url?" + SerializeParams(AuthUrlQuery(customerId, userId))
  {
    var params := new SearchParams();
    if Given(customerId) {
      params.Append("customerId", customerId.value);
    }
    if Given(userId) {
      params.Append("userId", userId.value);
    }
    path := "/api/auth/url?" + params.ToString();
  }

  /** The backend reads back exactly the ids that were given, in order, when
      they are ASCII. */
  lemma AuthUrlQueryRoundTrip(customerId: Option<string>, userId: Option<string>)
    requires customerId.Some? ==> IsAscii(customerId.value)
    requires userId.Some? ==> IsAscii(userId.value)
    ensures ParseQuery(SerializeParams(AuthUrlQuery(customerId, userId))) == AuthUrlQuery(customerId, userId)
    ensures |AuthUrlQuery(customerId, userId)| == (if Given(customerId) then 1 else 0) + (if Given(userId) then 1 else 0)
    ensures Given(customerId) ==> AuthUrlQuery(customerId, userId)[0] == ("customerId", customerId.value)
  {
    var q := AuthUrlQuery(customerId, userId);
    QueryKeysAscii();
    var first: seq<(string, string)> := if Given(customerId) then [("customerId", customerId.value)] else [];
    var second: seq<(string, string)> := if Given(userId) then [("userId", userId.value)] else [];
    AsciiPairsAppend(first, second);
    assert q == first + second;
    SerializeParamsRoundTrip(q);
  }

  lemma QueryKeysAscii()
    ensures IsAscii("customerId") && IsAscii("userId") && IsAscii("limit") && IsAscii("status")
  {
  }

  lemma AsciiPairsAppend(a: seq<(string, string)>, b: seq<(string, string)>)
    requires AsciiPairs(a) && AsciiPairs(b)
    ensures AsciiPairs(a + b)
  {
    var c := a + b;
    forall k | 0 <= k < |c| ensures IsAscii(c[k].0) && IsAscii(c[k].1) {
      if k < |a| {
        assert c[k] == a[k];
      } else {
        assert c[k] == b[k - |a|];
      }
    }
  }

  /** The parameters `getCampaigns` sends: the limit only when it is truthy
      (so not 0), then the status only when it is non-empty. */
  function CampaignsQuery(limit: Option<int>, status: Option<string>): seq<(string, string)> {
    (if limit.Some? && limit.value != 0 then [("limit", IntToString(limit.value))] else [])
    + (if Given(status) then [("status", status.value)] else [])
  }

  /** `/api/campaigns/${customerId}?${params}`. */
  function CampaignsPath(customerId: string, query: string): string {
    "/api/campaigns/" + customerId + "?" + query
  }

  /** `/api/metrics/${customerId}/summary`. */
  function SummaryPath(customerId: string): string {
    "/api/metrics/" + customerId + "/summary"
  }

  /** The path `getCampaigns` requests. */
  method GetCampaignsPath(customerId: string, limit: Option<int>, status: Option<string>) returns (path: string)
    ensures path == CampaignsPath(customerId, SerializeParams(CampaignsQuery(limit, status)))
  {
    var params := new SearchParams();
    if limit.Some? && limit.value != 0 {
      params.Append("limit", IntToString(limit.value));
    }
    if Given(status) {
      params.Append("status", status.value);
    }
    path := CampaignsPath(customerId, params.ToString());
  }

  /** The limit the backend ends up using is the one the client asked for, and
      its default of 50 when the client sent none. */
  lemma CampaignsLimitForwarded(limit: Option<int>, status: Option<string>)
    requires status.Some? ==> IsAscii(status.value)
    ensures var q := CampaignsQuery(limit, status);
      ParseQuery(SerializeParams(q)) == q &&
      if limit.Some? && limit.value != 0 then
        q[0] == ("limit", IntToString(limit.value)) && ParseLimit(Some(q[0].1)) == limit.value
      else
        (forall k :: 0 <= k < |q| ==> q[k].0 != "limit") && ParseLimit(None) == DefaultLimit
  {
    CampaignsQueryRoundTrip(limit, status);
    if limit.Some? && limit.value != 0 {
      ParseLimitRoundTrip(limit.value);
    } else {
      assert "status"[0] != "limit"[0];
    }
  }

  lemma CampaignsQueryRoundTrip(limit: Option<int>, status: Option<string>)
    requires status.Some? ==> IsAscii(status.value)
    ensures ParseQuery(SerializeParams(CampaignsQuery(limit, status))) == CampaignsQuery(limit, status)
  {
    QueryKeysAscii();
    var first: seq<(string, string)> := if limit.Some? && limit.value != 0 then [("limit", IntToString(limit.value))] else [];
    var second: seq<(string, string)> := if Given(status) then [("status", status.value)] else [];
    if limit.Some? && limit.value != 0 {
      IntToStringAscii(limit.value);
    }
    AsciiPairsAppend(first, second);
    assert CampaignsQuery(limit, status) == first + second;
    SerializeParamsRoundTrip(first + second);
  }

  lemma IntToStringAscii(i: int)
    ensures IsAscii(IntToString(i))
  {
    var d := NatToString(if i < 0 then -i else i);
    assert forall k :: 0 <= k < |d| ==> IsDigit(d[k]);
  }

  /** A customer id without `/` or `?` is one path segment after
      `/api/campaigns/`, followed by the query. */
  lemma CampaignsPathSegments(customerId: string, query: string)
    requires '/' !in customerId && '?' !in customerId && '/' !in query
    ensures Split(CampaignsPath(customerId, query), '/') == ["", "api", "campaigns", customerId + "?" + query]
  {
    var last := customerId + "?" + query;
    assert '/' !in last;
    assert '/' !in "api" && '/' !in "campaigns";
    assert CampaignsPath(customerId, query) == "" + "/" + "api" + "/" + "campaigns" + "/" + last;
    SplitFour("", "api", "campaigns", last, '/');
  }

  /** Four segments without the separator, joined by it, split back. */
  lemma SplitFour(a: string, b: string, c: string, d: string, sep: char)
    requires sep !in a && sep !in b && sep !in c && sep !in d
    ensures Split(a + [sep] + b + [sep] + c + [sep] + d, sep) == [a, b, c, d]
  {
    var parts := [a, b, c, d];
    JoinFour(parts, sep);
    SplitJoin(parts, sep);
  }

  /** The same id is the one segment between `/api/metrics/` and
      `/summary`. */
  lemma SummaryPathSegments(customerId: string)
    requires '/' !in customerId
    ensures Split(SummaryPath(customerId), '/') == ["", "api", "metrics", customerId, "summary"]
  {
    assert '/' !in "api" && '/' !in "metrics" && '/' !in "summary";
    assert SummaryPath(customerId) == "" + "/" + "api" + "/" + "metrics" + "/" + customerId + "/" + "summary";
    SplitFive("", "api", "metrics", customerId, "summary", '/');
  }

  /** Five segments without the separator, joined by it, split back. */
  lemma SplitFive(a: string, b: string, c: string, d: string, e: string, sep: char)
    requires sep !in a && sep !in b && sep !in c && sep !in d && sep !in e
    ensures Split(a + [sep] + b + [sep] + c + [sep] + d + [sep] + e, sep) == [a, b, c, d, e]
  {
    var parts := [a, b, c, d, e];
    assert a + [sep] + b + [sep] + c + [sep] + d + [sep] + e == a + [sep] + (b + [sep] + c + [sep] + d + [sep] + e);
    JoinFour(parts[1..], sep);
    assert parts[1..][1..] == parts[2..];
    assert Join(parts, sep) == parts[0] + [sep] + Join(parts[1..], sep);
    SplitJoin(parts, sep);
  }

  lemma JoinFour(parts: seq<string>, sep: char)
    requires |parts| == 4
    ensures Join(parts, sep) == parts[0] + [sep] + parts[1] + [sep] + parts[2] + [sep] + parts[3]
  {
    var t2 := parts[2..];
    assert t2[1..] == [parts[3]];
    assert Join(t2, sep) == parts[2] + [sep] + parts[3];
    var t1 := parts[1..];
    assert t1[1..] == t2;
    assert Join(t1, sep) == parts[1] + [sep] + (parts[2] + [sep] + parts[3]);
  }
}
