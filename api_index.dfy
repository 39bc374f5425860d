/** The serverless entry point of the backend: its CORS origin list, and its
    own stand-alone versions of the auth-URL, callback and campaigns routes
    and of the 404 reply. */
module ApiIndex {
  import opened Wrappers
  import opened Text
  import opened Http
  import opened Url
  import opened Helpers
  import opened AuthService
  import opened AuthRoutes
  import opened CampaignsRoutes

  // ---------------------------------------------------------------------------
  // CORS origins

  const DefaultOrigins: seq<string> := ["http://localhost:3000", "http://localhost:3001", "https://agoravai2-g34t.vercel.app"]

  /** `parts.map(url => url.trim())`. */
  function TrimmedPieces(parts: seq<string>): seq<string> {
    seq(|parts|, i requires 0 <= i < |parts| => Trim(parts[i]))
  }

  /** The `origin` option, given `ALLOWED_ORIGINS`. */
  function CorsOrigins(allowed: Option<string>): seq<string> {
    if Given(allowed) then TrimmedPieces(Split(allowed.value, ',')) else DefaultOrigins
  }

  /** Without a (non-empty) setting the three default origins are used; with
      one there is an origin per comma-separated piece, none containing a
      comma or starting or ending with white space. */
  lemma CorsOriginsShape(allowed: Option<string>)
    ensures !Given(allowed) ==> CorsOrigins(allowed) == DefaultOrigins
    ensures Given(allowed) ==> |CorsOrigins(allowed)| == Count(allowed.value, ',') + 1
    ensures Given(allowed) ==> EachTrimmedPiece(CorsOrigins(allowed))
  {
    if Given(allowed) {
      var parts := Split(allowed.value, ',');
      SplitCount(allowed.value, ',');
      SplitPartsFree(allowed.value, ',');
      forall i | 0 <= i < |parts| ensures TrimmedPiece(Trim(parts[i])) {
        TrimPiece(parts[i]);
      }
    }
  }

  /** No comma, and no white space at either end. */
  predicate TrimmedPiece(o: string) {
    ',' !in o && (o != [] ==> o[0] !in JsWhitespace && o[|o| - 1] !in JsWhitespace)
  }

  lemma TrimPiece(s: string)
    requires ',' !in s
    ensures TrimmedPiece(Trim(s))
  {
    TrimEnds(s);
    var t := TrimStart(s);
    assert forall c :: c in t ==> c in s;
    assert forall c :: c in TrimEnd(t) ==> c in t;
  }

  /** Every origin of the list is a trimmed piece. */
  predicate EachTrimmedPiece(origins: seq<string>) {
    forall i :: 0 <= i < |origins| ==> TrimmedPiece(origins[i])
  }

  /** A list of non-empty origins written out with commas, each a trimmed
      piece, is read back as that list. */
  lemma CorsOriginsRoundTrip(origins: seq<string>)
    requires |origins| >= 1 && origins[0] != []
    requires EachTrimmedPiece(origins)
    ensures CorsOrigins(Some(Join(origins, ','))) == origins
  {
    SplitTrimmedPieces(origins);
    JoinNonEmpty(origins, ',');
  }

  lemma SplitTrimmedPieces(origins: seq<string>)
    requires |origins| >= 1 && EachTrimmedPiece(origins)
    ensures Split(Join(origins, ','), ',') == origins && TrimmedPieces(origins) == origins
  {
    assert forall i :: 0 <= i < |origins| ==> ',' !in origins[i] by {
      forall i | 0 <= i < |origins| ensures ',' !in origins[i] {
        assert TrimmedPiece(origins[i]);
      }
    }
    SplitJoin(origins, ',');
    TrimmedPiecesUnchanged(origins);
  }

  lemma TrimmedPiecesUnchanged(origins: seq<string>)
    requires forall i :: 0 <= i < |origins| ==> TrimmedPiece(origins[i])
    ensures TrimmedPieces(origins) == origins
  {
    forall i | 0 <= i < |origins| ensures Trim(origins[i]) == origins[i] {
      TrimPieceUnchanged(origins[i]);
    }
  }

  lemma TrimPieceUnchanged(o: string)
    requires TrimmedPiece(o)
    ensures Trim(o) == o
  {
    assert TrimStart(o) == o;
  }

  // ---------------------------------------------------------------------------
  // GET /api/auth/url

  const ConfigMissing := "Configuração do Google Ads não encontrada"
  const AuthEndpoint := "https://accounts.google.com/o/oauth2/v2/auth?"
  const RedirectUri := "https://agoravai2-c1w0ap2f2-arthurs-projects-9eaa30c1.vercel.app/api/auth/callback"

  /** The parameters of the URL the handler assembles for a client id, a
      redirect address, a scope and an encoded state, as `key=value` texts in
      the order the template writes them. */
  function AuthUrlSegments(clientId: string, redirectUri: string, scope: string, state: string): seq<string> {
    QuerySegments(clientId, EncodeUriComponent(redirectUri), EncodeUriComponent(scope), state)
  }

  /** The six `key=value` texts for values already encoded. */
  function QuerySegments(clientId: string, encodedRedirect: string, encodedScope: string, state: string): seq<string> {
    ["client_id=" + clientId, "redirect_uri=" + encodedRedirect, "scope=" + encodedScope,
     "response_type=code", "access_type=offline", "state=" + state]
  }

  /** The URL: the endpoint, then the parameters separated by `&`. */
  function AuthUrlText(clientId: string, redirectUri: string, scope: string, state: string): string {
    AuthEndpoint + Join(AuthUrlSegments(clientId, redirectUri, scope, state), '&')
  }

  /** `GET /api/auth/url` with `GOOGLE_ADS_CLIENT_ID` given, at time `nowMs`. */
  function IndexAuthUrl(query: map<string, Json>, clientId: Option<string>, states: StateCodec, nowMs: nat): (r: Reply)
    ensures !Given(clientId) <==> r.status == 500
  {
    if !Given(clientId) then
      Reply(500, JObj([("success", JBool(false)), ("error", JStr(ConfigMissing))]))
    else
      var state := states.encode(UrlState(query, nowMs));
      Reply(200, JObj([("success", JBool(true)), ("data", AuthUrlData(clientId.value, state))]))
  }

  /** The `data` object of the reply: the URL and the instructions. */
  function AuthUrlData(clientId: string, state: string): Json {
    JObj([("authUrl", JStr(AuthUrlText(clientId, RedirectUri, AdwordsScope, state))), ("instructions", JStr(Instructions))])
  }

  /** Without a client id the reply is the configuration error and carries no
      URL. */
  lemma IndexAuthUrlUnconfigured(query: map<string, Json>, clientId: Option<string>, states: StateCodec, nowMs: nat)
    requires !Given(clientId)
    ensures var body := IndexAuthUrl(query, clientId, states, nowMs).body;
      Get(body, "error") == Some(JStr(ConfigMissing)) && Get(body, "data") == None
  {
    LookupAt(IndexAuthUrl(query, clientId, states, nowMs).body.fields, 1);
    LookupMeaning(IndexAuthUrl(query, clientId, states, nowMs).body.fields, "data");
  }

  /** When neither the client id nor the state contains `&`, splitting the
      query of the URL gives the six parameters back in order: client id,
      percent-encoded redirect address, percent-encoded scope, response type,
      access type, and last the state exactly as encoded (it is not
      percent-encoded). */
  lemma AuthUrlParameterOrder(clientId: string, redirectUri: string, scope: string, state: string)
    requires '&' !in clientId && '&' !in state
    ensures var url := AuthUrlText(clientId, redirectUri, scope, state);
      url[..|AuthEndpoint|] == AuthEndpoint &&
      Split(url[|AuthEndpoint|..], '&') == ["client_id=" + clientId, "redirect_uri=" + EncodeUriComponent(redirectUri),
        "scope=" + EncodeUriComponent(scope), "response_type=code", "access_type=offline", "state=" + state]
  {
    var segs := AuthUrlSegments(clientId, redirectUri, scope, state);
    SegmentsWithoutAmpersand(clientId, redirectUri, scope, state);
    SplitJoin(segs, '&');
    var url := AuthUrlText(clientId, redirectUri, scope, state);
    assert url[|AuthEndpoint|..] == Join(segs, '&');
  }

  lemma SegmentsWithoutAmpersand(clientId: string, redirectUri: string, scope: string, state: string)
    requires '&' !in clientId && '&' !in state
    ensures var segs := AuthUrlSegments(clientId, redirectUri, scope, state);
      |segs| >= 1 && forall k :: 0 <= k < |segs| ==> '&' !in segs[k]
  {
    EncodedValue(redirectUri);
    EncodedValue(scope);
    QuerySegmentsWithoutAmpersand(clientId, EncodeUriComponent(redirectUri), EncodeUriComponent(scope), state);
  }

  lemma QuerySegmentsWithoutAmpersand(clientId: string, encodedRedirect: string, encodedScope: string, state: string)
    requires '&' !in clientId && '&' !in encodedRedirect && '&' !in encodedScope && '&' !in state
    ensures var segs := QuerySegments(clientId, encodedRedirect, encodedScope, state);
      |segs| >= 1 && forall k :: 0 <= k < |segs| ==> '&' !in segs[k]
  {
    var segs := QuerySegments(clientId, encodedRedirect, encodedScope, state);
    NoAmpersandJoined("client_id=", clientId);
    NoAmpersandJoined("redirect_uri=", encodedRedirect);
    NoAmpersandJoined("scope=", encodedScope);
    NoAmpersandJoined("state=", state);
    assert '&' !in segs[3] && '&' !in segs[4];
  }

  lemma NoAmpersandJoined(a: string, b: string)
    requires '&' !in a && '&' !in b
    ensures '&' !in a + b
  {
  }

  /** An encoded value holds no `&` nor `=`, and form-decoding it gives an
      ASCII value back. */
  lemma EncodedValue(s: string)
    ensures '&' !in EncodeUriComponent(s) && '=' !in EncodeUriComponent(s)
    ensures IsAscii(s) ==> FormDecode(EncodeUriComponent(s)) == s
  {
    UnreservedLetters();
    EncodedWithout(s, '&');
    EncodedWithout(s, '=');
    if IsAscii(s) {
      UriDecodeEncode(s);
    }
  }

  lemma UnreservedLetters()
    ensures !IsUriUnreserved('&') && !IsUriUnreserved('=')
  {
    assert '&' !in "-_.!~*'()" && '=' !in "-_.!~*'()";
  }

  /** A character that is neither unreserved nor `%` never appears in an
      encoded text. */
  lemma EncodedWithout(s: string, c: char)
    requires !IsUriUnreserved(c) && c != '%'
    ensures c !in EncodeUriComponent(s)
  {
    EncodeUriComponentSafe(s);
  }

  /** With a client id configured the reply succeeds and carries the URL built
      from that client id, the fixed redirect address and scope, and the
      encoded state, with the instructions. */
  lemma IndexAuthUrlData(query: map<string, Json>, clientId: string, states: StateCodec, nowMs: nat)
    requires clientId != []
    ensures IndexAuthUrl(query, Some(clientId), states, nowMs) ==
      Reply(200, JObj([("success", JBool(true)), ("data", AuthUrlData(clientId, states.encode(UrlState(query, nowMs))))]))
  {
  }

  /** That state decodes to the ids the caller gave. */
  lemma IndexAuthUrlState(query: map<string, Json>, states: StateCodec, nowMs: nat)
    requires StateSound(states)
    ensures states.decode(states.encode(UrlState(query, nowMs))) == JsonObject(QueryString(query, "customerId"), QueryString(query, "userId"))
  {
  }

  lemma UriDecodeOneChar(c: char, rest: string)
    requires c as int < 0x80
    ensures FormDecode((if IsUriUnreserved(c) then [c] else PercentBytes(Utf8(c))) + rest) == [c] + FormDecode(rest)
  {
    if IsUriUnreserved(c) {
      PlainDecoded(c, rest);
    } else {
      PercentDecoded(c, rest);
    }
  }

  /** For ASCII text, form-decoding undoes `encodeURIComponent`. */
  lemma {:induction false} UriDecodeEncode(s: string)
    requires IsAscii(s)
    ensures FormDecode(EncodeUriComponent(s)) == s
  {
    if s != [] {
      UriDecodeEncode(s[1..]);
      UriDecodeOneChar(s[0], EncodeUriComponent(s[1..]));
      assert s == [s[0]] + s[1..];
    }
  }

  // ---------------------------------------------------------------------------
  // GET /api/auth/callback (demonstration version)

  const DemoToken := "demo_jwt_token"

  function IndexCallback(query: map<string, Json>): Reply {
    if QueryTruthy(query, "error") then DeniedReply()
    else Reply(200, JObj([("success", JBool(true)),
      ("data", JObj([("message", JStr(CallbackMessage)), ("token", JStr(DemoToken))]))]))
  }

  /** A truthy `error` is a denial; anything else, whatever the code and the
      state, gets the fixed demonstration token. */
  lemma IndexCallbackCases(query: map<string, Json>)
    ensures var r := IndexCallback(query);
      if QueryTruthy(query, "error") then
        r.status == 400 && Get(r.body, "code") == Some(JStr(DeniedCode))
      else
        r.status == 200 && Get(r.body, "data").Some? && Get(Get(r.body, "data").value, "token") == Some(JStr(DemoToken))
  {
    var r := IndexCallback(query);
    if QueryTruthy(query, "error") {
      LookupAt(r.body.fields, 2);
    } else {
      LookupAt(r.body.fields, 1);
      LookupAt(r.body.fields[1].1.fields, 1);
    }
  }

  // ---------------------------------------------------------------------------
  // GET /api/campaigns/:customerId (demonstration version)

  datatype DemoCampaign = DemoCampaign(id: string, name: string, status: string, budget: int,
    impressions: int, clicks: int, cost: real, ctr: string)

  const IndexCampaigns: seq<DemoCampaign> := [
    DemoCampaign("1", "Campanha Black Friday 2024", "ENABLED", 5000, 125000, 6250, 3750.50, "5.00"),
    DemoCampaign("2", "Produtos Eletrônicos", "ENABLED", 3000, 89000, 3560, 2140.25, "4.00")]

  function DemoCampaignJson(c: DemoCampaign): Json {
    JObj([("id", JStr(c.id)), ("name", JStr(c.name)), ("status", JStr(c.status)), ("budget", JNum(c.budget as real)),
      ("impressions", JNum(c.impressions as real)), ("clicks", JNum(c.clicks as real)), ("cost", JNum(c.cost)), ("ctr", JStr(c.ctr))])
  }

  function IndexCampaignsReply(customerId: string): Reply {
    Reply(200, JObj([("success", JBool(true)),
      ("data", JObj([("campaigns", JArr(seq(|IndexCampaigns|, i requires 0 <= i < |IndexCampaigns| => DemoCampaignJson(IndexCampaigns[i])))),
        ("total", JNum(|IndexCampaigns| as real)), ("customerId", JStr(customerId)), ("filters", JObj([]))])),
      ("message", JStr(FoundMessage(|IndexCampaigns|)))]))
  }

  /** The total is the length of the list, the message names it and the
      customer id is echoed, with no filters. */
  lemma IndexCampaignsShape(customerId: string)
    ensures var body := IndexCampaignsReply(customerId).body;
      Get(body, "message") == Some(JStr(FoundMessage(|IndexCampaigns|))) &&
      Get(body, "data").Some? &&
      var data := Get(body, "data").value;
      Get(data, "total") == Some(JNum(|IndexCampaigns| as real)) &&
      Get(data, "customerId") == Some(JStr(customerId)) &&
      Get(data, "filters") == Some(JObj([]))
  {
    var body := IndexCampaignsReply(customerId).body;
    LookupAt(body.fields, 1);
    LookupAt(body.fields, 2);
    var data := body.fields[1].1;
    LookupAt(data.fields, 1);
    LookupAt(data.fields, 2);
    LookupAt(data.fields, 3);
  }

  /** There are two demonstration campaigns, hence the message. */
  lemma IndexCampaignsMessage()
    ensures |IndexCampaigns| == 2 && FoundMessage(|IndexCampaigns|) == "2 campanhas encontradas"
  {
    assert IntToString(2) == "2";
  }

  /** Each demonstration CTR is the backend's own rounding of clicks over
      impressions. */
  lemma IndexCampaignsCtr()
    ensures forall i :: 0 <= i < |IndexCampaigns| ==>
      CalculateCTR(IndexCampaigns[i].clicks, Some(IndexCampaigns[i].impressions)) == IndexCampaigns[i].ctr
  {
    CalculateCTRIs(6250, 125000, 500);
    CalculateCTRIs(3560, 89000, 400);
    assert FormatHundredths(500) == "5.00" by { assert NatToString(5) == "5"; }
    assert FormatHundredths(400) == "4.00" by { assert NatToString(4) == "4"; }
  }

  // ---------------------------------------------------------------------------
  // 404

  const NotFoundMessage := "Endpoint não encontrado"

  function NotFound(originalUrl: string, httpMethod: string): Reply {
    Reply(404, JObj([("error", JStr(NotFoundMessage)), ("path", JStr(originalUrl)), ("method", JStr(httpMethod))]))
  }

  /** The 404 reply names the path and the method that had no route. */
  lemma NotFoundEchoes(originalUrl: string, httpMethod: string)
    ensures var body := NotFound(originalUrl, httpMethod).body;
      Get(body, "error") == Some(JStr(NotFoundMessage)) &&
      Get(body, "path") == Some(JStr(originalUrl)) && Get(body, "method") == Some(JStr(httpMethod))
  {
    var fields := NotFound(originalUrl, httpMethod).body.fields;
    LookupAt(fields, 1);
    LookupAt(fields, 2);
  }
}
