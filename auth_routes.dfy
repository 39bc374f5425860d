/** The authentication routes of the backend: `/url` encodes the caller's
    customer and user ids in the OAuth2 state, `/callback` exchanges the code
    Google returns and issues a session token for the identity recovered from
    the state, and `/login` issues a session token for a refresh token the
    caller already holds.

    The state is base64 of JSON. Its encoder and decoder are the two functions
    of a `StateCodec`; `StateSound` states what they guarantee. */
module AuthRoutes {
  import opened Wrappers
  import opened Http
  import opened AuthService

  // ---------------------------------------------------------------------------
  // the state parameter

  /** The object `/url` serialises: `{ customerId, userId, timestamp }`.
      A missing id is `undefined`, which `JSON.stringify` leaves out. */
  datatype StateObject = StateObject(customerId: Option<string>, userId: Option<string>, timestamp: int)

  /** What `JSON.parse(Buffer.from(state, 'base64').toString())` gives: it
      throws on text that is not JSON; otherwise a value that is `null`,
      something that is not an object, or an object with (string) ids. */
  datatype StateParse = NotJson | JsonNull | NonObject | JsonObject(customerId: Option<string>, userId: Option<string>)

  datatype StateCodec = StateCodec(encode: StateObject -> string, decode: string -> StateParse)

  /** Base64 of JSON: decoding an encoded object gives back its ids, and the
      encoding is a non-empty whole number of base64 quanta (four
      characters each). */
  ghost predicate StateSound(codec: StateCodec) {
    forall s: StateObject :: codec.decode(codec.encode(s)) == JsonObject(s.customerId, s.userId) &&
      |codec.encode(s)| > 0 && |codec.encode(s)| % 4 == 0
  }

  /** An encoded state is never the `"default"` placeholder (seven characters
      are not a whole number of quanta), nor empty. */
  lemma EncodedStateIsNotDefault(codec: StateCodec, s: StateObject)
    requires StateSound(codec)
    ensures codec.encode(s) != DefaultState && codec.encode(s) != ""
  {
    assert |DefaultState| == 7;
  }

  // ---------------------------------------------------------------------------
  // GET /url

  const Instructions := "Acesse a URL para autorizar o acesso ao Google Ads"

  function UrlState(query: map<string, Json>, nowMs: nat): StateObject {
    StateObject(QueryString(query, "customerId"), QueryString(query, "userId"), nowMs)
  }

  /** The success reply of `/url`: the authorisation URL and the instructions. */
  function AuthUrlReply(url: string): Reply {
    Reply(200, JObj([("success", JBool(true)),
      ("data", JObj([("authUrl", JStr(url)), ("instructions", JStr(Instructions))]))]))
  }

  /** `GET /url` at time `nowMs`: the answer carries the URL the OAuth2 client
      built for the encoded state; when the client fails, the service's
      message is thrown. */
  function AuthUrlRoute(query: map<string, Json>, buildUrl: AuthUrlOptions -> Result<string, string>, states: StateCodec, nowMs: nat): (h: Handled)
    ensures h.Threw? ==> h.message == AuthUrlFailed
    ensures h.Replied? ==> h.reply.status == 200
    ensures var built := buildUrl(AuthUrlRequest(Some(states.encode(UrlState(query, nowMs)))));
      built.Success? ==> h == Replied(AuthUrlReply(built.value))
    ensures var built := buildUrl(AuthUrlRequest(Some(states.encode(UrlState(query, nowMs)))));
      built.Failure? ==> h == Threw(AuthUrlFailed)
  {
    var state := states.encode(UrlState(query, nowMs));
    match GenerateAuthUrl(buildUrl, Some(state))
    case Failure(m) => Threw(m)
    case Success(url) => Replied(AuthUrlReply(url))
  }

  /** The `/url` reply is 200 with `success`, and data holding the URL and the
      instructions. */
  lemma AuthUrlReplyFields(url: string)
    ensures var r := AuthUrlReply(url);
      r.status == 200 && Get(r.body, "success") == Some(JBool(true)) && Get(r.body, "data").Some?
    ensures var data := Get(AuthUrlReply(url).body, "data").value;
      Get(data, "authUrl") == Some(JStr(url)) && Get(data, "instructions") == Some(JStr(Instructions))
  {
    var fields := AuthUrlReply(url).body.fields;
    LookupAt(fields, 0);
    LookupAt(fields, 1);
    var data := fields[1].1.fields;
    LookupAt(data, 0);
    LookupAt(data, 1);
  }

  /** The URL is requested with the encoded state itself, never the default. */
  lemma AuthUrlRouteState(query: map<string, Json>, buildUrl: AuthUrlOptions -> Result<string, string>, states: StateCodec, nowMs: nat)
    requires StateSound(states)
    ensures AuthUrlRequest(Some(states.encode(UrlState(query, nowMs)))).state == states.encode(UrlState(query, nowMs))
    ensures AuthUrlRoute(query, buildUrl, states, nowMs).Replied? <==>
      buildUrl(AuthUrlRequest(Some(states.encode(UrlState(query, nowMs))))).Success?
  {
    EncodedStateIsNotDefault(states, UrlState(query, nowMs));
  }

  // ---------------------------------------------------------------------------
  // GET /callback

  const DeniedMessage := "Autorização negada pelo usuário"
  const DeniedCode := "AUTHORIZATION_DENIED"
  const CallbackMessage := "Autenticação realizada com sucesso"
  /** The TypeError of reading `userId` of `null`. */
  const NullStateError := "Cannot read properties of null (reading 'userId')"

  function DeniedReply(): Reply {
    Reply(400, JObj([("success", JBool(false)), ("error", JStr(DeniedMessage)), ("code", JStr(DeniedCode))]))
  }

  /** A call the handler makes to a service it does not control. */
  datatype ExternalCall = Exchange(code: Option<string>) | Sign(payload: Payload)

  /** `stateData` once the `try` is done: the configured default unless a state
      other than `"default"` was given and parsed as JSON. */
  function ResolvedState(state: Option<string>, states: StateCodec, defaultCustomer: Option<string>): StateParse {
    if Given(state) && state.value != DefaultState && !states.decode(state.value).NotJson? then
      states.decode(state.value)
    else JsonObject(defaultCustomer, None)
  }

  function StateCustomerId(d: StateParse): Option<string> {
    if d.JsonObject? then d.customerId else None
  }

  function StateUserId(d: StateParse): Option<string> {
    if d.JsonObject? then d.userId else None
  }

  /** The identity the session is issued for. */
  function CallbackUser(d: StateParse, defaultCustomer: Option<string>, refreshToken: string): (u: UserData)
    ensures u.userId == Some(OrElse(StateUserId(d), "anonymous"))
    ensures u.customerId == (if Given(StateCustomerId(d)) then StateCustomerId(d) else defaultCustomer)
    ensures u.refreshToken == Some(refreshToken)
  {
    UserData(Some(OrElse(StateUserId(d), "anonymous")),
      if Given(StateCustomerId(d)) then StateCustomerId(d) else defaultCustomer,
      Some(refreshToken))
  }

  function CallbackData(token: string, tokens: Tokens, customerId: Option<string>): Json {
    JObj([("accessToken", JStr(token)), ("refreshToken", JStr(tokens.refreshToken)), ("expiresIn", JStr("24h"))]
      + Member("customerId", StrJson(customerId)) + [("tokenType", JStr("Bearer"))])
  }

  function CallbackReply(token: string, tokens: Tokens, customerId: Option<string>): Reply {
    Reply(200, JObj([("success", JBool(true)), ("data", CallbackData(token, tokens, customerId)),
      ("message", JStr(CallbackMessage))]))
  }

  /** `GET /callback` at time `nowMs`, with the OAuth2 client's answer to a
      code, the JWT codec, the state codec and `GOOGLE_ADS_CUSTOMER_ID`. It
      returns how it ended and the external calls it made, in order. */
  method Callback(
    query: map<string, Json>, res: Response,
    exchange: Option<string> -> Result<ProviderTokens, string>, jwt: JwtCodec, states: StateCodec,
    defaultCustomer: Option<string>, nowMs: nat)
    returns (handled: Handled, calls: seq<ExternalCall>)
    modifies res
    ensures handled.Replied? ==> res.replies == old(res.replies) + [handled.reply]
    ensures handled.Threw? ==> res.replies == old(res.replies)
    // a denial is answered at once, with no exchange and no token
    ensures QueryTruthy(query, "error") ==> handled == Replied(DeniedReply()) && calls == []
    // otherwise the code is exchanged first
    ensures !QueryTruthy(query, "error") ==> |calls| >= 1 && calls[0] == Exchange(QueryString(query, "code"))
    ensures !QueryTruthy(query, "error") ==>
      var answer := ExchangeCodeForTokens(exchange(QueryString(query, "code")));
      var d := ResolvedState(QueryString(query, "state"), states, defaultCustomer);
      if answer.Failure? then handled == Threw(answer.error) && calls == [Exchange(QueryString(query, "code"))]
      else if d.JsonNull? then handled == Threw(NullStateError) && calls == [Exchange(QueryString(query, "code"))]
      else
        var user := CallbackUser(d, defaultCustomer, answer.value.refreshToken);
        var session := GenerateInternalToken(jwt, user, nowMs);
        calls == [Exchange(QueryString(query, "code")), Sign(SessionPayload(user, nowMs))] &&
        handled == if session.Failure? then Threw(session.error)
          else Replied(CallbackReply(session.value, answer.value, user.customerId))
  {
    var code, state := QueryString(query, "code"), QueryString(query, "state");
    if QueryTruthy(query, "error") {
      res.Send(DeniedReply().status, DeniedReply().body);
      return Replied(DeniedReply()), [];
    }
    calls := [Exchange(code)];
    var tokens := ExchangeCodeForTokens(exchange(code));
    if tokens.Failure? {
      return Threw(tokens.error), calls;
    }
    var stateData := JsonObject(defaultCustomer, None);
    if Given(state) && state.value != DefaultState {
      var parsed := states.decode(state.value);
      if !parsed.NotJson? {
        stateData := parsed;
      }
    }
    if stateData.JsonNull? {
      return Threw(NullStateError), calls;
    }
    var user := CallbackUser(stateData, defaultCustomer, tokens.value.refreshToken);
    calls := calls + [Sign(SessionPayload(user, nowMs))];
    var session := GenerateInternalToken(jwt, user, nowMs);
    if session.Failure? {
      return Threw(session.error), calls;
    }
    var reply := CallbackReply(session.value, tokens.value, user.customerId);
    res.Send(reply.status, reply.body);
    handled := Replied(reply);
  }

  /** No state, an empty one, or `"default"` resolves to the configured
      customer; so does a state that is not JSON, without any error. */
  lemma ResolvedStateFallback(state: Option<string>, states: StateCodec, defaultCustomer: Option<string>)
    ensures !Given(state) || state.value == DefaultState ==>
      ResolvedState(state, states, defaultCustomer) == JsonObject(defaultCustomer, None)
    ensures Given(state) && states.decode(state.value).NotJson? ==>
      ResolvedState(state, states, defaultCustomer) == JsonObject(defaultCustomer, None)
  {
  }

  /** The identity: the state's user id or `anonymous`, the state's customer id
      or the configured one, and the refresh token of the exchange. */
  lemma CallbackIdentity(d: StateParse, defaultCustomer: Option<string>, refreshToken: string, nowMs: nat)
    ensures var p := SessionPayload(CallbackUser(d, defaultCustomer, refreshToken), nowMs);
      p.userId == OrElse(StateUserId(d), "anonymous") &&
      p.customerId == (if Given(StateCustomerId(d)) then StateCustomerId(d) else defaultCustomer) &&
      p.refreshToken == Some(refreshToken)
  {
  }

  /** The success body: the session token, the refresh token echoed,
      `expiresIn` 24h, token type `Bearer`, and the resolved customer id. */
  lemma CallbackReplyFields(token: string, tokens: Tokens, customerId: Option<string>)
    ensures var r := CallbackReply(token, tokens, customerId);
      r.status == 200 && Get(r.body, "success") == Some(JBool(true)) &&
      Get(r.body, "data") == Some(CallbackData(token, tokens, customerId))
    ensures var data := CallbackData(token, tokens, customerId);
      Get(data, "accessToken") == Some(JStr(token)) &&
      Get(data, "refreshToken") == Some(JStr(tokens.refreshToken)) &&
      Get(data, "expiresIn") == Some(JStr("24h")) &&
      Get(data, "tokenType") == Some(JStr("Bearer")) &&
      Get(data, "customerId") == StrJson(customerId)
  {
    var r := CallbackReply(token, tokens, customerId);
    LookupAt(r.body.fields, 0);
    LookupAt(r.body.fields, 1);
    CallbackDataFields(token, tokens, customerId);
  }

  lemma CallbackDataFields(token: string, tokens: Tokens, customerId: Option<string>)
    ensures var data := CallbackData(token, tokens, customerId);
      Get(data, "accessToken") == Some(JStr(token)) &&
      Get(data, "refreshToken") == Some(JStr(tokens.refreshToken)) &&
      Get(data, "expiresIn") == Some(JStr("24h")) &&
      Get(data, "tokenType") == Some(JStr("Bearer")) &&
      Get(data, "customerId") == StrJson(customerId)
  {
    var f := CallbackData(token, tokens, customerId).fields;
    var head := [("accessToken", JStr(token)), ("refreshToken", JStr(tokens.refreshToken)), ("expiresIn", JStr("24h"))];
    var tail := [("tokenType", JStr("Bearer"))];
    if customerId.Some? {
      assert f == head + [("customerId", JStr(customerId.value))] + tail;
      LookupAt(f, 3);
      LookupAt(f, 4);
    } else {
      assert f == head + tail;
      LookupAt(f, 3);
      LookupMeaning(f, "customerId");
    }
    LookupAt(f, 0);
    LookupAt(f, 1);
    LookupAt(f, 2);
  }

  /** The state `/url` builds is recovered by `/callback`: the session is
      issued for the customer and user ids of the `/url` request (with the
      usual defaults when they were absent or empty). */
  lemma UrlStateRoundTrip(query: map<string, Json>, states: StateCodec, defaultCustomer: Option<string>, nowMs: nat)
    requires StateSound(states)
    ensures var s := UrlState(query, nowMs);
      var d := ResolvedState(Some(states.encode(s)), states, defaultCustomer);
      d == JsonObject(QueryString(query, "customerId"), QueryString(query, "userId")) &&
      StateUserId(d) == QueryString(query, "userId") && StateCustomerId(d) == QueryString(query, "customerId")
  {
    EncodedStateIsNotDefault(states, UrlState(query, nowMs));
  }

  // ---------------------------------------------------------------------------
  // POST /login

  const MissingFieldsMessage := "Refresh token e Customer ID são obrigatórios"
  const MissingFieldsCode := "MISSING_REQUIRED_FIELDS"
  const LoginMessage := "Login realizado com sucesso"

  function MissingFieldsReply(): Reply {
    Reply(400, JObj([("success", JBool(false)), ("error", JStr(MissingFieldsMessage)), ("code", JStr(MissingFieldsCode))]))
  }

  /** A member of the body is truthy (present, and not `false`, `0`, `""` or
      `null`), whatever its type. */
  predicate BodyTruthy(body: Json, key: string) {
    Get(body, key).Some? && Truthy(Get(body, key).value)
  }

  /** `{ userId: userId || 'anonymous', customerId, refreshToken }`; the
      session claims are strings, so only string members are carried. */
  function LoginUser(body: Json): (u: UserData)
    ensures u.userId == Some(OrElse(BodyString(body, "userId"), "anonymous"))
    ensures u.customerId == BodyString(body, "customerId") && u.refreshToken == BodyString(body, "refreshToken")
  {
    UserData(Some(OrElse(BodyString(body, "userId"), "anonymous")), BodyString(body, "customerId"), BodyString(body, "refreshToken"))
  }

  /** The success reply: the session token and the customer id as sent. */
  function LoginReply(token: string, customerId: Json): Reply {
    Reply(200, JObj([("success", JBool(true)),
      ("data", JObj([("accessToken", JStr(token)), ("customerId", customerId),
        ("expiresIn", JStr("24h")), ("tokenType", JStr("Bearer"))])),
      ("message", JStr(LoginMessage))]))
  }

  /** `POST /login` at time `nowMs` with the parsed body. */
  function Login(body: Json, jwt: JwtCodec, nowMs: nat): (h: Handled)
    ensures h.Threw? ==> h.message == SignFailed
  {
    if !BodyTruthy(body, "refreshToken") || !BodyTruthy(body, "customerId") then Replied(MissingFieldsReply())
    else
      match GenerateInternalToken(jwt, LoginUser(body), nowMs)
      case Failure(m) => Threw(m)
      case Success(token) => Replied(LoginReply(token, Get(body, "customerId").value))
  }

  /** Without a truthy refresh token or customer id the answer is 400
      `MISSING_REQUIRED_FIELDS`, whatever the signer: no token is made. */
  lemma LoginMissingFields(body: Json, jwt1: JwtCodec, jwt2: JwtCodec, t1: nat, t2: nat)
    requires !BodyTruthy(body, "refreshToken") || !BodyTruthy(body, "customerId")
    ensures Login(body, jwt1, t1) == Login(body, jwt2, t2) == Replied(MissingFieldsReply())
    ensures MissingFieldsReply().status == 400
  {
  }

  /** With both fields truthy a session is signed for the body's identity:
      the reply is the login reply for the signed token and the customer id
      sent, or, when signing fails, the signing error is thrown. */
  lemma LoginIssues(body: Json, jwt: JwtCodec, nowMs: nat)
    requires BodyTruthy(body, "refreshToken") && BodyTruthy(body, "customerId")
    ensures var session := GenerateInternalToken(jwt, LoginUser(body), nowMs);
      Login(body, jwt, nowMs) ==
        if session.Success? then Replied(LoginReply(session.value, Get(body, "customerId").value))
        else Threw(SignFailed)
  {
  }

  /** A numeric customer id is accepted: the body
      `{"refreshToken": "r", "customerId": 1234567890}` is signed for and
      answered with the number echoed, never with 400. */
  lemma LoginNumericCustomerId(jwt: JwtCodec, nowMs: nat)
    ensures var body := JObj([("refreshToken", JStr("r")), ("customerId", JNum(1234567890.0))]);
      Login(body, jwt, nowMs) != Replied(MissingFieldsReply()) &&
      (Login(body, jwt, nowMs).Replied? ==>
        Login(body, jwt, nowMs).reply.status == 200 &&
        Login(body, jwt, nowMs).reply == LoginReply(GenerateInternalToken(jwt, LoginUser(body), nowMs).value, JNum(1234567890.0)))
  {
    var body := JObj([("refreshToken", JStr("r")), ("customerId", JNum(1234567890.0))]);
    LookupAt(body.fields, 0);
    LookupAt(body.fields, 1);
    LoginIssues(body, jwt, nowMs);
  }

  /** The login reply is 200 with `success`, the message, and data holding
      the session token, the customer id, `expiresIn` 24h and token type
      `Bearer`, and never the refresh token. */
  lemma LoginReplyFields(token: string, customerId: Json)
    ensures var r := LoginReply(token, customerId);
      r.status == 200 && Get(r.body, "success") == Some(JBool(true)) &&
      Get(r.body, "message") == Some(JStr(LoginMessage)) && Get(r.body, "data").Some?
    ensures var data := Get(LoginReply(token, customerId).body, "data").value;
      Get(data, "accessToken") == Some(JStr(token)) && Get(data, "customerId") == Some(customerId) &&
      Get(data, "expiresIn") == Some(JStr("24h")) && Get(data, "tokenType") == Some(JStr("Bearer")) &&
      Get(data, "refreshToken") == None
  {
    var fields := LoginReply(token, customerId).body.fields;
    LookupAt(fields, 0);
    LookupAt(fields, 1);
    LookupAt(fields, 2);
    var data := fields[1].1.fields;
    LookupAt(data, 0);
    LookupAt(data, 1);
    LookupAt(data, 2);
    LookupAt(data, 3);
    LookupMeaning(data, "refreshToken");
  }

  /** The access token of a successful login verifies, for 24 hours, to the
      identity in the body: its user id or `anonymous`, its customer id and
      its refresh token; afterwards it is reported expired. */
  lemma LoginSessionRoundTrip(body: Json, jwt: JwtCodec, issuedMs: nat, nowMs: nat)
    requires Sound(jwt)
    requires Login(body, jwt, issuedMs).Replied? && Login(body, jwt, issuedMs).reply.status == 200
    ensures var data := Get(Login(body, jwt, issuedMs).reply.body, "data");
      data.Some? && Get(data.value, "accessToken").Some? && Get(data.value, "accessToken").value.JStr?
    ensures var token := Get(Get(Login(body, jwt, issuedMs).reply.body, "data").value, "accessToken").value.s;
      var r := VerifyInternalToken(jwt, token, nowMs);
      if nowMs / 1000 < issuedMs / 1000 + SessionSeconds then
        r.Success? && r.value.userId == OrElse(BodyString(body, "userId"), "anonymous") &&
        r.value.customerId == BodyString(body, "customerId") &&
        r.value.refreshToken == BodyString(body, "refreshToken") && r.value.timestamp == issuedMs
      else r == Failure(TokenExpired)
  {
    assert BodyTruthy(body, "refreshToken") && BodyTruthy(body, "customerId");
    var session := GenerateInternalToken(jwt, LoginUser(body), issuedMs);
    LoginIssues(body, jwt, issuedMs);
    assert session.Success?;
    LoginReplyFields(session.value, Get(body, "customerId").value);
    SessionRoundTrip(jwt, LoginUser(body), issuedMs, nowMs);
  }
}
