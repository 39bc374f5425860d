/** The backend's authentication service: the options of the OAuth2
    authorisation URL, the exchange of an authorisation code for tokens, the
    session token the backend issues (a JWT), its verification, and the
    parsing of a `Bearer` authorisation header.

    The OAuth2 client and the JWT library are not modelled: the provider's
    answer to a code is an input, and signing and verifying are the two
    functions of a `JwtCodec`, whose expected behaviour `Sound` states. */
module AuthService {
  import opened Wrappers
  import opened Text
  import opened Http

  // ---------------------------------------------------------------------------
  // generateAuthUrl

  const AdwordsScope := "https://www.googleapis.com/auth/adwords"
  const AdwordsReadonlyScope := "https://www.googleapis.com/auth/adwords.readonly"
  const DefaultState := "default"
  const AuthUrlFailed := "Falha ao gerar URL de autenticação"

  /** The options handed to the OAuth2 client's `generateAuthUrl`. */
  datatype AuthUrlOptions = AuthUrlOptions(
    accessType: string, scope: seq<string>, includeGrantedScopes: bool, state: string, prompt: string)

  function AuthUrlRequest(state: Option<string>): (o: AuthUrlOptions)
    ensures o.accessType == "offline" && o.prompt == "consent" && o.includeGrantedScopes
    ensures o.scope == [AdwordsScope, AdwordsReadonlyScope]
    ensures Given(state) ==> o.state == state.value
    ensures !Given(state) ==> o.state == DefaultState
  {
    AuthUrlOptions("offline", [AdwordsScope, AdwordsReadonlyScope], true, OrElse(state, DefaultState), "consent")
  }

  /** `generateAuthUrl(state)`: the client builds the URL from the options; if
      it throws, the service throws its own message instead. */
  function GenerateAuthUrl(buildUrl: AuthUrlOptions -> Result<string, string>, state: Option<string>): (r: Result<string, string>)
    ensures r.Success? <==> buildUrl(AuthUrlRequest(state)).Success?
    ensures r.Success? ==> r.value == buildUrl(AuthUrlRequest(state)).value
    ensures r.Failure? ==> r.error == AuthUrlFailed
  {
    match buildUrl(AuthUrlRequest(state))
    case Success(url) => Success(url)
    case Failure(_) => Failure(AuthUrlFailed)
  }

  /** The state sent to Google is never empty: a missing or empty state is
      replaced, any other passes unchanged. */
  lemma AuthUrlStateNeverEmpty(state: Option<string>)
    ensures AuthUrlRequest(state).state != ""
    ensures AuthUrlRequest(state).state == DefaultState <==> !Given(state) || state.value == DefaultState
  {
  }

  // ---------------------------------------------------------------------------
  // exchangeCodeForTokens

  /** The `tokens` object of the OAuth2 client's answer. */
  datatype ProviderTokens = ProviderTokens(
    accessToken: Option<string>, refreshToken: Option<string>, expiryDate: Option<int>, tokenType: Option<string>)

  datatype Tokens = Tokens(accessToken: Option<string>, refreshToken: string, expiryDate: Option<int>, tokenType: string)

  const ExchangePrefix := "Falha na troca de código por tokens: "
  const NoRefreshToken := "Refresh token não fornecido. Reautenticação necessária."

  /** `exchangeCodeForTokens`, given the client's answer to the code (`Failure`
      carries the message of the error the client threw). */
  function ExchangeCodeForTokens(answer: Result<ProviderTokens, string>): (r: Result<Tokens, string>)
    ensures r.Success? <==> answer.Success? && Given(answer.value.refreshToken)
    ensures r.Failure? ==> |ExchangePrefix| <= |r.error| && r.error[..|ExchangePrefix|] == ExchangePrefix
    ensures r.Success? ==> r.value.refreshToken == answer.value.refreshToken.value
  {
    match answer
    case Failure(m) => Failure(ExchangePrefix + m)
    case Success(t) =>
      if !Given(t.refreshToken) then Failure(ExchangePrefix + NoRefreshToken)
      else Success(Tokens(t.accessToken, t.refreshToken.value, t.expiryDate, OrElse(t.tokenType, "Bearer")))
  }

  /** The two failures and what the success copies: the access token and expiry
      unchanged, the token type defaulting to `Bearer`. */
  lemma ExchangeCodeForTokensCases(answer: Result<ProviderTokens, string>)
    ensures answer.Failure? ==> ExchangeCodeForTokens(answer) == Failure(ExchangePrefix + answer.error)
    ensures answer.Success? && !Given(answer.value.refreshToken) ==>
      ExchangeCodeForTokens(answer) == Failure(ExchangePrefix + NoRefreshToken)
    ensures answer.Success? && Given(answer.value.refreshToken) ==>
      var t, r := answer.value, ExchangeCodeForTokens(answer).value;
      r.accessToken == t.accessToken && r.expiryDate == t.expiryDate &&
      r.tokenType == (if Given(t.tokenType) then t.tokenType.value else "Bearer")
  {
  }

  // ---------------------------------------------------------------------------
  // the session token

  /** What the caller supplies for a session. */
  datatype UserData = UserData(userId: Option<string>, customerId: Option<string>, refreshToken: Option<string>)

  /** The claims of a session token; `timestamp` is in milliseconds. */
  datatype Payload = Payload(userId: string, customerId: Option<string>, refreshToken: Option<string>, timestamp: int)

  /** `jwt.sign(payload, secret, { expiresIn: '24h' })` with the issue time in
      seconds (`None` when signing throws), and `jwt.verify(token, secret)` at
      a time in seconds (`Failure` carries the name of the error thrown). */
  datatype JwtCodec = JwtCodec(sign: (Payload, int) -> Option<string>, verify: (string, int) -> Result<Payload, string>)

  /** `expiresIn: '24h'`. */
  const SessionSeconds := 86400

  /** What the JWT library guarantees: a signed token is a non-empty string
      without spaces that verifies to its payload until it is 24 hours old and
      fails with `TokenExpiredError` from then on. */
  ghost predicate Sound(codec: JwtCodec) {
    forall p: Payload, issued: int :: codec.sign(p, issued).Some? ==> SignedWell(codec, p, issued, codec.sign(p, issued).value)
  }

  ghost predicate SignedWell(codec: JwtCodec, p: Payload, issued: int, token: string) {
    token != "" && ' ' !in token &&
    forall now: int :: codec.verify(token, now) ==
      if now < issued + SessionSeconds then Success(p) else Failure("TokenExpiredError")
  }

  const SignFailed := "Falha ao gerar token de sessão"
  const TokenExpired := "Token expirado"
  const TokenInvalid := "Token inválido"
  const VerifyFailed := "Falha na verificação do token"

  /** The claims `generateInternalToken` signs at time `nowMs`. */
  function SessionPayload(user: UserData, nowMs: nat): (p: Payload)
    ensures p.userId == if Given(user.userId) then user.userId.value else "anonymous"
    ensures p.customerId == user.customerId && p.refreshToken == user.refreshToken
  {
    Payload(OrElse(user.userId, "anonymous"), user.customerId, user.refreshToken, nowMs)
  }

  /** `generateInternalToken(userData)` at time `nowMs`. */
  function GenerateInternalToken(codec: JwtCodec, user: UserData, nowMs: nat): (r: Result<string, string>)
    ensures r.Failure? ==> r.error == SignFailed
    ensures r.Success? <==> codec.sign(SessionPayload(user, nowMs), nowMs / 1000).Some?
  {
    match codec.sign(SessionPayload(user, nowMs), nowMs / 1000)
    case Some(token) => Success(token)
    case None => Failure(SignFailed)
  }

  /** The message `verifyInternalToken` throws for the error the library threw. */
  function VerifyMessage(errorName: string): (m: string)
    ensures m in {TokenExpired, TokenInvalid, VerifyFailed}
    ensures (m == TokenExpired) <==> errorName == "TokenExpiredError"
    ensures (m == TokenInvalid) <==> errorName == "JsonWebTokenError"
  {
    if errorName == "TokenExpiredError" then TokenExpired
    else if errorName == "JsonWebTokenError" then TokenInvalid
    else VerifyFailed
  }

  /** `verifyInternalToken(token)` at time `nowMs`. */
  function VerifyInternalToken(codec: JwtCodec, token: string, nowMs: nat): (r: Result<Payload, string>)
    ensures r.Success? <==> codec.verify(token, nowMs / 1000).Success?
    ensures r.Success? ==> r.value == codec.verify(token, nowMs / 1000).value
    ensures r.Failure? ==> r.error == VerifyMessage(codec.verify(token, nowMs / 1000).error)
  {
    match codec.verify(token, nowMs / 1000)
    case Success(p) => Success(p)
    case Failure(name) => Failure(VerifyMessage(name))
  }

  /** A session token issued at `issuedMs` verifies, at `nowMs`, to the claims
      it was issued with while it is younger than 24 hours (counted in whole
      seconds, as the library does), and is reported expired afterwards. */
  lemma SessionRoundTrip(codec: JwtCodec, user: UserData, issuedMs: nat, nowMs: nat)
    requires Sound(codec)
    requires GenerateInternalToken(codec, user, issuedMs).Success?
    ensures var token := GenerateInternalToken(codec, user, issuedMs).value;
      VerifyInternalToken(codec, token, nowMs) ==
        if nowMs / 1000 < issuedMs / 1000 + SessionSeconds then Success(SessionPayload(user, issuedMs))
        else Failure(TokenExpired)
    ensures ' ' !in GenerateInternalToken(codec, user, issuedMs).value
  {
    var p := SessionPayload(user, issuedMs);
    assert SignedWell(codec, p, issuedMs / 1000, codec.sign(p, issuedMs / 1000).value);
  }

  // ---------------------------------------------------------------------------
  // extractTokenFromHeader

  const HeaderMissing := "Header de autorização não fornecido"
  const HeaderMalformed := "Formato de autorização inválido. Use: Bearer <token>"

  /** `extractTokenFromHeader(authHeader)`. */
  function ExtractTokenFromHeader(header: Option<string>): (r: Result<string, string>)
    ensures !Given(header) ==> r == Failure(HeaderMissing)
    ensures Given(header) && r.Failure? ==> r.error == HeaderMalformed
  {
    if !Given(header) then Failure(HeaderMissing)
    else
      var parts := Split(header.value, ' ');
      if |parts| != 2 || parts[0] != "Bearer" then Failure(HeaderMalformed)
      else Success(parts[1])
  }

  /** A header yields token `t` exactly when it is `Bearer`, one space, and a
      `t` that has no space in it. */
  lemma ExtractTokenMeaning(header: string, t: string)
    ensures ExtractTokenFromHeader(Some(header)) == Success(t) <==> header == "Bearer " + t && ' ' !in t
  {
    if header == "Bearer " + t && ' ' !in t {
      assert header == "Bearer" + [' '] + t;
      SplitPrefix("Bearer", t, ' ');
      SplitFree(t, ' ');
    }
    if ExtractTokenFromHeader(Some(header)) == Success(t) {
      var parts := Split(header, ' ');
      JoinSplit(header, ' ');
      SplitPartsFree(header, ' ');
      assert parts == [parts[0], parts[1]];
      assert Join(parts, ' ') == parts[0] + [' '] + parts[1];
      assert ' ' !in parts[1];
    }
  }

  /** The round trip with the client's interceptor: `"Bearer " + t` gives `t`
      back for any token without spaces, the empty token included. */
  lemma ExtractTokenRoundTrip(t: string)
    requires ' ' !in t
    ensures ExtractTokenFromHeader(Some("Bearer " + t)) == Success(t)
    ensures ExtractTokenFromHeader(Some("Bearer ")) == Success("")
  {
    ExtractTokenMeaning("Bearer " + t, t);
    ExtractTokenMeaning("Bearer ", "");
    assert "Bearer " + "" == "Bearer ";
  }

  /** The scheme is case-sensitive, and exactly one space is allowed. */
  lemma ExtractTokenRejects()
    ensures ExtractTokenFromHeader(Some("bearer x")) == Failure(HeaderMalformed)
    ensures ExtractTokenFromHeader(Some("Bearer  x")) == Failure(HeaderMalformed)
    ensures ExtractTokenFromHeader(Some("Bearer x y")) == Failure(HeaderMalformed)
  {
    RejectsLowerCase();
    RejectsDoubleSpace();
    RejectsThreeParts();
  }

  lemma RejectsLowerCase()
    ensures ExtractTokenFromHeader(Some("bearer x")) == Failure(HeaderMalformed)
  {
    assert "bearer x" == "bearer" + [' '] + "x";
    SplitPrefix("bearer", "x", ' ');
    SplitFree("x", ' ');
  }

  lemma RejectsDoubleSpace()
    ensures ExtractTokenFromHeader(Some("Bearer  x")) == Failure(HeaderMalformed)
  {
    assert "Bearer  x" == "Bearer" + [' '] + " x";
    SplitPrefix("Bearer", " x", ' ');
    assert " x" == "" + [' '] + "x";
    SplitPrefix("", "x", ' ');
    SplitFree("x", ' ');
  }

  lemma RejectsThreeParts()
    ensures ExtractTokenFromHeader(Some("Bearer x y")) == Failure(HeaderMalformed)
  {
    assert "Bearer x y" == "Bearer" + [' '] + "x y";
    SplitPrefix("Bearer", "x y", ' ');
    assert "x y" == "x" + [' '] + "y";
    SplitPrefix("x", "y", ' ');
    SplitFree("y", ' ');
  }

  /** A non-empty header that fails is rejected with the format message. */
  lemma RejectsAllBut(header: string)
    requires header != "" && !(|header| >= 7 && header[..7] == "Bearer " && ' ' !in header[7..])
    ensures ExtractTokenFromHeader(Some(header)) == Failure(HeaderMalformed)
  {
    var r := ExtractTokenFromHeader(Some(header));
    if r.Success? {
      ExtractTokenMeaning(header, r.value);
    }
  }
}
