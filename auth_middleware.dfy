/** The authentication middleware: a request passes with `req.user` set from
    the verified session token, or is answered with a single 401. */
module AuthMiddleware {
  import opened Wrappers
  import opened Http
  import opened AuthService

  const MissingToken := "Token de autorização requerido"
  const MissingTokenCode := "MISSING_AUTH_TOKEN"
  const InvalidTokenCode := "INVALID_TOKEN"

  datatype Outcome = Proceed(user: User) | Reject(reply: Reply)

  /** The outcome for an `Authorization` header at time `nowMs`. */
  function Decide(header: Option<string>, codec: JwtCodec, nowMs: nat): (o: Outcome)
    ensures o.Reject? ==> o.reply.status == 401
    ensures !Given(header) ==> o == Reject(Reply(401, ErrorBody(MissingToken, MissingTokenCode)))
  {
    if !Given(header) then Reject(Reply(401, ErrorBody(MissingToken, MissingTokenCode)))
    else
      match ExtractTokenFromHeader(header)
      case Failure(m) => Reject(Reply(401, ErrorBody(m, InvalidTokenCode)))
      case Success(token) =>
        match VerifyInternalToken(codec, token, nowMs)
        case Failure(m) => Reject(Reply(401, ErrorBody(m, InvalidTokenCode)))
        case Success(p) => Proceed(User(p.userId, p.customerId, p.refreshToken))
  }

  /** A given header passes exactly when it is `Bearer ` and a space-free token
      that verifies; the user is then the three claims of that token. */
  lemma DecideProceeds(header: string, codec: JwtCodec, nowMs: nat)
    requires header != ""
    ensures Decide(Some(header), codec, nowMs).Proceed? <==>
      |header| >= 7 && header[..7] == "Bearer " && ' ' !in header[7..] &&
      VerifyInternalToken(codec, header[7..], nowMs).Success?
    ensures Decide(Some(header), codec, nowMs).Proceed? ==>
      var p := VerifyInternalToken(codec, header[7..], nowMs).value;
      Decide(Some(header), codec, nowMs).user == User(p.userId, p.customerId, p.refreshToken)
  {
    var e := ExtractTokenFromHeader(Some(header));
    if e.Success? {
      ExtractTokenMeaning(header, e.value);
      assert header[7..] == e.value;
    }
    if |header| >= 7 && header[..7] == "Bearer " && ' ' !in header[7..] {
      assert header == "Bearer " + header[7..];
      ExtractTokenMeaning(header, header[7..]);
    }
  }

  /** A given header that does not pass gets `INVALID_TOKEN` with the message
      of the failure: a malformed header or one of the verification messages. */
  lemma DecideRejects(header: string, codec: JwtCodec, nowMs: nat)
    requires header != "" && Decide(Some(header), codec, nowMs).Reject?
    ensures var body := Decide(Some(header), codec, nowMs).reply.body;
      Get(body, "code") == Some(JStr(InvalidTokenCode)) &&
      exists m :: m in {HeaderMalformed, TokenExpired, TokenInvalid, VerifyFailed} && Get(body, "error") == Some(JStr(m))
  {
  }

  /** A session token the backend issued is accepted for 24 hours, and the
      user it yields carries the claims it was issued with. */
  lemma IssuedTokenAccepted(codec: JwtCodec, data: UserData, issuedMs: nat, nowMs: nat)
    requires Sound(codec)
    requires GenerateInternalToken(codec, data, issuedMs).Success?
    requires nowMs / 1000 < issuedMs / 1000 + SessionSeconds
    ensures var token := GenerateInternalToken(codec, data, issuedMs).value;
      var p := SessionPayload(data, issuedMs);
      Decide(Some("Bearer " + token), codec, nowMs) == Proceed(User(p.userId, p.customerId, p.refreshToken))
  {
    var token := GenerateInternalToken(codec, data, issuedMs).value;
    SessionRoundTrip(codec, data, issuedMs, nowMs);
    ExtractTokenRoundTrip(token);
  }

  /** After 24 hours the same token is rejected as expired. */
  lemma IssuedTokenExpires(codec: JwtCodec, data: UserData, issuedMs: nat, nowMs: nat)
    requires Sound(codec)
    requires GenerateInternalToken(codec, data, issuedMs).Success?
    requires nowMs / 1000 >= issuedMs / 1000 + SessionSeconds
    ensures var token := GenerateInternalToken(codec, data, issuedMs).value;
      Decide(Some("Bearer " + token), codec, nowMs) == Reject(Reply(401, ErrorBody(TokenExpired, InvalidTokenCode)))
  {
    var token := GenerateInternalToken(codec, data, issuedMs).value;
    SessionRoundTrip(codec, data, issuedMs, nowMs);
    ExtractTokenRoundTrip(token);
  }

  /** `authMiddleware(req, res, next)` at time `nowMs`. */
  method Authenticate(req: Request, res: Response, next: Continuation, codec: JwtCodec, nowMs: nat)
    modifies req, res, next
    ensures req.headers == old(req.headers) && req.query == old(req.query) && req.body == old(req.body)
    ensures var o := Decide(old(req.Header("authorization")), codec, nowMs);
      match o
      case Proceed(user) =>
        req.user == Some(user) && next.calls == old(next.calls) + 1 && res.replies == old(res.replies)
      case Reject(reply) =>
        res.replies == old(res.replies) + [reply] && next.calls == old(next.calls) && req.user == old(req.user)
    // exactly one of the two happens
    ensures (next.calls == old(next.calls) + 1 && res.replies == old(res.replies)) !=
      (next.calls == old(next.calls) && |res.replies| == |old(res.replies)| + 1)
  {
    var header := req.Header("authorization");
    if !Given(header) {
      res.Send(401, ErrorBody(MissingToken, MissingTokenCode));
      return;
    }
    var extracted := ExtractTokenFromHeader(header);
    if extracted.Failure? {
      res.Send(401, ErrorBody(extracted.error, InvalidTokenCode));
      return;
    }
    var decoded := VerifyInternalToken(codec, extracted.value, nowMs);
    if decoded.Failure? {
      res.Send(401, ErrorBody(decoded.error, InvalidTokenCode));
      return;
    }
    req.user := Some(User(decoded.value.userId, decoded.value.customerId, decoded.value.refreshToken));
    next.Next();
  }
}
