/**
  The bearer-token gate in front of the protected routes.
 */
module AuthMiddleware {
  import opened Common
  import opened Strings
  import JwtService
  import opened Http

  /** `extractTokenFromHeader`: split the header on single spaces and take the
      second field when the first is exactly `Bearer`. Equivalently: the
      header starts with "Bearer " and the token is the text after it up to
      the next space. */
  function ExtractTokenFromHeader(authorization: Option<string>): (token: Option<string>)
    ensures token.Some? <==> authorization.Some? && HasPrefix(authorization.value, "Bearer ")
    ensures token.Some? ==> token.value == TakeUntil(authorization.value[7..], ' ')
    ensures token.Some? ==> ' ' !in token.value
  {
    if authorization.None? then None
    else
      var parts := Split(authorization.value, ' ');
      if parts[0] == "Bearer" && |parts| > 1 then
        ExtractFields(authorization.value);
        Some(parts[1])
      else
        ExtractFields(authorization.value);
        None
  }

  /** The first two space-separated fields of a header, described without
      `split`. */
  lemma ExtractFields(h: string)
    ensures var parts := Split(h, ' ');
      (parts[0] == "Bearer" && |parts| > 1 <==> HasPrefix(h, "Bearer "))
      && (HasPrefix(h, "Bearer ") ==> parts[1] == TakeUntil(h[7..], ' ') && ' ' !in parts[1])
  {
    var parts := Split(h, ' ');
    SplitFirst(h, ' ');
    TakeDrop(h, ' ');
    if HasPrefix(h, "Bearer ") {
      assert h == "Bearer" + [' '] + h[7..];
      CutAtFirst("Bearer", ' ', h[7..]);
      SplitFirst(h[7..], ' ');
      TakeDrop(h[7..], ' ');
    }
    if parts[0] == "Bearer" && |parts| > 1 {
      assert h == "Bearer" + [' '] + DropThrough(h, ' ');
    }
  }

  /** What the gate decides for one request. */
  datatype Decision = Admit(payload: JwtService.Payload) | Reject(reply: Reply)

  /** `authMiddleware`'s decision, as a function of the header, the secret
      and the verifier. */
  function Gate(authorization: Option<string>, secret: Option<string>, verify: JwtService.Verifier): (d: Decision)
    ensures var token := ExtractTokenFromHeader(authorization);
      d.Admit? <==> token.Some? && token.value != "" && Truthy(secret) && verify(token.value, secret.value).Decoded?
    ensures d.Admit? ==> d.payload == verify(ExtractTokenFromHeader(authorization).value, secret.value).payload
    ensures d.Reject? ==> d.reply.status == 401
  {
    var token := ExtractTokenFromHeader(authorization);
    if token.None? || token.value == "" then
      Reject(Reply(401, MessageBody("Unauthorized access")))
    else
      match JwtService.VerifyToken(token.value, secret, verify)
      case Failure(_) => Reject(Reply(401, MessageBody("Authentication failed")))
      case Success(None) => Reject(Reply(401, MessageBody("Invalid token")))
      case Success(Some(payload)) => Admit(payload)
  }

  /** The three ways a request is turned away, each with its message. */
  lemma GateRejections(authorization: Option<string>, secret: Option<string>, verify: JwtService.Verifier)
    ensures var token := ExtractTokenFromHeader(authorization);
      && (token.None? || token.value == "" ==>
            Gate(authorization, secret, verify) == Reject(Reply(401, MessageBody("Unauthorized access"))))
      && (token.Some? && token.value != "" && !Truthy(secret) ==>
            Gate(authorization, secret, verify) == Reject(Reply(401, MessageBody("Authentication failed"))))
      && (token.Some? && token.value != "" && Truthy(secret) && !verify(token.value, secret.value).Decoded? ==>
            Gate(authorization, secret, verify) == Reject(Reply(401, MessageBody("Invalid token"))))
  {
  }

  /** A request without a header, with another scheme than `Bearer`, or with
      a token the verifier reports as expired is turned away. */
  lemma GateRejectsUnauthenticated(authorization: Option<string>, secret: Option<string>, verify: JwtService.Verifier)
    requires || authorization.None?
             || !HasPrefix(authorization.value, "Bearer ")
             || (Truthy(secret) && verify(ExtractTokenFromHeader(authorization).value, secret.value) == JwtService.TokenExpiredError)
    ensures Gate(authorization, secret, verify).Reject?
  {
  }

  /** The gate admits exactly the tokens the status classifier calls valid,
      and attaches the same payload. */
  lemma GateAgreesWithStatus(authorization: Option<string>, secret: Option<string>, verify: JwtService.Verifier, nowMs: int)
    requires ExtractTokenFromHeader(authorization).Some?
    ensures var s := JwtService.CheckTokenStatus(ExtractTokenFromHeader(authorization).value, secret, verify, nowMs);
      var d := Gate(authorization, secret, verify);
      (d.Admit? <==> s.Valid?) && (d.Admit? ==> d.payload == s.payload)
  {
  }

  /** `authMiddleware` on one exchange: either it attaches the decoded
      payload as `req.user` and then calls `next()` once, or it writes the
      rejection and leaves `req.user` alone. */
  method Authenticate(ex: Exchange, secret: Option<string>, verify: JwtService.Verifier)
    modifies ex`user, ex`effects
    ensures match Gate(ex.authorization, secret, verify)
      case Admit(payload) =>
        ex.user == Some(payload) && ex.effects == old(ex.effects) + [NextCalled(None)]
      case Reject(reply) =>
        ex.user == old(ex.user) && ex.effects == old(ex.effects) + [Responded(reply)]
  {
    var token := ExtractTokenFromHeader(ex.authorization);
    if token.None? || token.value == "" {
      ex.effects := ex.effects + [Responded(Reply(401, MessageBody("Unauthorized access")))];
      return;
    }
    var decoded := JwtService.VerifyToken(token.value, secret, verify);
    if decoded.Failure? {
      ex.effects := ex.effects + [Responded(Reply(401, MessageBody("Authentication failed")))];
    } else if decoded.value.None? {
      ex.effects := ex.effects + [Responded(Reply(401, MessageBody("Invalid token")))];
    } else {
      ex.user := decoded.value;
      ex.effects := ex.effects + [NextCalled(None)];
    }
  }
}
