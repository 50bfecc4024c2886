/**
  Token issuing, verification and the three-way token status.

  The signing library is not modelled: `jwt.sign` and `jwt.verify` are
  parameters. A verifier returns the decoded payload or names the error
  class it throws; a signer returns a token or throws. The environment
  variables JWT_SECRET and JWT_EXPIRES_IN and the clock are parameters too.
 */
module JwtService {
  import opened Common

  /** The claims inside a token; `iat` and `exp` are seconds since the epoch. */
  datatype Payload = Payload(userId: string, email: string, iat: Option<int>, exp: Option<int>)

  /** What the library's `verify(token, secret)` does. `JsonWebTokenError`
      stands for that class and its other subclasses (a not-yet-valid token). */
  datatype VerifyOutcome =
    | Decoded(payload: Payload)
    | TokenExpiredError
    | JsonWebTokenError
    | OtherError

  type Verifier = (string, string) -> VerifyOutcome

  /** The claims `generateToken` signs. */
  datatype Claims = Claims(userId: string, email: string)

  datatype SignOutcome = Signed(token: string) | SignThrew(message: string)

  /** The library's `sign(claims, secret, { expiresIn })`; it receives the raw
      lifetime setting, whose integer parse is part of the signer. */
  type Signer = (Claims, string, string) -> SignOutcome

  /** JWT_SECRET and JWT_EXPIRES_IN as the process sees them. */
  datatype Config = Config(secret: Option<string>, expiresIn: Option<string>)

  const ConfigMissingMessage := "JWT_SECRET and JWT_EXPIRES_IN must be set in environment variables"
  const SecretMissingMessage := "JWT_SECRET must be set in environment variables"

  /** `generateToken`: sign the claims once both settings are present. */
  function GenerateToken(userId: string, email: string, cfg: Config, sign: Signer): (r: Result<string, Exception>)
    ensures !Truthy(cfg.secret) || !Truthy(cfg.expiresIn) ==> r == Failure(PlainError(ConfigMissingMessage))
    ensures r.Success? <==>
      Truthy(cfg.secret) && Truthy(cfg.expiresIn)
      && sign(Claims(userId, email), cfg.secret.value, cfg.expiresIn.value).Signed?
    ensures r.Success? ==> sign(Claims(userId, email), cfg.secret.value, cfg.expiresIn.value) == Signed(r.value)
    ensures r.Failure? ==> r.error.PlainError?
  {
    if !Truthy(cfg.secret) || !Truthy(cfg.expiresIn) then
      Failure(PlainError(ConfigMissingMessage))
    else
      match sign(Claims(userId, email), cfg.secret.value, cfg.expiresIn.value)
      case Signed(token) => Success(token)
      case SignThrew(message) => Failure(PlainError(message))
  }

  /** Without both settings nothing is signed: the outcome does not depend on
      the signer at all. */
  lemma GenerateTokenSignsNothingUnconfigured(userId: string, email: string, cfg: Config, s1: Signer, s2: Signer)
    requires !Truthy(cfg.secret) || !Truthy(cfg.expiresIn)
    ensures GenerateToken(userId, email, cfg, s1) == GenerateToken(userId, email, cfg, s2)
    ensures GenerateToken(userId, email, cfg, s1).Failure?
  {
  }

  /** `verifyToken`: throws when the secret is unset; otherwise the decoded
      payload, or `null` (here None) for every verification failure. */
  function VerifyToken(token: string, secret: Option<string>, verify: Verifier): (r: Result<Option<Payload>, Exception>)
    ensures !Truthy(secret) ==> r == Failure(PlainError(SecretMissingMessage))
    ensures Truthy(secret) ==> r.Success?
    ensures r.Success? && r.value.Some? ==> verify(token, secret.value) == Decoded(r.value.value)
    ensures Truthy(secret) && !verify(token, secret.value).Decoded? ==> r == Success(None)
    ensures Truthy(secret) && verify(token, secret.value).Decoded? ==>
      r == Success(Some(verify(token, secret.value).payload))
  {
    if !Truthy(secret) then
      Failure(PlainError(SecretMissingMessage))
    else
      match verify(token, secret.value)
      case Decoded(payload) => Success(Some(payload))
      case _ => Success(None)
  }

  /** The record `validateTokenExpiration` resolves to. */
  datatype TokenValidation = TokenValidation(isValid: bool, isExpired: bool, payload: Option<Payload>, message: string)

  /** `validateTokenExpiration`: never throws; keeps the reason a token failed. */
  function ValidateTokenExpiration(token: string, secret: Option<string>, verify: Verifier): (v: TokenValidation)
    ensures !(v.isValid && v.isExpired)
    ensures v.isValid <==> v.payload.Some?
    ensures token == "" || !Truthy(secret) ==> !v.isValid && !v.isExpired && v.payload.None?
    ensures v.isValid <==> token != "" && Truthy(secret) && verify(token, secret.value).Decoded?
    ensures v.isExpired <==> token != "" && Truthy(secret) && verify(token, secret.value) == TokenExpiredError
    ensures v.isValid ==> v.payload == Some(verify(token, secret.value).payload)
  {
    if token == "" then
      TokenValidation(false, false, None, "No token provided")
    else if !Truthy(secret) then
      TokenValidation(false, false, None, "JWT secret not configured")
    else
      match verify(token, secret.value)
      case Decoded(payload) => TokenValidation(true, false, Some(payload), "Token is valid")
      case TokenExpiredError => TokenValidation(false, true, None, "Token has expired")
      case JsonWebTokenError => TokenValidation(false, false, None, "Invalid token")
      case OtherError => TokenValidation(false, false, None, "Token validation failed")
  }

  /** The message says which branch was taken. */
  lemma ValidationMessages(token: string, secret: Option<string>, verify: Verifier)
    ensures var v := ValidateTokenExpiration(token, secret, verify);
      (token == "" ==> v.message == "No token provided")
      && (token != "" && !Truthy(secret) ==> v.message == "JWT secret not configured")
      && (v.isExpired ==> v.message == "Token has expired")
      && (v.isValid ==> v.message == "Token is valid")
      && (token != "" && Truthy(secret) && verify(token, secret.value) == JsonWebTokenError ==> v.message == "Invalid token")
      && (token != "" && Truthy(secret) && verify(token, secret.value) == OtherError ==> v.message == "Token validation failed")
  {
  }

  /** The status `checkTokenStatus` resolves to. Only a valid token carries a
      remaining lifetime and a payload. */
  datatype TokenStatus =
    | Valid(timeUntilExpiry: int, payload: Payload)
    | Expired
    | Invalid

  /** The seconds a token with expiry `exp` has left at `nowMs` (milliseconds):
      `Math.max(0, exp - Math.floor(nowMs / 1000))`, or 0 when `exp` is absent
      or 0. Dafny's division by a positive constant is floor division. */
  function TimeUntilExpiry(exp: Option<int>, nowMs: int): (t: int)
    ensures t >= 0
    ensures exp.None? || exp.value == 0 ==> t == 0
    ensures exp.Some? && exp.value != 0 ==>
      t >= exp.value - nowMs / 1000 && (t == 0 || t == exp.value - nowMs / 1000)
  {
    var remaining := if exp.Some? && exp.value != 0 then exp.value - nowMs / 1000 else 0;
    if remaining < 0 then 0 else remaining
  }

  /** `checkTokenStatus`. */
  function CheckTokenStatus(token: string, secret: Option<string>, verify: Verifier, nowMs: int): (s: TokenStatus)
    ensures var v := ValidateTokenExpiration(token, secret, verify);
      (s.Expired? <==> !v.isValid && v.isExpired)
      && (s.Invalid? <==> !v.isValid && !v.isExpired)
      && (s.Valid? ==> v.payload == Some(s.payload))
    ensures s.Valid? <==> token != "" && Truthy(secret) && verify(token, secret.value).Decoded?
    ensures s.Expired? <==> token != "" && Truthy(secret) && verify(token, secret.value) == TokenExpiredError
    ensures s.Valid? ==> s.timeUntilExpiry >= 0 && s.timeUntilExpiry == TimeUntilExpiry(s.payload.exp, nowMs)
  {
    var v := ValidateTokenExpiration(token, secret, verify);
    if !v.isValid then
      if v.isExpired then Expired else Invalid
    else
      TokenStatus.Valid(TimeUntilExpiry(v.payload.value.exp, nowMs), v.payload.value)
  }

  /** The remaining lifetime never grows as time passes. */
  lemma TimeUntilExpiryNonIncreasing(exp: Option<int>, earlierMs: int, laterMs: int)
    requires earlierMs <= laterMs
    ensures TimeUntilExpiry(exp, laterMs) <= TimeUntilExpiry(exp, earlierMs)
  {
  }

  /** A token whose expiry lies `lifetime` seconds after the second it was
      issued in has at most `lifetime` seconds left at any later instant,
      exactly `lifetime` within that same second, and none once the lifetime
      has run out. */
  lemma TimeUntilExpiryOfLifetime(issuedMs: int, lifetime: int, nowMs: int)
    requires lifetime > 0 && issuedMs >= 0 && issuedMs <= nowMs
    ensures var exp := Some(issuedMs / 1000 + lifetime);
      && TimeUntilExpiry(exp, nowMs) <= lifetime
      && (nowMs / 1000 == issuedMs / 1000 ==> TimeUntilExpiry(exp, nowMs) == lifetime)
      && (nowMs / 1000 >= issuedMs / 1000 + lifetime ==> TimeUntilExpiry(exp, nowMs) == 0)
  {
  }

  /** The hot-path verifier and the status classifier agree: with a secret
      set, `verifyToken` yields a payload exactly when `checkTokenStatus`
      says `valid`, and the payloads coincide. */
  lemma VerifyAgreesWithStatus(token: string, secret: Option<string>, verify: Verifier, nowMs: int)
    requires token != "" && Truthy(secret)
    ensures var r := VerifyToken(token, secret, verify);
      var s := CheckTokenStatus(token, secret, verify, nowMs);
      r.Success? && (r.value.Some? <==> s.Valid?) && (s.Valid? ==> r.value == Some(s.payload))
  {
  }
}
