/**
  The `/auth` routes: register, login, validate-token and forgot-password,
  as the responses they write.
 */
module AuthController {
  import opened Common
  import opened Strings
  import JwtService
  import AuthService
  import opened Http
  import AuthMiddleware

  // ---------------------------------------------------------------------
  // register and login

  /** The response for an error a service threw: an application error keeps
      its status and message; anything else is a 500 that hides its message. */
  function ErrorReply(e: Exception): (r: Reply)
    ensures e.AppError? ==> r == Reply(StatusCode(e.kind), MessageBody(e.message))
    ensures e.PlainError? ==> r == Reply(500, MessageBody("Internal server error"))
  {
    match e
    case AppError(kind, message) => Reply(StatusCode(kind), MessageBody(message))
    case PlainError(_) => Reply(500, MessageBody("Internal server error"))
  }

  /** No detail of an unexpected error reaches the client. */
  lemma PlainErrorsLookAlike(e1: Exception, e2: Exception)
    requires e1.PlainError? && e2.PlainError?
    ensures ErrorReply(e1) == ErrorReply(e2)
  {
  }

  /** `{ user: { id, username, email }, token }`. */
  function SessionJson(s: AuthService.Session): Json {
    JObject(map[
      "user" := JObject(map["id" := JString(s.user.id), "username" := JString(s.user.username), "email" := JString(s.user.email)]),
      "token" := JString(s.token)])
  }

  /** The user object of a session response has exactly the fields id,
      username and email: no password hash is sent. */
  lemma SessionJsonHasNoPassword(s: AuthService.Session)
    ensures SessionJson(s).fields.Keys == {"user", "token"}
    ensures SessionJson(s).fields["user"].JObject?
    ensures SessionJson(s).fields["user"].fields.Keys == {"id", "username", "email"}
  {
  }

  function ResultReply(successStatus: int, r: Result<AuthService.Session, Exception>): Reply {
    match r
    case Success(s) => Reply(successStatus, SessionJson(s))
    case Failure(e) => ErrorReply(e)
  }

  /** `POST /login`. */
  function LoginRoute(users: seq<AuthService.User>, dto: AuthService.LoginDto, compare: AuthService.Comparer,
                      cfg: JwtService.Config, sign: JwtService.Signer): (r: Reply)
    ensures r.status in {200, 400, 401, 404, 500}
    ensures r.status == 200 <==> AuthService.Login(users, dto, compare, cfg, sign).Success?
    ensures r.status == 500 ==> r == Reply(500, MessageBody("Internal server error"))
    ensures var out := AuthService.Login(users, dto, compare, cfg, sign);
      && (out.Success? ==> r == Reply(200, SessionJson(out.value)))
      && (out.Failure? ==> r == ErrorReply(out.error))
  {
    ResultReply(200, AuthService.Login(users, dto, compare, cfg, sign))
  }

  /** `POST /register`: the statuses it can answer with. */
  lemma RegisterStatuses(users: seq<AuthService.User>, dto: AuthService.RegisterDto, hash: AuthService.Hasher,
                         storeFault: Option<string>, cfg: JwtService.Config, sign: JwtService.Signer)
    ensures var out := AuthService.RegisterStep(users, dto, hash, storeFault, cfg, sign);
      var r := ResultReply(201, out.0);
      && r.status in {201, 400, 409, 500}
      && (r.status == 201 <==> out.0.Success?)
      && (r.status == 409 ==> r == Reply(409, MessageBody(AuthService.DuplicateUserMessage)))
  {
  }

  /** `POST /register` against the store. */
  method RegisterRoute(store: AuthService.UserStore, dto: AuthService.RegisterDto, hash: AuthService.Hasher,
                       storeFault: Option<string>, cfg: JwtService.Config, sign: JwtService.Signer) returns (r: Reply)
    requires store.Valid()
    modifies store
    ensures store.Valid()
    ensures var out := AuthService.RegisterStep(old(store.users), dto, hash, storeFault, cfg, sign);
      store.users == out.1 && r == ResultReply(201, out.0)
  {
    var result := store.Register(dto, hash, storeFault, cfg, sign);
    r := ResultReply(201, result);
  }

  // ---------------------------------------------------------------------
  // validate-token

  /** `GET /validate-token`'s token: what follows "Bearer " in the
      Authorization header when it starts so; otherwise the body's token when
      it is non-empty, else the query's. */
  function SelectToken(authorization: Option<string>, bodyToken: Option<string>, queryToken: Option<string>): (token: Option<string>)
    ensures authorization.Some? && HasPrefix(authorization.value, "Bearer ") ==>
      token.Some? && authorization.value == "Bearer " + token.value
    ensures !(authorization.Some? && HasPrefix(authorization.value, "Bearer ")) ==>
      (Truthy(bodyToken) ==> token == bodyToken) && (!Truthy(bodyToken) ==> token == queryToken)
  {
    if authorization.Some? && HasPrefix(authorization.value, "Bearer ") then
      assert authorization.value == authorization.value[..7] + authorization.value[7..];
      Some(authorization.value[7..])
    else if Truthy(bodyToken) then bodyToken
    else queryToken
  }

  /** The body `{ message, status }`. */
  function StatusBody(message: string, status: string): Json {
    JObject(map["message" := JString(message), "status" := JString(status)])
  }

  /** The body of a 200 answer: the status, the remaining seconds and who the
      token is for. */
  function ValidBody(timeUntilExpiry: int, payload: JwtService.Payload): Json {
    JObject(map[
      "message" := JString("Token is valid"),
      "status" := JString("valid"),
      "timeUntilExpiry" := JNumber(timeUntilExpiry),
      "user" := JObject(map["userId" := JString(payload.userId), "email" := JString(payload.email)])])
  }

  /** The response `/validate-token` writes for the selected token. */
  function ValidateTokenReply(token: Option<string>, secret: Option<string>, verify: JwtService.Verifier, nowMs: int): (r: Reply)
    ensures !Truthy(token) ==> r == Reply(400, StatusBody("Token is required", "invalid"))
    ensures r.status in {200, 400, 401}
    ensures Truthy(token) ==>
      match JwtService.CheckTokenStatus(token.value, secret, verify, nowMs)
      case Valid(t, p) => r == Reply(200, ValidBody(t, p)) && t >= 0 && p == verify(token.value, secret.value).payload
      case Expired => r == Reply(401, StatusBody("Token has expired", "expired"))
      case Invalid => r == Reply(401, StatusBody("Invalid token", "invalid"))
  {
    if !Truthy(token) then
      Reply(400, StatusBody("Token is required", "invalid"))
    else
      match JwtService.CheckTokenStatus(token.value, secret, verify, nowMs)
      case Valid(t, p) => Reply(200, ValidBody(t, p))
      case Expired => Reply(401, StatusBody("Token has expired", "expired"))
      case Invalid => Reply(401, StatusBody("Invalid token", "invalid"))
  }

  /** `GET /validate-token`. */
  function ValidateTokenRoute(authorization: Option<string>, bodyToken: Option<string>, queryToken: Option<string>,
                              secret: Option<string>, verify: JwtService.Verifier, nowMs: int): (r: Reply)
    ensures r.status in {200, 400, 401}
    ensures var token := SelectToken(authorization, bodyToken, queryToken);
      r.status == 200 <==> Truthy(token) && JwtService.CheckTokenStatus(token.value, secret, verify, nowMs).Valid?
    ensures r.status == 400 <==> !Truthy(SelectToken(authorization, bodyToken, queryToken))
    ensures authorization.Some? && HasPrefix(authorization.value, "Bearer ") && authorization.value != "Bearer " ==>
      r == ValidateTokenReply(Some(authorization.value[7..]), secret, verify, nowMs)
  {
    ValidateTokenReply(SelectToken(authorization, bodyToken, queryToken), secret, verify, nowMs)
  }

  /** Without a token the classifier is not consulted: the answer is the same
      whatever the verifier, the secret or the clock. */
  lemma EmptyTokenSkipsClassifier(token: Option<string>, s1: Option<string>, s2: Option<string>,
                                  v1: JwtService.Verifier, v2: JwtService.Verifier, now1: int, now2: int)
    requires !Truthy(token)
    ensures ValidateTokenReply(token, s1, v1, now1) == ValidateTokenReply(token, s2, v2, now2)
  {
  }

  /** A bare "Bearer " header selects the empty token and so gets a 400; the
      body and query tokens are not looked at. */
  lemma EmptyBearerDoesNotFallBack(bodyToken: Option<string>, queryToken: Option<string>,
                                   secret: Option<string>, verify: JwtService.Verifier, nowMs: int)
    ensures ValidateTokenRoute(Some("Bearer "), bodyToken, queryToken, secret, verify, nowMs)
      == Reply(400, StatusBody("Token is required", "invalid"))
  {
    assert SelectToken(Some("Bearer "), bodyToken, queryToken) == Some("");
  }

  /** For a header "Bearer " + t with no space in t, the route and the gate
      read the same token. */
  lemma ExtractorsAgree(t: string, bodyToken: Option<string>, queryToken: Option<string>)
    requires ' ' !in t
    ensures SelectToken(Some("Bearer " + t), bodyToken, queryToken) == Some(t)
    ensures AuthMiddleware.ExtractTokenFromHeader(Some("Bearer " + t)) == Some(t)
  {
    var h := "Bearer " + t;
    assert h[..7] == "Bearer ";
    assert h[7..] == t;
    TakeDrop(t, ' ');
  }

  /** When t holds a space the two differ: the route takes all of t, the gate
      only the text before the first space. */
  lemma ExtractorsDiffer(t: string, bodyToken: Option<string>, queryToken: Option<string>)
    requires ' ' in t
    ensures SelectToken(Some("Bearer " + t), bodyToken, queryToken) == Some(t)
    ensures AuthMiddleware.ExtractTokenFromHeader(Some("Bearer " + t)) == Some(TakeUntil(t, ' '))
    ensures TakeUntil(t, ' ') != t
  {
    var h := "Bearer " + t;
    assert h[..7] == "Bearer ";
    assert h[7..] == t;
    TakeDrop(t, ' ');
  }

  // ---------------------------------------------------------------------
  // forgot-password

  /** `POST /forgot-password`. It answers from the email alone. */
  function ForgotPasswordRoute(email: Option<string>): (r: Reply)
    ensures !Truthy(email) <==> r == Reply(400, MessageBody("Email is required"))
    ensures Truthy(email) ==> r.status == 200 && r.body == MessageBody("Password reset link sent to " + email.value)
  {
    if !Truthy(email) then Reply(400, MessageBody("Email is required"))
    else Reply(200, MessageBody("Password reset link sent to " + email.value))
  }

  /** The route answers 200 even for an email the service would report as
      unknown: the route does not call the service, so it neither sends a
      reset token nor tells whether the account exists. */
  lemma ForgotPasswordRouteSkipsService(users: seq<AuthService.User>, email: string,
                                        cfg: JwtService.Config, sign: JwtService.Signer)
    requires email != ""
    requires forall j :: 0 <= j < |users| ==> users[j].email != email
    ensures AuthService.ForgotPassword(users, email, cfg, sign) == Failure(AppError(NotFoundError, "User not found"))
    ensures ForgotPasswordRoute(Some(email)).status == 200
  {
    assert AuthService.FindOne(users, AuthService.ByEmail(email)).None?;
  }
}
