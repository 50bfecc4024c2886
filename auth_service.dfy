/**
  Registration, login and the password-reset request over the user table.

  The table is the sequence of stored users in insertion order, which is the
  order the store's `findOne` scans; a user's id is its position, printed as
  a 24-digit hexadecimal ObjectId. Password hashing and comparison and the
  token signer are parameters. A failing `save()` is modelled by the message
  of the error it throws (`storeFault`), such as the store's E11000
  duplicate-key error when two registrations race.
 */
module AuthService {
  import opened Common
  import opened Strings
  import JwtService

  /** A stored user: `password` holds the hash. */
  datatype User = User(id: nat, username: string, email: string, password: string)

  /** The view of a user the service hands out: no password field. */
  datatype PublicUser = PublicUser(id: string, username: string, email: string)

  datatype Session = Session(user: PublicUser, token: string)

  datatype LoginDto = LoginDto(email: Option<string>, password: Option<string>)
  datatype RegisterDto = RegisterDto(username: Option<string>, email: Option<string>, password: Option<string>)

  /** What `bcrypt.compare(plain, hash)` does. */
  datatype CompareOutcome = Match | Mismatch | CompareThrew
  type Comparer = (string, string) -> CompareOutcome

  /** `bcrypt.hash(plain, 10)`. */
  type Hasher = string -> string

  /** `user._id.toString()`. */
  function IdString(id: nat): string {
    Hex(id, 24)
  }

  function PublicView(u: User): PublicUser {
    PublicUser(IdString(u.id), u.username, u.email)
  }

  /** The two queries the service sends: `{ email }` and
      `{ $or: [{ email }, { username }] }`. */
  datatype Filter = ByEmail(email: string) | ByEmailOrUsername(email: string, username: string)

  predicate Matches(f: Filter, u: User) {
    match f
    case ByEmail(e) => u.email == e
    case ByEmailOrUsername(e, n) => u.email == e || u.username == n
  }

  /** `findOne(filter)`: the position of the first stored user that matches. */
  function FindOne(users: seq<User>, f: Filter): (i: Option<nat>)
    ensures i.Some? ==> i.value < |users| && Matches(f, users[i.value])
    ensures i.Some? ==> forall j :: 0 <= j < i.value ==> !Matches(f, users[j])
    ensures i.None? ==> forall j :: 0 <= j < |users| ==> !Matches(f, users[j])
  {
    if users == [] then None
    else if Matches(f, users[0]) then Some(0)
    else
      match FindOne(users[1..], f)
      case None => None
      case Some(k) => Some(k + 1)
  }

  /** The table's invariant: ids are positions, and no two users share an
      email or a username. */
  ghost predicate WellFormed(users: seq<User>) {
    && (forall i :: 0 <= i < |users| ==> users[i].id == i)
    && (forall i, j :: 0 <= i < j < |users| ==> users[i].email != users[j].email)
    && (forall i, j :: 0 <= i < j < |users| ==> users[i].username != users[j].username)
  }

  /** In a well-formed table the user `findOne({ email })` returns is the only
      one with that email. */
  lemma FindByEmailUnique(users: seq<User>, email: string, j: nat)
    requires WellFormed(users)
    requires j < |users| && users[j].email == email
    ensures FindOne(users, ByEmail(email)) == Some(j)
  {
  }

  /** `comparePassword`: any failure of the comparison becomes a plain error. */
  function ComparePassword(password: string, hash: string, compare: Comparer): (r: Result<bool, Exception>)
    ensures r.Success? <==> compare(password, hash) != CompareThrew
    ensures r.Success? ==> (r.value <==> compare(password, hash) == Match)
    ensures r.Failure? ==> r.error == PlainError("Password comparison failed")
  {
    match compare(password, hash)
    case Match => Success(true)
    case Mismatch => Success(false)
    case CompareThrew => Failure(PlainError("Password comparison failed"))
  }

  // ---------------------------------------------------------------------
  // login

  /** The body of `login`'s `try` block. */
  function LoginAttempt(users: seq<User>, dto: LoginDto, compare: Comparer, cfg: JwtService.Config, sign: JwtService.Signer): Result<Session, Exception>
  {
    if !Truthy(dto.email) || !Truthy(dto.password) then
      Failure(AppError(ValidationError, "Email and password are required"))
    else
      var email := dto.email.value;
      var password := dto.password.value;
      match FindOne(users, ByEmail(email))
      case None => Failure(AppError(NotFoundError, "User not found"))
      case Some(i) =>
        var user := users[i];
        match ComparePassword(password, user.password, compare)
        case Failure(e) => Failure(e)
        case Success(valid) =>
          if !valid then Failure(AppError(UnauthorizedError, "Invalid password"))
          else
            match JwtService.GenerateToken(IdString(user.id), user.email, cfg, sign)
            case Failure(e) => Failure(e)
            case Success(token) =>
              if token == "" then Failure(PlainError("Token generation failed"))
              else Success(Session(PublicView(user), token))
  }

  /** `login`'s `catch`: validation, not-found and unauthorized errors pass
      through; everything else becomes 'Login failed'. */
  function LoginRethrow(e: Exception): (r: Exception)
    ensures e.AppError? && e.kind in {ValidationError, NotFoundError, UnauthorizedError} ==> r == e
    ensures !(e.AppError? && e.kind in {ValidationError, NotFoundError, UnauthorizedError}) ==> r == PlainError("Login failed")
  {
    if e.AppError? && (e.kind == ValidationError || e.kind == NotFoundError || e.kind == UnauthorizedError) then e
    else PlainError("Login failed")
  }

  /** `login`. */
  function Login(users: seq<User>, dto: LoginDto, compare: Comparer, cfg: JwtService.Config, sign: JwtService.Signer): (r: Result<Session, Exception>)
    ensures r.Failure? && r.error.PlainError? ==> r.error.message == "Login failed"
    ensures r.Failure? && r.error.AppError? ==> r.error.kind != ConflictError
  {
    match LoginAttempt(users, dto, compare, cfg, sign)
    case Success(session) => Success(session)
    case Failure(e) => Failure(LoginRethrow(e))
  }

  /** A missing or empty email or password is a validation error. */
  lemma LoginRequiresCredentials(users: seq<User>, dto: LoginDto, compare: Comparer, cfg: JwtService.Config, sign: JwtService.Signer)
    requires !Truthy(dto.email) || !Truthy(dto.password)
    ensures Login(users, dto, compare, cfg, sign) == Failure(AppError(ValidationError, "Email and password are required"))
  {
  }

  /** No stored user has the email: not found. */
  lemma LoginUnknownEmail(users: seq<User>, dto: LoginDto, compare: Comparer, cfg: JwtService.Config, sign: JwtService.Signer)
    requires Truthy(dto.email) && Truthy(dto.password)
    requires forall j :: 0 <= j < |users| ==> users[j].email != dto.email.value
    ensures Login(users, dto, compare, cfg, sign) == Failure(AppError(NotFoundError, "User not found"))
  {
    assert FindOne(users, ByEmail(dto.email.value)).None?;
  }

  /** The user with the email is found and the comparison says no: unauthorized;
      the comparison fails: 'Login failed'. */
  lemma LoginWrongPassword(users: seq<User>, dto: LoginDto, compare: Comparer, cfg: JwtService.Config, sign: JwtService.Signer, i: nat)
    requires Truthy(dto.email) && Truthy(dto.password)
    requires FindOne(users, ByEmail(dto.email.value)) == Some(i)
    ensures compare(dto.password.value, users[i].password) == Mismatch ==>
      Login(users, dto, compare, cfg, sign) == Failure(AppError(UnauthorizedError, "Invalid password"))
    ensures compare(dto.password.value, users[i].password) == CompareThrew ==>
      Login(users, dto, compare, cfg, sign) == Failure(PlainError("Login failed"))
  {
  }

  /** A successful login returns the view of the stored user with that email,
      whose hash the comparison accepted, and a non-empty token signed for
      that user. */
  lemma LoginSuccess(users: seq<User>, dto: LoginDto, compare: Comparer, cfg: JwtService.Config, sign: JwtService.Signer)
    requires Login(users, dto, compare, cfg, sign).Success?
    ensures Truthy(dto.email) && Truthy(dto.password)
    ensures var found := FindOne(users, ByEmail(dto.email.value));
      var session := Login(users, dto, compare, cfg, sign).value;
      && found.Some?
      && compare(dto.password.value, users[found.value].password) == Match
      && session.user == PublicView(users[found.value])
      && session.token != ""
      && JwtService.GenerateToken(IdString(users[found.value].id), dto.email.value, cfg, sign) == Success(session.token)
  {
  }

  /** With both credentials present, the user found by email, the password
      matching its hash and a non-empty token signed for that user, login
      returns that user's public view and the token. */
  lemma LoginHappyPath(users: seq<User>, dto: LoginDto, compare: Comparer, cfg: JwtService.Config, sign: JwtService.Signer,
                       i: nat, token: string)
    requires Truthy(dto.email) && Truthy(dto.password)
    requires FindOne(users, ByEmail(dto.email.value)) == Some(i)
    requires compare(dto.password.value, users[i].password) == Match
    requires JwtService.GenerateToken(IdString(users[i].id), users[i].email, cfg, sign) == Success(token)
    requires token != ""
    ensures Login(users, dto, compare, cfg, sign) == Success(Session(PublicView(users[i]), token))
  {
  }

  /** A signer that cannot issue a token, or issues an empty one, turns a
      login with the right password into 'Login failed'. */
  lemma LoginTokenFailure(users: seq<User>, dto: LoginDto, compare: Comparer, cfg: JwtService.Config, sign: JwtService.Signer, i: nat)
    requires Truthy(dto.email) && Truthy(dto.password)
    requires FindOne(users, ByEmail(dto.email.value)) == Some(i)
    requires compare(dto.password.value, users[i].password) == Match
    requires JwtService.GenerateToken(IdString(users[i].id), users[i].email, cfg, sign) == Success("")
          || JwtService.GenerateToken(IdString(users[i].id), users[i].email, cfg, sign).Failure?
    ensures Login(users, dto, compare, cfg, sign) == Failure(PlainError("Login failed"))
  {
  }

  // ---------------------------------------------------------------------
  // register

  const DuplicateUserMessage := "User with this email or username already exists"
  const RegisterFieldsMessage := "Username, email, and password are required"

  /** The user a registration with all fields present would store. */
  function NewUser(users: seq<User>, dto: RegisterDto, hash: Hasher): User
    requires Truthy(dto.username) && Truthy(dto.email) && Truthy(dto.password)
  {
    User(|users|, dto.username.value, dto.email.value, hash(dto.password.value))
  }

  /** The body of `register`'s `try` block: its outcome and the table after it.
      The user is saved before the token is generated. */
  function RegisterAttempt(users: seq<User>, dto: RegisterDto, hash: Hasher, storeFault: Option<string>,
                           cfg: JwtService.Config, sign: JwtService.Signer): (Result<Session, Exception>, seq<User>)
  {
    if !Truthy(dto.username) || !Truthy(dto.email) || !Truthy(dto.password) then
      (Failure(AppError(ValidationError, RegisterFieldsMessage)), users)
    else if FindOne(users, ByEmailOrUsername(dto.email.value, dto.username.value)).Some? then
      (Failure(AppError(ConflictError, DuplicateUserMessage)), users)
    else if storeFault.Some? then
      (Failure(PlainError(storeFault.value)), users)
    else
      var user := NewUser(users, dto, hash);
      var stored := users + [user];
      match JwtService.GenerateToken(IdString(user.id), user.email, cfg, sign)
      case Failure(e) => (Failure(e), stored)
      case Success(token) =>
        if token == "" then (Failure(PlainError("Token generation failed")), stored)
        else (Success(Session(PublicView(user), token)), stored)
  }

  /** `register`'s `catch`: validation and conflict errors pass through, an
      error whose message mentions E11000 becomes a conflict, and everything
      else becomes 'Registration failed'. */
  function RegisterRethrow(e: Exception): (r: Exception)
    ensures e.AppError? && e.kind in {ValidationError, ConflictError} ==> r == e
    ensures !(e.AppError? && e.kind in {ValidationError, ConflictError}) ==>
      (Contains(e.message, "E11000") ==> r == AppError(ConflictError, DuplicateUserMessage))
      && (!Contains(e.message, "E11000") ==> r == PlainError("Registration failed"))
  {
    if e.AppError? && (e.kind == ValidationError || e.kind == ConflictError) then e
    else if Contains(e.message, "E11000") then AppError(ConflictError, DuplicateUserMessage)
    else PlainError("Registration failed")
  }

  /** `register`: its outcome and the table it leaves behind. */
  function RegisterStep(users: seq<User>, dto: RegisterDto, hash: Hasher, storeFault: Option<string>,
                        cfg: JwtService.Config, sign: JwtService.Signer): (out: (Result<Session, Exception>, seq<User>))
    ensures !Truthy(dto.username) || !Truthy(dto.email) || !Truthy(dto.password) ==>
      out == (Failure(AppError(ValidationError, RegisterFieldsMessage)), users)
    ensures (&& Truthy(dto.username) && Truthy(dto.email) && Truthy(dto.password)
             && exists j :: 0 <= j < |users| && (users[j].email == dto.email.value || users[j].username == dto.username.value)) ==>
      out == (Failure(AppError(ConflictError, DuplicateUserMessage)), users)
    ensures (&& Truthy(dto.username) && Truthy(dto.email) && Truthy(dto.password)
             && FindOne(users, ByEmailOrUsername(dto.email.value, dto.username.value)).None? && storeFault.Some?) ==>
      out.1 == users
      && out.0 == Failure(if Contains(storeFault.value, "E11000") then AppError(ConflictError, DuplicateUserMessage)
                          else PlainError("Registration failed"))
    ensures out.1 == users
      || (Truthy(dto.username) && Truthy(dto.email) && Truthy(dto.password) && out.1 == users + [NewUser(users, dto, hash)])
    ensures out.0.Success? ==>
      && Truthy(dto.username) && Truthy(dto.email) && Truthy(dto.password)
      && out.1 == users + [NewUser(users, dto, hash)]
      && out.0.value.user == PublicView(NewUser(users, dto, hash))
      && out.0.value.token != ""
    ensures out.0.Failure? ==>
      out.0.error in {AppError(ValidationError, RegisterFieldsMessage), AppError(ConflictError, DuplicateUserMessage),
                      PlainError("Registration failed")}
  {
    var (result, after) := RegisterAttempt(users, dto, hash, storeFault, cfg, sign);
    match result
    case Success(session) => (Success(session), after)
    case Failure(e) => (Failure(RegisterRethrow(e)), after)
  }

  /** With every field present, no stored user sharing the email or the
      username, a working store and a non-empty token signed for the new
      user, registration stores exactly that user, with the hashed password,
      and returns its public view and the token. */
  lemma RegisterHappyPath(users: seq<User>, dto: RegisterDto, hash: Hasher,
                          cfg: JwtService.Config, sign: JwtService.Signer, token: string)
    requires Truthy(dto.username) && Truthy(dto.email) && Truthy(dto.password)
    requires forall j :: 0 <= j < |users| ==> users[j].email != dto.email.value && users[j].username != dto.username.value
    requires JwtService.GenerateToken(IdString(|users|), dto.email.value, cfg, sign) == Success(token)
    requires token != ""
    ensures var user := NewUser(users, dto, hash);
      && user.password == hash(dto.password.value)
      && RegisterStep(users, dto, hash, None, cfg, sign) == (Success(Session(PublicView(user), token)), users + [user])
  {
    assert FindOne(users, ByEmailOrUsername(dto.email.value, dto.username.value)).None?;
  }

  /** A store error that reports a duplicate key (E11000) anywhere in its
      message is answered as the conflict the lookup would have found. */
  lemma DuplicateKeyIsConflict(before: string, after: string)
    ensures RegisterRethrow(PlainError(before + "E11000" + after)) == AppError(ConflictError, DuplicateUserMessage)
  {
    Infix(before, "E11000", after);
  }

  /** Registration keeps the table well formed: the new user's id is its
      position and its email and username are new. */
  lemma RegisterPreservesWellFormed(users: seq<User>, dto: RegisterDto, hash: Hasher, storeFault: Option<string>,
                                    cfg: JwtService.Config, sign: JwtService.Signer)
    requires WellFormed(users)
    ensures WellFormed(RegisterStep(users, dto, hash, storeFault, cfg, sign).1)
  {
    var after := RegisterStep(users, dto, hash, storeFault, cfg, sign).1;
    if after != users {
      var f := ByEmailOrUsername(dto.email.value, dto.username.value);
      assert FindOne(users, f).None?;
      forall j | 0 <= j < |users|
        ensures users[j].email != dto.email.value && users[j].username != dto.username.value
      {
        assert !Matches(f, users[j]);
      }
      var user := NewUser(users, dto, hash);
      assert after == users + [user];
      AppendKeepsWellFormed(users, user);
    }
  }

  /** Appending a user whose id is its position and whose email and username
      are new keeps a table well formed. */
  lemma AppendKeepsWellFormed(users: seq<User>, user: User)
    requires WellFormed(users) && user.id == |users|
    requires forall j :: 0 <= j < |users| ==> users[j].email != user.email && users[j].username != user.username
    ensures WellFormed(users + [user])
  {
    var after := users + [user];
    assert forall i :: 0 <= i < |users| ==> after[i] == users[i];
    assert after[|users|] == user;
  }

  /** When the signer fails after the user was saved, registration reports
      'Registration failed' (for an error that does not mention E11000) yet
      the new user stays stored. */
  lemma RegisterTokenFailureKeepsUser(users: seq<User>, dto: RegisterDto, hash: Hasher,
                                      cfg: JwtService.Config, sign: JwtService.Signer)
    requires Truthy(dto.username) && Truthy(dto.email) && Truthy(dto.password)
    requires FindOne(users, ByEmailOrUsername(dto.email.value, dto.username.value)).None?
    ensures var t := JwtService.GenerateToken(IdString(|users|), dto.email.value, cfg, sign);
      t.Failure? && !Contains(t.error.message, "E11000") ==>
        RegisterStep(users, dto, hash, None, cfg, sign) == (Failure(PlainError("Registration failed")), users + [NewUser(users, dto, hash)])
  {
    var t := JwtService.GenerateToken(IdString(|users|), dto.email.value, cfg, sign);
    if t.Failure? && !Contains(t.error.message, "E11000") {
      var stored := users + [NewUser(users, dto, hash)];
      assert RegisterAttempt(users, dto, hash, None, cfg, sign) == (Failure(t.error), stored);
      assert RegisterRethrow(t.error) == PlainError("Registration failed");
    }
  }

  /** The same for a signer that returns an empty token: the error the
      service raises for it becomes 'Registration failed'. */
  lemma RegisterEmptyTokenKeepsUser(users: seq<User>, dto: RegisterDto, hash: Hasher,
                                    cfg: JwtService.Config, sign: JwtService.Signer)
    requires Truthy(dto.username) && Truthy(dto.email) && Truthy(dto.password)
    requires FindOne(users, ByEmailOrUsername(dto.email.value, dto.username.value)).None?
    requires JwtService.GenerateToken(IdString(|users|), dto.email.value, cfg, sign) == Success("")
    ensures RegisterStep(users, dto, hash, None, cfg, sign) == (Failure(PlainError("Registration failed")), users + [NewUser(users, dto, hash)])
  {
    var e := PlainError("Token generation failed");
    assert RegisterAttempt(users, dto, hash, None, cfg, sign) == (Failure(e), users + [NewUser(users, dto, hash)]);
    TokenGenerationFailureIsNoDuplicate();
    assert RegisterRethrow(e) == PlainError("Registration failed");
  }

  /** 'Token generation failed' does not mention E11000. */
  lemma TokenGenerationFailureIsNoDuplicate()
    ensures !Contains("Token generation failed", "E11000")
  {
    var m := "Token generation failed";
    assert forall i :: 0 <= i < |m| ==> m[i] != 'E';
    MissingFirstCharacter(m, "E11000");
  }

  /** After a successful registration, a second one with the same email fails
      with a conflict and leaves the table as the first one left it. */
  lemma RegisterTwiceConflicts(users: seq<User>, first: RegisterDto, second: RegisterDto, hash: Hasher,
                               fault: Option<string>, cfg: JwtService.Config, sign: JwtService.Signer)
    requires RegisterStep(users, first, hash, None, cfg, sign).0.Success?
    requires Truthy(second.username) && Truthy(second.password) && second.email == first.email
    ensures var after := RegisterStep(users, first, hash, None, cfg, sign).1;
      RegisterStep(after, second, hash, fault, cfg, sign) == (Failure(AppError(ConflictError, DuplicateUserMessage)), after)
  {
    var after := RegisterStep(users, first, hash, None, cfg, sign).1;
    assert after[|users|].email == second.email.value;
  }

  /** A user who has just registered can log in with the same email and
      password, and gets the same user view back, when the comparison accepts
      a password against its own hash. */
  lemma RegisterThenLogin(users: seq<User>, dto: RegisterDto, hash: Hasher, compare: Comparer,
                          cfg: JwtService.Config, sign: JwtService.Signer)
    requires WellFormed(users)
    requires RegisterStep(users, dto, hash, None, cfg, sign).0.Success?
    requires compare(dto.password.value, hash(dto.password.value)) == Match
    ensures var (registered, after) := RegisterStep(users, dto, hash, None, cfg, sign);
      var loggedIn := Login(after, LoginDto(dto.email, dto.password), compare, cfg, sign);
      loggedIn.Success? && loggedIn.value.user == registered.value.user
  {
    var after := RegisterStep(users, dto, hash, None, cfg, sign).1;
    RegisterPreservesWellFormed(users, dto, hash, None, cfg, sign);
    FindByEmailUnique(after, dto.email.value, |users|);
  }

  // ---------------------------------------------------------------------
  // forgot password

  const ResetSentMessage := "Password reset link sent to your email"

  /** The body of `forgotPassword`'s `try` block. */
  function ForgotPasswordAttempt(users: seq<User>, email: string, cfg: JwtService.Config, sign: JwtService.Signer): Result<string, Exception>
  {
    if email == "" then Failure(AppError(ValidationError, "Email is required"))
    else
      match FindOne(users, ByEmail(email))
      case None => Failure(AppError(NotFoundError, "User not found"))
      case Some(i) =>
        match JwtService.GenerateToken(IdString(users[i].id), users[i].email, cfg, sign)
        case Failure(e) => Failure(e)
        case Success(token) =>
          if token == "" then Failure(PlainError("Token generation failed")) else Success(ResetSentMessage)
  }

  /** `forgotPassword`. It only reads the table. */
  function ForgotPassword(users: seq<User>, email: string, cfg: JwtService.Config, sign: JwtService.Signer): (r: Result<string, Exception>)
    ensures email == "" ==> r == Failure(AppError(ValidationError, "Email is required"))
    ensures email != "" && FindOne(users, ByEmail(email)).None? ==> r == Failure(AppError(NotFoundError, "User not found"))
    ensures r.Success? ==> r.value == ResetSentMessage && FindOne(users, ByEmail(email)).Some?
    ensures r.Failure? && r.error.PlainError? ==> r.error.message == "Forgot password failed"
    ensures r.Failure? && r.error.AppError? ==> r.error.kind == ValidationError || r.error.kind == NotFoundError
    ensures email != "" && FindOne(users, ByEmail(email)).Some? && r.Failure? ==>
      r.error == PlainError("Forgot password failed")
    ensures email != "" && FindOne(users, ByEmail(email)).Some? ==>
      var u := users[FindOne(users, ByEmail(email)).value];
      (r.Success? <==> JwtService.GenerateToken(IdString(u.id), u.email, cfg, sign).Success?
                       && JwtService.GenerateToken(IdString(u.id), u.email, cfg, sign).value != "")
  {
    match ForgotPasswordAttempt(users, email, cfg, sign)
    case Success(message) => Success(message)
    case Failure(e) =>
      if e.AppError? && (e.kind == ValidationError || e.kind == NotFoundError) then Failure(e)
      else Failure(PlainError("Forgot password failed"))
  }

  // ---------------------------------------------------------------------
  // the store

  /** The user collection, which `register` writes through `save()`. */
  class UserStore {
    var users: seq<User>

    ghost predicate Valid()
      reads this
    {
      WellFormed(users)
    }

    constructor ()
      ensures Valid() && users == []
    {
      users := [];
    }

    /** `register` against this store. */
    method Register(dto: RegisterDto, hash: Hasher, storeFault: Option<string>,
                    cfg: JwtService.Config, sign: JwtService.Signer) returns (r: Result<Session, Exception>)
      requires Valid()
      modifies this
      ensures Valid()
      ensures (r, users) == RegisterStep(old(users), dto, hash, storeFault, cfg, sign)
    {
      ghost var before := users;
      var thrown: Option<Exception> := None;
      var session: Session;
      if !Truthy(dto.username) || !Truthy(dto.email) || !Truthy(dto.password) {
        thrown := Some(AppError(ValidationError, RegisterFieldsMessage));
      } else {
        var username, email, password := dto.username.value, dto.email.value, dto.password.value;
        var existing := FindOne(users, ByEmailOrUsername(email, username));
        if existing.Some? {
          thrown := Some(AppError(ConflictError, DuplicateUserMessage));
        } else {
          var newUser := User(|users|, username, email, hash(password));
          if storeFault.Some? {
            thrown := Some(PlainError(storeFault.value));
          } else {
            users := users + [newUser];
            var token := JwtService.GenerateToken(IdString(newUser.id), newUser.email, cfg, sign);
            if token.Failure? {
              thrown := Some(token.error);
            } else if token.value == "" {
              thrown := Some(PlainError("Token generation failed"));
            } else {
              session := Session(PublicView(newUser), token.value);
            }
          }
        }
      }
      if thrown.Some? {
        r := Failure(RegisterRethrow(thrown.value));
      } else {
        r := Success(session);
      }
      RegisterPreservesWellFormed(before, dto, hash, storeFault, cfg, sign);
    }
  }
}
