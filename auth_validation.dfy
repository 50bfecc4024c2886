/**
  `loginSchema`, `registerSchema` and `forgotPasswordSchema`: the checks
  each field of an authentication request must pass, and the issue each
  failing check reports. The e-mail format check is the library's and is a
  parameter. Inputs are taken to be strings already; what the library says
  about a field of another type or a missing one is not part of this model.
 */
module AuthValidation {
  import opened Common
  import opened Strings
  import opened Zod
  import AuthService

  // ---------------------------------------------------------------------
  // fields

  /** A character of the class `[a-zA-Z0-9_]`. */
  predicate IsWordChar(c: char) {
    ('a' <= c <= 'z') || ('A' <= c <= 'Z') || IsDigit(c) || c == '_'
  }

  /** The pattern `^[a-zA-Z0-9_]+$`. */
  predicate IsWordText(s: string) {
    |s| >= 1 && forall i :: 0 <= i < |s| ==> IsWordChar(s[i])
  }

  // Each field lists its checks in declaration order. Naming every check once
  // (`checks[i] == checks[i]`) lets the verifier use Failing's contract on it.

  /** The e-mail field, the same in all three schemas. */
  function EmailIssues(email: string, isEmail: string -> bool): (issues: seq<Issue>)
    ensures issues == [] <==> |email| >= 1 && isEmail(email)
    ensures forall k :: 0 <= k < |issues| ==> issues[k].path == Field("email")
  {
    var checks := [
      Check(|email| >= 1, "Email is required"),
      Check(isEmail(email), "Invalid email format")];
    assert checks[0] == checks[0];
    assert checks[1] == checks[1];
    Failing(Field("email"), checks)
  }

  function LoginPasswordIssues(password: string): (issues: seq<Issue>)
    ensures issues == [] <==> |password| >= 6
    ensures forall k :: 0 <= k < |issues| ==> issues[k].path == Field("password")
  {
    var checks := [
      Check(|password| >= 1, "Password is required"),
      Check(|password| >= 6, "Password must be at least 6 characters long")];
    assert checks[0] == checks[0];
    assert checks[1] == checks[1];
    Failing(Field("password"), checks)
  }

  function UsernameIssues(username: string): (issues: seq<Issue>)
    ensures issues == [] <==> 3 <= |username| <= 30 && IsWordText(username)
    ensures forall k :: 0 <= k < |issues| ==> issues[k].path == Field("username")
  {
    var checks := [
      Check(|username| >= 1, "Username is required"),
      Check(|username| >= 3, "Username must be at least 3 characters long"),
      Check(|username| <= 30, "Username must be at most 30 characters long"),
      Check(IsWordText(username), "Username can only contain letters, numbers, and underscores")];
    assert checks[0] == checks[0];
    assert checks[1] == checks[1];
    assert checks[2] == checks[2];
    assert checks[3] == checks[3];
    Failing(Field("username"), checks)
  }

  function RegisterPasswordIssues(password: string): (issues: seq<Issue>)
    ensures issues == [] <==> 6 <= |password| <= 128
    ensures forall k :: 0 <= k < |issues| ==> issues[k].path == Field("password")
  {
    var checks := [
      Check(|password| >= 1, "Password is required"),
      Check(|password| >= 6, "Password must be at least 6 characters long"),
      Check(|password| <= 128, "Password must be at most 128 characters long")];
    assert checks[0] == checks[0];
    assert checks[1] == checks[1];
    assert checks[2] == checks[2];
    Failing(Field("password"), checks)
  }

  // ---------------------------------------------------------------------
  // schemas

  datatype LoginInput = LoginInput(email: string, password: string)
  datatype RegisterInput = RegisterInput(username: string, email: string, password: string)
  datatype ForgotPasswordInput = ForgotPasswordInput(email: string)

  /** `loginSchema`: the issues of every field, in declaration order. A body
      is accepted exactly when the e-mail is non-empty and well formed and the
      password has at least six characters, with no upper bound; the e-mail's
      issues come before the password's. */
  function LoginIssues(input: LoginInput, isEmail: string -> bool): (issues: seq<Issue>)
    ensures issues == [] <==> |input.email| >= 1 && isEmail(input.email) && |input.password| >= 6
    ensures forall k :: 0 <= k < |issues| ==> issues[k].path == Field("email") || issues[k].path == Field("password")
    ensures forall i, j :: 0 <= i < j < |issues| && issues[i].path == Field("password") ==> issues[j].path == Field("password")
  {
    var email := EmailIssues(input.email, isEmail);
    var password := LoginPasswordIssues(input.password);
    var issues := email + password;
    assert forall k :: |email| <= k < |issues| ==> issues[k] == password[k - |email|];
    issues
  }

  /** The position of a field in `registerSchema`; 3 for any other path. */
  function RegisterRank(path: seq<PathSegment>): nat {
    if path == Field("username") then 0
    else if path == Field("email") then 1
    else if path == Field("password") then 2
    else 3
  }

  /** `registerSchema`. A body is accepted exactly when the username has 3 to
      30 word characters, the e-mail is non-empty and well formed and the
      password has 6 to 128 characters; the issues come field by field, the
      username's first and the password's last. */
  function RegisterIssues(input: RegisterInput, isEmail: string -> bool): (issues: seq<Issue>)
    ensures issues == [] <==>
      && 3 <= |input.username| <= 30 && IsWordText(input.username)
      && |input.email| >= 1 && isEmail(input.email)
      && 6 <= |input.password| <= 128
  {
    UsernameIssues(input.username) + EmailIssues(input.email, isEmail) + RegisterPasswordIssues(input.password)
  }

  /** Three runs of issues, each about one field of `registerSchema`, laid
      end to end come in field order. */
  lemma RunsInFieldOrder(username: seq<Issue>, email: seq<Issue>, password: seq<Issue>)
    requires forall k :: 0 <= k < |username| ==> username[k].path == Field("username")
    requires forall k :: 0 <= k < |email| ==> email[k].path == Field("email")
    requires forall k :: 0 <= k < |password| ==> password[k].path == Field("password")
    ensures var issues := username + email + password;
      && (forall k :: 0 <= k < |issues| ==> RegisterRank(issues[k].path) < 3)
      && (forall i, j :: 0 <= i < j < |issues| ==> RegisterRank(issues[i].path) <= RegisterRank(issues[j].path))
  {
    var issues := username + email + password;
    assert forall k :: |username| <= k < |username| + |email| ==> issues[k] == email[k - |username|];
    assert forall k :: |username| + |email| <= k < |issues| ==> issues[k] == password[k - |username| - |email|];
  }

  /** Every issue of a registration body is about one of its three fields,
      and they come field by field: the username's, then the e-mail's, then
      the password's. */
  lemma RegisterIssuesInFieldOrder(input: RegisterInput, isEmail: string -> bool)
    ensures var issues := RegisterIssues(input, isEmail);
      && (forall k :: 0 <= k < |issues| ==> RegisterRank(issues[k].path) < 3)
      && (forall i, j :: 0 <= i < j < |issues| ==> RegisterRank(issues[i].path) <= RegisterRank(issues[j].path))
  {
    RunsInFieldOrder(UsernameIssues(input.username), EmailIssues(input.email, isEmail), RegisterPasswordIssues(input.password));
  }

  /** `forgotPasswordSchema`: it constrains only the e-mail, so it is accepted
      exactly when the e-mail is, and every issue it reports is about the
      e-mail. */
  function ForgotPasswordIssues(input: ForgotPasswordInput, isEmail: string -> bool): (issues: seq<Issue>)
    ensures issues == [] <==> |input.email| >= 1 && isEmail(input.email)
    ensures forall k :: 0 <= k < |issues| ==> issues[k].path == Field("email")
  {
    EmailIssues(input.email, isEmail)
  }

  /** Every e-mail and password that may register may also log in. */
  lemma RegisteredCredentialsPassLogin(input: RegisterInput, isEmail: string -> bool)
    requires RegisterIssues(input, isEmail) == []
    ensures LoginIssues(LoginInput(input.email, input.password), isEmail) == []
  {
  }

  /** All three schemas demand a non-empty e-mail. */
  lemma EmailRequiredEverywhere(username: string, password: string, isEmail: string -> bool)
    ensures LoginIssues(LoginInput("", password), isEmail) != []
    ensures RegisterIssues(RegisterInput(username, "", password), isEmail) != []
    ensures ForgotPasswordIssues(ForgotPasswordInput(""), isEmail) != []
  {
  }

  /** The checks do not stop at the first failure: an empty username reports
      that it is required, too short and not made of word characters, in this
      order. */
  lemma {:induction false} EmptyUsernameIssues()
    ensures UsernameIssues("") == [
      Issue(Field("username"), "Username is required"),
      Issue(Field("username"), "Username must be at least 3 characters long"),
      Issue(Field("username"), "Username can only contain letters, numbers, and underscores")]
  {
    var checks := [
      Check(false, "Username is required"),
      Check(false, "Username must be at least 3 characters long"),
      Check(true, "Username must be at most 30 characters long"),
      Check(false, "Username can only contain letters, numbers, and underscores")];
    assert !IsWordText("");
    assert Failing(Field("username"), checks[3..]) == [Issue(Field("username"), checks[3].message)];
    assert Failing(Field("username"), checks[2..]) == Failing(Field("username"), checks[3..]);
  }

  /** Were `loginSchema` applied in front of `login`, the service's own
      missing-credential check could not fire: a body the schema accepts
      carries a non-empty e-mail and password. */
  lemma AcceptedLoginPassesServiceCheck(input: LoginInput, isEmail: string -> bool)
    requires LoginIssues(input, isEmail) == []
    ensures var dto := AuthService.LoginDto(Some(input.email), Some(input.password));
      Truthy(dto.email) && Truthy(dto.password)
  {
  }

  /** The same for `registerSchema` in front of `register`. */
  lemma AcceptedRegisterPassesServiceCheck(input: RegisterInput, isEmail: string -> bool)
    requires RegisterIssues(input, isEmail) == []
    ensures var dto := AuthService.RegisterDto(Some(input.username), Some(input.email), Some(input.password));
      Truthy(dto.username) && Truthy(dto.email) && Truthy(dto.password)
  {
  }
}
