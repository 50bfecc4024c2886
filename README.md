# algo-tracker-api: authentication and request-validation core in Dafny

This project models the decision logic of algo-tracker-api, an Express and
Mongoose backend for tracking solved programming problems. It covers:

- **Tokens** (`jwt_service.dfy`): issuing a token once the secret and the
  lifetime are configured, the hot-path `verifyToken` that turns every
  verification failure into `null`, and the three-way classification
  valid / expired / invalid with the remaining lifetime of a valid token.
- **Accounts** (`auth_service.dfy`): `login`, `register` and
  `forgotPassword` over the user collection. The collection is a sequence
  of users in insertion order. `findOne` returns the first match. A user's
  id is its position, printed as a 24-digit hexadecimal ObjectId. A
  `UserStore` class holds the collection that `register` writes. Each
  `try` block is a function, and its `catch` is a second function that
  re-throws or replaces the error.
- **The bearer gate** (`auth_middleware.dfy`): `extractTokenFromHeader`,
  and `authMiddleware` as a method on an `Exchange`. The exchange records
  `req.user` and a log of what the handler did: the responses it wrote and
  its calls to `next`.
- **The `/auth` routes** (`auth_controller.dfy`): the replies for
  register and login, the token source and status-to-response mapping of
  `/validate-token`, and `/forgot-password`.
- **Request validation** (`validation_middleware.dfy`, `zod.dfy`):
  `validateBody`, `validateParams` and `validateQuery` as one method
  parameterised by the request part, and the rendering of schema issues.
- **Schemas** (`auth_validation.dfy`, `problem_validation.dfy`): each schema
  field is a list of checks in declaration order. The checks on a value do
  not stop at the first failure, so a value that fails several checks
  reports one issue per failing check.
- **CORS** (`cors_middleware.dfy`): the origin decision over the
  ALLOWED_ORIGINS allow-list.

`common.dfy` holds optional values, results, the exception classes and JSON
values. `strings.dfy` holds the JavaScript string operations the code
relies on (`split`, `join`, `trim`, `startsWith`, `includes`, number
rendering), with the facts about them that the model uses.

Behaviour worth knowing, each proved below:

- The two bearer extractors differ. The gate splits the header on spaces
  and keeps only the second field. `/validate-token` keeps everything
  after `"Bearer "`. They agree exactly when the token holds no space.
- A bare `"Bearer "` header makes `/validate-token` answer 400. It does not
  fall back to the body or query token.
- `register` saves the user before it generates the token. A signer
  failure therefore reports 'Registration failed' but leaves the new user
  stored.
- With ALLOWED_ORIGINS unset, every request that has an origin is allowed.
- A `dateSolved` text that does not parse is reported as "Date solved
  cannot be in the future".

Password reset, as the code has it:

- The service's `forgotPassword` throws `NotFoundError` for an email no
  user has (src/services/auth.service.ts:137-140), so the service tells
  its caller which accounts exist. The model keeps that.
- The `/forgot-password` route never calls the service. It answers 200 for
  any non-empty email, so the deployed endpoint reveals nothing about
  which accounts exist.

The three auth schemas (`loginSchema`, `registerSchema`,
`forgotPasswordSchema`) are declared but no route applies them. The auth
controller reads `req.body` directly (src/controllers/auth.controller.ts:10,
24, 85), and `validateBody` and `validateParams` are used only by the
problem controller. The lemmas that relate those schemas to the service's
own checks are therefore conditional: they say what would hold if a schema
were put in front of its route.

`src/exceptions/exceptions.ts` is not part of this model. The model
assumes that the four application error classes carry the statuses
400 (validation), 401 (unauthorized), 404 (not found) and 409 (conflict).
`Common.StatusCode` is that assumption.

## Model

| member | source | states |
|---|---|---|
| Common.StatusCode | src/controllers/auth.controller.ts:14-15 | every application error class answers with a client-error status (400 to 499); the values themselves (validation 400, unauthorized 401, not found 404, conflict 409) are the assumed table in the body, not part of the contract |
| Strings.Split | src/middlewares/auth.middleware.ts:32 | `split` on one character always yields at least one part |
| Strings.TakeDrop | src/middlewares/auth.middleware.ts:32 | the text before the first separator holds none, and before + separator + after rebuilds the string |
| Strings.CutAtFirst | src/middlewares/auth.middleware.ts:32 | in `p + sep + q` with no separator in `p`, the first separator is the one after `p` |
| Strings.SplitFirst | src/middlewares/auth.middleware.ts:32 | the first part of a split is the text before the first separator; there is a second part iff the separator occurs; the later parts are the split of the rest |
| Strings.SplitPartsFree | src/middlewares/cors.middleware.ts:6 | no part of a split contains the separator |
| Strings.SplitFree | src/middlewares/cors.middleware.ts:6 | a string without the separator splits into itself alone |
| Strings.JoinSplit | src/middlewares/cors.middleware.ts:6 | joining the parts of a split with the same separator gives back the string |
| Strings.SplitJoin | src/middlewares/cors.middleware.ts:6 | splitting the join of separator-free parts gives back the parts |
| Strings.JoinAppend | src/middlewares/validation.middleware.ts:13-18 | the join of two non-empty lists is the two joins with one separator between them |
| Strings.ContainsAt | src/services/auth.service.ts:120 | `includes` holds iff the text occurs at some position |
| Strings.Infix | src/services/auth.service.ts:120 | a text with `sub` placed anywhere in it contains `sub` |
| Strings.MissingFirstCharacter | src/services/auth.service.ts:120 | a text lacking the first character of `sub` does not contain `sub` |
| Strings.TrimStart | src/middlewares/cors.middleware.ts:6-8 | leading trim keeps a suffix; everything removed is white space; the result does not start with white space |
| Strings.TrimEnd | src/middlewares/cors.middleware.ts:6-8 | trailing trim keeps a prefix; everything removed is white space; the result does not end with white space |
| Strings.TrimShape | src/middlewares/cors.middleware.ts:6-8 | `trim` keeps the contiguous run of the input that starts right after its leading white space |
| Strings.TrimEnds | src/middlewares/cors.middleware.ts:6-8 | what `trim` keeps neither starts nor ends with white space |
| Strings.TrimKeepsOut | src/middlewares/cors.middleware.ts:6-8 | `trim` introduces no character the input lacks |
| Strings.HexDigit | src/services/auth.service.ts:47 | every digit value below 16 prints as a hexadecimal character |
| Strings.Hex | src/services/auth.service.ts:40 | an id prints as exactly `width` hexadecimal characters |
| Strings.Decimal | src/middlewares/validation.middleware.ts:15 | an array position prints as a non-empty run of decimal digits that denotes the position, with no leading zero |
| Zod.Failing | src/validations/auth.validation.ts:3-9 | no issue iff every check holds; every issue sits at the value's path |
| Zod.FailingInOrder | src/validations/auth.validation.ts:3-9 | one issue per failing check, in the checks' order: the failing check at position i yields the issue with its message at the index equal to the number of failing checks before i |
| JwtService.GenerateToken | src/services/jwtService.service.ts:10-24 | an unset or empty secret or lifetime gives the configuration error; otherwise success iff the signer signs the claims, and the token is the signer's; every failure is a plain error |
| JwtService.GenerateTokenSignsNothingUnconfigured | src/services/jwtService.service.ts:18-22 | unconfigured, the outcome is a failure that does not depend on the signer at all |
| JwtService.VerifyToken | src/services/jwtService.service.ts:26-42 | no secret: throws; with a secret: never throws, returns the verifier's payload when it decodes and `null` for every verification error |
| JwtService.ValidateTokenExpiration | src/services/jwtService.service.ts:44-101 | never valid and expired at once; valid iff a payload is present iff token and secret are set and the verifier decodes; expired iff the verifier reports expiry; empty token or no secret gives neither |
| JwtService.ValidationMessages | src/services/jwtService.service.ts:52-100 | each of the six branches carries its own message |
| JwtService.TimeUntilExpiry | src/services/jwtService.service.ts:118-125 | never negative; 0 when `exp` is absent or 0; otherwise `exp - floor(now / 1000)` clamped at 0 |
| JwtService.CheckTokenStatus | src/services/jwtService.service.ts:103-128 | expired iff not valid and expired; invalid iff neither; only valid carries the payload and the remaining lifetime |
| JwtService.TimeUntilExpiryNonIncreasing | src/services/jwtService.service.ts:118-125 | the remaining lifetime never grows as the clock advances |
| JwtService.TimeUntilExpiryOfLifetime | src/services/jwtService.service.ts:118-125 | a token that expires `lifetime` seconds after issue never has more than `lifetime` left, has all of it within the issuing second, and has none once the lifetime has run out |
| JwtService.VerifyAgreesWithStatus | src/services/jwtService.service.ts:26-42 | with a secret set, `verifyToken` yields a payload exactly when `checkTokenStatus` says valid, and the two payloads are the same |
| AuthService.FindOne | src/services/auth.service.ts:30 | `findOne` returns the first stored user matching the filter, or none when no user matches |
| AuthService.FindByEmailUnique | src/services/auth.service.ts:30-33 | in a well-formed table the user found by email is the one user with that email |
| AuthService.ComparePassword | src/services/auth.service.ts:159-166 | true iff the hash comparison matches; a comparison that throws becomes 'Password comparison failed' |
| AuthService.Login | src/services/auth.service.ts:13-64 | every plain failure is 'Login failed'; `login` never raises a conflict |
| AuthService.LoginRethrow | src/services/auth.service.ts:53-63 | validation, not-found and unauthorized errors pass through unchanged; every other error becomes 'Login failed' |
| AuthService.LoginRequiresCredentials | src/services/auth.service.ts:26-28 | a missing or empty email or password is the validation error |
| AuthService.LoginUnknownEmail | src/services/auth.service.ts:30-33 | no stored user with the email: not found |
| AuthService.LoginWrongPassword | src/services/auth.service.ts:35-38 | a mismatching password is unauthorized; a comparison that throws is 'Login failed' |
| AuthService.LoginSuccess | src/services/auth.service.ts:40-52 | a successful login returns the public view of the user found by email, with no password, and the non-empty token signed for that user |
| AuthService.LoginHappyPath | src/services/auth.service.ts:26-52 | present credentials, a user found by email, a matching password and a non-empty token signed for that user give exactly that user's view and that token |
| AuthService.LoginTokenFailure | src/services/auth.service.ts:40-43 | a signer that fails or returns an empty token makes a correct login 'Login failed' |
| AuthService.RegisterRethrow | src/services/auth.service.ts:115-126 | validation and conflict errors pass through unchanged; any other error becomes the duplicate-user conflict if its message mentions E11000, and 'Registration failed' if it does not |
| AuthService.DuplicateKeyIsConflict | src/services/auth.service.ts:120-124 | an error whose message has E11000 anywhere in it becomes the duplicate-user conflict |
| AuthService.RegisterStep | src/services/auth.service.ts:66-127 | missing field: validation error, table unchanged; an existing user with that email or username: conflict, table unchanged; the table is unchanged or gains exactly the new user with the hashed password; a success returns that user's view and a non-empty token; every failure is validation, conflict or 'Registration failed' |
| AuthService.RegisterHappyPath | src/services/auth.service.ts:78-113 | present fields, no user with that email or username, a working store and a non-empty token give exactly: the new user, with the hashed password, appended, and its view with that token returned |
| AuthService.RegisterPreservesWellFormed | src/services/auth.service.ts:83-100 | registration keeps ids equal to positions and emails and usernames unique |
| AuthService.AppendKeepsWellFormed | src/services/auth.service.ts:93-100 | saving a user whose id is the next position, with an email and a username no stored user has, keeps the table well formed |
| AuthService.RegisterTokenFailureKeepsUser | src/services/auth.service.ts:100-105 | a signer error that does not mention E11000, after `save()`, gives 'Registration failed' with the new user stored |
| AuthService.RegisterEmptyTokenKeepsUser | src/services/auth.service.ts:100-105 | an empty token after `save()` gives 'Registration failed' with the new user stored |
| AuthService.RegisterTwiceConflicts | src/services/auth.service.ts:83-91 | a second registration with an email already registered is a conflict and changes nothing |
| AuthService.RegisterThenLogin | src/services/auth.service.ts:93-100 | a user who just registered can log in with the same credentials and gets the same view back |
| AuthService.ForgotPassword | src/services/auth.service.ts:129-157 | an empty email is a validation error, an unknown email not found; success gives the fixed message, only for a known email, iff a non-empty token is issued; for a known email every failure (a signer error or an empty token) is 'Forgot password failed', and so is every plain error |
| AuthService.UserStore.Register | src/services/auth.service.ts:66-127 | `register` on the store keeps it well formed, and its result and new table are those of `RegisterStep` |
| AuthMiddleware.ExtractTokenFromHeader | src/middlewares/auth.middleware.ts:31-34 | a token iff the header starts with "Bearer "; it is the text after that up to the next space, so later fields are ignored |
| AuthMiddleware.ExtractFields | src/middlewares/auth.middleware.ts:32-33 | the first field is exactly `Bearer` and a second exists iff the header starts with "Bearer "; the second field is the text after it up to the next space |
| AuthMiddleware.Gate | src/middlewares/auth.middleware.ts:4-29 | admits iff the extracted token is non-empty, the secret is set and the verifier decodes it, with the decoded payload; every rejection is 401 |
| AuthMiddleware.GateRejections | src/middlewares/auth.middleware.ts:12-28 | no token: 'Unauthorized access'; no secret: 'Authentication failed'; a failed verification: 'Invalid token' |
| AuthMiddleware.GateRejectsUnauthenticated | src/middlewares/auth.middleware.ts:12-22 | no header, another scheme, or an expired token is turned away |
| AuthMiddleware.GateAgreesWithStatus | src/middlewares/auth.middleware.ts:18-25 | the gate admits exactly the tokens the status classifier calls valid, with the same payload |
| AuthMiddleware.Authenticate | src/middlewares/auth.middleware.ts:4-29 | admitted: `req.user` is the payload and `next()` is called once after it; rejected: `req.user` is untouched, the 401 is written and `next` is not called |
| AuthController.ErrorReply | src/controllers/auth.controller.ts:13-19 | an application error answers with its status and message; any other error is a 500 'Internal server error' |
| AuthController.PlainErrorsLookAlike | src/controllers/auth.controller.ts:16-17 | no detail of an unexpected error reaches the client |
| AuthController.SessionJsonHasNoPassword | src/controllers/auth.controller.ts:12 | the session response has exactly a user and a token; the user has exactly id, username and email |
| AuthController.LoginRoute | src/controllers/auth.controller.ts:22-34 | a successful login answers 200 with the session body; a failed one answers with that error's reply: 400, 401, 404 or a generic 500 |
| AuthController.RegisterStatuses | src/controllers/auth.controller.ts:8-20 | answers 201 iff registration succeeds; otherwise 400, 409 with the duplicate message, or 500 |
| AuthController.RegisterRoute | src/controllers/auth.controller.ts:8-20 | the route applies `register` to the store and answers with its result |
| AuthController.SelectToken | src/controllers/auth.controller.ts:38-42 | the header's text after "Bearer " when it starts so; otherwise the body token when non-empty, else the query token |
| AuthController.ValidateTokenReply | src/controllers/auth.controller.ts:44-74 | no token: 400 invalid; valid: 200 with the remaining lifetime and the payload's user; expired: 401 expired; anything else: 401 invalid |
| AuthController.ValidateTokenRoute | src/controllers/auth.controller.ts:36-74 | answers 200, 400 or 401; 200 iff the selected token is non-empty and classified valid; 400 iff the selected token is missing or empty; a non-empty Bearer header decides the answer whatever the body and query hold |
| AuthController.EmptyTokenSkipsClassifier | src/controllers/auth.controller.ts:44-50 | without a token the reply depends on neither the verifier, nor the secret, nor the clock |
| AuthController.EmptyBearerDoesNotFallBack | src/controllers/auth.controller.ts:38-50 | a bare "Bearer " header gets the 400 whatever the body and query carry |
| AuthController.ExtractorsAgree | src/controllers/auth.controller.ts:40-41 | for "Bearer " + a space-free token, the route and the gate read the same token |
| AuthController.ExtractorsDiffer | src/controllers/auth.controller.ts:40-41 | for a token with a space, the route reads all of it and the gate only the part before the first space |
| AuthController.ForgotPasswordRoute | src/controllers/auth.controller.ts:83-99 | 400 iff the email is missing or empty; otherwise 200 with a message naming the email |
| AuthController.ForgotPasswordRouteSkipsService | src/controllers/auth.controller.ts:85-91 | an email the service reports as unknown still gets 200 from the route |
| ValidationMiddleware.FailureMessagesDistinct | src/middlewares/validation.middleware.ts:21 | the three validators' top-level messages differ |
| ValidationMiddleware.PathTexts | src/middlewares/validation.middleware.ts:15 | every path segment is rendered, in order: a key as itself, a position in decimal |
| ValidationMiddleware.FormatAll | src/middlewares/validation.middleware.ts:13-17 | one rendering per issue, in the issues' order |
| ValidationMiddleware.FormatIssues | src/middlewares/validation.middleware.ts:13-18 | no issues render as the empty string, one as its own rendering, and the string holds the rendering of every issue |
| Strings.JoinContainsParts | src/middlewares/validation.middleware.ts:18 | a joined text contains every one of its parts |
| ValidationMiddleware.FormatTopLevelIssue | src/middlewares/validation.middleware.ts:15-16 | an issue on a top-level field renders as `field: message` |
| ValidationMiddleware.FormatNestedIssue | src/middlewares/validation.middleware.ts:15-16 | an issue on an array element renders as `field.position: message` |
| ValidationMiddleware.FormatIssuesAppend | src/middlewares/validation.middleware.ts:13-18 | a further issue appends `, ` and its rendering: the string keeps the issues' order |
| ValidationMiddleware.FormatIssuesConcat | src/middlewares/validation.middleware.ts:13-18 | rendering two runs of issues one after the other is rendering them together |
| ValidationMiddleware.Decide | src/middlewares/validation.middleware.ts:5-29 | continue with the parsed value iff the parse succeeds; a 400 with the message and the rendered issues iff it reports issues; forward the error iff it throws anything else |
| ValidationMiddleware.ValidatorsDifferOnlyInMessage | src/middlewares/validation.middleware.ts:31-55 | the validators for two parts decide alike on the same outcome, except for the message of a 400 |
| ValidationMiddleware.Validate | src/middlewares/validation.middleware.ts:57-81 | success: the part is the parsed value and `next()` is called; issues: one 400 response, part untouched; other error: `next(error)`, nothing written; the other parts never change |
| AuthValidation.EmailIssues | src/validations/auth.validation.ts:4 | an email is accepted iff it is non-empty and well formed; every issue is at `email` |
| AuthValidation.LoginPasswordIssues | src/validations/auth.validation.ts:5-8 | a login password is accepted iff it has at least 6 characters; every issue is at `password` |
| AuthValidation.UsernameIssues | src/validations/auth.validation.ts:12-20 | a username is accepted iff it has 3 to 30 characters, all letters, digits or underscores; every issue is at `username` |
| AuthValidation.RegisterPasswordIssues | src/validations/auth.validation.ts:22-26 | a registration password is accepted iff it has 6 to 128 characters; every issue is at `password` |
| AuthValidation.LoginIssues | src/validations/auth.validation.ts:3-9 | a login body is accepted iff its email is non-empty and well formed and its password has at least 6 characters; every issue is about one of the two fields, the email's first |
| AuthValidation.RegisterIssues | src/validations/auth.validation.ts:11-27 | a registration body is accepted iff all three field rules hold |
| AuthValidation.RegisterIssuesInFieldOrder | src/validations/auth.validation.ts:11-27 | every issue is about one of the three fields, and they come username first, then email, then password |
| AuthValidation.RegisteredCredentialsPassLogin | src/validations/auth.validation.ts:5-8 | every email and password accepted at registration is accepted at login |
| AuthValidation.ForgotPasswordIssues | src/validations/auth.validation.ts:29-31 | accepted iff the email is; every issue is about the email |
| AuthValidation.EmailRequiredEverywhere | src/validations/auth.validation.ts:21 | an empty email is rejected by all three schemas |
| AuthValidation.EmptyUsernameIssues | src/validations/auth.validation.ts:12-20 | an empty username reports required, too short and bad characters, in that order |
| AuthValidation.AcceptedLoginPassesServiceCheck | src/services/auth.service.ts:26-28 | a login body `loginSchema` accepts would never trigger the service's missing-credentials error |
| AuthValidation.AcceptedRegisterPassesServiceCheck | src/services/auth.service.ts:79-81 | a registration body `registerSchema` accepts would never trigger the service's missing-fields error |
| ProblemValidation.ProblemIdIssues | src/validations/problem.validation.ts:6 | a problem id is accepted iff it is non-empty |
| ProblemValidation.TitleIssues | src/validations/problem.validation.ts:7-10 | a title is accepted iff it has 1 to 200 characters |
| ProblemValidation.UrlIssues | src/validations/problem.validation.ts:11-14 | a URL is accepted iff it is non-empty and well formed |
| ProblemValidation.ObjectIdIssues | src/validations/problem.validation.ts:15-18 | a user id (and, with its own messages, a route id) is accepted iff it is exactly 24 hexadecimal characters; an empty one reports both required and malformed, in that order |
| ProblemValidation.DifficultyIssues | src/validations/problem.validation.ts:19-21 | a difficulty is accepted iff it is a member of the enumeration |
| ProblemValidation.LanguageIssues | src/validations/problem.validation.ts:22-25 | a language is accepted iff it has 1 to 50 characters |
| ProblemValidation.AttemptsIssues | src/validations/problem.validation.ts:26-30 | attempts are accepted iff an integer in [0, 1000] |
| ProblemValidation.TagElementIssues | src/validations/problem.validation.ts:32-37 | no issue iff every tag has 1 to 30 characters |
| ProblemValidation.TagIssuesAtFailingTags | src/validations/problem.validation.ts:32-37 | every tag issue sits under `tags` at the index of a tag that fails |
| ProblemValidation.FailingTagsReported | src/validations/problem.validation.ts:32-37 | every tag that fails has an issue under `tags` at its index |
| ProblemValidation.TagsIssues | src/validations/problem.validation.ts:31-39 | tags are accepted iff at most 20, each of 1 to 30 characters |
| ProblemValidation.StatusIssues | src/validations/problem.validation.ts:40-42 | a status is accepted iff it is a member of the enumeration |
| ProblemValidation.TimeTakenIssues | src/validations/problem.validation.ts:43-46 | time taken is accepted iff in [0, 86400] |
| ProblemValidation.CognitiveLoadIssues | src/validations/problem.validation.ts:47-52 | cognitive load is accepted iff an integer in [1, 10] |
| ProblemValidation.DateIssues | src/validations/problem.validation.ts:53-57 | a date is accepted iff it converts to a valid instant no later than now |
| ProblemValidation.NotesIssues | src/validations/problem.validation.ts:58-61 | notes are accepted iff at most 1000 characters |
| ProblemValidation.Optional | src/validations/problem.validation.ts:58-61 | an absent optional field reports nothing; a present one is checked as usual |
| ProblemValidation.ParseEntry | src/validations/problem.validation.ts:5-62 | accepts iff every field rule holds; on success tags default to [], cognitive load to 3 and the date to now, the date is not in the future, and every other field is the input's; on failure the issues are returned |
| ProblemValidation.DescriptionIssues | src/validations/problem.validation.ts:6-25 | problem id, title, URL, user id, difficulty and language report nothing iff each meets its rule |
| ProblemValidation.ProgressIssues | src/validations/problem.validation.ts:26-42 | attempts, tags (defaulted to none) and status report nothing iff each meets its rule |
| ProblemValidation.EffortIssues | src/validations/problem.validation.ts:43-61 | time taken, cognitive load (defaulted to 3), date (defaulted to now) and notes report nothing iff each meets its rule |
| ProblemValidation.EntryIssues | src/validations/problem.validation.ts:5-62 | the schema reports no issue iff every field rule holds |
| ProblemValidation.DefaultsAccepted | src/validations/problem.validation.ts:39-57 | leaving out tags, cognitive load and date parses exactly as sending [], 3 and now |
| ProblemValidation.DefaultsFilled | src/validations/problem.validation.ts:39-57 | an accepted entry that left those fields out holds no tags, a load of 3 and the current time |
| ProblemValidation.SameParse | src/validations/problem.validation.ts:5-62 | two bodies that agree on every field, once defaults are filled in, parse alike |
| ProblemValidation.UnparseableDateReportedAsFuture | src/validations/problem.validation.ts:55-56 | a date text that does not parse is reported as "Date solved cannot be in the future" |
| ProblemValidation.StoredUserIdsAccepted | src/validations/problem.validation.ts:15-18 | every id the user store hands out is a well-formed user id |
| ProblemValidation.UpdateDescriptionIssues | src/validations/problem.validation.ts:64-66 | present problem id, title, URL, difficulty and language report nothing iff each meets the entry rule |
| ProblemValidation.UpdateProgressIssues | src/validations/problem.validation.ts:64-66 | present attempts, tags and status report nothing iff each meets the entry rule |
| ProblemValidation.UpdateEffortIssues | src/validations/problem.validation.ts:64-66 | present time taken, cognitive load, date and notes report nothing iff each meets the entry rule |
| ProblemValidation.AcceptableAsUpdate | src/validations/problem.validation.ts:64-66 | every body meeting the entry constraints meets the update constraints when sent in full as an update |
| ProblemValidation.UpdateIssues | src/validations/problem.validation.ts:64-66 | an update reports no issue iff every present field meets the entry schema's rule for it |
| ProblemValidation.ParseUpdate | src/validations/problem.validation.ts:64-66 | accepts iff no present field has an issue; absent fields stay absent, with no defaults; every field is the input's, a present date converted and not in the future |
| ProblemValidation.UpdateIgnoresUserId | src/validations/problem.validation.ts:64-66 | the update outcome does not depend on any `userId` the body holds |
| ProblemValidation.EmptyUpdateAccepted | src/validations/problem.validation.ts:64-66 | an empty update body is accepted as an update of nothing |
| ProblemValidation.FullUpdateFields | src/validations/problem.validation.ts:64-66 | a body the entry schema accepts, sent in full as an update, is accepted and keeps every field exactly as sent, tags, load and date included, with the date converted |
| ProblemValidation.AcceptedEntryIsAcceptedUpdate | src/validations/problem.validation.ts:64-66 | a body the entry schema accepts is accepted as an update; every field the body sent (problem id, title, URL, difficulty, language, attempts, status, time taken, notes, and tags, load and date when sent) has the entry's value, while tags, load and date left out stay absent instead of taking the entry's defaults |
| ProblemValidation.ParamsIssues | src/validations/problem.validation.ts:68-73 | a route id is accepted iff it is exactly 24 hexadecimal characters; an empty one reports both required and malformed; every issue is at `id` |
| ProblemValidation.ParamsAndUserIdAgree | src/validations/problem.validation.ts:68-73 | the route id is accepted exactly when the same text is accepted as a user id |
| CorsMiddleware.TrimAll | src/middlewares/cors.middleware.ts:6-8 | every entry is trimmed, and the list keeps its length and order |
| CorsMiddleware.AllowedOrigins | src/middlewares/cors.middleware.ts:6-8 | no list iff ALLOWED_ORIGINS is unset; a set variable gives at least one entry |
| CorsMiddleware.CheckOrigin | src/middlewares/cors.middleware.ts:1-22 | a missing or empty origin is refused with the missing-origin error; unset list: allowed; set list: allowed iff the origin is on it; the callback gets either an allow or one of the two errors |
| CorsMiddleware.AllowedIffSomeEntry | src/middlewares/cors.middleware.ts:14-18 | with the list set, allowed iff some comma-separated entry, trimmed, equals the origin |
| CorsMiddleware.CommaOriginDenied | src/middlewares/cors.middleware.ts:6-18 | an origin with a comma is never allowed by a set list |
| CorsMiddleware.PaddedOriginDenied | src/middlewares/cors.middleware.ts:6-18 | an origin that starts or ends with white space is never allowed by a set list |
| CorsMiddleware.EmptyListDeniesAll | src/middlewares/cors.middleware.ts:6-18 | ALLOWED_ORIGINS set to the empty string allows nothing |
| CorsMiddleware.UnsetAllowsAll | src/middlewares/cors.middleware.ts:14-15 | with ALLOWED_ORIGINS unset, every present origin is allowed |
| CorsMiddleware.ListRoundTrip | src/middlewares/cors.middleware.ts:6-18 | trimmed, comma-free origins written out with commas are read back as that list, and exactly they are allowed |

## Left out

- JWT signing and verification are parameters: `Signer` and `Verifier`. The library's encoding, signature checks and clock are not modelled. A not-yet-valid token counts as a `JsonWebTokenError`, the class it belongs to.
- `parseInt` of JWT_EXPIRES_IN is not modelled. The signer receives the raw setting.
- bcrypt is not modelled. Hashing is a function of the password (`Hasher`), so the random salt is not modelled. Comparison is a parameter with three outcomes.
- Environment variables and the clock are parameters. Time is an integer number of milliseconds, and `Date` parsing is a parameter (`Formats.parseDate`).
- The schema library's e-mail and URL format checks and the membership of the two enumerations are parameters (`Formats`). Their values live in files that are not part of this model.
- The schema library's own type errors are not modelled. Examples are a field of the wrong JSON type or a missing required field. Schema inputs are typed records.
- The decoding of a request's JSON into those records is not modelled. So `ValidationMiddleware.Validate` takes the schema as a function on JSON values, and the schema modules are not plugged into it.
- String lengths count Unicode scalar values. JavaScript counts UTF-16 code units, so a character outside the Basic Multilingual Plane counts once in the model and twice in the code.
- `req.query.token` is taken to be a string or absent. Express can also produce an array there.
- `console.log` and `console.error` are not modelled. That includes the reset token `forgotPassword` logs.
- Promise scheduling is not modelled. Each asynchronous call is a single step.
- Concurrent requests are not modelled. A duplicate key that a racing registration causes is modelled as the `storeFault` message of a failing `save()`.
- The 500 branch of `/validate-token` is not modelled. With the secret and the verifier as parameters, `checkTokenStatus` cannot throw. Reading `req.body.token` (src/controllers/auth.controller.ts:42) cannot throw either, provided `express.json()` (src/index.ts:19) always leaves an object in `req.body`, which the model assumes. So that branch is unreachable.
- A `next` or a response write that throws is not modelled.
- `AuthService.Login`: its own contract states only the error taxonomy. The lemmas beside it state each branch: `LoginRequiresCredentials`, `LoginUnknownEmail`, `LoginWrongPassword`, `LoginTokenFailure`, `LoginSuccess` and `LoginHappyPath`.
- Request bodies are typed records whose fields are strings or absent. In the code `req.body` is parsed JSON, so a field can be a number, an object or an array; JavaScript truthiness on those values is not modelled.
- `AuthService.Login`: a `findOne` that fails (a lost database connection, say) is not modelled. In the code its error becomes 'Login failed'.
- `AuthService.RegisterStep`: a failing `findOne` or `bcrypt.hash` is not modelled. In the code either error becomes 'Registration failed'. A failing `save()` is modelled, by `storeFault`.
- `AuthService.ForgotPassword`: a failing `findOne` is not modelled. In the code its error becomes 'Forgot password failed'.
- The problem service, the problem controller, the Mongoose models, the DTOs, database start-up and the server entry point are pass-throughs to Mongoose and Express. They are not modelled.
