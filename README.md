# omnia-frontend: authentication gate, form validation and sign-in flows

This project models the authentication core of the omnia-frontend Next.js
application in Dafny and proves properties of that model. The model covers:

- **The edge middleware.** It lets `/login` and `/sign-up` through. For any
  other path it continues when the `auth_token` cookie is present and
  non-empty, and otherwise redirects to `/login`. It is preceded by the route
  matcher, which skips API routes, static assets and metadata files
  (`middleware.dfy`).
- **The two sets of zod schemas.** The Portuguese field schemas in
  `lib/inputs_validation.ts` come with their `isValid*` predicates,
  `getValidationError` and two object schemas (`inputs_validation.dfy`). The
  English register and login schemas are in `lib/inputs-validation.ts`
  (`form_schemas.dfy`). A schema is modelled by the ordered list of issues
  (`path`, `message`) it reports (`validation_issues.dfy`).
- **The two `handleAuthentication` helpers.** Both reject a falsy token with
  "Authentication failed. No token received.". Both write the
  `auth_token=…; expires=…; path=/; SameSite=Strict` cookie, set to expire
  seven days ahead. The helper in `lib/auth-utils.ts` then navigates to its
  redirect path, which defaults to `/home` (`session_cookie.dfy`,
  `app_auth_utils.dfy`, `auth_utils.dfy`).
- **`createUser`.** It POSTs the user to `/user/create` and succeeds only on
  the reply message `"ok"`. It rethrows a rejected `response.json()` unchanged.
  Otherwise it throws the reply's message, or "Failed to create user" when
  there is none (`user_repository.dfy`).
- **The login and register form components.** These are classes holding
  `formData`, `errors` and `isSubmitting`. Their `handleChange` and
  `handleSubmit` methods (and `performLogin` for login) are proved against
  pure functions describing one submission run (`login_form.dfy`,
  `register_form.dfy`).

The browser is a `Browser` object holding one ordered log of effects:
- cookie assignments;
- `router.push` navigations;
- the `createUser` request;
- `authenticateUser` calls.

The cookie jar the middleware sees is computed from that log (`Jar`, in
`environment.dfy`). Lemmas connect a successful login or registration to the
middleware admitting the next request.

Remote calls and other code that is not modelled become function
parameters:
- the server's reply to the create request (`fetch`);
- `authenticateUser` (`authenticate`);
- what `jwtDecode` yields for the received token (`decode`);
- zod's e-mail pattern (`emailOk`);
- the calendar (`today`, a day number, and `toUtc`, its `toUTCString`).

The form components import their schemas from a module that is not part of
this model, so each form takes its schema as a parameter.

## Model

| member | source | states |
|---|---|---|
| Middleware.FindRoute | middleware.ts:13-15 | The public-route search finds a route exactly when the pathname equals one of the listed paths, and the route found is that path |
| Middleware.Decide | middleware.ts:12-30 | The middleware continues exactly when the path is public or the `auth_token` cookie is present and non-empty; otherwise it redirects to the same URL with pathname `/login` |
| Middleware.PublicRouteContinues | middleware.ts:3-19 | `/login` and `/sign-up` continue whatever the cookies |
| Middleware.PublicIgnoresCookies | middleware.ts:12-19 | On a public path the decision does not depend on the cookies |
| Middleware.PublicMatchIsExact | middleware.ts:13-15 | Matching is exact: `/login/` and `/login/x` without a token are redirected |
| Middleware.MissingTokenRedirects | middleware.ts:21-27 | A non-public path with a missing or empty token redirects to `/login`, keeping origin and query |
| Middleware.AnyTokenContinues | middleware.ts:21-29 | Any non-empty token lets any path through; its value is not checked |
| Middleware.NoRedirectLoop | middleware.ts:17-26 | The redirect target is itself let through, so a redirect never leads to another redirect |
| Middleware.Handle | middleware.ts:32-43 | A request bypasses the middleware exactly when the matcher does not match its path; otherwise the outcome is the middleware's decision |
| Middleware.ExcludedPathBypasses | middleware.ts:34-41 | Every path starting with `/` followed by an excluded prefix (api, _next/static, _next/image, favicon.ico, sitemap.xml, robots.txt) bypasses the middleware |
| Middleware.LookaheadIsTextual | middleware.ts:41 | The exclusion is a textual prefix test with `.` as a wildcard: `/apiary` and `/faviconXico` also bypass |
| Middleware.FirstCharMatched | middleware.ts:41 | A path whose first character after `/` starts no excluded prefix is matched |
| Middleware.PagesAreGated | middleware.ts:12-41 | `/login` reaches the middleware and continues; `/home` without a cookie reaches it and is redirected to `/login` |
| Middleware.RedirectTargetContinues | middleware.ts:17-41 | The redirect target passes the matcher and is let through, with any cookies |
| ValidationIssues.LastKeyedIsLast | components/login-form.tsx:30-36 | The reference "last issue for key k" exists exactly when some issue's first path segment is k, and it is the message of the last such issue |
| ValidationIssues.FoldIssuesLastWins | components/login-form.tsx:30-36 | The `reduce` over issues keeps a key exactly when an issue has it or the accumulator had it; a later issue overwrites an earlier one |
| ValidationIssues.FormatValidationErrors | components/login-form.tsx:27-37 | The error record has a key exactly when some issue's first path segment is that key, and maps it to the message of the last such issue; issues with an empty path are dropped |
| ValidationIssues.FormatValidationErrorsByIndex | components/register-form.tsx:96-104 | The same formatting, stated by issue index: a key is present iff an issue carries it, and its message is the one at the last index that carries it |
| ValidationIssues.LastIssueShows | components/login-form.tsx:30-36 | The last issue's key is always in the error record and maps to that issue's message |
| ValidationIssues.FormatExample | components/login-form.tsx:30-36 | Two `email` issues and one path-less issue give the single entry `email` with the second message |
| InputsValidation.HasSpecialChar | lib/inputs_validation.ts:11-14 | The special-character test holds exactly when some character lies outside `a-z`, `A-Z` and `0-9` |
| InputsValidation.IsValidPasswordIff | lib/inputs_validation.ts:7-15 | `isValidPassword` holds exactly for passwords of at least six characters with a character outside `a-zA-Z0-9` |
| InputsValidation.AlphanumericPasswordRejected | lib/inputs_validation.ts:11-14 | A purely alphanumeric password is rejected at any length, and the special-character message is its last issue |
| InputsValidation.ShortPasswordFailsBoth | lib/inputs_validation.ts:7-15 | A failed length check does not stop the refinement: "abc" gets both messages, length first |
| InputsValidation.ConfirmationIff | lib/inputs_validation.ts:21-28 | `isValidPasswordConfirmation` holds exactly when the confirmation is non-empty and equals the password; an empty password has no valid confirmation |
| InputsValidation.NameIff | lib/inputs_validation.ts:17-19 | `isValidName` holds exactly for names of at least three characters, counted before trimming, so "   " passes |
| InputsValidation.GetValidationError | lib/inputs_validation.ts:49-62 | Null exactly when the schema reports no issue; otherwise the first issue's message, or "Erro de validação" when that message is empty; never an empty string |
| InputsValidation.LoginAcceptsIff | lib/inputs_validation.ts:64-67 | The Portuguese login schema accepts exactly a valid e-mail with a valid password |
| InputsValidation.LoginValidationError | lib/inputs_validation.ts:49-67 | `getValidationError` on the login schema is null exactly for accepted forms; an invalid e-mail is the message reported |
| InputsValidation.RegisterRefinementNeverFires | lib/inputs_validation.ts:69-83 | As written, register acceptance is exactly name, e-mail and password validity. The confirmation never changes the issues, and no issue is ever reported at `passwordConfirmation` |
| InputsValidation.RegisterAcceptsMismatch | lib/inputs_validation.ts:75-78 | As written, the form ("Ana", "a@b.co", "secret!", "other") is accepted although the confirmation differs |
| InputsValidation.RegisterConfirmedIff | lib/inputs_validation.ts:75-82 | With the refinement comparing password and confirmation, acceptance also requires equality, and a mismatch reports "As senhas não coincidem" at `passwordConfirmation` |
| FormSchemas.RegisterAcceptsIff | lib/inputs-validation.ts:3-13 | The English register schema accepts exactly: a name of 3+ characters, a valid e-mail, a password of 6+ characters and an equal confirmation |
| FormSchemas.MismatchReported | lib/inputs-validation.ts:10-13 | A mismatch always ends the issues with "Passwords do not match" at `confirmPassword`; with a match no issue has that path |
| FormSchemas.AcceptedConfirmationLength | lib/inputs-validation.ts:7-13 | An accepted confirmation has at least six characters, through its equality with the password |
| FormSchemas.LoginAcceptsIff | lib/inputs-validation.ts:15-18 | The English login schema accepts exactly a valid e-mail with a non-empty password; there is no special-character rule |
| FormSchemas.RegisteredCanLogIn | lib/inputs-validation.ts:3-18 | Whatever the register schema accepts, the login schema accepts with the same e-mail and password |
| UserRepository.CreateUserRequest | app/api/repositories/user.ts:10 | The request goes to `/user/create` with method POST and the user data unchanged as body |
| UserRepository.InterpretCreateUser | app/api/repositories/user.ts:9-23 | Success exactly when the reply's message is "ok", giving `{success: true, message: "User created successfully"}`. A rejected `response.json()`, which `fetchData` returns without catching, is rethrown unchanged. Any other reply throws its message, or "Failed to create user" when the message is absent or empty; this includes the `undefined` that `fetchData` yields when `fetch` itself throws |
| UserRepository.CreateUserNeverReportsFailure | app/api/repositories/user.ts:12-19 | A returned response always has `success` true, so a caller's `!response.success` branch is dead; it is returned exactly when the server answers "ok" |
| UserRepository.CreateUserErrorsHaveMessages | app/api/repositories/user.ts:12-13 | Every error `createUser` raises itself is an `Error` with a non-empty message |
| SessionCookie.CookieStringRoundTrip | app/lib/auth-utils.ts:10 | For a token without `;`, the browser parses the cookie assignment back to the pair (`auth_token`, token) |
| SessionCookie.IssueCookie | app/lib/auth-utils.ts:1-13 | It succeeds exactly for a truthy token. Failure throws "Authentication failed. No token received." with no effect. Success writes exactly one cookie, expiring 7 days after today. When the token contains no `;`, the jar then holds the token |
| SessionCookie.IssuedCookieAdmits | lib/auth-utils.ts:16 | For a non-empty token without `;`, after the cookie write and whatever came before, the jar maps `auth_token` to the token, and the middleware lets any URL through |
| SessionCookie.JarIgnoresOtherEffects | app/lib/auth-utils.ts:10 | Navigations and remote calls do not change the cookie jar |
| AppAuthUtils.HandleAuthentication | app/lib/auth-utils.ts:1-13 | The helper's outcome and its appended effects are those of `IssueCookie`: a thrown error and no effect for a falsy token, otherwise one cookie write and no navigation |
| AuthUtils.HandleAuthentication | lib/auth-utils.ts:3-19 | A falsy token throws with no effect. Otherwise the helper writes the 7-day cookie, then navigates to `redirectPath` (default `/home`), and nothing else |
| LoginForm.SetFormError | components/login-form.tsx:39-49 | The errors become just `form`, holding the error's message when it is an `Error` and the context message otherwise |
| LoginForm.ClearFieldError | components/login-form.tsx:71-79 | Clearing a field removes that key and keeps every other field error unchanged. `form` survives exactly when it was present and some other field error remains |
| LoginForm.InvalidSubmitSendsNothing | components/login-form.tsx:105-114 | A form the schema rejects gets the formatted issues as errors and causes no effect |
| LoginForm.AuthenticatesWithFormCredentials | components/login-form.tsx:83-88 | A submission has effects exactly when the schema accepts the form; its first effect is then `authenticateUser` with the form's e-mail and password, and no later effect authenticates again |
| LoginForm.SaveUserData | components/login-form.tsx:126-132 | `saveUserDataInGlobalState` throws exactly when `jwtDecode` throws or the payload is `null`/`undefined`. A falsy payload of another kind sets "Failed to decode user data from token." and still returns; a truthy payload is stored |
| LoginForm.NavigatesOnlyOnSuccess | components/login-form.tsx:83-103 | The run navigates exactly when validation passes and no later step throws. The effects are then exactly authenticate, cookie write, navigate to `/home`. The errors are then empty, except for a falsy non-null decoded payload: that run still navigates, and shows `{form: "Failed to decode user data from token."}` |
| LoginForm.FailureSetsOnlyFormError | components/login-form.tsx:96-102 | A validated submission that fails navigates nowhere, and its errors are exactly `{form: m}`. A rejected authentication gives its Error message or the context string "Falha no processo de login ou autenticação.". A falsy token gives "Authentication failed. No token received.". A throw while saving the user gives its Error message or the context string. That throw comes either from `jwtDecode` or from reading `.id` of a `null`/`undefined` payload |
| LoginForm.EmptyPasswordShown | components/login-form.tsx:105-114 | With the English login schema, an empty password shows "Password is required" under `password`. An `email` entry appears exactly for an invalid e-mail, and nothing is sent |
| LoginForm.LoginAdmitsGate | components/login-form.tsx:83-95 | For a received token without `;`, after a successful login and whatever came before, the middleware lets every URL through on the resulting cookie jar |
| LoginForm.LoginForm.constructor | components/login-form.tsx:57-64 | The form starts empty, with no errors and not submitting |
| LoginForm.LoginForm.HandleChange | components/login-form.tsx:66-81 | The field takes the new value; the field's error is cleared as `ClearFieldError` says only when it was truthy |
| LoginForm.LoginForm.PerformLogin | components/login-form.tsx:83-103 | Errors and the page's effects become those of the login run from the current state; form data and `isSubmitting` are untouched |
| LoginForm.LoginForm.HandleSubmit | components/login-form.tsx:105-124 | Errors and effects become those of the submission run. `isSubmitting` is unchanged after a rejected form and false after a validated one |
| RegisterForm.ClearFieldError | components/register-form.tsx:42-44 | The field's error becomes undefined and every other entry is kept |
| RegisterForm.NewUser | components/register-form.tsx:57-62 | The new user carries the form's name, e-mail and password with status "active" |
| RegisterForm.InvalidSubmitSendsNothing | components/register-form.tsx:95-105 | A form the schema rejects gets the formatted issues as errors and causes no effect |
| RegisterForm.CreatesUserFirst | components/register-form.tsx:52-62 | A validated submission's first effect is the create request for the form's user |
| RegisterForm.AuthenticatesOnlyAfterCreation | components/register-form.tsx:57-71 | `authenticateUser` is called, with the form's credentials, exactly when the user was created |
| RegisterForm.ErrorsClearIffRegistered | components/register-form.tsx:64-94 | A validated submission ends with no errors exactly when the server answered "ok" and authentication returned a truthy token. Otherwise the only error is `form`, and it is defined. A non-"ok" server message reaches `form` unchanged |
| RegisterForm.FailureMessages | components/register-form.tsx:64-91 | The `form` message for each failing step. A rejected reply shows its Error message, or "Failed to register. Please try again." for any other thrown value. A missing reply or message shows "Failed to create user". A failed authentication shows its Error message or the register fallback. A falsy token shows "Authentication failed. No token received." |
| RegisterForm.MismatchShownOnConfirmation | components/register-form.tsx:52-105 | With the English register schema, a confirmation that differs from the password shows "Passwords do not match" under `confirmPassword`, and nothing is sent |
| RegisterForm.NeverNavigates | components/register-form.tsx:73-83 | Registration never navigates, since the imported helper does not push a route |
| RegisterForm.SuccessStoresToken | components/register-form.tsx:68-74 | A successful registration ends with no errors and the effects create, authenticate, cookie write, in that order; for a received token without `;`, the jar then maps `auth_token` to that token |
| RegisterForm.RegisterForm.constructor | components/register-form.tsx:21-36 | The form starts empty, with no errors and not submitting |
| RegisterForm.RegisterForm.HandleChange | components/register-form.tsx:38-45 | The field takes the new value; its error is cleared only when it was truthy |
| RegisterForm.RegisterForm.HandleSubmit | components/register-form.tsx:47-111 | Errors and effects become those of the submission run. `isSubmitting` is unchanged after a rejected form and false after a validated one |

## Left out

- JSX, styling, images and the `Card`/`Input` components: presentation only.
- `fetchData` and `authenticateUser` (app/api/fetchprovider.ts, app/api/repositories/auth.ts) perform network I/O. Their results are the parameters `fetch` and `authenticate`. A `fetchData` whose request throws yields `undefined`, which is the `Undefined` reply.
- `jwtDecode` is not part of this model. The kind of value it yields for a token is the parameter `decode`.
- The jotai atom write `setUser` (atoms/user.ts) is not modelled: the stored user has no observable effect on the form or the gate.
- zod's e-mail regular expression is not modelled; e-mail validity is the parameter `emailOk`.
- InputsValidation.GetValidationError: a schema is a function to its list of issues and cannot throw. The branch at lib/inputs_validation.ts:60, which returns "Erro de validação" for a non-`ZodError` thrown by a refinement or transform, is not represented.
- Zod behaviour is taken as follows:
  - a failed string check does not abort, so later refinements still run;
  - object issues come in key order;
  - unknown keys are stripped.
- `new Date()`, `setDate` and `toUTCString` are not modelled. The current date is a day number and its UTC text is the parameter `toUtc`. Time of day and daylight-saving shifts are not modelled.
- The Next.js matcher's compilation to a regular expression is not modelled. Case sensitivity, trailing-slash normalisation, locale prefixes and line-terminator characters are reduced to "the text after `/` starts with an excluded prefix, `.` matching any character".
- `async`/`await` and `Promise.all` are modelled as sequential calls in the written order. React state batching, re-renders and stale closures are not modelled. `isSubmitting` is stated after the submission, not while it is pending.
- `console.error` logging has no observable effect here and is left out.
- String lengths are counted in characters, not UTF-16 code units.
- Issue paths are strings only; numeric path segments do not occur in these flat object schemas.
- A reply whose `message` is not a string is not modelled: the reply message is an optional string.
- LoginForm.SubmitRun and RegisterForm.SubmitRun have no path for the outer `catch` blocks at login-form.tsx:119-120 and register-form.tsx:107-110. In the login form, `performLogin` catches everything it calls. In the register form, `safeParse`, `setIsSubmitting`, the `reduce` and `setErrors` sit outside every inner `try`. They cannot throw here, because a schema is a function to its list of issues and the state setters are assignments. A schema or setter that throws is therefore not represented.
- The cookie jar ignores the `expires`, `path` and `SameSite` attributes and does not trim whitespace. A cookie is never expired in this model.
- The register form passes `router` to a one-argument `handleAuthentication`, which ignores it. The model drops the argument.
- The middleware only tests that the token cookie is present and non-empty. It does not check expiry or signature, and the model follows the code.
- `InputsValidation.RegisterIssuesConfirmed` reads a confirmation field that the object as written does not declare. It stands for the schema with that field declared.

## Findings

| source | as written | input that shows it | evidently intended | confidence | as-written member | corrected member |
|---|---|---|---|---|---|---|
| lib/inputs_validation.ts:75-78 | the register refinement compares `data.password` with itself, so it always holds | name "Ana", e-mail "a@b.co", password "secret!", confirmation "other": accepted | reject when the password and its confirmation differ, reporting "As senhas não coincidem" at `passwordConfirmation` | high; not executed | InputsValidation.RegisterAcceptsMismatch | InputsValidation.RegisterConfirmedIff |
