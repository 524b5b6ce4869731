/** The login form's state and handlers: `formData`, `errors` and
    `isSubmitting`, updated by `handleChange`, `handleSubmit` and
    `performLogin`. The form's schema, the `authenticateUser` call and what
    `jwtDecode` yields for a token are parameters. */
module LoginForm {
  import opened Wrappers
  import opened ValidationIssues
  import opened Environment
  import opened SessionCookie
  import AppAuthUtils
  import Middleware
  import FormSchemas

  /** The two inputs, by their element `id`. */
  datatype LoginField = EmailField | PasswordField

  function Key(field: LoginField): string {
    match field
    case EmailField => "email"
    case PasswordField => "password"
  }

  function WithField(data: LoginFormData, field: LoginField, value: string): LoginFormData {
    match field
    case EmailField => data.(email := value)
    case PasswordField => data.(password := value)
  }

  const FormKey: string := "form"
  const LoginContext: string := "Falha no processo de login ou autenticação."
  const HomePath: string := "/home"
  const DecodeFailedMessage: string := "Failed to decode user data from token."

  /** What `jwtDecode(token)` yields: a truthy payload (an object); `null`
      or `undefined`, on which reading `.id` then throws the `TypeError`
      given; another falsy value (`0`, `false`, `""`), on which reading `.id`
      gives `undefined`; or a thrown error for a malformed token. */
  datatype Decoded = Claims | NullishPayload(typeError: Thrown) | FalsyPayload | DecodeThrew(error: Thrown)

  /** How `saveUserDataInGlobalState` ends: it stored the user; it set the
      form error for a falsy payload and still returned; or it threw. */
  datatype SaveOutcome = Saved | SavedAfterError(message: string) | SaveThrew(error: Thrown)

  /** `saveUserDataInGlobalState`: a falsy payload sets the form error
      "Failed to decode user data from token.". Execution then goes on to
      read `userData.id`, which throws only for `null` and `undefined`. */
  function SaveUserData(decoded: Decoded): (r: SaveOutcome)
    ensures r.SaveThrew? <==> decoded.NullishPayload? || decoded.DecodeThrew?
    ensures r.SavedAfterError? <==> decoded.FalsyPayload?
    ensures r.SavedAfterError? ==> r.message == DecodeFailedMessage
  {
    match decoded
    case Claims => Saved
    case NullishPayload(e) => SaveThrew(e)
    case FalsyPayload => SavedAfterError(DecodeFailedMessage)
    case DecodeThrew(e) => SaveThrew(e)
  }

  /** `setFormError`: the errors become exactly `{form: m}`, where `m` is the
      Error's message or else the context string. */
  function SetFormError(error: Thrown, context: string): (errors: map<string, string>)
    ensures errors.Keys == {FormKey}
    ensures error.Error? ==> errors[FormKey] == error.message
    ensures error.NonError? ==> errors[FormKey] == context
  {
    map[FormKey := MessageOr(error, context)]
  }

  /** The `setErrors` update of `handleChange`: delete `id`, then delete
      `form` when no key other than `form` remains. */
  function ClearFieldError(errors: map<string, string>, id: string): (r: map<string, string>)
    requires id != FormKey
    ensures id !in r && r.Keys <= errors.Keys
    ensures forall k :: k in r ==> r[k] == errors[k]
    ensures forall k :: k in errors && k != id && k != FormKey ==> k in r
    ensures FormKey in r <==> FormKey in errors && exists k :: k in errors && k != id && k != FormKey
  {
    var newErrors := errors - {id};
    if !(exists k :: k in newErrors && k != FormKey) then newErrors - {FormKey} else newErrors
  }

  /** The errors and effects a submission leaves. */
  datatype LoginRun = LoginRun(errors: map<string, string>, effects: seq<Effect>)

  /** `performLogin` from errors `before`: authenticate with the form's
      credentials, write the session cookie, save the user, navigate home;
      the first failure sets the form error instead and stops. A save that
      set the decoding error still navigates, with that error shown. */
  function PerformLoginRun(data: LoginFormData, before: map<string, string>,
                           authenticate: (string, string) -> AuthOutcome, decode: string -> Decoded,
                           today: int, toUtc: int -> string): LoginRun
  {
    var call := [Authenticate(data.email, data.password)];
    match authenticate(data.email, data.password)
    case Failed(e) => LoginRun(SetFormError(e, LoginContext), call)
    case Token(token) =>
      var (out, writes) := IssueCookie(token, today, toUtc);
      if out.Fail? then LoginRun(SetFormError(out.error, LoginContext), call + writes)
      else
        var saved := SaveUserData(decode(token.value));
        var done := call + writes + [Navigate(HomePath)];
        match saved
        case SaveThrew(e) => LoginRun(SetFormError(e, LoginContext), call + writes)
        case SavedAfterError(m) => LoginRun(map[FormKey := m], done)
        case Saved => LoginRun(before, done)
  }

  /** `handleSubmit`: clear the errors, validate, and on success run
      `performLogin`. */
  function SubmitRun(schema: Schema<LoginFormData>, data: LoginFormData,
                     authenticate: (string, string) -> AuthOutcome, decode: string -> Decoded,
                     today: int, toUtc: int -> string): LoginRun
  {
    var issues := schema(data);
    if issues != [] then LoginRun(FormatValidationErrors(issues), [])
    else PerformLoginRun(data, map[], authenticate, decode, today, toUtc)
  }

  /** Whether the token the authentication returned got through every step
      without a throw. */
  predicate Succeeded(data: LoginFormData, authenticate: (string, string) -> AuthOutcome, decode: string -> Decoded) {
    var r := authenticate(data.email, data.password);
    r.Token? && Truthy(r.token) && !SaveUserData(decode(r.token.value)).SaveThrew?
  }

  /** A form the schema rejects gets the formatted issues as its errors and
      sends nothing: no authentication, no cookie, no navigation. */
  lemma InvalidSubmitSendsNothing(schema: Schema<LoginFormData>, data: LoginFormData,
                                  authenticate: (string, string) -> AuthOutcome, decode: string -> Decoded,
                                  today: int, toUtc: int -> string)
    requires schema(data) != []
    ensures SubmitRun(schema, data, authenticate, decode, today, toUtc) ==
      LoginRun(FormatValidationErrors(schema(data)), [])
  {
  }

  /** Authentication is requested only for an accepted form, once, first,
      and with the form's own email and password. */
  lemma AuthenticatesWithFormCredentials(schema: Schema<LoginFormData>, data: LoginFormData,
                                         authenticate: (string, string) -> AuthOutcome, decode: string -> Decoded,
                                         today: int, toUtc: int -> string)
    ensures var run := SubmitRun(schema, data, authenticate, decode, today, toUtc);
      (|run.effects| > 0 <==> schema(data) == []) &&
      (|run.effects| > 0 ==> run.effects[0] == Authenticate(data.email, data.password)) &&
      forall i :: 0 < i < |run.effects| ==> !run.effects[i].Authenticate?
  {
  }

  /** Navigation to `/home` happens exactly when no step threw, and the
      cookie was then written before the navigation. The errors stay
      cleared, except for a falsy decoded payload: that run navigates too,
      showing "Failed to decode user data from token.". */
  lemma {:induction false} NavigatesOnlyOnSuccess(schema: Schema<LoginFormData>, data: LoginFormData,
                                 authenticate: (string, string) -> AuthOutcome, decode: string -> Decoded,
                                 today: int, toUtc: int -> string)
    ensures var run := SubmitRun(schema, data, authenticate, decode, today, toUtc);
      (Navigations(run.effects) != [] <==> schema(data) == [] && Succeeded(data, authenticate, decode)) &&
      (schema(data) == [] && Succeeded(data, authenticate, decode) ==>
        var decoded := decode(authenticate(data.email, data.password).token.value);
        (decoded.FalsyPayload? ==> run.errors == map[FormKey := DecodeFailedMessage]) &&
        (!decoded.FalsyPayload? ==> run.errors == map[]) &&
        run.effects == [Authenticate(data.email, data.password),
                        CookieWrite(CookieString(authenticate(data.email, data.password).token.value, toUtc(today + ExpiresDays))),
                        Navigate(HomePath)])
  {
    var run := SubmitRun(schema, data, authenticate, decode, today, toUtc);
    if schema(data) == [] && !Succeeded(data, authenticate, decode) {
      assert forall i :: 0 <= i < |run.effects| ==> !run.effects[i].Navigate?;
      assert forall p :: Navigate(p) !in run.effects;
    }
  }

  /** Any failure after validation replaces the errors with exactly
      `{form: m}` and navigates nowhere. `m` is the failing step's Error
      message, or else the context string: a rejected authentication, the
      cookie helper's "no token" error, or a throw while saving the user
      (from `jwtDecode`, or reading `.id` of a `null` payload). */
  lemma {:induction false} FailureSetsOnlyFormError(schema: Schema<LoginFormData>, data: LoginFormData,
                                   authenticate: (string, string) -> AuthOutcome, decode: string -> Decoded,
                                   today: int, toUtc: int -> string)
    requires schema(data) == [] && !Succeeded(data, authenticate, decode)
    ensures Navigations(SubmitRun(schema, data, authenticate, decode, today, toUtc).effects) == []
    ensures var r := authenticate(data.email, data.password);
      r.Failed? ==>
        SubmitRun(schema, data, authenticate, decode, today, toUtc).errors == map[FormKey := MessageOr(r.error, LoginContext)]
    ensures var r := authenticate(data.email, data.password);
      r.Token? && !Truthy(r.token) ==>
        SubmitRun(schema, data, authenticate, decode, today, toUtc).errors == map[FormKey := NoTokenMessage]
    ensures var r := authenticate(data.email, data.password);
      r.Token? && Truthy(r.token) ==>
        SaveUserData(decode(r.token.value)).SaveThrew? &&
        SubmitRun(schema, data, authenticate, decode, today, toUtc).errors ==
          map[FormKey := MessageOr(SaveUserData(decode(r.token.value)).error, LoginContext)]
  {
    var run := SubmitRun(schema, data, authenticate, decode, today, toUtc);
    assert forall i :: 0 <= i < |run.effects| ==> !run.effects[i].Navigate?;
    NoNavigateNoNavigations(run.effects);
  }

  /** On the English login schema, an empty password shows "Password is
      required" under `password`, an `email` entry appears exactly for an
      invalid e-mail, and nothing is sent. */
  lemma {:induction false} EmptyPasswordShown(emailOk: string -> bool, data: LoginFormData,
                                              authenticate: (string, string) -> AuthOutcome, decode: string -> Decoded,
                                              today: int, toUtc: int -> string)
    requires data.password == ""
    ensures var run := SubmitRun(FormSchemas.LoginSchema(emailOk), data, authenticate, decode, today, toUtc);
      run.effects == [] &&
      "password" in run.errors && run.errors["password"] == FormSchemas.PasswordRequiredMessage &&
      ("email" in run.errors <==> !emailOk(data.email))
  {
    var issues := FormSchemas.LoginIssues(emailOk, data);
    LastIssueShows(issues, "password");
    FormatValidationErrorsByIndex(issues, "email");
    if !emailOk(data.email) {
      assert KeyOf(issues[0]) == Some("email");
    }
  }

  /** After a successful login the cookie jar holds the token, so the gate
      lets the `/home` request (and every other) through. */
  lemma {:induction false} LoginAdmitsGate(schema: Schema<LoginFormData>, data: LoginFormData,
                          authenticate: (string, string) -> AuthOutcome, decode: string -> Decoded,
                          today: int, toUtc: int -> string, before: seq<Effect>, url: Middleware.Url)
    requires schema(data) == [] && Succeeded(data, authenticate, decode)
    requires ';' !in authenticate(data.email, data.password).token.value
    ensures var run := SubmitRun(schema, data, authenticate, decode, today, toUtc);
      Middleware.Decide(Middleware.Request(url, Jar(before + run.effects))) == Middleware.Next
  {
    var token := authenticate(data.email, data.password).token.value;
    var run := SubmitRun(schema, data, authenticate, decode, today, toUtc);
    NavigatesOnlyOnSuccess(schema, data, authenticate, decode, today, toUtc);
    var write := CookieWrite(CookieString(token, toUtc(today + ExpiresDays)));
    var upToWrite := before + [Authenticate(data.email, data.password), write];
    assert before + run.effects == upToWrite + [Navigate(HomePath)];
    JarIgnoresOtherEffects(upToWrite, [Navigate(HomePath)]);
    assert upToWrite == (before + [Authenticate(data.email, data.password)]) + [write];
    IssuedCookieAdmits(before + [Authenticate(data.email, data.password)], token, toUtc(today + ExpiresDays), url);
  }

  class LoginForm {
    const schema: Schema<LoginFormData>
    const page: Browser
    var formData: LoginFormData
    var errors: map<string, string>
    var isSubmitting: bool

    constructor (schema: Schema<LoginFormData>, page: Browser)
      ensures this.schema == schema && this.page == page
      ensures formData == LoginFormData("", "") && errors == map[] && !isSubmitting
    {
      this.schema := schema;
      this.page := page;
      formData := LoginFormData("", "");
      errors := map[];
      isSubmitting := false;
    }

    /** `handleChange`: store the value; if the field shows an error, clear
        it (and the form error once no field error remains). */
    method HandleChange(field: LoginField, value: string)
      modifies this
      ensures formData == WithField(old(formData), field, value)
      ensures var id := Key(field);
        errors == if id in old(errors) && old(errors)[id] != "" then ClearFieldError(old(errors), id) else old(errors)
      ensures isSubmitting == old(isSubmitting)
    {
      var id := Key(field);
      formData := WithField(formData, field, value);
      if id in errors && errors[id] != "" {
        errors := ClearFieldError(errors, id);
      }
    }

    /** `performLogin` */
    method PerformLogin(authenticate: (string, string) -> AuthOutcome, decode: string -> Decoded,
                        today: int, toUtc: int -> string)
      modifies this, page
      ensures var run := PerformLoginRun(old(formData), old(errors), authenticate, decode, today, toUtc);
        errors == run.errors && page.effects == old(page.effects) + run.effects
      ensures formData == old(formData) && isSubmitting == old(isSubmitting)
    {
      page.Record(Authenticate(formData.email, formData.password));
      var response := authenticate(formData.email, formData.password);
      if response.Failed? {
        errors := SetFormError(response.error, LoginContext);
        return;
      }
      var token := response.token;
      var out := AppAuthUtils.HandleAuthentication(page, token, today, toUtc);
      if out.Fail? {
        errors := SetFormError(out.error, LoginContext);
        return;
      }
      var saved := SaveUserData(decode(token.value));
      if saved.SaveThrew? {
        errors := SetFormError(saved.error, LoginContext);
        return;
      }
      if saved.SavedAfterError? {
        errors := map[FormKey := saved.message];
      }
      page.Record(Navigate(HomePath));
    }

    /** `handleSubmit`: on a rejected form the errors become the formatted
        issues and `isSubmitting` is never set; otherwise `performLogin` runs
        with `isSubmitting` set, which is false again afterwards whatever the
        outcome. */
    method HandleSubmit(authenticate: (string, string) -> AuthOutcome, decode: string -> Decoded,
                        today: int, toUtc: int -> string)
      modifies this, page
      ensures var run := SubmitRun(schema, old(formData), authenticate, decode, today, toUtc);
        errors == run.errors && page.effects == old(page.effects) + run.effects
      ensures schema(old(formData)) != [] ==> isSubmitting == old(isSubmitting)
      ensures schema(old(formData)) == [] ==> !isSubmitting
      ensures formData == old(formData)
    {
      errors := map[];
      var issues := schema(formData);
      if issues != [] {
        errors := FormatValidationErrors(issues);
        assert page.effects + [] == page.effects;
        return;
      }
      isSubmitting := true;
      PerformLogin(authenticate, decode, today, toUtc);
      isSubmitting := false;
    }
  }
}
