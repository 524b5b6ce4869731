/** The register form's state and handlers: `formData`, `errors` and
    `isSubmitting`, updated by `handleChange` and `handleSubmit`. The form's
    schema, the network under `createUser` and the `authenticateUser` call
    are parameters. */
module RegisterForm {
  import opened Wrappers
  import opened ValidationIssues
  import opened Environment
  import opened SessionCookie
  import opened UserRepository
  import AppAuthUtils
  import Middleware
  import FormSchemas

  /** The four inputs, by their element `id`. */
  datatype RegisterField = NameField | EmailField | PasswordField | ConfirmPasswordField

  function Key(field: RegisterField): string {
    match field
    case NameField => "name"
    case EmailField => "email"
    case PasswordField => "password"
    case ConfirmPasswordField => "confirmPassword"
  }

  function WithField(data: RegisterFormData, field: RegisterField, value: string): RegisterFormData {
    match field
    case NameField => data.(name := value)
    case EmailField => data.(email := value)
    case PasswordField => data.(password := value)
    case ConfirmPasswordField => data.(confirmPassword := value)
  }

  /** The `errors` object: a key set to `undefined` stays present as None. */
  type ErrorState = map<string, Option<string>>

  /** `errors[key]`, `undefined` when the key is absent. */
  function Get(errors: ErrorState, key: string): Option<string> {
    if key in errors then errors[key] else None
  }

  const FormKey: string := "form"
  const RegisterFailedMessage: string := "Failed to register. Please try again."
  const AuthFailedMessage: string := "Failed to authenticate. Please try again."
  const ActiveStatus: string := "active"

  /** `setErrors({ form: message })` */
  function FormError(message: string): ErrorState {
    map[FormKey := Some(message)]
  }

  /** The formatted issues as an errors object. */
  function Lift(m: map<string, string>): (r: ErrorState)
    ensures r.Keys == m.Keys
    ensures forall k :: k in r ==> r[k] == Some(m[k])
  {
    map k | k in m :: Some(m[k])
  }

  /** The `setErrors` update of `handleChange`: `{ ...prev, [id]: undefined }`. */
  function ClearFieldError(errors: ErrorState, id: string): (r: ErrorState)
    ensures Get(r, id) == None && r.Keys == errors.Keys + {id}
    ensures forall k :: k != id ==> Get(r, k) == Get(errors, k)
  {
    errors[id := None]
  }

  /** The user record sent to `createUser`: no `confirmPassword`, and the
      status "active". */
  function NewUser(data: RegisterFormData): (u: UserData)
    ensures u.name == data.name && u.email == data.email && u.password == data.password
    ensures u.status == ActiveStatus
  {
    UserData(data.name, data.email, data.password, ActiveStatus)
  }

  /** The errors and effects a submission leaves. */
  datatype RegisterRun = RegisterRun(errors: ErrorState, effects: seq<Effect>)

  /** `handleSubmit` after `setErrors({})`: validate; on success create the
      user, then authenticate, then issue the session cookie; the first
      failure sets the form error instead and stops. */
  function SubmitRun(schema: Schema<RegisterFormData>, data: RegisterFormData,
                     fetch: FetchRequest -> FetchResult, authenticate: (string, string) -> AuthOutcome,
                     today: int, toUtc: int -> string): RegisterRun
  {
    var issues := schema(data);
    if issues != [] then RegisterRun(Lift(FormatValidationErrors(issues)), [])
    else
      var user := NewUser(data);
      var created := CreateUser(user, fetch);
      var sent := [CreateUserFetch(CreateUserRequest(user))];
      if created.Err? then RegisterRun(FormError(MessageOr(created.error, RegisterFailedMessage)), sent)
      else
        var response := created.value;
        if !response.success then
          RegisterRun(FormError(if response.message != "" then response.message else CreateFailedMessage), sent)
        else
          var sent' := sent + [Authenticate(data.email, data.password)];
          match authenticate(data.email, data.password)
          case Failed(e) => RegisterRun(FormError(MessageOr(e, RegisterFailedMessage)), sent')
          case Token(token) =>
            var (out, writes) := IssueCookie(token, today, toUtc);
            if out.Fail? then RegisterRun(FormError(MessageOr(out.error, AuthFailedMessage)), sent' + writes)
            else RegisterRun(map[], sent' + writes)
  }

  /** A form the schema rejects gets the formatted issues as its errors and
      sends nothing: `createUser` is never called. */
  lemma InvalidSubmitSendsNothing(schema: Schema<RegisterFormData>, data: RegisterFormData,
                                  fetch: FetchRequest -> FetchResult, authenticate: (string, string) -> AuthOutcome,
                                  today: int, toUtc: int -> string)
    requires schema(data) != []
    ensures SubmitRun(schema, data, fetch, authenticate, today, toUtc) ==
      RegisterRun(Lift(FormatValidationErrors(schema(data))), [])
  {
  }

  /** An accepted form first sends POST `/user/create` with its name, email
      and password and the status "active", never its confirmation. */
  lemma CreatesUserFirst(schema: Schema<RegisterFormData>, data: RegisterFormData,
                         fetch: FetchRequest -> FetchResult, authenticate: (string, string) -> AuthOutcome,
                         today: int, toUtc: int -> string)
    requires schema(data) == []
    ensures var run := SubmitRun(schema, data, fetch, authenticate, today, toUtc);
      |run.effects| > 0 &&
      run.effects[0] == CreateUserFetch(FetchRequest("/user/create", UserData(data.name, data.email, data.password, "active"), "POST"))
  {
  }

  /** Authentication is requested only after `createUser` succeeded, once,
      with the form's email and password. */
  lemma {:induction false} AuthenticatesOnlyAfterCreation(schema: Schema<RegisterFormData>, data: RegisterFormData,
                                         fetch: FetchRequest -> FetchResult, authenticate: (string, string) -> AuthOutcome,
                                         today: int, toUtc: int -> string)
    ensures var run := SubmitRun(schema, data, fetch, authenticate, today, toUtc);
      (exists i :: 0 <= i < |run.effects| && run.effects[i].Authenticate?) <==>
        schema(data) == [] && fetch(CreateUserRequest(NewUser(data))) == Body(Some(OkMessage))
    ensures var run := SubmitRun(schema, data, fetch, authenticate, today, toUtc);
      forall i :: 0 <= i < |run.effects| && run.effects[i].Authenticate? ==>
        i == 1 && run.effects[i] == Authenticate(data.email, data.password)
  {
    var run := SubmitRun(schema, data, fetch, authenticate, today, toUtc);
    if schema(data) == [] {
      CreateUserNeverReportsFailure(NewUser(data), fetch);
      if fetch(CreateUserRequest(NewUser(data))) == Body(Some(OkMessage)) {
        assert run.effects[1].Authenticate?;
      }
    }
  }

  /** Whether the user was created and authentication returned a token. */
  predicate Registered(data: RegisterFormData, fetch: FetchRequest -> FetchResult,
                       authenticate: (string, string) -> AuthOutcome) {
    var r := authenticate(data.email, data.password);
    fetch(CreateUserRequest(NewUser(data))) == Body(Some(OkMessage)) && r.Token? && Truthy(r.token)
  }

  /** After validation the errors end cleared exactly when the user was
      created and authenticated; otherwise they hold one form error, and
      `createUser`'s own errors reach it with their message. */
  lemma {:induction false} ErrorsClearIffRegistered(schema: Schema<RegisterFormData>, data: RegisterFormData,
                                   fetch: FetchRequest -> FetchResult, authenticate: (string, string) -> AuthOutcome,
                                   today: int, toUtc: int -> string)
    requires schema(data) == []
    ensures var run := SubmitRun(schema, data, fetch, authenticate, today, toUtc);
      (run.errors == map[] <==> Registered(data, fetch, authenticate)) &&
      (run.errors != map[] ==> run.errors.Keys == {FormKey} && run.errors[FormKey].Some?)
    ensures var response := fetch(CreateUserRequest(NewUser(data)));
      response.Body? && Truthy(response.message) && response.message != Some(OkMessage) ==>
        SubmitRun(schema, data, fetch, authenticate, today, toUtc).errors == FormError(response.message.value)
  {
    var run := SubmitRun(schema, data, fetch, authenticate, today, toUtc);
    var r := authenticate(data.email, data.password);
    CreateUserNeverReportsFailure(NewUser(data), fetch);
    if !Registered(data, fetch, authenticate) {
      if fetch(CreateUserRequest(NewUser(data))) != Body(Some(OkMessage)) {
        assert FormKey in run.errors;
      } else if r.Failed? {
        assert FormKey in run.errors;
      } else {
        assert FormKey in run.errors;
      }
    }
  }

  /** The message the form error shows for each failing step: a rejected
      reply is rethrown, so an `Error` shows its message and anything else
      the register fallback; a missing reply or message shows "Failed to
      create user"; a failed authentication shows its Error's message or the
      register fallback; a falsy token shows the cookie helper's error. */
  lemma {:induction false} FailureMessages(schema: Schema<RegisterFormData>, data: RegisterFormData,
                                           fetch: FetchRequest -> FetchResult, authenticate: (string, string) -> AuthOutcome,
                                           today: int, toUtc: int -> string)
    requires schema(data) == []
    ensures var response := fetch(CreateUserRequest(NewUser(data)));
      response.Rejected? ==>
        SubmitRun(schema, data, fetch, authenticate, today, toUtc).errors ==
          FormError(MessageOr(response.error, RegisterFailedMessage))
    ensures var response := fetch(CreateUserRequest(NewUser(data)));
      !response.Rejected? && !Truthy(MessageOf(response)) ==>
        SubmitRun(schema, data, fetch, authenticate, today, toUtc).errors == FormError(CreateFailedMessage)
    ensures var r := authenticate(data.email, data.password);
      fetch(CreateUserRequest(NewUser(data))) == Body(Some(OkMessage)) && r.Failed? ==>
        SubmitRun(schema, data, fetch, authenticate, today, toUtc).errors ==
          FormError(MessageOr(r.error, RegisterFailedMessage))
    ensures var r := authenticate(data.email, data.password);
      fetch(CreateUserRequest(NewUser(data))) == Body(Some(OkMessage)) && r.Token? && !Truthy(r.token) ==>
        SubmitRun(schema, data, fetch, authenticate, today, toUtc).errors == FormError(NoTokenMessage)
  {
    CreateUserNeverReportsFailure(NewUser(data), fetch);
  }

  /** On the English register schema, a confirmation that differs from the
      password shows "Passwords do not match" under `confirmPassword`, and
      nothing is sent. */
  lemma {:induction false} MismatchShownOnConfirmation(emailOk: string -> bool, data: RegisterFormData,
                                                       fetch: FetchRequest -> FetchResult, authenticate: (string, string) -> AuthOutcome,
                                                       today: int, toUtc: int -> string)
    requires data.password != data.confirmPassword
    ensures var run := SubmitRun(FormSchemas.RegisterSchema(emailOk), data, fetch, authenticate, today, toUtc);
      run.effects == [] && Get(run.errors, "confirmPassword") == Some(FormSchemas.MismatchMessage)
  {
    var issues := FormSchemas.RegisterIssues(emailOk, data);
    FormSchemas.MismatchReported(emailOk, data);
    LastIssueShows(issues, "confirmPassword");
  }

  /** Registration never navigates: the one-argument `handleAuthentication`
      it calls writes the cookie and returns. */
  lemma {:induction false} NeverNavigates(schema: Schema<RegisterFormData>, data: RegisterFormData,
                         fetch: FetchRequest -> FetchResult, authenticate: (string, string) -> AuthOutcome,
                         today: int, toUtc: int -> string)
    ensures Navigations(SubmitRun(schema, data, fetch, authenticate, today, toUtc).effects) == []
  {
    var run := SubmitRun(schema, data, fetch, authenticate, today, toUtc);
    assert forall i :: 0 <= i < |run.effects| ==> !run.effects[i].Navigate?;
    NoNavigateNoNavigations(run.effects);
  }

  /** A successful registration sends the creation, then the
      authentication, then writes the session cookie, which leaves the token
      in the cookie jar. */
  lemma {:induction false} SuccessStoresToken(schema: Schema<RegisterFormData>, data: RegisterFormData,
                             fetch: FetchRequest -> FetchResult, authenticate: (string, string) -> AuthOutcome,
                             today: int, toUtc: int -> string)
    requires schema(data) == [] && Registered(data, fetch, authenticate)
    requires ';' !in authenticate(data.email, data.password).token.value
    ensures var run := SubmitRun(schema, data, fetch, authenticate, today, toUtc);
      var token := authenticate(data.email, data.password).token.value;
      run.errors == map[] &&
      run.effects == [CreateUserFetch(CreateUserRequest(NewUser(data))), Authenticate(data.email, data.password),
                      CookieWrite(CookieString(token, toUtc(today + ExpiresDays)))] &&
      CookieName in Jar(run.effects) && Jar(run.effects)[CookieName] == token
  {
    CreateUserNeverReportsFailure(NewUser(data), fetch);
    var token := authenticate(data.email, data.password).token.value;
    var sent := [CreateUserFetch(CreateUserRequest(NewUser(data))), Authenticate(data.email, data.password)];
    var write := CookieWrite(CookieString(token, toUtc(today + ExpiresDays)));
    assert SubmitRun(schema, data, fetch, authenticate, today, toUtc).effects == sent + [write];
    IssuedCookieAdmits(sent, token, toUtc(today + ExpiresDays), Middleware.Url("", "/home", ""));
  }

  class RegisterForm {
    const schema: Schema<RegisterFormData>
    const page: Browser
    var formData: RegisterFormData
    var errors: ErrorState
    var isSubmitting: bool

    constructor (schema: Schema<RegisterFormData>, page: Browser)
      ensures this.schema == schema && this.page == page
      ensures formData == RegisterFormData("", "", "", "") && errors == map[] && !isSubmitting
    {
      this.schema := schema;
      this.page := page;
      formData := RegisterFormData("", "", "", "");
      errors := map[];
      isSubmitting := false;
    }

    /** `handleChange`: store the value; if the field shows an error, set it
        to `undefined`, leaving every other key, `form` included, as it was. */
    method HandleChange(field: RegisterField, value: string)
      modifies this
      ensures formData == WithField(old(formData), field, value)
      ensures errors == if Truthy(Get(old(errors), Key(field))) then ClearFieldError(old(errors), Key(field)) else old(errors)
      ensures isSubmitting == old(isSubmitting)
    {
      formData := WithField(formData, field, value);
      var id := Key(field);
      if Truthy(Get(errors, id)) {
        errors := ClearFieldError(errors, id);
      }
    }

    /** `handleSubmit`: on a rejected form the errors become the formatted
        issues and `isSubmitting` is never set; otherwise the creation and
        authentication run with `isSubmitting` set, which is false again
        afterwards whatever the outcome. */
    method HandleSubmit(fetch: FetchRequest -> FetchResult, authenticate: (string, string) -> AuthOutcome,
                        today: int, toUtc: int -> string)
      modifies this, page
      ensures var run := SubmitRun(schema, old(formData), fetch, authenticate, today, toUtc);
        errors == run.errors && page.effects == old(page.effects) + run.effects
      ensures schema(old(formData)) != [] ==> isSubmitting == old(isSubmitting)
      ensures schema(old(formData)) == [] ==> !isSubmitting
      ensures formData == old(formData)
    {
      errors := map[];
      var issues := schema(formData);
      if issues != [] {
        errors := Lift(FormatValidationErrors(issues));
        assert page.effects + [] == page.effects;
        return;
      }
      isSubmitting := true;
      var user := NewUser(formData);
      page.Record(CreateUserFetch(CreateUserRequest(user)));
      var created := CreateUser(user, fetch);
      var formErrors: ErrorState := map[];
      if created.Err? {
        formErrors := FormError(MessageOr(created.error, RegisterFailedMessage));
      } else {
        var response := created.value;
        if !response.success {
          formErrors := FormError(if response.message != "" then response.message else CreateFailedMessage);
        } else {
          page.Record(Authenticate(formData.email, formData.password));
          var auth := authenticate(formData.email, formData.password);
          if auth.Failed? {
            formErrors := FormError(MessageOr(auth.error, RegisterFailedMessage));
          } else {
            var out := AppAuthUtils.HandleAuthentication(page, auth.token, today, toUtc);
            if out.Fail? {
              formErrors := FormError(MessageOr(out.error, AuthFailedMessage));
            }
          }
        }
      }
      errors := formErrors;
      isSubmitting := false;
    }
  }
}
