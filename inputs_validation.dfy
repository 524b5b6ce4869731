/** The Portuguese-message validation rules: field schemas, the `isValid*`
    predicates, `getValidationError`, and the login and register object
    schemas. Each field schema yields its failed checks' messages in order;
    an object schema places them under the field's key. */
module InputsValidation {
  import opened Wrappers
  import opened ValidationIssues

  const InvalidEmailMessage: string := "Email inválido"
  const PasswordLengthMessage: string := "A senha deve conter pelo menos 6 caracteres"
  const PasswordSpecialMessage: string := "A senha deve conter pelo menos um caractere especial"
  const NameLengthMessage: string := "O nome deve conter pelo menos 3 caracteres"
  const ConfirmationRequiredMessage: string := "Confirmação de senha é obrigatória"
  const MismatchMessage: string := "As senhas não coincidem"
  const FallbackMessage: string := "Erro de validação"

  /** A character inside one of the ranges `a-z`, `A-Z`, `0-9`. */
  predicate IsAlphanumeric(c: char) {
    ('a' <= c <= 'z') || ('A' <= c <= 'Z') || ('0' <= c <= '9')
  }

  /** `/[^a-zA-Z0-9]/.test(s)`: some character lies outside the three ranges. */
  function HasSpecialChar(s: string): (b: bool)
    ensures b <==> exists i :: 0 <= i < |s| && !IsAlphanumeric(s[i])
  {
    if s == [] then false
    else !IsAlphanumeric(s[0]) || HasSpecialChar(s[1..])
  }

  /** `emailSchema()`: zod's email check, whose pattern is not modelled, is
      the parameter `emailOk`. */
  function EmailMessages(emailOk: string -> bool, email: string): seq<string> {
    if emailOk(email) then [] else [InvalidEmailMessage]
  }

  /** `passwordSchema()`: `.min(6)` then the special-character refinement.
      A failed length check does not abort, so the refinement still runs. */
  function PasswordMessages(password: string): seq<string> {
    (if |password| < 6 then [PasswordLengthMessage] else []) +
    (if !HasSpecialChar(password) then [PasswordSpecialMessage] else [])
  }

  /** `nameSchema()`: `.min(3)` is declared before `.trim()`, so the length
      is that of the untrimmed input. */
  function NameMessages(name: string): seq<string> {
    if |name| < 3 then [NameLengthMessage] else []
  }

  /** `passwordConfirmationSchema(password)`: `.min(1)` then equality with
      `password`. */
  function ConfirmationMessages(confirmation: string, password: string): seq<string> {
    (if |confirmation| < 1 then [ConfirmationRequiredMessage] else []) +
    (if confirmation != password then [MismatchMessage] else [])
  }

  predicate IsValidEmail(emailOk: string -> bool, email: string) {
    EmailMessages(emailOk, email) == []
  }

  predicate IsValidPassword(password: string) {
    PasswordMessages(password) == []
  }

  predicate IsValidName(name: string) {
    NameMessages(name) == []
  }

  predicate IsValidPasswordConfirmation(confirmation: string, password: string) {
    ConfirmationMessages(confirmation, password) == []
  }

  /** A password is valid exactly when it has at least six characters and
      one of them is outside `A-Z`, `a-z`, `0-9`. */
  lemma IsValidPasswordIff(password: string)
    ensures IsValidPassword(password) <==>
      |password| >= 6 && exists i :: 0 <= i < |password| && !IsAlphanumeric(password[i])
  {
  }

  /** A purely alphanumeric password is rejected whatever its length, with
      the special-character message as its last issue. */
  lemma AlphanumericPasswordRejected(password: string)
    requires forall i :: 0 <= i < |password| ==> IsAlphanumeric(password[i])
    ensures !IsValidPassword(password)
    ensures PasswordMessages(password)[|PasswordMessages(password)| - 1] == PasswordSpecialMessage
  {
  }

  /** A short alphanumeric password fails both checks, length first. */
  lemma ShortPasswordFailsBoth()
    ensures PasswordMessages("abc") == [PasswordLengthMessage, PasswordSpecialMessage]
  {
    assert IsAlphanumeric("abc"[0]) && IsAlphanumeric("abc"[1]) && IsAlphanumeric("abc"[2]);
  }

  /** A confirmation is valid exactly when it is non-empty and equals the
      password; so an empty password has no valid confirmation. */
  lemma ConfirmationIff(confirmation: string, password: string)
    ensures IsValidPasswordConfirmation(confirmation, password) <==>
      confirmation != "" && confirmation == password
    ensures !IsValidPasswordConfirmation(confirmation, "")
  {
  }

  /** A name is valid exactly when it has at least three characters,
      counted before trimming: three spaces pass. */
  lemma NameIff(name: string)
    ensures IsValidName(name) <==> |name| >= 3
    ensures IsValidName("   ")
  {
  }

  /** `getValidationError(schema, value)`: none when the parse succeeds,
      else the first issue's message, or the fallback when that message is
      empty. */
  function GetValidationError<T>(schema: Schema<T>, value: T): (r: Option<string>)
    ensures r.None? <==> schema(value) == []
    ensures r.Some? ==> r.value != ""
    ensures r.Some? && schema(value)[0].message != "" ==> r.value == schema(value)[0].message
    ensures r.Some? && schema(value)[0].message == "" ==> r.value == FallbackMessage
  {
    var issues := schema(value);
    if issues == [] then None
    else if issues[0].message != "" then Some(issues[0].message)
    else Some(FallbackMessage)
  }

  /** `loginFormSchema` */
  function LoginIssues(emailOk: string -> bool, d: LoginFormData): seq<Issue> {
    AtPath(["email"], EmailMessages(emailOk, d.email)) +
    AtPath(["password"], PasswordMessages(d.password))
  }

  /** `registerFormSchema` as written: the refinement compares `password`
      with itself, so it can never add its issue. */
  function RegisterIssues(emailOk: string -> bool, d: RegisterFormData): seq<Issue> {
    var fields :=
      AtPath(["name"], NameMessages(d.name)) +
      AtPath(["email"], EmailMessages(emailOk, d.email)) +
      AtPath(["password"], PasswordMessages(d.password));
    fields + (if d.password == d.password then [] else [Issue(["passwordConfirmation"], MismatchMessage)])
  }

  /** `registerFormSchema` with the refinement comparing `password` with the
      confirmation, as its message and path say it should. */
  function RegisterIssuesConfirmed(emailOk: string -> bool, d: RegisterFormData): seq<Issue> {
    var fields :=
      AtPath(["name"], NameMessages(d.name)) +
      AtPath(["email"], EmailMessages(emailOk, d.email)) +
      AtPath(["password"], PasswordMessages(d.password));
    fields + (if d.password == d.confirmPassword then [] else [Issue(["passwordConfirmation"], MismatchMessage)])
  }

  /** The login schema accepts exactly a valid email with a valid password. */
  lemma LoginAcceptsIff(emailOk: string -> bool, d: LoginFormData)
    ensures LoginIssues(emailOk, d) == [] <==> IsValidEmail(emailOk, d.email) && IsValidPassword(d.password)
  {
  }

  /** As written, register validity is name, email and password validity;
      the confirmation never matters and the `passwordConfirmation` issue is
      never produced. */
  lemma RegisterRefinementNeverFires(emailOk: string -> bool, d: RegisterFormData, other: string)
    ensures RegisterIssues(emailOk, d) == [] <==>
      IsValidName(d.name) && IsValidEmail(emailOk, d.email) && IsValidPassword(d.password)
    ensures RegisterIssues(emailOk, d) == RegisterIssues(emailOk, d.(confirmPassword := other))
    ensures forall i :: 0 <= i < |RegisterIssues(emailOk, d)| ==>
      RegisterIssues(emailOk, d)[i].path != ["passwordConfirmation"]
  {
  }

  /** A concrete form the as-written schema accepts although its
      confirmation differs from its password. */
  lemma RegisterAcceptsMismatch(emailOk: string -> bool)
    requires emailOk("a@b.co")
    ensures RegisterIssues(emailOk, RegisterFormData("Ana", "a@b.co", "secret!", "other")) == []
  {
    assert !IsAlphanumeric("secret!"[6]);
  }

  /** With the corrected refinement the schema accepts exactly when the
      fields are valid and the confirmation equals the password, and a
      mismatch yields the mismatch issue at `passwordConfirmation`. */
  lemma RegisterConfirmedIff(emailOk: string -> bool, d: RegisterFormData)
    ensures RegisterIssuesConfirmed(emailOk, d) == [] <==>
      IsValidName(d.name) && IsValidEmail(emailOk, d.email) && IsValidPassword(d.password) &&
      d.password == d.confirmPassword
    ensures d.password != d.confirmPassword ==>
      Issue(["passwordConfirmation"], MismatchMessage) in RegisterIssuesConfirmed(emailOk, d)
  {
  }

  /** `getValidationError` on the login schema reports nothing exactly for
      an accepted form; an invalid email is reported first. */
  lemma LoginValidationError(emailOk: string -> bool, d: LoginFormData)
    ensures GetValidationError(x => LoginIssues(emailOk, x), d).None? <==>
      IsValidEmail(emailOk, d.email) && IsValidPassword(d.password)
    ensures !emailOk(d.email) ==> GetValidationError(x => LoginIssues(emailOk, x), d) == Some(InvalidEmailMessage)
  {
    if !emailOk(d.email) {
      assert LoginIssues(emailOk, d)[0] == Issue(["email"], InvalidEmailMessage);
    }
  }
}
