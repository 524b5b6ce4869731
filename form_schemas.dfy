/** The English-message form schemas: a register schema whose refinement
    compares the password with its confirmation, and a login schema that
    only requires a non-empty password. */
module FormSchemas {
  import opened Wrappers
  import opened ValidationIssues

  const NameLengthMessage: string := "Name must be at least 3 characters long"
  const InvalidEmailMessage: string := "Please enter a valid email address"
  const PasswordLengthMessage: string := "Password must be at least 6 characters long"
  const MismatchMessage: string := "Passwords do not match"
  const PasswordRequiredMessage: string := "Password is required"

  /** The issue the register refinement adds on a mismatch. */
  const MismatchIssue: Issue := Issue(["confirmPassword"], MismatchMessage)

  function EmailMessages(emailOk: string -> bool, email: string): seq<string> {
    if emailOk(email) then [] else [InvalidEmailMessage]
  }

  /** `registerFormSchema`: the four fields in declaration order (the
      `confirmPassword` field has no check of its own), then the refinement.
      Field failures do not abort, so the refinement always runs. */
  function RegisterIssues(emailOk: string -> bool, d: RegisterFormData): seq<Issue> {
    AtPath(["name"], if |d.name| < 3 then [NameLengthMessage] else []) +
    AtPath(["email"], EmailMessages(emailOk, d.email)) +
    AtPath(["password"], if |d.password| < 6 then [PasswordLengthMessage] else []) +
    (if d.password != d.confirmPassword then [MismatchIssue] else [])
  }

  /** `loginFormSchema` */
  function LoginIssues(emailOk: string -> bool, d: LoginFormData): seq<Issue> {
    AtPath(["email"], EmailMessages(emailOk, d.email)) +
    AtPath(["password"], if |d.password| < 1 then [PasswordRequiredMessage] else [])
  }

  function RegisterSchema(emailOk: string -> bool): Schema<RegisterFormData> {
    d => RegisterIssues(emailOk, d)
  }

  function LoginSchema(emailOk: string -> bool): Schema<LoginFormData> {
    d => LoginIssues(emailOk, d)
  }

  /** The register schema accepts exactly: a name of at least three
      characters, a valid email, a password of at least six characters and a
      confirmation equal to the password. */
  lemma RegisterAcceptsIff(emailOk: string -> bool, d: RegisterFormData)
    ensures RegisterIssues(emailOk, d) == [] <==>
      |d.name| >= 3 && emailOk(d.email) && |d.password| >= 6 && d.password == d.confirmPassword
  {
  }

  /** A mismatch always ends the issue list with "Passwords do not match" on
      `confirmPassword`; a match produces no issue on that path. */
  lemma MismatchReported(emailOk: string -> bool, d: RegisterFormData)
    ensures d.password != d.confirmPassword ==>
      var issues := RegisterIssues(emailOk, d);
      |issues| > 0 && issues[|issues| - 1] == MismatchIssue
    ensures d.password == d.confirmPassword ==>
      forall i :: 0 <= i < |RegisterIssues(emailOk, d)| ==> RegisterIssues(emailOk, d)[i].path != ["confirmPassword"]
  {
  }

  /** The confirmation has no constraint of its own, yet every accepted form
      has one of at least six characters, because it equals the password. */
  lemma AcceptedConfirmationLength(emailOk: string -> bool, d: RegisterFormData)
    requires RegisterIssues(emailOk, d) == []
    ensures |d.confirmPassword| >= 6
  {
    RegisterAcceptsIff(emailOk, d);
  }

  /** The login schema accepts exactly a valid email with a non-empty
      password; there is no special-character rule. */
  lemma LoginAcceptsIff(emailOk: string -> bool, d: LoginFormData)
    ensures LoginIssues(emailOk, d) == [] <==> emailOk(d.email) && |d.password| >= 1
    ensures emailOk(d.email) ==> LoginIssues(emailOk, d.(password := "a")) == []
  {
  }

  /** Whatever this register schema accepts, this login schema accepts with
      the same email and password. */
  lemma RegisteredCanLogIn(emailOk: string -> bool, d: RegisterFormData)
    requires RegisterIssues(emailOk, d) == []
    ensures LoginIssues(emailOk, LoginFormData(d.email, d.password)) == []
  {
    RegisterAcceptsIff(emailOk, d);
  }
}
