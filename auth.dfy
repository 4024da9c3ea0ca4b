/**
 * The decisions of the sign-in page: the redirect of a signed-in visitor,
 * the outcome of a login reply, the local password-confirmation check and
 * the choice of message for a rejected registration.
 */
module Auth {
  import opened Wrappers
  import opened Text
  import opened Session

  const AppPage := "/api/app/"

  /** At page load a stored token sends the browser straight to the app page, without a request. */
  function OnLoad(storage: Storage): (target: Option<string>)
    ensures target.Some? <==> HasToken(storage)
    ensures target.Some? ==> target.value == AppPage
  {
    if storage.authToken.Some? && storage.authToken.value != "" then Some(AppPage) else None
  }

  /** The colour class of the alert box. */
  datatype AlertTone = Danger | Success

  /** The text and colour of the page's alert box. */
  datatype Alert = Alert(text: string, tone: AlertTone)

  const LoginFailed := "Login failed. Please try again."
  const NetworkFailed := "Network error. Please try again."
  const LoginSucceeded := "Login successful! Redirecting..."

  /**
   * The login reply: no reply at all (or a body that is not JSON), an ok
   * reply carrying the token and the user, or a refusal that may carry an
   * `error` text.
   */
  datatype LoginReply = LoginUnreachable | Granted(token: string, user: User) | Refused(error: Option<string>)

  /** What a login submission leaves behind: the alert, the storage, and where the browser goes next. */
  datatype LoginOutcome = LoginOutcome(alert: Alert, storage: Storage, redirect: Option<string>)

  /**
   * The login handler: on an ok reply the token goes under `authToken` and
   * the user under `user`, with a success alert and a (delayed) move to the
   * app page; a refusal shows the server's `error` when it is a non-empty
   * text and the generic failure otherwise; no reply shows the network
   * error. Only an ok reply touches the storage.
   */
  function Login(storage: Storage, reply: LoginReply): (o: LoginOutcome)
    ensures reply.Granted? <==> o.redirect.Some?
    ensures reply.Granted? ==>
      && o.storage == storage.(authToken := Some(reply.token), user := Some(reply.user))
      && o.redirect == Some(AppPage) && o.alert == Alert(LoginSucceeded, Success)
    ensures !reply.Granted? ==> o.storage == storage && o.alert.tone == Danger
    ensures reply.Refused? ==>
      o.alert.text == if reply.error.Some? && reply.error.value != "" then reply.error.value else LoginFailed
    ensures reply.LoginUnreachable? ==> o.alert.text == NetworkFailed
  {
    match reply
    case Granted(token, user) =>
      LoginOutcome(Alert(LoginSucceeded, Success), storage.(authToken := Some(token), user := Some(user)), Some(AppPage))
    case Refused(error) =>
      var text := if error.Some? && error.value != "" then error.value else LoginFailed;
      LoginOutcome(Alert(text, Danger), storage, None)
    case LoginUnreachable =>
      LoginOutcome(Alert(NetworkFailed, Danger), storage, None)
  }

  /** A failed login always says something: the alert text is never empty. */
  lemma FailedLoginAlertNotEmpty(storage: Storage, reply: LoginReply)
    requires !reply.Granted?
    ensures Login(storage, reply).alert.text != ""
  {
  }

  /**
   * After a granted login with a non-empty token, the next visit to the
   * sign-in page redirects to the app page; a failed login leaves that
   * decision as it was.
   */
  lemma LoginThenReload(storage: Storage, reply: LoginReply)
    ensures reply.Granted? && reply.token != "" ==> OnLoad(Login(storage, reply).storage) == Some(AppPage)
    ensures !reply.Granted? ==> OnLoad(Login(storage, reply).storage) == OnLoad(storage)
  {
  }

  // ---- registration ----

  const PasswordsDiffer := "Passwords do not match."
  const RegistrationFailed := "Registration failed. Please try again."
  const Registered := "Registration successful! Please login with your credentials."

  datatype RegisterForm = RegisterForm(username: string, email: string, password: string, passwordConfirm: string)

  /** The JSON body posted to the register endpoint. */
  datatype RegisterRequest = RegisterRequest(username: string, email: string, password: string, passwordConfirm: string)

  /** Submitting the form either stops at the local check with an alert or sends a request. */
  datatype Submission = Stopped(alert: Alert) | Send(request: RegisterRequest)

  /**
   * The register handler up to the request: differing passwords stop it
   * with "Passwords do not match." and no request; otherwise the four
   * fields are sent as they were typed.
   */
  function SubmitRegistration(form: RegisterForm): (s: Submission)
    ensures s.Stopped? <==> form.password != form.passwordConfirm
    ensures s.Stopped? ==> s.alert == Alert(PasswordsDiffer, Danger)
    ensures s.Send? ==>
      s.request == RegisterRequest(form.username, form.email, form.password, form.passwordConfirm)
  {
    if form.password != form.passwordConfirm then Stopped(Alert(PasswordsDiffer, Danger))
    else Send(RegisterRequest(form.username, form.email, form.password, form.passwordConfirm))
  }

  /** The validation errors of a rejected registration: for each key, its list of messages if present. */
  datatype FieldErrors = FieldErrors(
    username: Option<seq<string>>,
    email: Option<seq<string>>,
    password: Option<seq<string>>,
    nonFieldErrors: Option<seq<string>>)

  datatype RegisterReply = RegisterUnreachable | Created | Rejected(errors: FieldErrors)

  /** The alert for a rejected registration, tested key by key in the handler's order. */
  function RegistrationErrorMessage(e: FieldErrors): (m: string)
    ensures e.username.Some? ==> "Username: " <= m
    ensures e.username.None? && e.email.Some? ==> "Email: " <= m
    ensures e.username.None? && e.email.None? && e.password.Some? ==> "Password: " <= m
    ensures e == FieldErrors(None, None, None, None) ==> m == RegistrationFailed
  {
    if e.username.Some? then "Username: " + Join(e.username.value, " ")
    else if e.email.Some? then "Email: " + Join(e.email.value, " ")
    else if e.password.Some? then "Password: " + Join(e.password.value, " ")
    else if e.nonFieldErrors.Some? then Join(e.nonFieldErrors.value, " ")
    else RegistrationFailed
  }

  /** The alert after the register request, and whether the page switches to the login tab. */
  function RegistrationResult(reply: RegisterReply): (r: (Alert, bool))
    ensures r.1 <==> reply.Created?
    ensures reply.Created? ==> r.0 == Alert(Registered, Success)
    ensures reply.Rejected? ==> r.0 == Alert(RegistrationErrorMessage(reply.errors), Danger)
    ensures reply.RegisterUnreachable? ==> r.0 == Alert(NetworkFailed, Danger)
  {
    match reply
    case Created => (Alert(Registered, Success), true)
    case Rejected(errors) => (Alert(RegistrationErrorMessage(errors), Danger), false)
    case RegisterUnreachable => (Alert(NetworkFailed, Danger), false)
  }

  /** The keys of the error map the handler looks at, with the label each message starts with. */
  datatype Field = UsernameField | EmailField | PasswordField | NonField

  /** The order in which the handler tests the keys. */
  const Priority: seq<Field> := [UsernameField, EmailField, PasswordField, NonField]

  function Entry(e: FieldErrors, f: Field): Option<seq<string>> {
    match f
    case UsernameField => e.username
    case EmailField => e.email
    case PasswordField => e.password
    case NonField => e.nonFieldErrors
  }

  function Label(f: Field): string {
    match f
    case UsernameField => "Username: "
    case EmailField => "Email: "
    case PasswordField => "Password: "
    case NonField => ""
  }

  /** The first field of `fields` that is present in `e`. */
  function FirstPresent(e: FieldErrors, fields: seq<Field>): (f: Option<Field>)
    ensures f.Some? ==> f.value in fields && Entry(e, f.value).Some?
    ensures f.None? <==> forall g :: g in fields ==> Entry(e, g).None?
  {
    if fields == [] then None
    else if Entry(e, fields[0]).Some? then Some(fields[0])
    else FirstPresent(e, fields[1..])
  }

  /** The field a rejected registration reports: the first present key in priority order. */
  function Reported(e: FieldErrors): Option<Field> {
    FirstPresent(e, Priority)
  }

  /** Where a field stands in the priority order. */
  function Rank(f: Field): nat {
    match f
    case UsernameField => 0
    case EmailField => 1
    case PasswordField => 2
    case NonField => 3
  }

  /** Reported, worked out key by key. */
  lemma {:induction false} ReportedByCases(e: FieldErrors)
    ensures Reported(e) ==
      if e.username.Some? then Some(UsernameField)
      else if e.email.Some? then Some(EmailField)
      else if e.password.Some? then Some(PasswordField)
      else if e.nonFieldErrors.Some? then Some(NonField)
      else None
  {
    var p1, p2, p3 := Priority[1..], Priority[1..][1..], Priority[1..][1..][1..];
    assert p1 == [EmailField, PasswordField, NonField] && p1[0] == EmailField;
    assert p2 == [PasswordField, NonField] && p2[0] == PasswordField;
    assert p3 == [NonField] && p3[0] == NonField && p3[1..] == [];
    var r3 := if e.nonFieldErrors.Some? then Some(NonField) else None;
    assert FirstPresent(e, p3) == r3;
    var r2 := if e.password.Some? then Some(PasswordField) else r3;
    assert FirstPresent(e, p2) == r2;
    var r1 := if e.email.Some? then Some(EmailField) else r2;
    assert FirstPresent(e, p1) == r1;
    assert Priority[0] == UsernameField;
  }

  /**
   * The message is the reported field's label followed by its messages
   * joined with single spaces, and the generic failure when no key is
   * present.
   */
  lemma MessageFollowsPriority(e: FieldErrors)
    ensures Reported(e).Some? ==>
      RegistrationErrorMessage(e) == Label(Reported(e).value) + Join(Entry(e, Reported(e).value).value, " ")
    ensures Reported(e).None? ==> RegistrationErrorMessage(e) == RegistrationFailed
  {
    ReportedByCases(e);
  }

  /** A field is reported exactly when it is present and every field of higher priority is absent. */
  lemma ReportedIsFirst(e: FieldErrors, f: Field)
    ensures Reported(e) == Some(f) <==>
      Entry(e, f).Some? && forall g: Field :: Rank(g) < Rank(f) ==> Entry(e, g).None?
  {
    ReportedByCases(e);
    if Entry(e, f).Some? && forall g: Field :: Rank(g) < Rank(f) ==> Entry(e, g).None? {
      assert Rank(UsernameField) == 0 && Rank(EmailField) == 1 && Rank(PasswordField) == 2;
    }
  }

  /** A username error decides the message, whatever else the map holds. */
  lemma UsernameDominates(e: FieldErrors, other: FieldErrors)
    requires e.username.Some? && other.username == e.username
    ensures RegistrationErrorMessage(e) == RegistrationErrorMessage(other)
    ensures RegistrationErrorMessage(e) == "Username: " + Join(e.username.value, " ")
  {
  }
}
