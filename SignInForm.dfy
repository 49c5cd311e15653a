/** The sign-in form: its validation schema and what submitting it does to the session
    store, `localStorage`, the router and the page's message. The login request is an
    input: the parsed response, or the error that `fetch` or `response.json()` threw. */
module SignIn {
  import opened Common
  import opened Auth

  datatype Credentials = Credentials(email: string, password: string)

  /** The first error message shown under each field, if any. */
  datatype FieldErrors = FieldErrors(email: Option<string>, password: Option<string>)

  const EmptyEmailMessage: string := "Please enter your email"
  const BadEmailMessage: string := "Invalid email format"
  const ShortPasswordMessage: string := "Password must be at least 6 characters"
  const MinPasswordLength: nat := 6
  const DashboardPath: string := "/dashboard"
  const LoginFailedMessage: string := "Login failed"
  const NetworkErrorMessage: string := "Network error"

  /** The schema: a non-empty email of the right format and a password of at least six
      characters. `isEmail` stands for the schema's email-format check. Each field shows
      the first of its checks that fails. */
  function Validate(values: Credentials, isEmail: string -> bool): (errs: FieldErrors)
    ensures errs.email == None <==> values.email != "" && isEmail(values.email)
    ensures errs.password == None <==> |values.password| >= MinPasswordLength
    ensures values.email == "" ==> errs.email == Some(EmptyEmailMessage)
    ensures values.email != "" && !isEmail(values.email) ==> errs.email == Some(BadEmailMessage)
    ensures |values.password| < MinPasswordLength ==> errs.password == Some(ShortPasswordMessage)
  {
    FieldErrors(
      if |values.email| < 1 then Some(EmptyEmailMessage)
      else if !isEmail(values.email) then Some(BadEmailMessage)
      else None,
      if |values.password| < MinPasswordLength then Some(ShortPasswordMessage) else None)
  }

  predicate Valid(errs: FieldErrors)
  {
    errs.email.None? && errs.password.None?
  }

  /** `result.accessToken` of the login response. */
  datatype LoginToken = LoginToken(token: Option<string>, expirationDate: Option<string>)

  /** `response.ok` together with the parsed body. */
  datatype LoginResponse = LoginResponse(ok: bool, accessToken: Option<LoginToken>, user: Option<User>,
                                         message: Option<string>)

  /** `response.ok && result.accessToken?.token`. */
  predicate LoginSucceeded(response: Outcome<LoginResponse>)
  {
    && response.Returned? && response.value.ok
    && response.value.accessToken.Some? && Truthy(response.value.accessToken.value.token)
  }

  /** What one enabled submission does: the new store and storage, the message handed to
      the page (if any) and the navigation (if any). */
  datatype LoginStep = LoginStep(client: Client, message: Option<string>, navigateTo: Option<string>)

  function AfterLogin(c: Client, response: Outcome<LoginResponse>): (r: LoginStep)
    // Success: both keys stored, the session signed in with the response's token and
    // user, and a navigation to the dashboard.
    ensures LoginSucceeded(response) ==>
              var at := response.value.accessToken.value;
              && r.client.storage == c.storage[AccessTokenKey := at.token.value][ExpirationDateKey := TextOf(at.expirationDate)]
              && r.client.session == Session(at.token.value, true, response.value.user)
              && Authenticated(r.client.session)
              && r.message == None && r.navigateTo == Some(DashboardPath)
    // A response that is not a success: its message, or a fixed one; nothing else changes.
    ensures response.Returned? && !LoginSucceeded(response) ==>
              r == LoginStep(c, Some(OrElse(response.value.message, LoginFailedMessage)), None)
    // A thrown error: a network-error message; nothing else changes.
    ensures response.Threw? ==> r == LoginStep(c, Some(NetworkErrorMessage), None)
    ensures r.navigateTo.Some? <==> LoginSucceeded(response)
    ensures r.message.Some? ==> r.message.value != ""
  {
    if LoginSucceeded(response) then
      var at := response.value.accessToken.value;
      var storage := c.storage[AccessTokenKey := at.token.value][ExpirationDateKey := TextOf(at.expirationDate)];
      LoginStep(Client(Session(at.token.value, true, response.value.user), storage), None, Some(DashboardPath))
    else if response.Returned? then
      LoginStep(c, Some(OrElse(response.value.message, LoginFailedMessage)), None)
    else
      LoginStep(c, Some(NetworkErrorMessage), None)
  }

  /** A form login keeps the session invariant: it signs in only with a truthy token. */
  lemma LoginKeepsSessionInvariant(c: Client, response: Outcome<LoginResponse>)
    requires SessionInvariant(c.session)
    ensures SessionInvariant(AfterLogin(c, response).client.session)
  {
  }

  /** A successful form login leaves the token where the periodic check and a later
      sign-out look for it; signing out afterwards removes both keys it wrote. */
  lemma LoginThenSignOut(c: Client, response: Outcome<LoginResponse>)
    requires LoginSucceeded(response)
    ensures AccessTokenKey in AfterLogin(c, response).client.storage
    ensures ExpirationDateKey in AfterLogin(c, response).client.storage
    ensures SignedOut(AfterLogin(c, response).client) == SignedOut(c)
  {
    var r := AfterLogin(c, response).client;
    assert SignedOut(r).storage == SignedOut(c).storage;
  }

  class SignInForm {
    const disableSubmit: bool
    /** Whether the page passed a `setMessage` callback. */
    const hasMessageSetter: bool
    var isSubmitting: bool
    /** The last message handed to `setMessage`. */
    var message: Option<string>

    constructor (disableSubmit: bool, hasMessageSetter: bool)
      ensures this.disableSubmit == disableSubmit && this.hasMessageSetter == hasMessageSetter
      ensures !isSubmitting && message == None
    {
      this.disableSubmit := disableSubmit;
      this.hasMessageSetter := hasMessageSetter;
      isSubmitting := false;
      message := None;
    }

    /** `onSignIn(values)`: the credentials travel in the request, whose outcome is
        `response`. */
    method OnSignIn(values: Credentials, session: SessionManager, response: Outcome<LoginResponse>)
      modifies this, session
      ensures disableSubmit ==> unchanged(this) && unchanged(session)
      ensures !disableSubmit ==>
                var step := AfterLogin(old(session.Snapshot()), response);
                && session.Snapshot() == step.client
                && session.navigations == old(session.navigations) + (if step.navigateTo.Some? then [step.navigateTo.value] else [])
                && message == (if hasMessageSetter && step.message.Some? then step.message else old(message))
      ensures session.lastAuthenticated == old(session.lastAuthenticated)
      ensures !disableSubmit ==> !isSubmitting
    {
      if !disableSubmit {
        isSubmitting := true;
        match response {
          case Threw(_) =>
            if hasMessageSetter { message := Some(NetworkErrorMessage); }
          case Returned(result) =>
            if result.ok && result.accessToken.Some? && Truthy(result.accessToken.value.token) {
              session.storage := session.storage[AccessTokenKey := result.accessToken.value.token.value];
              session.storage := session.storage[ExpirationDateKey := TextOf(result.accessToken.value.expirationDate)];
              session.token := result.accessToken.value.token.value;
              session.signedIn := true;
              session.user := result.user;
              session.navigations := session.navigations + [DashboardPath];
            } else {
              if hasMessageSetter { message := Some(OrElse(result.message, LoginFailedMessage)); }
            }
        }
        isSubmitting := false;
      }
    }

    /** `handleSubmit(onSignIn)`: validation first; `onSignIn` runs only when every field
        passes. */
    method Submit(values: Credentials, isEmail: string -> bool, session: SessionManager,
                  response: Outcome<LoginResponse>) returns (errs: FieldErrors)
      modifies this, session
      ensures errs == Validate(values, isEmail)
      ensures !Valid(errs) ==> unchanged(this) && unchanged(session)
      ensures Valid(errs) && !disableSubmit ==>
                var step := AfterLogin(old(session.Snapshot()), response);
                && session.Snapshot() == step.client
                && session.navigations == old(session.navigations) + (if step.navigateTo.Some? then [step.navigateTo.value] else [])
                && message == (if hasMessageSetter && step.message.Some? then step.message else old(message))
                && !isSubmitting
      ensures disableSubmit ==> unchanged(this) && unchanged(session)
    {
      errs := Validate(values, isEmail);
      if Valid(errs) {
        OnSignIn(values, session, response);
      }
    }
  }
}
