/** The session manager of the admin client: the session store (token, signed-in flag,
    user), the browser's `localStorage` and the navigations it asks the router for.
    Every remote call (sign-in, sign-up, sign-out, token refresh) is an input: the value
    it returned or the error it threw. */
module Auth {
  import opened Common

  /** The signed-in user; the session manager stores it and never looks inside. */
  datatype User = User(id: string, userName: string, email: string, avatar: string, authority: seq<string>)

  datatype Session = Session(token: string, signedIn: bool, user: Option<User>)

  /** What the session store and `localStorage` hold together. */
  datatype Client = Client(session: Session, storage: map<string, string>)

  const AccessTokenKey: string := "accessToken"
  const ExpirationDateKey: string := "expirationDate"

  /** How long before the stored expiry a tick already refreshes, in milliseconds. */
  const RefreshLeadTime: int := 60000

  const SignedOutSession: Session := Session("", false, None)

  /** `Boolean(token && signedIn)`. */
  predicate Authenticated(s: Session)
  {
    s.token != "" && s.signedIn
  }

  /** The session's own invariant: a signed-in session has a token. */
  predicate SessionInvariant(s: Session)
  {
    s.signedIn ==> s.token != ""
  }

  /** `search.get(REDIRECT_URL_KEY) || authenticatedEntryPath`: the `redirect` query
      parameter of the current URL unless it is missing or empty. */
  function RedirectTarget(redirectParam: Option<string>, entryPath: string): (url: string)
    ensures Truthy(redirectParam) ==> url == redirectParam.value
    ensures !Truthy(redirectParam) ==> url == entryPath
    ensures url != "" <==> Truthy(redirectParam) || entryPath != ""
  {
    OrElse(redirectParam, entryPath)
  }

  /** `handleSignIn(tokens, user)` on the store: nothing without an access token;
      otherwise the token is set, the session is signed in, and the user is replaced
      only when one is supplied. `localStorage` is not written. */
  function SignedIn(c: Client, accessToken: Option<string>, user: Option<User>): (r: Client)
    ensures !Truthy(accessToken) ==> r == c
    ensures Truthy(accessToken) ==> Authenticated(r.session) && r.session.token == accessToken.value
    ensures Truthy(accessToken) ==> r.session.user == (if user.Some? then user else c.session.user)
    ensures r.storage == c.storage
  {
    if !Truthy(accessToken) then c
    else Client(Session(accessToken.value, true, if user.Some? then user else c.session.user), c.storage)
  }

  /** `handleSignOut()`: the session is emptied and the two token keys leave
      `localStorage`; every other key keeps its value. */
  function SignedOut(c: Client): (r: Client)
    ensures r.session == SignedOutSession && !Authenticated(r.session)
    ensures AccessTokenKey !in r.storage && ExpirationDateKey !in r.storage
    ensures forall k :: k in c.storage && k != AccessTokenKey && k != ExpirationDateKey ==> k in r.storage
    ensures forall k :: k in r.storage ==> k in c.storage && r.storage[k] == c.storage[k]
  {
    Client(SignedOutSession, c.storage - {AccessTokenKey} - {ExpirationDateKey})
  }

  /** Signing out a second time changes nothing more. */
  lemma SignOutIdempotent(c: Client)
    ensures SignedOut(SignedOut(c)) == SignedOut(c)
  {
    assert SignedOut(SignedOut(c)).storage == SignedOut(c).storage;
  }

  /** The state sign-out leaves depends only on the storage keys other than the token's. */
  lemma SignOutForgetsSession(c: Client, d: Client)
    requires c.storage - {AccessTokenKey, ExpirationDateKey} == d.storage - {AccessTokenKey, ExpirationDateKey}
    ensures SignedOut(c) == SignedOut(d)
  {
    assert c.storage - {AccessTokenKey} - {ExpirationDateKey} == c.storage - {AccessTokenKey, ExpirationDateKey};
    assert d.storage - {AccessTokenKey} - {ExpirationDateKey} == d.storage - {AccessTokenKey, ExpirationDateKey};
  }

  datatype AuthStatus = Success | Failed

  /** What `signIn` and `signUp` resolve to. */
  datatype AuthResult = AuthResult(status: AuthStatus, message: string)

  /** The body of a sign-in or sign-up response: `{ token, user? }`. */
  datatype AuthResponse = AuthResponse(token: Option<string>, user: Option<User>)

  /** The two remote endpoints that share one response handling. */
  datatype Endpoint = SignInEndpoint | SignUpEndpoint

  function RejectionMessage(e: Endpoint): string
  {
    match e
    case SignInEndpoint => "Unable to sign in"
    case SignUpEndpoint => "Unable to sign up"
  }

  /** `errors?.response?.data?.message || errors.toString()`. */
  function ErrorMessage(e: ApiError): (m: string)
    ensures Truthy(e.responseMessage) ==> m == e.responseMessage.value
    ensures !Truthy(e.responseMessage) ==> m == e.text
  {
    OrElse(e.responseMessage, e.text)
  }

  /** The result of one `signIn` or `signUp`: the new store and storage, what the
      promise resolves to, and where the router is sent (if anywhere). */
  datatype AuthStep = AuthStep(client: Client, result: AuthResult, navigateTo: Option<string>)

  function Authenticate(c: Client, endpoint: Endpoint, response: Outcome<AuthResponse>,
                        redirectParam: Option<string>, entryPath: string): (r: AuthStep)
    // A token in the response: success, an authenticated session, a redirect.
    ensures response.Returned? && Truthy(response.value.token) ==>
              && r.result == AuthResult(Success, "")
              && Authenticated(r.client.session)
              && r.client == SignedIn(c, response.value.token, response.value.user)
              && r.client.session.token == response.value.token.value
              && r.client.session.user ==
                   (if response.value.user.Some? then response.value.user else c.session.user)
              && r.client.storage == c.storage
              && r.navigateTo == Some(RedirectTarget(redirectParam, entryPath))
    // No token: a fixed failure message and nothing else happens.
    ensures response.Returned? && !Truthy(response.value.token) ==>
              r == AuthStep(c, AuthResult(Failed, RejectionMessage(endpoint)), None)
    // A thrown error: failure with the server's message, or else the error's text.
    ensures response.Threw? ==>
              && r.client == c && r.navigateTo == None && r.result.status == Failed
              && r.result.message == ErrorMessage(response.error)
    // Success, an authenticated session and a redirect come together.
    ensures r.result.status == Success <==> r.navigateTo.Some?
    ensures r.result.status == Success ==> Authenticated(r.client.session)
    ensures r.result.status == Failed ==> r.client == c
  {
    match response
    case Threw(e) => AuthStep(c, AuthResult(Failed, ErrorMessage(e)), None)
    case Returned(resp) =>
      if Truthy(resp.token) then
        AuthStep(SignedIn(c, resp.token, resp.user), AuthResult(Success, ""),
                 Some(RedirectTarget(redirectParam, entryPath)))
      else
        AuthStep(c, AuthResult(Failed, RejectionMessage(endpoint)), None)
  }

  /** Signing in (or up) and then out ends where signing out alone ends: the remote
      sign-in writes nothing to `localStorage`. */
  lemma AuthenticateThenSignOut(c: Client, endpoint: Endpoint, response: Outcome<AuthResponse>,
                                redirectParam: Option<string>, entryPath: string)
    ensures SignedOut(Authenticate(c, endpoint, response, redirectParam, entryPath).client) == SignedOut(c)
  {
  }

  /** The body of a refresh response: `{ token }`. */
  datatype RefreshResponse = RefreshResponse(token: Option<string>)

  /** `refreshAuthToken()`: a new token replaces the old one in the store and in
      `localStorage`; a response without a token changes nothing; a thrown error signs
      out. The stored expiry is never updated. */
  function Refreshed(c: Client, response: Outcome<RefreshResponse>): (r: Client)
    ensures response.Returned? && Truthy(response.value.token) ==>
              && r.session == c.session.(token := response.value.token.value)
              && r.storage == c.storage[AccessTokenKey := response.value.token.value]
    ensures response.Returned? && !Truthy(response.value.token) ==> r == c
    ensures response.Threw? ==> r == SignedOut(c)
    ensures r.session.signedIn ==> c.session.signedIn
    ensures ExpirationDateKey in r.storage ==>
              ExpirationDateKey in c.storage && r.storage[ExpirationDateKey] == c.storage[ExpirationDateKey]
  {
    match response
    case Threw(_) => SignedOut(c)
    case Returned(resp) =>
      if Truthy(resp.token) then
        Client(c.session.(token := resp.token.value), c.storage[AccessTokenKey := resp.token.value])
      else c
  }

  /** The expiry stored under `expirationDate`, as `new Date(...).getTime()` reads it;
      `parseDate` stands for that parse and gives `None` where it yields `NaN`. */
  function StoredExpiry(storage: map<string, string>, parseDate: string -> Option<int>): Option<int>
  {
    if ExpirationDateKey in storage && storage[ExpirationDateKey] != "" then parseDate(storage[ExpirationDateKey])
    else None
  }

  /** The periodic check: refresh when an expiry is stored and the current time is at
      most one minute before it (or past it). */
  function ShouldRefresh(storage: map<string, string>, now: int, parseDate: string -> Option<int>): (due: bool)
    ensures due ==> ExpirationDateKey in storage && storage[ExpirationDateKey] != ""
    ensures due <==> StoredExpiry(storage, parseDate).Some? && StoredExpiry(storage, parseDate).value - RefreshLeadTime <= now
  {
    var expiry := StoredExpiry(storage, parseDate);
    expiry.Some? && now >= expiry.value - RefreshLeadTime
  }

  /** Once a refresh is due it stays due as time passes, until the stored expiry changes;
      a successful refresh does not change it, so later ticks keep refreshing. */
  lemma RefreshStaysDue(c: Client, response: Outcome<RefreshResponse>, now: int, later: int,
                        parseDate: string -> Option<int>)
    requires ShouldRefresh(c.storage, now, parseDate) && now <= later
    requires response.Returned?
    ensures ShouldRefresh(Refreshed(c, response).storage, later, parseDate)
  {
    assert StoredExpiry(Refreshed(c, response).storage, parseDate) == StoredExpiry(c.storage, parseDate);
  }

  /** Every session operation keeps the invariant: signing in takes only a truthy token,
      signing out clears the flag, a failed authentication changes nothing, and a refresh
      replaces the token only with a truthy one. */
  lemma SessionInvariantPreserved(c: Client, accessToken: Option<string>, user: Option<User>,
                                  endpoint: Endpoint, authResponse: Outcome<AuthResponse>,
                                  redirectParam: Option<string>, entryPath: string,
                                  refreshResponse: Outcome<RefreshResponse>)
    requires SessionInvariant(c.session)
    ensures SessionInvariant(SignedIn(c, accessToken, user).session)
    ensures SessionInvariant(SignedOut(c).session)
    ensures SessionInvariant(Authenticate(c, endpoint, authResponse, redirectParam, entryPath).client.session)
    ensures SessionInvariant(Refreshed(c, refreshResponse).session)
  {
  }

  /** After sign-out no tick refreshes. */
  lemma NothingDueAfterSignOut(c: Client, now: int, parseDate: string -> Option<int>)
    ensures !ShouldRefresh(SignedOut(c).storage, now, parseDate)
  {
  }

  /** The session store, `localStorage` and the router, as the provider drives them. */
  class SessionManager {
    var token: string
    var signedIn: bool
    var user: Option<User>
    var storage: map<string, string>
    /** Every path handed to the router's `navigate`, oldest first. */
    var navigations: seq<string>
    /** The `authenticated` value the redirect effect last ran for. */
    var lastAuthenticated: Option<bool>
    const authenticatedEntryPath: string
    const unAuthenticatedEntryPath: string

    function Snapshot(): Client
      reads this
    {
      Client(Session(token, signedIn, user), storage)
    }

    /** `authenticated` as the provider exposes it. */
    predicate IsAuthenticated()
      reads this
    {
      Authenticated(Snapshot().session)
    }

    constructor (authenticatedEntryPath: string, unAuthenticatedEntryPath: string,
                 session: Session, storage: map<string, string>)
      ensures Snapshot() == Client(session, storage)
      ensures this.authenticatedEntryPath == authenticatedEntryPath
      ensures this.unAuthenticatedEntryPath == unAuthenticatedEntryPath
      ensures navigations == [] && lastAuthenticated == None
    {
      this.authenticatedEntryPath := authenticatedEntryPath;
      this.unAuthenticatedEntryPath := unAuthenticatedEntryPath;
      token, signedIn, user := session.token, session.signedIn, session.user;
      this.storage := storage;
      navigations := [];
      lastAuthenticated := None;
    }

    /** `redirect()`: navigate to the return-to URL or the authenticated entry path. */
    method Redirect(redirectParam: Option<string>)
      modifies this
      ensures Snapshot() == old(Snapshot()) && lastAuthenticated == old(lastAuthenticated)
      ensures navigations == old(navigations) + [RedirectTarget(redirectParam, authenticatedEntryPath)]
    {
      var redirectUrl := OrElse(redirectParam, authenticatedEntryPath);
      navigations := navigations + [redirectUrl];
    }

    /** The effect that runs whenever `authenticated` takes a new value: it redirects
        when the new value is true. */
    method AuthenticatedEffect(redirectParam: Option<string>) returns (redirected: bool)
      modifies this
      ensures Snapshot() == old(Snapshot())
      ensures lastAuthenticated == Some(IsAuthenticated())
      ensures redirected <==> IsAuthenticated() && old(lastAuthenticated) != Some(true)
      ensures navigations == old(navigations) +
                (if redirected then [RedirectTarget(redirectParam, authenticatedEntryPath)] else [])
    {
      var authenticated := IsAuthenticated();
      redirected := false;
      if lastAuthenticated != Some(authenticated) {
        lastAuthenticated := Some(authenticated);
        if authenticated {
          Redirect(redirectParam);
          redirected := true;
        }
      }
    }

    /** `handleSignIn(tokens, user)`. */
    method HandleSignIn(accessToken: Option<string>, newUser: Option<User>)
      modifies this
      ensures Snapshot() == SignedIn(old(Snapshot()), accessToken, newUser)
      ensures navigations == old(navigations) && lastAuthenticated == old(lastAuthenticated)
    {
      if !Truthy(accessToken) {
        return;
      }
      token := accessToken.value;
      signedIn := true;
      if newUser.Some? {
        user := newUser;
      }
    }

    /** `handleSignOut()`. */
    method HandleSignOut()
      modifies this
      ensures Snapshot() == SignedOut(old(Snapshot()))
      ensures navigations == old(navigations) && lastAuthenticated == old(lastAuthenticated)
    {
      token := "";
      user := None;
      signedIn := false;
      storage := storage - {AccessTokenKey};
      storage := storage - {ExpirationDateKey};
    }

    /** Shared body of `signIn` and `signUp`, which differ only in endpoint and message. */
    method AuthenticateWith(endpoint: Endpoint, response: Outcome<AuthResponse>, redirectParam: Option<string>)
      returns (result: AuthResult)
      modifies this
      ensures var step := Authenticate(old(Snapshot()), endpoint, response, redirectParam, authenticatedEntryPath);
              && Snapshot() == step.client && result == step.result
              && navigations == old(navigations) + (if step.navigateTo.Some? then [step.navigateTo.value] else [])
      ensures lastAuthenticated == old(lastAuthenticated)
    {
      match response {
        case Threw(errors) =>
          result := AuthResult(Failed, OrElse(errors.responseMessage, errors.text));
        case Returned(resp) =>
          if Truthy(resp.token) {
            HandleSignIn(resp.token, resp.user);
            Redirect(redirectParam);
            result := AuthResult(Success, "");
          } else {
            result := AuthResult(Failed, RejectionMessage(endpoint));
          }
      }
    }

    /** `signIn(values)`, with the response of the remote sign-in as input. */
    method SignIn(response: Outcome<AuthResponse>, redirectParam: Option<string>) returns (result: AuthResult)
      modifies this
      ensures var step := Authenticate(old(Snapshot()), SignInEndpoint, response, redirectParam, authenticatedEntryPath);
              && Snapshot() == step.client && result == step.result
              && navigations == old(navigations) + (if step.navigateTo.Some? then [step.navigateTo.value] else [])
      ensures lastAuthenticated == old(lastAuthenticated)
    {
      result := AuthenticateWith(SignInEndpoint, response, redirectParam);
    }

    /** `signUp(values)`, with the response of the remote sign-up as input. */
    method SignUp(response: Outcome<AuthResponse>, redirectParam: Option<string>) returns (result: AuthResult)
      modifies this
      ensures var step := Authenticate(old(Snapshot()), SignUpEndpoint, response, redirectParam, authenticatedEntryPath);
              && Snapshot() == step.client && result == step.result
              && navigations == old(navigations) + (if step.navigateTo.Some? then [step.navigateTo.value] else [])
      ensures lastAuthenticated == old(lastAuthenticated)
    {
      result := AuthenticateWith(SignUpEndpoint, response, redirectParam);
    }

    /** `signOut()`: the remote call's failure does not stop the local sign-out, which
        always clears the session and goes to the unauthenticated entry path; the
        error, if any, still rejects the returned promise. */
    method SignOut(response: Outcome<()>) returns (rejection: Option<ApiError>)
      modifies this
      ensures Snapshot() == SignedOut(old(Snapshot()))
      ensures navigations == old(navigations) + [unAuthenticatedEntryPath]
      ensures lastAuthenticated == old(lastAuthenticated)
      ensures rejection == (if response.Threw? then Some(response.error) else None)
    {
      rejection := if response.Threw? then Some(response.error) else None;
      HandleSignOut();
      navigations := navigations + [unAuthenticatedEntryPath];
    }

    /** `refreshAuthToken()`, with the refresh response as input. */
    method RefreshAuthToken(response: Outcome<RefreshResponse>)
      modifies this
      ensures Snapshot() == Refreshed(old(Snapshot()), response)
      ensures navigations == old(navigations) && lastAuthenticated == old(lastAuthenticated)
    {
      match response {
        case Threw(_) =>
          HandleSignOut();
        case Returned(resp) =>
          if Truthy(resp.token) {
            token := resp.token.value;
            storage := storage[AccessTokenKey := resp.token.value];
          }
      }
    }

    /** One firing of the interval: read the stored expiry and refresh when it is
        within a minute. `now` is the current time in milliseconds. */
    method Tick(now: int, parseDate: string -> Option<int>, response: Outcome<RefreshResponse>)
      returns (refreshed: bool)
      modifies this
      ensures refreshed == ShouldRefresh(old(storage), now, parseDate)
      ensures Snapshot() == if refreshed then Refreshed(old(Snapshot()), response) else old(Snapshot())
      ensures navigations == old(navigations) && lastAuthenticated == old(lastAuthenticated)
    {
      var expirationDate: Option<string> := if ExpirationDateKey in storage then Some(storage[ExpirationDateKey]) else None;
      var tokenExpiration := if expirationDate.Some? then parseDate(expirationDate.value) else None;
      refreshed := Truthy(expirationDate)
                   && tokenExpiration.Some? && now >= tokenExpiration.value - RefreshLeadTime;
      if refreshed {
        RefreshAuthToken(response);
      }
    }
  }
}
