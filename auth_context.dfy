/** The authentication context (`contexts/AuthContext.tsx`): the provider's
    session state, how provider events update it, and the demo-mode answers
    of its actions. */
module AuthContext {
  import opened Wrappers
  import opened Records

  /** The identity provider's user record, as far as the front end reads it. */
  datatype User = User(id: string, email: string, emailConfirmedAt: Option<string>) {
    /** `user.email_confirmed_at` is truthy: present and not the empty string. */
    predicate Verified() {
      emailConfirmedAt.Some? && emailConfirmedAt.value != ""
    }
  }

  /** A session always carries its user; its tokens are opaque here. */
  datatype Session = Session(accessToken: string, user: User)

  datatype AuthError = AuthError(message: string, name: string, status: int)

  /** The kinds of provider notification; the handler ignores which one it got. */
  datatype AuthEvent = InitialSession | SignedIn | SignedOut | TokenRefreshed | UserUpdated | PasswordRecovery

  /** A request to the identity provider. */
  datatype ProviderRequest =
    | SignUpRequest(email: string, password: string, fullName: string, role: Role)
    | SignInRequest(email: string, password: string)
    | SignOutRequest
    | ResetRequest(email: string, redirectTo: string)

  /** What an action does: answer at once, or hand the request to the
      provider and pass the provider's error back unchanged. */
  datatype AuthStep = Respond(error: Option<AuthError>) | Call(request: ProviderRequest)

  /** What the context hands to its consumers. */
  datatype AuthValue = AuthValue(user: Option<User>, session: Option<Session>, loading: bool, isDemoMode: bool)

  const DemoAuthMessage := "Demo mode: Please set up Supabase to enable authentication"
  const DemoResetMessage := "Demo mode: Please set up Supabase to enable password reset"
  const DemoErrorName := "DemoModeError"
  const DemoAuthError := AuthError(DemoAuthMessage, DemoErrorName, 400)
  const DemoResetError := AuthError(DemoResetMessage, DemoErrorName, 400)
  const MissingProviderMessage := "useAuth must be used within an AuthProvider"
  const ResetPasswordPath := "/reset-password"

  /** `session?.user ?? null` */
  function UserOf(s: Option<Session>): (u: Option<User>)
    ensures u.Some? <==> s.Some?
    ensures s.Some? ==> u.value == s.value.user
  {
    if s.Some? then Some(s.value.user) else None
  }

  /** `useAuth()`: fails outside a provider, else yields the provider's value. */
  function UseAuth(context: Option<AuthValue>): (r: Result<AuthValue, string>)
    ensures r.Failure? <==> context.None?
    ensures r.Failure? ==> r.error == MissingProviderMessage
    ensures r.Success? ==> r.value == context.value
  {
    match context
    case None => Failure(MissingProviderMessage)
    case Some(v) => Success(v)
  }

  /** The `AuthProvider` component's state. `demoMode` is the build-time flag
      it closes over; `subscribed` records whether it listens to the
      provider's auth-state events. */
  class AuthProvider {
    const demoMode: bool
    var user: Option<User>
    var session: Option<Session>
    var loading: bool
    var subscribed: bool

    /** The user is always the session's user, and demo mode never listens. */
    ghost predicate Valid()
      reads this
    {
      && user == UserOf(session)
      && (demoMode ==> !subscribed)
    }

    /** The initial state: no user, no session, loading. */
    constructor (demoMode: bool)
      ensures Valid()
      ensures this.demoMode == demoMode
      ensures user == None && session == None && loading && !subscribed
    {
      this.demoMode := demoMode;
      user := None;
      session := None;
      loading := true;
      subscribed := false;
    }

    /** The mount effect. In demo mode it settles on "no session" and does
        not subscribe; otherwise it asks for the initial session and
        subscribes, and the answers arrive later through `OnSessionEvent`. */
    method Mount()
      requires Valid() && !subscribed
      modifies this
      ensures Valid()
      ensures demoMode ==> session == None && user == None && !loading && !subscribed
      ensures !demoMode ==> subscribed && session == old(session) && user == old(user) && loading == old(loading)
      ensures old(!loading) ==> !loading
    {
      if demoMode {
        session := None;
        user := None;
        loading := false;
        return;
      }
      subscribed := true;
    }

    /** The initial-session answer or an auth-state notification: whatever
        the event, the session becomes `s`, the user its user, and loading ends. */
    method OnSessionEvent(event: AuthEvent, s: Option<Session>)
      requires Valid() && subscribed
      modifies this
      ensures Valid() && subscribed
      ensures session == s && user == UserOf(s) && !loading
      ensures s.None? ==> user.None?
    {
      session := s;
      user := UserOf(s);
      loading := false;
    }

    /** `signUp`: the demo error in demo mode, else the provider's sign-up
        with the name and role as user metadata. */
    function SignUp(email: string, password: string, fullName: string, role: Role): (r: AuthStep)
      ensures r.Call? <==> !demoMode
      ensures r.Respond? ==> r.error == Some(DemoAuthError)
      ensures r.Call? ==> r.request == SignUpRequest(email, password, fullName, role)
    {
      if demoMode then Respond(Some(DemoAuthError))
      else Call(SignUpRequest(email, password, fullName, role))
    }

    /** `signIn`: the demo error in demo mode, else the provider's password sign-in. */
    function SignIn(email: string, password: string): (r: AuthStep)
      ensures r.Call? <==> !demoMode
      ensures r.Respond? ==> r.error == Some(DemoAuthError)
      ensures r.Call? ==> r.request == SignInRequest(email, password)
    {
      if demoMode then Respond(Some(DemoAuthError))
      else Call(SignInRequest(email, password))
    }

    /** `signOut`: nothing in demo mode, else only the provider's sign-out;
        no field of the provider changes. */
    function SignOut(): (r: Option<ProviderRequest>)
      ensures r.Some? <==> !demoMode
      ensures r.Some? ==> r.value == SignOutRequest
    {
      if demoMode then None else Some(SignOutRequest)
    }

    /** `resetPassword`: the demo reset error in demo mode, else the
        provider's reset mail, linking back to the page's origin. */
    function ResetPassword(email: string, origin: string): (r: AuthStep)
      ensures r.Call? <==> !demoMode
      ensures r.Respond? ==> r.error == Some(DemoResetError)
      ensures r.Call? ==> r.request == ResetRequest(email, origin + ResetPasswordPath)
    {
      if demoMode then Respond(Some(DemoResetError))
      else Call(ResetRequest(email, origin + ResetPasswordPath))
    }

    /** The value the provider hands to its consumers: its own state, in
        which the user is always the session's user. */
    function Value(): (v: AuthValue)
      reads this
      requires Valid()
      ensures v.user == UserOf(v.session)
      ensures v.user == user && v.session == session && v.loading == loading && v.isDemoMode == demoMode
    {
      AuthValue(user, session, loading, demoMode)
    }
  }

  /** Demo mode answers every sign-up and sign-in with the same error, and
      password resets with a different one. */
  lemma DemoErrorsDistinct(p: AuthProvider, email: string, password: string, name: string, role: Role, origin: string)
    requires p.demoMode
    ensures p.SignUp(email, password, name, role) == p.SignIn(email, password) == Respond(Some(DemoAuthError))
    ensures p.ResetPassword(email, origin) == Respond(Some(DemoResetError))
    ensures DemoResetError.message != DemoAuthError.message
  {
    assert DemoResetMessage[46] != DemoAuthMessage[46];
  }
}
