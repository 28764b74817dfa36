/** The sign-in page (`pages/Login.tsx`): its form state, the redirect after
    sign-in, the error texts and the password-reset request. Each async
    handler is split at its `await`: a `...Start` method runs up to the call
    and returns the call's arguments, and a `...Finish` method takes the
    call's outcome. */
module Login {
  import opened Wrappers
  import opened Records
  import opened AuthContext
  import opened Routes
  import opened Text

  const EmailNotConfirmed := "Email not confirmed"
  const InvalidCredentials := "Invalid login credentials"
  const VerifyEmailText := "Please verify your email address before signing in. Check your inbox for the verification link."
  const InvalidCredentialsText := "Invalid email or password. Please check your credentials and try again."
  const UnexpectedErrorText := "An unexpected error occurred"
  const DemoSignInText := "Demo mode: Please set up Supabase to enable authentication."
  const EnterEmailText := "Please enter your email address first"
  const DemoResetText := "Demo mode: Please set up Supabase to enable password reset."
  const ResetFailedText := "Failed to send reset email"
  const InvalidRoleText := "Invalid user role. Please contact support."

  datatype LoginForm = LoginForm(email: string, password: string)

  /** The two named inputs of the form. */
  datatype LoginField = EmailField | PasswordField

  /** How an awaited context call ended: it returned `{ error }`, or it threw. */
  datatype CallOutcome = Returned(error: Option<AuthError>) | Threw

  /** What the redirect effect does on a snapshot. */
  datatype RoleRedirect = NoRedirect | NavigateTo(path: string) | InvalidRole

  /** The effect fires for a verified user with a loaded profile. */
  function RedirectFires(s: Snapshot): (fires: bool)
    ensures !s.loading ==> (fires <==> Ready(s))
  {
    s.user.Some? && s.user.value.Verified() && s.profile.Some? && !s.profileLoading
  }

  /** The redirect effect: teachers and students go to their dashboards,
      any other role is an error and stays on the page. */
  function RoleRedirectFor(s: Snapshot): (d: RoleRedirect)
    ensures d != NoRedirect <==> RedirectFires(s)
    ensures d == NavigateTo(TeacherDashboardPath) <==> RedirectFires(s) && s.profile.value.role == Teacher
    ensures d == NavigateTo(StudentDashboardPath) <==> RedirectFires(s) && s.profile.value.role == Student
    ensures d == InvalidRole <==> RedirectFires(s) && s.profile.value.role.Other?
  {
    if !RedirectFires(s) then NoRedirect
    else match s.profile.value.role
      case Teacher => NavigateTo(TeacherDashboardPath)
      case Student => NavigateTo(StudentDashboardPath)
      case Other(_) => InvalidRole
  }

  /** The text shown for a sign-in error: the two known provider messages
      get friendlier texts, checked in this order; anything else is shown
      as it is. */
  function SignInErrorText(message: string): (text: string)
    ensures Contains(message, EmailNotConfirmed) ==> text == VerifyEmailText
    ensures !Contains(message, EmailNotConfirmed) && Contains(message, InvalidCredentials) ==> text == InvalidCredentialsText
    ensures !Contains(message, EmailNotConfirmed) && !Contains(message, InvalidCredentials) ==> text == message
    ensures text == "" <==> message == ""
  {
    if Contains(message, EmailNotConfirmed) then VerifyEmailText
    else if Contains(message, InvalidCredentials) then InvalidCredentialsText
    else message
  }

  /** The "Loading your dashboard" page: a verified user whose profile is
      still loading. Both gatekeepers show their loading screen then too. */
  function ShowsDashboardInterstitial(s: Snapshot): (shows: bool)
    ensures shows ==> PublicRoute(s) == Loading
    ensures shows ==> forall requiredRole :: ProtectedRoute(s, requiredRole) == Loading
  {
    s.user.Some? && s.user.value.Verified() && s.profileLoading
  }

  /** The interstitial and the redirect never apply to the same snapshot. */
  lemma InterstitialExcludesRedirect(s: Snapshot)
    ensures ShowsDashboardInterstitial(s) ==> RoleRedirectFor(s) == NoRedirect
    ensures RedirectFires(s) ==> !ShowsDashboardInterstitial(s)
  {
  }

  /** A message naming both known errors gets the unconfirmed-email text:
      the first check wins. */
  lemma FirstErrorCheckWins(message: string)
    requires Contains(message, EmailNotConfirmed) && Contains(message, InvalidCredentials)
    ensures SignInErrorText(message) == VerifyEmailText
  {
  }

  /** Where the page and the gatekeepers agree and disagree: teachers and
      students are sent to the dashboard that the gatekeepers choose, while
      a third role, which the gatekeepers send to the student dashboard,
      is an error here. */
  lemma RedirectAgreesWithGatekeepers(s: Snapshot)
    requires RedirectFires(s)
    ensures RoleRedirectFor(s).NavigateTo? ==> RoleRedirectFor(s).path == DashboardPath(s.profile.value.role)
    ensures RoleRedirectFor(s).NavigateTo? && !s.loading ==> PublicRoute(s) == RedirectTo(RoleRedirectFor(s).path)
    ensures RoleRedirectFor(s) == InvalidRole ==> DashboardPath(s.profile.value.role) == StudentDashboardPath
  {
  }

  class LoginPage {
    const demoMode: bool
    var form: LoginForm
    var loading: bool
    var error: string
    var resetEmailSent: bool

    /** An empty form, no error, nothing in flight. */
    constructor (demoMode: bool)
      ensures this.demoMode == demoMode
      ensures form == LoginForm("", "") && !loading && error == "" && !resetEmailSent
    {
      this.demoMode := demoMode;
      form := LoginForm("", "");
      loading := false;
      error := "";
      resetEmailSent := false;
    }

    /** The redirect effect on a new snapshot: returns the navigation it
        makes, and sets the error for an unknown role. */
    method ApplyRoleRedirect(s: Snapshot) returns (navigation: Option<string>)
      modifies this`error
      ensures navigation.Some? <==> RoleRedirectFor(s).NavigateTo?
      ensures navigation.Some? ==> navigation.value == RoleRedirectFor(s).path
      ensures error == (if RoleRedirectFor(s) == InvalidRole then InvalidRoleText else old(error))
    {
      navigation := None;
      var d := RoleRedirectFor(s);
      match d
      case NavigateTo(path) => navigation := Some(path);
      case InvalidRole => error := InvalidRoleText;
      case NoRedirect =>
    }

    /** `handleChange`: sets the named field only, and clears the error. */
    method HandleChange(field: LoginField, value: string)
      modifies this`form, this`error
      ensures field == EmailField ==> form == LoginForm(value, old(form.password))
      ensures field == PasswordField ==> form == LoginForm(old(form.email), value)
      ensures error == ""
    {
      match field {
        case EmailField => form := form.(email := value);
        case PasswordField => form := form.(password := value);
      }
      error := "";
    }

    /** `handleSubmit` up to the sign-in call. In demo mode it stops with
        the demo text and without calling `signIn`; otherwise it returns the
        credentials `signIn` is called with, still loading. */
    method SubmitStart() returns (signInArgs: Option<(string, string)>)
      modifies this`error, this`loading
      ensures demoMode ==> signInArgs.None? && error == DemoSignInText && !loading
      ensures !demoMode ==> signInArgs == Some((form.email, form.password)) && error == "" && loading
    {
      error := "";
      loading := true;
      if demoMode {
        error := DemoSignInText;
        loading := false;
        return None;
      }
      signInArgs := Some((form.email, form.password));
    }

    /** `handleSubmit` after the sign-in call: the error text for a failure,
        nothing for success; loading ends on every path. */
    method SubmitFinish(outcome: CallOutcome)
      modifies this`error, this`loading
      ensures !loading
      ensures outcome == Threw ==> error == UnexpectedErrorText
      ensures outcome == Returned(None) ==> error == old(error)
      ensures outcome.Returned? && outcome.error.Some? ==> error == SignInErrorText(outcome.error.value.message)
    {
      match outcome {
        case Threw => error := UnexpectedErrorText;
        case Returned(None) =>
        case Returned(Some(e)) => error := SignInErrorText(e.message);
      }
      loading := false;
    }

    /** `handleResetPassword` up to the reset call. An empty email is
        refused before demo mode is looked at; neither calls `resetPassword`. */
    method ResetStart() returns (resetArg: Option<string>)
      modifies this`error
      ensures resetArg.Some? <==> form.email != "" && !demoMode
      ensures resetArg.Some? ==> resetArg.value == form.email && error == old(error)
      ensures form.email == "" ==> error == EnterEmailText
      ensures form.email != "" && demoMode ==> error == DemoResetText
    {
      if form.email == "" {
        error := EnterEmailText;
        return None;
      }
      if demoMode {
        error := DemoResetText;
        return None;
      }
      resetArg := Some(form.email);
    }

    /** `handleResetPassword` after the call: the provider's message on a
        failure, the sent flag on success. It never touches `loading`. */
    method ResetFinish(outcome: CallOutcome)
      modifies this`error, this`resetEmailSent
      ensures outcome == Threw ==> error == ResetFailedText && resetEmailSent == old(resetEmailSent)
      ensures outcome == Returned(None) ==> resetEmailSent && error == old(error)
      ensures outcome.Returned? && outcome.error.Some? ==>
                error == outcome.error.value.message && resetEmailSent == old(resetEmailSent)
    {
      match outcome
      case Threw => error := ResetFailedText;
      case Returned(None) => resetEmailSent := true;
      case Returned(Some(e)) => error := e.message;
    }
  }
}
