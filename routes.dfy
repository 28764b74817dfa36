/** The two route gatekeepers (`components/ProtectedRoute.tsx`,
    `components/PublicRoute.tsx`) as decisions over one snapshot of the
    authentication state. */
module Routes {
  import opened Wrappers
  import opened Records
  import opened AuthContext

  const LoginPath := "/login"
  const TeacherDashboardPath := "/teacher-dashboard"
  const StudentDashboardPath := "/student-dashboard"

  /** What a gatekeeper reads from the context. `profile` and
      `profileLoading` come from the profile lookup, which is not part of
      this model, so they are inputs here. */
  datatype Snapshot = Snapshot(loading: bool, profileLoading: bool, user: Option<User>, profile: Option<Profile>)

  /** What a gatekeeper renders. */
  datatype Gate = Loading | RedirectTo(path: string) | VerifyEmail | ProfileSetup | RenderChildren

  /** The dashboard for a role: teachers get theirs, every other role the student one. */
  function DashboardPath(role: Role): (path: string)
    ensures path == TeacherDashboardPath || path == StudentDashboardPath
    ensures path == TeacherDashboardPath <==> role == Teacher
  {
    if role == Teacher then TeacherDashboardPath else StudentDashboardPath
  }

  /** A verified user with a profile, nothing loading: the state in which
      the protected pages may be shown. */
  predicate Ready(s: Snapshot) {
    && !s.loading && !s.profileLoading
    && s.user.Some? && s.user.value.Verified()
    && s.profile.Some?
  }

  /** `ProtectedRoute`: loading, then no user, then an unverified user, then
      a missing profile, then a role mismatch; the first that applies decides. */
  function ProtectedRoute(s: Snapshot, requiredRole: Option<Role>): (g: Gate)
    ensures g == Loading <==> s.loading || s.profileLoading
    ensures g == RenderChildren <==> Ready(s) && (requiredRole.None? || requiredRole.value == s.profile.value.role)
    ensures g.RedirectTo? ==> g.path in {LoginPath, TeacherDashboardPath, StudentDashboardPath}
  {
    if s.loading || s.profileLoading then Loading
    else if s.user.None? then RedirectTo(LoginPath)
    else if !s.user.value.Verified() then VerifyEmail
    else if s.profile.None? then ProfileSetup
    else if requiredRole.Some? && s.profile.value.role != requiredRole.value then
      RedirectTo(DashboardPath(s.profile.value.role))
    else RenderChildren
  }

  /** `PublicRoute`: loading (the profile only counts with a user), then a
      verified user with a profile goes to the role's dashboard, else the
      public page is shown. */
  function PublicRoute(s: Snapshot): (g: Gate)
    ensures g == Loading <==> s.loading || (s.user.Some? && s.profileLoading)
    ensures g.RedirectTo? <==> !s.loading && !s.profileLoading && s.user.Some? && s.user.value.Verified() && s.profile.Some?
    ensures g.RedirectTo? ==> g.path == DashboardPath(s.profile.value.role)
    ensures g.Loading? || g.RedirectTo? || g.RenderChildren?
  {
    if s.loading || (s.user.Some? && s.profileLoading) then Loading
    else if s.user.Some? && s.user.value.Verified() && s.profile.Some? then
      RedirectTo(DashboardPath(s.profile.value.role))
    else RenderChildren
  }

  /** Loading wins over everything else. */
  lemma ProtectedLoadingFirst(s: Snapshot, requiredRole: Option<Role>)
    requires s.loading || s.profileLoading
    ensures ProtectedRoute(s, requiredRole) == Loading
  {
  }

  /** Without a user the protected page sends to the sign-in page. */
  lemma ProtectedNoUserToLogin(s: Snapshot, requiredRole: Option<Role>)
    requires !s.loading && !s.profileLoading && s.user.None?
    ensures ProtectedRoute(s, requiredRole) == RedirectTo(LoginPath)
  {
  }

  /** An unverified user is asked to verify, whatever the profile or the
      required role: verification is checked before profile and role. */
  lemma ProtectedUnverifiedVerifyEmail(s: Snapshot, requiredRole: Option<Role>)
    requires !s.loading && !s.profileLoading && s.user.Some? && !s.user.value.Verified()
    ensures ProtectedRoute(s, requiredRole) == VerifyEmail
  {
  }

  /** A verified user without a profile sees the profile-setup page, never
      a redirect and never the protected content. */
  lemma ProtectedMissingProfile(s: Snapshot, requiredRole: Option<Role>)
    requires !s.loading && !s.profileLoading && s.user.Some? && s.user.value.Verified() && s.profile.None?
    ensures ProtectedRoute(s, requiredRole) == ProfileSetup
  {
  }

  /** A role mismatch redirects to the dashboard of the actual role. */
  lemma ProtectedRoleMismatch(s: Snapshot, required: Role)
    requires Ready(s) && s.profile.value.role != required
    ensures ProtectedRoute(s, Some(required)) == RedirectTo(DashboardPath(s.profile.value.role))
    ensures s.profile.value.role == Teacher ==> ProtectedRoute(s, Some(required)) == RedirectTo(TeacherDashboardPath)
    ensures s.profile.value.role != Teacher ==> ProtectedRoute(s, Some(required)) == RedirectTo(StudentDashboardPath)
  {
  }

  /** A student sent to a teacher page lands on the student dashboard. */
  lemma StudentOnTeacherPage(s: Snapshot)
    requires Ready(s) && s.profile.value.role == Student
    ensures ProtectedRoute(s, Some(Teacher)) == RedirectTo(StudentDashboardPath)
  {
  }

  /** Loading on a public page: always while the session loads, and while
      the profile loads only when there is a user. */
  lemma PublicLoading(s: Snapshot)
    ensures s.loading ==> PublicRoute(s) == Loading
    ensures !s.loading && s.profileLoading && s.user.None? ==> PublicRoute(s) == RenderChildren
    ensures s.profileLoading && s.user.Some? ==> PublicRoute(s) == Loading
  {
  }

  /** A verified teacher with a profile is sent to the teacher dashboard,
      anyone else with a profile to the student one. */
  lemma PublicRedirectsByRole(s: Snapshot)
    requires Ready(s)
    ensures s.profile.value.role == Teacher ==> PublicRoute(s) == RedirectTo(TeacherDashboardPath)
    ensures s.profile.value.role != Teacher ==> PublicRoute(s) == RedirectTo(StudentDashboardPath)
  {
  }

  /** An unverified user sees the public page even with a profile. */
  lemma PublicUnverifiedSeesPage(s: Snapshot)
    requires !s.loading && !s.profileLoading && s.user.Some? && !s.user.value.Verified()
    ensures PublicRoute(s) == RenderChildren
  {
  }

  /** Without a user, once the session is known, the public page is shown
      and there is never a redirect. */
  lemma PublicNoUserNeverRedirects(s: Snapshot)
    requires !s.loading && s.user.None?
    ensures PublicRoute(s) == RenderChildren
  {
  }

  /** No redirect loop: when the public page sends a user to the dashboard
      of their role, the protected page that requires that role shows its
      content on the same snapshot. */
  lemma PublicRedirectIsAdmitted(s: Snapshot)
    requires PublicRoute(s).RedirectTo?
    ensures s.profile.Some?
    ensures PublicRoute(s).path == DashboardPath(s.profile.value.role)
    ensures ProtectedRoute(s, Some(s.profile.value.role)) == RenderChildren
  {
  }

  /** The two gatekeepers agree on readiness: a ready snapshot leaves the
      public page and opens every protected page that requires the user's
      own role or no role. */
  lemma GatekeepersAgreeWhenReady(s: Snapshot)
    requires Ready(s)
    ensures PublicRoute(s).RedirectTo?
    ensures ProtectedRoute(s, None) == RenderChildren
    ensures ProtectedRoute(s, Some(s.profile.value.role)) == RenderChildren
  {
  }

  /** A role other than teacher or student is sent to the student dashboard
      by both gatekeepers, and a page that requires the student role sends
      it there again: if the student dashboard is guarded by the student
      role (the route table is not part of this model), such a user is
      redirected to the page they are on. */
  lemma OtherRoleRedirectsToStudentDashboard(s: Snapshot)
    requires Ready(s) && s.profile.value.role.Other?
    ensures PublicRoute(s) == RedirectTo(StudentDashboardPath)
    ensures ProtectedRoute(s, Some(Student)) == RedirectTo(StudentDashboardPath)
    ensures ProtectedRoute(s, Some(Teacher)) == RedirectTo(StudentDashboardPath)
  {
  }

  /** The snapshot a gatekeeper gets from the provider's context value.
      That value (`contexts/AuthContext.tsx:124-133`) carries no `profile`
      and no `profileLoading`, so a consumer reading them sees undefined:
      absent and false. */
  function SnapshotFromContext(v: AuthValue): (s: Snapshot)
    ensures s.loading == v.loading && s.user == v.user
    ensures s.profile.None? && !s.profileLoading
  {
    Snapshot(v.loading, false, v.user, None)
  }

  /** Read from the provider's context value, a protected page never shows
      its content: once the session is known, a signed-in user with a
      confirmed email stops at the profile-setup page, and no session
      means a redirect to sign-in. */
  lemma ContextWithoutProfileBlocksProtectedPages(p: AuthProvider, requiredRole: Option<Role>)
    requires p.Valid()
    ensures ProtectedRoute(SnapshotFromContext(p.Value()), requiredRole) != RenderChildren
    ensures !p.loading && p.session.Some? && p.session.value.user.Verified() ==>
              ProtectedRoute(SnapshotFromContext(p.Value()), requiredRole) == ProfileSetup
    ensures !p.loading && p.session.None? ==>
              ProtectedRoute(SnapshotFromContext(p.Value()), requiredRole) == RedirectTo(LoginPath)
  {
  }
}
