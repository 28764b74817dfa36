# Education platform front end: auth gating, forms and dashboard figures in Dafny

This project models the decision logic of a single-page education platform. The platform sits on a hosted auth and database service. The model covers:

- the two route gatekeepers, `ProtectedRoute` and `PublicRoute`. Each chooses between a loading screen, a redirect, the verify-email page, the profile-setup page and the page's content.
- the authentication context. Its provider keeps `user`, `session` and `loading`, updates them from the identity provider's session events, and short-circuits sign-up, sign-in, sign-out and password reset in demo mode.
- the sign-in page: the redirect after sign-in, the mapping of sign-in errors to texts, the submit and password-reset handlers, and the form state.
- the registration page: the password and email rules, the order of the submit checks, the submit button's disabled state, and the form state.
- the student and teacher dashboards: how the query answers are stored, and the figures and lists drawn from them.
- the backend configuration test, `isSupabaseConfigured`, and the `isDemoMode` flag.

One module per source file: `SupabaseConfig`, `AuthContext`, `Routes` (both gatekeepers), `Login`, `Register`, `StudentDashboard` and `TeacherDashboard`. Shared modules: `Wrappers` (Option, Result), `Records` (row shapes from `types/database.ts`), `Text` (JavaScript's `\s`, `trim` and `includes`) and `DashboardCommon` (query answers and the three-course list).

Modelling choices:

- Values that can be `null` or `undefined` are `Option`s. JavaScript truthiness is written out. `email_confirmed_at` counts as set only when it is present and non-empty. An environment variable counts as set only when it is defined and non-empty.
- A role is `Teacher | Student | Other(name)`, where `Other` never holds the text "teacher" or "student" (the subset type `Records.Role`). The gatekeepers send every role except teacher to the student dashboard. The sign-in page has a separate third branch for invalid roles.
- Each page component that updates state is a class with its fields. Each async handler is split at its `await`. A `...Start` method runs up to the call and returns the arguments the call is made with. A `...Finish` method takes the call's outcome (the returned error, or a throw) as input.
- The gatekeepers read `profile` and `profileLoading` from a profile lookup that is not part of this model. Here those two values are inputs, collected in `Routes.Snapshot`.
- Each identity-provider call and each database query is an input to the model: its returned rows, its error or its throw.

Behaviour of the code worth knowing:

- The code's `signOut` (`contexts/AuthContext.tsx:101-105`) only calls the provider. It does not clear any profile.
- Demo mode depends on `VITE_DEMO_MODE` alone (`utils/supabase.ts:21`). An unconfigured backend does not switch it on. `SupabaseConfig.DemoModeAndConfigurationCombine` shows that all four combinations of the two flags occur.
- The provider's context value (`contexts/AuthContext.tsx:124-133`) has no `profile` and no `profileLoading`, although the gatekeepers and the sign-in page read both. A consumer then sees the profile as absent and the profile as not loading. `Routes.ContextWithoutProfileBlocksProtectedPages` proves that a protected page then never shows its content: a verified user stops at the profile-setup page.
- A profile role other than teacher or student goes to `/student-dashboard` from both gatekeepers. A page that requires the student role redirects such a user to `/student-dashboard` again (`Routes.OtherRoleRedirectsToStudentDashboard`). Whether that route requires the student role is decided by a route table that is not part of this model.

## Model

| member | source | states |
|---|---|---|
| SupabaseConfig.ClientUrl | shadcn-ui/src/utils/supabase.ts:4 | the client URL is never empty; it is the variable when that is set and non-empty, else the placeholder URL |
| SupabaseConfig.ClientKey | shadcn-ui/src/utils/supabase.ts:5 | the client key is never empty; it is the variable when that is set and non-empty, else the placeholder key |
| SupabaseConfig.IsSupabaseConfigured | shadcn-ui/src/utils/supabase.ts:11-18 | a configured backend has both variables set and non-empty, and the client is created with exactly those values |
| SupabaseConfig.IsDemoMode | shadcn-ui/src/utils/supabase.ts:21 | demo mode needs the flag variable set and non-empty; texts such as "false" or "1" leave it off |
| SupabaseConfig.ConfiguredIffNoPlaceholder | shadcn-ui/src/utils/supabase.ts:4-18 | the backend counts as configured exactly when the client is created with neither placeholder |
| SupabaseConfig.UnconfiguredCases | shadcn-ui/src/utils/supabase.ts:13-16 | an unset or empty URL, an unset or empty key, the placeholder URL and the placeholder key each make the backend unconfigured |
| SupabaseConfig.DemoModeIndependent | shadcn-ui/src/utils/supabase.ts:11-21 | the demo flag reads only `VITE_DEMO_MODE`; the configuration test never reads it |
| SupabaseConfig.DemoModeAndConfigurationCombine | shadcn-ui/src/utils/supabase.ts:11-21 | every combination of demo mode and configured backend occurs |
| AuthContext.UserOf | shadcn-ui/src/contexts/AuthContext.tsx:43 | the user is present exactly when the session is, and is then the session's user |
| AuthContext.UseAuth | shadcn-ui/src/contexts/AuthContext.tsx:18-24 | fails with the missing-provider message exactly when no provider value exists, else yields that value |
| AuthContext.AuthProvider.constructor | shadcn-ui/src/contexts/AuthContext.tsx:27-29 | starts with no user, no session, loading, and no subscription |
| AuthContext.AuthProvider.Mount | shadcn-ui/src/contexts/AuthContext.tsx:31-57 | in demo mode: no session, no user, loading over, no subscription; otherwise: subscribes and leaves the state to the events; loading never starts again |
| AuthContext.AuthProvider.OnSessionEvent | shadcn-ui/src/contexts/AuthContext.tsx:41-54 | for any event, the session becomes the event's session, the user becomes its user, and loading ends for good; no session means no user |
| AuthContext.AuthProvider.SignUp | shadcn-ui/src/contexts/AuthContext.tsx:59-81 | calls the provider exactly when not in demo mode, passing email, password, name and role through; in demo mode it returns the demo error |
| AuthContext.AuthProvider.SignIn | shadcn-ui/src/contexts/AuthContext.tsx:83-99 | calls the provider exactly when not in demo mode, with the given credentials; in demo mode it returns the demo error |
| AuthContext.AuthProvider.SignOut | shadcn-ui/src/contexts/AuthContext.tsx:101-105 | calls the provider's sign-out exactly when not in demo mode; it is a function of the flag and changes no provider field |
| AuthContext.AuthProvider.ResetPassword | shadcn-ui/src/contexts/AuthContext.tsx:107-122 | calls the reset mail exactly when not in demo mode, linking to the origin's reset page; in demo mode it returns the demo reset error |
| AuthContext.AuthProvider.Value | shadcn-ui/src/contexts/AuthContext.tsx:124-133 | the value handed to consumers carries the provider's own state, and in it the user is always the session's user |
| AuthContext.DemoErrorsDistinct | shadcn-ui/src/contexts/AuthContext.tsx:60-115 | in demo mode sign-up and sign-in both answer the same authentication error, and reset answers a different message |
| Routes.DashboardPath | shadcn-ui/src/components/ProtectedRoute.tsx:91 | the dashboard is one of the two; it is the teacher dashboard exactly for the teacher role |
| Routes.ProtectedRoute | shadcn-ui/src/components/ProtectedRoute.tsx:10-96 | loading exactly while either flag is set; content exactly when ready and the required role is absent or matches; redirects only to sign-in or a dashboard |
| Routes.PublicRoute | shadcn-ui/src/components/PublicRoute.tsx:10-33 | loading exactly while the session loads or the profile loads for a present user; a redirect exactly for a verified user with a profile, to the role's dashboard; else content |
| Routes.ProtectedLoadingFirst | shadcn-ui/src/components/ProtectedRoute.tsx:14 | either loading flag gives the loading screen, whatever the user, profile and role |
| Routes.ProtectedNoUserToLogin | shadcn-ui/src/components/ProtectedRoute.tsx:26-28 | without a user the result is a redirect to `/login` |
| Routes.ProtectedUnverifiedVerifyEmail | shadcn-ui/src/components/ProtectedRoute.tsx:31 | an unverified user gets the verify-email page, whatever the profile and required role |
| Routes.ProtectedMissingProfile | shadcn-ui/src/components/ProtectedRoute.tsx:56 | a verified user without a profile gets the profile-setup page |
| Routes.ProtectedRoleMismatch | shadcn-ui/src/components/ProtectedRoute.tsx:89-92 | a role mismatch redirects to the actual role's dashboard: the teacher one for teachers, else the student one |
| Routes.StudentOnTeacherPage | shadcn-ui/src/components/ProtectedRoute.tsx:89-92 | a student on a teacher page is redirected to `/student-dashboard` |
| Routes.PublicLoading | shadcn-ui/src/components/PublicRoute.tsx:13 | session loading always gives the loading screen; profile loading does only when a user is present |
| Routes.PublicRedirectsByRole | shadcn-ui/src/components/PublicRoute.tsx:25-28 | a verified user with a profile goes to the teacher dashboard if a teacher, else to the student dashboard |
| Routes.PublicUnverifiedSeesPage | shadcn-ui/src/components/PublicRoute.tsx:25-32 | an unverified user sees the public page even with a profile |
| Routes.PublicNoUserNeverRedirects | shadcn-ui/src/components/PublicRoute.tsx:13-32 | with no user and the session known, the public page is shown |
| Routes.PublicRedirectIsAdmitted | shadcn-ui/src/components/PublicRoute.tsx:25-28 | no redirect loop: when the public page sends a user to their role's dashboard, the protected page requiring that role shows its content on the same snapshot |
| Routes.GatekeepersAgreeWhenReady | shadcn-ui/src/components/ProtectedRoute.tsx:14-95 | a ready snapshot leaves the public page and opens protected pages with no required role or the user's own role |
| Routes.OtherRoleRedirectsToStudentDashboard | shadcn-ui/src/components/ProtectedRoute.tsx:89-92 | any role besides teacher and student is sent to the student dashboard by both gatekeepers, including from pages that require the student role |
| Routes.SnapshotFromContext | shadcn-ui/src/contexts/AuthContext.tsx:124-133 | the provider's context value yields the session's loading flag and user, no profile and no profile loading |
| Routes.ContextWithoutProfileBlocksProtectedPages | shadcn-ui/src/components/ProtectedRoute.tsx:11-56 | read from a consistent provider's own value, a protected page never shows its content: once the session is known, a verified user stops at profile setup and no session means a redirect to sign-in |
| Text.TrimStart | shadcn-ui/src/pages/Register.tsx:74 | the result is a suffix of the input; what was dropped is all whitespace; it does not start with whitespace |
| Text.TrimEnd | shadcn-ui/src/pages/Register.tsx:74 | the result is a prefix of the input; what was dropped is all whitespace; it does not end with whitespace |
| Text.Trim | shadcn-ui/src/pages/Register.tsx:74 | the result is no longer than the input and neither starts nor ends with whitespace |
| Text.TrimDropsBlankEnds | shadcn-ui/src/pages/Register.tsx:74 | the result is a slice of the input with only whitespace before and after it, so together with `Text.Trim` it is the input with its blank ends removed |
| Text.Contains | shadcn-ui/src/pages/Login.tsx:68-70 | the empty text and the whole text are always contained; a contained part is never longer than the text |
| Text.TrimEmptyIffBlank | shadcn-ui/src/pages/Register.tsx:74 | trimming leaves nothing exactly when the name is all whitespace |
| Login.RedirectFires | shadcn-ui/src/pages/Login.tsx:28 | once the session is known, the redirect effect fires exactly when the gatekeepers consider the snapshot ready |
| Login.ShowsDashboardInterstitial | shadcn-ui/src/pages/Login.tsx:115 | whenever the "loading your dashboard" page shows, both gatekeepers show their loading screen too |
| Login.RoleRedirectFor | shadcn-ui/src/pages/Login.tsx:27-43 | fires exactly for a verified user with a loaded profile; teachers and students go to their dashboards; any other role is the invalid-role error |
| Login.SignInErrorText | shadcn-ui/src/pages/Login.tsx:67-74 | an unconfirmed-email message gives the verify text; otherwise an invalid-credentials message gives the credentials text; otherwise the message as it is; empty exactly when the message is |
| Login.InterstitialExcludesRedirect | shadcn-ui/src/pages/Login.tsx:28-115 | the "loading your dashboard" page and the role redirect never apply together |
| Login.FirstErrorCheckWins | shadcn-ui/src/pages/Login.tsx:68-71 | a message naming both known errors gets the unconfirmed-email text |
| Login.RedirectAgreesWithGatekeepers | shadcn-ui/src/pages/Login.tsx:31-41 | teachers and students are sent where the gatekeepers send them; a third role, which the gatekeepers send to the student dashboard, is an error here |
| Login.LoginPage.constructor | shadcn-ui/src/pages/Login.tsx:14-21 | empty form, not loading, no error, no reset mail sent |
| Login.LoginPage.ApplyRoleRedirect | shadcn-ui/src/pages/Login.tsx:27-43 | navigates exactly when the redirect decision does, to its path; sets the invalid-role text only for an invalid role |
| Login.LoginPage.HandleChange | shadcn-ui/src/pages/Login.tsx:45-51 | sets only the named field and clears the error |
| Login.LoginPage.SubmitStart | shadcn-ui/src/pages/Login.tsx:53-65 | in demo mode: the demo text, loading over, and no `signIn`; otherwise: error cleared, loading, and `signIn` called with the form's credentials |
| Login.LoginPage.SubmitFinish | shadcn-ui/src/pages/Login.tsx:64-85 | loading ends on every path; a throw gives the unexpected-error text; a returned error gives its mapped text; success keeps the error |
| Login.LoginPage.ResetStart | shadcn-ui/src/pages/Login.tsx:88-100 | an empty email is refused before demo mode is checked; `resetPassword` is called exactly with a non-empty email outside demo mode |
| Login.LoginPage.ResetFinish | shadcn-ui/src/pages/Login.tsx:99-111 | a returned error shows its message; success marks the mail sent; a throw shows the failure text |
| Register.HasCharIn | shadcn-ui/src/pages/Register.tsx:34-37 | a character class test succeeds exactly when some character of the password is in the class |
| Register.ValidatePassword | shadcn-ui/src/pages/Register.tsx:31-40 | each flag holds exactly when its rule does: at least 8 characters, some upper-case letter, lower-case letter, digit, special character |
| Register.IsPasswordValid | shadcn-ui/src/pages/Register.tsx:46-47 | a password is valid exactly when it has at least 8 characters, an upper-case letter, a lower-case letter, a digit and a special character |
| Register.IndexOfAt | shadcn-ui/src/pages/Register.tsx:43 | the index of the first '@', or the length when there is none |
| Register.ValidateEmail | shadcn-ui/src/pages/Register.tsx:42-44 | an accepted address has at least five characters, contains an '@' and does not start with one |
| Register.ValidateEmailMatchesPattern | shadcn-ui/src/pages/Register.tsx:42-44 | the email check accepts exactly the strings that `^[^\s@]+@[^\s@]+\.[^\s@]+$` matches |
| Register.ValidEmailShape | shadcn-ui/src/pages/Register.tsx:43 | a valid email has no whitespace, exactly one '@' and a non-empty part before it |
| Register.RegistrationError | shadcn-ui/src/pages/Register.tsx:67-96 | the error is that of the first failing check, in the order demo mode, blank name, email, password, confirmation; none exactly when all pass |
| Register.SubmitDisabled | shadcn-ui/src/pages/Register.tsx:320 | the button is disabled while loading and in demo mode; while it is enabled, only the name check can still fail |
| Register.RegisterPage.constructor | shadcn-ui/src/pages/Register.tsx:15-26 | empty form with the student role, not loading, no error, no success |
| Register.RegisterPage.HandleChange | shadcn-ui/src/pages/Register.tsx:50-56 | sets only the named field, keeps the role, clears the error |
| Register.RegisterPage.HandleRoleChange | shadcn-ui/src/pages/Register.tsx:58-60 | sets only the role |
| Register.RegisterPage.SubmitStart | shadcn-ui/src/pages/Register.tsx:62-99 | `signUp` is called exactly when all checks pass, with the form's email, password, name and role; otherwise the first failing check's text is shown and loading ends |
| Register.RegisterPage.SubmitFinish | shadcn-ui/src/pages/Register.tsx:99-113 | loading ends on every path; a returned error shows its message, success sets the success flag, a throw shows the unexpected-error text |
| DashboardCommon.RowsOrEmpty | shadcn-ui/src/pages/TeacherDashboard.tsx:70-72 | missing rows count as an empty list |
| DashboardCommon.VisibleCourses | shadcn-ui/src/pages/TeacherDashboard.tsx:201 | the listed courses are a prefix of at most three, all of them when there are no more than three |
| DashboardCommon.ViewAllIffCoursesHidden | shadcn-ui/src/pages/StudentDashboard.tsx:219-243 | "View All Courses" appears exactly when some course is not listed |
| DashboardCommon.EmptyStateExcludesList | shadcn-ui/src/pages/TeacherDashboard.tsx:195-225 | the empty-state message shows exactly when nothing is listed, and never with the link |
| StudentDashboard.GradedSubmissions | shadcn-ui/src/pages/StudentDashboard.tsx:95 | keeps exactly the submissions that have a grade, each as many times as it occurs; it keeps all of them exactly when all are graded |
| StudentDashboard.CompletedCount | shadcn-ui/src/pages/StudentDashboard.tsx:95 | at most the number of submissions; zero exactly when none is graded; all of them exactly when all are graded |
| StudentDashboard.PendingCount | shadcn-ui/src/pages/StudentDashboard.tsx:96 | at most the number of assignments; zero exactly when every assignment has a submission |
| StudentDashboard.SubmitButtons | shadcn-ui/src/pages/StudentDashboard.tsx:272-298 | the assignments listed with a "Submit" button are exactly the pending ones, each as many times as it occurs in the list |
| StudentDashboard.PendingCountsSubmitButtons | shadcn-ui/src/pages/StudentDashboard.tsx:96-298 | the "Pending Tasks" figure is the number of assignments listed with a "Submit" button |
| StudentDashboard.GradeTotal | shadcn-ui/src/pages/StudentDashboard.tsx:98 | the sum of the marks is never negative when no mark is |
| StudentDashboard.AverageGrade | shadcn-ui/src/pages/StudentDashboard.tsx:97-99 | 0 without submissions; `NaN` exactly when there are submissions but none is graded |
| StudentDashboard.RoundHalfUp | shadcn-ui/src/pages/StudentDashboard.tsx:98 | the integer nearest to the quotient, halves rounded up |
| StudentDashboard.AverageLabel | shadcn-ui/src/pages/StudentDashboard.tsx:123 | a percentage exactly when the average is a number above zero, otherwise "N/A" |
| StudentDashboard.AverageEdgeCases | shadcn-ui/src/pages/StudentDashboard.tsx:97-99 | 0 without submissions, `NaN` when none is graded, and "N/A" shown for both |
| StudentDashboard.GradeTotalBounds | shadcn-ui/src/pages/StudentDashboard.tsx:98 | the sum of graded marks lies between count times the lowest and count times the highest allowed grade |
| StudentDashboard.RoundHalfUpWithin | shadcn-ui/src/pages/StudentDashboard.tsx:98 | rounding a mean keeps it within the bounds of the averaged values |
| StudentDashboard.AverageWithinGradeRange | shadcn-ui/src/pages/StudentDashboard.tsx:97-99 | with some graded work, the average is a number within the range of the grades |
| StudentDashboard.AverageShownForPositiveGrades | shadcn-ui/src/pages/StudentDashboard.tsx:97-123 | when every grade is at least 1 and some work is graded, the average is shown as a percentage |
| StudentDashboard.StatusOf | shadcn-ui/src/pages/StudentDashboard.tsx:272-290 | awaiting submission exactly when pending; graded exactly when the first submission has a grade, showing that grade |
| StudentDashboard.StudentDashboardPage.constructor | shadcn-ui/src/pages/StudentDashboard.tsx:16-19 | empty lists, loading |
| StudentDashboard.StudentDashboardPage.FetchDashboardData | shadcn-ui/src/pages/StudentDashboard.tsx:25-93 | the lists are replaced, together, only when every query made succeeds; assignments stay empty without courses; loading ends on every path |
| StudentDashboard.StudentDashboardPage.Stats | shadcn-ui/src/pages/StudentDashboard.tsx:95-126 | completed at most the submissions, pending at most the assignments, and no pending tasks without enrolled courses |
| TeacherDashboard.EnrollmentShown | shadcn-ui/src/pages/TeacherDashboard.tsx:215 | a missing count shows 0, and a non-zero figure is the course's own count |
| TeacherDashboard.TotalStudents | shadcn-ui/src/pages/TeacherDashboard.tsx:92 | zero for no courses and never negative when no count is negative |
| TeacherDashboard.TotalStudentsAppend | shadcn-ui/src/pages/TeacherDashboard.tsx:92 | the total over two lists of courses is the sum of their totals |
| TeacherDashboard.CardAtMostTotal | shadcn-ui/src/pages/TeacherDashboard.tsx:92-215 | with no negative counts, no card shows more students than the total, nor do the listed cards together |
| TeacherDashboard.TeacherDashboardPage.constructor | shadcn-ui/src/pages/TeacherDashboard.tsx:16-19 | empty lists, loading |
| TeacherDashboard.TeacherDashboardPage.FetchDashboardData | shadcn-ui/src/pages/TeacherDashboard.tsx:25-80 | the three lists are replaced only when all three queries succeed; loading ends on every path |
| TeacherDashboard.TeacherDashboardPage.Stats | shadcn-ui/src/pages/TeacherDashboard.tsx:82-107 | my courses, assignments and pending grades are the list lengths; the student total is never negative for non-negative counts |

## Left out

- Markup, animations, styling, toasts and console output: presentation only.
- The identity provider and database client calls (`getSession`, `onAuthStateChange`, `signUp`, `signInWithPassword`, `resetPasswordForEmail`, `signOut`, and the `from(...)` queries): each call's outcome is an input, and the query filters, joins, ordering and limits are not modelled. The dashboard figures are over the rows a query returns, not over all of a user's data. Each student course is taken as the course row of its enrolment. The join that adds the teacher is not carried.
- `enrollment_count` is taken as the course row holds it. Which field the count query actually fills is a property of the database client and is not modelled.
- The subscription's unsubscribe on unmount, the ordering of asynchronous answers, and stale profile fetches: scheduling is not modelled. The profile lookup itself (the `useProfile` hook) is outside this model; `profile` and `profileLoading` are inputs.
- Router side effects, page reloads and date formatting. Navigation is a returned path.
- The route table that assigns required roles to paths is not part of this model.
- `StudentDashboard.GradedSubmissions`: a grade that is `undefined` passes the code's `grade !== null` test and counts as graded, while the model's `None` stands for both `null` and `undefined` and counts as ungraded. The queries read return `null` for a missing grade, where the two agree.
- Floating point: grades are integers, and `Math.round` of a mean is rounding half up on the exact quotient, with `NaN` as its own value.
- String lengths count characters, not UTF-16 code units, so a password with characters outside the Basic Multilingual Plane can be measured shorter here than in the browser.
- The landing page, footer, setup banner, navigation bar and demo dashboard hold static content and name fallbacks only.
- The Register role is restricted to teacher or student by a `requires`, as the handler's parameter type does.
