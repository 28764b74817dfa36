/** The registration page (`pages/Register.tsx`): password and email rules,
    the order of the submit checks, the submit button's disabled state and
    the form's state. `handleSubmit` is split at its `await` as on the
    sign-in page. */
module Register {
  import opened Wrappers
  import opened Records
  import opened Text

  const DemoRegisterText := "Demo mode: Please set up Supabase to enable registration."
  const NameRequiredText := "Full name is required"
  const InvalidEmailText := "Please enter a valid email address"
  const WeakPasswordText := "Password does not meet requirements"
  const MismatchText := "Passwords do not match"
  const UnexpectedErrorText := "An unexpected error occurred"
  const MinPasswordLength := 8

  /** The characters of the class `[!@#$%^&*(),.?":{}|<>]`. */
  const SpecialChars := "!@#$%^&*(),.?\":{}|<>"

  /** The character classes the password rules test for. */
  datatype CharClass = Upper | Lower | Digit | Special

  predicate InClass(c: char, k: CharClass) {
    match k
    case Upper => 'A' <= c <= 'Z'
    case Lower => 'a' <= c <= 'z'
    case Digit => '0' <= c <= '9'
    case Special => c in SpecialChars
  }

  /** `/[class]/.test(s)`: the class matches somewhere in `s`. */
  function HasCharIn(s: string, k: CharClass): (found: bool)
    ensures found <==> exists i :: 0 <= i < |s| && InClass(s[i], k)
  {
    if s == [] then false
    else if InClass(s[0], k) then true
    else
      var found := HasCharIn(s[1..], k);
      assert forall i :: 0 < i < |s| ==> s[i] == s[1..][i - 1];
      found
  }

  /** The result of `validatePassword`, one flag per rule. */
  datatype PasswordChecks = PasswordChecks(length: bool, uppercase: bool, lowercase: bool, number: bool, special: bool)

  /** `validatePassword`: one flag per rule, each saying whether the rule holds. */
  function ValidatePassword(password: string): (checks: PasswordChecks)
    ensures checks.length <==> |password| >= MinPasswordLength
    ensures checks.uppercase <==> exists i :: 0 <= i < |password| && 'A' <= password[i] <= 'Z'
    ensures checks.lowercase <==> exists i :: 0 <= i < |password| && 'a' <= password[i] <= 'z'
    ensures checks.number <==> exists i :: 0 <= i < |password| && '0' <= password[i] <= '9'
    ensures checks.special <==> exists i :: 0 <= i < |password| && password[i] in SpecialChars
  {
    PasswordChecks(
      |password| >= MinPasswordLength,
      HasCharIn(password, Upper),
      HasCharIn(password, Lower),
      HasCharIn(password, Digit),
      HasCharIn(password, Special))
  }

  /** `isPasswordValid`: every check of `validatePassword` holds, that is,
      at least eight characters with an upper-case letter, a lower-case
      letter, a digit and a special character. */
  function IsPasswordValid(password: string): (valid: bool)
    ensures valid <==>
      && |password| >= MinPasswordLength
      && (exists i :: 0 <= i < |password| && 'A' <= password[i] <= 'Z')
      && (exists i :: 0 <= i < |password| && 'a' <= password[i] <= 'z')
      && (exists i :: 0 <= i < |password| && '0' <= password[i] <= '9')
      && (exists i :: 0 <= i < |password| && password[i] in SpecialChars)
  {
    var c := ValidatePassword(password);
    c.length && c.uppercase && c.lowercase && c.number && c.special
  }

  /** `[^\s@]` */
  predicate PlainChar(c: char) {
    !IsWhitespace(c) && c != '@'
  }

  predicate AllPlain(s: string) {
    forall i :: 0 <= i < |s| ==> PlainChar(s[i])
  }

  /** The index of the first '@', or the length when there is none. */
  function IndexOfAt(s: string): (i: nat)
    ensures i <= |s|
    ensures i < |s| ==> s[i] == '@'
    ensures forall j :: 0 <= j < i ==> s[j] != '@'
  {
    if s == [] || s[0] == '@' then 0
    else
      var i := 1 + IndexOfAt(s[1..]);
      assert forall j :: 0 < j < |s| ==> s[j] == s[1..][j - 1];
      i
  }

  /** What may follow the '@': `[^\s@]+\.[^\s@]+` */
  predicate DomainMatches(d: string) {
    AllPlain(d) && exists k | 0 < k < |d| - 1 :: d[k] == '.'
  }

  /** `validateEmail`: a non-empty plain local part, the first '@', then a
      plain domain with an inner dot. */
  function ValidateEmail(email: string): (valid: bool)
    ensures valid ==> |email| >= 5 && email[0] != '@' && '@' in email
  {
    var at := IndexOfAt(email);
    0 < at < |email| && AllPlain(email[..at]) && DomainMatches(email[at + 1..])
  }

  /** `email` splits as `local@middle.last` at '@' index `i` and '.' index
      `k`, with each part one or more `[^\s@]`. */
  ghost predicate SplitsAt(email: string, i: int, k: int) {
    && 0 < i && i + 1 < k < |email| - 1
    && email[i] == '@' && email[k] == '.'
    && AllPlain(email[..i]) && AllPlain(email[i + 1..k]) && AllPlain(email[k + 1..])
  }

  /** The regular expression `^[^\s@]+@[^\s@]+\.[^\s@]+$`, read directly. */
  ghost predicate EmailPattern(email: string) {
    exists i, k :: SplitsAt(email, i, k)
  }

  /** `validateEmail` accepts exactly the strings the pattern matches. */
  lemma ValidateEmailMatchesPattern(email: string)
    ensures ValidateEmail(email) <==> EmailPattern(email)
  {
    if ValidateEmail(email) {
      var i := IndexOfAt(email);
      var d := email[i + 1..];
      var k' :| 0 < k' < |d| - 1 && d[k'] == '.';
      var k := i + 1 + k';
      assert email[i + 1..k] == d[..k'];
      assert email[k + 1..] == d[k' + 1..];
      assert SplitsAt(email, i, k);
    }
    if EmailPattern(email) {
      var i, k :| SplitsAt(email, i, k);
      var at := IndexOfAt(email);
      assert at == i;
      var d := email[i + 1..];
      forall j | 0 <= j < |d| ensures PlainChar(d[j]) {
        if j < k - i - 1 {
          assert d[j] == email[i + 1..k][j];
        } else if j > k - i - 1 {
          assert d[j] == email[k + 1..][j - (k - i)];
        }
      }
      assert d[k - i - 1] == '.';
    }
  }

  /** A valid email has no whitespace, exactly one '@' and something before it. */
  lemma ValidEmailShape(email: string)
    requires ValidateEmail(email)
    ensures forall i :: 0 <= i < |email| ==> !IsWhitespace(email[i])
    ensures multiset(email)['@'] == 1
    ensures email[0] != '@'
  {
    var at := IndexOfAt(email);
    var local, domain := email[..at], email[at + 1..];
    assert email == local + [email[at]] + domain;
    assert '@' !in local && '@' !in domain;
    forall i | 0 <= i < |email| ensures !IsWhitespace(email[i]) {
      if i < at { assert email[i] == local[i]; }
      else if i > at { assert email[i] == domain[i - at - 1]; }
    }
  }

  /** The form: text fields and the chosen role (teacher or student). */
  datatype RegisterForm = RegisterForm(fullName: string, email: string, password: string, confirmPassword: string, role: Role)

  /** The four named text inputs. */
  datatype RegisterField = FullNameField | EmailField | PasswordField | ConfirmPasswordField

  function FieldValue(form: RegisterForm, field: RegisterField): string {
    match field
    case FullNameField => form.fullName
    case EmailField => form.email
    case PasswordField => form.password
    case ConfirmPasswordField => form.confirmPassword
  }

  /** The submit checks in order, giving the error text of the first that
      fails: demo mode, blank name, email, password, confirmation. */
  function RegistrationError(demoMode: bool, form: RegisterForm): (e: Option<string>)
    ensures e == Some(DemoRegisterText) <==> demoMode
    ensures e == Some(NameRequiredText) <==> !demoMode && Blank(form.fullName)
    ensures e == Some(InvalidEmailText) <==> !demoMode && !Blank(form.fullName) && !ValidateEmail(form.email)
    ensures e == Some(WeakPasswordText) <==>
      !demoMode && !Blank(form.fullName) && ValidateEmail(form.email) && !IsPasswordValid(form.password)
    ensures e == Some(MismatchText) <==>
      && !demoMode && !Blank(form.fullName) && ValidateEmail(form.email) && IsPasswordValid(form.password)
      && form.password != form.confirmPassword
    ensures e.None? <==>
      && !demoMode && !Blank(form.fullName) && ValidateEmail(form.email) && IsPasswordValid(form.password)
      && form.password == form.confirmPassword
  {
    TrimEmptyIffBlank(form.fullName);
    if demoMode then Some(DemoRegisterText)
    else if Trim(form.fullName) == "" then Some(NameRequiredText)
    else if !ValidateEmail(form.email) then Some(InvalidEmailText)
    else if !IsPasswordValid(form.password) then Some(WeakPasswordText)
    else if form.password != form.confirmPassword then Some(MismatchText)
    else None
  }

  /** The submit button's `disabled` expression. While the button is
      enabled, the only check a submit can still fail is the name check. */
  function SubmitDisabled(loading: bool, demoMode: bool, form: RegisterForm): (disabled: bool)
    ensures loading || demoMode ==> disabled
    ensures !disabled ==> RegistrationError(demoMode, form) == None || RegistrationError(demoMode, form) == Some(NameRequiredText)
  {
    || loading
    || !IsPasswordValid(form.password)
    || !ValidateEmail(form.email)
    || form.password != form.confirmPassword
    || demoMode
  }

  /** How the awaited `signUp` ended: it returned `{ error }`, or it threw. */
  datatype SignUpOutcome = Returned(error: Option<string>) | Threw

  class RegisterPage {
    const demoMode: bool
    var form: RegisterForm
    var loading: bool
    var error: string
    var success: bool

    /** An empty form with the student role chosen. */
    constructor (demoMode: bool)
      ensures this.demoMode == demoMode
      ensures form == RegisterForm("", "", "", "", Student)
      ensures !loading && error == "" && !success
    {
      this.demoMode := demoMode;
      form := RegisterForm("", "", "", "", Student);
      loading := false;
      error := "";
      success := false;
    }

    /** `handleChange`: sets the named field only, and clears the error. */
    method HandleChange(field: RegisterField, value: string)
      modifies this`form, this`error
      ensures FieldValue(form, field) == value
      ensures forall other :: other != field ==> FieldValue(form, other) == FieldValue(old(form), other)
      ensures form.role == old(form.role)
      ensures error == ""
    {
      match field {
        case FullNameField => form := form.(fullName := value);
        case EmailField => form := form.(email := value);
        case PasswordField => form := form.(password := value);
        case ConfirmPasswordField => form := form.(confirmPassword := value);
      }
      error := "";
    }

    /** `handleRoleChange`: sets the role only; the error stays. */
    method HandleRoleChange(role: Role)
      requires role == Teacher || role == Student
      modifies this`form
      ensures form == old(form).(role := role)
    {
      form := form.(role := role);
    }

    /** `handleSubmit` up to the sign-up call. A failing check sets its text
        and ends loading; when all pass, it returns what `signUp` is called
        with and is still loading. */
    method SubmitStart() returns (signUpArgs: Option<(string, string, string, Role)>)
      modifies this`error, this`loading
      ensures signUpArgs.Some? <==> RegistrationError(demoMode, form).None?
      ensures signUpArgs.Some? ==> signUpArgs.value == (form.email, form.password, form.fullName, form.role)
      ensures error == RegistrationError(demoMode, form).GetOr("")
      ensures loading <==> signUpArgs.Some?
    {
      error := "";
      loading := true;
      // Each failing check sets its text, ends loading and returns early.
      var failure := RegistrationError(demoMode, form);
      error := failure.GetOr("");
      loading := failure.None?;
      signUpArgs := if failure.None? then Some((form.email, form.password, form.fullName, form.role)) else None;
    }

    /** `handleSubmit` after the sign-up call: the provider's message, or
        success; loading ends on every path. */
    method SubmitFinish(outcome: SignUpOutcome)
      modifies this`error, this`success, this`loading
      ensures !loading
      ensures outcome == Threw ==> error == UnexpectedErrorText && success == old(success)
      ensures outcome == Returned(None) ==> success && error == old(error)
      ensures outcome.Returned? && outcome.error.Some? ==> error == outcome.error.value && success == old(success)
    {
      match outcome {
        case Threw => error := UnexpectedErrorText;
        case Returned(None) => success := true;
        case Returned(Some(message)) => error := message;
      }
      loading := false;
    }
  }
}
