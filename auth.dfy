/**
 * The sign-in form: the password-strength score and its label, the three
 * form modes (sign in, sign up, password reset) and the checks a submission
 * goes through before the form calls the authentication backend.
 */
module Auth {

  // ---------------------------------------------------------------------------
  // Password strength
  // ---------------------------------------------------------------------------

  /** The five tests `getPasswordStrength` awards a point for. */
  datatype Criterion = LongEnough | HasLowercase | HasUppercase | HasDigit | HasSymbol

  const AllCriteria: seq<Criterion> := [LongEnough, HasLowercase, HasUppercase, HasDigit, HasSymbol]

  /** `[a-z]`, `[A-Z]` and `\d` are ASCII classes (the patterns carry no `u` flag). */
  predicate IsLower(c: char) { 'a' <= c <= 'z' }
  predicate IsUpper(c: char) { 'A' <= c <= 'Z' }
  predicate IsDigit(c: char) { '0' <= c <= '9' }

  /** `/<class>/.test(password)`: some character of the password is in the class. */
  predicate Meets(password: string, c: Criterion) {
    match c
    case LongEnough => |password| >= 8
    case HasLowercase => exists i :: 0 <= i < |password| && IsLower(password[i])
    case HasUppercase => exists i :: 0 <= i < |password| && IsUpper(password[i])
    case HasDigit => exists i :: 0 <= i < |password| && IsDigit(password[i])
    case HasSymbol => exists i :: 0 <= i < |password| && !IsLower(password[i]) && !IsUpper(password[i]) && !IsDigit(password[i])
  }

  /** The criteria among `cs` the password meets, in the order of `cs`. */
  function MetAmong(password: string, cs: seq<Criterion>): seq<Criterion> {
    if cs == [] then []
    else MetAmong(password, cs[..|cs| - 1]) + (if Meets(password, cs[|cs| - 1]) then [cs[|cs| - 1]] else [])
  }

  /** The criteria the password meets. */
  function CriteriaMet(password: string): seq<Criterion> {
    MetAmong(password, AllCriteria)
  }

  lemma {:induction false} MetAmongMeaning(password: string, cs: seq<Criterion>)
    ensures |MetAmong(password, cs)| <= |cs|
    ensures |MetAmong(password, cs)| == |cs| <==> forall c :: c in cs ==> Meets(password, c)
    ensures forall c :: c in MetAmong(password, cs) <==> c in cs && Meets(password, c)
  {
    if cs != [] {
      var init, last := cs[..|cs| - 1], cs[|cs| - 1];
      MetAmongMeaning(password, init);
      assert cs == init + [last];
    }
  }

  /**
   * `getPasswordStrength`: one point per criterion met, counted test by test
   * as the source increments its counter.
   */
  method PasswordStrength(password: string) returns (strength: int)
    ensures strength == |CriteriaMet(password)|
    ensures 0 <= strength <= 5
  {
    assert AllCriteria[..0] == [];
    strength := 0;
    if Meets(password, LongEnough) {
      strength := strength + 1;
    }
    OneMoreCriterion(password, 1);
    if Meets(password, HasLowercase) {
      strength := strength + 1;
    }
    OneMoreCriterion(password, 2);
    if Meets(password, HasUppercase) {
      strength := strength + 1;
    }
    OneMoreCriterion(password, 3);
    if Meets(password, HasDigit) {
      strength := strength + 1;
    }
    OneMoreCriterion(password, 4);
    if Meets(password, HasSymbol) {
      strength := strength + 1;
    }
    OneMoreCriterion(password, 5);
    assert AllCriteria[..5] == AllCriteria;
  }

  /** Testing the `k`-th criterion adds one to the count exactly when it is met. */
  lemma OneMoreCriterion(password: string, k: int)
    requires 1 <= k <= |AllCriteria|
    ensures |MetAmong(password, AllCriteria[..k])|
         == |MetAmong(password, AllCriteria[..k - 1])| + (if Meets(password, AllCriteria[k - 1]) then 1 else 0)
  {
    assert AllCriteria[..k][..k - 1] == AllCriteria[..k - 1];
  }

  /** The words under the strength bar. */
  function StrengthLabel(strength: int): (word: string)
    ensures word == "Weak" <==> strength <= 2
    ensures word == "Fair" <==> strength == 3
    ensures word == "Good" <==> strength == 4
    ensures word == "Strong" <==> strength >= 5
  {
    if strength <= 2 then "Weak"
    else if strength <= 3 then "Fair"
    else if strength <= 4 then "Good"
    else "Strong"
  }

  /** The position of a label on the bar's scale. */
  function LabelLevel(word: string): int {
    if word == "Weak" then 0
    else if word == "Fair" then 1
    else if word == "Good" then 2
    else 3
  }

  /** A higher score never gets a weaker label. */
  lemma LabelIsMonotone(a: int, b: int)
    requires a <= b
    ensures LabelLevel(StrengthLabel(a)) <= LabelLevel(StrengthLabel(b))
  {
  }

  /**
   * The label over a password's own score: "Strong" exactly when all five
   * criteria are met, "Weak" exactly when at most two are.
   */
  lemma PasswordLabel(password: string)
    ensures StrengthLabel(|CriteriaMet(password)|) == "Strong"
        <==> forall c :: c in AllCriteria ==> Meets(password, c)
    ensures StrengthLabel(|CriteriaMet(password)|) == "Weak" <==> |CriteriaMet(password)| <= 2
  {
    MetAmongMeaning(password, AllCriteria);
  }

  /** A password shorter than eight characters is never labelled "Strong". */
  lemma ShortPasswordIsNeverStrong(password: string)
    requires |password| < 8
    ensures StrengthLabel(|CriteriaMet(password)|) != "Strong"
  {
    PasswordLabel(password);
    assert !Meets(password, LongEnough);
  }

  // ---------------------------------------------------------------------------
  // Submission checks
  // ---------------------------------------------------------------------------

  /**
   * The characters `String.prototype.trim` removes: the white space and line
   * terminators of sections 12.2 and 12.3 of ECMA-262.
   */
  predicate IsTrimmed(c: char) {
    c == '\U{0009}' || c == '\U{000A}' || c == '\U{000B}' || c == '\U{000C}' || c == '\U{000D}'
    || c == '\U{0020}' || c == '\U{00A0}' || c == '\U{1680}' || ('\U{2000}' <= c <= '\U{200A}')
    || c == '\U{2028}' || c == '\U{2029}' || c == '\U{202F}' || c == '\U{205F}' || c == '\U{3000}'
    || c == '\U{FEFF}'
  }

  /** `!s.trim()`: nothing is left once the surrounding white space is removed. */
  predicate IsBlank(s: string) {
    forall i :: 0 <= i < |s| ==> IsTrimmed(s[i])
  }

  const EnterEmail := "Please enter your email address"
  const EnterPassword := "Please enter your password"
  const PasswordsDiffer := "Passwords do not match"
  const EnterFullName := "Please enter your full name"
  const ResetSent := "Password reset email sent! Check your inbox."
  const AccountCreated := "Account created successfully! You can now sign in with your credentials."

  /** The backend call a submission makes. */
  datatype Request =
    | ResetPassword(email: string)
    | SignUp(email: string, password: string)
    | SignIn(email: string, password: string)

  /** What the checks of `handleSubmit` decide: an error message, or the call to make. */
  datatype Decision = Rejected(message: string) | Send(request: Request)

  /** The checks of `handleSubmit`, in the order the source applies them. */
  function Decide(email: string, password: string, confirmPassword: string, fullName: string,
                  isSignUp: bool, isResetMode: bool): (d: Decision)
    // A blank e-mail is reported before anything else.
    ensures IsBlank(email) ==> d == Rejected(EnterEmail)
    // A blank password is reported next, and only outside reset mode.
    ensures !IsBlank(email) && !isResetMode && IsBlank(password) ==> d == Rejected(EnterPassword)
    // In reset mode the password plays no part: a filled-in e-mail is enough.
    ensures !IsBlank(email) && isResetMode ==> d == Send(ResetPassword(email))
    // When signing up, a mismatch is reported before a missing full name.
    ensures !IsBlank(email) && !isResetMode && !IsBlank(password) && isSignUp && password != confirmPassword
        ==> d == Rejected(PasswordsDiffer)
    // With matching passwords, a missing full name is reported; otherwise the account is requested.
    ensures !IsBlank(email) && !isResetMode && !IsBlank(password) && isSignUp && password == confirmPassword
        ==> d == (if IsBlank(fullName) then Rejected(EnterFullName) else Send(SignUp(email, password)))
    // No account is requested without matching passwords and a full name.
    ensures d.Send? && d.request.SignUp? ==> password == confirmPassword && !IsBlank(fullName) && !IsBlank(password)
    // Every call carries the form's own e-mail and, outside reset, its password.
    ensures d.Send? ==> !IsBlank(email) && d.request.email == email
    ensures d.Send? && !d.request.ResetPassword? ==> d.request.password == password
    // Sign-in asks nothing of the confirmation or the full name.
    ensures !IsBlank(email) && !IsBlank(password) && !isResetMode && !isSignUp ==> d == Send(SignIn(email, password))
  {
    if IsBlank(email) then Rejected(EnterEmail)
    else if !isResetMode && IsBlank(password) then Rejected(EnterPassword)
    else if isResetMode then Send(ResetPassword(email))
    else if isSignUp then
      if password != confirmPassword then Rejected(PasswordsDiffer)
      else if IsBlank(fullName) then Rejected(EnterFullName)
      else Send(SignUp(email, password))
    else Send(SignIn(email, password))
  }

  /** Whether the backend accepted the call, or its error message. */
  datatype Outcome = Succeeded | Failed(message: string)

  /** The optional profile fields of the sign-up form. */
  datatype ProfileFields = ProfileFields(
    fullName: string,
    phone: string,
    dateOfBirth: string,
    occupation: string,
    monthlyIncomeTarget: string,
    savingsGoal: string)

  const EmptyProfileFields := ProfileFields("", "", "", "", "", "")

  /** The argument of `handleModeSwitch`. */
  datatype Mode = SignInMode | SignUpMode | ResetMode

  /** The dependencies of the effect that clears the messages. */
  datatype Watched = Watched(
    email: string,
    password: string,
    confirmPassword: string,
    isSignUp: bool,
    isResetMode: bool,
    profileData: ProfileFields)

  /** The state of the form. */
  class AuthForm {
    var isSignUp: bool
    var isResetMode: bool
    var email: string
    var password: string
    var confirmPassword: string
    var profileData: ProfileFields
    var error: string
    var success: string

    /** The form never is in sign-up and reset mode at once. */
    predicate ModesExclusive()
      reads this
    {
      !(isSignUp && isResetMode)
    }

    /** What `handleSubmit` would decide over the current fields. */
    function Decision(): Decision
      reads this
    {
      Decide(email, password, confirmPassword, profileData.fullName, isSignUp, isResetMode)
    }

    function WatchedFields(): Watched
      reads this
    {
      Watched(email, password, confirmPassword, isSignUp, isResetMode, profileData)
    }

    /** The initial state: sign-in mode, every field empty. */
    constructor ()
      ensures !isSignUp && !isResetMode && ModesExclusive()
      ensures email == "" && password == "" && confirmPassword == ""
      ensures profileData == EmptyProfileFields && error == "" && success == ""
    {
      isSignUp := false;
      isResetMode := false;
      email := "";
      password := "";
      confirmPassword := "";
      profileData := EmptyProfileFields;
      error := "";
      success := "";
    }

    /** `handleModeSwitch`: the messages go and the flags are set for the new mode. */
    method SwitchMode(newMode: Mode)
      modifies this
      ensures newMode == ResetMode ==> !isSignUp && isResetMode
      ensures newMode == SignUpMode ==> isSignUp && !isResetMode
      ensures newMode == SignInMode ==> !isSignUp && !isResetMode
      ensures ModesExclusive()
      ensures error == "" && success == ""
      ensures email == old(email) && password == old(password) && confirmPassword == old(confirmPassword)
      ensures profileData == old(profileData)
    {
      error := "";
      success := "";
      if newMode == ResetMode {
        isResetMode := true;
        isSignUp := false;
      } else if newMode == SignUpMode {
        isSignUp := true;
        isResetMode := false;
      } else {
        isSignUp := false;
        isResetMode := false;
      }
    }

    /**
     * The footer link: back to sign-in from reset or sign-up mode, on to
     * sign-up from sign-in mode.
     */
    method ToggleFromFooter()
      modifies this
      ensures old(isResetMode) || old(isSignUp) ==> !isSignUp && !isResetMode
      ensures !old(isResetMode) && !old(isSignUp) ==> isSignUp && !isResetMode
      ensures ModesExclusive()
      ensures error == "" && success == ""
      ensures email == old(email) && password == old(password) && confirmPassword == old(confirmPassword)
      ensures profileData == old(profileData)
    {
      SwitchMode(if isResetMode then SignInMode else if isSignUp then SignInMode else SignUpMode);
    }

    /**
     * `handleSubmit`, with the backend's answer to the call (if one is made)
     * passed in as `outcome`. `sent` is the call made, if any.
     */
    method Submit(outcome: Outcome) returns (sent: Decision)
      modifies this
      ensures sent == old(Decision())
      // A rejected submission shows its message and changes nothing else.
      ensures sent.Rejected? ==> error == sent.message && success == ""
      // A failed call shows the backend's message and changes nothing else.
      ensures sent.Send? && outcome.Failed? ==> error == outcome.message && success == ""
      ensures sent.Rejected? || outcome.Failed? || sent.request.SignIn?
          ==> WatchedFields() == old(WatchedFields())
      // A successful reset leaves reset mode.
      ensures sent.Send? && sent.request.ResetPassword? && outcome.Succeeded?
          ==> (success == ResetSent && error == "" && !isResetMode
               && WatchedFields() == old(WatchedFields()).(isResetMode := false))
      // A successful sign-up returns to sign-in with every field cleared.
      ensures sent.Send? && sent.request.SignUp? && outcome.Succeeded?
          ==> (success == AccountCreated && error == "" && !isSignUp && isResetMode == old(isResetMode)
               && email == "" && password == "" && confirmPassword == "" && profileData == EmptyProfileFields)
      ensures sent.Send? && sent.request.SignIn? && outcome.Succeeded? ==> error == "" && success == ""
      // Submitting never turns a mode on.
      ensures (isSignUp ==> old(isSignUp)) && (isResetMode ==> old(isResetMode))
    {
      error := "";
      success := "";
      sent := Decide(email, password, confirmPassword, profileData.fullName, isSignUp, isResetMode);
      match sent
      case Rejected(message) =>
        error := message;
      case Send(request) =>
        match outcome
        case Failed(message) =>
          error := message;
        case Succeeded =>
          match request
          case ResetPassword(_) =>
            success := ResetSent;
            isResetMode := false;
          case SignUp(_, _) =>
            success := AccountCreated;
            isSignUp := false;
            email := "";
            password := "";
            confirmPassword := "";
            profileData := EmptyProfileFields;
          case SignIn(_, _) =>
      }
  
    /**
     * The effect that clears both messages: it runs after a render whose
     * watched fields differ from those of the render before.
     */
    method ClearOnChange(previous: Watched)
      modifies this
      ensures previous != old(WatchedFields()) ==> error == "" && success == ""
      ensures previous == old(WatchedFields()) ==> error == old(error) && success == old(success)
      ensures WatchedFields() == old(WatchedFields())
    {
      if previous != WatchedFields() {
        error := "";
        success := "";
      }
    }

    /**
     * A submission as the page runs it: `handleSubmit`, then the render its
     * state changes cause, with the clearing effect of that render. A
     * rejected or failed submission keeps its error, but the success message
     * of a reset or a sign-up is wiped, because the submission itself changed
     * a watched field.
     */
    method SubmitAndRender(outcome: Outcome) returns (sent: Decision)
      modifies this
      ensures sent == old(Decision())
      ensures sent.Rejected? ==> error == sent.message
      ensures sent.Send? && outcome.Failed? ==> error == outcome.message
      ensures sent.Send? && !sent.request.SignIn? && outcome.Succeeded? ==> success == ""
    {
      var before := WatchedFields();
      sent := Submit(outcome);
      ClearOnChange(before);
    }
  }
}
