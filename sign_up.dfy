/** The sign-up form's submission (src/pages/SignUp.jsx): an ordered chain of
    validation checks, the profile it builds, and the `error` and `isLoading`
    state the handler updates. The auth provider's `signUp` is an oracle. */
module SignUp {
  import opened JsValues

  /** The form's bound input values. */
  datatype SignUpForm = SignUpForm(
    firstName: string, lastName: string, email: string,
    password: string, confirmPassword: string,
    role: string, rollNumber: string)

  /** The profile handed to `signUp`. */
  datatype UserProfile = UserProfile(
    first_name: string, last_name: string, role: string, roll_number: Option<string>)

  const MinPasswordLength := 6

  const RequiredFieldsMessage := "Please fill in all required fields"
  const MismatchMessage := "Passwords do not match"
  const ShortPasswordMessage := "Password must be at least 6 characters"
  const RollNumberMessage := "Roll number is required for students"
  const SignUpFailedMessage := "Failed to create account"

  predicate AnyRequiredEmpty(f: SignUpForm) {
    f.firstName == "" || f.lastName == "" || f.email == "" || f.password == "" || f.confirmPassword == ""
  }

  /** Everything the form must satisfy to be submitted, stated as one conjunction. */
  predicate Acceptable(f: SignUpForm) {
    && f.firstName != "" && f.lastName != "" && f.email != ""
    && f.password != "" && f.confirmPassword != ""
    && f.password == f.confirmPassword
    && |f.password| >= MinPasswordLength
    && (f.role == "student" ==> f.rollNumber != "")
  }

  /** The message of the first failing check, or None when all pass. */
  function ValidationError(f: SignUpForm): (err: Option<string>)
    ensures err == None <==> Acceptable(f)
    ensures err.Some? ==>
      err.value in {RequiredFieldsMessage, MismatchMessage, ShortPasswordMessage, RollNumberMessage}
  {
    if AnyRequiredEmpty(f) then Some(RequiredFieldsMessage)
    else if f.password != f.confirmPassword then Some(MismatchMessage)
    else if |f.password| < MinPasswordLength then Some(ShortPasswordMessage)
    else if f.role == "student" && f.rollNumber == "" then Some(RollNumberMessage)
    else None
  }

  /** An empty required field is reported before anything else. */
  lemma RequiredFieldsFirst(f: SignUpForm)
    requires AnyRequiredEmpty(f)
    ensures ValidationError(f) == Some(RequiredFieldsMessage)
  {
  }

  /** With every field filled, a mismatch is reported whatever the password's length. */
  lemma MismatchBeforeLength(f: SignUpForm)
    requires !AnyRequiredEmpty(f) && f.password != f.confirmPassword
    ensures ValidationError(f) == Some(MismatchMessage)
  {
  }

  /** Length 6 is enough; anything shorter is rejected once the fields are filled
      and the passwords agree. */
  lemma PasswordLengthBoundary(f: SignUpForm)
    requires !AnyRequiredEmpty(f) && f.password == f.confirmPassword
    ensures ValidationError(f) == Some(ShortPasswordMessage) <==> |f.password| < MinPasswordLength
  {
  }

  /** The roll number is demanded of students only. */
  lemma RollNumberOnlyForStudents(f: SignUpForm)
    requires !AnyRequiredEmpty(f) && f.password == f.confirmPassword && |f.password| >= MinPasswordLength
    requires f.rollNumber == ""
    ensures ValidationError(f) == (if f.role == "student" then Some(RollNumberMessage) else None)
  {
  }

  /** The `userProfile` built for an accepted form. */
  function BuildProfile(f: SignUpForm): (p: UserProfile)
    ensures p.first_name == f.firstName && p.last_name == f.lastName && p.role == f.role
    ensures p.roll_number.Some? <==> f.role == "student"
    ensures p.roll_number.Some? ==> p.roll_number.value == f.rollNumber
  {
    UserProfile(f.firstName, f.lastName, f.role, if f.role == "student" then Some(f.rollNumber) else None)
  }

  /** An accepted student's profile always carries a non-empty roll number. */
  lemma AcceptedStudentHasRollNumber(f: SignUpForm)
    requires ValidationError(f) == None && f.role == "student"
    ensures BuildProfile(f).roll_number.Some? && BuildProfile(f).roll_number.value != ""
  {
  }

  /** How the awaited `signUp(email, password, userProfile)` ends. */
  datatype SignUpOutcome = Created | Rejected(message: Option<string>)

  /** The call made to the auth provider. */
  datatype SignUpRequest = SignUpRequest(email: string, password: string, profile: UserProfile)

  /** A `navigate` call: the path and the message passed in its state. */
  datatype Navigation = Navigation(path: string, message: string)

  const LoginNavigation := Navigation("/login", "Account created successfully. Please sign in.")

  /** The page's state: the bound form and the `error` and `isLoading` fields. */
  class SignUpPage {
    var form: SignUpForm
    var error: string
    var isLoading: bool

    constructor (form: SignUpForm)
      ensures this.form == form && error == "" && !isLoading
    {
      this.form := form;
      error := "";
      isLoading := false;
    }

    /** `handleSubmit`. The error is cleared first; a failing check sets its
        message and leaves `isLoading` alone; an accepted form sets
        `isLoading` and is sent to `signUp`, whose success navigates to the
        login page (leaving `isLoading` set) and whose failure shows the
        thrown message and clears `isLoading`. */
    method HandleSubmit(outcome: SignUpOutcome) returns (request: Option<SignUpRequest>, navigated: Option<Navigation>)
      modifies this
      ensures form == old(form)
      ensures ValidationError(form).Some? ==>
        error == ValidationError(form).value && isLoading == old(isLoading)
        && request == None && navigated == None
      ensures ValidationError(form).None? ==>
        request == Some(SignUpRequest(form.email, form.password, BuildProfile(form)))
      ensures ValidationError(form).None? && outcome == Created ==>
        error == "" && isLoading && navigated == Some(LoginNavigation)
      ensures ValidationError(form).None? && outcome.Rejected? ==>
        error == (if outcome.message.Some? && outcome.message.value != "" then outcome.message.value
                  else SignUpFailedMessage)
        && !isLoading && navigated == None
    {
      error := "";
      request, navigated := None, None;
      var check := ValidationError(form);
      if check.Some? {
        error := check.value;
        return;
      }
      isLoading := true;
      var profile := BuildProfile(form);
      request := Some(SignUpRequest(form.email, form.password, profile));
      match outcome {
        case Created =>
          navigated := Some(LoginNavigation);
        case Rejected(message) =>
          error := if message.Some? && message.value != "" then message.value else SignUpFailedMessage;
          isLoading := false;
      }
    }
  }
}
