/** The sign-up form of Client/src/components/home/signup.jsx: the form
    object and its change handler, the ordered validation, and the submit
    handler's control of the `loading`, `error` and `success` state. The
    call to register is external; its outcome is an input. */
module Signup {

  /** A form entry: the text of an input or the state of a checkbox. */
  datatype FieldValue = Text(text: string) | Flag(flag: bool)

  /** The `formData` object: field name to value. */
  type Form = map<string, FieldValue>

  const TEXT_FIELDS: set<string> :=
    {"firstName", "lastName", "email", "phone", "dateOfBirth", "password", "confirmPassword"}
  const CHECKBOX_FIELDS: set<string> := {"agreeToTerms", "subscribeNewsletter", "twoFAEnabled"}

  const MISMATCH: string := "Passwords do not match"
  const TOO_SHORT: string := "Password must be at least 8 characters long"
  const TERMS_REQUIRED: string := "You must agree to the Terms & Conditions"
  const REGISTRATION_FAILED: string := "Registration failed. Please try again."
  const MIN_PASSWORD_LENGTH: nat := 8

  /** The initial `formData`: empty texts and unchecked boxes. */
  function InitialForm(): Form
  {
    map["firstName" := Text(""), "lastName" := Text(""), "email" := Text(""), "phone" := Text(""),
        "dateOfBirth" := Text(""), "password" := Text(""), "confirmPassword" := Text(""),
        "agreeToTerms" := Flag(false), "subscribeNewsletter" := Flag(false), "twoFAEnabled" := Flag(false)]
  }

  /** The shape the rendered inputs keep: each text field holds text and each
      checkbox field a boolean. */
  ghost predicate WellTyped(f: Form)
  {
    && (forall k :: k in TEXT_FIELDS ==> k in f && f[k].Text?)
    && (forall k :: k in CHECKBOX_FIELDS ==> k in f && f[k].Flag?)
  }

  /** What handleChange reads from `e.target`. */
  datatype ChangeEvent = ChangeEvent(name: string, inputType: string, value: string, checked: bool)

  /** handleChange: the named field becomes the checkbox state for a checkbox
      and the input text otherwise; every other field is kept. */
  function HandleChange(f: Form, e: ChangeEvent): (r: Form)
    ensures r.Keys == f.Keys + {e.name}
    ensures e.inputType == "checkbox" ==> r[e.name] == Flag(e.checked)
    ensures e.inputType != "checkbox" ==> r[e.name] == Text(e.value)
    ensures forall k :: k in f && k != e.name ==> r[k] == f[k]
  {
    f[e.name := if e.inputType == "checkbox" then Flag(e.checked) else Text(e.value)]
  }

  /** An event one of the rendered inputs can send: a checkbox for the three
      flags, a text-like input (text, email, tel, date, password) otherwise. */
  predicate FromRenderedInput(e: ChangeEvent)
  {
    || (e.name in CHECKBOX_FIELDS && e.inputType == "checkbox")
    || (e.name in TEXT_FIELDS && e.inputType != "checkbox")
  }

  lemma InitialFormWellTyped()
    ensures WellTyped(InitialForm())
  {
  }

  /** Changes coming from the rendered inputs keep the form well typed. */
  lemma ChangeKeepsShape(f: Form, e: ChangeEvent)
    requires WellTyped(f) && FromRenderedInput(e)
    ensures WellTyped(HandleChange(f, e))
  {
  }

  function Password(f: Form): string
    requires WellTyped(f)
  {
    f["password"].text
  }

  function ConfirmPassword(f: Form): string
    requires WellTyped(f)
  {
    f["confirmPassword"].text
  }

  function AgreedToTerms(f: Form): bool
    requires WellTyped(f)
  {
    f["agreeToTerms"].flag
  }

  datatype Validation = Valid | Invalid(message: string)

  /** validateForm: three early-return checks; the first that fails sets its
      message. */
  function ValidateForm(f: Form): (v: Validation)
    requires WellTyped(f)
    ensures v.Valid? <==>
      Password(f) == ConfirmPassword(f) && |Password(f)| >= MIN_PASSWORD_LENGTH && AgreedToTerms(f)
    ensures Password(f) != ConfirmPassword(f) ==> v == Invalid(MISMATCH)
    ensures Password(f) == ConfirmPassword(f) && |Password(f)| < MIN_PASSWORD_LENGTH ==> v == Invalid(TOO_SHORT)
    ensures Password(f) == ConfirmPassword(f) && |Password(f)| >= MIN_PASSWORD_LENGTH && !AgreedToTerms(f) ==>
              v == Invalid(TERMS_REQUIRED)
  {
    if Password(f) != ConfirmPassword(f) then Invalid(MISMATCH)
    else if |Password(f)| < MIN_PASSWORD_LENGTH then Invalid(TOO_SHORT)
    else if !AgreedToTerms(f) then Invalid(TERMS_REQUIRED)
    else Valid
  }

  /** Eight characters are enough, seven are not. */
  lemma LengthBoundary(f: Form)
    requires WellTyped(f) && Password(f) == ConfirmPassword(f) && AgreedToTerms(f)
    ensures |Password(f)| == 8 ==> ValidateForm(f) == Valid
    ensures |Password(f)| == 7 ==> ValidateForm(f) == Invalid(TOO_SHORT)
  {
  }

  /** A mismatch is reported even when the password is also too short and the
      terms are not accepted. */
  lemma MismatchReportedFirst(p: string, c: string)
    requires p != c && |p| < MIN_PASSWORD_LENGTH
    ensures var f := InitialForm()["password" := Text(p)]["confirmPassword" := Text(c)];
      WellTyped(f) && ValidateForm(f) == Invalid(MISMATCH)
  {
  }

  /** What the register call came back with. */
  datatype RegisterOutcome = Registered | RegisterRejected(message: string) | RegisterThrew

  /** The component state handleSubmit works on. */
  datatype PageState = PageState(form: Form, loading: bool, error: string, success: bool)

  datatype SubmitResult = SubmitResult(state: PageState, registerCalled: bool)

  /** handleSubmit: clear the error, set loading, validate; register only a
      valid form; loading is false again on every path. */
  function HandleSubmit(s: PageState, outcome: RegisterOutcome): (r: SubmitResult)
    requires WellTyped(s.form)
    ensures !r.state.loading
    ensures r.state.form == s.form
    ensures r.registerCalled <==> ValidateForm(s.form).Valid?
    ensures ValidateForm(s.form).Invalid? ==>
      r.state == s.(loading := false, error := ValidateForm(s.form).message)
    ensures r.registerCalled ==>
      && (r.state.success <==> outcome.Registered? || s.success)
      && r.state.error == (match outcome
                           case Registered => ""
                           case RegisterRejected(m) => m
                           case RegisterThrew => REGISTRATION_FAILED)
  {
    var started := s.(error := "", loading := true);
    match ValidateForm(s.form)
    case Invalid(message) => SubmitResult(started.(error := message, loading := false), false)
    case Valid =>
      var after := match outcome
        case Registered => started.(success := true)
        case RegisterRejected(m) => started.(error := m)
        case RegisterThrew => started.(error := REGISTRATION_FAILED);
      SubmitResult(after.(loading := false), true)
  }
}
