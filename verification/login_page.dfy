/** The login page: the four form schemas, the five authentication handlers,
    the signup step machine and the passwordless-login flag, and the two reset
    functions. Each authentication call's answer (an error message or none) is
    a parameter; e-mail well-formedness is a parameter predicate. */
module LoginPage {
  import opened Wrappers
  import opened Text

  // ---------------------------------------------------------------------------
  // Schemas

  const PasswordMessage: string := "Password must be at least 6 characters"
  const FullNameMessage: string := "Full name must be at least 2 characters"
  const OtpMessage: string := "OTP must be 6 digits"
  const EmailMessage: string := "Invalid email address"

  /** `loginSchema`: the messages of the failing fields, in field order. */
  function LoginErrors(email: string, password: string, isEmail: string -> bool): (errs: seq<string>)
    ensures errs == [] <==> isEmail(email) && |password| >= 6
    ensures PasswordMessage in errs <==> |password| < 6
    ensures EmailMessage in errs <==> !isEmail(email)
  {
    (if isEmail(email) then [] else [EmailMessage]) + (if |password| >= 6 then [] else [PasswordMessage])
  }

  /** `signupSchema`. */
  function SignupErrors(email: string, fullName: string, isEmail: string -> bool): (errs: seq<string>)
    ensures errs == [] <==> isEmail(email) && |fullName| >= 2
    ensures FullNameMessage in errs <==> |fullName| < 2
    ensures EmailMessage in errs <==> !isEmail(email)
  {
    (if isEmail(email) then [] else [EmailMessage]) + (if |fullName| >= 2 then [] else [FullNameMessage])
  }

  /** `otpLoginSchema`: the e-mail alone. */
  function OtpLoginErrors(email: string, isEmail: string -> bool): (errs: seq<string>)
    ensures errs == [] <==> isEmail(email)
  {
    if isEmail(email) then [] else [EmailMessage]
  }

  /** `otpVerifySchema`: exactly six characters. */
  function OtpErrors(otp: string): (errs: seq<string>)
    ensures errs == [] <==> |otp| == 6
    ensures errs != [] ==> errs == [OtpMessage]
  {
    if |otp| == 6 then [] else [OtpMessage]
  }

  /** The message promises digits, but only the length is checked. */
  lemma OtpChecksLengthOnly()
    ensures OtpErrors("abcdef") == []
    ensures OtpErrors("12345") == [OtpMessage]
  {
  }

  // ---------------------------------------------------------------------------
  // Page state and handlers

  datatype SignupStep = Input | OtpVerify

  datatype PageState = PageState(
    loading: bool,
    otpSentForLogin: bool,
    otpEmailForLogin: string,
    signupStep: SignupStep,
    signupEmailForOtp: string)

  const Initial: PageState := PageState(false, false, "", Input, "")

  /** The toasts the handlers show; failures carry their description. */
  datatype Toast =
    | LoginSuccessful
    | LoginFailed(description: string)
    | OtpSent
    | SendOtpFailed(description: string)
    | VerificationFailed(description: string)
    | AlreadyRegisteredToast
    | SignupFailed(description: string)
    | CodeSent
    | AccountCreated

  /** One handler run: the state while the call is pending, the state afterwards,
      the e-mail the call was made for, the toast, and whether it navigates to "/". */
  datatype Handled = Handled(during: PageState, after: PageState, email: string, toast: Toast, goHome: bool)

  /** `error.message || fallback`. */
  function Describe(message: string, fallback: string): (r: string)
    ensures message != "" ==> r == message
    ensures message == "" ==> r == fallback
  {
    if message != "" then message else fallback
  }

  /** `try { ... } finally { setLoading(false) }` around a call made with `loading` set. */
  function Finish(st: PageState, after: PageState, email: string, toast: Toast, goHome: bool): (h: Handled)
    ensures h.during.loading && !h.after.loading
    ensures h.during == st.(loading := true)
  {
    Handled(st.(loading := true), after.(loading := false), email, toast, goHome)
  }

  /** `handleLogin`: password sign-in. */
  function HandleLogin(st: PageState, email: string, error: Option<string>): (h: Handled)
    ensures h.goHome <==> error.None?
    ensures h.after == st.(loading := false)
    ensures error.Some? ==> h.toast == LoginFailed(Describe(error.value, "Invalid email or password"))
    ensures !h.after.loading
  {
    match error
    case None => Finish(st, st, email, LoginSuccessful, true)
    case Some(m) => Finish(st, st, email, LoginFailed(Describe(m, "Invalid email or password")), false)
  }

  /** `handleSendOtpLogin`: on success remember the e-mail and show the code form. */
  function HandleSendOtpLogin(st: PageState, email: string, error: Option<string>): (h: Handled)
    ensures h.after.otpSentForLogin <==> error.None? || st.otpSentForLogin
    ensures error.None? ==> h.after == st.(loading := false, otpSentForLogin := true, otpEmailForLogin := email)
    ensures error.Some? ==> h.after == st.(loading := false)
    ensures !h.goHome
  {
    match error
    case None => Finish(st, st.(otpSentForLogin := true, otpEmailForLogin := email), email, OtpSent, false)
    case Some(m) =>
      Finish(st, st, email, SendOtpFailed(Describe(m,
        "Failed to send verification code. Make sure your email is registered.")), false)
  }

  /** `handleVerifyOtpLogin`: verify the code against the remembered e-mail. */
  function HandleVerifyOtpLogin(st: PageState, error: Option<string>): (h: Handled)
    ensures h.email == st.otpEmailForLogin
    ensures h.goHome <==> error.None?
    ensures h.after == st.(loading := false)
  {
    match error
    case None => Finish(st, st, st.otpEmailForLogin, LoginSuccessful, true)
    case Some(m) => Finish(st, st, st.otpEmailForLogin, VerificationFailed(Describe(m, "Invalid verification code")), false)
  }

  /** The three phrases that mark an e-mail as already registered. */
  predicate AlreadyRegistered(message: string) {
    || Contains(message, "User already registered")
    || Contains(message, "already exists")
    || Contains(message, "duplicate key value violates unique constraint")
  }

  /** `handleSignup`: on success remember the e-mail and move to the code step;
      on an error keep the step, with the registered-e-mail toast or the generic one. */
  function HandleSignup(st: PageState, email: string, error: Option<string>): (h: Handled)
    ensures error.None? ==> h.after == st.(loading := false, signupStep := OtpVerify, signupEmailForOtp := email)
    ensures error.None? ==> h.toast == CodeSent
    ensures error.Some? ==> h.after == st.(loading := false)
    ensures error.Some? && AlreadyRegistered(error.value) ==> h.toast == AlreadyRegisteredToast
    ensures error.Some? && !AlreadyRegistered(error.value) ==>
      h.toast == SignupFailed(Describe(error.value, "Failed to create account"))
    ensures !h.goHome
  {
    match error
    case None => Finish(st, st.(signupStep := OtpVerify, signupEmailForOtp := email), email, CodeSent, false)
    case Some(m) =>
      if AlreadyRegistered(m) then Finish(st, st, email, AlreadyRegisteredToast, false)
      else Finish(st, st, email, SignupFailed(Describe(m, "Failed to create account")), false)
  }

  /** `handleVerifySignupOtp`: verify the code against the remembered signup e-mail. */
  function HandleVerifySignupOtp(st: PageState, error: Option<string>): (h: Handled)
    ensures h.email == st.signupEmailForOtp
    ensures h.goHome <==> error.None?
    ensures error.None? ==> h.toast == AccountCreated
    ensures h.after == st.(loading := false)
  {
    match error
    case None => Finish(st, st, st.signupEmailForOtp, AccountCreated, true)
    case Some(m) => Finish(st, st, st.signupEmailForOtp, VerificationFailed(Describe(m, "Invalid verification code")), false)
  }

  /** `resetOtpLoginState`. */
  function ResetOtpLogin(st: PageState): (r: PageState)
    ensures !r.otpSentForLogin && r.otpEmailForLogin == ""
    ensures r.signupStep == st.signupStep && r.signupEmailForOtp == st.signupEmailForOtp && r.loading == st.loading
  {
    st.(otpSentForLogin := false, otpEmailForLogin := "")
  }

  /** `resetSignupState`. */
  function ResetSignup(st: PageState): (r: PageState)
    ensures r.signupStep == Input && r.signupEmailForOtp == ""
    ensures r.otpSentForLogin == st.otpSentForLogin && r.otpEmailForLogin == st.otpEmailForLogin && r.loading == st.loading
  {
    st.(signupStep := Input, signupEmailForOtp := "")
  }

  // ---------------------------------------------------------------------------
  // The page as a state machine

  /** A user action together with the authentication service's answer. */
  datatype Event =
    | Login(email: string, error: Option<string>)
    | SendOtpLogin(email: string, error: Option<string>)
    | VerifyOtpLogin(error: Option<string>)
    | Signup(email: string, error: Option<string>)
    | VerifySignupOtp(error: Option<string>)
    | ResetOtpLoginClicked
    | ResetSignupClicked

  function Step(st: PageState, e: Event): PageState {
    match e
    case Login(email, err) => HandleLogin(st, email, err).after
    case SendOtpLogin(email, err) => HandleSendOtpLogin(st, email, err).after
    case VerifyOtpLogin(err) => HandleVerifyOtpLogin(st, err).after
    case Signup(email, err) => HandleSignup(st, email, err).after
    case VerifySignupOtp(err) => HandleVerifySignupOtp(st, err).after
    case ResetOtpLoginClicked => ResetOtpLogin(st)
    case ResetSignupClicked => ResetSignup(st)
  }

  function Run(st: PageState, events: seq<Event>): PageState
    decreases |events|
  {
    if |events| == 0 then st else Run(Step(st, events[0]), events[1..])
  }

  /** Between handler runs nothing is loading, and a remembered e-mail exists
      only while its code form is shown. */
  predicate Settled(st: PageState) {
    && !st.loading
    && (st.otpSentForLogin || st.otpEmailForLogin == "")
    && (st.signupStep == OtpVerify || st.signupEmailForOtp == "")
  }

  /** Only a signup with no error moves the signup flow to the code step. */
  lemma OnlySuccessfulSignupAdvances(st: PageState, e: Event)
    requires st.signupStep == Input
    ensures Step(st, e).signupStep == OtpVerify <==> e.Signup? && e.error.None?
  {
  }

  lemma {:induction false} RunStaysSettled(st: PageState, events: seq<Event>)
    requires Settled(st)
    ensures Settled(Run(st, events))
    decreases |events|
  {
    if |events| > 0 {
      var next := Step(st, events[0]);
      match events[0] {
        case Login(_, _) =>
        case SendOtpLogin(_, _) =>
        case VerifyOtpLogin(_) =>
        case Signup(_, _) =>
        case VerifySignupOtp(_) =>
        case ResetOtpLoginClicked =>
        case ResetSignupClicked =>
      }
      assert Settled(next);
      RunStaysSettled(next, events[1..]);
    }
  }

  /** Every state the page reaches from its initial state is settled. */
  lemma ReachableStatesSettled(events: seq<Event>)
    ensures Settled(Run(Initial, events))
  {
    RunStaysSettled(Initial, events);
  }

  /** Signing up, then resetting, returns the signup flow to where it started. */
  lemma SignupThenResetRestores(email: string)
    ensures Run(Initial, [Signup(email, None), ResetSignupClicked]) == Initial
  {
    var events := [Signup(email, None), ResetSignupClicked];
    var s1 := Step(Initial, events[0]);
    assert s1.signupStep == OtpVerify && !s1.loading;
    assert events[1..] == [ResetSignupClicked];
    assert Run(s1, [ResetSignupClicked]) == Run(ResetSignup(s1), []);
  }
}
