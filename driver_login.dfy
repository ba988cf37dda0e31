/**
 * The driver login form (src/Pages/DriverLogin/DriverLogin.jsx): a login and
 * a register mode, a check against one fixed pair of demo credentials, a
 * success flag, an error message and a password-visibility toggle.
 */
module DriverLogin {

  datatype AuthMode = Login | Register

  /** The form's state (the register-only username and confirmation fields are never read). */
  datatype LoginForm = LoginForm(
    authMode: AuthMode,
    email: string,
    password: string,
    showPassword: bool,
    isSuccess: bool,
    errorMsg: string)

  const InitialLoginForm: LoginForm := LoginForm(Login, "", "", false, false, "")

  const DemoEmail: string := "sample@mail.com"
  const DemoPassword: string := "12345"
  const InvalidCredentials: string := "Invalid credentials!"

  // ---------------------------------------------------------------------------
  // The handlers

  /** `handleSubmit`. In register mode it only raises an alert. */
  function Submitted(f: LoginForm): (r: LoginForm)
    ensures f.authMode == Register ==> r == f
    ensures f.authMode == Login ==> (r.isSuccess <==> f.email == DemoEmail && f.password == DemoPassword)
    ensures f.authMode == Login && r.isSuccess ==> r.errorMsg == ""
    ensures f.authMode == Login && !r.isSuccess ==> r.errorMsg == InvalidCredentials
    ensures r.(isSuccess := f.isSuccess, errorMsg := f.errorMsg) == f
  {
    if f.authMode == Register then f
    else if f.email == DemoEmail && f.password == DemoPassword then f.(isSuccess := true, errorMsg := "")
    else f.(isSuccess := false, errorMsg := InvalidCredentials)
  }

  /** `togglePasswordVisibility`. */
  function PasswordToggled(f: LoginForm): (r: LoginForm)
    ensures r.showPassword != f.showPassword
    ensures r.(showPassword := f.showPassword) == f
  {
    f.(showPassword := !f.showPassword)
  }

  lemma ToggleTwiceRestores(f: LoginForm)
    ensures PasswordToggled(PasswordToggled(f)) == f
  {
  }

  /** The "Register Now" link: register mode, and the error is cleared. */
  function SwitchedToRegister(f: LoginForm): (r: LoginForm)
    ensures r.authMode == Register && r.errorMsg == ""
    ensures r.(authMode := f.authMode, errorMsg := f.errorMsg) == f
  {
    f.(authMode := Register, errorMsg := "")
  }

  /** The "Login Now" link: login mode; the error message is kept. */
  function SwitchedToLogin(f: LoginForm): (r: LoginForm)
    ensures r.authMode == Login && r.errorMsg == f.errorMsg
    ensures r.(authMode := f.authMode) == f
  {
    f.(authMode := Login)
  }

  /** The email input's `onChange`. */
  function EmailTyped(f: LoginForm, value: string): (r: LoginForm)
    ensures r.email == value && r.(email := f.email) == f
  {
    f.(email := value)
  }

  /** The password input's `onChange`. */
  function PasswordTyped(f: LoginForm, value: string): (r: LoginForm)
    ensures r.password == value && r.(password := f.password) == f
  {
    f.(password := value)
  }

  // ---------------------------------------------------------------------------
  // What is rendered

  /**
   * The "Success!" text, which replaces the whole login form; on a consistent
   * form it shows exactly after a successful login with the demo pair.
   */
  function ShowsSuccess(f: LoginForm): (b: bool)
    ensures b ==> f.authMode == Login
    ensures Consistent(f) ==> (b <==> f.isSuccess)
    ensures Consistent(f) && b ==> f.email == DemoEmail && f.password == DemoPassword
  {
    f.authMode == Login && f.isSuccess
  }

  /** The error banner. */
  function ShowsError(f: LoginForm): (b: bool)
    ensures b ==> f.authMode == Login && !f.isSuccess && f.errorMsg != ""
    ensures b ==> !ShowsSuccess(f)
    ensures f.authMode == Login && !f.isSuccess ==> (b <==> f.errorMsg != "")
  {
    !ShowsSuccess(f) && f.authMode == Login && f.errorMsg != ""
  }

  /**
   * The `disabled` attribute of the email and password inputs and of the
   * visibility toggle. In login mode it is set only when those controls are
   * not rendered, the success text having replaced them.
   */
  function LoginInputsDisabled(f: LoginForm): (b: bool)
    ensures f.authMode == Login ==> (b <==> ShowsSuccess(f))
  {
    f.isSuccess
  }

  /** The `type` of the login password input. */
  function PasswordInputType(f: LoginForm): (t: string)
    ensures t == "text" <==> f.showPassword
    ensures t == "password" <==> !f.showPassword
  {
    if f.showPassword then "text" else "password"
  }

  // ---------------------------------------------------------------------------
  // Event sequences

  /** What the user can do with the form. */
  datatype LoginEvent =
    | SubmitPressed
    | ToggleVisibilityPressed
    | RegisterLinkPressed
    | LoginLinkPressed
    | EmailChanged(email: string)
    | PasswordChanged(password: string)

  /**
   * An event reaches its handler only if its control is rendered and enabled:
   * nothing is rendered but the success text after a successful login; the
   * visibility toggle and the "Register Now" link exist only in login mode,
   * the "Login Now" link only in register mode. The browser submits the form
   * only when its `required` email and password inputs are non-empty.
   */
  function Available(f: LoginForm, e: LoginEvent): (b: bool)
    ensures b ==> !ShowsSuccess(f)
    ensures e.SubmitPressed? ==> (b <==> !ShowsSuccess(f) && f.email != "" && f.password != "")
    ensures e.ToggleVisibilityPressed? || e.RegisterLinkPressed? ==> (b ==> f.authMode == Login)
    ensures e.LoginLinkPressed? ==> (b <==> f.authMode == Register)
  {
    !ShowsSuccess(f) &&
    match e
    case SubmitPressed => f.email != "" && f.password != ""
    case ToggleVisibilityPressed => f.authMode == Login && !LoginInputsDisabled(f)
    case RegisterLinkPressed => f.authMode == Login
    case LoginLinkPressed => f.authMode == Register
    case _ => true
  }

  function Handle(f: LoginForm, e: LoginEvent): LoginForm
  {
    match e
    case SubmitPressed => Submitted(f)
    case ToggleVisibilityPressed => PasswordToggled(f)
    case RegisterLinkPressed => SwitchedToRegister(f)
    case LoginLinkPressed => SwitchedToLogin(f)
    case EmailChanged(v) => EmailTyped(f, v)
    case PasswordChanged(v) => PasswordTyped(f, v)
  }

  function Step(f: LoginForm, e: LoginEvent): LoginForm
  {
    if Available(f, e) then Handle(f, e) else f
  }

  function Run(f: LoginForm, events: seq<LoginEvent>): LoginForm
    decreases |events|
  {
    if events == [] then f else Run(Step(f, events[0]), events[1..])
  }

  /**
   * What holds of every form the user can reach: success only in login mode,
   * with the demo credentials entered and no error; and the error is either
   * empty or the invalid-credentials message.
   */
  predicate Consistent(f: LoginForm)
  {
    (f.isSuccess ==>
      f.authMode == Login && f.email == DemoEmail && f.password == DemoPassword && f.errorMsg == "") &&
    (f.errorMsg == "" || f.errorMsg == InvalidCredentials)
  }

  lemma StepKeepsConsistent(f: LoginForm, e: LoginEvent)
    requires Consistent(f)
    ensures Consistent(Step(f, e))
  {
  }

  lemma {:induction false} RunKeepsConsistent(f: LoginForm, events: seq<LoginEvent>)
    requires Consistent(f)
    ensures Consistent(Run(f, events))
    decreases |events|
  {
    if events != [] {
      StepKeepsConsistent(f, events[0]);
      RunKeepsConsistent(Step(f, events[0]), events[1..]);
    }
  }

  /** After a successful login the form no longer changes (until the redirect). */
  lemma {:induction false} SuccessIsFinal(f: LoginForm, events: seq<LoginEvent>)
    requires ShowsSuccess(f)
    ensures Run(f, events) == f
    decreases |events|
  {
    if events != [] {
      SuccessIsFinal(f, events[1..]);
    }
  }

  /** On every reachable form the error banner, when shown, says "Invalid credentials!". */
  lemma ReachableErrorIsInvalidCredentials(events: seq<LoginEvent>)
    ensures ShowsError(Run(InitialLoginForm, events)) ==>
      Run(InitialLoginForm, events).errorMsg == InvalidCredentials
    ensures Run(InitialLoginForm, events).isSuccess ==>
      Run(InitialLoginForm, events).email == DemoEmail && Run(InitialLoginForm, events).password == DemoPassword
  {
    RunKeepsConsistent(InitialLoginForm, events);
  }

  /**
   * The inputs' `disabled={isSuccess}` never takes effect: on every reachable
   * form they are disabled only while the success text hides them.
   */
  lemma DisabledInputsAreHidden(events: seq<LoginEvent>)
    ensures LoginInputsDisabled(Run(InitialLoginForm, events)) ==> ShowsSuccess(Run(InitialLoginForm, events))
  {
    RunKeepsConsistent(InitialLoginForm, events);
  }

  /** A submit with an empty email or password is stopped by the browser and changes nothing. */
  lemma {:induction false} EmptyFieldsBlockSubmit(f: LoginForm, n: nat)
    requires f.email == "" || f.password == ""
    ensures Run(f, seq(n, _ => SubmitPressed)) == f
    decreases n
  {
    if n > 0 {
      var events := seq(n, _ => SubmitPressed);
      assert events[0] == SubmitPressed && events[1..] == seq(n - 1, _ => SubmitPressed);
      EmptyFieldsBlockSubmit(f, n - 1);
    }
  }

  // ---------------------------------------------------------------------------
  // The component

  /** The `DriverLogin` component's state, updated in place by its handlers. */
  class LoginView {
    var authMode: AuthMode
    var email: string
    var password: string
    var showPassword: bool
    var isSuccess: bool
    var errorMsg: string

    function Snapshot(): LoginForm
      reads this
    {
      LoginForm(authMode, email, password, showPassword, isSuccess, errorMsg)
    }

    constructor ()
      ensures Snapshot() == InitialLoginForm
      ensures Consistent(Snapshot())
    {
      authMode, email, password := Login, "", "";
      showPassword, isSuccess, errorMsg := false, false, "";
    }

    method SetEmail(value: string)
      modifies this
      ensures Snapshot() == EmailTyped(old(Snapshot()), value)
    {
      email := value;
    }

    method SetPassword(value: string)
      modifies this
      ensures Snapshot() == PasswordTyped(old(Snapshot()), value)
    {
      password := value;
    }

    method TogglePasswordVisibility()
      modifies this
      ensures Snapshot() == PasswordToggled(old(Snapshot()))
    {
      showPassword := !showPassword;
    }

    method Submit()
      modifies this
      ensures Snapshot() == Submitted(old(Snapshot()))
    {
      if authMode == Login {
        if email == DemoEmail && password == DemoPassword {
          isSuccess := true;
          errorMsg := "";
        } else {
          isSuccess := false;
          errorMsg := InvalidCredentials;
        }
      }
    }

    method SwitchToRegister()
      modifies this
      ensures Snapshot() == SwitchedToRegister(old(Snapshot()))
    {
      authMode := Register;
      errorMsg := "";
    }

    method SwitchToLogin()
      modifies this
      ensures Snapshot() == SwitchedToLogin(old(Snapshot()))
    {
      authMode := Login;
    }
  }
}
