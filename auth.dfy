/** The login/sign-up form: two modes, an error message, and a switch to the
    password recovery form. */
module Auth {
  import opened Wrappers

  datatype AuthMode = Login | Signup

  /** The auth service call a submission makes. */
  datatype AuthCall = SignInWithPassword(email: string, password: string) | SignUp(email: string, password: string)

  /** What the component draws: the recovery form, or the credential form in a
      mode, with its error and with or without the "Forgot Password?" link. */
  datatype AuthScreen =
    | RecoveryForm
    | CredentialForm(mode: AuthMode, error: Option<string>, offersForgotPassword: bool)

  /** The mode toggle's target. */
  function OtherMode(mode: AuthMode): AuthMode
  {
    if mode == Login then Signup else Login
  }

  /** The call made for a submission in `mode`. */
  function CallFor(mode: AuthMode, email: string, password: string): AuthCall
  {
    if mode == Login then SignInWithPassword(email, password) else SignUp(email, password)
  }

  function ScreenFor(forgotPassword: bool, mode: AuthMode, error: Option<string>): AuthScreen
  {
    if forgotPassword then RecoveryForm else CredentialForm(mode, error, mode == Login)
  }

  /** The toggle swaps the two modes, so toggling twice is the identity. */
  lemma OtherModeSwaps(mode: AuthMode)
    ensures OtherMode(mode) != mode
    ensures OtherMode(OtherMode(mode)) == mode
  {
  }

  /** Login mode signs in and sign-up mode signs up, with the form's credentials. */
  lemma CallPerMode(mode: AuthMode, email: string, password: string)
    ensures CallFor(mode, email, password).SignInWithPassword? <==> mode == Login
    ensures CallFor(mode, email, password).email == email
    ensures CallFor(mode, email, password).password == password
  {
  }

  /** Once the recovery switch is on the recovery form is drawn; before that, the
      "Forgot Password?" link is offered exactly in login mode. */
  lemma ScreenChoice(forgotPassword: bool, mode: AuthMode, error: Option<string>)
    ensures forgotPassword ==> ScreenFor(forgotPassword, mode, error) == RecoveryForm
    ensures !forgotPassword ==> ScreenFor(forgotPassword, mode, error).CredentialForm?
    ensures !forgotPassword ==> (ScreenFor(forgotPassword, mode, error).offersForgotPassword <==> mode == Login)
  {
  }

  /** The form component. */
  class AuthForm {
    var email: string
    var password: string
    var mode: AuthMode
    var error: Option<string>
    var forgotPassword: bool

    constructor ()
      ensures email == "" && password == "" && mode == Login && error.None? && !forgotPassword
    {
      email, password := "", "";
      mode := Login;
      error := None;
      forgotPassword := false;
    }

    function Screen(): AuthScreen
      reads this
    {
      ScreenFor(forgotPassword, mode, error)
    }

    method SetEmail(value: string)
      modifies this
      ensures email == value
      ensures password == old(password) && mode == old(mode) && error == old(error)
      ensures forgotPassword == old(forgotPassword)
    {
      email := value;
    }

    method SetPassword(value: string)
      modifies this
      ensures password == value
      ensures email == old(email) && mode == old(mode) && error == old(error)
      ensures forgotPassword == old(forgotPassword)
    {
      password := value;
    }

    /** `handleAuth`: clears the error, makes the call for the current mode
        (returned as `call`) and, when the service answers with a failure, shows
        its message. A success changes nothing here. */
    method HandleAuth(outcome: Outcome<string>) returns (call: AuthCall)
      modifies this
      ensures call == CallFor(mode, email, password)
      ensures outcome.Pass? ==> error.None?
      ensures outcome.Fail? ==> error == Some(outcome.error)
      ensures mode == old(mode) && email == old(email) && password == old(password)
      ensures forgotPassword == old(forgotPassword)
    {
      error := None;
      if mode == Login {
        call := SignInWithPassword(email, password);
      } else {
        call := SignUp(email, password);
      }
      if outcome.Fail? {
        error := Some(outcome.error);
      }
    }

    /** The button below the form that switches between signing in and signing up. */
    method ToggleMode()
      modifies this
      ensures mode == OtherMode(old(mode))
      ensures email == old(email) && password == old(password) && error == old(error)
      ensures forgotPassword == old(forgotPassword)
    {
      mode := if mode == Login then Signup else Login;
    }

    /** The "Forgot Password?" link, drawn only in login mode. */
    method OpenForgotPassword()
      requires mode == Login
      modifies this
      ensures forgotPassword && Screen() == RecoveryForm
      ensures email == old(email) && password == old(password) && mode == old(mode) && error == old(error)
    {
      forgotPassword := true;
    }
  }
}
