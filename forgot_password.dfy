/** The password recovery form, with a "request a reset link" mode and a "set a
    new password" mode, plus an error and a success message. */
module ForgotPassword {
  import opened Wrappers

  datatype ResetMode = Request | Reset

  /** Which of the two forms is drawn. */
  datatype RecoveryFormKind = RequestForm | ResetForm

  const ResetLinkSent: string := "Password reset link sent to your email. Check your inbox."
  const PasswordUpdated: string := "Password successfully updated"
  const PasswordsDoNotMatch: string := "Passwords do not match"

  function FormFor(mode: ResetMode): RecoveryFormKind
  {
    if mode == Request then RequestForm else ResetForm
  }

  /** Each mode draws its own form. */
  lemma FormPerMode(mode: ResetMode)
    ensures FormFor(mode) == RequestForm <==> mode == Request
    ensures FormFor(mode) == ResetForm <==> mode == Reset
  {
  }

  /** Exactly one of two optional messages is present. */
  predicate ExactlyOne(error: Option<string>, success: Option<string>)
  {
    error.Some? != success.Some?
  }

  class RecoveryForm {
    var email: string
    var password: string
    var confirmPassword: string
    var mode: ResetMode
    var error: Option<string>
    var success: Option<string>

    /** The mode starts in `Request` and every assignment to it writes `Request`:
        each method either keeps the mode or sets `Request`, so the mode never
        leaves `Request` and the reset form is never drawn. */
    ghost predicate Valid()
      reads this
    {
      mode == Request
    }

    constructor ()
      ensures Valid()
      ensures email == "" && password == "" && confirmPassword == ""
      ensures error.None? && success.None?
    {
      email, password, confirmPassword := "", "", "";
      mode := Request;
      error, success := None, None;
    }

    function Form(): RecoveryFormKind
      reads this
    {
      FormFor(mode)
    }

    /** Whether the "Back to Reset Request" button is drawn. */
    predicate BackButtonShown()
      reads this
    {
      mode == Reset
    }

    method SetEmail(value: string)
      modifies this
      ensures mode == old(mode)
      ensures email == value
      ensures password == old(password) && confirmPassword == old(confirmPassword)
      ensures error == old(error) && success == old(success)
    {
      email := value;
    }

    method SetPassword(value: string)
      modifies this
      ensures mode == old(mode)
      ensures password == value
      ensures email == old(email) && confirmPassword == old(confirmPassword)
      ensures error == old(error) && success == old(success)
    {
      password := value;
    }

    method SetConfirmPassword(value: string)
      modifies this
      ensures mode == old(mode)
      ensures confirmPassword == value
      ensures email == old(email) && password == old(password)
      ensures error == old(error) && success == old(success)
    {
      confirmPassword := value;
    }

    /** `handlePasswordResetRequest`: asks the auth service to mail a reset link to
        `email` (returned as `recipient`), with the service's answer as `outcome`. */
    method HandlePasswordResetRequest(outcome: Outcome<string>) returns (recipient: string)
      modifies this
      ensures mode == old(mode)
      ensures recipient == email
      ensures outcome.Pass? ==> error == None && success == Some(ResetLinkSent)
      ensures outcome.Fail? ==> error == Some(outcome.error) && success == None
      ensures ExactlyOne(error, success)
      ensures email == old(email) && password == old(password) && confirmPassword == old(confirmPassword)
    {
      error := None;
      success := None;
      recipient := email;
      if outcome.Fail? {
        error := Some(outcome.error);
        return;
      }
      success := Some(ResetLinkSent);
    }

    /** `handlePasswordReset`: a mismatch between the two password fields is
        reported without calling the service; otherwise the new password is sent
        (returned as `update`) and the service's answer is `outcome`. */
    method HandlePasswordReset(outcome: Outcome<string>) returns (update: Option<string>)
      modifies this
      ensures update == if password == confirmPassword then Some(password) else None
      ensures password != confirmPassword ==> error == Some(PasswordsDoNotMatch) && success == None
      ensures password == confirmPassword && outcome.Pass? ==>
                error == None && success == Some(PasswordUpdated) && Valid()
      ensures password == confirmPassword && outcome.Fail? ==>
                error == Some(outcome.error) && success == None
      ensures !(password == confirmPassword && outcome.Pass?) ==> mode == old(mode)
      ensures old(Valid()) ==> Valid()
      ensures ExactlyOne(error, success)
      ensures email == old(email) && password == old(password) && confirmPassword == old(confirmPassword)
    {
      error := None;
      success := None;
      if password != confirmPassword {
        error := Some(PasswordsDoNotMatch);
        update := None;
        return;
      }
      update := Some(password);
      if outcome.Fail? {
        error := Some(outcome.error);
        return;
      }
      success := Some(PasswordUpdated);
      mode := Request;
    }

    /** The "Back to Reset Request" button. */
    method BackToRequest()
      modifies this
      ensures Valid()
      ensures email == old(email) && password == old(password) && confirmPassword == old(confirmPassword)
      ensures error == old(error) && success == old(success)
    {
      mode := Request;
    }
  }

  /** Whatever the form's history, it shows the request form and no back button. */
  lemma OnlyRequestFormShown(f: RecoveryForm)
    requires f.Valid()
    ensures f.Form() == RequestForm && !f.BackButtonShown()
  {
  }
}
