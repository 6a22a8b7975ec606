/**
 * The sign-up form: a two-step machine (sign up, then verify the e-mailed
 * code) with a chain of guarded early returns in each step.
 */
module SignupForm {
  import opened Wrappers
  import opened AuthReplies

  datatype Step = SignupStep | VerifyStep

  const FillAllFields: string := "Please fill in all fields"
  const PasswordsDiffer: string := "Passwords do not match"
  const PasswordTooShort: string := "Password must be at least 6 characters long"
  const UsernameTooShort: string := "Username must be at least 3 characters long"
  const EnterCode: string := "Please enter the verification code"
  const VerificationFailed: string := "Verification failed"

  /** The sign-up checks in order: the message of the first that fails, or none. */
  function SignupValidation(username: string, email: string, password: string, confirmPassword: string)
    : (r: Option<string>)
    ensures r.None? <==>
      username != "" && email != "" && password != "" && confirmPassword != "" &&
      password == confirmPassword && |password| >= 6 && |username| >= 3
    ensures r == Some(FillAllFields) <==>
      username == "" || email == "" || password == "" || confirmPassword == ""
    ensures r == Some(PasswordsDiffer) <==>
      username != "" && email != "" && password != "" && confirmPassword != "" && password != confirmPassword
    ensures r == Some(PasswordTooShort) <==>
      username != "" && email != "" && password != "" && confirmPassword != "" &&
      password == confirmPassword && |password| < 6
    ensures r == Some(UsernameTooShort) <==>
      username != "" && email != "" && password != "" && confirmPassword != "" &&
      password == confirmPassword && |password| >= 6 && |username| < 3
  {
    if username == "" || email == "" || password == "" || confirmPassword == "" then Some(FillAllFields)
    else if password != confirmPassword then Some(PasswordsDiffer)
    else if |password| < 6 then Some(PasswordTooShort)
    else if |username| < 3 then Some(UsernameTooShort)
    else None
  }

  /** The verify step's guard. */
  function VerifyValidation(email: string, code: string): (r: Option<string>)
    ensures r.None? <==> email != "" && code != ""
    ensures r.Some? ==> r.value == EnterCode
  {
    if email == "" || code == "" then Some(EnterCode) else None
  }

  class Signup {
    var step: Step
    var username: string
    var email: string
    var password: string
    var confirmPassword: string
    var code: string
    var error: string
    var location: Option<string>
    var toasts: seq<Toast>

    constructor ()
      ensures step == SignupStep && error == "" && location == None && toasts == []
      ensures username == "" && email == "" && password == "" && confirmPassword == "" && code == ""
    {
      step := SignupStep;
      username, email, password, confirmPassword, code, error := "", "", "", "", "", "";
      location := None;
      toasts := [];
    }

    /**
     * `handleSubmit`.  The error is cleared first.  `signupReply` and
     * `verifyReply` are what `signup` and `verify` answer; `signupFailed` and
     * `registered` are the translated texts.
     */
    method Submit(signupReply: AuthReply, verifyReply: AuthReply, signupFailed: string, registered: string)
      returns (call: Option<AuthCall>)
      modifies this
      ensures username == old(username) && email == old(email) && password == old(password)
      ensures confirmPassword == old(confirmPassword) && code == old(code)
      // no path leads back from verifying to signing up
      ensures old(step) == VerifyStep ==> step == VerifyStep
      // the sign-up step
      ensures old(step) == SignupStep && SignupValidation(username, email, password, confirmPassword).Some? ==>
        && call == None && step == SignupStep
        && error == SignupValidation(username, email, password, confirmPassword).value
        && location == old(location) && toasts == old(toasts)
      ensures old(step) == SignupStep && SignupValidation(username, email, password, confirmPassword).None? ==>
        && call == Some(SignupCall(username, email, password))
        && (signupReply.success ==> step == VerifyStep && error == "")
        && (!signupReply.success ==> step == SignupStep && error == ErrorOr(signupReply.error, signupFailed))
        && location == old(location) && toasts == old(toasts)
      // the verify step
      ensures old(step) == VerifyStep && VerifyValidation(email, code).Some? ==>
        call == None && error == EnterCode && location == old(location) && toasts == old(toasts)
      ensures old(step) == VerifyStep && VerifyValidation(email, code).None? ==>
        && call == Some(VerifyCall(email, code))
        && (verifyReply.success ==>
              error == "" && location == Some("/") && toasts == old(toasts) + [SuccessToast(registered)])
        && (!verifyReply.success ==>
              && error == ErrorOr(verifyReply.error, VerificationFailed)
              && location == old(location) && toasts == old(toasts) + [ErrorToast(signupFailed)])
    {
      error := "";
      if step == SignupStep {
        if username == "" || email == "" || password == "" || confirmPassword == "" {
          error := FillAllFields;
          return None;
        }
        if password != confirmPassword {
          error := PasswordsDiffer;
          return None;
        }
        if |password| < 6 {
          error := PasswordTooShort;
          return None;
        }
        if |username| < 3 {
          error := UsernameTooShort;
          return None;
        }
        call := Some(SignupCall(username, email, password));
        if signupReply.success {
          step := VerifyStep;
        } else {
          error := ErrorOr(signupReply.error, signupFailed);
        }
      } else {
        if email == "" || code == "" {
          error := EnterCode;
          return None;
        }
        call := Some(VerifyCall(email, code));
        if verifyReply.success {
          location := Some("/");
          toasts := toasts + [SuccessToast(registered)];
        } else {
          error := ErrorOr(verifyReply.error, VerificationFailed);
          toasts := toasts + [ErrorToast(signupFailed)];
        }
      }
    }
  }
}
