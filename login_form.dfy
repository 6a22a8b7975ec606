/** The sign-in form: an empty-field guard, then the login call and its outcome. */
module LoginForm {
  import opened Wrappers
  import opened AuthReplies

  const FillAllFields: string := "Please fill in all fields"
  const LoginFailed: string := "Login failed"

  /** The guard: a message when either field is empty, nothing otherwise. */
  function LoginValidation(email: string, password: string): (r: Option<string>)
    ensures r.None? <==> email != "" && password != ""
    ensures r.Some? ==> r.value == FillAllFields
  {
    if email == "" || password == "" then Some(FillAllFields) else None
  }

  /** The error shown after a submit that passed the guard. */
  function LoginError(reply: AuthReply): (r: string)
    ensures reply.success ==> r == ""
    ensures !reply.success && reply.error.Some? && reply.error.value != "" ==> r == reply.error.value
    ensures !reply.success && (reply.error.None? || reply.error == Some("")) ==> r == LoginFailed
  {
    if reply.success then "" else ErrorOr(reply.error, LoginFailed)
  }

  class Login {
    var email: string
    var password: string
    var error: string
    var location: Option<string>
    var toasts: seq<Toast>

    constructor ()
      ensures email == "" && password == "" && error == "" && location == None && toasts == []
    {
      email, password, error := "", "", "";
      location := None;
      toasts := [];
    }

    /**
     * `handleSubmit`.  The error is cleared first, so it ends up empty unless
     * the guard or the reply sets it; `reply` is what `login` answers, and
     * the toast texts are the translations of `loggedIn` and `loginFailed`.
     */
    method Submit(reply: AuthReply, loggedIn: string, loginFailed: string) returns (call: Option<AuthCall>)
      modifies this
      ensures email == old(email) && password == old(password)
      ensures LoginValidation(email, password).Some? ==>
        call == None && error == FillAllFields && location == old(location) && toasts == old(toasts)
      ensures LoginValidation(email, password).None? ==>
        call == Some(LoginCall(email, password)) && error == LoginError(reply)
      ensures LoginValidation(email, password).None? && reply.success ==>
        location == Some("/") && toasts == old(toasts) + [SuccessToast(loggedIn)]
      ensures LoginValidation(email, password).None? && !reply.success ==>
        location == old(location) && toasts == old(toasts) + [ErrorToast(loginFailed)]
    {
      error := "";
      if email == "" || password == "" {
        error := FillAllFields;
        return None;
      }
      call := Some(LoginCall(email, password));
      if reply.success {
        location := Some("/");
        toasts := toasts + [SuccessToast(loggedIn)];
      } else {
        error := ErrorOr(reply.error, LoginFailed);
        toasts := toasts + [ErrorToast(loginFailed)];
      }
    }
  }
}
