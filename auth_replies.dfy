/**
 * What the sign-in and sign-up forms get back from the authentication
 * context, and the effects they have besides their own state: a navigation
 * and a toast.  The server calls themselves are not modelled; their replies
 * are parameters.
 */
module AuthReplies {
  import opened Wrappers

  datatype AuthReply = AuthReply(success: bool, error: Option<string>)

  /** A call the form made to the authentication context. */
  datatype AuthCall =
    | LoginCall(email: string, password: string)
    | SignupCall(username: string, email: string, password: string)
    | VerifyCall(email: string, code: string)

  datatype Toast = SuccessToast(text: string) | ErrorToast(text: string)

  /** `result.error || fallback`: a missing or empty message gives the fallback. */
  function ErrorOr(error: Option<string>, fallback: string): (r: string)
    ensures error.Some? && error.value != "" ==> r == error.value
    ensures error.None? || error == Some("") ==> r == fallback
  {
    match error
    case Some(text) => if text != "" then text else fallback
    case None => fallback
  }
}
