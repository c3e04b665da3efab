/**
 * The sign-up form's submission: clear the notices, check the fields, call
 * `signUp`, then report the outcome. The translation function `t` is a
 * parameter; `signUp`'s answer is the `outcome` parameter.
 */
module Signup {
  import opened Wrappers

  const FillAllFields: string := "fillAllFields"
  const PasswordMinLength: string := "passwordMinLength"
  const SignupSuccess: string := "signupSuccess"
  const MinPasswordLength: nat := 6

  /** What `signUp` was called with. */
  datatype SignUpRequest = SignUpRequest(email: string, password: string, fullName: string)

  /** What the `signUp` call came back with: success, or an error (returned or thrown) with its message. */
  datatype SignUpOutcome = SignedUp | SignUpFailed(message: string)

  /**
   * The translation key of the first failing check: an empty field, then a
   * password shorter than six characters; None when both checks pass.
   */
  function ValidationError(email: string, password: string, fullName: string): (r: Option<string>)
    ensures r == Some(FillAllFields) <==> email == "" || password == "" || fullName == ""
    ensures r == Some(PasswordMinLength) <==> email != "" && password != "" && fullName != "" && |password| < MinPasswordLength
    ensures r.None? <==> email != "" && password != "" && fullName != "" && |password| >= MinPasswordLength
  {
    if email == "" || password == "" || fullName == "" then Some(FillAllFields)
    else if |password| < MinPasswordLength then Some(PasswordMinLength)
    else None
  }

  /** The form's state variables. */
  class SignupForm {
    var email: string
    var password: string
    var fullName: string
    var loading: bool
    var error: string
    var message: string

    constructor ()
      ensures email == "" && password == "" && fullName == ""
      ensures !loading && error == "" && message == ""
    {
      email, password, fullName := "", "", "";
      loading, error, message := false, "", "";
    }

    /**
     * `handleSubmit`. `request` is the `signUp` call made, if any. A failed
     * check sets its translated message and keeps the fields; a successful
     * sign-up sets the success message and clears the fields; a failed one
     * shows the failure's own message. `loading` is off on every exit.
     */
    method HandleSubmit(t: string -> string, outcome: SignUpOutcome) returns (request: Option<SignUpRequest>)
      modifies this
      ensures !loading
      ensures var check := ValidationError(old(email), old(password), old(fullName));
        && (request.Some? <==> check.None?)
        && (check.Some? ==> error == t(check.value) && message == ""
                            && email == old(email) && password == old(password) && fullName == old(fullName))
      ensures request.Some? ==> request.value == SignUpRequest(old(email), old(password), old(fullName))
      ensures request.Some? && outcome.SignedUp? ==>
        message == t(SignupSuccess) && error == "" && email == "" && password == "" && fullName == ""
      ensures request.Some? && outcome.SignUpFailed? ==>
        error == outcome.message && message == ""
        && email == old(email) && password == old(password) && fullName == old(fullName)
    {
      loading := true;
      error := "";
      message := "";
      var check := ValidationError(email, password, fullName);
      if check.Some? {
        error := t(check.value);
        loading := false;
        request := None;
        return;
      }
      request := Some(SignUpRequest(email, password, fullName));
      match outcome {
        case SignedUp =>
          message := t(SignupSuccess);
          email, password, fullName := "", "", "";
        case SignUpFailed(text) =>
          error := text;
      }
      loading := false;
    }
  }

  /** A six-character password passes the length check; five characters do not, and an empty field is reported first. */
  lemma PasswordBoundary(email: string, fullName: string, six: string, five: string)
    requires email != "" && fullName != "" && |six| == 6 && |five| == 5
    ensures ValidationError(email, six, fullName).None?
    ensures ValidationError(email, five, fullName) == Some(PasswordMinLength)
    ensures ValidationError("", five, fullName) == Some(FillAllFields)
  {
  }
}
