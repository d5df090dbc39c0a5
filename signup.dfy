/**
 * The sign-up form of src/pages/Signup.tsx: its field checks, the messages
 * it shows, and when it calls the provider's `signup`.
 *
 * The provider's `signup` reports failure through its return value, which
 * the form ignores, and never throws; so once the checks pass the form
 * always shows the success message, and its catch branch cannot run.
 */
module Signup {
  import opened Common

  const FillAllFields := "Please fill in all fields"
  const PasswordTooShort := "Password must be at least 6 characters"
  const Created := "Account created successfully. You can now log in."

  /** The shortest password the form accepts. */
  const MinPasswordLength := 6

  /** What the form hands to `signup`. */
  datatype SignupRequest = SignupRequest(email: string, password: string, fullName: string)

  /** The form's checks, in order: the first one that fails gives the error. */
  function CheckFields(email: string, password: string, fullName: string): (r: Option<string>)
    ensures r == Some(FillAllFields) <==> email == [] || password == [] || fullName == []
    ensures r == Some(PasswordTooShort) <==> email != [] && fullName != [] && 0 < |password| < MinPasswordLength
    ensures r == None <==> email != [] && fullName != [] && |password| >= MinPasswordLength
  {
    if email == [] || password == [] || fullName == [] then Some(FillAllFields)
    else if |password| < MinPasswordLength then Some(PasswordTooShort)
    else None
  }

  /** A password of exactly six characters passes, and an empty field is reported before a short password. */
  lemma CheckFieldsBoundary(email: string, fullName: string)
    requires email != [] && fullName != []
    ensures CheckFields(email, "secret", fullName) == None
    ensures CheckFields(email, "short", fullName) == Some(PasswordTooShort)
    ensures CheckFields([], "abc", fullName) == Some(FillAllFields)
  {
  }

  class SignupForm {
    var error: Option<string>
    var success: Option<string>

    constructor ()
      ensures error == None && success == None
    {
      error := None;
      success := None;
    }

    /**
     * `handleSignup`: both messages are cleared; a failed check sets its
     * error and calls nothing; otherwise `signup` is called and the success
     * message is set, whatever `signup` returned.
     */
    method HandleSignup(email: string, password: string, fullName: string) returns (request: Option<SignupRequest>)
      modifies this
      ensures CheckFields(email, password, fullName).Some? ==>
        request == None && error == CheckFields(email, password, fullName) && success == None
      ensures CheckFields(email, password, fullName).None? ==>
        request == Some(SignupRequest(email, password, fullName)) && error == None && success == Some(Created)
    {
      error := None;
      success := None;
      var problem := CheckFields(email, password, fullName);
      if problem.Some? {
        error := problem;
        return None;
      }
      request := Some(SignupRequest(email, password, fullName));
      success := Some(Created);
    }
  }
}
