/**
 * The login form of src/pages/Login.tsx: its field check, the call to the
 * provider's `login`, and where it navigates afterwards.
 *
 * The form reads `isAdmin` from the context as it was when the form was
 * drawn, before this login, so it is a parameter here. The provider's
 * `login` reports failure through its return value, which the form
 * ignores, and never throws; so once the check passes the form always
 * navigates, and its catch branch cannot run.
 */
module Login {
  import opened Common

  const MissingCredentials := "Please enter both email and password"
  const AdminHome := "/admin-dashboard"
  const UserHome := "/dashboard"

  /** What the form hands to `login`. */
  datatype LoginRequest = LoginRequest(email: string, password: string)

  /** Where the form goes after logging in. */
  function Destination(isAdmin: bool): (path: string)
    ensures path == AdminHome <==> isAdmin
    ensures path == UserHome <==> !isAdmin
  {
    if isAdmin then AdminHome else UserHome
  }

  class LoginForm {
    var error: Option<string>

    constructor ()
      ensures error == None
    {
      error := None;
    }

    /**
     * `handleLogin`: the error is cleared; an empty email or password sets
     * the error and calls nothing; otherwise `login` is called and the form
     * navigates by the admin flag, whatever `login` returned.
     */
    method HandleLogin(email: string, password: string, isAdmin: bool)
      returns (request: Option<LoginRequest>, navigateTo: Option<string>)
      modifies this
      ensures email == [] || password == [] ==>
        request == None && navigateTo == None && error == Some(MissingCredentials)
      ensures email != [] && password != [] ==>
        request == Some(LoginRequest(email, password)) && navigateTo == Some(Destination(isAdmin)) && error == None
    {
      error := None;
      if email == [] || password == [] {
        error := Some(MissingCredentials);
        return None, None;
      }
      request := Some(LoginRequest(email, password));
      navigateTo := Some(Destination(isAdmin));
    }
  }
}
