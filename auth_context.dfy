/**
 * The session state shared by every page, from src/components/AuthContext.tsx:
 * the signed-in user, that user's row of the `user` table, and the loading
 * flag, as login, signup, logout and the session callbacks change them; the
 * admin test; and the guard that `useAuth` puts on the context.
 *
 * Each call to the authentication service or the `user` table is a
 * parameter carrying its outcome. `fetchUserData` yields the row, or null
 * when the lookup fails, so its result is an `Option<UserData>` parameter.
 */
module AuthContext {
  import opened Common

  /** The authentication service's user: only its id and email are read. */
  datatype AuthUser = AuthUser(id: string, email: string)

  /** A row of the `user` table. */
  datatype UserData = UserData(id: string, email: string, fullName: Option<string>, role: Option<string>)

  /** An error the service reports. */
  datatype AuthError = AuthError(message: string)

  /** The outcome of `signInWithPassword` or `signUp`. */
  datatype AuthOutcome = Rejected(error: AuthError) | Accepted(user: AuthUser)

  /** The metadata `signUp` stores with the account. */
  datatype Metadata = Metadata(fullName: string, role: string)

  /** The row `signup` inserts into the `user` table. */
  datatype NewUserRow = NewUserRow(id: string, email: string, fullName: string, role: string, createdAt: string, updatedAt: string)

  /** The role that makes a user an admin. */
  const AdminRole := "admin"

  /** The role a new account gets when none, or an empty one, is given. */
  const DefaultRole := "user"

  const OutsideProvider := "useAuth must be used within an AuthProvider"

  /** `role || "user"`, with `role` defaulting to `"user"` when omitted. */
  function RoleOrDefault(role: Option<string>): (r: string)
    ensures r != []
    ensures role.Some? && role.value != [] ==> r == role.value
    ensures role.None? || role.value == [] ==> r == DefaultRole
  {
    if role.Some? && role.value != [] then role.value else DefaultRole
  }

  /** `fullName || ""`. */
  function FullNameOrDefault(fullName: Option<string>): (r: string)
    ensures fullName.Some? ==> r == fullName.value
    ensures fullName.None? ==> r == []
  {
    if fullName.Some? then fullName.value else []
  }

  /** `userData?.role === "admin"`. */
  predicate IsAdminRow(userData: Option<UserData>)
  {
    userData.Some? && userData.value.role == Some(AdminRole)
  }

  /**
   * Only the exact role `"admin"` is an admin: a missing row or role is not,
   * nor is `"supa-admin"`, the role the administration page asks for, nor
   * the default role of a new account.
   */
  lemma IsAdminExactly(userData: Option<UserData>)
    ensures IsAdminRow(userData) <==> userData.Some? && userData.value.role.Some? && userData.value.role.value == "admin"
    ensures userData.Some? && userData.value.role == Some("supa-admin") ==> !IsAdminRow(userData)
    ensures userData.Some? && userData.value.role == Some(RoleOrDefault(None)) ==> !IsAdminRow(userData)
  {
  }

  /** What `useAuth` yields: the context, or the error it throws. */
  datatype Hook<C> = Context(value: C) | Throws(message: string)

  /** `useAuth`: outside a provider there is no context, and the hook throws. */
  function UseAuth<C>(context: Option<C>): (r: Hook<C>)
    ensures context.None? <==> r == Throws(OutsideProvider)
    ensures context.Some? ==> r == Context(context.value)
  {
    if context.None? then Throws(OutsideProvider) else Context(context.value)
  }

  class AuthProvider {
    var user: Option<AuthUser>
    var userData: Option<UserData>
    var loading: bool

    /** Nobody signed in, loading. */
    constructor ()
      ensures user == None && userData == None && loading
    {
      user := None;
      userData := None;
      loading := true;
    }

    /** `isAdmin`. */
    predicate IsAdmin()
      reads this
    {
      IsAdminRow(userData)
    }

    /**
     * `initializeAuth`: an existing session sets the user and its row, and
     * loading ends. (The state-change subscription is `OnAuthStateChange`.)
     */
    method InitializeAuth(session: Option<AuthUser>, row: Option<UserData>)
      modifies this
      ensures session.Some? ==> user == session && userData == row
      ensures session.None? ==> user == old(user) && userData == old(userData)
      ensures !loading
    {
      loading := true;
      if session.Some? {
        user := session;
        userData := row;
      }
      loading := false;
    }

    /** The `onAuthStateChange` callback: the session's user (or none) and its row (or none). */
    method OnAuthStateChange(session: Option<AuthUser>, row: Option<UserData>)
      modifies this
      ensures user == session
      ensures userData == if session.Some? then row else None
      ensures loading == old(loading)
    {
      user := session;
      userData := if session.Some? then row else None;
    }

    /**
     * `login`: never throws. A rejected sign-in returns its error and
     * changes no user; an accepted one sets the user and its row and returns
     * no error. Loading ends either way.
     */
    method Login(email: string, password: string, signIn: AuthOutcome, row: Option<UserData>)
      returns (error: Option<AuthError>)
      modifies this
      ensures error.None? <==> signIn.Accepted?
      ensures signIn.Rejected? ==> error == Some(signIn.error) && user == old(user) && userData == old(userData)
      ensures signIn.Accepted? ==> user == Some(signIn.user) && userData == row
      ensures !loading
    {
      loading := true;
      if signIn.Rejected? {
        error := Some(signIn.error);
      } else {
        user := Some(signIn.user);
        userData := row;
        error := None;
      }
      loading := false;
    }

    /**
     * `signup`: never throws. The account is created with the full name
     * (or "") and the role (or `"user"`) as metadata. A rejected sign-up
     * returns its error. Otherwise the same full name and role go into the
     * new `user` row; if that insert fails its error is returned and no user
     * is set; if it succeeds the user and its row are set. Loading ends
     * either way. The clock is read once for each of the row's two
     * timestamps, so they are two parameters.
     */
    method Signup(email: string, password: string, fullName: Option<string>, role: Option<string>,
                  signUp: AuthOutcome, insertError: Option<AuthError>, createdAt: string, updatedAt: string,
                  row: Option<UserData>)
      returns (metadata: Metadata, inserted: Option<NewUserRow>, error: Option<AuthError>)
      modifies this
      ensures metadata == Metadata(FullNameOrDefault(fullName), RoleOrDefault(role))
      ensures signUp.Rejected? ==> inserted == None && error == Some(signUp.error)
      ensures signUp.Accepted? ==>
        && inserted == Some(NewUserRow(signUp.user.id, email, metadata.fullName, metadata.role, createdAt, updatedAt))
        && error == insertError
      ensures inserted.Some? ==> inserted.value.role == metadata.role && inserted.value.fullName == metadata.fullName
      ensures error.None? <==> signUp.Accepted? && insertError.None?
      ensures error.None? ==> user == Some(signUp.user) && userData == row
      ensures error.Some? ==> user == old(user) && userData == old(userData)
      ensures !loading
    {
      loading := true;
      metadata := Metadata(FullNameOrDefault(fullName), RoleOrDefault(role));
      if signUp.Rejected? {
        inserted := None;
        error := Some(signUp.error);
      } else {
        inserted := Some(NewUserRow(signUp.user.id, email, metadata.fullName, metadata.role, createdAt, updatedAt));
        if insertError.Some? {
          error := insertError;
        } else {
          user := Some(signUp.user);
          userData := row;
          error := None;
        }
      }
      loading := false;
    }

    /**
     * `logout`: unless signing out throws, the user and its row are
     * cleared; loading ends either way.
     */
    method Logout(signOutThrows: bool)
      modifies this
      ensures !signOutThrows ==> user == None && userData == None && !IsAdmin()
      ensures signOutThrows ==> user == old(user) && userData == old(userData)
      ensures !loading
    {
      loading := true;
      if !signOutThrows {
        user := None;
        userData := None;
      }
      loading := false;
    }
  }
}
