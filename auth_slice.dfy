/** The authentication store: the signed-in user's record and the role the
    menus filter by. The three reducers each replace one field. */
module AuthSlice {
  import opened Common

  /** The user record the login answer carries, kept opaque. */
  type UserRecord = string

  const GuestRole := "guest"

  /** A role value as the reducers store it; `None` is `null`. */
  type RoleValue = Option<string>

  class AuthStore {
    var userAuth: Option<UserRecord>
    var role: RoleValue

    constructor ()
      ensures userAuth.None? && role == Some(GuestRole)
    {
      userAuth := None;
      role := Some(GuestRole);
    }

    /** `isAuthenticated`: stores the user record. */
    method IsAuthenticated(payload: Option<UserRecord>)
      modifies this`userAuth
      ensures userAuth == payload
    {
      userAuth := payload;
    }

    /** `logoutUser`: forgets the user record; the role stays, as the frame
        says. */
    method LogoutUser()
      modifies this`userAuth
      ensures userAuth.None?
    {
      userAuth := None;
    }

    /** `setRole`: stores the payload as it is. */
    method SetRole(payload: RoleValue)
      modifies this`role
      ensures role == payload
    {
      role := payload;
    }
  }
}
