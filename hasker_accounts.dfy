/**
 * Hasker's user model and its manager (W7_Hasker/hasker/accounts/models.py):
 * which arguments `create_user` refuses, what a new user and a new superuser
 * look like, and the permission answers of a user.
 *
 * E-mail normalisation and password hashing belong to the framework; they
 * are parameters here. A password of `None` leaves the user without a
 * usable password, stored as `None`.
 */
module HaskerAccounts {
  import opened Wrappers

  type String = seq<char>

  const NoEmailMsg: String := "Users must have an email address"
  const NoLoginMsg: String := "Users must have login"

  class MyUser {
    var email: String
    var login: String
    var avatar: String
    var isActive: bool
    var isAdmin: bool
    var password: Option<String>

    /** `self.model(email=..., login=..., avatar=...)`: active, not an admin. */
    constructor (email: String, login: String, avatar: String)
      ensures this.email == email && this.login == login && this.avatar == avatar
      ensures isActive && !isAdmin && password == None
    {
      this.email := email;
      this.login := login;
      this.avatar := avatar;
      isActive := true;
      isAdmin := false;
      password := None;
    }

    /** `is_staff`: staff are exactly the admins. */
    predicate IsStaff()
      reads this
    {
      isAdmin
    }

    /** `has_perm`: every user holds every permission. */
    predicate HasPerm(perm: String)
    {
      true
    }

    /** `has_module_perms`: every user may see every application. */
    predicate HasModulePerms(appLabel: String)
    {
      true
    }

    /** `__str__`. */
    function Str(): String
      reads this
    {
      login
    }
  }

  /** The `ValueError` `create_user` raises, if any: the e-mail is checked
    * before the login. */
  function CreateUserError(email: String, login: String): (r: Option<String>)
    ensures r.None? <==> email != [] && login != []
    ensures email == [] ==> r == Some(NoEmailMsg)
    ensures email != [] && login == [] ==> r == Some(NoLoginMsg)
  {
    if email == [] then Some(NoEmailMsg)
    else if login == [] then Some(NoLoginMsg)
    else None
  }

  /** `create_user`: refuses an empty e-mail or login; otherwise a new
    * active, non-admin user with the normalised e-mail and the hashed
    * password (none usable when no password is given). */
  method CreateUser(email: String, login: String, avatar: String, password: Option<String>,
                    normalizeEmail: String -> String, hash: String -> String)
    returns (user: MyUser?, error: Option<String>)
    ensures error == CreateUserError(email, login)
    ensures error.Some? ==> user == null
    ensures error.None? ==>
              && user != null && fresh(user)
              && user.email == normalizeEmail(email) && user.login == login && user.avatar == avatar
              && user.isActive && !user.isAdmin && !user.IsStaff()
              && user.password == (if password.Some? then Some(hash(password.value)) else None)
              && user.Str() == login
  {
    error := CreateUserError(email, login);
    if error.Some? {
      return null, error;
    }
    user := new MyUser(normalizeEmail(email), login, avatar);
    user.password := if password.Some? then Some(hash(password.value)) else None;
  }

  /** `create_superuser`: the same checks, then the new user becomes an admin,
    * and so a member of staff. */
  method CreateSuperuser(email: String, login: String, avatar: String, password: String,
                         normalizeEmail: String -> String, hash: String -> String)
    returns (user: MyUser?, error: Option<String>)
    ensures error == CreateUserError(email, login)
    ensures error.Some? ==> user == null
    ensures error.None? ==>
              && user != null && fresh(user)
              && user.email == normalizeEmail(email) && user.login == login && user.avatar == avatar
              && user.isActive && user.isAdmin && user.IsStaff()
              && user.password == Some(hash(password))
  {
    user, error := CreateUser(email, login, avatar, Some(password), normalizeEmail, hash);
    if error.None? {
      user.isAdmin := true;
    }
  }

  /** Every user, admin or not, holds every permission and may see every application. */
  lemma PermissionsAlwaysGranted(user: MyUser, perm: String, appLabel: String)
    ensures user.HasPerm(perm) && user.HasModulePerms(appLabel)
  {
  }
}
