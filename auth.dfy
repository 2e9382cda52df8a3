/** The login page (js/auth.js): the decision its submit handler takes on the
    typed username and password, the session it then keeps under `yape_user`,
    and the role gate `checkAuth` applies on the other pages. */
module Auth {
  import opened Wrappers
  import opened Text
  import opened Records
  import Accounts

  /** The user record kept under `yape_user` (its `token` is not modelled). */
  datatype Session = Session(role: string, username: Option<string>, deviceCode: Option<string>)

  datatype LoginError =
    | MissingCredentials   // "Por favor ingrese usuario y contraseña"
    | WrongPassword        // "Contraseña incorrecta"
    | UserNotFound         // "Usuario no encontrado o credenciales incorrectas"

  const AdminName := "admin"
  const AdminPassword := "ep38een9"

  /** The session of the built-in administrator. */
  const AdminSession := Session("admin", Some(AdminName), None)

  /** The session of a user read from the table: its own username and device. */
  function UserSession(u: User): (s: Session)
    ensures s.role == "user" && s.username == u.username && s.deviceCode == u.deviceCode
  {
    Session("user", u.username, u.deviceCode)
  }

  /** The submit handler: both fields required; the built-in administrator
      before the table; otherwise the record stored under the typed username
      (not trimmed) decides, by exact comparison of the passwords. */
  function Login(users: map<string, User>, username: string, password: string): (r: Result<Session, LoginError>)
    ensures r == Err(MissingCredentials) <==> username == "" || password == ""
    ensures r == Ok(AdminSession) <==> username == AdminName && password == AdminPassword
    ensures r == Err(UserNotFound) <==>
      username != "" && password != "" && !(username == AdminName && password == AdminPassword) && username !in users
    ensures r == Err(WrongPassword) <==>
      && username != "" && password != "" && !(username == AdminName && password == AdminPassword)
      && username in users && users[username].password != Some(password)
    ensures r.Ok? && r != Ok(AdminSession) ==>
      username in users && users[username].password == Some(password) && r.value == UserSession(users[username])
  {
    if username == "" || password == "" then Err(MissingCredentials)
    else if username == AdminName && password == AdminPassword then Ok(AdminSession)
    else if username !in users then Err(UserNotFound)
    else if users[username].password == Some(password) then Ok(UserSession(users[username]))
    else Err(WrongPassword)
  }

  /** The administrator gets in whatever the `users` table holds. */
  lemma AdminIgnoresTable(users: map<string, User>, others: map<string, User>)
    ensures Login(users, AdminName, AdminPassword) == Login(others, AdminName, AdminPassword) == Ok(AdminSession)
  {
  }

  /** Only the built-in credentials give an administrator's session; a stored
      record gives a user's session even when its `role` reads "admin". */
  lemma OnlyBuiltInIsAdmin(users: map<string, User>, username: string, password: string)
    requires Login(users, username, password).Ok?
    ensures Login(users, username, password).value.role == "admin" <==> username == AdminName && password == AdminPassword
  {
  }

  /** A user the create-user form stored logs in with the trimmed name and
      password it was given, and the session carries the chosen device. */
  lemma CreatedUserLogsIn(users: map<string, User>, usernameInput: string, passwordInput: string,
                          deviceCode: string, createdAt: int)
    requires Accounts.CreateUser(users, usernameInput, passwordInput, deviceCode, createdAt).Ok?
    requires !(Trim(usernameInput) == AdminName && Trim(passwordInput) == AdminPassword)
    ensures var m := Accounts.CreateUser(users, usernameInput, passwordInput, deviceCode, createdAt).value;
      Login(m, Trim(usernameInput), Trim(passwordInput))
        == Ok(Session("user", Some(Trim(usernameInput)), Some(deviceCode)))
  {
    var name, pass := Trim(usernameInput), Trim(passwordInput);
    var m := Accounts.CreateUser(users, usernameInput, passwordInput, deviceCode, createdAt).value;
    assert name != "" && pass != "";
    assert m[name] == Accounts.NewUser(name, pass, deviceCode, createdAt);
  }

  /** After its record is deleted a user is not found, whatever the password. */
  lemma DeletedUserNotFound(users: map<string, User>, username: string, password: string)
    requires username != "" && password != ""
    requires !(username == AdminName && password == AdminPassword)
    ensures Login(RemoveKey(users, username), username, password) == Err(UserNotFound)
  {
  }

  /** The login does not trim: in a table whose keys the create-user form
      wrote (trimmed), a username typed with a leading blank is not found. */
  lemma PaddedNameNotFound(users: map<string, User>, username: string, password: string)
    requires forall k | k in users :: Trim(k) == k
    requires username != "" && IsSpace(username[0]) && password != ""
    ensures Login(users, username, password) == Err(UserNotFound)
  {
    PaddedChangesOnTrim(username);
    assert username != AdminName by {
      assert IsSpace(username[0]);
    }
  }

  /** A string that starts with white space is not its own trim. */
  lemma PaddedChangesOnTrim(s: string)
    requires s != "" && IsSpace(s[0])
    ensures Trim(s) != s
  {
    var t := Trim(s);
    if t != [] {
      assert !IsSpace(t[0]);
    }
  }

  /** `checkAuth(requiredRole)`: leave the page when nothing is stored, or when
      a role is required and the stored one differs. */
  function Redirect(stored: Option<Session>, requiredRole: Option<string>): (leave: bool)
    ensures stored.None? ==> leave
    ensures !Truthy(requiredRole) ==> (leave <==> stored.None?)
    ensures Truthy(requiredRole) && stored.Some? ==> (leave <==> stored.value.role != requiredRole.value)
  {
    stored.None? || (Truthy(requiredRole) && stored.value.role != requiredRole.value)
  }

  /** A session the login grants passes the gate of its own role and is turned
      away from a page that requires the other role. */
  lemma GrantedSessionGate(users: map<string, User>, username: string, password: string)
    requires Login(users, username, password).Ok?
    ensures var s := Login(users, username, password).value;
      && !Redirect(Some(s), Some(s.role))
      && !Redirect(Some(s), None)
      && Redirect(Some(s), Some(if s.role == "admin" then "user" else "admin"))
  {
    var s := Login(users, username, password).value;
    assert s.role == "admin" || s.role == "user";
  }

  /** The browser's `localStorage` entry `yape_user`. */
  class SessionStore {
    var stored: Option<Session>

    constructor (initial: Option<Session>)
      ensures stored == initial
    {
      stored := initial;
    }

    /** The login form's submit handler: a granted session replaces the stored
        one; a refused login reports its error and leaves it as it was. */
    method SubmitLogin(users: map<string, User>, username: string, password: string)
      returns (error: Option<LoginError>)
      modifies this
      ensures var r := Login(users, username, password);
        && (r.Ok? ==> error == None && stored == Some(r.value))
        && (r.Err? ==> error == Some(r.error) && stored == old(stored))
    {
      var r := Login(users, username, password);
      if r.Ok? {
        stored := Some(r.value);
        error := None;
      } else {
        error := Some(r.error);
      }
    }

    /** `logout`: the stored session is removed. */
    method Logout()
      modifies this
      ensures stored == None
    {
      stored := None;
    }

    /** `checkAuth` on a page, reading the stored session. */
    method CheckAuth(requiredRole: Option<string>) returns (leave: bool)
      ensures leave == Redirect(stored, requiredRole)
    {
      leave := Redirect(stored, requiredRole);
    }
  }
}
