/** The login and registration form: validation, the admin shortcut, the
    request it sends, and what a successful login writes to the session. */
module Login {
  import opened Common
  import opened Session

  datatype Mode = SignIn | SignUp

  /** The form's own checks; a message means nothing is sent. */
  function ValidationError(mode: Mode, name: string, email: string, password: string): (r: Option<string>)
    ensures mode == SignUp ==> (r.None? <==> name != "" && email != "" && password != "")
    ensures mode == SignIn ==> (r.None? <==> email != "" && password != "")
    ensures r.Some? && mode == SignUp ==> r.value == "Please fill name, email and password"
    ensures r.Some? && mode == SignIn ==> r.value == "Please enter email and password"
  {
    if mode == SignUp && (name == "" || email == "" || password == "") then
      Some("Please fill name, email and password")
    else if mode == SignIn && (email == "" || password == "") then
      Some("Please enter email and password")
    else None
  }

  const ADMIN_SHORTCUT_EMAIL := "admin"
  const ADMIN_SHORTCUT_PASSWORD := "admin123"
  const ADMIN_EMAIL := "admin@admin.com"

  /** The email the login request carries: "admin" with "admin123" in login
      mode stands for the administrator's address; any other input is sent
      unchanged. */
  function LoginEmail(mode: Mode, email: string, password: string): (r: string)
    ensures mode == SignIn && email == ADMIN_SHORTCUT_EMAIL && password == ADMIN_SHORTCUT_PASSWORD ==> r == ADMIN_EMAIL
    ensures !(mode == SignIn && email == ADMIN_SHORTCUT_EMAIL && password == ADMIN_SHORTCUT_PASSWORD) ==> r == email
  {
    if mode == SignIn && email == ADMIN_SHORTCUT_EMAIL && password == ADMIN_SHORTCUT_PASSWORD then ADMIN_EMAIL else email
  }

  datatype AuthBody = LoginBody(email: string, password: string)
                    | RegisterBody(name: string, email: string, password: string)

  /** `POST /auth/login` or `POST /auth/register` with its JSON body. */
  datatype AuthRequest = AuthRequest(endpoint: string, body: AuthBody)

  function AuthRequestFor(mode: Mode, name: string, email: string, password: string): (r: AuthRequest)
    ensures mode == SignIn ==> r.endpoint == "/login" && r.body.LoginBody?
    ensures mode == SignUp ==> r.endpoint == "/register" && r.body == RegisterBody(name, email, password)
    ensures r.body.password == password
    ensures r.body.LoginBody? ==> r.body.email == LoginEmail(mode, email, password)
  {
    if mode == SignIn then AuthRequest("/login", LoginBody(LoginEmail(mode, email, password), password))
    else AuthRequest("/register", RegisterBody(name, email, password))
  }

  /** The shortcut never touches registration: a register request always
      carries the email as typed. */
  lemma RegisterUsesTypedEmail(name: string, email: string, password: string)
    ensures AuthRequestFor(SignUp, name, email, password).body.email == email
  {
  }

  datatype User = User(role: Option<string>, name: Option<string>)

  /** The fields of the auth reply the form reads: `token` and `user`. */
  datatype AuthReply = AuthReply(token: Option<string>, user: Option<User>)

  function UserRole(user: Option<User>): Option<string> {
    if user.Some? then user.value.role else None
  }

  function UserName(user: Option<User>): Option<string> {
    if user.Some? then user.value.name else None
  }

  /** `user?.role || "user"`. */
  function StoredRole(user: Option<User>): (r: string)
    ensures r != ""
    ensures Truthy(UserRole(user)) ==> r == UserRole(user).value
    ensures !Truthy(UserRole(user)) ==> r == "user"
  {
    OrElse(UserRole(user), "user")
  }

  /** The error shown for a failed request: for a non-ok response the
      server's message, or "Request failed" when it sent none; for a request
      that got no response at all, the transport's message. */
  function FailureMessage(code: Option<int>, message: string): (r: string)
    ensures code.Some? ==> r != ""
    ensures message != "" ==> r == message
    ensures code.Some? && message == "" ==> r == "Request failed"
    ensures code.None? ==> r == message
  {
    if code.Some? && message == "" then "Request failed" else message
  }

  const MISSING_TOKEN := "Login failed: token missing"

  /** The session after a successful login: isLoggedIn, token and role are
      written; the username only when the reply has one; the order history is
      seeded only when absent; a stored redirect target is consumed. No other
      key changes. */
  function SessionAfterLogin(m: map<string, string>, token: string, user: Option<User>, seed: string)
    : (r: map<string, string>)
    ensures Get(r, IS_LOGGED_IN) == Some("true")
    ensures Get(r, TOKEN) == Some(token)
    ensures Get(r, ROLE) == Some(StoredRole(user))
    ensures Truthy(UserName(user)) ==> Get(r, USERNAME) == UserName(user)
    ensures !Truthy(UserName(user)) ==> Get(r, USERNAME) == Get(m, USERNAME)
    ensures Truthy(Get(m, ORDER_HISTORY)) ==> Get(r, ORDER_HISTORY) == Get(m, ORDER_HISTORY)
    ensures !Truthy(Get(m, ORDER_HISTORY)) ==> Get(r, ORDER_HISTORY) == Some(seed)
    ensures Truthy(Get(m, REDIRECT_AFTER_LOGIN)) ==> REDIRECT_AFTER_LOGIN !in r
    ensures !Truthy(Get(m, REDIRECT_AFTER_LOGIN)) ==> Get(r, REDIRECT_AFTER_LOGIN) == Get(m, REDIRECT_AFTER_LOGIN)
    ensures forall k :: k !in {IS_LOGGED_IN, TOKEN, ROLE, USERNAME, ORDER_HISTORY, REDIRECT_AFTER_LOGIN} ==>
              Get(r, k) == Get(m, k)
  {
    var written := m[IS_LOGGED_IN := "true"][TOKEN := token][ROLE := StoredRole(user)];
    var named := if Truthy(UserName(user)) then written[USERNAME := UserName(user).value] else written;
    var seeded := if !Truthy(Get(named, ORDER_HISTORY)) then named[ORDER_HISTORY := seed] else named;
    if Truthy(Get(seeded, REDIRECT_AFTER_LOGIN)) then seeded - {REDIRECT_AFTER_LOGIN} else seeded
  }

  /** Where a successful login goes: a stored redirect target first; failing
      that, the admin panel for a reply whose user is an admin, and the order
      history for anyone else. */
  function LoginRedirect(m: map<string, string>, user: Option<User>): (r: string)
    ensures Truthy(Get(m, REDIRECT_AFTER_LOGIN)) ==> r == m[REDIRECT_AFTER_LOGIN]
    ensures !Truthy(Get(m, REDIRECT_AFTER_LOGIN)) ==>
              r == (if UserRole(user) == Some("admin") then "/admin-panel" else "/orders")
  {
    var redirectPath := Get(m, REDIRECT_AFTER_LOGIN);
    if Truthy(redirectPath) then redirectPath.value
    else if UserRole(user) == Some("admin") then "/admin-panel"
    else "/orders"
  }

  class LoginForm {
    var email: string
    var name: string
    var mode: Mode
    var error: string

    constructor ()
      ensures email == "" && name == "" && mode == SignIn && error == ""
    {
      email, name, mode, error := "", "", SignIn, "";
    }

    method SetEmail(value: string)
      modifies this`email
      ensures email == value
    {
      email := value;
    }

    method SetName(value: string)
      modifies this`name
      ensures name == value
    {
      name := value;
    }

    /** The "Create an account" and "Already have an account?" links. */
    method SetMode(m: Mode)
      modifies this`mode
      ensures mode == m
    {
      mode := m;
    }

    /** `handleSubmit`, with the typed password, the session store, the
        server's reply, and the seed text for the demo order history. */
    method HandleSubmit(password: string, store: SessionStore, reply: Response<AuthReply>, seed: string)
      returns (req: Option<AuthRequest>, nav: Option<string>)
      modifies this`mode, this`error, store
      ensures ValidationError(old(mode), old(name), old(email), password).Some? ==>
                req.None? && nav.None? && error == ValidationError(old(mode), old(name), old(email), password).value
                && store.entries == old(store.entries) && mode == old(mode)
      ensures ValidationError(old(mode), old(name), old(email), password).None? ==>
                req == Some(AuthRequestFor(old(mode), old(name), old(email), password))
      ensures req.Some? && reply.Err? ==>
                error == FailureMessage(reply.code, reply.message) && nav.None?
                && store.entries == old(store.entries) && mode == old(mode)
      ensures req.Some? && reply.Ok? && old(mode) == SignIn && !Truthy(reply.body.token) ==>
                error == MISSING_TOKEN && nav.None? && store.entries == old(store.entries) && mode == old(mode)
      ensures req.Some? && reply.Ok? && old(mode) == SignIn && Truthy(reply.body.token) ==>
                store.entries == SessionAfterLogin(old(store.entries), reply.body.token.value, reply.body.user, seed)
                && nav == Some(LoginRedirect(old(store.entries), reply.body.user))
                && error == old(error) && mode == old(mode)
      ensures req.Some? && reply.Ok? && old(mode) == SignUp ==>
                mode == SignIn && nav.None? && store.entries == old(store.entries) && error == old(error)
    {
      req, nav := None, None;
      var invalid := ValidationError(mode, name, email, password);
      if invalid.Some? {
        error := invalid.value;
        return;
      }
      req := Some(AuthRequestFor(mode, name, email, password));
      match reply {
        case Err(code, message) =>
          error := FailureMessage(code, message);
        case Ok(_, data) =>
          if mode == SignIn {
            if !Truthy(data.token) {
              error := MISSING_TOKEN;
              return;
            }
            store.SetItem(IS_LOGGED_IN, "true");
            store.SetItem(TOKEN, data.token.value);
            store.SetItem(ROLE, StoredRole(data.user));
            if Truthy(UserName(data.user)) {
              store.SetItem(USERNAME, UserName(data.user).value);
            }
            if !Truthy(store.GetItem(ORDER_HISTORY)) {
              store.SetItem(ORDER_HISTORY, seed);
            }
            var redirectPath := store.GetItem(REDIRECT_AFTER_LOGIN);
            if Truthy(redirectPath) {
              store.RemoveItem(REDIRECT_AFTER_LOGIN);
              nav := Some(redirectPath.value);
            } else if UserRole(data.user) == Some("admin") {
              nav := Some("/admin-panel");
            } else {
              nav := Some("/orders");
            }
          } else {
            mode := SignIn;
          }
      }
    }
  }
}
