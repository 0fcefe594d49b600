/** The header: what it derives from the session, and logout. */
module Header {
  import opened Common
  import opened Session
  import opened Login

  /** Logged in when the flag says "true" or a non-empty token is stored. */
  predicate IsLoggedIn(m: map<string, string>)
    ensures Get(m, IS_LOGGED_IN) == Some("true") ==> IsLoggedIn(m)
    ensures Truthy(Get(m, TOKEN)) ==> IsLoggedIn(m)
    ensures IsLoggedIn(m) ==> Get(m, IS_LOGGED_IN) == Some("true") || Truthy(Get(m, TOKEN))
  {
    Get(m, IS_LOGGED_IN) == Some("true") || Truthy(Get(m, TOKEN))
  }

  /** The Admin Panel link is shown for the stored role "admin" only. */
  predicate ShowsAdminLink(m: map<string, string>)
    ensures ShowsAdminLink(m) ==> Truthy(Get(m, ROLE))
    ensures ROLE !in m ==> !ShowsAdminLink(m)
  {
    Get(m, ROLE) == Some("admin")
  }

  /** The name shown beside Logout: "Admin" for the admin role, else the
      stored username, else "User". */
  function DisplayLabel(m: map<string, string>): (r: string)
    ensures ShowsAdminLink(m) ==> r == "Admin"
    ensures !ShowsAdminLink(m) && Truthy(Get(m, USERNAME)) ==> r == m[USERNAME]
    ensures !ShowsAdminLink(m) && !Truthy(Get(m, USERNAME)) ==> r == "User"
  {
    if Get(m, ROLE) == Some("admin") then "Admin" else OrElse(Get(m, USERNAME), "User")
  }

  const LOGOUT_KEYS := {IS_LOGGED_IN, TOKEN, USERNAME, ROLE}

  /** The session after logout: the four session keys are gone, every other
      key is as it was. */
  function LoggedOut(m: map<string, string>): (r: map<string, string>)
    ensures forall k :: k in LOGOUT_KEYS ==> k !in r
    ensures forall k :: k !in LOGOUT_KEYS ==> Get(r, k) == Get(m, k)
  {
    m - LOGOUT_KEYS
  }

  /** `handleLogout`: removes the four keys one after another and goes home. */
  method HandleLogout(store: SessionStore) returns (nav: string)
    modifies store
    ensures store.entries == LoggedOut(old(store.entries))
    ensures nav == "/"
  {
    store.RemoveItem(IS_LOGGED_IN);
    store.RemoveItem(TOKEN);
    store.RemoveItem(USERNAME);
    store.RemoveItem(ROLE);
    nav := "/";
  }

  /** After logout the header shows a visitor: not logged in, no admin link,
      the generic label. */
  lemma LogoutEndsSession(m: map<string, string>)
    ensures !IsLoggedIn(LoggedOut(m))
    ensures !ShowsAdminLink(LoggedOut(m))
    ensures DisplayLabel(LoggedOut(m)) == "User"
  {
    assert IS_LOGGED_IN in LOGOUT_KEYS && TOKEN in LOGOUT_KEYS && ROLE in LOGOUT_KEYS && USERNAME in LOGOUT_KEYS;
  }

  /** Logging out twice is logging out once. */
  lemma LogoutIdempotent(m: map<string, string>)
    ensures LoggedOut(LoggedOut(m)) == LoggedOut(m)
  {
  }

  /** After a successful login the header shows a logged-in user, the admin
      link exactly for an admin role, and the matching label. */
  lemma LoginStartsSession(m: map<string, string>, token: string, user: Option<User>, seed: string)
    ensures var s := SessionAfterLogin(m, token, user, seed);
            IsLoggedIn(s)
            && (ShowsAdminLink(s) <==> StoredRole(user) == "admin")
            && (StoredRole(user) != "admin" && Truthy(UserName(user)) ==> DisplayLabel(s) == UserName(user).value)
  {
  }

  /** Logout after a login keeps the order history the login seeded and every
      key it did not write, and ends the session. */
  lemma LogoutAfterLogin(m: map<string, string>, token: string, user: Option<User>, seed: string)
    ensures var s := LoggedOut(SessionAfterLogin(m, token, user, seed));
            !IsLoggedIn(s)
            && Truthy(Get(s, ORDER_HISTORY)) == (Truthy(Get(m, ORDER_HISTORY)) || seed != "")
            && (Truthy(Get(m, ORDER_HISTORY)) ==> Get(s, ORDER_HISTORY) == Get(m, ORDER_HISTORY))
  {
    var s0 := SessionAfterLogin(m, token, user, seed);
    LogoutEndsSession(s0);
    assert ORDER_HISTORY !in LOGOUT_KEYS;
  }
}
