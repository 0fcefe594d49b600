/** The per-tab session storage: string keys to string values. */
module Session {
  import opened Common

  const IS_LOGGED_IN := "isLoggedIn"
  const TOKEN := "token"
  const ROLE := "role"
  const USERNAME := "username"
  const ORDER_HISTORY := "orderHistory"
  const REDIRECT_AFTER_LOGIN := "redirectAfterLogin"

  /** `getItem`: the stored value, or None (null) for an absent key. */
  function Get(m: map<string, string>, key: string): Option<string> {
    if key in m then Some(m[key]) else None
  }

  class SessionStore {
    var entries: map<string, string>

    constructor (initial: map<string, string>)
      ensures entries == initial
    {
      entries := initial;
    }

    function GetItem(key: string): Option<string>
      reads this
    {
      Get(entries, key)
    }

    method SetItem(key: string, value: string)
      modifies this
      ensures entries == old(entries)[key := value]
    {
      entries := entries[key := value];
    }

    method RemoveItem(key: string)
      modifies this
      ensures entries == old(entries) - {key}
    {
      entries := entries - {key};
    }
  }
}
