/** Shared vocabulary of the storefront model: optional values, abstract HTTP
    replies, and the JavaScript truthiness rules the components lean on. */
module Common {

  datatype Option<+T> = None | Some(value: T) {
    function GetOr(default: T): T {
      match this
      case Some(v) => v
      case None => default
    }
  }

  /** An HTTP exchange reduced to what the handlers look at. `Ok` is a resolved
      request (its status is kept because one handler re-checks it); `Err` is a
      rejected one, with the response status when there was a response and the
      message the handler would show. */
  datatype Response<+T> = Ok(status: int, body: T) | Err(code: Option<int>, message: string)

  /** JavaScript truthiness of an optional string: absent and "" are falsy. */
  predicate Truthy(s: Option<string>) {
    s.Some? && s.value != ""
  }

  /** `a || b` on optional strings: `a` when it is truthy, otherwise `b`
      (even when `b` is falsy too, as in JavaScript). */
  function Or(a: Option<string>, b: Option<string>): Option<string> {
    if Truthy(a) then a else b
  }

  /** `a || fallback` where the fallback is a literal string. */
  function OrElse(a: Option<string>, fallback: string): string {
    if Truthy(a) then a.value else fallback
  }
}
