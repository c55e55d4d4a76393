/**
 * `localStorage` as the pages use it: a map from keys to strings, where
 * `getItem` of a missing key yields `null` and both `null` and the empty
 * string are falsy.
 */
module Storage {

  type Store = map<string, string>

  /** `localStorage.getItem(k)` is truthy. */
  predicate Present(store: Store, k: string) {
    k in store && store[k] != ""
  }

  /** `localStorage.getItem(k) || fallback`. */
  function GetOr(store: Store, k: string, fallback: string): (r: string)
    ensures Present(store, k) ==> r == store[k]
    ensures !Present(store, k) ==> r == fallback
  {
    if Present(store, k) then store[k] else fallback
  }

  /** Both the signed-in user and the organization are stored: the session the pages look for. */
  predicate SignedIn(store: Store) {
    Present(store, "user") && Present(store, "organization")
  }

  /**
   * `JSON.stringify({email, name})` for the stored user; string escaping is
   * not modelled, and only its being non-empty matters to the pages.
   */
  function UserJson(email: string, name: string): (r: string)
    ensures r != ""
  {
    "{\"email\":\"" + email + "\",\"name\":\"" + name + "\"}"
  }
}
