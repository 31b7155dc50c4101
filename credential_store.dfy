/**
 * The persistent credential store: the one `localStorage` slot, keyed 'token',
 * that the session manager, the auth service and the request gateway share.
 * Only that key is modelled; `getItem` yields `None` for a missing entry.
 */
module CredentialStore {
  import opened Wrappers

  /** JavaScript truthiness of a `string | null` read from storage. */
  predicate Truthy(t: Option<string>) {
    t.Some? && t.value != ""
  }

  class TokenStore {
    var token: Option<string>

    constructor (initial: Option<string>)
      ensures token == initial
    {
      token := initial;
    }

    /** `localStorage.getItem('token')` */
    method GetItem() returns (t: Option<string>)
      ensures t == token
    {
      t := token;
    }

    /** `localStorage.setItem('token', v)` */
    method SetItem(v: string)
      modifies this
      ensures token == Some(v)
    {
      token := Some(v);
    }

    /** `localStorage.removeItem('token')`; removing a missing entry is a no-op. */
    method RemoveItem()
      modifies this
      ensures token == None
    {
      token := None;
    }
  }
}
