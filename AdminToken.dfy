/**
 * `useAdminToken`: the admin token and the "require token" flag, loaded from browser storage
 * on mount and written back whenever they change. Storage is a map from keys to strings.
 */
module AdminToken {
  import opened Wrappers
  import opened Strings

  const StorageKey: string := "gargantuan_admin_token"
  const RequireKey: string := "gargantuan_require_token"

  /** `String(b)`. */
  function BoolString(b: bool): (r: string)
    ensures r == "true" <==> b
    ensures r == "false" <==> !b
  {
    if b then "true" else "false"
  }

  /** `localStorage.getItem(key)`: absent (`null`) when nothing is stored. */
  function Lookup(store: map<string, string>, key: string): (r: Option<string>)
    ensures r.Some? <==> key in store
    ensures r.Some? ==> r.value == store[key]
  {
    if key in store then Some(store[key]) else None
  }

  /** The token after mounting: the stored one when non-empty, else the initial `''`. */
  function LoadedToken(store: map<string, string>): (r: string)
    ensures StorageKey in store && store[StorageKey] != [] ==> r == store[StorageKey]
    ensures !(StorageKey in store && store[StorageKey] != []) ==> r == []
  {
    var saved := Lookup(store, StorageKey);
    if Truthy(saved) then saved.value else []
  }

  /** The flag after mounting: `stored === 'true'` when something non-empty is stored, else the initial `false`. */
  function LoadedRequire(store: map<string, string>): (r: bool)
    ensures r <==> RequireKey in store && store[RequireKey] == "true"
  {
    var req := Lookup(store, RequireKey);
    if Truthy(req) then req.value == "true" else false
  }

  /** A token written and loaded again comes back unchanged, the empty one included. */
  lemma TokenRoundTrip(store: map<string, string>, t: string)
    ensures LoadedToken(store[StorageKey := t]) == t
  {
  }

  /** A flag written with `String` and loaded with `=== 'true'` comes back unchanged. */
  lemma RequireRoundTrip(store: map<string, string>, b: bool)
    ensures LoadedRequire(store[RequireKey := BoolString(b)]) == b
  {
  }

  class AdminTokenState {
    var token: string
    var requireToken: bool
    var store: map<string, string>

    /** The first render: token `''` and the flag off, whatever is stored. */
    constructor(store: map<string, string>)
      ensures token == [] && !requireToken && this.store == store
    {
      token := [];
      requireToken := false;
      this.store := store;
    }

    /**
     * The mount effects: the first render writes back `''` and `'false'`; the load then sets
     * the non-empty stored values, and the changed ones are written again.
     */
    method Mount()
      requires token == [] && !requireToken
      modifies this
      ensures token == LoadedToken(old(store)) && requireToken == LoadedRequire(old(store))
      ensures store == old(store)[StorageKey := token][RequireKey := BoolString(requireToken)]
    {
      assert StorageKey[11] != RequireKey[11];
      var saved := Lookup(store, StorageKey);
      var req := Lookup(store, RequireKey);
      store := store[StorageKey := token];
      store := store[RequireKey := BoolString(requireToken)];
      if Truthy(saved) {
        token := saved.value;
        store := store[StorageKey := token];
      }
      if Truthy(req) {
        requireToken := req.value == "true";
        store := store[RequireKey := BoolString(requireToken)];
      }
    }

    /** `setToken(t)` and the effect it triggers. */
    method SetToken(t: string)
      modifies this
      ensures token == t && requireToken == old(requireToken)
      ensures store == old(store)[StorageKey := t]
    {
      token := t;
      store := store[StorageKey := token];
    }

    /** `setRequireToken(b)` and the effect it triggers. */
    method SetRequireToken(b: bool)
      modifies this
      ensures requireToken == b && token == old(token)
      ensures store == old(store)[RequireKey := BoolString(b)]
    {
      requireToken := b;
      store := store[RequireKey := BoolString(requireToken)];
    }
  }
}
