/** The browser's `localStorage` as the session code uses it: a durable map from
    string keys to string values with get, set and remove, and the two keys
    under which the session is mirrored. */
module Storage {
  import opened Js

  /** Key of the raw access token. */
  const TokenKey: string := "token"
  /** Key of the cached role string. */
  const RoleKey: string := "userRole"

  /** The storage with both session keys removed, every other key kept. */
  function WithoutSession(entries: map<string, string>): (r: map<string, string>)
    ensures TokenKey !in r && RoleKey !in r
    ensures forall k :: k != TokenKey && k != RoleKey ==> (k in r <==> k in entries)
    ensures forall k :: k in r ==> r[k] == entries[k]
  {
    entries - {TokenKey} - {RoleKey}
  }

  lemma WithoutSessionIdempotent(entries: map<string, string>)
    ensures WithoutSession(WithoutSession(entries)) == WithoutSession(entries)
  {
  }

  class TokenStore {
    var entries: map<string, string>

    constructor (initial: map<string, string>)
      ensures entries == initial
    {
      entries := initial;
    }

    /** `localStorage.getItem(key)`. */
    function Get(key: string): Option<string>
      reads this
    {
      GetItem(entries, key)
    }

    /** `localStorage.setItem(key, value)`. */
    method SetItem(key: string, value: string)
      modifies this
      ensures entries == old(entries)[key := value]
    {
      entries := entries[key := value];
    }

    /** `localStorage.removeItem(key)`; removing a missing key changes nothing. */
    method RemoveItem(key: string)
      modifies this
      ensures entries == old(entries) - {key}
    {
      entries := entries - {key};
    }
  }
}
