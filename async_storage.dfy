/**
 * The device's key-value store as the app reaches it through its storage
 * wrapper: string keys to string values, where writing `null` or
 * `undefined` deletes the key instead of storing it.
 */
module AsyncStorage {
  import opened Wrappers

  /** What `getItem(key)` yields from the store's contents: the value, or null. */
  function Lookup(entries: map<string, string>, key: string): (r: Option<string>)
    ensures r.Some? <==> key in entries
    ensures r.Some? ==> r.value == entries[key]
  {
    if key in entries then Some(entries[key]) else None
  }

  /** The contents after `setItem(key, value)`: a null value deletes, a string is stored. */
  function Put(entries: map<string, string>, key: string, value: Option<string>): (r: map<string, string>)
    ensures Lookup(r, key) == value
    ensures forall k :: k != key ==> Lookup(r, k) == Lookup(entries, k)
    ensures r.Keys <= entries.Keys + {key}
  {
    match value
    case None => entries - {key}
    case Some(v) => entries[key := v]
  }

  /** The contents after `removeItem(key)`. */
  function Erase(entries: map<string, string>, key: string): (r: map<string, string>)
    ensures Lookup(r, key) == None
    ensures forall k :: k != key ==> Lookup(r, k) == Lookup(entries, k)
  {
    entries - {key}
  }

  /** Storing null is the same as removing the key. */
  lemma PutNullIsErase(entries: map<string, string>, key: string)
    ensures Put(entries, key, None) == Erase(entries, key)
  {
  }

  /** JavaScript truthiness of a `getItem` result: present and not the empty string. */
  predicate Truthy(v: Option<string>)
  {
    v.Some? && v.value != ""
  }

  /** The persistent store shared by the session, favourites and theme code. */
  class KeyValueStore {
    var entries: map<string, string>

    /** A store holding the given contents. */
    constructor (initial: map<string, string>)
      ensures entries == initial
    {
      entries := initial;
    }

    /** Writes `value` under `key`, or deletes `key` when `value` is null. */
    method SetItem(key: string, value: Option<string>)
      modifies this
      ensures entries == Put(old(entries), key, value)
    {
      if value.None? {
        entries := entries - {key};
      } else {
        entries := entries[key := value.value];
      }
    }

    /** The value stored under `key`, or null. */
    method GetItem(key: string) returns (r: Option<string>)
      ensures r.Some? <==> key in entries
      ensures r.Some? ==> r.value == entries[key]
    {
      if key in entries {
        r := Some(entries[key]);
      } else {
        r := None;
      }
    }

    /** Deletes `key`; other keys keep their values. */
    method RemoveItem(key: string)
      modifies this
      ensures entries == Erase(old(entries), key)
    {
      entries := entries - {key};
    }

    /** Deletes every key. */
    method Clear()
      modifies this
      ensures forall k :: Lookup(entries, k) == None
    {
      entries := map[];
    }
  }
}
