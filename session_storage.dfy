/**
 * The page's `sessionStorage` as the onboarding helper uses it: a map from
 * string keys to string values, read with `getItem` and tested for
 * JavaScript truthiness.
 */
module SessionStorage {

  import opened Wrappers

  type Storage = map<string, string>

  /** `sessionStorage.getItem(key)`: the stored string, or `null` (None) when the key is absent. */
  function GetItem(storage: Storage, key: string): Option<string>
  {
    if key in storage then Some(storage[key]) else None
  }

  /** JavaScript truthiness of a `getItem` result: `null` and `""` are falsy, every other string is truthy. */
  predicate Truthy(v: Option<string>)
  {
    v.Some? && v.value != ""
  }

  /** `String(b)`, which is what `setItem` stores when it is handed a boolean. */
  function BoolString(b: bool): (s: string)
    ensures s != ""
  {
    if b then "true" else "false"
  }

  /**
   * `getItem` after `setItem`: the key just written reads back as the value
   * written, and every other key reads as before.
   */
  lemma GetAfterSet(storage: Storage, key: string, value: string, other: string)
    ensures GetItem(storage[key := value], key) == Some(value)
    ensures other != key ==> GetItem(storage[key := value], other) == GetItem(storage, other)
  {
  }

  /** A key just written is truthy exactly when the string written is non-empty. */
  lemma TruthyAfterSet(storage: Storage, key: string, value: string)
    ensures Truthy(GetItem(storage[key := value], key)) <==> value != ""
  {
  }

  /** Whatever boolean is stored under a key, reading that key back is truthy: even `false` is stored as "false". */
  lemma StoredBoolIsTruthy(storage: Storage, key: string, b: bool)
    ensures GetItem(storage[key := BoolString(b)], key) == Some(BoolString(b))
    ensures Truthy(GetItem(storage[key := BoolString(b)], key))
  {
  }
}
