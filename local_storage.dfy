/**
 * The browser's `localStorage` as the two e-mail components use it: a map
 * from keys to texts, read with `getItem` (null for a missing key) and
 * written with `setItem`.
 */
module LocalStorage {
  import opened Wrappers

  type Storage = map<string, string>

  /** `localStorage.getItem(key)`: the stored text, or null when the key is missing. */
  function GetItem(s: Storage, key: string): (v: Option<string>)
    ensures v.Some? <==> key in s
    ensures v.Some? ==> v.value == s[key]
  {
    if key in s then Some(s[key]) else None
  }

  /** `localStorage.setItem(key, value)`: that key now reads `value`, every other key as before. */
  function SetItem(s: Storage, key: string, value: string): (t: Storage)
    ensures GetItem(t, key) == Some(value)
    ensures forall k :: k != key ==> GetItem(t, k) == GetItem(s, k)
  {
    s[key := value]
  }
}
