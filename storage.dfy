/**
 * The browser's `localStorage` for the site's origin: a string-to-string
 * store whose `getItem` answers `null` for a missing key and whose
 * `setItem` overwrites (last write wins).  Storage that throws is not part
 * of this model: the source never catches such an exception.
 */
module Storage {
  import opened Wrappers

  /** `localStorage.getItem(key)` on the store's contents `m`. */
  function Get(m: map<string, string>, key: string): (r: Option<string>)
    ensures r.Some? <==> key in m
    ensures r.Some? ==> r.value == m[key]
  {
    if key in m then Some(m[key]) else None
  }

  /** JavaScript truthiness of a string that may be `null`: neither `null` nor `""`. */
  predicate Truthy(v: Option<string>)
  {
    v.Some? && v.value != ""
  }

  class LocalStorage {
    var items: map<string, string>

    constructor (initial: map<string, string>)
      ensures items == initial
    {
      items := initial;
    }

    method GetItem(key: string) returns (v: Option<string>)
      ensures v == Get(items, key)
    {
      v := if key in items then Some(items[key]) else None;
    }

    method SetItem(key: string, value: string)
      modifies this
      ensures items == old(items)[key := value]
    {
      items := items[key := value];
    }
  }
}
