/**
 * The browser's `localStorage`: a string-to-string map with `getItem`,
 * `setItem` and `removeItem`.  The pure functions describe the map; the
 * `Storage` class is the one mutable store the utilities write to.
 */
module Browser {
  import opened Wrappers

  type Items = map<string, string>

  // `getItem(key)` on the contents is `Lookup(items, key)`: the stored string, or `null`.

  /** `setItem(key, value)`: `key` now maps to `value`; every other key reads as before. */
  function Put(items: Items, key: string, value: string): (r: Items)
    ensures Lookup(r, key) == Some(value)
    ensures forall k :: k != key ==> Lookup(r, k) == Lookup(items, k)
    ensures r.Keys == items.Keys + {key}
  {
    items[key := value]
  }

  /** `removeItem(key)`: `key` now reads as `null`; every other key reads as before. */
  function Delete(items: Items, key: string): (r: Items)
    ensures Lookup(r, key) == None
    ensures forall k :: k != key ==> Lookup(r, k) == Lookup(items, k)
    ensures r.Keys == items.Keys - {key}
  {
    items - {key}
  }

  /** The page's `localStorage` object. */
  class Storage {
    var items: Items

    constructor (initial: Items)
      ensures items == initial
    {
      items := initial;
    }

    function GetItem(key: string): (r: Option<string>)
      reads this
      ensures r == Lookup(items, key)
    {
      Lookup(items, key)
    }

    method SetItem(key: string, value: string)
      modifies this
      ensures items == Put(old(items), key, value)
    {
      items := Put(items, key, value);
    }

    method RemoveItem(key: string)
      modifies this
      ensures items == Delete(old(items), key)
    {
      items := Delete(items, key);
    }
  }
}
