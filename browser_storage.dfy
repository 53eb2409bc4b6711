/**
 * The browser's `localStorage`: a durable string-to-string store that the
 * page reads and writes in place, one key at a time.
 */
module BrowserStorage {

  import opened Wrappers

  /** `getItem` on a snapshot of the store: the stored string, or null. */
  function Lookup(items: map<string, string>, key: string): (v: Option<string>)
    ensures v.Some? <==> key in items
    ensures v.Some? ==> v.value == items[key]
  {
    if key in items then Some(items[key]) else None
  }

  class LocalStorage {
    var items: map<string, string>

    /** The store as the page finds it on load: whatever earlier visits left. */
    constructor (persisted: map<string, string>)
      ensures items == persisted
    {
      items := persisted;
    }

    method GetItem(key: string) returns (v: Option<string>)
      ensures v == Lookup(items, key)
    {
      v := if key in items then Some(items[key]) else None;
    }

    method SetItem(key: string, value: string)
      modifies this
      ensures items == old(items)[key := value]
    {
      items := items[key := value];
    }

    method RemoveItem(key: string)
      modifies this
      ensures items == old(items) - {key}
    {
      items := items - {key};
    }
  }
}
