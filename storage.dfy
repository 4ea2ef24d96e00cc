/**
 * The browser's `localStorage`: a string-to-string store shared by the
 * session provider and the login form.
 */
module Storage {
  import opened Outcomes

  class LocalStorage {
    var items: map<string, string>

    constructor ()
      ensures items == map[]
    {
      items := map[];
    }

    /** `getItem(k)`: the stored string, or null when nothing is stored. */
    function GetItem(k: string): (r: Option<string>)
      reads this
      ensures r.Some? <==> k in items
      ensures r.Some? ==> r.value == items[k]
    {
      if k in items then Some(items[k]) else None
    }

    /** `setItem(k, v)`: stores `v` under `k` and nothing else changes. */
    method SetItem(k: string, v: string)
      modifies this
      ensures items == old(items)[k := v]
    {
      items := items[k := v];
    }

    /** `removeItem(k)`: drops `k` and nothing else changes. */
    method RemoveItem(k: string)
      modifies this
      ensures items == old(items) - {k}
    {
      items := items - {k};
    }
  }
}
