/** The browser's localStorage: a map from keys to text. Values written with
    setItem are converted to text the way String(v) converts them. */
module WebStorage {
  import opened JsValue

  class LocalStorage {
    var items: map<string, string>

    constructor (initial: map<string, string>)
      ensures items == initial
    {
      items := initial;
    }

    /** `localStorage.getItem(k)`: the stored text, or null when the key is absent. */
    function GetItem(k: string): (r: Val)
      reads this
      ensures r.Null? <==> k !in items
      ensures k in items ==> r == Str(items[k])
    {
      if k in items then Str(items[k]) else Null
    }

    /** `localStorage.setItem(k, v)` */
    method SetItem(k: string, v: Val)
      modifies this
      ensures items == old(items)[k := ToJsString(v)]
    {
      items := items[k := ToJsString(v)];
    }

    /** `localStorage.removeItem(k)`; removing an absent key changes nothing. */
    method RemoveItem(k: string)
      modifies this
      ensures items == old(items) - {k}
    {
      items := items - {k};
    }
  }
}
