/** The browser surfaces the core touches: Web Storage (`localStorage`,
    `sessionStorage`), `window.open` and `alert`. */
module Browser {
  import opened Wrappers

  /** `getItem` on the items of a storage area: null when the key is absent. */
  function Lookup(items: map<string, string>, key: string): (r: Option<string>)
    ensures r.Some? <==> key in items
    ensures r.Some? ==> r.value == items[key]
  {
    if key in items then Some(items[key]) else None
  }

  /** A Web Storage area. Every value is a string: `setItem` converts whatever
      it is given with `String(value)`. */
  class WebStorage {
    var items: map<string, string>

    constructor (items: map<string, string>)
      ensures this.items == items
    {
      this.items := items;
    }

    function GetItem(key: string): Option<string>
      reads this
    {
      Lookup(items, key)
    }

    method SetItem(key: string, value: string)
      modifies this
      ensures items == old(items)[key := value]
      ensures GetItem(key) == Some(value)
      ensures forall k :: k != key ==> GetItem(k) == old(GetItem(k))
    {
      items := items[key := value];
    }
  }

  /** A `window.open(url, target, "width=…,height=…")` call. */
  datatype Popup = Popup(url: string, target: string, width: int, height: int)

  /** The externally visible effects of a click, in the order they happen. */
  datatype Effect =
    | Alert(message: string)
    | StorageWrite(key: string, value: string)
    | OpenWindow(popup: Popup)

  /** The page a component runs in: its location, its session storage and the
      effects performed so far. */
  class Window {
    const origin: string
    const pathname: string
    const search: string
    const sessionStorage: WebStorage
    var effects: seq<Effect>

    constructor (origin: string, pathname: string, search: string, sessionStorage: WebStorage)
      ensures this.origin == origin && this.pathname == pathname && this.search == search
      ensures this.sessionStorage == sessionStorage && effects == []
    {
      this.origin := origin;
      this.pathname := pathname;
      this.search := search;
      this.sessionStorage := sessionStorage;
      effects := [];
    }

    method Alert(message: string)
      modifies this
      ensures effects == old(effects) + [Effect.Alert(message)]
    {
      effects := effects + [Effect.Alert(message)];
    }

    method Open(popup: Popup)
      modifies this
      ensures effects == old(effects) + [OpenWindow(popup)]
    {
      effects := effects + [OpenWindow(popup)];
    }

    /** `sessionStorage.setItem(key, value)` */
    method StoreInSession(key: string, value: string)
      modifies this, sessionStorage
      ensures sessionStorage.items == old(sessionStorage.items)[key := value]
      ensures effects == old(effects) + [StorageWrite(key, value)]
    {
      sessionStorage.SetItem(key, value);
      effects := effects + [StorageWrite(key, value)];
    }
  }
}
