/** The browser environment the persistence helpers run in: whether a `window` exists
    (it does not during server-side rendering) and the `localStorage` string table. */
module BrowserStorage {
  import opened Wrappers

  /** `getItem(key)` on a store held as a map: the stored string, or `null`. */
  function Lookup(store: map<string, string>, key: string): (r: Option<string>)
    ensures r.Some? <==> key in store
    ensures r.Some? ==> r.value == store[key]
  {
    if key in store then Some(store[key]) else None
  }

  class Browser {
    /** `typeof window !== "undefined"`. */
    const hasWindow: bool
    /** The contents of `localStorage`. */
    var localStorage: map<string, string>

    constructor (hasWindow: bool, localStorage: map<string, string>)
      ensures this.hasWindow == hasWindow && this.localStorage == localStorage
    {
      this.hasWindow := hasWindow;
      this.localStorage := localStorage;
    }

    /** `localStorage.getItem(key)`: the stored string, or `null`. */
    function GetItem(key: string): (r: Option<string>)
      requires hasWindow
      reads this
      ensures r == Lookup(localStorage, key)
    {
      Lookup(localStorage, key)
    }

    /** `localStorage.setItem(key, value)`. */
    method SetItem(key: string, value: string)
      requires hasWindow
      modifies this
      ensures localStorage == old(localStorage)[key := value]
    {
      localStorage := localStorage[key := value];
    }

    /** `localStorage.removeItem(key)`. */
    method RemoveItem(key: string)
      requires hasWindow
      modifies this
      ensures localStorage == old(localStorage) - {key}
    {
      localStorage := localStorage - {key};
    }
  }
}
