/** The browser globals the client and the pages touch: `localStorage`, the
    router's current path and `window.location.href`. */
module Browser {
  import opened Wrappers

  /** The persisted key/value store. */
  type Storage = map<string, string>

  const AccessKey := "access_token"
  const RefreshKey := "refresh_token"
  const UsernameKey := "username"

  /** `localStorage.getItem(key)`: null (`None`) when the key is absent. */
  function Item(storage: Storage, key: string): (r: Option<string>)
    ensures r.Some? <==> key in storage
    ensures r.Some? ==> r.value == storage[key]
  {
    if key in storage then Some(storage[key]) else None
  }

  class Window {
    /** `localStorage`. */
    var storage: Storage
    /** The path the router shows (`navigate(path)`). */
    var route: string
    /** The last full-page redirect (`window.location.href = path`), if any. */
    var href: Option<string>

    constructor (storage: Storage, route: string)
      ensures this.storage == storage && this.route == route && href == None
    {
      this.storage := storage;
      this.route := route;
      href := None;
    }

    method GetItem(key: string) returns (v: Option<string>)
      ensures v == Item(storage, key)
    {
      v := if key in storage then Some(storage[key]) else None;
    }

    method SetItem(key: string, value: string)
      modifies this`storage
      ensures storage == old(storage)[key := value]
    {
      storage := storage[key := value];
    }

    method RemoveItem(key: string)
      modifies this`storage
      ensures storage == old(storage) - {key}
    {
      storage := storage - {key};
    }

    method Navigate(path: string)
      modifies this`route
      ensures route == path
    {
      route := path;
    }

    method Redirect(path: string)
      modifies this`href
      ensures href == Some(path)
    {
      href := Some(path);
    }
  }
}
