/** The browser globals the client touches: `localStorage` and `window.location`. */
module Browser {
  import opened Common

  /** The key under which the session record is persisted. */
  const AuthKey := "ai-study-auth"

  /** The identity the client keeps: `{email}`. */
  datatype User = User(email: string)

  /** The JSON object the session store writes: `{user: {email}, token}`; either member may be
      missing from a record written by someone else. */
  datatype AuthRecord = AuthRecord(user: Option<User>, token: Option<string>)

  /** A `localStorage` value: text that `JSON.parse` turns into an object, or text that cannot
      be read as a record, either because `JSON.parse` rejects it or because it parses to `null`,
      whose `.user` read throws just the same. `Unparsable("")` is the empty string, the one
      stored value that is falsy. */
  datatype Stored = Json(record: AuthRecord) | Unparsable(text: string)

  predicate StoredTruthy(v: Stored)
  {
    v != Unparsable("")
  }

  /** `localStorage.getItem(key)`: `null` for a missing key. */
  function GetItem(storage: map<string, Stored>, key: string): (r: Option<Stored>)
    ensures r.Some? <==> key in storage
    ensures r.Some? ==> r.value == storage[key]
  {
    if key in storage then Some(storage[key]) else None
  }

  /** The two browser globals, as one value. */
  datatype BrowserState = BrowserState(storage: map<string, Stored>, location: string)

  class Window {
    var storage: map<string, Stored>
    var location: string

    constructor (storage: map<string, Stored>, location: string)
      ensures this.storage == storage && this.location == location
    {
      this.storage := storage;
      this.location := location;
    }

    function State(): BrowserState
      reads this
    {
      BrowserState(storage, location)
    }
  }
}
