/**
 * AsyncStorage, the durable key-value store the session token lives in,
 * as an object holding a map of strings. A failing `getItem` is chosen by
 * the caller (an oracle); writes always succeed.
 */
module Storage {
  import opened JsValues

  /** APP_CONSTANTS.AUTH_TOKEN_KEY: the one key this client persists. */
  const AuthTokenKey: string := "auth_token"

  datatype StorageError = ReadFailed

  /** What `getItem` resolves to when it succeeds: the value, or null for a missing key. */
  function Lookup(items: map<string, string>, key: string): Option<string>
  {
    if key in items then Some(items[key]) else None
  }

  /** The outcome of reading the token: a rejected promise when `fails`, the lookup otherwise. */
  function ReadToken(items: map<string, string>, fails: bool): (r: Result<Option<string>, StorageError>)
    ensures r.Err? <==> fails
    ensures r.Ok? ==> (r.value.Some? <==> AuthTokenKey in items)
    ensures r.Ok? && AuthTokenKey in items ==> r.value.value == items[AuthTokenKey]
  {
    if fails then Err(ReadFailed) else Ok(Lookup(items, AuthTokenKey))
  }

  class Store {
    var items: map<string, string>

    /** The store as the previous run of the application left it. */
    constructor (persisted: map<string, string>)
      ensures items == persisted
    {
      items := persisted;
    }

    method GetItem(key: string, fails: bool) returns (r: Result<Option<string>, StorageError>)
      ensures fails ==> r == Err(ReadFailed)
      ensures !fails ==> r.Ok? && (r.value.Some? <==> key in items)
      ensures !fails && key in items ==> r.value.value == items[key]
    {
      if fails {
        r := Err(ReadFailed);
      } else {
        r := Ok(Lookup(items, key));
      }
    }

    method SetItem(key: string, value: string)
      modifies this
      ensures items == old(items)[key := value]
    {
      items := items[key := value];
    }

    method RemoveItem(key: string)
      modifies this
      ensures items == old(items) - {key}
    {
      items := items - {key};
    }
  }
}
