/** The browser's `localStorage` as far as the application uses it: a map
    from keys to strings, read with `getItem` and changed with `setItem` and
    `removeItem`. */
module TokenStore {
  import opened Remote

  type Storage = map<string, string>

  const AccessKey: string := "accessToken"
  const RefreshKey: string := "refreshToken"

  /** `localStorage.getItem(key)`: the stored string, or null when absent. */
  function GetItem(store: Storage, key: string): (r: Option<string>)
    ensures r.Some? <==> key in store
    ensures r.Some? ==> r.value == store[key]
  {
    if key in store then Some(store[key]) else None
  }

  /** The guard `if (token)` on a `getItem` result: null and "" are both falsy. */
  predicate Present(store: Storage, key: string)
  {
    GetItem(store, key).Some? && GetItem(store, key).value != ""
  }

  /** Both tokens removed, every other key kept. */
  function ClearTokens(store: Storage): (r: Storage)
    ensures AccessKey !in r && RefreshKey !in r
    ensures forall k :: k in store && k != AccessKey && k != RefreshKey ==> k in r && r[k] == store[k]
    ensures forall k :: k in r ==> k in store
  {
    store - {AccessKey, RefreshKey}
  }

  lemma ClearedStoreHasNoTokens(store: Storage)
    ensures !Present(ClearTokens(store), AccessKey) && !Present(ClearTokens(store), RefreshKey)
  {
  }
}
