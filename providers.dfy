/** Start-up of the session: `AuthInitializer` looks for a stored access
    token and, when there is one, loads the current user before it stops
    the loading state. */
module Providers {
  import opened Remote
  import opened TokenStore
  import opened AuthSlice
  import ProtectedRoute

  /** Whether `getCurrentUser` ends fulfilled from `storage`: the first
      fetch succeeds, or a refresh stores a new access token and the
      retried fetch succeeds. */
  predicate FetchSucceeds(storage: Storage, first: Reply<User>, refresh: Reply<RefreshResponse>, retry: Reply<User>)
  {
    Present(storage, AccessKey) &&
    (first.Ok? || (Present(storage, RefreshKey) && refresh.Ok? && refresh.value.access != "" && retry.Ok?))
  }

  /** `initAuth`. The three replies are those `getCurrentUser` would see;
      `outcome` is how the dispatched `getCurrentUser` settled, `None` when
      no access token was stored and nothing was dispatched. */
  method InitAuth(store: AuthStore, first: Reply<User>, refresh: Reply<RefreshResponse>, retry: Reply<User>)
    returns (outcome: Option<Settled<User>>)
    requires store.Valid()
    modifies store
    ensures store.Valid()
    ensures outcome.Some? <==> Present(old(store.storage), AccessKey)
    ensures outcome.None? ==>
      store.state == old(store.state).(isLoading := false) && store.storage == old(store.storage)
    ensures outcome.Some? ==>
      (outcome.value.Fulfilled? <==> FetchSucceeds(old(store.storage), first, refresh, retry))
    ensures outcome.Some? && outcome.value.Fulfilled? ==>
      && outcome.value.value == (if first.Ok? then first.value else retry.value)
      && store.state == AuthState(Some(outcome.value.value), true, false, None)
      && store.storage == (if first.Ok? then old(store.storage) else old(store.storage)[AccessKey := refresh.value.access])
    ensures outcome.Some? && outcome.value.Rejected? ==>
      && store.state == old(store.state).(user := None, isAuthenticated := false, isLoading := false)
      && store.storage == ClearTokens(old(store.storage))
    ensures !store.state.isLoading
    ensures ProtectedRoute.Render(store.state.isLoading, store.state.isAuthenticated) != ProtectedRoute.LoadingScreen
  {
    if !Present(store.storage, AccessKey) {
      store.Dispatch(SetLoading(false));
      return None;
    }
    var settled, _, _ := store.GetCurrentUser(first, refresh, retry);
    if settled.Fulfilled? {
      store.Dispatch(SetLoading(false));
    }
    // A rejected `unwrap()` lands in the catch block, which only logs.
    outcome := Some(settled);
  }
}
