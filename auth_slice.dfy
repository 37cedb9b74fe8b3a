/** The authentication slice of the Redux store: the session state, the
    reducer that handles each action, and the five asynchronous thunks
    (login, register, logout, refreshToken, getCurrentUser), which also write
    the token pair into the browser storage. Each thunk is one atomic step:
    it dispatches its `pending` action, runs its body against the replies of
    the remote calls (given as parameters) and dispatches `fulfilled` or
    `rejected`. */
module AuthSlice {
  import opened Remote
  import opened TokenStore

  datatype User = User(id: string, username: string, email: string)

  datatype AuthState = AuthState(
    user: Option<User>,
    isAuthenticated: bool,
    isLoading: bool,
    error: Option<string>)

  datatype LoginResponse = LoginResponse(access: string, refresh: string, user: User)

  datatype RefreshResponse = RefreshResponse(access: string)

  datatype RegisterData = RegisterData(
    username: string,
    email: string,
    password: string,
    passwordConfirmation: string)

  /** The state the store starts in: nobody signed in, still loading. */
  const InitialState: AuthState := AuthState(None, false, true, None)

  /** Every action the slice can see: its two plain reducers and the three
      lifecycle actions of each thunk. */
  datatype Action =
    | ClearError
    | SetLoading(loading: bool)
    | LoginPending | LoginFulfilled(login: LoginResponse) | LoginRejected(reason: string)
    | RegisterPending | RegisterFulfilled | RegisterRejected(reason: string)
    | LogoutPending | LogoutFulfilled | LogoutRejected(reason: string)
    | GetCurrentUserPending | GetCurrentUserFulfilled(current: User) | GetCurrentUserRejected(reason: string)
    | RefreshTokenPending | RefreshTokenFulfilled(refreshed: RefreshResponse) | RefreshTokenRejected(reason: string)

  /** A cached user is only ever held by an authenticated session. The
      converse does not hold: a successful refresh authenticates without
      fetching the user. */
  predicate SessionInvariant(s: AuthState)
  {
    s.user.Some? ==> s.isAuthenticated
  }

  /** The slice reducer: `reducers` and `extraReducers` together. Actions
      without a case leave the state as it is. */
  function Reduce(s: AuthState, a: Action): (r: AuthState)
    ensures SessionInvariant(s) ==> SessionInvariant(r)
  {
    match a
    case ClearError => s.(error := None)
    case SetLoading(b) => s.(isLoading := b)
    case LoginPending => s.(isLoading := true, error := None)
    case LoginFulfilled(response) =>
      s.(isLoading := false, isAuthenticated := true, user := Some(response.user), error := None)
    case LoginRejected(reason) => s.(isLoading := false, error := Some(reason))
    case RegisterPending => s.(isLoading := true, error := None)
    case RegisterFulfilled => s.(isLoading := false, error := None)
    case RegisterRejected(reason) => s.(isLoading := false, error := Some(reason))
    case LogoutPending => s
    case LogoutFulfilled => s.(user := None, isAuthenticated := false, error := None)
    case LogoutRejected(_) => s
    case GetCurrentUserPending => s.(isLoading := true)
    case GetCurrentUserFulfilled(u) =>
      s.(isLoading := false, isAuthenticated := true, user := Some(u), error := None)
    case GetCurrentUserRejected(_) => s.(isLoading := false, isAuthenticated := false, user := None)
    case RefreshTokenPending => s
    case RefreshTokenFulfilled(_) => s.(isAuthenticated := true)
    case RefreshTokenRejected(_) => s.(isAuthenticated := false, user := None)
  }

  datatype Field = UserField | AuthenticatedField | LoadingField | ErrorField

  /** The fields each reducer case assigns, read off the case bodies. */
  function Writes(a: Action): set<Field>
  {
    match a
    case ClearError => {ErrorField}
    case SetLoading(_) => {LoadingField}
    case LoginPending => {LoadingField, ErrorField}
    case LoginFulfilled(_) => {UserField, AuthenticatedField, LoadingField, ErrorField}
    case LoginRejected(_) => {LoadingField, ErrorField}
    case RegisterPending => {LoadingField, ErrorField}
    case RegisterFulfilled => {LoadingField, ErrorField}
    case RegisterRejected(_) => {LoadingField, ErrorField}
    case LogoutPending => {}
    case LogoutFulfilled => {UserField, AuthenticatedField, ErrorField}
    case LogoutRejected(_) => {}
    case GetCurrentUserPending => {LoadingField}
    case GetCurrentUserFulfilled(_) => {UserField, AuthenticatedField, LoadingField, ErrorField}
    case GetCurrentUserRejected(_) => {UserField, AuthenticatedField, LoadingField}
    case RefreshTokenPending => {}
    case RefreshTokenFulfilled(_) => {AuthenticatedField}
    case RefreshTokenRejected(_) => {UserField, AuthenticatedField}
  }

  /** `r` agrees with `s` on every field outside `fs`. */
  predicate AgreeOutside(s: AuthState, r: AuthState, fs: set<Field>)
  {
    && (UserField !in fs ==> r.user == s.user)
    && (AuthenticatedField !in fs ==> r.isAuthenticated == s.isAuthenticated)
    && (LoadingField !in fs ==> r.isLoading == s.isLoading)
    && (ErrorField !in fs ==> r.error == s.error)
  }

  /** No reducer case touches a field it does not assign. */
  lemma ReduceWritesOnlyItsFields(s: AuthState, a: Action)
    ensures AgreeOutside(s, Reduce(s, a), Writes(a))
  {
  }

  /** `clearError` changes only `error`, `setLoading(b)` changes only `isLoading`. */
  lemma PlainReducers(s: AuthState, b: bool)
    ensures Reduce(s, ClearError) == s.(error := None)
    ensures Reduce(s, SetLoading(b)) == s.(isLoading := b)
  {
    ReduceWritesOnlyItsFields(s, ClearError);
    ReduceWritesOnlyItsFields(s, SetLoading(b));
  }

  /** The actions the slice has no case for are no-ops. */
  lemma UnhandledActionsAreNoOps(s: AuthState, a: Action)
    requires a.LogoutPending? || a.LogoutRejected? || a.RefreshTokenPending?
    ensures Reduce(s, a) == s
  {
  }

  /** Every settling action of login, register and getCurrentUser ends loading. */
  lemma SettlingEndsLoading(s: AuthState, a: Action)
    requires a.LoginFulfilled? || a.LoginRejected? || a.RegisterFulfilled? || a.RegisterRejected?
          || a.GetCurrentUserFulfilled? || a.GetCurrentUserRejected?
    ensures !Reduce(s, a).isLoading
  {
  }

  /** The Redux store restricted to this slice, together with the browser
      storage that the thunks read and write. */
  class AuthStore {
    var state: AuthState
    var storage: Storage

    ghost predicate Valid()
      reads this
    {
      SessionInvariant(state)
    }

    /** A fresh store over whatever the storage already holds. */
    constructor (stored: Storage)
      ensures Valid()
      ensures state == InitialState && storage == stored
    {
      state := InitialState;
      storage := stored;
    }

    /** `dispatch` of a plain action: the reducer replaces the state. */
    method Dispatch(a: Action)
      requires Valid()
      modifies this`state
      ensures Valid()
      ensures state == Reduce(old(state), a)
    {
      state := Reduce(state, a);
    }

    /** The `login` thunk; `reply` is the outcome of the remote login call. */
    method Login(reply: Reply<LoginResponse>) returns (outcome: Settled<LoginResponse>)
      requires Valid()
      modifies this
      ensures Valid()
      ensures reply.Ok? ==>
        && outcome == Fulfilled(reply.value)
        && storage == old(storage)[AccessKey := reply.value.access][RefreshKey := reply.value.refresh]
        && state == AuthState(Some(reply.value.user), true, false, None)
      ensures reply.Fail? ==>
        && outcome == Rejected(MessageOr(reply.msg, "Login failed"))
        && storage == old(storage)
        && state == old(state).(isLoading := false, error := Some(outcome.reason))
    {
      Dispatch(LoginPending);
      match reply
      case Ok(response) =>
        storage := storage[AccessKey := response.access];
        storage := storage[RefreshKey := response.refresh];
        outcome := Fulfilled(response);
        Dispatch(LoginFulfilled(response));
      case Fail(msg) =>
        outcome := Rejected(MessageOr(msg, "Login failed"));
        Dispatch(LoginRejected(outcome.reason));
    }

    /** The `register` thunk; `data` is sent unchanged to the remote call
        whose outcome is `reply`. */
    method Register(data: RegisterData, reply: Reply<()>) returns (outcome: Settled<()>)
      requires Valid()
      modifies this
      ensures Valid()
      ensures storage == old(storage)
      ensures state.user == old(state).user && state.isAuthenticated == old(state).isAuthenticated
      ensures !state.isLoading
      ensures outcome.Fulfilled? <==> reply.Ok?
      ensures reply.Ok? ==> state.error == None
      ensures reply.Fail? ==>
        && outcome == Rejected(MessageOr(reply.msg, "Registration failed"))
        && state.error == Some(outcome.reason)
      ensures state == old(state).(isLoading := false,
                                   error := if reply.Ok? then None else Some(MessageOr(reply.msg, "Registration failed")))
    {
      Dispatch(RegisterPending);
      match reply
      case Ok(_) =>
        outcome := Fulfilled(());
        Dispatch(RegisterFulfilled);
      case Fail(msg) =>
        outcome := Rejected(MessageOr(msg, "Registration failed"));
        Dispatch(RegisterRejected(outcome.reason));
    }

    /** The `logout` thunk. The remote call is made only when a refresh
        token is stored (`called`); `reply` is its outcome. */
    method Logout(reply: Reply<()>) returns (outcome: Settled<()>, called: bool)
      requires Valid()
      modifies this
      ensures Valid()
      ensures called <==> Present(old(storage), RefreshKey)
      ensures storage == ClearTokens(old(storage))
      ensures outcome.Fulfilled? <==> !called || reply.Ok?
      ensures outcome.Fulfilled? ==>
        state == old(state).(user := None, isAuthenticated := false, error := None)
      ensures outcome.Rejected? ==>
        && outcome.reason == MessageOr(reply.msg, "Logout failed")
        && state == old(state)
    {
      Dispatch(LogoutPending);
      called := Present(storage, RefreshKey);
      if called && reply.Fail? {
        storage := ClearTokens(storage);
        outcome := Rejected(MessageOr(reply.msg, "Logout failed"));
        Dispatch(LogoutRejected(outcome.reason));
      } else {
        storage := ClearTokens(storage);
        outcome := Fulfilled(());
        Dispatch(LogoutFulfilled);
      }
    }

    /** The `refreshToken` thunk. Without a stored refresh token it fails
        before any remote call (`called` is false). */
    method RefreshToken(reply: Reply<RefreshResponse>) returns (outcome: Settled<RefreshResponse>, called: bool)
      requires Valid()
      modifies this
      ensures Valid()
      ensures called <==> Present(old(storage), RefreshKey)
      ensures outcome.Fulfilled? <==> called && reply.Ok?
      ensures outcome.Fulfilled? ==>
        && outcome.value == reply.value
        && storage == old(storage)[AccessKey := reply.value.access]
        && state == old(state).(isAuthenticated := true)
      ensures outcome.Rejected? ==>
        && outcome.reason == (if called then MessageOr(reply.msg, "Token refresh failed") else "No refresh token")
        && storage == ClearTokens(old(storage))
        && state == old(state).(isAuthenticated := false, user := None)
    {
      Dispatch(RefreshTokenPending);
      called := Present(storage, RefreshKey);
      if !called {
        storage := ClearTokens(storage);
        outcome := Rejected("No refresh token");
      } else {
        match reply
        case Ok(response) =>
          storage := storage[AccessKey := response.access];
          outcome := Fulfilled(response);
        case Fail(msg) =>
          storage := ClearTokens(storage);
          outcome := Rejected(MessageOr(msg, "Token refresh failed"));
      }
      if outcome.Fulfilled? {
        Dispatch(RefreshTokenFulfilled(outcome.value));
      } else {
        Dispatch(RefreshTokenRejected(outcome.reason));
      }
    }

    /** The `getCurrentUser` thunk: fetch the profile with the stored access
        token; if that fails, dispatch `refreshToken` once and fetch once
        more. `first`, `refresh` and `retry` are the outcomes of those three
        remote calls; `userCalls` and `refreshCalls` count the calls made. A
        profile fetch is only sent with a non-empty access token. */
    method GetCurrentUser(first: Reply<User>, refresh: Reply<RefreshResponse>, retry: Reply<User>)
      returns (outcome: Settled<User>, userCalls: nat, refreshCalls: nat)
      requires Valid()
      modifies this
      ensures Valid()
      ensures userCalls <= 2 && refreshCalls <= 1
      ensures Present(old(storage), AccessKey) && first.Ok? ==>
        && outcome == Fulfilled(first.value)
        && storage == old(storage)
        && userCalls == 1 && refreshCalls == 0
      ensures !(Present(old(storage), AccessKey) && first.Ok?) ==>
        && refreshCalls == (if Present(old(storage), RefreshKey) then 1 else 0)
        && userCalls == (if Present(old(storage), AccessKey) then 1 else 0)
                        + (if Present(old(storage), RefreshKey) && refresh.Ok? && refresh.value.access != "" then 1 else 0)
        && (if Present(old(storage), RefreshKey) && refresh.Ok? && refresh.value.access != "" && retry.Ok?
            then outcome == Fulfilled(retry.value) && storage == old(storage)[AccessKey := refresh.value.access]
            else outcome.Rejected? && storage == ClearTokens(old(storage)))
      ensures outcome.Fulfilled? ==> state == AuthState(Some(outcome.value), true, false, None)
      ensures outcome.Rejected? ==>
        state == old(state).(user := None, isAuthenticated := false, isLoading := false)
      ensures outcome.Rejected? ==>
        outcome.reason == MessageOr(if Present(old(storage), AccessKey) && first.Fail? then first.msg else "No access token",
                                    "Failed to get user data")
    {
      Dispatch(GetCurrentUserPending);
      userCalls, refreshCalls := 0, 0;
      var attempt: Reply<User>;
      if Present(storage, AccessKey) {
        userCalls := 1;
        attempt := first;
      } else {
        attempt := Fail("No access token");
      }
      if attempt.Ok? {
        outcome := Fulfilled(attempt.value);
      } else {
        var refreshed, called := RefreshToken(refresh);
        refreshCalls := if called then 1 else 0;
        var again: Reply<User>;
        if refreshed.Rejected? {
          again := Fail(refreshed.reason);
        } else if Present(storage, AccessKey) {
          userCalls := userCalls + 1;
          again := retry;
        } else {
          again := Fail("No access token");
        }
        if again.Ok? {
          outcome := Fulfilled(again.value);
        } else {
          storage := ClearTokens(storage);
          outcome := Rejected(MessageOr(attempt.msg, "Failed to get user data"));
        }
      }
      if outcome.Fulfilled? {
        Dispatch(GetCurrentUserFulfilled(outcome.value));
      } else {
        Dispatch(GetCurrentUserRejected(outcome.reason));
      }
    }
  }
}
