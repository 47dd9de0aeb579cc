/**
 * The session slice backed by the remote login endpoint: who is signed in,
 * their token, whether the app treats them as authenticated, and the
 * loading/error bookkeeping of the login and status-check requests. A
 * successful login persists the token and the serialised user; logout
 * removes both keys.
 */
module Auth {
  import opened Wrappers
  import opened Types
  import opened Thunk
  import opened AsyncStorage

  const TokenKey := "token"
  const UserKey := "user"
  /** The message `checkAuthStatus` rejects with when nothing usable is stored. */
  const NoSessionMessage := "No token or user data"

  datatype AuthState = AuthState(
    user: Option<User>,
    token: Option<string>,
    isAuthenticated: bool,
    loading: bool,
    error: Option<string>)

  /** The state at app start: nobody signed in. */
  const InitialState := AuthState(None, None, false, false, None)

  /** What a successful status check restores from storage. */
  datatype StoredSession = StoredSession(user: User, token: string)

  /** The reducers and the lifecycle cases of `loginAsync` and `checkAuthStatus`. */
  datatype AuthAction =
    | ClearError
    | Logout
    | LoginPending
    | LoginFulfilled(user: User)
    | LoginRejected(message: string)
    | CheckPending
    | CheckFulfilled(session: StoredSession)
    | CheckRejected(message: string)

  /** Signed in means a user and a token are held. */
  predicate Consistent(s: AuthState)
  {
    s.isAuthenticated ==> s.user.Some? && s.token.Some?
  }

  /** The action is not a login fulfilment whose response lacks a token. */
  predicate TokenCarried(a: AuthAction)
  {
    a.LoginFulfilled? ==> a.user.token.Some?
  }

  /** The state after one action, field by field: which actions write each field, and with what. */
  function Reduce(s: AuthState, a: AuthAction): (r: AuthState)
    ensures r.user == match a
      case LoginFulfilled(u) => Some(u)
      case CheckFulfilled(p) => Some(p.user)
      case Logout => None
      case _ => s.user
    ensures r.token == match a
      case LoginFulfilled(u) => u.token
      case CheckFulfilled(p) => Some(p.token)
      case Logout => None
      case _ => s.token
    ensures r.isAuthenticated == match a
      case LoginFulfilled(_) => true
      case CheckFulfilled(_) => true
      case LoginRejected(_) => false
      case CheckRejected(_) => false
      case Logout => false
      case _ => s.isAuthenticated
    ensures r.loading == match a
      case LoginPending => true
      case CheckPending => true
      case ClearError => s.loading
      case Logout => s.loading
      case _ => false
    ensures r.error == match a
      case LoginPending => None
      case LoginRejected(m) => Some(m)
      case ClearError => None
      case Logout => None
      case _ => s.error
    ensures Consistent(s) && TokenCarried(a) ==> Consistent(r)
    ensures a.LoginFulfilled? && a.user.token.None? ==> !Consistent(r)
  {
    match a
    case ClearError => s.(error := None)
    case Logout => s.(user := None, token := None, isAuthenticated := false, error := None)
    case LoginPending => s.(loading := true, error := None)
    case LoginFulfilled(u) => s.(loading := false, user := Some(u), token := u.token, isAuthenticated := true)
    case LoginRejected(m) => s.(loading := false, error := Some(m), isAuthenticated := false)
    case CheckPending => s.(loading := true)
    case CheckFulfilled(p) => s.(loading := false, user := Some(p.user), token := Some(p.token), isAuthenticated := true)
    case CheckRejected(_) => s.(loading := false, isAuthenticated := false)
  }

  /** The state after the actions, applied in the order they are dispatched. */
  function Run(s: AuthState, actions: seq<AuthAction>): AuthState
  {
    if actions == [] then s else Reduce(Run(s, actions[..|actions| - 1]), actions[|actions| - 1])
  }

  /**
   * Every state reachable through login responses that carry a token is
   * consistent: signed in implies a user and a token are held.
   */
  lemma {:induction false} ReachableConsistent(actions: seq<AuthAction>)
    requires forall i :: 0 <= i < |actions| ==> TokenCarried(actions[i])
    ensures Consistent(Run(InitialState, actions))
  {
    if actions != [] {
      ReachableConsistent(actions[..|actions| - 1]);
    }
  }

  /** Over any run, the flag is true exactly when the last action that decides it was a fulfilment. */
  function LastAuthDecision(actions: seq<AuthAction>): (r: Option<bool>)
  {
    if actions == [] then None
    else
      match actions[|actions| - 1]
      case LoginFulfilled(_) => Some(true)
      case CheckFulfilled(_) => Some(true)
      case LoginRejected(_) => Some(false)
      case CheckRejected(_) => Some(false)
      case Logout => Some(false)
      case _ => LastAuthDecision(actions[..|actions| - 1])
  }

  /** `isAuthenticated` is set only by a fulfilment and cleared only by a rejection or logout. */
  lemma {:induction false} AuthenticatedFollowsLastDecision(s: AuthState, actions: seq<AuthAction>)
    ensures Run(s, actions).isAuthenticated ==
      match LastAuthDecision(actions) case None => s.isAuthenticated case Some(b) => b
  {
    if actions != [] {
      AuthenticatedFollowsLastDecision(s, actions[..|actions| - 1]);
    }
  }

  /**
   * The converse of `Consistent` does not hold: a failed login after a
   * successful one clears `isAuthenticated` but keeps the user and token.
   */
  lemma FailedReloginKeepsUser(u: User, m: string)
    ensures var s := Run(InitialState, [LoginPending, LoginFulfilled(u), LoginPending, LoginRejected(m)]);
      !s.isAuthenticated && s.user == Some(u) && s.token == u.token && s.error == Some(m)
  {
    var a := [LoginPending, LoginFulfilled(u), LoginPending, LoginRejected(m)];
    assert a[..3][..2][..1][..0] == [];
    var signedIn := Run(InitialState, a[..2]);
    assert signedIn.user == Some(u) && signedIn.token == u.token;
    assert Run(InitialState, a[..3]) == Reduce(signedIn, LoginPending);
    assert Run(InitialState, a) == Reduce(Run(InitialState, a[..3]), LoginRejected(m));
  }

  /**
   * A login response without a token still signs in: the stored token is
   * deleted and the state holds no token while `isAuthenticated` is true.
   */
  lemma TokenlessLoginSignsIn(u: User)
    requires u.token.None?
    ensures var s := Run(InitialState, [LoginPending, LoginFulfilled(u)]);
      s.isAuthenticated && s.token == None && !Consistent(s)
  {
    var a := [LoginPending, LoginFulfilled(u)];
    assert a[..1][..0] == [];
    assert Run(InitialState, a) == Reduce(Run(InitialState, a[..1]), LoginFulfilled(u));
  }

  /** The session slice with the store it persists credentials to. */
  class AuthSlice {
    var user: Option<User>
    var token: Option<string>
    var isAuthenticated: bool
    var loading: bool
    var error: Option<string>
    const store: KeyValueStore
    const stringifyUser: User -> string
    const parseUser: string -> Result<User, ThrownError>

    function State(): AuthState
      reads this
    {
      AuthState(user, token, isAuthenticated, loading, error)
    }

    constructor (store: KeyValueStore, stringifyUser: User -> string,
                 parseUser: string -> Result<User, ThrownError>)
      ensures State() == InitialState
      ensures this.store == store && this.stringifyUser == stringifyUser && this.parseUser == parseUser
    {
      user, token, isAuthenticated, loading, error := None, None, false, false, None;
      this.store := store;
      this.stringifyUser := stringifyUser;
      this.parseUser := parseUser;
    }

    /** Applies one reducer or lifecycle case; `logout` also removes the stored credentials. */
    method Dispatch(a: AuthAction)
      modifies this, store
      ensures State() == Reduce(old(State()), a)
      ensures store.entries == if a.Logout? then Erase(Erase(old(store.entries), TokenKey), UserKey)
                               else old(store.entries)
    {
      match a
      case ClearError =>
        error := None;
      case Logout =>
        user := None;
        token := None;
        isAuthenticated := false;
        error := None;
        store.RemoveItem(TokenKey);
        store.RemoveItem(UserKey);
      case LoginPending =>
        loading := true;
        error := None;
      case LoginFulfilled(u) =>
        loading := false;
        user := Some(u);
        token := u.token;
        isAuthenticated := true;
      case LoginRejected(m) =>
        loading := false;
        error := Some(m);
        isAuthenticated := false;
      case CheckPending =>
        loading := true;
      case CheckFulfilled(p) =>
        loading := false;
        user := Some(p.user);
        token := Some(p.token);
        isAuthenticated := true;
      case CheckRejected(_) =>
        loading := false;
        isAuthenticated := false;
    }

    /**
     * The body of `loginAsync`, given what the login endpoint returned or
     * threw: on success the token and the serialised user are written (a
     * missing token deletes the key), then the user fulfils; on a throw
     * nothing is written and the message rejects.
     */
    method LoginBody(response: Result<User, ThrownError>) returns (r: Settlement<User>)
      modifies store
      ensures r == RejectWithMessage(response)
      ensures response.Success? ==>
        store.entries == Put(Put(old(store.entries), TokenKey, response.value.token),
                             UserKey, Some(stringifyUser(response.value)))
      ensures response.Failure? ==> store.entries == old(store.entries)
    {
      match response
      case Success(u) =>
        store.SetItem(TokenKey, u.token);
        store.SetItem(UserKey, Some(stringifyUser(u)));
        r := Fulfilled(u);
      case Failure(e) =>
        r := Rejected(e.message);
    }

    /**
     * The body of `checkAuthStatus`: fulfils with the parsed user and the
     * token only when both stored values test true; otherwise rejects with
     * the parse error's message or with `NoSessionMessage`.
     */
    method CheckAuthStatusBody() returns (r: Settlement<StoredSession>)
      ensures var t, u := Lookup(store.entries, TokenKey), Lookup(store.entries, UserKey);
        r == if Truthy(t) && Truthy(u) then
               match parseUser(u.value)
               case Success(user) => Fulfilled(StoredSession(user, t.value))
               case Failure(e) => Rejected(e.message)
             else Rejected(NoSessionMessage)
    {
      var t := store.GetItem(TokenKey);
      var u := store.GetItem(UserKey);
      if t.Some? && t.value != "" && u.Some? && u.value != "" {
        var parsed := parseUser(u.value);
        match parsed
        case Success(user) =>
          r := Fulfilled(StoredSession(user, t.value));
        case Failure(e) =>
          r := Rejected(e.message);
      } else {
        r := Rejected(NoSessionMessage);
      }
    }

    /** Dispatches `loginAsync`: pending, the body, then its settlement. */
    method LoginAsync(response: Result<User, ThrownError>)
      modifies this, store
      ensures !loading
      ensures response.Success? ==>
        user == Some(response.value) && token == response.value.token && isAuthenticated && error == None &&
        store.entries == Put(Put(old(store.entries), TokenKey, response.value.token),
                             UserKey, Some(stringifyUser(response.value)))
      ensures response.Failure? ==>
        !isAuthenticated && error == Some(response.error.message) &&
        user == old(user) && token == old(token) && store.entries == old(store.entries)
    {
      Dispatch(LoginPending);
      var r := LoginBody(response);
      match r
      case Fulfilled(u) => Dispatch(LoginFulfilled(u));
      case Rejected(m) => Dispatch(LoginRejected(m));
    }

    /** Dispatches `checkAuthStatus`: pending, the body, then its settlement. The store is only read. */
    method CheckAuthStatus()
      modifies this, store
      ensures store.entries == old(store.entries)
      ensures !loading && error == old(error)
      ensures isAuthenticated <==>
        Truthy(Lookup(store.entries, TokenKey)) && Truthy(Lookup(store.entries, UserKey)) &&
        parseUser(store.entries[UserKey]).Success?
      ensures isAuthenticated ==>
        token == Some(store.entries[TokenKey]) && user == Some(parseUser(store.entries[UserKey]).value)
      ensures !isAuthenticated ==> user == old(user) && token == old(token)
    {
      Dispatch(CheckPending);
      var r := CheckAuthStatusBody();
      match r
      case Fulfilled(p) => Dispatch(CheckFulfilled(p));
      case Rejected(m) => Dispatch(CheckRejected(m));
    }
  }
}
