/**
 * The earlier session slice, which checks credentials against one built-in
 * account instead of calling a server. A successful login stores a fixed
 * token; the status check trusts any stored token; logout removes only the
 * token.
 */
module MockAuth {
  import opened Wrappers
  import opened Thunk
  import opened AsyncStorage

  const TokenKey := "token"
  const DemoUsername := "emilys"
  const DemoPassword := "emilyspass"
  const MockToken := "mock-token"
  const InvalidCredentialsMessage := "Invalid credentials"
  const NoTokenMessage := "No token"

  datatype Credentials = Credentials(username: string, password: string)

  /** This slice's user record carries only a user name. */
  datatype MockUser = MockUser(username: string)

  /** The payload of both fulfilments: the user and the token. */
  datatype Session = Session(user: MockUser, token: string)

  datatype MockAuthState = MockAuthState(
    user: Option<MockUser>,
    token: Option<string>,
    isAuthenticated: bool,
    loading: bool,
    error: Option<string>)

  const InitialState := MockAuthState(None, None, false, false, None)

  datatype MockAuthAction =
    | ClearError
    | Logout
    | LoginPending
    | LoginFulfilled(session: Session)
    | LoginRejected(message: string)
    | CheckPending
    | CheckFulfilled(session: Session)
    | CheckRejected(message: string)

  predicate Consistent(s: MockAuthState)
  {
    s.isAuthenticated ==> s.user.Some? && s.token.Some?
  }

  /** The state after one action, field by field: which actions write each field, and with what. */
  function Reduce(s: MockAuthState, a: MockAuthAction): (r: MockAuthState)
    ensures r.user == match a
      case LoginFulfilled(p) => Some(p.user)
      case CheckFulfilled(p) => Some(p.user)
      case Logout => None
      case _ => s.user
    ensures r.token == match a
      case LoginFulfilled(p) => Some(p.token)
      case CheckFulfilled(p) => Some(p.token)
      case Logout => None
      case _ => s.token
    ensures r.isAuthenticated == match a
      case LoginFulfilled(_) => true
      case CheckFulfilled(_) => true
      case LoginRejected(_) => false
      case CheckRejected(_) => false
      case Logout => false
      case _ => s.isAuthenticated
    ensures r.loading == match a
      case LoginPending => true
      case CheckPending => true
      case ClearError => s.loading
      case Logout => s.loading
      case _ => false
    ensures r.error == match a
      case LoginPending => None
      case LoginRejected(m) => Some(m)
      case ClearError => None
      case Logout => None
      case _ => s.error
    ensures Consistent(s) ==> Consistent(r)
  {
    match a
    case ClearError => s.(error := None)
    case Logout => s.(user := None, token := None, isAuthenticated := false, error := None)
    case LoginPending => s.(loading := true, error := None)
    case LoginFulfilled(p) => s.(loading := false, user := Some(p.user), token := Some(p.token), isAuthenticated := true)
    case LoginRejected(m) => s.(loading := false, error := Some(m), isAuthenticated := false)
    case CheckPending => s.(loading := true)
    case CheckFulfilled(p) => s.(loading := false, user := Some(p.user), token := Some(p.token), isAuthenticated := true)
    case CheckRejected(_) => s.(loading := false, isAuthenticated := false)
  }

  function Run(s: MockAuthState, actions: seq<MockAuthAction>): MockAuthState
  {
    if actions == [] then s else Reduce(Run(s, actions[..|actions| - 1]), actions[|actions| - 1])
  }

  /** Every reachable state is consistent: signed in implies a user and a token are held. */
  lemma {:induction false} ReachableConsistent(actions: seq<MockAuthAction>)
    ensures Consistent(Run(InitialState, actions))
  {
    if actions != [] {
      ReachableConsistent(actions[..|actions| - 1]);
    }
  }

  /** The mock session slice with the store holding its token. */
  class MockAuthSlice {
    var user: Option<MockUser>
    var token: Option<string>
    var isAuthenticated: bool
    var loading: bool
    var error: Option<string>
    const store: KeyValueStore

    function State(): MockAuthState
      reads this
    {
      MockAuthState(user, token, isAuthenticated, loading, error)
    }

    constructor (store: KeyValueStore)
      ensures State() == InitialState && this.store == store
    {
      user, token, isAuthenticated, loading, error := None, None, false, false, None;
      this.store := store;
    }

    /** Applies one reducer or lifecycle case; `logout` also removes the stored token, and only it. */
    method Dispatch(a: MockAuthAction)
      modifies this, store
      ensures State() == Reduce(old(State()), a)
      ensures store.entries == if a.Logout? then Erase(old(store.entries), TokenKey) else old(store.entries)
    {
      match a
      case ClearError =>
        error := None;
      case Logout =>
        user := None;
        token := None;
        isAuthenticated := false;
        error := None;
        store.RemoveItem(TokenKey);
      case LoginPending =>
        loading := true;
        error := None;
      case LoginFulfilled(p) =>
        loading := false;
        user := Some(p.user);
        token := Some(p.token);
        isAuthenticated := true;
      case LoginRejected(m) =>
        loading := false;
        error := Some(m);
        isAuthenticated := false;
      case CheckPending =>
        loading := true;
      case CheckFulfilled(p) =>
        loading := false;
        user := Some(p.user);
        token := Some(p.token);
        isAuthenticated := true;
      case CheckRejected(_) =>
        loading := false;
        isAuthenticated := false;
    }

    /**
     * The body of the mock `loginAsync`: the built-in account's credentials
     * store the fixed token and fulfil; anything else rejects with
     * "Invalid credentials" and writes nothing.
     */
    method LoginBody(credentials: Credentials) returns (r: Settlement<Session>)
      modifies store
      ensures r.Fulfilled? <==> credentials.username == DemoUsername && credentials.password == DemoPassword
      ensures r.Fulfilled? ==>
        r.value == Session(MockUser(credentials.username), MockToken) &&
        store.entries == Put(old(store.entries), TokenKey, Some(MockToken))
      ensures r.Rejected? ==> r.message == InvalidCredentialsMessage && store.entries == old(store.entries)
    {
      if credentials.username == DemoUsername && credentials.password == DemoPassword {
        var token := MockToken;
        store.SetItem(TokenKey, Some(token));
        r := Fulfilled(Session(MockUser(credentials.username), token));
      } else {
        r := RejectWithMessage(Failure(ThrownError("Error", InvalidCredentialsMessage)));
      }
    }

    /**
     * The body of the mock `checkAuthStatus`: a stored token that tests true
     * fulfils with the built-in user and that token; otherwise "No token".
     */
    method CheckAuthStatusBody() returns (r: Settlement<Session>)
      ensures var t := Lookup(store.entries, TokenKey);
        r == if Truthy(t) then Fulfilled(Session(MockUser(DemoUsername), t.value)) else Rejected(NoTokenMessage)
    {
      var t := store.GetItem(TokenKey);
      if t.Some? && t.value != "" {
        r := Fulfilled(Session(MockUser(DemoUsername), t.value));
      } else {
        r := RejectWithMessage(Failure(ThrownError("Error", NoTokenMessage)));
      }
    }

    /** Dispatches the mock `loginAsync`: pending, the body, then its settlement. */
    method LoginAsync(credentials: Credentials)
      modifies this, store
      ensures !loading
      ensures isAuthenticated <==> credentials.username == DemoUsername && credentials.password == DemoPassword
      ensures isAuthenticated ==>
        user == Some(MockUser(DemoUsername)) && token == Some(MockToken) && error == None &&
        store.entries == Put(old(store.entries), TokenKey, Some(MockToken))
      ensures !isAuthenticated ==>
        error == Some(InvalidCredentialsMessage) && user == old(user) && token == old(token) &&
        store.entries == old(store.entries)
    {
      Dispatch(LoginPending);
      var r := LoginBody(credentials);
      match r
      case Fulfilled(p) => Dispatch(LoginFulfilled(p));
      case Rejected(m) => Dispatch(LoginRejected(m));
    }
  }
}
