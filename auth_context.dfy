/** The session provider of src/context/AuthContext.jsx: the bearer token,
    the current user and the loading flag, with the browser's token store
    as one optional string. */
module AuthContext {
  import opened Wrappers

  /** The backend's user object: an opaque bag of named fields. */
  type Profile = map<string, string>

  /** A snapshot of everything the provider holds. */
  datatype SessionState = SessionState(
    store: Option<string>,
    token: Option<string>,
    user: Option<Profile>,
    loading: bool)

  /** `!!token && !!user`: a non-empty token and a user object. */
  predicate Authenticated(token: Option<string>, user: Option<Profile>)
  {
    Truthy(token) && user.Some?
  }

  /** Without a token nobody is authenticated, whatever the user field holds;
      with a non-empty token the user field alone decides. */
  lemma NoTokenNotAuthenticated(token: Option<string>, user: Option<Profile>)
    ensures token.None? ==> !Authenticated(token, user)
    ensures Truthy(token) ==> (Authenticated(token, user) <==> user.Some?)
  {
  }

  class AuthProvider {
    /** The `localStorage` entry "token". */
    var store: Option<string>
    var token: Option<string>
    var user: Option<Profile>
    var loading: bool

    function State(): SessionState
      reads this
    {
      SessionState(store, token, user, loading)
    }

    /** `isAuthenticated`. */
    function IsAuthenticated(): (r: bool)
      reads this
      ensures r <==> token.Some? && token.value != "" && user.Some?
    {
      Authenticated(token, user)
    }

    /** The state `logout` leaves behind: no stored token, no token, no user. */
    predicate LoggedOut()
      reads this
    {
      store.None? && token.None? && user.None?
    }

    /** Mounting the provider: the token is the stored one unless it is
        missing or empty; there is no user yet and loading is on. */
    constructor (stored: Option<string>)
      ensures store == stored
      ensures token == (if Truthy(stored) then stored else None)
      ensures user.None? && loading
    {
      store := stored;
      token := if Truthy(stored) then stored else None;
      user := None;
      loading := true;
    }

    /** `fetchUser`, the effect that runs on mount and whenever the token
        changes. With a token it asks the backend for the current user
        (`current`): success installs that profile, failure is a full
        logout. Loading ends false on every path. */
    method Rehydrate(current: Outcome<Profile>)
      modifies this
      ensures !loading
      ensures !Truthy(old(token)) ==> store == old(store) && token == old(token) && user == old(user)
      ensures Truthy(old(token)) && current.Success? ==>
        user == Some(current.value) && token == old(token) && store == old(store)
      ensures Truthy(old(token)) && current.Failure? ==> LoggedOut()
    {
      if Truthy(token) {
        match current
        case Success(profile) =>
          user := Some(profile);
        case Failure(_) =>
          store := None;
          token := None;
          user := None;
      }
      loading := false;
    }

    /** `login(authToken, userData)`: stores and installs the token and, when
        a user object is supplied, the user. `rehydrate` tells whether the
        token changed, which re-runs `fetchUser`. */
    method Login(authToken: string, userData: Option<Profile>) returns (rehydrate: bool)
      modifies this
      ensures store == Some(authToken) && token == Some(authToken)
      ensures user == if userData.Some? then userData else old(user)
      ensures loading == old(loading)
      ensures rehydrate <==> old(token) != Some(authToken)
    {
      rehydrate := token != Some(authToken);
      store := Some(authToken);
      token := Some(authToken);
      if userData.Some? {
        user := userData;
      }
    }

    /** `logout`: removes the stored token and clears token and user. */
    method Logout()
      modifies this
      ensures LoggedOut()
      ensures loading == old(loading)
    {
      store := None;
      token := None;
      user := None;
    }

    /** `updateUser(userData)`: replaces the user wholesale. */
    method UpdateUser(userData: Option<Profile>)
      modifies this
      ensures user == userData
      ensures store == old(store) && token == old(token) && loading == old(loading)
    {
      user := userData;
    }
  }

  /** A stored token the backend accepts: after the start-up rehydration the
      session holds the backend's profile and is authenticated. */
  method ValidTokenScenario(stored: string, profile: Profile) returns (s: SessionState, authenticated: bool)
    requires stored != ""
    ensures s == SessionState(Some(stored), Some(stored), Some(profile), false)
    ensures authenticated
  {
    var provider := new AuthProvider(Some(stored));
    provider.Rehydrate(Success(profile));
    s := provider.State();
    authenticated := provider.IsAuthenticated();
  }

  /** A stored token the backend rejects ends in exactly the state that a
      `logout` followed by the effect it triggers would leave. */
  method RejectedTokenScenario(stored: string, reason: Option<string>) returns (rejected: SessionState, loggedOut: SessionState)
    requires stored != ""
    ensures rejected == loggedOut
    ensures rejected == SessionState(None, None, None, false)
  {
    var a := new AuthProvider(Some(stored));
    a.Rehydrate(Failure(reason));
    rejected := a.State();
    var b := new AuthProvider(Some(stored));
    b.Logout();
    b.Rehydrate(Failure(reason));
    loggedOut := b.State();
  }

  /** A login with a new token re-runs the rehydration, and the user it
      fetches replaces whatever user the login supplied. */
  method LoginThenRehydrate(authToken: string, supplied: Option<Profile>, fetched: Profile)
    returns (s: SessionState)
    requires authToken != ""
    ensures s == SessionState(Some(authToken), Some(authToken), Some(fetched), false)
  {
    var provider := new AuthProvider(None);
    provider.Rehydrate(Failure(None));
    var again := provider.Login(authToken, supplied);
    if again {
      provider.Rehydrate(Success(fetched));
    }
    s := provider.State();
  }
}
