/** The session manager (`useAuth`): the in-memory session (`user`,
    `isAuthenticated`, `loading`) and its four operations, which read and
    write the credential store.

    The login and refresh calls are parameters: the completion `authApi`
    would produce for each (see `AuthTransport.AuthRequest`). The outcome
    of the logout call is ignored, so it appears only as the token it is
    sent. Every operation runs to the end before the next begins. */
module SessionManager {
  import opened Js
  import opened Profile
  import opened CredentialStore
  import opened AuthTransport

  /** What `login` returns: `{success: true}` or `{success: false, error}`. */
  datatype LoginResult = LoginResult(success: bool, error: Option<string>)

  const LoginFailedMessage: string := "Login failed"

  /** The message `login` reports for what it caught. */
  function CaughtMessage(e: Thrown): (m: string)
    ensures e.Error? ==> m == e.message
    ensures e.NonError? ==> m == LoginFailedMessage
  {
    if e.Error? then e.message else LoginFailedMessage
  }

  /** The part of the session that `checkAuth` derives from storage. */
  datatype SessionView = SessionView(user: Option<AuthUser>, isAuthenticated: bool)

  /** What `checkAuth` makes of the stored credentials: signed in with the
      stored profile when an access token and a profile are both there,
      signed out otherwise; the profile is read first, so an unreadable
      profile throws whatever the token. */
  function Hydrate(items: Storage): (r: Completion<SessionView>)
    ensures r.Threw? <==> GetUser(items).Threw?
    ensures r.Threw? ==> r.exc == GetUser(items).exc
    ensures r.Normal? ==> (r.value.isAuthenticated <==> r.value.user.Some?)
    ensures r.Normal? ==>
              (r.value.isAuthenticated <==> IsAuthenticated(items) && GetUser(items).value.Some?)
    ensures r.Normal? && r.value.isAuthenticated ==> r.value.user == GetUser(items).value
  {
    var stored := GetUser(items);
    if stored.Threw? then Threw(stored.exc)
    else if Truthy(GetAccessToken(items)) && stored.value.Some? then Normal(SessionView(stored.value, true))
    else Normal(SessionView(None, false))
  }

  /** A reload right after a successful login restores the same signed-in
      session, provided the service issued a non-empty access token. */
  lemma HydrateAfterLogin(items: Storage, response: LoginResponse)
    requires response.accessToken != ""
    ensures Hydrate(WithUser(WithTokens(items, response.accessToken, response.refreshToken), response.user))
            == Normal(SessionView(Some(response.user), true))
  {
    var written := WithUser(WithTokens(items, response.accessToken, response.refreshToken), response.user);
    assert GetAccessToken(written) == Some(response.accessToken);
  }

  /** After a logout the store restores a signed-out session. */
  lemma HydrateAfterClear(items: Storage)
    ensures Hydrate(Cleared(items)) == Normal(SessionView(None, false))
  {
  }

  /** A failed `login` reports the transport's message: every failure of
      `authRequest` is an `Error`, so the generic "Login failed" is never
      what a user sees. */
  lemma LoginFailureMessage(x: Exchange<LoginResponse>)
    requires AuthRequest(x).Threw?
    ensures CaughtMessage(AuthRequest(x).exc) == AuthRequest(x).exc.message
    ensures x.Received? ==> CaughtMessage(AuthRequest(x).exc) == FailureMessage(x.body, x.status)
    ensures x == Failed(NonError) ==> CaughtMessage(AuthRequest(x).exc) == NetworkFailureMessage
    ensures x.Failed? && x.exc.Error? ==> CaughtMessage(AuthRequest(x).exc) == x.exc.message
  {
  }

  /** A 401 with body `{"error": "Invalid credentials"}` is reported as
      "Invalid credentials". */
  lemma RejectedLoginMessage(data: LoginResponse, message: Option<string>)
    ensures var x := Received(401, ResponseBody(data, Some("Invalid credentials"), message));
      AuthRequest(x).Threw? && CaughtMessage(AuthRequest(x).exc) == "Invalid credentials"
  {
  }

  /** The state `useAuth` keeps for one component. */
  class Session {
    const store: TokenStore
    var user: Option<AuthUser>
    var isAuthenticated: bool
    var loading: bool

    /** Signed in exactly when a profile is held. */
    ghost predicate Valid()
      reads this
    {
      isAuthenticated <==> user.Some?
    }

    /** The initial state: no user, not authenticated, loading. */
    constructor (store: TokenStore)
      ensures this.store == store
      ensures user == None && !isAuthenticated && loading
      ensures Valid()
    {
      this.store := store;
      user := None;
      isAuthenticated := false;
      loading := true;
    }

    /** `checkAuth`: derives the session from storage and ends loading.
        It never writes storage. When the stored profile cannot be read the
        parse error escapes and nothing is set, `loading` included. */
    method CheckAuth() returns (c: Completion<()>)
      requires Valid()
      modifies this
      ensures Valid()
      ensures c.Threw? <==> Hydrate(store.items).Threw?
      ensures c.Threw? ==> c.exc == Hydrate(store.items).exc
      ensures c.Threw? ==> user == old(user) && isAuthenticated == old(isAuthenticated) && loading == old(loading)
      ensures c.Normal? ==> SessionView(user, isAuthenticated) == Hydrate(store.items).value && !loading
    {
      var storedUser := GetUser(store.items);
      if storedUser.Threw? {
        return Threw(storedUser.exc);
      }
      var accessToken := GetAccessToken(store.items);
      if Truthy(accessToken) && storedUser.value.Some? {
        user := storedUser.value;
        isAuthenticated := true;
      } else {
        user := None;
        isAuthenticated := false;
      }
      loading := false;
      c := Normal(());
    }

    /** `login`: on success stores both tokens and the profile and signs
        the session in; on failure writes nothing and reports the message.
        Loading is over when it returns, on both paths. */
    method Login(reply: Completion<LoginResponse>) returns (result: LoginResult)
      requires Valid()
      modifies this, store
      ensures Valid() && !loading
      ensures result.success <==> reply.Normal?
      ensures reply.Normal? ==>
        && result == LoginResult(true, None)
        && store.items == WithUser(WithTokens(old(store.items), reply.value.accessToken, reply.value.refreshToken), reply.value.user)
        && user == Some(reply.value.user) && isAuthenticated
        && CredentialsPaired(store.items)
      ensures reply.Normal? && reply.value.accessToken != "" ==>
        Hydrate(store.items) == Normal(SessionView(user, isAuthenticated))
      ensures reply.Threw? ==>
        && result == LoginResult(false, Some(CaughtMessage(reply.exc)))
        && store.items == old(store.items)
        && user == old(user) && isAuthenticated == old(isAuthenticated)
    {
      loading := true;
      match reply {
        case Normal(response) =>
          store.SetTokens(response.accessToken, response.refreshToken);
          store.SetUser(response.user);
          user := Some(response.user);
          isAuthenticated := true;
          result := LoginResult(true, None);
          if response.accessToken != "" {
            HydrateAfterLogin(old(store.items), response);
          }
        case Threw(e) =>
          result := LoginResult(false, Some(CaughtMessage(e)));
      }
      loading := false;
    }

    /** `logout`: tells the service only when an access token is stored
        (and ignores how that ends), then always clears storage and signs
        the session out. `notified` is the token sent, if any. */
    method Logout() returns (notified: Option<string>)
      requires Valid()
      modifies this, store
      ensures Valid()
      ensures notified.Some? <==> Truthy(GetAccessToken(old(store.items)))
      ensures notified.Some? ==> notified == GetAccessToken(old(store.items))
      ensures store.items == Cleared(old(store.items))
      ensures user == None && !isAuthenticated && loading == old(loading)
      ensures CredentialsPaired(store.items) && !IsAuthenticated(store.items)
    {
      var token := GetAccessToken(store.items);
      notified := None;
      if Truthy(token) {
        notified := token;
      }
      store.ClearAll();
      user := None;
      isAuthenticated := false;
    }

    /** `refreshSession`: without a refresh token, no remote call and a
        logout; otherwise the refresh call, whose success replaces the
        access token alone and whose failure logs out. `requested` is the
        refresh token sent, `notified` the token a logout sent. */
    method RefreshSession(reply: Completion<RefreshResponse>)
      returns (ok: bool, requested: Option<string>, notified: Option<string>)
      requires Valid()
      modifies this, store
      ensures Valid() && loading == old(loading)
      ensures requested.Some? <==> Truthy(GetRefreshToken(old(store.items)))
      ensures requested.Some? ==> requested == GetRefreshToken(old(store.items))
      ensures ok <==> requested.Some? && reply.Normal?
      ensures ok ==>
        && store.items == old(store.items)[AccessTokenKey := reply.value.accessToken]
        && user == old(user) && isAuthenticated == old(isAuthenticated)
        && notified == None
      ensures !ok ==>
        && store.items == Cleared(old(store.items))
        && user == None && !isAuthenticated
        && (notified.Some? <==> Truthy(GetAccessToken(old(store.items))))
        && (notified.Some? ==> notified == GetAccessToken(old(store.items)))
      ensures CredentialsPaired(store.items)
    {
      var refreshToken := GetRefreshToken(store.items);
      requested := None;
      if !Truthy(refreshToken) {
        notified := Logout();
        return false, requested, notified;
      }
      requested := refreshToken;
      match reply {
        case Normal(response) =>
          ghost var before := store.items;
          store.SetTokens(response.accessToken, refreshToken.value);
          assert store.items == before[AccessTokenKey := response.accessToken];
          ok, notified := true, None;
        case Threw(_) =>
          notified := Logout();
          ok := false;
      }
    }
  }
}
