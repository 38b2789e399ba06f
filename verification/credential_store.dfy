/** The credential store (`tokenManager`): access token, refresh token and
    cached profile kept in the browser's key/value storage.

    The storage is a map from key to string. The getters and
    `IsAuthenticated` are functions of that map; the writes are methods of
    `TokenStore`, which owns the map and updates it in place, each specified
    by a function that gives the new map in terms of the old one. */
module CredentialStore {
  import opened Js
  import opened Profile

  type Storage = map<string, string>

  const AccessTokenKey: string := "access_token"
  const RefreshTokenKey: string := "refresh_token"
  const UserKey: string := "auth_user"
  /** A key of an earlier release; only ever removed, never read. */
  const LegacyTokenKey: string := "jwt_token"

  /** The keys `clearAll` removes. */
  const ClearedKeys: set<string> := {AccessTokenKey, RefreshTokenKey, UserKey, LegacyTokenKey}

  /** `localStorage.getItem(key)`: the stored string, or null. */
  function GetItem(items: Storage, key: string): Option<string> {
    if key in items then Some(items[key]) else None
  }

  /** `getAccessToken()` */
  function GetAccessToken(items: Storage): (r: Option<string>)
    ensures r.Some? <==> AccessTokenKey in items
    ensures r.Some? ==> r.value == items[AccessTokenKey]
  {
    GetItem(items, AccessTokenKey)
  }

  /** `getRefreshToken()` */
  function GetRefreshToken(items: Storage): (r: Option<string>)
    ensures r.Some? <==> RefreshTokenKey in items
    ensures r.Some? ==> r.value == items[RefreshTokenKey]
  {
    GetItem(items, RefreshTokenKey)
  }

  /** The message of the `SyntaxError` a failed parse throws; its exact
      wording belongs to the JavaScript engine. */
  const ParseErrorMessage: string := "Unexpected token in JSON"

  /** `getUser()`: null when the profile key is absent or empty; otherwise
      the parse of the stored text, which throws when the text is not a
      profile (nothing catches it). */
  function GetUser(items: Storage): (r: Completion<Option<AuthUser>>)
    ensures !Truthy(GetItem(items, UserKey)) ==> r == Normal(None)
    ensures Truthy(GetItem(items, UserKey)) ==>
              match Decode(items[UserKey])
              case Some(u) => r == Normal(Some(u))
              case None => r.Threw? && r.exc.Error?
  {
    var raw := GetItem(items, UserKey);
    if !Truthy(raw) then Normal(None)
    else match Decode(raw.value)
      case Some(u) => Normal(Some(u))
      case None => Threw(Error(ParseErrorMessage))
  }

  /** `isAuthenticated()`: `!!localStorage.getItem('access_token')`. */
  predicate IsAuthenticated(items: Storage)
    ensures IsAuthenticated(items) <==> AccessTokenKey in items && items[AccessTokenKey] != ""
  {
    Truthy(GetAccessToken(items))
  }

  /** Both tokens travel together: an access token is never stored without
      a refresh token. */
  predicate CredentialsPaired(items: Storage) {
    AccessTokenKey in items ==> RefreshTokenKey in items
  }

  /** The storage after `setTokens(access, refresh)`. */
  function WithTokens(items: Storage, access: string, refresh: string): (r: Storage)
    ensures GetAccessToken(r) == Some(access) && GetRefreshToken(r) == Some(refresh)
    ensures forall k :: k != AccessTokenKey && k != RefreshTokenKey ==> GetItem(r, k) == GetItem(items, k)
    ensures CredentialsPaired(r)
  {
    items[AccessTokenKey := access][RefreshTokenKey := refresh]
  }

  /** The storage after `setUser(u)`: reading the profile back gives `u`. */
  function WithUser(items: Storage, u: AuthUser): (r: Storage)
    ensures GetUser(r) == Normal(Some(u))
    ensures forall k :: k != UserKey ==> GetItem(r, k) == GetItem(items, k)
  {
    DecodeEncode(u);
    items[UserKey := Encode(u)]
  }

  /** The storage after `clearAll()`. */
  function Cleared(items: Storage): (r: Storage)
    ensures forall k :: k in ClearedKeys ==> GetItem(r, k) == None
    ensures forall k :: k !in ClearedKeys ==> GetItem(r, k) == GetItem(items, k)
    ensures CredentialsPaired(r) && !IsAuthenticated(r) && GetUser(r) == Normal(None)
  {
    items - ClearedKeys
  }

  /** Clearing twice is clearing once. */
  lemma ClearedIdempotent(items: Storage)
    ensures Cleared(Cleared(items)) == Cleared(items)
  {
    assert Cleared(Cleared(items)).Keys == Cleared(items).Keys;
  }

  /** `isAuthenticated()` reads the access token and nothing else: two
      storages that agree on it agree on the answer, whatever their
      refresh token or profile. */
  lemma IsAuthenticatedReadsOnlyAccessToken(a: Storage, b: Storage)
    requires GetAccessToken(a) == GetAccessToken(b)
    ensures IsAuthenticated(a) == IsAuthenticated(b)
  {
  }

  /** The browser storage object that `tokenManager` writes. */
  class TokenStore {
    var items: Storage

    constructor (initial: Storage)
      ensures items == initial
    {
      items := initial;
    }

    /** `setTokens`: two `setItem` calls. */
    method SetTokens(access: string, refresh: string)
      modifies this
      ensures items == WithTokens(old(items), access, refresh)
    {
      items := items[AccessTokenKey := access];
      items := items[RefreshTokenKey := refresh];
    }

    /** `setUser`: stores the profile's text. */
    method SetUser(u: AuthUser)
      modifies this
      ensures items == WithUser(old(items), u)
    {
      items := items[UserKey := Encode(u)];
    }

    /** `clearAll`: four `removeItem` calls. */
    method ClearAll()
      modifies this
      ensures items == Cleared(old(items))
    {
      items := items - {AccessTokenKey};
      items := items - {RefreshTokenKey};
      items := items - {UserKey};
      items := items - {LegacyTokenKey};
    }
  }
}
