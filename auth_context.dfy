/**
 * The older context-based session (src/contexts/AuthContext.tsx): a
 * provider holding the user, the token and the authenticated flag, backed
 * by two `localStorage` keys, `token` and `userData`. Storage is a string
 * map; the JSON encoding of a user and its parsing (which may throw) are
 * the provider's `encode` and `decode`; navigation is appended to a log.
 */
module AuthContext {
  import opened Wrappers
  import opened Types

  const TokenKey := "token"
  const UserDataKey := "userData"

  /** A stored value the source's `if (token && userData)` accepts: present and not the empty string. */
  predicate Truthy(v: Option<string>) {
    v.Some? && v.value != ""
  }

  class Provider {
    var storage: map<string, string>
    var user: Option<User>
    var token: Option<string>
    var isAuthenticated: bool
    var navigations: seq<string>
    const encode: User -> string
    const decode: string -> Option<User>

    /**
     * Storage agrees with an authenticated session: the stored token is the
     * session's and the stored user data parses to the session's user.
     */
    predicate Synced()
      reads this
    {
      isAuthenticated ==>
        token.Some? && Lookup(storage, TokenKey) == token &&
        user.Some? && UserDataKey in storage && decode(storage[UserDataKey]) == user
    }

    /** The initial state: the stored token (if any) is read, but nobody is signed in yet. */
    constructor (storage: map<string, string>, encode: User -> string, decode: string -> Option<User>)
      ensures this.storage == storage && this.encode == encode && this.decode == decode
      ensures user == None && token == Lookup(storage, TokenKey) && !isAuthenticated
      ensures navigations == []
      ensures Synced()
    {
      this.storage, this.encode, this.decode := storage, encode, decode;
      user, token, isAuthenticated := None, Lookup(storage, TokenKey), false;
      navigations := [];
    }

    /**
     * The mount effect: with both keys present and non-empty, stored user
     * data that parses restores the session; data that does not parse
     * removes both keys and leaves the state as it was. Otherwise nothing
     * changes.
     */
    method RestoreOnMount()
      modifies this
      ensures var t, d := Lookup(old(storage), TokenKey), Lookup(old(storage), UserDataKey);
        if Truthy(t) && Truthy(d) then
          if decode(d.value).Some? then
            user == decode(d.value) && token == t && isAuthenticated && storage == old(storage)
          else
            storage == old(storage) - {TokenKey, UserDataKey} &&
            user == old(user) && token == old(token) && isAuthenticated == old(isAuthenticated)
        else
          storage == old(storage) && user == old(user) && token == old(token) && isAuthenticated == old(isAuthenticated)
      ensures navigations == old(navigations)
      ensures old(Synced()) ==> Synced()
    {
      var t, d := Lookup(storage, TokenKey), Lookup(storage, UserDataKey);
      if Truthy(t) && Truthy(d) {
        match decode(d.value)
        case Some(u) =>
          user, token, isAuthenticated := Some(u), t, true;
        case None =>
          storage := storage - {TokenKey, UserDataKey};
      }
    }

    /** The shared success step of `login` and `register`: persist both keys, then sign in. */
    method SignIn(payload: AuthPayload)
      modifies this
      ensures storage == old(storage)[TokenKey := payload.token][UserDataKey := encode(payload.user)]
      ensures user == Some(payload.user) && token == Some(payload.token) && isAuthenticated
      ensures navigations == old(navigations)
      ensures decode(encode(payload.user)) == Some(payload.user) ==> Synced()
    {
      storage := storage[TokenKey := payload.token];
      storage := storage[UserDataKey := encode(payload.user)];
      user, token, isAuthenticated := Some(payload.user), Some(payload.token), true;
    }

    /**
     * `login`: a 2xx answer persists the token and the user and signs in,
     * answering true; a non-2xx answer or a rejected request answers false
     * and changes nothing.
     */
    method Login(response: Response<AuthPayload>) returns (ok: bool)
      modifies this
      ensures ok <==> response.Ok?
      ensures ok ==> storage == old(storage)[TokenKey := response.body.token][UserDataKey := encode(response.body.user)]
      ensures ok ==> user == Some(response.body.user) && token == Some(response.body.token) && isAuthenticated
      ensures !ok ==> storage == old(storage) && user == old(user) && token == old(token) && isAuthenticated == old(isAuthenticated)
      ensures navigations == old(navigations)
      ensures (ok ==> decode(encode(response.body.user)) == Some(response.body.user)) && old(Synced()) ==> Synced()
    {
      if response.Ok? {
        SignIn(response.body);
        ok := true;
      } else {
        ok := false;
      }
    }

    /** `register`: as `login`, and a successful registration also navigates to `/`. */
    method Register(response: Response<AuthPayload>) returns (ok: bool)
      modifies this
      ensures ok <==> response.Ok?
      ensures ok ==> storage == old(storage)[TokenKey := response.body.token][UserDataKey := encode(response.body.user)]
      ensures ok ==> user == Some(response.body.user) && token == Some(response.body.token) && isAuthenticated
      ensures ok ==> navigations == old(navigations) + ["/"]
      ensures !ok ==> storage == old(storage) && user == old(user) && token == old(token) &&
                      isAuthenticated == old(isAuthenticated) && navigations == old(navigations)
      ensures (ok ==> decode(encode(response.body.user)) == Some(response.body.user)) && old(Synced()) ==> Synced()
    {
      if response.Ok? {
        SignIn(response.body);
        navigations := navigations + ["/"];
        ok := true;
      } else {
        ok := false;
      }
    }

    /**
     * `logout`: only a 2xx answer to the sign-out request removes both keys
     * and empties the state; after a non-2xx answer or a rejected request
     * the session stays exactly as it was.
     */
    method Logout(signout: Response<()>)
      modifies this
      ensures signout.Ok? ==> storage == old(storage) - {TokenKey, UserDataKey} &&
                              user == None && token == None && !isAuthenticated
      ensures !signout.Ok? ==> storage == old(storage) && user == old(user) && token == old(token) &&
                               isAuthenticated == old(isAuthenticated)
      ensures navigations == old(navigations)
      ensures old(Synced()) ==> Synced()
    {
      if signout.Ok? {
        storage := storage - {TokenKey, UserDataKey};
        user, token, isAuthenticated := None, None, false;
      }
    }

    /** `updateUser`: persists the user data and replaces only the user. */
    method UpdateUser(u: User)
      modifies this
      ensures storage == old(storage)[UserDataKey := encode(u)]
      ensures user == Some(u) && token == old(token) && isAuthenticated == old(isAuthenticated)
      ensures navigations == old(navigations)
      ensures decode(encode(u)) == Some(u) && old(Synced()) ==> Synced()
    {
      storage := storage[UserDataKey := encode(u)];
      user := Some(u);
    }
  }

  /**
   * A session survives a reload: after a successful sign-in, a provider
   * created over the same storage restores the same user and token on
   * mount, provided the user's JSON parses back to the user and both stored
   * values are non-empty.
   */
  method LoginThenReload(storage: map<string, string>, payload: AuthPayload,
                         encode: User -> string, decode: string -> Option<User>)
    returns (user: Option<User>, token: Option<string>, authenticated: bool)
    requires decode(encode(payload.user)) == Some(payload.user)
    requires payload.token != "" && encode(payload.user) != ""
    ensures user == Some(payload.user) && token == Some(payload.token) && authenticated
  {
    var first := new Provider(storage, encode, decode);
    var ok := first.Login(Ok(payload));
    var second := new Provider(first.storage, encode, decode);
    second.RestoreOnMount();
    user, token, authenticated := second.user, second.token, second.isAuthenticated;
  }

  /**
   * Stored user data that does not parse is discarded on mount, but the
   * token read at creation stays in the state while nobody is signed in.
   */
  method CorruptUserData(token: string, userData: string, encode: User -> string, decode: string -> Option<User>)
    returns (stored: map<string, string>, stateToken: Option<string>, authenticated: bool)
    requires token != "" && userData != "" && decode(userData).None?
    ensures stored == map[] && stateToken == Some(token) && !authenticated
  {
    var p := new Provider(map[TokenKey := token, UserDataKey := userData], encode, decode);
    p.RestoreOnMount();
    stored, stateToken, authenticated := p.storage, p.token, p.isAuthenticated;
  }
}
