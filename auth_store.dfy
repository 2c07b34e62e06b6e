/**
 * The session store (src/stores/authStore.ts): the current user, the bearer
 * token, whether the session counts as authenticated, and a loading flag.
 * Each action is a method that moves the record from one state to the next;
 * the server's answer to a sign-in, registration or sign-out request is a
 * parameter.
 */
module AuthStore {
  import opened Wrappers
  import opened Types

  class Store {
    var user: Option<User>
    var token: Option<string>
    var isAuthenticated: bool
    var isLoading: bool

    /** An authenticated session always has both a user and a token. */
    predicate Consistent()
      reads this
    {
      isAuthenticated ==> user.Some? && token.Some?
    }

    /** The store as it is created when nothing is persisted. */
    constructor ()
      ensures user == None && token == None && !isAuthenticated && !isLoading
      ensures Consistent()
    {
      user, token, isAuthenticated, isLoading := None, None, false, false;
    }

    /** The store as the persistence layer rehydrates it: the three persisted fields, loading off. */
    constructor Rehydrate(user: Option<User>, token: Option<string>, isAuthenticated: bool)
      ensures this.user == user && this.token == token && this.isAuthenticated == isAuthenticated
      ensures !isLoading
    {
      this.user, this.token, this.isAuthenticated, isLoading := user, token, isAuthenticated, false;
    }

    /**
     * `initializeAuth`: marks the session authenticated when a non-empty
     * token and a user are present, and otherwise changes nothing; it never
     * clears the flag.
     */
    method InitializeAuth()
      modifies this
      ensures isAuthenticated == (old(isAuthenticated) || (old(token).Some? && old(token).value != "" && old(user).Some?))
      ensures user == old(user) && token == old(token) && isLoading == old(isLoading)
      ensures old(isAuthenticated) ==> isAuthenticated
      ensures old(Consistent()) ==> Consistent()
    {
      if token.Some? && token.value != "" && user.Some? {
        isAuthenticated := true;
      }
    }

    /** The part `login` and `register` share once the request has been answered. */
    method CompleteSignIn(response: Response<AuthPayload>) returns (ok: bool)
      modifies this
      ensures ok <==> response.Ok?
      ensures ok ==> user == Some(response.body.user) && token == Some(response.body.token) && isAuthenticated
      ensures !ok ==> user == old(user) && token == old(token) && isAuthenticated == old(isAuthenticated)
      ensures !isLoading
      ensures old(Consistent()) ==> Consistent()
    {
      match response
      case Ok(payload) =>
        user, token, isAuthenticated, isLoading := Some(payload.user), Some(payload.token), true, false;
        ok := true;
      case _ =>
        isLoading := false;
        ok := false;
    }

    /**
     * `login`: on a 2xx answer the user and token come from the response and
     * the session is authenticated; otherwise (non-2xx or a rejected request)
     * only the loading flag changes, back to false.
     */
    method Login(response: Response<AuthPayload>) returns (ok: bool)
      modifies this
      ensures ok <==> response.Ok?
      ensures ok ==> user == Some(response.body.user) && token == Some(response.body.token) && isAuthenticated
      ensures !ok ==> user == old(user) && token == old(token) && isAuthenticated == old(isAuthenticated)
      ensures !isLoading
      ensures old(Consistent()) ==> Consistent()
    {
      isLoading := true;
      ok := CompleteSignIn(response);
    }

    /** `register`: the same contract as `login`. */
    method Register(response: Response<AuthPayload>) returns (ok: bool)
      modifies this
      ensures ok <==> response.Ok?
      ensures ok ==> user == Some(response.body.user) && token == Some(response.body.token) && isAuthenticated
      ensures !ok ==> user == old(user) && token == old(token) && isAuthenticated == old(isAuthenticated)
      ensures !isLoading
      ensures old(Consistent()) ==> Consistent()
    {
      isLoading := true;
      ok := CompleteSignIn(response);
    }

    /**
     * `logout`: whatever the sign-out request answers, or if it is rejected,
     * the session ends up empty and not loading.
     */
    method Logout(signout: Response<()>)
      modifies this
      ensures user == None && token == None && !isAuthenticated && !isLoading
      ensures Consistent()
    {
      isLoading := true;
      user, token, isAuthenticated, isLoading := None, None, false, false;
    }

    /** `updateUser`: replaces the user and nothing else. */
    method UpdateUser(u: User)
      modifies this
      ensures user == Some(u)
      ensures token == old(token) && isAuthenticated == old(isAuthenticated) && isLoading == old(isLoading)
      ensures old(Consistent()) ==> Consistent()
    {
      user := Some(u);
    }

    /** `clearAuth`: the same reset `logout` ends with, with no request. */
    method ClearAuth()
      modifies this
      ensures user == None && token == None && !isAuthenticated && !isLoading
      ensures Consistent()
    {
      user, token, isAuthenticated, isLoading := None, None, false, false;
    }
  }

  /**
   * A failed sign-in between two sessions leaves the first session exactly as
   * it was. Returns whether the second attempt succeeded and the user then in
   * the store.
   */
  method FailedLoginKeepsSession(first: AuthPayload, second: Response<AuthPayload>)
    returns (ok: bool, current: Option<User>, authenticated: bool)
    requires !second.Ok?
    ensures !ok && current == Some(first.user) && authenticated
  {
    var store := new Store();
    var _ := store.Login(Ok(first));
    ok := store.Login(second);
    current, authenticated := store.user, store.isAuthenticated;
  }
}
