/**
 * The authentication store: the signed-in user and token, mirrored to the
 * persisted store, with three actions that each finish loading.
 */
module Auth {
  import opened Json
  import opened Storage

  class AuthStore {
    const storage: Store
    var user: Value
    var token: Value
    var isLoading: bool
    var isAuthenticated: bool

    /** Authenticated exactly when both a token and a user are held (null is `Null`). */
    ghost predicate Valid()
      reads this
    {
      isAuthenticated <==> (token != Null && user != Null)
    }

    constructor(storage: Store)
      ensures Valid() && this.storage == storage
      ensures user == Null && token == Null && !isAuthenticated && isLoading
    {
      this.storage := storage;
      user := Null;
      token := Null;
      isLoading := true;
      isAuthenticated := false;
    }

    /** Persists the token, then the user, then holds both as the signed-in session. */
    method SetAuth(newUser: Value, newToken: string)
      requires Valid()
      requires newUser.Obj?
      modifies this, storage
      ensures Valid()
      ensures storage.prefs == old(storage.prefs)[AUTH_TOKEN := Str(newToken)][USER_DATA := newUser]
      ensures user == newUser && token == Str(newToken) && isAuthenticated && !isLoading
    {
      storage.SetToken(newToken);
      storage.SetUser(newUser);
      user, token, isAuthenticated, isLoading := newUser, Str(newToken), true, false;
    }

    /** Removes the persisted session and signs out. */
    method ClearAuth()
      requires Valid()
      modifies this, storage
      ensures Valid()
      ensures storage.prefs == old(storage.prefs) - {AUTH_TOKEN, USER_DATA}
      ensures user == Null && token == Null && !isAuthenticated && !isLoading
    {
      storage.ClearAuth();
      user, token, isAuthenticated, isLoading := Null, Null, false, false;
    }

    /**
     * Restores the session from the persisted store: signed in when both the
     * stored token and the stored user are truthy, signed out otherwise and when
     * reading the store fails (`readFails`).
     */
    method LoadAuth(readFails: bool)
      requires Valid()
      modifies this
      ensures Valid()
      ensures !isLoading
      ensures var t := Read(storage.prefs, AUTH_TOKEN);
              var u := Read(storage.prefs, USER_DATA);
              if !readFails && Truthy(t) && Truthy(u)
              then user == u && token == t && isAuthenticated
              else user == Null && token == Null && !isAuthenticated
    {
      if readFails {
        user, token, isAuthenticated, isLoading := Null, Null, false, false;
        return;
      }
      var t := storage.GetToken();
      var u := storage.GetUser();
      if Truthy(t) && Truthy(u) {
        user, token, isAuthenticated, isLoading := u, t, true, false;
      } else {
        user, token, isAuthenticated, isLoading := Null, Null, false, false;
      }
    }

    /**
     * Signing in and later restoring from the store gives back the same user and
     * token, provided the token is not the empty string (which reads as falsy).
     */
    method SetAuthThenLoadAuth(newUser: Value, newToken: string)
      requires Valid()
      requires newUser.Obj? && newToken != ""
      modifies this, storage
      ensures Valid()
      ensures user == newUser && token == Str(newToken) && isAuthenticated && !isLoading
    {
      SetAuth(newUser, newToken);
      LoadAuth(false);
    }
  }
}
