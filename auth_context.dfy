/**
 * CrmClientApp/ClientApp/src/contexts/AuthContext.jsx: the front end's
 * authentication state.  AuthProvider holds three pieces of React state and
 * persists the session in window.localStorage under the keys
 * 'isAuthenticated' and 'username'.  Each method is specified by a function
 * on a Snapshot of the state and the store; the lemmas are about those
 * functions.
 */
module AuthContext {
  import opened Wrappers

  const AuthenticatedKey := "isAuthenticated"
  const UsernameKey := "username"
  const LoginError := "Please enter both username and password"
  const NoProviderError := "useAuth must be used within an AuthProvider"

  /** window.localStorage: a string-to-string store changed in place. */
  class LocalStorage {
    var items: map<string, string>

    constructor (items: map<string, string>)
      ensures this.items == items
    {
      this.items := items;
    }

    /** getItem: null (None) for a missing key. */
    method GetItem(key: string) returns (v: Option<string>)
      ensures v == Lookup(items, key)
    {
      v := if key in items then Some(items[key]) else None;
    }

    method SetItem(key: string, value: string)
      modifies this
      ensures items == old(items)[key := value]
    {
      items := items[key := value];
    }

    method RemoveItem(key: string)
      modifies this
      ensures items == old(items) - {key}
    {
      items := items - {key};
    }
  }

  function Lookup(store: map<string, string>, key: string): Option<string> {
    if key in store then Some(store[key]) else None
  }

  /** The provider's state and the store it persists to. */
  datatype Snapshot = Snapshot(isAuthenticated: bool, username: Option<string>, isLoading: bool, store: map<string, string>)

  /** The useState initial values: logged out, no user, loading. */
  function Initial(store: map<string, string>): Snapshot {
    Snapshot(false, None, true, store)
  }

  /** The mount effect: read the session back from the store and stop loading. */
  function Mounted(s: Snapshot): Snapshot {
    Snapshot(Lookup(s.store, AuthenticatedKey) == Some("true"), Lookup(s.store, UsernameKey), false, s.store)
  }

  /** JavaScript truthiness of a string argument: neither null nor empty. */
  predicate Truthy(v: Option<string>) {
    v.Some? && |v.value| > 0
  }

  /** The guard of login: `user && password`. */
  predicate CanLogin(user: Option<string>, password: Option<string>) {
    Truthy(user) && Truthy(password)
  }

  function LoggedIn(s: Snapshot, user: string): Snapshot {
    Snapshot(true, Some(user), s.isLoading, s.store[AuthenticatedKey := "true"][UsernameKey := user])
  }

  function LoggedOut(s: Snapshot): Snapshot {
    Snapshot(false, None, s.isLoading, s.store - {AuthenticatedKey} - {UsernameKey})
  }

  /** The object login resolves to. */
  datatype LoginResult = LoginSucceeded | LoginFailed(error: string)

  class AuthProvider {
    var isAuthenticated: bool
    var username: Option<string>
    var isLoading: bool
    const storage: LocalStorage

    function State(): Snapshot
      reads this, storage
    {
      Snapshot(isAuthenticated, username, isLoading, storage.items)
    }

    constructor (storage: LocalStorage)
      ensures this.storage == storage
      ensures State() == Initial(storage.items)
    {
      this.storage := storage;
      isAuthenticated := false;
      username := None;
      isLoading := true;
    }

    /** The useEffect that runs once on mount. */
    method Mount()
      modifies this
      ensures State() == Mounted(old(State()))
    {
      var auth := storage.GetItem(AuthenticatedKey);
      var user := storage.GetItem(UsernameKey);
      isAuthenticated := auth == Some("true");
      username := user;
      isLoading := false;
    }

    /**
     * login(user, password): with both arguments non-empty it stores the
     * session and becomes authenticated as `user`; otherwise it reports the
     * error and changes nothing.
     */
    method Login(user: Option<string>, password: Option<string>) returns (r: LoginResult)
      modifies this, storage
      ensures r == (if CanLogin(user, password) then LoginSucceeded else LoginFailed(LoginError))
      ensures CanLogin(user, password) ==> State() == LoggedIn(old(State()), user.value)
      ensures !CanLogin(user, password) ==> State() == old(State())
    {
      if CanLogin(user, password) {
        storage.SetItem(AuthenticatedKey, "true");
        storage.SetItem(UsernameKey, user.value);
        isAuthenticated := true;
        username := user;
        r := LoginSucceeded;
      } else {
        r := LoginFailed(LoginError);
      }
    }

    /** logout(): forget the session in the store and in the state. */
    method Logout()
      modifies this, storage
      ensures State() == LoggedOut(old(State()))
    {
      storage.RemoveItem(AuthenticatedKey);
      storage.RemoveItem(UsernameKey);
      isAuthenticated := false;
      username := None;
    }
  }

  /** useAuth: the context value, or the error thrown outside a provider. */
  function UseAuth(context: Option<AuthProvider>): (r: Result<AuthProvider, string>)
    ensures context.None? ==> r == Err(NoProviderError)
    ensures context.Some? ==> r == Ok(context.value)
  {
    match context
    case None => Err(NoProviderError)
    case Some(provider) => Ok(provider)
  }

  // ---------- properties of the state machine ----------

  /**
   * Mounting over a store: authenticated exactly when 'isAuthenticated' maps
   * to "true", the user is the stored 'username' (null when absent), loading
   * has finished and the store is only read.
   */
  lemma MountHydrates(store: map<string, string>)
    ensures var m := Mounted(Initial(store));
            && (m.isAuthenticated <==> AuthenticatedKey in store && store[AuthenticatedKey] == "true")
            && (UsernameKey in store ==> m.username == Some(store[UsernameKey]))
            && (UsernameKey !in store ==> m.username.None?)
            && !m.isLoading && m.store == store
  {
  }

  /** Login's guard is truthiness: a missing or empty argument fails, white space passes. */
  lemma LoginGuard(user: Option<string>, password: Option<string>)
    ensures CanLogin(user, password) <==> user.Some? && password.Some? && user.value != "" && password.value != ""
    ensures CanLogin(Some(" "), Some(" "))
  {
  }

  /**
   * A session stored by login is found again by the mount effect of a new
   * provider (a reload): authenticated, as the same user.
   */
  lemma LoginPersists(s: Snapshot, user: string)
    ensures var reloaded := Mounted(Initial(LoggedIn(s, user).store));
            reloaded.isAuthenticated && reloaded.username == Some(user)
  {
    var st := LoggedIn(s, user).store;
    assert AuthenticatedKey != UsernameKey;
    assert st[AuthenticatedKey] == "true";
  }

  /** After logout a reload finds no session. */
  lemma LogoutPersists(s: Snapshot)
    ensures var reloaded := Mounted(Initial(LoggedOut(s).store));
            !reloaded.isAuthenticated && reloaded.username.None?
  {
  }

  /** Logout removes exactly the two session keys and leaves every other entry as it was. */
  lemma LogoutFrame(s: Snapshot)
    ensures var t := LoggedOut(s);
            && !t.isAuthenticated && t.username.None? && t.isLoading == s.isLoading
            && AuthenticatedKey !in t.store && UsernameKey !in t.store
            && forall k | k != AuthenticatedKey && k != UsernameKey :: Lookup(t.store, k) == Lookup(s.store, k)
  {
  }

  /** Login writes exactly the two session keys. */
  lemma LoginFrame(s: Snapshot, user: string)
    ensures var t := LoggedIn(s, user);
            && Lookup(t.store, AuthenticatedKey) == Some("true") && Lookup(t.store, UsernameKey) == Some(user)
            && forall k | k != AuthenticatedKey && k != UsernameKey :: Lookup(t.store, k) == Lookup(s.store, k)
  {
    assert AuthenticatedKey != UsernameKey;
  }

  /** A second logout, or a logout while logged out, changes nothing. */
  lemma LogoutIdempotent(s: Snapshot)
    ensures LoggedOut(LoggedOut(s)) == LoggedOut(s)
    ensures !s.isAuthenticated && s.username.None? && AuthenticatedKey !in s.store && UsernameKey !in s.store
            ==> LoggedOut(s) == s
  {
    assert LoggedOut(LoggedOut(s)).store == LoggedOut(s).store;
    if !s.isAuthenticated && s.username.None? && AuthenticatedKey !in s.store && UsernameKey !in s.store {
      assert s.store - {AuthenticatedKey} - {UsernameKey} == s.store;
    }
  }

  /** Logging out after a login leaves the same state and store as logging out at once. */
  lemma LogoutUndoesLogin(s: Snapshot, user: string)
    ensures LoggedOut(LoggedIn(s, user)) == LoggedOut(s)
  {
    var a := LoggedOut(LoggedIn(s, user)).store;
    var b := LoggedOut(s).store;
    assert AuthenticatedKey != UsernameKey;
    assert forall k :: k in a <==> k in b;
    assert forall k | k in a :: a[k] == b[k];
    assert a == b;
  }

  /** Running the mount effect again reads back what it read the first time. */
  lemma MountIdempotent(s: Snapshot)
    ensures Mounted(Mounted(s)) == Mounted(s)
  {
  }
}
