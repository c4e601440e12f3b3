/** The sign-in state of `AuthProvider` in lib/auth/context.tsx: the
    `user` state and the `pmc_current_user` key that keeps the session
    across page loads. */
module Session {
  import opened Util
  import opened Types
  import opened Queries
  import opened Storage

  /** What the `pmc_current_user` key holds: the JSON of a user, or text
      that does not yield a user object (it does not parse, or parses to
      something without a readable `id`). */
  datatype SessionBlob = Saved(user: User) | Malformed

  /** The user `login(email, _)` signs in: the first stored user with
      exactly that email whose account is active. */
  function LoginUser(us: seq<User>, email: string): (r: Option<User>)
    ensures r.None? <==> forall k :: 0 <= k < |us| ==> !(us[k].email == email && us[k].active)
    ensures r.Some? ==> r.value.email == email && r.value.active && r.value in us
    ensures r.Some? ==> exists j :: 0 <= j < |us| && us[j] == r.value &&
                          forall k :: 0 <= k < j ==> !(us[k].email == email && us[k].active)
  {
    Find(us, (u: User) => u.email == email && u.active)
  }

  /** An inactive account never signs in, whatever else is stored. */
  lemma InactiveNeverSignsIn(us: seq<User>, email: string)
    requires forall k :: 0 <= k < |us| && us[k].email == email ==> !us[k].active
    ensures LoginUser(us, email).None?
  {
  }

  class AuthProvider {
    /** The `user` state: `null` when nobody is signed in. */
    var user: Option<User>
    /** The `pmc_current_user` key; `None` when absent. */
    var sessionKey: Option<SessionBlob>

    /** A provider on first render: nobody signed in yet, whatever the key
        holds. */
    constructor (stored: Option<SessionBlob>)
      ensures user.None? && sessionKey == stored
    {
      user, sessionKey := None, stored;
    }

    /** `isAuthenticated`. */
    function IsAuthenticated(): (r: bool)
      reads this`user
      ensures r <==> user.Some?
    {
      user.Some?
    }

    /** `login(email, password)`: signs in the first active user with that
        email and saves the session; the password is never looked at. On
        failure nothing changes. */
    method Login(store: LocalStorageManager, email: string, password: string) returns (ok: bool)
      modifies this`user, this`sessionKey
      ensures ok <==> exists k :: 0 <= k < |store.Users()| && store.Users()[k].email == email && store.Users()[k].active
      ensures ok ==> user == LoginUser(store.Users(), email) && sessionKey == Some(Saved(user.value))
      ensures !ok ==> user == old(user) && sessionKey == old(sessionKey)
    {
      var users := store.Users();
      var found := LoginUser(users, email);
      if found.Some? {
        user := found;
        sessionKey := Some(Saved(found.value));
        return true;
      }
      return false;
    }

    /** `logout`: nobody is signed in and the saved session is gone. */
    method Logout()
      modifies this`user, this`sessionKey
      ensures user.None? && sessionKey.None?
      ensures !IsAuthenticated()
    {
      user := None;
      sessionKey := None;
    }

    /** The effect that restores a saved session on first render: a saved
        user whose id the store still knows becomes the signed-in user, as
        the store now has it, and the key is kept; a saved user the store
        no longer knows, or a key that yields no user, removes the key.
        Without a key nothing happens. */
    method RestoreSession(store: LocalStorageManager)
      modifies this`user, this`sessionKey
      ensures old(sessionKey).None? ==> user == old(user) && sessionKey == old(sessionKey)
      ensures old(sessionKey) == Some(Malformed) ==> user == old(user) && sessionKey.None?
      ensures old(sessionKey).Some? && old(sessionKey).value.Saved? ==>
                var existing := UserById(store.Users(), old(sessionKey).value.user.id);
                && (existing.Some? ==> user == existing && sessionKey == old(sessionKey))
                && (existing.None? ==> user == old(user) && sessionKey.None?)
    {
      if sessionKey.None? {
        return;
      }
      match sessionKey.value
      case Malformed =>
        sessionKey := None;
      case Saved(userData) =>
        var existing := UserById(store.Users(), userData.id);
        if existing.Some? {
          user := existing;
        } else {
          sessionKey := None;
        }
    }

    /** Signing in and reloading the page: with unique user ids the
        restored session is the user who signed in, and the key is kept. */
    method LoginThenReload(store: LocalStorageManager, email: string, password: string)
      returns (ok: bool)
      requires forall i, j :: 0 <= i < j < |store.Users()| ==> store.Users()[i].id != store.Users()[j].id
      modifies this`user, this`sessionKey
      ensures ok ==> user.Some? && user == LoginUser(store.Users(), email)
      ensures ok ==> sessionKey == Some(Saved(LoginUser(store.Users(), email).value))
    {
      ok := Login(store, email, password);
      if ok {
        RestoreSession(store);
        SignedInUserIsFoundById(store.Users(), email);
      }
    }
  }

  /** With unique ids, looking up the signed-in user by id finds that same
      record. */
  lemma SignedInUserIsFoundById(us: seq<User>, email: string)
    requires forall i, j :: 0 <= i < j < |us| ==> us[i].id != us[j].id
    requires LoginUser(us, email).Some?
    ensures UserById(us, LoginUser(us, email).value.id) == LoginUser(us, email)
  {
    var u := LoginUser(us, email).value;
    var j :| 0 <= j < |us| && us[j] == u;
    var v := UserById(us, u.id).value;
    var m :| 0 <= m < |us| && us[m] == v;
    assert us[m].id == us[j].id;
  }
}
