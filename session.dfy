/**
 * The process-wide session store: token, username and admin flag, with a
 * persisted copy under the storage key "auth-storage". The persistence layer
 * is modelled as a field that every write keeps equal to the state.
 */
module Session {
  import opened Wrappers

  datatype Session = Session(token: Option<string>, username: Option<string>, isAdmin: bool)

  /** The state before anything is stored: no token, no username, not an admin. */
  const Initial: Session := Session(None, None, false)

  /** `!!token`: a token is present and non-empty. */
  predicate Authenticated(s: Session) {
    s.token.Some? && s.token.value != ""
  }

  /**
   * What `isAuthenticated` answers after each write: after `setAuth` it is
   * true exactly for a non-empty token (`!!""` is false), after `clearAuth` false.
   */
  lemma AuthenticatedAfterWrites(t: string, u: string, a: bool)
    ensures Authenticated(Session(Some(t), Some(u), a)) <==> t != ""
    ensures !Authenticated(Initial)
  {
  }

  /** Storage key under which the session is persisted. */
  const StorageKey: string := "auth-storage"

  class AuthStore {
    var token: Option<string>
    var username: Option<string>
    var isAdmin: bool
    /** The record the persistence layer holds under `StorageKey`. */
    var persisted: Session

    ghost predicate Valid()
      reads this
    {
      persisted == Current()
    }

    function Current(): Session
      reads this
    {
      Session(token, username, isAdmin)
    }

    /** A fresh process with nothing stored. */
    constructor ()
      ensures Valid() && Current() == Initial
    {
      token, username, isAdmin := None, None, false;
      persisted := Initial;
    }

    /** A fresh process that finds `stored` in durable storage (or nothing). */
    constructor Rehydrate(stored: Option<Session>)
      ensures Valid() && Current() == stored.GetOr(Initial)
    {
      var s := stored.GetOr(Initial);
      token, username, isAdmin := s.token, s.username, s.isAdmin;
      persisted := s;
    }

    /** `setAuth`: overwrite all three fields, without validating them. */
    method SetAuth(t: string, u: string, a: bool)
      modifies this
      ensures Valid() && Current() == Session(Some(t), Some(u), a)
      ensures Authenticated(Current()) <==> t != ""
    {
      token, username, isAdmin := Some(t), Some(u), a;
      persisted := Current();
    }

    /** `clearAuth`: back to the initial state; calling it twice changes nothing more. */
    method ClearAuth()
      modifies this
      ensures Valid() && Current() == Initial
      ensures !Authenticated(Current())
    {
      token, username, isAdmin := None, None, false;
      persisted := Initial;
    }

    /** `isAuthenticated()`. */
    predicate IsAuthenticated()
      reads this
    {
      Authenticated(Current())
    }
  }

  /**
   * A session written by `setAuth` survives a reload: a new process that
   * rehydrates from storage sees exactly `(t, u, a)`; after `clearAuth` it
   * sees the initial state.
   */
  method ReloadRoundTrip(t: string, u: string, a: bool) returns (afterSet: Session, afterClear: Session)
    ensures afterSet == Session(Some(t), Some(u), a)
    ensures afterClear == Initial
  {
    var store := new AuthStore();
    store.SetAuth(t, u, a);
    var reloaded := new AuthStore.Rehydrate(Some(store.persisted));
    afterSet := reloaded.Current();
    store.ClearAuth();
    store.ClearAuth();
    reloaded := new AuthStore.Rehydrate(Some(store.persisted));
    afterClear := reloaded.Current();
  }
}
