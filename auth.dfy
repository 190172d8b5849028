/**
 * The session hook: the authentication state, restored from the browser's
 * storage on start, written back after every change, set by `login` and
 * cleared by `logout`. The storage is a map from key to the stored entry;
 * the JSON text of an entry is abstracted to its two fields, or to an
 * entry that does not parse.
 */
module Auth {
  import opened Wrappers

  /** The user type of a session; `Untyped` is `null`, or any other value a stored entry may hold. */
  datatype UserType = Advisor | Client | Untyped

  datatype UserData = UserData(
    name: string,
    email: Option<string>,
    role: Option<string>,
    id: Option<string>,
    documentNumber: Option<string>,
    contractNumber: Option<string>,
    phone: Option<string>)

  datatype AuthState = AuthState(userType: UserType, userData: Option<UserData>, isAuthenticated: bool)

  /** What the storage holds under a key: the two persisted fields, or text that does not parse as an object with them. */
  datatype StoredEntry = Entry(userType: UserType, userData: Option<UserData>) | Unparsable

  type Storage = map<string, StoredEntry>

  const StorageKey: string := "bpms_auth_state"

  const LoggedOut: AuthState := AuthState(Untyped, None, false)

  /** A state the hook can hold: authenticated exactly when there is user data. */
  predicate Consistent(s: AuthState) {
    s.isAuthenticated <==> s.userData.Some?
  }

  /** The state the hook starts in, read from the storage. */
  function InitialState(storage: Storage): (s: AuthState)
    ensures Consistent(s)
    ensures StorageKey !in storage || storage[StorageKey].Unparsable? ==> s == LoggedOut
    ensures StorageKey in storage && storage[StorageKey].Entry? ==>
              s.userType == storage[StorageKey].userType && s.userData == storage[StorageKey].userData
  {
    if StorageKey in storage && storage[StorageKey].Entry? then
      var e := storage[StorageKey];
      AuthState(e.userType, e.userData, e.userData.Some?)
    else LoggedOut
  }

  /** The effect after a state change: a state with user data is stored, any other removes the key. */
  function Persist(s: AuthState, storage: Storage): (after: Storage)
    ensures s.userData.Some? ==> after == storage[StorageKey := Entry(s.userType, s.userData)]
    ensures s.userData.None? ==> StorageKey !in after
    ensures forall k :: k != StorageKey ==> (k in after <==> k in storage)
    ensures forall k :: k != StorageKey && k in storage ==> after[k] == storage[k]
  {
    if s.userData.Some? then storage[StorageKey := Entry(s.userType, s.userData)]
    else map k | k in storage && k != StorageKey :: storage[k]
  }

  /** The state `login` sets. */
  function LoggedIn(t: UserType, d: UserData): AuthState {
    AuthState(t, Some(d), true)
  }

  /** A reload restores any state the hook can hold: after a login, that session; after a logout, the logged-out state. */
  lemma ReloadRestores(s: AuthState, storage: Storage)
    requires Consistent(s)
    ensures s.userData.Some? ==> InitialState(Persist(s, storage)) == s
    ensures s.userData.None? ==> InitialState(Persist(s, storage)) == LoggedOut
  {
  }

  /** Login and logout survive a reload, and a logout after a login leaves no session behind. */
  lemma LoginLogoutRoundTrip(t: UserType, d: UserData, storage: Storage)
    ensures InitialState(Persist(LoggedIn(t, d), storage)) == LoggedIn(t, d)
    ensures InitialState(Persist(LoggedOut, storage)) == LoggedOut
    ensures InitialState(Persist(LoggedOut, Persist(LoggedIn(t, d), storage))) == LoggedOut
  {
    ReloadRestores(LoggedIn(t, d), storage);
    ReloadRestores(LoggedOut, storage);
    ReloadRestores(LoggedOut, Persist(LoggedIn(t, d), storage));
  }

  /**
   * Starting twice gives the same session, and the second start writes
   * nothing new; only the user type of an entry without user data is lost,
   * because the first start removes that entry.
   */
  lemma StartIsStable(storage: Storage)
    ensures var first := Persist(InitialState(storage), storage);
            InitialState(first).userData == InitialState(storage).userData
            && (InitialState(storage).userData.Some? ==> InitialState(first) == InitialState(storage))
            && Persist(InitialState(first), first) == first
  {
    var s := InitialState(storage);
    var first := Persist(s, storage);
    ReloadRestores(s, storage);
    if s.userData.Some? {
      assert first[StorageKey := Entry(s.userType, s.userData)] == first;
    } else {
      assert InitialState(first) == LoggedOut;
      assert Persist(LoggedOut, first) == first;
    }
  }

  /** The hook: its state and the browser storage it writes through. */
  class AuthStore {
    var state: AuthState
    var storage: Storage

    /** The key is stored exactly when there is user data, and then holds the state's two fields. */
    predicate Valid()
      reads this
    {
      Consistent(state)
      && (StorageKey in storage <==> state.userData.Some?)
      && (StorageKey in storage ==> storage[StorageKey] == Entry(state.userType, state.userData))
    }

    /** Mounting: the state read from the storage, then the effect's write-back. */
    constructor (storage: Storage)
      ensures Valid()
      ensures state == InitialState(storage) && this.storage == Persist(state, storage)
    {
      state := InitialState(storage);
      this.storage := Persist(InitialState(storage), storage);
    }

    method Login(t: UserType, d: UserData)
      requires Valid()
      modifies this
      ensures Valid() && state == LoggedIn(t, d) && state.isAuthenticated
      ensures storage == old(storage)[StorageKey := Entry(t, Some(d))]
    {
      state := LoggedIn(t, d);
      storage := Persist(state, storage);
    }

    /** `logout`: the logged-out state, and the key removed (by the call and again by the effect). */
    method Logout()
      requires Valid()
      modifies this
      ensures Valid() && state == LoggedOut
      ensures StorageKey !in storage
      ensures forall k :: k != StorageKey ==> (k in storage <==> k in old(storage))
      ensures forall k :: k != StorageKey && k in storage ==> storage[k] == old(storage)[k]
    {
      state := LoggedOut;
      storage := map k | k in storage && k != StorageKey :: storage[k];
      storage := Persist(state, storage);
    }
  }
}
