/** The session store embedded in `expense_mgmt_frontend_starter.jsx`: sign-in is
    a lookup in the fixed `MOCK_USERS` table, the signed-in user is persisted under
    the key "ems_user", and a start-up step restores it from there. */
module SessionV2 {

  import opened Wrappers
  import ArrayOps

  /** An entry of `MOCK_USERS`. */
  datatype User = User(id: int, name: string, email: string, role: string)

  /** `MOCK_USERS`, in table order. */
  const MockUsers: seq<User> := [
    User(1, "Admin User", "admin@example.com", "admin"),
    User(2, "Manager One", "manager@example.com", "manager"),
    User(3, "Employee One", "employee@example.com", "employee")
  ]

  /** The storage key this store reads and writes. */
  const StorageKey: string := "ems_user"

  /** What the browser storage holds under a key: either the serialisation of a
      user record, or some text that is not valid JSON (possibly empty). */
  datatype Stored = Record(user: User) | Text(raw: string)

  /** What the start-up step observed. `ParseError` is the exception
      `JSON.parse` throws on non-empty text that is not JSON. */
  datatype RestoreOutcome = NothingStored | Restored | ParseError

  /** `u => u.email === email`, the predicate `login` passes to `find`. */
  function HasEmail(email: string): User -> bool
  {
    (u: User) => u.email == email
  }

  /** `MOCK_USERS.find(x => x.email === email)`. */
  function LookUp(email: string): (r: Option<User>)
    ensures r.Some? <==> email in {"admin@example.com", "manager@example.com", "employee@example.com"}
    ensures r.Some? ==> r.value in MockUsers && r.value.email == email
  {
    ArrayOps.Find(MockUsers, HasEmail(email))
  }

  /** The table's emails are distinct, so a lookup returns the one entry with that email. */
  lemma LookUpUnique(i: nat)
    requires i < |MockUsers|
    ensures LookUp(MockUsers[i].email) == Some(MockUsers[i])
  {
  }

  /** `AuthProvider`: `user` is the state slot, `storage` the browser storage. */
  class AuthProvider {
    var user: Option<User>
    var storage: map<string, Stored>

    /** Mounting: the slot starts empty; `Restore` is the effect that follows. */
    constructor (storage: map<string, Stored>)
      ensures user == None && this.storage == storage
    {
      user := None;
      this.storage := storage;
    }

    /** The mount effect: a stored record becomes the user; an absent key or
        empty text (both falsy) leaves the slot alone; other text makes
        `JSON.parse` throw, reported here as `ParseError` with the slot unchanged.
        Storage is only read. */
    method Restore() returns (outcome: RestoreOutcome)
      modifies this`user
      ensures StorageKey !in storage || storage[StorageKey] == Text("") <==> outcome == NothingStored
      ensures outcome == Restored <==> StorageKey in storage && storage[StorageKey].Record?
      ensures outcome == Restored ==> user == Some(storage[StorageKey].user)
      ensures outcome != Restored ==> user == old(user)
    {
      if StorageKey !in storage {
        return NothingStored;
      }
      match storage[StorageKey]
      case Record(u) =>
        user := Some(u);
        return Restored;
      case Text(raw) =>
        if raw == "" {
          return NothingStored;
        }
        return ParseError;
    }

    /** `login(email)`: succeeds exactly when some mock user has this email; it then
        signs in the first such user and persists it under "ems_user". A failed
        attempt changes nothing. */
    method Login(email: string) returns (ok: bool)
      modifies this
      ensures ok == LookUp(email).Some?
      ensures ok ==> user == LookUp(email) && storage == old(storage)[StorageKey := Record(user.value)]
      ensures !ok ==> user == old(user) && storage == old(storage)
    {
      var u := LookUp(email);
      if u.Some? {
        user := u;
        storage := storage[StorageKey := Record(u.value)];
        return true;
      }
      return false;
    }

    /** `logout`: clears the slot and removes "ems_user". */
    method Logout()
      modifies this
      ensures user == None
      ensures storage == old(storage) - {StorageKey}
    {
      user := None;
      storage := storage - {StorageKey};
    }
  }

  /** A signed-in user survives a reload: a fresh provider over the same storage
      restores exactly the user that signed in. */
  method LoginSurvivesReload(storage: map<string, Stored>, email: string)
    returns (ok: bool, before: Option<User>, after: Option<User>)
    ensures ok <==> email in {"admin@example.com", "manager@example.com", "employee@example.com"}
    ensures ok ==> before.Some? && before.value.email == email && after == before
    ensures !ok ==> before == None
  {
    var first := new AuthProvider(storage);
    ok := first.Login(email);
    before := first.user;
    var second := new AuthProvider(first.storage);
    var outcome := second.Restore();
    after := second.user;
  }

  /** After sign-out, a reload finds nothing to restore. */
  method LogoutSurvivesReload(storage: map<string, Stored>, email: string)
    returns (outcome: RestoreOutcome, after: Option<User>)
    ensures outcome == NothingStored && after == None
  {
    var first := new AuthProvider(storage);
    var ok := first.Login(email);
    first.Logout();
    var second := new AuthProvider(first.storage);
    outcome := second.Restore();
    after := second.user;
  }

  /** Start-up over text that is not JSON leaves nobody signed in. */
  method RestoreMalformed(storage: map<string, Stored>)
    returns (outcome: RestoreOutcome, after: Option<User>)
    requires StorageKey in storage && storage[StorageKey].Text? && storage[StorageKey].raw != ""
    ensures outcome == ParseError && after == None
  {
    var p := new AuthProvider(storage);
    outcome := p.Restore();
    after := p.user;
  }

  /** Signing out twice leaves the same state as signing out once. */
  method LogoutIdempotent(auth: AuthProvider)
    modifies auth
    ensures auth.user == None && auth.storage == old(auth.storage) - {StorageKey}
  {
    auth.Logout();
    ghost var once := auth.storage;
    assert StorageKey !in once;
    auth.Logout();
    assert auth.storage.Keys == once.Keys;
    assert auth.storage == once;
  }
}
