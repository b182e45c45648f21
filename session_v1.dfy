/** The session store of `src/contexts/AuthContext.jsx`: one in-memory `user` slot
    and one persisted record under the storage key "user". Sign-up always creates
    an "Admin"; sign-in only compares the email of the one stored record. */
module SessionV1 {

  import opened Wrappers

  /** The record `signup` builds and persists. */
  datatype Identity = Identity(email: string, company: string, role: string)

  /** The storage key every operation of this store uses. */
  const UserKey: string := "user"

  /** The role every signed-up identity receives. */
  const SignupRole: string := "Admin"

  /** `AuthProvider`: `current` is the `user` state slot, `store` is the browser's
      key-value storage, each value being the record written there. */
  class AuthProvider {
    var current: Option<Identity>
    var store: map<string, Identity>

    /** Mounting the provider: the slot starts empty whatever the storage holds;
        this variant never restores a session from storage. */
    constructor (storage: map<string, Identity>)
      ensures current == None && store == storage
    {
      current := None;
      store := storage;
    }

    /** `signup`: persists the new "Admin" identity under "user", replacing any
        earlier record, and makes it the current user. The password is dropped. */
    method Signup(email: string, password: string, company: string)
      modifies this
      ensures current == Some(Identity(email, company, SignupRole))
      ensures store == old(store)[UserKey := Identity(email, company, SignupRole)]
    {
      var newUser := Identity(email, company, SignupRole);
      store := store[UserKey := newUser];
      current := Some(newUser);
    }

    /** `login`: succeeds exactly when a record is stored under "user" and its
        email equals `email`; the password plays no part. Storage is never written,
        and a failed attempt leaves the current user as it was. */
    method Login(email: string, password: string) returns (ok: bool)
      modifies this`current
      ensures ok <==> UserKey in store && store[UserKey].email == email
      ensures ok ==> current == Some(store[UserKey])
      ensures !ok ==> current == old(current)
    {
      if UserKey in store && store[UserKey].email == email {
        current := Some(store[UserKey]);
        return true;
      }
      return false;
    }

    /** `logout`: removes the "user" record and clears the slot. */
    method Logout()
      modifies this
      ensures current == None
      ensures store == old(store) - {UserKey}
    {
      store := store - {UserKey};
      current := None;
    }
  }

  /** Every key other than "user" is left alone by sign-up and sign-out, and
      "user" holds at most one record: the last sign-up's. */
  method SignupKeepsOtherKeys(storage: map<string, Identity>, email: string, password: string, company: string)
    returns (before: map<string, Identity>, after: map<string, Identity>)
    ensures before == storage
    ensures after.Keys == before.Keys + {UserKey}
    ensures forall k :: k in before && k != UserKey ==> k in after && after[k] == before[k]
    ensures after[UserKey] == Identity(email, company, SignupRole)
  {
    var auth := new AuthProvider(storage);
    before := auth.store;
    auth.Signup(email, password, company);
    after := auth.store;
  }

  /** Right after a sign-up, signing in with the same email succeeds (whatever
      password is given) and yields the signed-up identity. */
  method SignupThenLogin(storage: map<string, Identity>, email: string, company: string, password: string, otherPassword: string)
    returns (ok: bool, user: Option<Identity>)
    ensures ok
    ensures user == Some(Identity(email, company, SignupRole))
  {
    var auth := new AuthProvider(storage);
    auth.Signup(email, password, company);
    ok := auth.Login(email, otherPassword);
    user := auth.current;
  }

  /** After sign-up then sign-out, signing in with that email fails: sign-out
      deleted the only record sign-in consults. */
  method SignupLogoutLogin(storage: map<string, Identity>, email: string, password: string, company: string)
    returns (ok: bool, user: Option<Identity>)
    ensures !ok && user == None
  {
    var auth := new AuthProvider(storage);
    auth.Signup(email, password, company);
    auth.Logout();
    ok := auth.Login(email, password);
    user := auth.current;
  }

  /** A second sign-up replaces the first: the first email no longer signs in. */
  method SecondSignupReplacesFirst(storage: map<string, Identity>, first: string, second: string, company: string)
    returns (ok: bool)
    requires first != second
    ensures !ok
  {
    var auth := new AuthProvider(storage);
    auth.Signup(first, "", company);
    auth.Signup(second, "", company);
    ok := auth.Login(first, "");
  }

  /** Sign-in depends on the email and the storage only: two attempts that differ
      only in the password agree. */
  method PasswordIgnored(storage: map<string, Identity>, email: string, password1: string, password2: string)
    returns (ok1: bool, ok2: bool, user1: Option<Identity>, user2: Option<Identity>)
    ensures ok1 == ok2 && user1 == user2
    ensures ok1 <==> UserKey in storage && storage[UserKey].email == email
  {
    var a := new AuthProvider(storage);
    var b := new AuthProvider(storage);
    ok1 := a.Login(email, password1);
    ok2 := b.Login(email, password2);
    user1, user2 := a.current, b.current;
  }

  /** Signing out twice leaves the same state as signing out once. */
  method LogoutIdempotent(auth: AuthProvider)
    modifies auth
    ensures auth.current == None && auth.store == old(auth.store) - {UserKey}
  {
    auth.Logout();
    ghost var once := auth.store;
    assert UserKey !in once;
    auth.Logout();
    assert auth.store.Keys == once.Keys;
    assert auth.store == once;
  }
}
