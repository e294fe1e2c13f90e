/** The mock identity provider: a shared array of accounts, the signed-in
    user, a loading flag, an error message, and a one-key local store that
    keeps the session. Each asynchronous call is one atomic step; its
    simulated network delay is not modelled. */
module AuthContext {
  import opened Wrappers

  datatype Role = UserRole | AdminRole

  datatype User = User(
    id: string,
    email: string,
    name: string,
    location: string,
    country: string,
    role: Role,
    createdAt: string,
    lastLogin: Option<string>)

  /** The key the session is stored under. */
  const StorageKey := "user"

  /** The two seeded accounts of `mockUsers`. */
  const MockUsersSeed: seq<User> := [
    User("1", "admin@datacenter.com", "Admin User", "New York", "USA", AdminRole,
         "2024-01-01T00:00:00Z", Some("2024-01-15T10:00:00Z")),
    User("2", "user@example.com", "John Doe", "Kuala Lumpur", "Malaysia", UserRole,
         "2024-01-10T00:00:00Z", Some("2024-01-15T09:00:00Z"))
  ]

  predicate EmailTaken(accounts: seq<User>, email: string) {
    exists i :: 0 <= i < |accounts| && accounts[i].email == email
  }

  /** `accounts.find(u => u.email === email)` */
  function FindByEmail(accounts: seq<User>, email: string): (r: Option<User>)
    ensures r.Some? <==> EmailTaken(accounts, email)
    ensures r.Some? ==> r.value.email == email && r.value in accounts
  {
    if accounts == [] then None
    else if accounts[0].email == email then Some(accounts[0])
    else
      assert forall i :: 1 <= i < |accounts| ==> accounts[i] == accounts[1..][i - 1];
      FindByEmail(accounts[1..], email)
  }

  /** The account found is the first one with that email. */
  lemma {:induction false} FindByEmailIsFirst(accounts: seq<User>, email: string, i: nat)
    requires i < |accounts| && accounts[i].email == email
    requires forall j :: 0 <= j < i ==> accounts[j].email != email
    ensures FindByEmail(accounts, email) == Some(accounts[i])
  {
    if i > 0 {
      FindByEmailIsFirst(accounts[1..], email, i - 1);
    }
  }

  /** Any account signs in with either demo password. */
  predicate AcceptedPassword(password: string) {
    password == "admin123" || password == "user123"
  }

  predicate LoginAccepted(accounts: seq<User>, email: string, password: string) {
    EmailTaken(accounts, email) && AcceptedPassword(password)
  }

  /** The account `register` creates; the password is not stored. */
  function NewAccount(id: string, email: string, name: string, location: string, country: string,
                      now: string): User {
    User(id, email, name, location, country, UserRole, now, Some(now))
  }

  /** The module-level `mockUsers` array, shared with the user-management
      screen, which mutates it in place. */
  class UserStore {
    var accounts: seq<User>

    constructor (accounts: seq<User>)
      ensures this.accounts == accounts
    {
      this.accounts := accounts;
    }

    /** `mockUsers.push(u)` */
    method Push(u: User)
      modifies this
      ensures accounts == old(accounts) + [u]
    {
      accounts := accounts + [u];
    }

    /** `mockUsers[i] = u` */
    method SetAt(i: nat, u: User)
      requires i < |accounts|
      modifies this
      ensures accounts == old(accounts)[i := u]
    {
      accounts := accounts[i := u];
    }

    /** `mockUsers.splice(i, 1)` */
    method SpliceOut(i: nat)
      requires i < |accounts|
      modifies this
      ensures accounts == old(accounts)[..i] + old(accounts)[i + 1..]
    {
      accounts := accounts[..i] + accounts[i + 1..];
    }
  }

  class AuthProvider {
    var user: Option<User>
    var isLoading: bool
    var error: Option<string>
    /** `localStorage`, holding the JSON of a user under one key; the JSON
        round trip is the identity here. */
    var storage: map<string, User>
    const accounts: UserStore

    /** The provider as first rendered: no user yet, loading. */
    constructor (accounts: UserStore, storage: map<string, User>)
      ensures this.accounts == accounts && this.storage == storage
      ensures user == None && isLoading && error == None
    {
      this.accounts := accounts;
      this.storage := storage;
      user := None;
      isLoading := true;
      error := None;
    }

    /** The mount effect: restore a stored session, then stop loading. */
    method RestoreSession()
      modifies this
      ensures user == if StorageKey in old(storage) then Some(old(storage)[StorageKey]) else old(user)
      ensures !isLoading && error == old(error) && storage == old(storage)
    {
      if StorageKey in storage {
        user := Some(storage[StorageKey]);
      }
      isLoading := false;
    }

    /** `login`: succeeds iff some account has exactly this email and the
        password is one of the two demo passwords, whichever account it is.
        The stored account itself is not updated. */
    method Login(email: string, password: string, now: string) returns (ok: bool)
      modifies this
      ensures accounts.accounts == old(accounts.accounts)
      ensures ok == LoginAccepted(accounts.accounts, email, password)
      ensures ok ==> FindByEmail(accounts.accounts, email).Some?
                     && var u := FindByEmail(accounts.accounts, email).value.(lastLogin := Some(now));
                        user == Some(u) && storage == old(storage)[StorageKey := u] && error == None
      ensures !ok ==> user == old(user) && storage == old(storage) && error == Some("Invalid email or password")
      ensures !isLoading
    {
      isLoading := true;
      error := None;
      var found := FindByEmail(accounts.accounts, email);
      if found.Some? && AcceptedPassword(password) {
        var updated := found.value.(lastLogin := Some(now));
        user := Some(updated);
        storage := storage[StorageKey := updated];
        isLoading := false;
        ok := true;
      } else {
        error := Some("Invalid email or password");
        isLoading := false;
        ok := false;
      }
    }

    /** `register`: refuses an email already in use; otherwise appends one
        account with the `user` role, signs it in and stores it. */
    method Register(email: string, password: string, name: string, location: string, country: string,
                    newId: string, now: string) returns (ok: bool)
      modifies this, accounts
      ensures ok == !EmailTaken(old(accounts.accounts), email)
      ensures !ok ==> accounts.accounts == old(accounts.accounts) && user == old(user)
                      && storage == old(storage) && error == Some("User already exists")
      ensures ok ==> var u := NewAccount(newId, email, name, location, country, now);
                     accounts.accounts == old(accounts.accounts) + [u] && user == Some(u)
                     && storage == old(storage)[StorageKey := u] && error == None
      ensures !isLoading
    {
      isLoading := true;
      error := None;
      if FindByEmail(accounts.accounts, email).Some? {
        error := Some("User already exists");
        isLoading := false;
        return false;
      }
      var u := NewAccount(newId, email, name, location, country, now);
      accounts.Push(u);
      user := Some(u);
      storage := storage[StorageKey := u];
      isLoading := false;
      ok := true;
    }

    /** `logout`: forget the user and its stored session. */
    method Logout()
      modifies this
      ensures user == None && storage == old(storage) - {StorageKey}
      ensures isLoading == old(isLoading) && error == old(error)
    {
      user := None;
      storage := storage - {StorageKey};
    }

    /** `forgotPassword`: true iff the email belongs to an account; changes
        neither the user nor the accounts. */
    method ForgotPassword(email: string) returns (ok: bool)
      modifies this
      ensures ok == EmailTaken(accounts.accounts, email)
      ensures ok ==> error == None
      ensures !ok ==> error == Some("Email not found")
      ensures user == old(user) && storage == old(storage) && accounts.accounts == old(accounts.accounts)
      ensures !isLoading
    {
      isLoading := true;
      error := None;
      if FindByEmail(accounts.accounts, email).Some? {
        isLoading := false;
        ok := true;
      } else {
        error := Some("Email not found");
        isLoading := false;
        ok := false;
      }
    }
  }
}
