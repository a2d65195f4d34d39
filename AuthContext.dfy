/**
 * The session store of src/context/AuthContext.tsx: two tiers of accounts (a fixed pair of
 * built-in test accounts and the registered accounts persisted under `registeredUsers`),
 * the current session, persisted under `user`, and login, registration and logout.
 */
module AuthContext {
  import opened Wrappers
  import opened Types
  import opened Arrays
  import opened Storage

  /** A built-in account: credentials and display name, no id. */
  datatype TestAccount = TestAccount(email: string, password: string, username: string)

  const TestAccounts: seq<TestAccount> := [
    TestAccount("demo@example.com", "password123", "Demo User"),
    TestAccount("test@user.com", "testpass", "Test User")
  ]

  /** First built-in account whose email and password both equal the given ones. */
  function FindTestAccount(email: string, password: string): Option<nat> {
    FindIndex(TestAccounts, (acc: TestAccount) => acc.email == email && acc.password == password)
  }

  /** First registered account whose email and password both equal the given ones. */
  function FindRegistered(users: seq<Account>, email: string, password: string): Option<nat> {
    FindIndex(users, (u: Account) => u.email == email && u.password == password)
  }

  /** First registered account with the given email. */
  function FindEmail(users: seq<Account>, email: string): Option<nat> {
    FindIndex(users, (u: Account) => u.email == email)
  }

  predicate IsTestEmail(email: string) {
    Any(TestAccounts, (acc: TestAccount) => acc.email == email)
  }

  /** Registration refuses an email that any registered or built-in account already uses. */
  predicate EmailTaken(users: seq<Account>, email: string): (r: bool)
    ensures r <==> (exists j :: 0 <= j < |users| && users[j].email == email) ||
                   (exists i :: 0 <= i < |TestAccounts| && TestAccounts[i].email == email)
  {
    FindEmail(users, email).Some? || IsTestEmail(email)
  }

  /** The record registration appends. */
  function NewAccount(id: string, email: string, username: string, password: string): Account {
    Account(id, email, username, password, None)
  }

  /** The session value made from a registered account: every field but the password. */
  function Project(a: Account): User {
    User(a.id, a.email, a.username, a.avatar)
  }

  /** The session a login produces against the registered list `users`, or None when it fails.
      A built-in account gets the externally supplied `freshId`. */
  function LoginResult(users: seq<Account>, email: string, password: string, freshId: string): (r: Option<User>)
    ensures r.None? <==> FindTestAccount(email, password).None? && FindRegistered(users, email, password).None?
    ensures r.Some? ==> r.value.email == email
    ensures FindTestAccount(email, password).Some? ==> r.Some? && r.value.id == freshId && r.value.avatar.None?
    ensures FindTestAccount(email, password).None? && r.Some? ==>
      exists j :: 0 <= j < |users| && users[j].email == email && users[j].password == password &&
        r.value == Project(users[j])
  {
    match FindTestAccount(email, password)
    case Some(i) => Some(User(freshId, TestAccounts[i].email, TestAccounts[i].username, None))
    case None =>
      match FindRegistered(users, email, password)
      case Some(j) => Some(Project(users[j]))
      case None => None
  }

  /** No two registered accounts share an email, and none uses a built-in email. */
  predicate UniqueEmails(users: seq<Account>) {
    (forall i, j :: 0 <= i < j < |users| ==> users[i].email != users[j].email) &&
    (forall i :: 0 <= i < |users| ==> !IsTestEmail(users[i].email))
  }

  /** Exact built-in credentials always log in, whatever is registered, and the session takes
      the built-in account's email and username with the supplied id. */
  lemma BuiltInLoginWins(users: seq<Account>, i: nat, freshId: string)
    requires i < |TestAccounts|
    ensures LoginResult(users, TestAccounts[i].email, TestAccounts[i].password, freshId)
         == Some(User(freshId, TestAccounts[i].email, TestAccounts[i].username, None))
  {
  }

  /** Login succeeds exactly when some built-in or some registered account has both the email and
      the password. */
  lemma LoginSucceedsIff(users: seq<Account>, email: string, password: string, freshId: string)
    ensures LoginResult(users, email, password, freshId).Some? <==>
      (exists i :: 0 <= i < |TestAccounts| && TestAccounts[i].email == email && TestAccounts[i].password == password) ||
      (exists j :: 0 <= j < |users| && users[j].email == email && users[j].password == password)
  {
  }

  /** When no built-in account matches, login returns the password-free projection of the first
      registered account with these credentials. */
  lemma RegisteredLoginProjects(users: seq<Account>, email: string, password: string, freshId: string, j: nat)
    requires FindTestAccount(email, password).None?
    requires j < |users| && users[j].email == email && users[j].password == password
    requires forall k :: 0 <= k < j ==> !(users[k].email == email && users[k].password == password)
    ensures LoginResult(users, email, password, freshId) == Some(Project(users[j]))
    ensures Project(users[j]).email == email
  {
  }

  /** After a successful registration the email is taken, so registering it again fails. */
  lemma RegisterTakesEmail(users: seq<Account>, id: string, email: string, username: string, password: string)
    ensures EmailTaken(users + [NewAccount(id, email, username, password)], email)
  {
    var all := users + [NewAccount(id, email, username, password)];
    assert all[|users|].email == email;
  }

  /** A successful registration followed by a login with the same credentials yields the
      registration's session. */
  lemma RegisterThenLogin(users: seq<Account>, id: string, email: string, username: string, password: string, otherId: string)
    requires !EmailTaken(users, email)
    ensures LoginResult(users + [NewAccount(id, email, username, password)], email, password, otherId)
         == Some(User(id, email, username, None))
  {
    var all := users + [NewAccount(id, email, username, password)];
    assert !IsTestEmail(email);
    assert FindTestAccount(email, password).None? by {
      forall i | 0 <= i < |TestAccounts|
        ensures !(TestAccounts[i].email == email && TestAccounts[i].password == password)
      {
        assert TestAccounts[i].email != email;
      }
    }
    forall k | 0 <= k < |users|
      ensures !(all[k].email == email && all[k].password == password)
    {
      assert all[k] == users[k];
      assert users[k].email != email;
    }
    RegisteredLoginProjects(all, email, password, otherId, |users|);
  }

  /** Registration keeps registered emails distinct from each other and from the built-in ones. */
  lemma RegisterKeepsEmailsUnique(users: seq<Account>, id: string, email: string, username: string, password: string)
    requires UniqueEmails(users) && !EmailTaken(users, email)
    ensures UniqueEmails(users + [NewAccount(id, email, username, password)])
  {
  }

  /**
   * The authentication provider: the current session `user` and the storage it persists to.
   * The registered list is not held in memory: every operation re-reads it from storage.
   */
  class AuthProvider {
    var user: Option<User>
    const storage: LocalStorage

    /** Mounting the provider: the session starts empty and is then restored from storage. */
    constructor (storage: LocalStorage)
      ensures this.storage == storage
      ensures user == storage.user
    {
      this.storage := storage;
      user := None;
      var saved := storage.user;
      if saved.Some? {
        user := saved;
      }
    }

    /** The persisted registered list; an absent key reads as the empty list. */
    function Registered(): seq<Account>
      reads storage
    {
      storage.registeredUsers.GetOr([])
    }

    /** Someone is signed in. */
    function IsAuthenticated(): (r: bool)
      reads this
      ensures r <==> user != None
    {
      user.Some?
    }

    /** Built-in accounts first, then registered ones; on success the session is set and persisted,
        on failure neither the session nor the stored `user` key changes. */
    method Login(email: string, password: string, freshId: string) returns (success: bool)
      modifies this, storage`user
      ensures success == LoginResult(old(Registered()), email, password, freshId).Some?
      ensures success ==> user == LoginResult(old(Registered()), email, password, freshId)
      ensures success ==> storage.user == user
      ensures !success ==> user == old(user) && storage.user == old(storage.user)
    {
      var account := FindTestAccount(email, password);
      if account.None? {
        var users := storage.registeredUsers.GetOr([]);
        var registered := FindRegistered(users, email, password);
        if registered.None? {
          return false;
        }
        var found := users[registered.value];
        var newUser := User(found.id, found.email, found.username, found.avatar);
        user := Some(newUser);
        storage.user := Some(newUser);
        return true;
      }
      var acc := TestAccounts[account.value];
      var newUser := User(freshId, acc.email, acc.username, None);
      user := Some(newUser);
      storage.user := Some(newUser);
      return true;
    }

    /** Refuses a taken email and changes nothing; otherwise appends one record to the persisted
        list and signs in as that record without its password. */
    method Register(email: string, username: string, password: string, freshId: string) returns (success: bool)
      modifies this, storage`user, storage`registeredUsers
      ensures success == !EmailTaken(old(Registered()), email)
      ensures success ==> storage.registeredUsers == Some(old(Registered()) + [NewAccount(freshId, email, username, password)])
      ensures success ==> user == Some(User(freshId, email, username, None)) && storage.user == user
      ensures !success ==> user == old(user) && storage.user == old(storage.user)
      ensures !success ==> storage.registeredUsers == old(storage.registeredUsers)
    {
      var users := storage.registeredUsers.GetOr([]);
      var existing := FindEmail(users, email);
      if existing.Some? || IsTestEmail(email) {
        return false;
      }
      var newUser := NewAccount(freshId, email, username, password);
      users := users + [newUser];
      storage.registeredUsers := Some(users);
      var withoutPassword := User(newUser.id, newUser.email, newUser.username, None);
      user := Some(withoutPassword);
      storage.user := Some(withoutPassword);
      return true;
    }

    /** Ends the session and removes the persisted one. */
    method Logout()
      modifies this, storage`user
      ensures user == None && storage.user == None
      ensures !IsAuthenticated()
    {
      user := None;
      storage.user := None;
    }
  }
}
