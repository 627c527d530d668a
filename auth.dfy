/**
 * The authentication context: sign-up, log-in and log-out over the stored
 * user list and the current user, which the provider keeps both in its own
 * state and under the current-user storage key.
 */
module Auth {
  import opened Wrappers
  import opened Seqs
  import opened Text
  import opened Data

  datatype AuthResult = AuthSuccess | AuthFailure(error: string)

  const EmailTaken: string := "Email already registered"
  const NotBinusian: string := "Please use a valid Binusian email address"
  const PasswordTooShort: string := "Password must be at least 5 characters"
  const InvalidCredentials: string := "Invalid email or password"

  /** `users.some((u) => u.email === email)`. */
  predicate EmailRegistered(users: seq<User>, email: string)
  {
    exists i :: 0 <= i < |users| && users[i].email == email
  }

  predicate DistinctEmails(users: seq<User>)
  {
    forall i, j :: 0 <= i < j < |users| ==> users[i].email != users[j].email
  }

  /** `users.find((u) => u.email === email && u.password === password)`, as an index. */
  function CredentialIndex(users: seq<User>, email: string, password: string): (r: Option<nat>)
    ensures r.Some? ==> r.value < |users| && users[r.value].email == email && users[r.value].password == password
    ensures r.Some? ==> forall k :: 0 <= k < r.value ==> !(users[k].email == email && users[k].password == password)
    ensures r.None? <==> forall k :: 0 <= k < |users| ==> !(users[k].email == email && users[k].password == password)
  {
    FirstIndex(users, (u: User) => u.email == email && u.password == password)
  }

  /**
   * The message of the first sign-up check that fails, None when all pass.
   * The checks run in a fixed order and are written inline in the source; the
   * contract states them through the two validators.
   */
  function SignupError(users: seq<User>, email: string, password: string): (r: Option<string>)
    ensures r == Some(EmailTaken) <==> EmailRegistered(users, email)
    ensures r == Some(NotBinusian) <==> !EmailRegistered(users, email) && !ValidateBinusianEmail(email)
    ensures r == Some(PasswordTooShort) <==>
      !EmailRegistered(users, email) && ValidateBinusianEmail(email) && !ValidatePassword(password)
    ensures r == None <==>
      !EmailRegistered(users, email) && ValidateBinusianEmail(email) && ValidatePassword(password)
  {
    if EmailRegistered(users, email) then Some(EmailTaken)
    else if !EndsWith(email, "@binus.ac.id") && !EndsWith(email, "@binus.edu") then Some(NotBinusian)
    else if Utf16Length(password) < 5 then Some(PasswordTooShort)
    else None
  }

  /** A successful sign-up keeps the stored e-mail addresses pairwise distinct. */
  lemma SignupKeepsEmailsDistinct(users: seq<User>, newUser: User)
    requires DistinctEmails(users)
    requires SignupError(users, newUser.email, newUser.password) == None
    ensures DistinctEmails(users + [newUser])
  {
    var all := users + [newUser];
    forall i, j | 0 <= i < j < |all| ensures all[i].email != all[j].email {
      if j == |users| {
        assert !(0 <= i < |users| && users[i].email == newUser.email);
      }
    }
  }

  /** Log-in finds a user exactly when some stored user has both the e-mail and the password. */
  lemma LoginFindsIff(users: seq<User>, email: string, password: string)
    ensures CredentialIndex(users, email, password).Some? <==>
      exists u :: u in users && u.email == email && u.password == password
  {
    if u :| u in users && u.email == email && u.password == password {
      var k :| 0 <= k < |users| && users[k] == u;
      assert users[k].email == email && users[k].password == password;
    }
  }

  /** The provider's state: the signed-in user, mirrored under the current-user storage key. */
  class AuthProvider {
    const store: DataStore
    var user: Option<User>

    /** Mounting the provider loads the stored current user. */
    constructor(store: DataStore)
      ensures this.store == store && user == store.currentUser
    {
      this.store := store;
      user := store.currentUser;
    }

    method Login(email: string, password: string) returns (result: AuthResult)
      modifies this`user, store`currentUser
      ensures match CredentialIndex(store.users, email, password)
        case Some(i) =>
          result == AuthSuccess && user == Some(store.users[i]) && store.currentUser == user
        case None =>
          result == AuthFailure(InvalidCredentials) && user == old(user)
          && store.currentUser == old(store.currentUser)
    {
      var users := store.users;
      var found := CredentialIndex(users, email, password);
      if found.Some? {
        user := Some(users[found.value]);
        store.SetCurrentUser(user);
        return AuthSuccess;
      }
      return AuthFailure(InvalidCredentials);
    }

    /** `newId` and `now` stand for the `user_<Date.now()>` id and the creation time. */
    method Signup(name: string, nim: string, email: string, password: string, newId: Id, now: int)
      returns (result: AuthResult)
      modifies this`user, store`users, store`currentUser
      ensures SignupError(old(store.users), email, password).Some? ==>
        && result == AuthFailure(SignupError(old(store.users), email, password).value)
        && user == old(user) && store.users == old(store.users)
        && store.currentUser == old(store.currentUser)
      ensures SignupError(old(store.users), email, password).None? ==>
        var newUser := User(newId, name, nim, email, password, Both, now);
        && result == AuthSuccess
        && store.users == old(store.users) + [newUser]
        && user == Some(newUser) && store.currentUser == user
    {
      var users := store.users;
      if exists i :: 0 <= i < |users| && users[i].email == email {
        return AuthFailure(EmailTaken);
      }
      if !EndsWith(email, "@binus.ac.id") && !EndsWith(email, "@binus.edu") {
        return AuthFailure(NotBinusian);
      }
      if Utf16Length(password) < 5 {
        return AuthFailure(PasswordTooShort);
      }
      var newUser := User(newId, name, nim, email, password, Both, now);
      store.SetUsers(users + [newUser]);
      user := Some(newUser);
      store.SetCurrentUser(user);
      return AuthSuccess;
    }

    method Logout()
      modifies this`user, store`currentUser
      ensures user == None && store.currentUser == None
    {
      user := None;
      store.SetCurrentUser(None);
    }
  }
}
