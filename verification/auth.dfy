/** The pure part of the auth store: the seed account and the lookups over the user list. */
module Auth {
  import opened Wrappers
  import opened Sequences
  import opened Types

  /** The demonstration account seeded when no user list is stored. */
  const DemoUser: User := User("demo-user-001", "demo@example.com", "demo123")

  const DuplicateEmailMessage: string := "Email already registered"
  const InvalidCredentialsMessage: string := "Invalid email or password"

  /** The `{ success, error? }` value `register` and `login` return. */
  datatype AuthResult = AuthResult(success: bool, error: Option<string>)

  /** No two users share an email (compared exactly, case included). */
  ghost predicate EmailsDistinct(users: seq<User>)
  {
    forall i, j :: 0 <= i < j < |users| ==> users[i].email != users[j].email
  }

  function HasEmail(email: string): User -> bool
  {
    (u: User) => u.email == email
  }

  /** Some user already has exactly this email. */
  predicate EmailTaken(users: seq<User>, email: string)
    ensures EmailTaken(users, email) <==> exists u :: u in users && u.email == email
  {
    assert forall i :: 0 <= i < |users| ==> (HasEmail(email)(users[i]) <==> users[i].email == email);
    Any(users, HasEmail(email))
  }

  function HasCredentials(email: string, password: string): User -> bool
  {
    (u: User) => u.email == email && u.password == password
  }

  /** The user list on start-up: the stored list as it is, or just the demo account. */
  function LoadUsers(stored: Option<seq<User>>): (r: seq<User>)
    ensures stored.None? ==> r == [DemoUser] && EmailsDistinct(r)
    ensures stored.Some? ==> r == stored.value
  {
    if stored.Some? then stored.value else [DemoUser]
  }

  /** Appending a user whose email is not taken keeps the emails distinct. */
  lemma AppendKeepsEmailsDistinct(users: seq<User>, u: User)
    requires EmailsDistinct(users)
    requires !EmailTaken(users, u.email)
    ensures EmailsDistinct(users + [u])
  {
  }

  /**
   * With distinct emails, the user a successful login finds is the only one
   * with that email.
   */
  lemma LoginFindsTheOnlyAccount(users: seq<User>, email: string, password: string)
    requires EmailsDistinct(users)
    requires Find(users, HasCredentials(email, password)).Some?
    ensures var u := Find(users, HasCredentials(email, password)).value;
      u in users && u.email == email && u.password == password &&
      forall i :: 0 <= i < |users| && users[i].email == email ==> users[i] == u
  {
  }
}
