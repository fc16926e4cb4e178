/**
 * The application state: the auth store's user list and session, and the
 * trip store's list, held together because every trip mutation consults the
 * session. Each method changes the fields the source changes, in the order of
 * checks the source makes; writing the state back to browser storage is not
 * modelled.
 */
module Store {
  import opened Wrappers
  import opened Sequences
  import opened Types
  import opened Trips
  import opened Auth

  /** Why a trip mutation was refused. */
  datatype TripError = NotAuthenticated | NotFound | NotOwner

  datatype TripOp = CreateOp | UpdateOp | DeleteOp

  /** The message each refusal is thrown with. */
  function ErrorMessage(op: TripOp, e: TripError): (m: string)
    ensures m != []
  {
    match e
    case NotAuthenticated =>
      (match op
       case CreateOp => "Must be authenticated to create trips"
       case UpdateOp => "Must be authenticated to update trips"
       case DeleteOp => "Must be authenticated to delete trips")
    case NotFound => "Trip not found"
    case NotOwner =>
      if op == DeleteOp then "You can only delete your own trips" else "You can only edit your own trips"
  }

  /** Within one operation, the message tells the three refusals apart. */
  lemma ErrorMessagesDistinct(op: TripOp, e1: TripError, e2: TripError)
    requires ErrorMessage(op, e1) == ErrorMessage(op, e2)
    ensures e1 == e2
  {
  }

  /** What a refused trip mutation throws: the kind of refusal and its message. */
  datatype Refusal = Refusal(kind: TripError, message: string)

  function Refused(op: TripOp, e: TripError): Refusal
  {
    Refusal(e, ErrorMessage(op, e))
  }

  class Store {
    var users: seq<User>
    var currentUser: Option<User>
    var trips: seq<Trip>

    /** The invariant registration maintains: no two accounts share an email. */
    ghost predicate EmailsUnique()
      reads this
    {
      EmailsDistinct(users)
    }

    /** `isAuthenticated`: a session user is set. */
    predicate IsAuthenticated()
      reads this
      ensures IsAuthenticated() <==> currentUser != None
    {
      currentUser.Some?
    }

    /**
     * Start-up from a storage snapshot: users as stored or the demo account,
     * the stored session restored without checking it against the users, and
     * the stored trips unless missing or empty, else the seed stamped `now`.
     */
    constructor (storedUsers: Option<seq<User>>, storedSession: Option<User>,
                 storedTrips: Option<seq<Trip>>, now: string, seedText: seq<SeedText>)
      requires |seedText| == |SeedIds|
      ensures users == LoadUsers(storedUsers)
      ensures currentUser == storedSession
      ensures trips == LoadTrips(storedTrips, DefaultTrips(now, seedText))
      ensures storedUsers.None? ==> EmailsUnique()
      ensures trips != []
    {
      users := LoadUsers(storedUsers);
      currentUser := storedSession;
      trips := LoadTrips(storedTrips, DefaultTrips(now, seedText));
    }

    /**
     * `register`: refused if the email is taken, changing nothing; otherwise
     * the new account is appended and becomes the session.
     */
    method Register(email: string, password: string, newId: string) returns (r: AuthResult)
      modifies this`users, this`currentUser
      ensures EmailTaken(old(users), email) ==>
        && r == AuthResult(false, Some(DuplicateEmailMessage))
        && users == old(users) && currentUser == old(currentUser)
      ensures !EmailTaken(old(users), email) ==>
        && r == AuthResult(true, None)
        && users == old(users) + [User(newId, email, password)]
        && currentUser == Some(User(newId, email, password))
      ensures old(EmailsUnique()) ==> EmailsUnique()
    {
      if EmailTaken(users, email) {
        return AuthResult(false, Some(DuplicateEmailMessage));
      }
      var newUser := User(newId, email, password);
      if EmailsUnique() {
        AppendKeepsEmailsDistinct(users, newUser);
      }
      users := users + [newUser];
      currentUser := Some(newUser);
      r := AuthResult(true, None);
    }

    /**
     * `login`: the first user with both this email and this password becomes
     * the session; with none, the session is kept and the call fails.
     */
    method Login(email: string, password: string) returns (r: AuthResult)
      modifies this`currentUser
      ensures r.success <==> exists i :: 0 <= i < |users| && users[i].email == email && users[i].password == password
      ensures r.success ==> r.error.None? && currentUser == Find(users, HasCredentials(email, password))
      ensures r.success ==> currentUser.value.email == email && currentUser.value.password == password
      ensures !r.success ==> r.error == Some(InvalidCredentialsMessage) && currentUser == old(currentUser)
    {
      var user := Find(users, HasCredentials(email, password));
      assert forall i :: 0 <= i < |users| ==>
        (HasCredentials(email, password)(users[i]) <==> users[i].email == email && users[i].password == password);
      if user.None? {
        return AuthResult(false, Some(InvalidCredentialsMessage));
      }
      currentUser := user;
      r := AuthResult(true, None);
    }

    /** `logout`: the session is cleared. */
    method Logout()
      modifies this`currentUser
      ensures currentUser.None? && !IsAuthenticated()
    {
      currentUser := None;
    }

    /**
     * `createTrip`: refused without a session; otherwise a trip with the
     * caller's content, owned by the session user, is appended.
     */
    method CreateTrip(data: TripData, newId: string, createdAt: string, updatedAt: string)
      returns (r: Result<Trip, Refusal>)
      modifies this`trips
      ensures currentUser.None? ==> r == Failure(Refused(CreateOp, NotAuthenticated)) && trips == old(trips)
      ensures currentUser.Some? ==>
        && r == Success(NewTrip(data, newId, currentUser.value.id, createdAt, updatedAt))
        && trips == old(trips) + [r.value]
    {
      if !IsAuthenticated() {
        return Failure(Refused(CreateOp, NotAuthenticated));
      }
      var newTrip := NewTrip(data, newId, currentUser.value.id, createdAt, updatedAt);
      trips := trips + [newTrip];
      r := Success(newTrip);
    }

    /**
     * `updateTrip`: refused without a session, then if no trip has the id,
     * then if the first such trip belongs to someone else; otherwise that trip
     * alone gets the patch and the new `updatedAt`.
     */
    method UpdateTrip(id: string, patch: TripPatch, now: string) returns (r: Result<Trip, Refusal>)
      modifies this`trips
      ensures r.Failure? ==> trips == old(trips)
      ensures currentUser.None? ==> r == Failure(Refused(UpdateOp, NotAuthenticated))
      ensures currentUser.Some? && FindIndex(old(trips), HasId(id)).None? ==> r == Failure(Refused(UpdateOp, NotFound))
      ensures currentUser.Some? && FindIndex(old(trips), HasId(id)).Some? ==>
        var i := FindIndex(old(trips), HasId(id)).value;
        if old(trips)[i].userId != currentUser.value.id then r == Failure(Refused(UpdateOp, NotOwner))
        else
          && r == Success(ApplyPatch(old(trips)[i], patch, now))
          && trips == old(trips)[i := r.value]
    {
      if !IsAuthenticated() {
        return Failure(Refused(UpdateOp, NotAuthenticated));
      }
      var found := FindIndex(trips, HasId(id));
      if found.None? {
        return Failure(Refused(UpdateOp, NotFound));
      }
      var i := found.value;
      if trips[i].userId != currentUser.value.id {
        return Failure(Refused(UpdateOp, NotOwner));
      }
      var updated := ApplyPatch(trips[i], patch, now);
      trips := trips[i := updated];
      r := Success(updated);
    }

    /**
     * `deleteTrip`: the same checks in the same order, the owner test looking
     * only at the first trip with the id; then every trip with the id goes.
     */
    method DeleteTrip(id: string) returns (r: Outcome<Refusal>)
      modifies this`trips
      ensures r.Fail? ==> trips == old(trips)
      ensures currentUser.None? ==> r == Fail(Refused(DeleteOp, NotAuthenticated))
      ensures currentUser.Some? && FindIndex(old(trips), HasId(id)).None? ==> r == Fail(Refused(DeleteOp, NotFound))
      ensures currentUser.Some? && FindIndex(old(trips), HasId(id)).Some? ==>
        var i := FindIndex(old(trips), HasId(id)).value;
        if old(trips)[i].userId != currentUser.value.id then r == Fail(Refused(DeleteOp, NotOwner))
        else r == Pass && trips == RemoveTrip(old(trips), id)
    {
      if !IsAuthenticated() {
        return Fail(Refused(DeleteOp, NotAuthenticated));
      }
      var found := FindIndex(trips, HasId(id));
      if found.None? {
        return Fail(Refused(DeleteOp, NotFound));
      }
      if trips[found.value].userId != currentUser.value.id {
        return Fail(Refused(DeleteOp, NotOwner));
      }
      trips := RemoveTrip(trips, id);
      r := Pass;
    }
  }

  /**
   * A fresh start with nothing stored: the demo account can log in, owns every
   * seed trip, and can delete one of them, which leaves the other nine.
   */
  method FreshStartScenario(now: string, seedText: seq<SeedText>)
    requires |seedText| == |SeedIds|
  {
    var s := new Store(None, None, None, now, seedText);
    assert s.users == [DemoUser];
    assert !s.IsAuthenticated();
    var login := s.Login("demo@example.com", "demo123");
    assert s.users[0].email == "demo@example.com" && s.users[0].password == "demo123";
    assert login.success && s.currentUser == Some(DemoUser);
    var again := s.Register("demo@example.com", "other", "x");
    assert EmailTaken(s.users, "demo@example.com") by {
      assert HasEmail("demo@example.com")(s.users[0]);
    }
    assert !again.success;
    SeedIdsDistinct();
    assert s.trips[0].id == "1" && s.trips[0].userId == DemoUser.id;
    FindIndexFirst(s.trips, HasId("1"), 0);
    var deleted := s.DeleteTrip("1");
    assert deleted == Pass;
    assert |s.trips| < |SeedIds|;
    s.Logout();
    var refused := s.DeleteTrip("2");
    assert refused == Fail(Refused(DeleteOp, NotAuthenticated));
  }
}
