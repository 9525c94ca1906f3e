/** The mock authentication provider: the built-in accounts, login against them, the stored
    session and its 24-hour expiry, signup into the stored user list, logout, and the role
    checks the rest of the application uses.

    `localStorage['auth_session']` and `localStorage['mock_users']` are fields of the
    provider; the clock is a parameter and the 1000 ms delays are collapsed into the calls. */
module AuthContext {
  import opened Wrappers
  import opened Text

  /** One account: what signup stores and what the built-in list holds. */
  datatype UserRecord = UserRecord(email: string, password: string, role: string, name: string)

  /** The two built-in accounts. */
  const MockUsers: seq<UserRecord> := [
    UserRecord("admin@biblestory.ph", "admin123", "admin", "Admin User"),
    UserRecord("user@biblestory.ph", "user123", "user", "Regular User")
  ]

  /** The user object of a session: the account without its password. */
  datatype SessionUser = SessionUser(email: string, name: string, role: string)

  /** What `auth_session` holds: the session user and the time of the login. */
  datatype Session = Session(user: SessionUser, timestamp: int)

  /** The text under `auth_session`, as `JSON.parse` sees it. */
  datatype StoredSession = Parsed(session: Session) | Unparsable

  const SessionLifetime: int := 24 * 60 * 60 * 1000

  const InvalidCredentials: string := "Invalid email or password"
  const DuplicateEmail: string := "User with this email already exists"

  // ---------------------------------------------------------------------------------------
  // Login

  /** The first account whose email matches ignoring case and whose password matches exactly. */
  function FindUser(users: seq<UserRecord>, email: string, password: string): (r: Option<nat>)
    ensures r.Some? ==> r.value < |users| && Matches(users[r.value], email, password)
    ensures r.None? <==> forall i :: 0 <= i < |users| ==> !Matches(users[i], email, password)
  {
    if users == [] then None
    else if Matches(users[0], email, password) then Some(0)
    else match FindUser(users[1..], email, password)
      case None => None
      case Some(k) => Some(k + 1)
  }

  predicate Matches(u: UserRecord, email: string, password: string) {
    Lower(u.email) == Lower(email) && u.password == password
  }

  /** No account before the one found matches. */
  lemma {:induction false} FindUserIsFirst(users: seq<UserRecord>, email: string, password: string)
    requires FindUser(users, email, password).Some?
    ensures forall j :: 0 <= j < FindUser(users, email, password).value ==> !Matches(users[j], email, password)
  {
    if !Matches(users[0], email, password) {
      FindUserIsFirst(users[1..], email, password);
    }
  }

  /** The session user of an account. */
  function SessionUserOf(u: UserRecord): SessionUser {
    SessionUser(u.email, u.name, u.role)
  }

  /** `login`'s outcome: the session the built-in accounts grant at time `now`, or the
      invalid-credentials error. Only `MockUsers` is consulted. */
  function Login(email: string, password: string, now: int): Result<Session> {
    match FindUser(MockUsers, email, password)
    case None => Err(InvalidCredentials)
    case Some(i) => Ok(Session(SessionUserOf(MockUsers[i]), now))
  }

  /** A login succeeds exactly when a built-in account matches; its session carries that
      account's email, name and role (and so never a password) and the login time. */
  lemma LoginOutcome(email: string, password: string, now: int)
    ensures Login(email, password, now).Ok? <==>
      exists i :: 0 <= i < |MockUsers| && Matches(MockUsers[i], email, password)
    ensures Login(email, password, now).Err? ==> Login(email, password, now).message == InvalidCredentials
    ensures Login(email, password, now).Ok? ==>
      exists i :: 0 <= i < |MockUsers| && Matches(MockUsers[i], email, password)
        && Login(email, password, now).value == Session(SessionUser(MockUsers[i].email, MockUsers[i].name, MockUsers[i].role), now)
  {
  }

  /** The built-in admin logs in with its password under any spelling of its email that
      lower-cases to the same text. */
  lemma AdminLogsInIgnoringCase(email: string, now: int)
    requires Lower(email) == Lower("admin@biblestory.ph")
    ensures Login(email, "admin123", now) == Ok(Session(SessionUser("admin@biblestory.ph", "Admin User", "admin"), now))
  {
    assert Matches(MockUsers[0], email, "admin123");
  }

  /** An email that is not one of the built-in accounts' never logs in, whatever signup has
      stored: a newly signed-up account cannot log in. */
  lemma NewAccountsCannotLogIn(email: string, password: string, now: int)
    requires forall i :: 0 <= i < |MockUsers| ==> Lower(MockUsers[i].email) != Lower(email)
    ensures Login(email, password, now) == Err(InvalidCredentials)
  {
  }

  // ---------------------------------------------------------------------------------------
  // Sessions, signup, roles

  /** A stored session is too old when more than 24 hours have passed since the login. */
  predicate Expired(s: Session, now: int) {
    now - s.timestamp > SessionLifetime
  }

  /** The boundary is strict: a session exactly 24 hours old is still valid. */
  lemma ExpiryIsStrict(s: Session, now: int)
    ensures now == s.timestamp + SessionLifetime ==> !Expired(s, now)
    ensures now == s.timestamp + SessionLifetime + 1 ==> Expired(s, now)
    ensures Expired(s, now) <==> now > s.timestamp + 86400000
  {
  }

  /** `signup`'s outcome on the stored list: the duplicate error when a stored account has the
      same email (compared exactly), else the list with the new account appended. */
  function Signup(users: seq<UserRecord>, data: UserRecord): Result<seq<UserRecord>> {
    if EmailTaken(users, data.email) then Err(DuplicateEmail) else Ok(users + [data])
  }

  /** `users.some(user => user.email === email)`. */
  predicate EmailTaken(users: seq<UserRecord>, email: string) {
    exists i :: 0 <= i < |users| && users[i].email == email
  }

  /** A signup is refused exactly for a taken email and then stores nothing; otherwise it
      appends exactly the new account and keeps every stored one in place. */
  lemma SignupOutcome(users: seq<UserRecord>, data: UserRecord)
    ensures Signup(users, data).Err? <==> exists i :: 0 <= i < |users| && users[i].email == data.email
    ensures Signup(users, data).Err? ==> Signup(users, data).message == DuplicateEmail
    ensures Signup(users, data).Ok? ==>
      var r := Signup(users, data).value;
      |r| == |users| + 1 && r[..|users|] == users && r[|users|] == data
  {
    if Signup(users, data).Ok? {
      assert Signup(users, data).value[..|users|] == users;
    }
  }

  /** The email comparison is case-sensitive: an account differing only in case is new. */
  lemma SignupEmailIsCaseSensitive()
    ensures Signup(MockUsers, UserRecord("Admin@biblestory.ph", "secret1", "user", "A")).Ok?
  {
    var data := UserRecord("Admin@biblestory.ph", "secret1", "user", "A");
    assert MockUsers[0].email[0] != data.email[0];
    assert MockUsers[1].email[0] != data.email[0];
  }

  /** The stored list `initializeMockUsers` leaves: the built-in accounts when none is stored. */
  function WithMockUsers(stored: Option<seq<UserRecord>>): (r: Option<seq<UserRecord>>)
    ensures r.Some?
    ensures stored.Some? ==> r == stored
  {
    if stored.None? then Some(MockUsers) else stored
  }

  /** Initialising twice is initialising once. */
  lemma InitializeIdempotent(stored: Option<seq<UserRecord>>)
    ensures WithMockUsers(WithMockUsers(stored)) == WithMockUsers(stored)
    ensures stored.None? ==> WithMockUsers(stored) == Some(MockUsers)
  {
  }

  /** `hasRole(role)`: a user is logged in and has exactly that role. */
  function HasRole(user: Option<SessionUser>, role: string): (b: bool)
    ensures b <==> user.Some? && user.value.role == role
  {
    match user
    case None => false
    case Some(u) => u.role == role
  }

  /** `isAuthenticated()`: a user is logged in. */
  function IsAuthenticated(user: Option<SessionUser>): (b: bool)
    ensures b <==> user.Some?
  {
    user != None
  }

  /** Holding some role implies being logged in. */
  lemma RoleImpliesAuthenticated(user: Option<SessionUser>, role: string)
    ensures HasRole(user, role) ==> IsAuthenticated(user)
  {
  }

  // ---------------------------------------------------------------------------------------
  // The mount effect

  /** The provider's state after the mount effect: the user, the loading flag and the stored
      session. */
  datatype Mounted = Mounted(user: Option<SessionUser>, loading: bool, session: Option<StoredSession>)

  /** `initializeAndCheckSession` (after the users are initialised), from the state `m`. An
      expired session logs out and returns before `setLoading(false)`; an unreadable one logs
      out and falls through. */
  function AfterMount(m: Mounted, now: int): Mounted {
    match m.session
    case None => m.(loading := false)
    case Some(Unparsable) => Mounted(None, false, None)
    case Some(Parsed(s)) =>
      if Expired(s, now) then m.(user := None, session := None)
      else m.(user := Some(s.user), loading := false)
  }

  /** The provider's state when it mounts: no user, loading, and whatever session is stored. */
  function AtMount(stored: Option<StoredSession>): Mounted {
    Mounted(None, true, stored)
  }

  /** On mount a fresh stored session restores its user; every other case ends with no user
      and no stored session; only the expired case leaves `loading` set. */
  lemma MountOutcome(stored: Option<StoredSession>, now: int)
    ensures var m := AfterMount(AtMount(stored), now);
      && (m.user.Some? <==> stored.Some? && stored.value.Parsed? && !Expired(stored.value.session, now))
      && (m.user.Some? ==> m.user == Some(stored.value.session.user) && m.session == stored)
      && (m.user.None? ==> m.session.None?)
      && (m.loading <==> stored.Some? && stored.value.Parsed? && Expired(stored.value.session, now))
  {
  }

  // ---------------------------------------------------------------------------------------
  // The provider as an object

  /** The provider's state and the two storage keys it uses. */
  class AuthProvider {
    var user: Option<SessionUser>
    var loading: bool
    /** `localStorage['auth_session']`. */
    var sessionStore: Option<StoredSession>
    /** `localStorage['mock_users']`. */
    var usersStore: Option<seq<UserRecord>>

    constructor (session: Option<StoredSession>, users: Option<seq<UserRecord>>)
      ensures user == None && loading && sessionStore == session && usersStore == users
    {
      user := None;
      loading := true;
      sessionStore := session;
      usersStore := users;
    }

    method InitializeMockUsers()
      modifies this`usersStore
      ensures usersStore == WithMockUsers(old(usersStore))
    {
      if usersStore.None? {
        usersStore := Some(MockUsers);
      }
    }

    /** `logout`: removes the stored session and clears the user. */
    method Logout()
      modifies this`sessionStore, this`user
      ensures sessionStore == None && user == None
    {
      sessionStore := None;
      user := None;
    }

    /** The mount effect. */
    method Mount(now: int)
      modifies this`usersStore, this`sessionStore, this`user, this`loading
      ensures usersStore == WithMockUsers(old(usersStore))
      ensures Mounted(user, loading, sessionStore) == AfterMount(Mounted(old(user), old(loading), old(sessionStore)), now)
    {
      InitializeMockUsers();
      match sessionStore {
        case Some(Parsed(s)) =>
          if now - s.timestamp > SessionLifetime {
            Logout();
            return;
          }
          user := Some(s.user);
        case Some(Unparsable) =>
          Logout();
        case None =>
      }
      loading := false;
    }

    /** `login`: on success stores the session and sets the user, and returns the user. */
    method LogIn(email: string, password: string, now: int) returns (r: Result<SessionUser>)
      modifies this`sessionStore, this`user
      ensures var l := Login(email, password, now);
        && (l.Ok? ==> r == Ok(l.value.user) && sessionStore == Some(Parsed(l.value)) && user == Some(l.value.user))
        && (l.Err? ==> r == Err(l.message) && sessionStore == old(sessionStore) && user == old(user))
    {
      var found := FindUser(MockUsers, email, password);
      if found.None? {
        return Err(InvalidCredentials);
      }
      var u := MockUsers[found.value];
      var session := Session(SessionUser(u.email, u.name, u.role), now);
      sessionStore := Some(Parsed(session));
      user := Some(session.user);
      r := Ok(session.user);
    }

    /** `signup`: reads the stored list (empty when absent), refuses a taken email, else
        stores the list with the new account. */
    method SignUp(data: UserRecord) returns (r: Option<string>)
      modifies this`usersStore
      ensures var s := Signup(old(usersStore).GetOr([]), data);
        && (s.Err? ==> r == Some(s.message) && usersStore == old(usersStore))
        && (s.Ok? ==> r == None && usersStore == Some(s.value))
    {
      var users := usersStore.GetOr([]);
      if EmailTaken(users, data.email) {
        return Some(DuplicateEmail);
      }
      usersStore := Some(users + [data]);
      r := None;
    }
  }
}
