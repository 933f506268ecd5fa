/** The local user store (src/users/users.service.ts) over an in-memory
    state standing for the `User` and `ApiLog` tables: users keyed by their
    unique email, and an append-only usage log whose entries must name an
    existing user. bcrypt is a parameter. */
module UserStore {
  import opened Wrappers
  import opened RolesGuard

  /** A stored user. */
  datatype User = User(id: nat, email: string, passwordHash: string, role: UserRole, createdAt: int, updatedAt: int)

  /** One usage log entry. */
  datatype ApiLog = ApiLog(id: nat, userId: nat, endpoint: string, httpMethod: string, statusCode: int, timestamp: int)

  /** The two tables and their id counters. */
  datatype Store = Store(users: map<string, User>, nextUserId: nat, logs: seq<ApiLog>, nextLogId: nat)

  /** The constraints of the schema a write can violate. */
  datatype StoreError = UniqueViolation | ForeignKeyViolation

  predicate HasUserId(st: Store, id: nat) {
    exists e :: e in st.users && st.users[e].id == id
  }

  /** The schema's invariants: each user is filed under its own email, user
      ids are distinct and below the counter, and every log entry names an
      existing user and has an id below its counter. */
  ghost predicate Valid(st: Store) {
    && (forall e :: e in st.users ==> st.users[e].email == e && st.users[e].id < st.nextUserId)
    && (forall e1, e2 :: e1 in st.users && e2 in st.users && st.users[e1].id == st.users[e2].id ==> e1 == e2)
    && (forall i :: 0 <= i < |st.logs| ==> st.logs[i].id < st.nextLogId && HasUserId(st, st.logs[i].userId))
  }

  /** The store with no users and no log entries. */
  const Empty: Store := Store(map[], 1, [], 1)

  lemma EmptyValid()
    ensures Valid(Empty)
  {
  }

  /** `findByEmail`: the user filed under that email, if any. */
  function FindByEmail(st: Store, email: string): (r: Option<User>)
    ensures r.Some? <==> email in st.users
    ensures r.Some? ==> r.value == st.users[email]
    ensures Valid(st) && r.Some? ==> r.value.email == email
  {
    if email in st.users then Some(st.users[email]) else None
  }

  /** `createUser`: a new user with the next id, the hash of the password
      (never the password itself), the given role or VIEWER, and both
      timestamps set to `now`. An email already present violates the unique
      constraint and changes nothing. */
  function CreateUser(st: Store, email: string, password: string, role: Option<UserRole>,
                      hash: string -> string, now: int): (r: Result<(Store, User), StoreError>)
    ensures r.Err? <==> email in st.users
    ensures r.Err? ==> r.error == UniqueViolation
    ensures r.Ok? ==> var (st', u) := r.value;
      && u.email == email && u.passwordHash == hash(password)
      && u.role == (if role.Some? then role.value else VIEWER)
      && u.id == st.nextUserId && u.createdAt == now && u.updatedAt == now
      && st'.users == st.users[email := u]
      && st'.users.Keys == st.users.Keys + {email}
      && st'.logs == st.logs && st'.nextLogId == st.nextLogId
  {
    if email in st.users then Err(UniqueViolation)
    else
      var u := User(st.nextUserId, email, hash(password), role.GetOr(VIEWER), now, now);
      Ok((st.(users := st.users[email := u], nextUserId := st.nextUserId + 1), u))
  }

  /** Creating a user keeps the store valid, and afterwards the email finds
      exactly that user while every other email finds what it found before. */
  lemma CreateUserValid(st: Store, email: string, password: string, role: Option<UserRole>,
                        hash: string -> string, now: int)
    requires Valid(st)
    requires email !in st.users
    ensures CreateUser(st, email, password, role, hash, now).Ok?
    ensures var (st', u) := CreateUser(st, email, password, role, hash, now).value;
      && Valid(st')
      && FindByEmail(st', email) == Some(u)
      && (forall other :: other != email ==> FindByEmail(st', other) == FindByEmail(st, other))
  {
    var (st', u) := CreateUser(st, email, password, role, hash, now).value;
    forall i | 0 <= i < |st'.logs|
      ensures HasUserId(st', st'.logs[i].userId)
    {
      assert st'.logs[i] == st.logs[i];
      assert HasUserId(st, st.logs[i].userId);
      var e :| e in st.users && st.users[e].id == st.logs[i].userId;
      assert e in st'.users && st'.users[e].id == st'.logs[i].userId;
    }
  }

  /** `validatePassword`: bcrypt's comparison of the password with the
      stored hash. */
  function ValidatePassword(user: User, password: string, compare: (string, string) -> bool): (b: bool)
    ensures b == compare(password, user.passwordHash)
  {
    compare(password, user.passwordHash)
  }

  /** A user created with a password validates with that password, for any
      comparison that accepts a password against its own hash. */
  lemma CreatedUserValidates(st: Store, email: string, password: string, role: Option<UserRole>,
                             hash: string -> string, compare: (string, string) -> bool, now: int)
    requires email !in st.users
    requires forall p :: compare(p, hash(p))
    ensures ValidatePassword(CreateUser(st, email, password, role, hash, now).value.1, password, compare)
  {
  }

  /** `logApiUsage`: appends exactly one entry and changes no user. An id
      that names no user violates the foreign key and changes nothing. */
  function LogApiUsage(st: Store, userId: nat, endpoint: string, httpMethod: string, statusCode: int, now: int): (r: Result<Store, StoreError>)
    ensures r.Err? <==> !HasUserId(st, userId)
    ensures r.Err? ==> r.error == ForeignKeyViolation
    ensures r.Ok? ==> r.value.users == st.users && r.value.nextUserId == st.nextUserId
    ensures r.Ok? ==> |r.value.logs| == |st.logs| + 1 && r.value.logs[..|st.logs|] == st.logs
    ensures r.Ok? ==> var entry := r.value.logs[|st.logs|];
      && entry.userId == userId && entry.endpoint == endpoint && entry.httpMethod == httpMethod
      && entry.statusCode == statusCode && entry.timestamp == now && entry.id == st.nextLogId
  {
    if !HasUserId(st, userId) then Err(ForeignKeyViolation)
    else
      var entry := ApiLog(st.nextLogId, userId, endpoint, httpMethod, statusCode, now);
      Ok(st.(logs := st.logs + [entry], nextLogId := st.nextLogId + 1))
  }

  /** Logging keeps the store valid. */
  lemma LogApiUsageValid(st: Store, userId: nat, endpoint: string, httpMethod: string, statusCode: int, now: int)
    requires Valid(st)
    ensures LogApiUsage(st, userId, endpoint, httpMethod, statusCode, now).Ok? ==>
      Valid(LogApiUsage(st, userId, endpoint, httpMethod, statusCode, now).value)
  {
    var r := LogApiUsage(st, userId, endpoint, httpMethod, statusCode, now);
    if r.Ok? {
      var st' := r.value;
      forall i | 0 <= i < |st'.logs|
        ensures st'.logs[i].id < st'.nextLogId && HasUserId(st', st'.logs[i].userId)
      {
        if i < |st.logs| {
          assert st'.logs[i] == st.logs[i];
        }
      }
    }
  }
}
