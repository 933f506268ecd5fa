/** Authentication over the user store (src/auth/auth.service.ts):
    credential checks, the login token and user view, and registration.
    bcrypt and JWT signing are parameters. */
module AuthService {
  import opened Wrappers
  import opened JsValue
  import opened RolesGuard
  import opened UserStore
  import ClickUpBase

  /** The claims of a login token. */
  datatype JwtPayload = JwtPayload(sub: nat, email: string, role: UserRole)

  /** A user without its password hash. */
  datatype SafeUser = SafeUser(id: nat, email: string, role: UserRole, createdAt: int, updatedAt: int)

  /** What `login` returns. */
  datatype LoginResult = LoginResult(accessToken: string, user: SafeUser)

  /** `UnauthorizedException(message)`: status 401 with the NestJS body. */
  function Unauthorized(message: string): (x: ClickUpBase.HttpException)
    ensures x.status == 401
    ensures Prop(x.response, "message") == Str(message)
  {
    ClickUpBase.HttpException(Obj([Field("message", Str(message)), Field("error", Str("Unauthorized")),
                                   Field("statusCode", Num(401))]), 401)
  }

  /** `validateUser`: the stored user when one has this email and the password
      matches its hash, nothing otherwise. */
  function ValidateUser(st: Store, email: string, password: string, compare: (string, string) -> bool): (r: Option<User>)
    ensures r.Some? <==> email in st.users && compare(password, st.users[email].passwordHash)
    ensures r.Some? ==> r.value == st.users[email]
  {
    match FindByEmail(st, email)
    case Some(u) => if ValidatePassword(u, password, compare) then Some(u) else None
    case None => None
  }

  /** The user minus its password hash, every other field unchanged. */
  function Sanitize(u: User): (s: SafeUser)
    ensures s.id == u.id && s.email == u.email && s.role == u.role
    ensures s.createdAt == u.createdAt && s.updatedAt == u.updatedAt
  {
    SafeUser(u.id, u.email, u.role, u.createdAt, u.updatedAt)
  }

  /** The user a sanitised view and a hash describe. */
  function Restore(s: SafeUser, passwordHash: string): User {
    User(s.id, s.email, passwordHash, s.role, s.createdAt, s.updatedAt)
  }

  /** Sanitising drops the password hash and nothing else. */
  lemma SanitizeDropsOnlyHash(u: User)
    ensures Restore(Sanitize(u), u.passwordHash) == u
  {
  }

  /** The login token's claims: id, email and role of the user. */
  function Payload(u: User): (p: JwtPayload)
    ensures p.sub == u.id && p.email == u.email && p.role == u.role
  {
    JwtPayload(u.id, u.email, u.role)
  }

  /** `login`: the signed payload and the sanitised user. */
  function Login(u: User, sign: JwtPayload -> string): (r: LoginResult)
    ensures r.accessToken == sign(Payload(u))
    ensures r.user == Sanitize(u)
  {
    LoginResult(sign(Payload(u)), Sanitize(u))
  }

  /** With a verifier that reads back what was signed, the token of a login
      carries the user's id, email and stored role. */
  lemma TokenCarriesIdentity(u: User, sign: JwtPayload -> string, verify: string -> Option<JwtPayload>)
    requires forall p :: verify(sign(p)) == Some(p)
    ensures verify(Login(u, sign).accessToken) == Some(JwtPayload(u.id, u.email, u.role))
  {
  }

  /** `register`: an email already in the store is rejected with 401 `Email
      already exists` and the store is unchanged; otherwise the user is
      created with the same email, password and role. */
  function Register(st: Store, email: string, password: string, role: Option<UserRole>,
                    hash: string -> string, now: int): (r: Result<(Store, User), ClickUpBase.HttpException>)
    ensures r.Err? <==> email in st.users
    ensures r.Err? ==> r.error == Unauthorized("Email already exists")
    ensures r.Ok? ==> r.value == CreateUser(st, email, password, role, hash, now).value
  {
    if FindByEmail(st, email).Some? then Err(Unauthorized("Email already exists"))
    else Ok(CreateUser(st, email, password, role, hash, now).value)
  }

  /** After registering, logging in with the same email and password finds
      the new user, for any comparison that accepts a password against its
      own hash. */
  lemma RegisterThenValidate(st: Store, email: string, password: string, role: Option<UserRole>,
                             hash: string -> string, compare: (string, string) -> bool, now: int)
    requires email !in st.users
    requires forall p :: compare(p, hash(p))
    ensures var (st', u) := Register(st, email, password, role, hash, now).value;
      ValidateUser(st', email, password, compare) == Some(u)
  {
  }

  /** A second registration of the same email fails whatever the password
      or role. */
  lemma RegisterTwiceFails(st: Store, email: string, p1: string, p2: string, r1: Option<UserRole>, r2: Option<UserRole>,
                           hash: string -> string, now: int, later: int)
    ensures Register(st, email, p1, r1, hash, now).Ok? ==>
      Register(Register(st, email, p1, r1, hash, now).value.0, email, p2, r2, hash, later).Err?
  {
  }
}
