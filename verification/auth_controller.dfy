/** The authentication routes (src/auth/auth.controller.ts): public login and
    registration, and the profile of the authenticated user. */
module AuthController {
  import opened Wrappers
  import opened RolesGuard
  import opened UserStore
  import opened AuthService
  import ClickUpBase

  /** `POST auth/login`: 401 `Invalid credentials` unless the email and
      password identify a stored user, else that user's login. */
  function Login(st: Store, email: string, password: string,
                 compare: (string, string) -> bool, sign: JwtPayload -> string): (r: Result<LoginResult, ClickUpBase.HttpException>)
    ensures r.Err? <==> !(email in st.users && compare(password, st.users[email].passwordHash))
    ensures r.Err? ==> r.error == Unauthorized("Invalid credentials")
    ensures r.Ok? ==> r.value == AuthService.Login(st.users[email], sign)
  {
    match ValidateUser(st, email, password, compare)
    case None => Err(Unauthorized("Invalid credentials"))
    case Some(u) => Ok(AuthService.Login(u, sign))
  }

  /** `POST auth/register`: the role defaults to VIEWER, the new user is the
      only change to the store, and it is returned without its hash. */
  function Register(st: Store, email: string, password: string, role: Option<UserRole>,
                    hash: string -> string, now: int): (r: Result<(Store, SafeUser), ClickUpBase.HttpException>)
    ensures r.Err? <==> email in st.users
    ensures r.Err? ==> r.error == Unauthorized("Email already exists")
    ensures r.Ok? ==> var (st', s) := r.value;
      && st'.users.Keys == st.users.Keys + {email}
      && st'.users == st.users[email := st'.users[email]]
      && st'.logs == st.logs && st'.nextLogId == st.nextLogId
      && st'.users[email].passwordHash == hash(password)
      && s == Sanitize(st'.users[email])
      && s.email == email
      && s.role == (if role.Some? then role.value else VIEWER)
  {
    match AuthService.Register(st, email, password, Some(role.GetOr(VIEWER)), hash, now)
    case Err(e) => Err(e)
    case Ok((st', u)) => Ok((st', Sanitize(u)))
  }

  /** `POST auth/profile` behind the JWT guard: 401 without an authenticated
      user, else that user without its hash. */
  function Profile(user: Option<User>): (r: Result<SafeUser, ClickUpBase.HttpException>)
    ensures r.Err? <==> user.None?
    ensures r.Err? ==> r.error == JwtRejected
    ensures r.Ok? ==> Restore(r.value, user.value.passwordHash) == user.value
  {
    match user
    case None => Err(JwtRejected)
    case Some(u) => Ok(Sanitize(u))
  }

  /** A registered user can log in, and the login shows the same user as the
      registration did. */
  lemma RegisterThenLogin(st: Store, email: string, password: string, role: Option<UserRole>,
                          hash: string -> string, compare: (string, string) -> bool,
                          sign: JwtPayload -> string, now: int)
    requires email !in st.users
    requires forall p :: compare(p, hash(p))
    ensures var (st', s) := Register(st, email, password, role, hash, now).value;
      && Login(st', email, password, compare, sign).Ok?
      && Login(st', email, password, compare, sign).value.user == s
  {
  }
}
