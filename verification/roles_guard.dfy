/** Role-based access control (src/auth/roles.guard.ts): the three roles and
    the guard that compares the request user's role with the roles a route
    requires. */
module RolesGuard {
  import opened Wrappers
  import opened JsValue
  import ClickUpBase

  /** The roles a user can hold. */
  datatype UserRole = ADMIN | EDITOR | VIEWER

  /** The authenticated user a request carries. */
  datatype RequestUser = RequestUser(id: int, email: string, role: UserRole)

  /** Every role. */
  const AllRoles: set<UserRole> := {ADMIN, EDITOR, VIEWER}

  /** There are exactly three roles. */
  lemma ThreeRoles()
    ensures |AllRoles| == 3
    ensures forall r: UserRole :: r in AllRoles
  {
    assert AllRoles == {ADMIN} + {EDITOR} + {VIEWER};
    forall r: UserRole ensures r in AllRoles {
      assert r.ADMIN? || r.EDITOR? || r.VIEWER?;
    }
  }

  /** `getAllAndOverride` over the handler and then the class: the handler's
      `@Roles` list when it has one, else the class's. */
  function RequiredRoles(handler: Option<seq<UserRole>>, cls: Option<seq<UserRole>>): (r: Option<seq<UserRole>>)
    ensures r.None? <==> handler.None? && cls.None?
    ensures handler.Some? ==> r == handler
    ensures handler.None? ==> r == cls
  {
    if handler.Some? then handler else cls
  }

  /** `roles.some(role => user?.role === role)`. */
  function AnyRole(roles: seq<UserRole>, user: Option<RequestUser>): (b: bool)
    ensures b <==> user.Some? && user.value.role in roles
  {
    if |roles| == 0 then false
    else (user.Some? && user.value.role == roles[0]) || AnyRole(roles[1..], user)
  }

  /** `canActivate`: with no role metadata every request passes; otherwise
      it passes exactly when there is a user whose role is one of the
      required roles. An empty list is metadata too, and admits nobody. */
  function CanActivate(handler: Option<seq<UserRole>>, cls: Option<seq<UserRole>>, user: Option<RequestUser>): (b: bool)
    ensures handler.None? && cls.None? ==> b
    ensures RequiredRoles(handler, cls).Some? ==>
      (b <==> user.Some? && user.value.role in RequiredRoles(handler, cls).value)
  {
    match RequiredRoles(handler, cls)
    case None => true
    case Some(roles) => AnyRole(roles, user)
  }

  /** An empty required list denies everyone; a missing user is denied
      whenever roles are required. */
  lemma DenialCases(handler: Option<seq<UserRole>>, cls: Option<seq<UserRole>>, user: Option<RequestUser>)
    ensures RequiredRoles(handler, cls) == Some([]) ==> !CanActivate(handler, cls, user)
    ensures RequiredRoles(handler, cls).Some? && user.None? ==> !CanActivate(handler, cls, user)
  {
  }

  /** Handler metadata overrides the class: a route that requires only ADMIN
      on a class that admits everyone still rejects an EDITOR. */
  lemma HandlerOverridesClass(user: RequestUser)
    requires user.role == EDITOR
    ensures !CanActivate(Some([ADMIN]), Some([ADMIN, EDITOR, VIEWER]), Some(user))
    ensures CanActivate(None, Some([ADMIN, EDITOR, VIEWER]), Some(user))
  {
  }

  /** The NestJS rejections of the two guards: the JWT guard's 401 when a
      request carries no valid token, and the 403 of a guard that returns
      false. */
  const JwtRejected: ClickUpBase.HttpException :=
    ClickUpBase.HttpException(Obj([Field("message", Str("Unauthorized")), Field("statusCode", Num(401))]), 401)
  const Forbidden: ClickUpBase.HttpException :=
    ClickUpBase.HttpException(Obj([Field("message", Str("Forbidden resource")), Field("error", Str("Forbidden")),
                                   Field("statusCode", Num(403))]), 403)
}
