/** The workspace user routes (src/clickup/users/users.controller.ts): every
    route, writes included, delegates to the service. */
module ClickUpUsersController {
  import opened Wrappers
  import opened JsValue
  import opened ClickUpBase
  import opened Routes
  import ClickUpUsersService
  import opened UpstreamTarget

  /** `GET api/users/workspaces`. */
  function GetAuthorizedWorkspaces(exec: Exec): (o: Outcome)
    ensures o.calls == [ClickUpUsersService.GetAuthorizedWorkspaces()]
    ensures o.result == exec(ClickUpUsersService.GetAuthorizedWorkspaces())
  {
    Delegate(ClickUpUsersService.GetAuthorizedWorkspaces(), exec)
  }

  /** `GET api/users/me`. */
  function GetCurrentUser(exec: Exec): (o: Outcome)
    ensures o.calls == [ClickUpUsersService.GetCurrentUser()]
    ensures o.result == exec(ClickUpUsersService.GetCurrentUser())
  {
    Delegate(ClickUpUsersService.GetCurrentUser(), exec)
  }

  /** `GET api/users/workspace/:workspaceId/members`. */
  function GetWorkspaceMembers(workspaceId: string, exec: Exec): (o: Outcome)
    ensures o.calls == [ClickUpUsersService.GetWorkspaceMembers(workspaceId)]
    ensures o.result == exec(ClickUpUsersService.GetWorkspaceMembers(workspaceId))
  {
    Delegate(ClickUpUsersService.GetWorkspaceMembers(workspaceId), exec)
  }

  /** `POST api/users/workspace/:workspaceId/invite`: live, the body as it
      came. */
  function InviteUserToWorkspace(workspaceId: string, invitation: Value, exec: Exec): (o: Outcome)
    ensures o.calls == [ClickUpUsersService.InviteUserToWorkspace(workspaceId, invitation)]
    ensures o.result == exec(ClickUpUsersService.InviteUserToWorkspace(workspaceId, invitation))
  {
    Delegate(ClickUpUsersService.InviteUserToWorkspace(workspaceId, invitation), exec)
  }

  /** `DELETE api/users/workspace/:workspaceId/user/:userId`. */
  function RemoveUserFromWorkspace(workspaceId: string, userId: string, exec: Exec): (o: Outcome)
    ensures o.calls == [ClickUpUsersService.RemoveUserFromWorkspace(workspaceId, userId)]
    ensures o.result == exec(ClickUpUsersService.RemoveUserFromWorkspace(workspaceId, userId))
  {
    Delegate(ClickUpUsersService.RemoveUserFromWorkspace(workspaceId, userId), exec)
  }

  /** `PUT api/users/workspace/:workspaceId/user/:userId/role`. */
  function UpdateUserRole(workspaceId: string, userId: string, role: Value, exec: Exec): (o: Outcome)
    ensures o.calls == [ClickUpUsersService.UpdateUserRole(workspaceId, userId, role)]
    ensures o.result == exec(ClickUpUsersService.UpdateUserRole(workspaceId, userId, role))
  {
    Delegate(ClickUpUsersService.UpdateUserRole(workspaceId, userId, role), exec)
  }

  /** The requests the workspace user routes accept. */
  datatype Route =
    | Workspaces
    | Me
    | Members(workspaceId: string)
    | Invite(workspaceId: string, invitation: Value)
    | Remove(workspaceId: string, userId: string)
    | ChangeRole(workspaceId: string, userId: string, role: Value)

  /** The HTTP method of each route, from its decorator. */
  function Method(r: Route): Verb {
    match r
    case Workspaces => GET
    case Me => GET
    case Members(_) => GET
    case Invite(_, _) => POST
    case Remove(_, _) => DELETE
    case ChangeRole(_, _, _) => PUT
  }

  function Handle(r: Route, exec: Exec): Outcome {
    match r
    case Workspaces => GetAuthorizedWorkspaces(exec)
    case Me => GetCurrentUser(exec)
    case Members(w) => GetWorkspaceMembers(w, exec)
    case Invite(w, i) => InviteUserToWorkspace(w, i, exec)
    case Remove(w, u) => RemoveUserFromWorkspace(w, u, exec)
    case ChangeRole(w, u, role) => UpdateUserRole(w, u, role, exec)
  }

  /** No route here is disabled: each makes exactly one upstream call, with
      the verb of its own route, and returns its result unchanged. */
  lemma EveryRouteIsLive(r: Route, exec: Exec)
    ensures var o := Handle(r, exec);
      && |o.calls| == 1
      && o.calls[0].verb == Method(r)
      && o.result == exec(o.calls[0])
  {
  }

  /** Removing a member and changing its role address the same resource and
      differ only in the verb. */
  lemma RemoveAndRoleShareTarget(workspaceId: string, userId: string, role: Value)
    ensures ClickUpUsersService.RemoveUserFromWorkspace(workspaceId, userId).endpoint
         == ClickUpUsersService.UpdateUserRole(workspaceId, userId, role).endpoint
    ensures ClickUpUsersService.RemoveUserFromWorkspace(workspaceId, userId).verb == DELETE
    ensures ClickUpUsersService.UpdateUserRole(workspaceId, userId, role).verb == PUT
  {
  }

  /** Every id in the route's path stays one path segment. */
  predicate SafeIds(r: Route) {
    match r
    case Workspaces => true
    case Me => true
    case Members(w) => SegmentSafe(w)
    case Invite(w, _) => SegmentSafe(w)
    case Remove(w, u) => SegmentSafe(w) && SegmentSafe(u)
    case ChangeRole(w, u, _) => SegmentSafe(w) && SegmentSafe(u)
  }

  /** The upstream resource of each route: workspaces are `team` upstream,
      and a member is a `user` of its team. */
  function Resource(r: Route): Target {
    match r
    case Workspaces => Target(["team"], [])
    case Me => Target(["user"], [])
    case Members(w) => Target(["team", w], [])
    case Invite(w, _) => Target(["team", w, "user"], [])
    case Remove(w, u) => Target(["team", w, "user", u], [])
    case ChangeRole(w, u, _) => Target(["team", w, "user", u], [])
  }

  /** Each route reaches exactly the resource of the route table, without a
      query, and carries a body exactly when it is a POST or a PUT. */
  lemma RoutesReachTheirResource(r: Route, exec: Exec)
    ensures var call := Handle(r, exec).calls[0];
      && (SafeIds(r) ==> Read(call.endpoint) == Some(Resource(r)))
      && (call.body.Some? <==> Method(r) == POST || Method(r) == PUT)
  {
  }
}
