/** The workspace and member operations of the upstream client
    (src/clickup/users/users.service.ts). */
module ClickUpUsersService {
  import opened Wrappers
  import opened JsValue
  import opened ClickUpBase
  import opened UpstreamTarget

  /** `/team/{workspaceId}/user/{userId}`, which carries no query. */
  lemma MemberEndpoint(workspaceId: string, userId: string)
    ensures SegmentSafe(workspaceId) && SegmentSafe(userId) ==>
      Read("/team/" + workspaceId + "/user/" + userId) == Some(Target(["team", workspaceId, "user", userId], []))
  {
    ReadTemplateFour("/team/", "team", workspaceId, "/user/", "user", userId, []);
    assert "/team/" + workspaceId + "/user/" + userId + QuerySuffix([]) == "/team/" + workspaceId + "/user/" + userId;
  }

  /** `GET /team`: the workspaces the token may access. */
  function GetAuthorizedWorkspaces(): (r: UpstreamCall)
    ensures r.verb == GET && r.body == None
    ensures Read(r.endpoint) == Some(Target(["team"], []))
  {
    ReadTemplateOne("/team", "team");
    UpstreamCall(GET, "/team", None)
  }

  /** `GET /user`: the owner of the token. */
  function GetCurrentUser(): (r: UpstreamCall)
    ensures r.verb == GET && r.body == None
    ensures Read(r.endpoint) == Some(Target(["user"], []))
  {
    ReadTemplateOne("/user", "user");
    UpstreamCall(GET, "/user", None)
  }

  /** `GET /team/{workspaceId}`: the workspace with its members. */
  function GetWorkspaceMembers(workspaceId: string): (r: UpstreamCall)
    ensures r.verb == GET && r.body == None
    ensures SegmentSafe(workspaceId) ==> Read(r.endpoint) == Some(Target(["team", workspaceId], []))
  {
    ReadTemplateTwo("/team/", "team", workspaceId, []);
    assert "/team/" + workspaceId + QuerySuffix([]) == "/team/" + workspaceId;
    UpstreamCall(GET, "/team/" + workspaceId, None)
  }

  /** `POST /team/{workspaceId}/user` with the invitation as the body. */
  function InviteUserToWorkspace(workspaceId: string, invitation: Value): (r: UpstreamCall)
    ensures r.verb == POST && r.body == Some(invitation)
    ensures SegmentSafe(workspaceId) ==> Read(r.endpoint) == Some(Target(["team", workspaceId, "user"], []))
  {
    ReadTemplateThree("/team/", "team", workspaceId, "/user", "user", []);
    assert "/team/" + workspaceId + "/user" + QuerySuffix([]) == "/team/" + workspaceId + "/user";
    UpstreamCall(POST, "/team/" + workspaceId + "/user", Some(invitation))
  }

  /** `DELETE /team/{workspaceId}/user/{userId}`. */
  function RemoveUserFromWorkspace(workspaceId: string, userId: string): (r: UpstreamCall)
    ensures r.verb == DELETE && r.body == None
    ensures SegmentSafe(workspaceId) && SegmentSafe(userId) ==>
      Read(r.endpoint) == Some(Target(["team", workspaceId, "user", userId], []))
  {
    MemberEndpoint(workspaceId, userId);
    UpstreamCall(DELETE, "/team/" + workspaceId + "/user/" + userId, None)
  }

  /** `PUT /team/{workspaceId}/user/{userId}` with the role as the body. */
  function UpdateUserRole(workspaceId: string, userId: string, role: Value): (r: UpstreamCall)
    ensures r.verb == PUT && r.body == Some(role)
    ensures SegmentSafe(workspaceId) && SegmentSafe(userId) ==>
      Read(r.endpoint) == Some(Target(["team", workspaceId, "user", userId], []))
  {
    MemberEndpoint(workspaceId, userId);
    UpstreamCall(PUT, "/team/" + workspaceId + "/user/" + userId, Some(role))
  }
}
