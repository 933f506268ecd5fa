/** The space operations of the upstream client
    (src/clickup/spaces/spaces.service.ts). */
module SpacesService {
  import opened Wrappers
  import opened JsValue
  import opened ClickUpBase
  import opened QueryParams
  import opened UpstreamTarget

  /** `/space/{id}`, which carries no query. */
  lemma SpaceEndpoint(spaceId: string)
    ensures SegmentSafe(spaceId) ==> Read("/space/" + spaceId) == Some(Target(["space", spaceId], []))
  {
    ReadTemplateTwo("/space/", "space", spaceId, []);
    assert "/space/" + spaceId + QuerySuffix([]) == "/space/" + spaceId;
  }

  /** `GET /team/{workspaceId}/space`, with `archived` as the only query entry
      when it is defined. */
  function GetSpaces(workspaceId: string, archived: Option<bool>): (r: UpstreamCall)
    ensures r.verb == GET && r.body == None
    ensures SegmentSafe(workspaceId) ==>
      Read(r.endpoint) == Some(Target(["team", workspaceId, "space"], ArchivedQuery(archived)))
  {
    var ps := ArchivedQuery(archived);
    ReadTemplateThree("/team/", "team", workspaceId, "/space", "space", ps);
    UpstreamCall(GET, "/team/" + workspaceId + "/space" + QuerySuffix(ps), None)
  }

  /** `GET /space/{spaceId}`. */
  function GetSpaceById(spaceId: string): (r: UpstreamCall)
    ensures r.verb == GET && r.body == None
    ensures SegmentSafe(spaceId) ==> Read(r.endpoint) == Some(Target(["space", spaceId], []))
  {
    SpaceEndpoint(spaceId);
    UpstreamCall(GET, "/space/" + spaceId, None)
  }

  /** `POST /team/{workspaceId}/space` with the space as the body. */
  function CreateSpace(workspaceId: string, space: Value): (r: UpstreamCall)
    ensures r.verb == POST && r.body == Some(space)
    ensures SegmentSafe(workspaceId) ==> Read(r.endpoint) == Some(Target(["team", workspaceId, "space"], []))
  {
    ReadTemplateThree("/team/", "team", workspaceId, "/space", "space", []);
    assert "/team/" + workspaceId + "/space" + QuerySuffix([]) == "/team/" + workspaceId + "/space";
    UpstreamCall(POST, "/team/" + workspaceId + "/space", Some(space))
  }

  /** `PUT /space/{spaceId}` with the changes as the body. */
  function UpdateSpace(spaceId: string, changes: Value): (r: UpstreamCall)
    ensures r.verb == PUT && r.body == Some(changes)
    ensures SegmentSafe(spaceId) ==> Read(r.endpoint) == Some(Target(["space", spaceId], []))
  {
    SpaceEndpoint(spaceId);
    UpstreamCall(PUT, "/space/" + spaceId, Some(changes))
  }

  /** `DELETE /space/{spaceId}`. */
  function DeleteSpace(spaceId: string): (r: UpstreamCall)
    ensures r.verb == DELETE && r.body == None
    ensures SegmentSafe(spaceId) ==> Read(r.endpoint) == Some(Target(["space", spaceId], []))
  {
    SpaceEndpoint(spaceId);
    UpstreamCall(DELETE, "/space/" + spaceId, None)
  }
}
