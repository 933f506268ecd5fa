/** The list operations of the upstream client
    (src/clickup/lists/lists.service.ts). */
module ListsService {
  import opened Wrappers
  import opened JsValue
  import opened ClickUpBase
  import opened QueryParams
  import opened UpstreamTarget
  import TasksService

  /** `/list/{id}`, which carries no query. */
  lemma ListEndpoint(listId: string)
    ensures SegmentSafe(listId) ==> Read("/list/" + listId) == Some(Target(["list", listId], []))
  {
    ReadTemplateTwo("/list/", "list", listId, []);
    assert "/list/" + listId + QuerySuffix([]) == "/list/" + listId;
  }

  /** `GET /space/{spaceId}/list`, with `archived` as the only query entry
      when it is defined. */
  function GetListsBySpaceId(spaceId: string, archived: Option<bool>): (r: UpstreamCall)
    ensures r.verb == GET && r.body == None
    ensures SegmentSafe(spaceId) ==>
      Read(r.endpoint) == Some(Target(["space", spaceId, "list"], ArchivedQuery(archived)))
  {
    var ps := ArchivedQuery(archived);
    ReadTemplateThree("/space/", "space", spaceId, "/list", "list", ps);
    UpstreamCall(GET, "/space/" + spaceId + "/list" + QuerySuffix(ps), None)
  }

  /** `GET /folder/{folderId}/list`, with `archived` as above. */
  function GetListsByFolderId(folderId: string, archived: Option<bool>): (r: UpstreamCall)
    ensures r.verb == GET && r.body == None
    ensures SegmentSafe(folderId) ==>
      Read(r.endpoint) == Some(Target(["folder", folderId, "list"], ArchivedQuery(archived)))
  {
    var ps := ArchivedQuery(archived);
    ReadTemplateThree("/folder/", "folder", folderId, "/list", "list", ps);
    UpstreamCall(GET, "/folder/" + folderId + "/list" + QuerySuffix(ps), None)
  }

  /** `GET /list/{listId}`. */
  function GetListById(listId: string): (r: UpstreamCall)
    ensures r.verb == GET && r.body == None
    ensures SegmentSafe(listId) ==> Read(r.endpoint) == Some(Target(["list", listId], []))
  {
    ListEndpoint(listId);
    UpstreamCall(GET, "/list/" + listId, None)
  }

  /** `POST /folder/{folderId}/list` with the list as the body. */
  function CreateListInFolder(folderId: string, list: Value): (r: UpstreamCall)
    ensures r.verb == POST && r.body == Some(list)
    ensures SegmentSafe(folderId) ==> Read(r.endpoint) == Some(Target(["folder", folderId, "list"], []))
  {
    ReadTemplateThree("/folder/", "folder", folderId, "/list", "list", []);
    assert "/folder/" + folderId + "/list" + QuerySuffix([]) == "/folder/" + folderId + "/list";
    UpstreamCall(POST, "/folder/" + folderId + "/list", Some(list))
  }

  /** `POST /space/{spaceId}/list`: a list outside any folder. */
  function CreateListInSpace(spaceId: string, list: Value): (r: UpstreamCall)
    ensures r.verb == POST && r.body == Some(list)
    ensures SegmentSafe(spaceId) ==> Read(r.endpoint) == Some(Target(["space", spaceId, "list"], []))
  {
    ReadTemplateThree("/space/", "space", spaceId, "/list", "list", []);
    assert "/space/" + spaceId + "/list" + QuerySuffix([]) == "/space/" + spaceId + "/list";
    UpstreamCall(POST, "/space/" + spaceId + "/list", Some(list))
  }

  /** `PUT /list/{listId}` with the changes as the body. */
  function UpdateList(listId: string, changes: Value): (r: UpstreamCall)
    ensures r.verb == PUT && r.body == Some(changes)
    ensures SegmentSafe(listId) ==> Read(r.endpoint) == Some(Target(["list", listId], []))
  {
    ListEndpoint(listId);
    UpstreamCall(PUT, "/list/" + listId, Some(changes))
  }

  /** `DELETE /list/{listId}`. */
  function DeleteList(listId: string): (r: UpstreamCall)
    ensures r.verb == DELETE && r.body == None
    ensures SegmentSafe(listId) ==> Read(r.endpoint) == Some(Target(["list", listId], []))
  {
    ListEndpoint(listId);
    UpstreamCall(DELETE, "/list/" + listId, None)
  }

  /** Ids are interpolated as they are: a list id `{a}/task` is not one
      segment, and the list it asks for is the task list of list `a`. */
  lemma IdsAreNotEscaped(a: string)
    ensures !SegmentSafe(a + "/task")
    ensures GetListById(a + "/task").endpoint == TasksService.GetTasksByListId(a, []).endpoint
  {
    assert (a + "/task")[|a|] == '/';
    var ps := QueryParams.Collect([], true);
    assert ps == [];
    assert QuerySuffix(ps) == "";
    assert "/list/" + (a + "/task") == "/list/" + a + "/task" + QuerySuffix(ps);
  }
}
