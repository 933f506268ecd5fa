/** The list routes (src/clickup/lists/lists.controller.ts): three reads that
    delegate to the list service and four writes that are disabled. */
module ListsController {
  import opened Wrappers
  import opened JsValue
  import opened ClickUpBase
  import opened Routes
  import ListsService
  import opened UpstreamTarget
  import QueryParams

  /** `GET api/lists/space/:spaceId`: the id and `{ archived }` unchanged. */
  function GetListsBySpaceId(spaceId: string, archived: Option<bool>, exec: Exec): (o: Outcome)
    ensures o.calls == [ListsService.GetListsBySpaceId(spaceId, archived)]
    ensures o.result == exec(ListsService.GetListsBySpaceId(spaceId, archived))
  {
    Delegate(ListsService.GetListsBySpaceId(spaceId, archived), exec)
  }

  /** `GET api/lists/folder/:folderId`. */
  function GetListsByFolderId(folderId: string, archived: Option<bool>, exec: Exec): (o: Outcome)
    ensures o.calls == [ListsService.GetListsByFolderId(folderId, archived)]
    ensures o.result == exec(ListsService.GetListsByFolderId(folderId, archived))
  {
    Delegate(ListsService.GetListsByFolderId(folderId, archived), exec)
  }

  /** `GET api/lists/:listId`. */
  function GetListById(listId: string, exec: Exec): (o: Outcome)
    ensures o.calls == [ListsService.GetListById(listId)]
    ensures o.result == exec(ListsService.GetListById(listId))
  {
    Delegate(ListsService.GetListById(listId), exec)
  }

  /** `POST api/lists/folder/:folderId`: disabled. */
  function CreateListInFolder(folderId: string, list: Value): (o: Outcome)
    ensures o.calls == [] && o.result == Err(HttpException(Str("This feature is currently disabled"), 503))
  {
    Disabled()
  }

  /** `POST api/lists/space/:spaceId`: disabled. */
  function CreateListInSpace(spaceId: string, list: Value): (o: Outcome)
    ensures o.calls == [] && o.result == Err(HttpException(Str("This feature is currently disabled"), 503))
  {
    Disabled()
  }

  /** `PUT api/lists/:listId`: disabled. */
  function UpdateList(listId: string, changes: Value): (o: Outcome)
    ensures o.calls == [] && o.result == Err(HttpException(Str("This feature is currently disabled"), 503))
  {
    Disabled()
  }

  /** `DELETE api/lists/:listId`: disabled. */
  function DeleteList(listId: string): (o: Outcome)
    ensures o.calls == [] && o.result == Err(HttpException(Str("This feature is currently disabled"), 503))
  {
    Disabled()
  }

  /** The requests the list routes accept. */
  datatype Route =
    | SpaceLists(spaceId: string, archived: Option<bool>)
    | FolderLists(folderId: string, archived: Option<bool>)
    | OneList(listId: string)
    | NewFolderList(folderId: string, list: Value)
    | NewSpaceList(spaceId: string, list: Value)
    | ChangeList(listId: string, changes: Value)
    | RemoveList(listId: string)

  /** The HTTP method of each route, from its decorator. */
  function Method(r: Route): Verb {
    match r
    case SpaceLists(_, _) => GET
    case FolderLists(_, _) => GET
    case OneList(_) => GET
    case NewFolderList(_, _) => POST
    case NewSpaceList(_, _) => POST
    case ChangeList(_, _) => PUT
    case RemoveList(_) => DELETE
  }

  function Handle(r: Route, exec: Exec): Outcome {
    match r
    case SpaceLists(id, a) => GetListsBySpaceId(id, a, exec)
    case FolderLists(id, a) => GetListsByFolderId(id, a, exec)
    case OneList(id) => GetListById(id, exec)
    case NewFolderList(id, l) => CreateListInFolder(id, l)
    case NewSpaceList(id, l) => CreateListInSpace(id, l)
    case ChangeList(id, c) => UpdateList(id, c)
    case RemoveList(id) => DeleteList(id)
  }

  /** Only GET routes reach the upstream, with exactly one GET call whose
      result they return unchanged; every other route ends in 503 without
      calling it. */
  lemma OnlyReadsReachUpstream(r: Route, exec: Exec)
    ensures var o := Handle(r, exec);
      && (|o.calls| > 0 <==> Method(r) == GET)
      && (Method(r) == GET ==> |o.calls| == 1 && o.calls[0].verb == GET && o.result == exec(o.calls[0]))
      && (Method(r) != GET ==> o.result == Err(DisabledError))
  {
  }

  /** Every id in the route's path stays one path segment. */
  predicate SafeIds(r: Route) {
    match r
    case SpaceLists(id, _) => SegmentSafe(id)
    case FolderLists(id, _) => SegmentSafe(id)
    case OneList(id) => SegmentSafe(id)
    case NewFolderList(id, _) => SegmentSafe(id)
    case NewSpaceList(id, _) => SegmentSafe(id)
    case ChangeList(id, _) => SegmentSafe(id)
    case RemoveList(id) => SegmentSafe(id)
  }

  /** The upstream resource each read route asks for, from the controller's
      route paths and the ClickUp endpoints; the writes reach none. */
  function ReadResource(r: Route): Option<Target> {
    match r
    case SpaceLists(id, a) => Some(Target(["space", id, "list"], QueryParams.ArchivedQuery(a)))
    case FolderLists(id, a) => Some(Target(["folder", id, "list"], QueryParams.ArchivedQuery(a)))
    case OneList(id) => Some(Target(["list", id], []))
    case _ => None
  }

  /** Each read route reaches exactly the resource of the route table, with
      the `archived` query entry only when it was given. */
  lemma ReadsReachTheirResource(r: Route, exec: Exec)
    ensures ReadResource(r).Some? <==> Method(r) == GET
    ensures SafeIds(r) && Method(r) == GET ==> Read(Handle(r, exec).calls[0].endpoint) == ReadResource(r)
  {
  }
}
