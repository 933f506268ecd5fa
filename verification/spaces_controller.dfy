/** The space routes (src/clickup/spaces/spaces.controller.ts): two reads
    that delegate to the space service and three writes that are disabled. */
module SpacesController {
  import opened Wrappers
  import opened JsValue
  import opened ClickUpBase
  import opened Routes
  import SpacesService
  import opened UpstreamTarget
  import QueryParams

  /** `GET api/spaces/workspace/:workspaceId`: the id and `{ archived }`
      unchanged. */
  function GetSpaces(workspaceId: string, archived: Option<bool>, exec: Exec): (o: Outcome)
    ensures o.calls == [SpacesService.GetSpaces(workspaceId, archived)]
    ensures o.result == exec(SpacesService.GetSpaces(workspaceId, archived))
  {
    Delegate(SpacesService.GetSpaces(workspaceId, archived), exec)
  }

  /** `GET api/spaces/:spaceId`. */
  function GetSpaceById(spaceId: string, exec: Exec): (o: Outcome)
    ensures o.calls == [SpacesService.GetSpaceById(spaceId)]
    ensures o.result == exec(SpacesService.GetSpaceById(spaceId))
  {
    Delegate(SpacesService.GetSpaceById(spaceId), exec)
  }

  /** `POST api/spaces/workspace/:workspaceId`: disabled. */
  function CreateSpace(workspaceId: string, space: Value): (o: Outcome)
    ensures o.calls == [] && o.result == Err(HttpException(Str("This feature is currently disabled"), 503))
  {
    Disabled()
  }

  /** `PUT api/spaces/:spaceId`: disabled. */
  function UpdateSpace(spaceId: string, changes: Value): (o: Outcome)
    ensures o.calls == [] && o.result == Err(HttpException(Str("This feature is currently disabled"), 503))
  {
    Disabled()
  }

  /** `DELETE api/spaces/:spaceId`: disabled. */
  function DeleteSpace(spaceId: string): (o: Outcome)
    ensures o.calls == [] && o.result == Err(HttpException(Str("This feature is currently disabled"), 503))
  {
    Disabled()
  }

  /** The requests the space routes accept. */
  datatype Route =
    | WorkspaceSpaces(workspaceId: string, archived: Option<bool>)
    | OneSpace(spaceId: string)
    | NewSpace(workspaceId: string, space: Value)
    | ChangeSpace(spaceId: string, changes: Value)
    | RemoveSpace(spaceId: string)

  /** The HTTP method of each route, from its decorator. */
  function Method(r: Route): Verb {
    match r
    case WorkspaceSpaces(_, _) => GET
    case OneSpace(_) => GET
    case NewSpace(_, _) => POST
    case ChangeSpace(_, _) => PUT
    case RemoveSpace(_) => DELETE
  }

  function Handle(r: Route, exec: Exec): Outcome {
    match r
    case WorkspaceSpaces(id, a) => GetSpaces(id, a, exec)
    case OneSpace(id) => GetSpaceById(id, exec)
    case NewSpace(id, s) => CreateSpace(id, s)
    case ChangeSpace(id, c) => UpdateSpace(id, c)
    case RemoveSpace(id) => DeleteSpace(id)
  }

  /** Only GET routes reach the upstream, with exactly one GET call whose
      result they return unchanged; every other route ends in 503 without
      calling it. */
  lemma OnlyReadsReachUpstream(r: Route, exec: Exec)
    ensures var o := Handle(r, exec);
      && (|o.calls| > 0 <==> Method(r) == GET)
      && (Method(r) == GET ==> |o.calls| == 1 && o.calls[0].verb == GET && o.result == exec(o.calls[0]))
      && (Method(r) != GET ==> o.result == Err(DisabledError))
  {
  }

  /** Every id in the route's path stays one path segment. */
  predicate SafeIds(r: Route) {
    match r
    case WorkspaceSpaces(id, _) => SegmentSafe(id)
    case OneSpace(id) => SegmentSafe(id)
    case NewSpace(id, _) => SegmentSafe(id)
    case ChangeSpace(id, _) => SegmentSafe(id)
    case RemoveSpace(id) => SegmentSafe(id)
  }

  /** The upstream resource each read route asks for; the writes reach none.
      A workspace is a `team` upstream. */
  function ReadResource(r: Route): Option<Target> {
    match r
    case WorkspaceSpaces(id, a) => Some(Target(["team", id, "space"], QueryParams.ArchivedQuery(a)))
    case OneSpace(id) => Some(Target(["space", id], []))
    case _ => None
  }

  /** Each read route reaches exactly the resource of the route table. */
  lemma ReadsReachTheirResource(r: Route, exec: Exec)
    ensures ReadResource(r).Some? <==> Method(r) == GET
    ensures SafeIds(r) && Method(r) == GET ==> Read(Handle(r, exec).calls[0].endpoint) == ReadResource(r)
  {
  }
}
