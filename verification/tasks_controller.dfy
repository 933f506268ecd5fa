/** The task routes (src/clickup/tasks/tasks.controller.ts): two reads that
    delegate to the task service and re-wrap its errors, three writes that are
    disabled, and the JWT and roles guards in front of all of them. */
module TasksController {
  import opened Wrappers
  import opened JsValue
  import opened ClickUpBase
  import opened QueryParams
  import opened Routes
  import RolesGuard
  import TasksService
  import opened UpstreamTarget
  import FormUrlEncoded

  /** The keys of the params object the task-list route builds, in order. */
  const TaskListKeys: seq<string> := ["archived", "page", "order_by", "reverse", "subtasks", "include_closed"]

  /** The keys of the params object the single-task route builds, in order. */
  const TaskKeys: seq<string> := ["custom_task_ids", "team_id", "include_subtasks"]

  function BoolParam(b: Option<bool>): Option<Param> {
    if b.Some? then Some(PBool(b.value)) else None
  }

  /** The params object of the task-list route: the six query values under
      their own names, in declaration order, `undefined` kept as a present
      property. `order_by` is forwarded as whatever string the query
      held: its three documented values are not enforced. */
  function TaskListParams(archived: Option<bool>, page: Option<int>, orderBy: Option<string>,
                          reverse: Option<bool>, subtasks: Option<bool>, includeClosed: Option<bool>): (r: seq<Entry>)
    ensures |r| == |TaskListKeys|
    ensures forall i :: 0 <= i < |r| ==> r[i].key == TaskListKeys[i]
    ensures r[0].value.Some? <==> archived.Some?
    ensures r[1].value.Some? <==> page.Some?
    ensures r[2].value.Some? <==> orderBy.Some?
    ensures orderBy.Some? ==> r[2].value == Some(PStr(orderBy.value))
    ensures r[3].value.Some? <==> reverse.Some?
    ensures r[4].value.Some? <==> subtasks.Some?
    ensures r[5].value.Some? <==> includeClosed.Some?
  {
    [ Entry("archived", BoolParam(archived)),
      Entry("page", if page.Some? then Some(PNum(page.value)) else None),
      Entry("order_by", if orderBy.Some? then Some(PStr(orderBy.value)) else None),
      Entry("reverse", BoolParam(reverse)),
      Entry("subtasks", BoolParam(subtasks)),
      Entry("include_closed", BoolParam(includeClosed)) ]
  }

  /** The params object of the single-task route. */
  function TaskParams(customTaskIds: Option<bool>, teamId: Option<string>, includeSubtasks: Option<bool>): (r: seq<Entry>)
    ensures |r| == |TaskKeys|
    ensures forall i :: 0 <= i < |r| ==> r[i].key == TaskKeys[i]
    ensures r[0].value.Some? <==> customTaskIds.Some?
    ensures r[1].value.Some? <==> teamId.Some?
    ensures r[2].value.Some? <==> includeSubtasks.Some?
  {
    [ Entry("custom_task_ids", BoolParam(customTaskIds)),
      Entry("team_id", if teamId.Some? then Some(PStr(teamId.value)) else None),
      Entry("include_subtasks", BoolParam(includeSubtasks)) ]
  }

  /** What the error handler of a read finds on the exception it caught:
      `error.response?.data?.message` and `error.response?.status`. How an
      `HttpException` exposes these is not part of this model, so the reading
      is a parameter of the routes. */
  datatype Caught = Caught(message: Value, status: Option<int>)

  /** The exception a read throws instead: the caught message when it is
      truthy, else the route's fixed message; the caught status when it is
      present and not zero, else 500. */
  function Rewrap(c: Caught, fallback: string): (x: HttpException)
    ensures Truthy(c.message) ==> x.response == c.message
    ensures !Truthy(c.message) ==> x.response == Str(fallback)
    ensures c.status.Some? && c.status.value != 0 ==> x.status == c.status.value
    ensures c.status.None? || c.status.value == 0 ==> x.status == InternalServerError
  {
    HttpException(if Truthy(c.message) then c.message else Str(fallback),
                  if c.status.Some? && c.status.value != 0 then c.status.value else InternalServerError)
  }

  /** A re-wrapped error always has a truthy body and a non-zero status, and
      when the caught record has no status the client sees 500 whatever the
      upstream said. */
  lemma RewrapNeverEmpty(c: Caught, fallback: string)
    requires fallback != ""
    ensures Truthy(Rewrap(c, fallback).response)
    ensures Rewrap(c, fallback).status != 0
    ensures c.status.None? ==> Rewrap(c, fallback).status == InternalServerError
  {
  }

  /** A read: the service call, its data on success, the re-wrapped error on
      failure. */
  function ReadAndRewrap(call: UpstreamCall, fallback: string, exec: Exec, view: HttpException -> Caught): (o: Outcome)
    ensures o.calls == [call]
    ensures exec(call).Ok? ==> o.result == exec(call)
    ensures exec(call).Err? ==> o.result == Err(Rewrap(view(exec(call).error), fallback))
  {
    match exec(call)
    case Ok(data) => Outcome([call], Ok(data))
    case Err(e) => Outcome([call], Err(Rewrap(view(e), fallback)))
  }

  /** `GET api/tasks/list/:listId`. */
  function GetTasksByListId(listId: string, archived: Option<bool>, page: Option<int>, orderBy: Option<string>,
                            reverse: Option<bool>, subtasks: Option<bool>, includeClosed: Option<bool>,
                            exec: Exec, view: HttpException -> Caught): (o: Outcome)
    ensures var call := TasksService.GetTasksByListId(listId, TaskListParams(archived, page, orderBy, reverse, subtasks, includeClosed));
      && o.calls == [call]
      && (exec(call).Ok? ==> o.result == exec(call))
      && (exec(call).Err? ==> o.result == Err(Rewrap(view(exec(call).error), "Failed to fetch tasks")))
  {
    var params := TaskListParams(archived, page, orderBy, reverse, subtasks, includeClosed);
    ReadAndRewrap(TasksService.GetTasksByListId(listId, params), "Failed to fetch tasks", exec, view)
  }

  /** Whatever string the `order_by` query holds, the task-list read sends
      it upstream unchanged as the `order_by` entry of its query. */
  lemma OrderByForwarded(listId: string, archived: Option<bool>, page: Option<int>, orderBy: string,
                         reverse: Option<bool>, subtasks: Option<bool>, includeClosed: Option<bool>,
                         exec: Exec, view: HttpException -> Caught)
    requires SegmentSafe(listId)
    ensures var o := GetTasksByListId(listId, archived, page, Some(orderBy), reverse, subtasks, includeClosed, exec, view);
      && Read(o.calls[0].endpoint).Some?
      && FormUrlEncoded.Pair("order_by", orderBy) in Read(o.calls[0].endpoint).value.query
  {
    var params := TaskListParams(archived, page, Some(orderBy), reverse, subtasks, includeClosed);
    CollectHas(params, true, 2);
    assert EntryPair(params[2], true) == FormUrlEncoded.Pair("order_by", orderBy);
  }

  /** `GET api/tasks/:taskId`. */
  function GetTaskById(taskId: string, customTaskIds: Option<bool>, teamId: Option<string>, includeSubtasks: Option<bool>,
                       exec: Exec, view: HttpException -> Caught): (o: Outcome)
    ensures var call := TasksService.GetTaskById(taskId, TaskParams(customTaskIds, teamId, includeSubtasks));
      && o.calls == [call]
      && (exec(call).Ok? ==> o.result == exec(call))
      && (exec(call).Err? ==> o.result == Err(Rewrap(view(exec(call).error), "Failed to fetch task")))
  {
    var params := TaskParams(customTaskIds, teamId, includeSubtasks);
    ReadAndRewrap(TasksService.GetTaskById(taskId, params), "Failed to fetch task", exec, view)
  }

  /** `POST api/tasks/list/:listId`: disabled. */
  function CreateTask(listId: string, task: Value, customTaskIds: Option<bool>, teamId: Option<string>): (o: Outcome)
    ensures o.calls == [] && o.result == Err(HttpException(Str("This feature is currently disabled"), 503))
  {
    Disabled()
  }

  /** `PUT api/tasks/:taskId`: disabled. */
  function UpdateTask(taskId: string, changes: Value, customTaskIds: Option<bool>, teamId: Option<string>): (o: Outcome)
    ensures o.calls == [] && o.result == Err(HttpException(Str("This feature is currently disabled"), 503))
  {
    Disabled()
  }

  /** `DELETE api/tasks/:taskId`: disabled. */
  function DeleteTask(taskId: string, customTaskIds: Option<bool>, teamId: Option<string>): (o: Outcome)
    ensures o.calls == [] && o.result == Err(HttpException(Str("This feature is currently disabled"), 503))
  {
    Disabled()
  }

  /** The requests the task routes accept, with their path, query and body
      inputs. */
  datatype Route =
    | ListTasks(listId: string, archived: Option<bool>, page: Option<int>, orderBy: Option<string>,
                reverse: Option<bool>, subtasks: Option<bool>, includeClosed: Option<bool>)
    | GetTask(taskId: string, customTaskIds: Option<bool>, teamId: Option<string>, includeSubtasks: Option<bool>)
    | NewTask(listId: string, task: Value, customTaskIds: Option<bool>, teamId: Option<string>)
    | ChangeTask(taskId: string, changes: Value, customTaskIds: Option<bool>, teamId: Option<string>)
    | RemoveTask(taskId: string, customTaskIds: Option<bool>, teamId: Option<string>)

  /** The HTTP method of each route, from its decorator. */
  function Method(r: Route): Verb {
    match r
    case ListTasks(_, _, _, _, _, _, _) => GET
    case GetTask(_, _, _, _) => GET
    case NewTask(_, _, _, _) => POST
    case ChangeTask(_, _, _, _) => PUT
    case RemoveTask(_, _, _) => DELETE
  }

  /** The handler a route reaches. */
  function Handle(r: Route, exec: Exec, view: HttpException -> Caught): Outcome {
    match r
    case ListTasks(id, a, p, o, rev, s, c) => GetTasksByListId(id, a, p, o, rev, s, c, exec, view)
    case GetTask(id, ids, team, sub) => GetTaskById(id, ids, team, sub, exec, view)
    case NewTask(id, t, ids, team) => CreateTask(id, t, ids, team)
    case ChangeTask(id, t, ids, team) => UpdateTask(id, t, ids, team)
    case RemoveTask(id, ids, team) => DeleteTask(id, ids, team)
  }

  /** Only GET routes reach the upstream, with exactly one GET call; every
      other route ends in 503 without calling it. */
  lemma OnlyReadsReachUpstream(r: Route, exec: Exec, view: HttpException -> Caught)
    ensures var o := Handle(r, exec, view);
      && (|o.calls| > 0 <==> Method(r) == GET)
      && (Method(r) == GET ==> |o.calls| == 1 && o.calls[0].verb == GET)
      && (Method(r) != GET ==> o.result == Err(DisabledError))
  {
  }

  /** The role metadata of the task routes: the controller and its handlers
      carry no `@Roles`. */
  function HandlerRoles(r: Route): Option<seq<RolesGuard.UserRole>> {
    None
  }

  const ClassRoles: Option<seq<RolesGuard.UserRole>> := None

  /** A request through `@UseGuards(JwtAuthGuard, RolesGuard)`: the JWT guard
      first (its verdict is the `user` it attaches, `None` when the token is
      missing or invalid), then the roles guard, then the handler. */
  function Guarded(r: Route, user: Option<RolesGuard.RequestUser>, exec: Exec, view: HttpException -> Caught): (o: Outcome)
    ensures user.None? ==> o == Outcome([], Err(RolesGuard.JwtRejected))
    ensures user.Some? && !RolesGuard.CanActivate(HandlerRoles(r), ClassRoles, user) ==> o == Outcome([], Err(RolesGuard.Forbidden))
    ensures user.Some? && RolesGuard.CanActivate(HandlerRoles(r), ClassRoles, user) ==> o == Handle(r, exec, view)
  {
    if user.None? then Outcome([], Err(RolesGuard.JwtRejected))
    else if !RolesGuard.CanActivate(HandlerRoles(r), ClassRoles, user) then Outcome([], Err(RolesGuard.Forbidden))
    else Handle(r, exec, view)
  }

  /** No request reaches the upstream without a user, and, with no role
      metadata on these routes, every authenticated request reaches its
      handler whatever its role. */
  lemma GuardsAdmitAuthenticated(r: Route, user: Option<RolesGuard.RequestUser>, exec: Exec, view: HttpException -> Caught)
    ensures user.None? ==> Guarded(r, user, exec, view).calls == []
    ensures user.Some? ==> Guarded(r, user, exec, view) == Handle(r, exec, view)
  {
  }

  /** Every id in the route's path stays one path segment. */
  predicate SafeIds(r: Route) {
    match r
    case ListTasks(id, _, _, _, _, _, _) => SegmentSafe(id)
    case GetTask(id, _, _, _) => SegmentSafe(id)
    case NewTask(id, _, _, _) => SegmentSafe(id)
    case ChangeTask(id, _, _, _) => SegmentSafe(id)
    case RemoveTask(id, _, _) => SegmentSafe(id)
  }

  /** The upstream resource each read route asks for; the writes reach none.
      The task list gets its six query values, arrays as JSON; a single task
      gets its three through `toString`. */
  function ReadResource(r: Route): Option<Target> {
    match r
    case ListTasks(id, a, p, o, rev, sub, c) =>
      Some(Target(["list", id, "task"], Collect(TaskListParams(a, p, o, rev, sub, c), true)))
    case GetTask(id, ids, team, sub) =>
      Some(Target(["task", id], Collect(TaskParams(ids, team, sub), false)))
    case _ => None
  }

  /** Each read route reaches exactly the resource of the route table. */
  lemma ReadsReachTheirResource(r: Route, exec: Exec, view: HttpException -> Caught)
    ensures ReadResource(r).Some? <==> Method(r) == GET
    ensures SafeIds(r) && Method(r) == GET ==> Read(Handle(r, exec, view).calls[0].endpoint) == ReadResource(r)
  {
  }
}
