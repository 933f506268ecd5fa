/** The task operations of the upstream client
    (src/clickup/tasks/tasks.service.ts): each builds one upstream call from
    an id, optional query parameters and, for writes, the request body. */
module TasksService {
  import opened Wrappers
  import opened JsValue
  import opened ClickUpBase
  import opened QueryParams
  import opened UpstreamTarget

  /** `GET /list/{listId}/task`: every defined parameter becomes one query
      entry, arrays as their JSON text. An absent params object is the empty
      entry list. */
  function GetTasksByListId(listId: string, params: seq<Entry>): (r: UpstreamCall)
    ensures r.verb == GET && r.body == None
    ensures SegmentSafe(listId) ==>
      Read(r.endpoint) == Some(Target(["list", listId, "task"], Collect(params, true)))
  {
    var ps := Collect(params, true);
    ReadTemplateThree("/list/", "list", listId, "/task", "task", ps);
    UpstreamCall(GET, "/list/" + listId + "/task" + QuerySuffix(ps), None)
  }

  /** The endpoint shared by the reads, updates and deletes of one task. */
  function TaskEndpoint(taskId: string, params: seq<Entry>): (e: string)
    ensures SegmentSafe(taskId) ==>
      Read(e) == Some(Target(["task", taskId], Collect(params, false)))
  {
    var ps := Collect(params, false);
    ReadTemplateTwo("/task/", "task", taskId, ps);
    "/task/" + taskId + QuerySuffix(ps)
  }

  /** `GET /task/{taskId}`: defined parameters through `toString`. */
  function GetTaskById(taskId: string, params: seq<Entry>): (r: UpstreamCall)
    ensures r.verb == GET && r.body == None
    ensures SegmentSafe(taskId) ==>
      Read(r.endpoint) == Some(Target(["task", taskId], Collect(params, false)))
  {
    UpstreamCall(GET, TaskEndpoint(taskId, params), None)
  }

  /** `POST /list/{listId}/task` with the task as the body. */
  function CreateTask(listId: string, task: Value, params: seq<Entry>): (r: UpstreamCall)
    ensures r.verb == POST && r.body == Some(task)
    ensures SegmentSafe(listId) ==>
      Read(r.endpoint) == Some(Target(["list", listId, "task"], Collect(params, false)))
  {
    var ps := Collect(params, false);
    ReadTemplateThree("/list/", "list", listId, "/task", "task", ps);
    UpstreamCall(POST, "/list/" + listId + "/task" + QuerySuffix(ps), Some(task))
  }

  /** `PUT /task/{taskId}` with the changes as the body. */
  function UpdateTask(taskId: string, changes: Value, params: seq<Entry>): (r: UpstreamCall)
    ensures r.verb == PUT && r.body == Some(changes)
    ensures SegmentSafe(taskId) ==>
      Read(r.endpoint) == Some(Target(["task", taskId], Collect(params, false)))
  {
    UpstreamCall(PUT, TaskEndpoint(taskId, params), Some(changes))
  }

  /** `DELETE /task/{taskId}`. */
  function DeleteTask(taskId: string, params: seq<Entry>): (r: UpstreamCall)
    ensures r.verb == DELETE && r.body == None
    ensures SegmentSafe(taskId) ==>
      Read(r.endpoint) == Some(Target(["task", taskId], Collect(params, false)))
  {
    UpstreamCall(DELETE, TaskEndpoint(taskId, params), None)
  }

  lemma CollectOne(e: Entry, arraysAsJson: bool)
    requires e.value.Some?
    ensures Collect([e], arraysAsJson) == [FormUrlEncoded.Pair(e.key, Render(e.value.value, arraysAsJson))]
  {
    assert [e][1..] == [];
  }

  /** An array parameter is sent as its JSON text by the task-list read and
      as its comma join by the other task operations; for every array
      without objects the two texts differ. */
  lemma ArraysDifferBetweenOperations(key: string, xs: seq<Value>)
    ensures Collect([Entry(key, Some(PList(xs)))], true) ==
      [FormUrlEncoded.Pair(key, JsonText.Stringify(Arr(xs)).value)]
    ensures Collect([Entry(key, Some(PList(xs)))], false) ==
      [FormUrlEncoded.Pair(key, JoinArray(xs, Arr(xs)))]
    ensures (forall i :: 0 <= i < |xs| ==> JsonText.ObjectFree(xs[i])) ==>
      Collect([Entry(key, Some(PList(xs)))], true) != Collect([Entry(key, Some(PList(xs)))], false)
  {
    var e := Entry(key, Some(PList(xs)));
    CollectOne(e, true);
    CollectOne(e, false);
    if forall i :: 0 <= i < |xs| ==> JsonText.ObjectFree(xs[i]) {
      JsonText.ArrayTextLonger(xs);
      assert Collect([e], true)[0].value != Collect([e], false)[0].value;
    }
  }
}
