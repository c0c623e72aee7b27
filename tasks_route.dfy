/**
 * The in-memory task list behind the chat app's `/api/control/tasks` route: GET lists it, POST
 * appends a task numbered after the list's length, PUT merges fields into the first task with
 * the given id, DELETE drops every task with that id. A request body is a JSON object, a task is
 * the object stored, and a response is a status code with a JSON body.
 */
module TasksRoute {
  import opened Wrappers
  import opened Seqs
  import opened Json

  type Task = map<string, Json>

  datatype Response = Response(status: int, body: Json)

  /** A field of an object, `undefined` when absent. */
  function Field(o: map<string, Json>, key: string): Option<Json>
  {
    if key in o then Some(o[key]) else None
  }

  /**
   * `===` on two values read from JSON: numbers, strings, booleans and `null` compare by value,
   * `undefined` equals `undefined`, and an array or object is never identical to a separately
   * parsed one.
   */
  predicate StrictEq(a: Option<Json>, b: Option<Json>)
  {
    a == b && (a.None? || !(a.value.JArr? || a.value.JObj?))
  }

  /** `{ id: tasks.length + 1, ...body }`: a field `id` in the body wins. */
  function NewTask(tasks: seq<Task>, body: map<string, Json>): (t: Task)
    ensures "id" in t
    ensures "id" !in body ==> t["id"] == JNum(|tasks| + 1)
    ensures forall k :: k in body ==> k in t && t[k] == body[k]
    ensures t.Keys == body.Keys + {"id"}
  {
    map["id" := JNum(|tasks| + 1)] + body
  }

  /** `findIndex(task => task.id === id)` */
  function FindTask(tasks: seq<Task>, id: Option<Json>): (i: int)
    ensures -1 <= i < |tasks|
    ensures i >= 0 ==> StrictEq(Field(tasks[i], "id"), id)
    ensures forall j :: 0 <= j < |tasks| && (i < 0 || j < i) ==> !StrictEq(Field(tasks[j], "id"), id)
  {
    if tasks == [] then -1
    else if StrictEq(Field(tasks[0], "id"), id) then 0
    else
      var k := FindTask(tasks[1..], id);
      if k < 0 then -1 else k + 1
  }

  function NotWithId(id: Option<Json>): Task -> bool
  {
    (t: Task) => !StrictEq(Field(t, "id"), id)
  }

  /** The list after a DELETE: the tasks whose id is not the given one, in order. */
  function Deleted(tasks: seq<Task>, id: Option<Json>): seq<Task>
  {
    Filter(tasks, NotWithId(id))
  }

  /** DELETE keeps exactly the tasks with another id. */
  lemma DeletedMember(tasks: seq<Task>, id: Option<Json>, t: Task)
    ensures t in Deleted(tasks, id) <==> t in tasks && !StrictEq(Field(t, "id"), id)
  {
    FilterMember(tasks, NotWithId(id), t);
  }

  /** The numbered tasks: task `i` has id `i + 1`. */
  predicate Numbered(tasks: seq<Task>)
  {
    forall i :: 0 <= i < |tasks| ==> "id" in tasks[i] && tasks[i]["id"] == JNum(i + 1)
  }

  /** While nothing is deleted and no body carries its own id, POST numbers the tasks 1, 2, 3, ... */
  lemma PostKeepsNumbered(tasks: seq<Task>, body: map<string, Json>)
    requires Numbered(tasks) && "id" !in body
    ensures Numbered(tasks + [NewTask(tasks, body)])
  {
  }

  /** Numbered tasks have distinct ids. */
  lemma NumberedDistinct(tasks: seq<Task>)
    requires Numbered(tasks)
    ensures forall i, j :: 0 <= i < j < |tasks| ==> tasks[i]["id"] != tasks[j]["id"]
  {
  }

  /**
   * After a DELETE the ids are no longer unique: POST twice, DELETE id 1, POST
   * again, and the two tasks left both have id 2.
   */
  lemma DeleteThenPostRepeatsId()
    ensures var t1 := [NewTask([], map[])];
      var t2 := t1 + [NewTask(t1, map[])];
      var t3 := Deleted(t2, Some(JNum(1)));
      var t4 := t3 + [NewTask(t3, map[])];
      |t4| == 2 && Field(t4[0], "id") == Field(t4[1], "id") == Some(JNum(2))
  {
    var first: Task := map["id" := JNum(1)];
    var second: Task := map["id" := JNum(2)];
    var t1 := [NewTask([], map[])];
    assert NewTask([], map[]) == first by {
      assert NewTask([], map[]).Keys == first.Keys;
    }
    var t2 := t1 + [NewTask(t1, map[])];
    assert NewTask(t1, map[]) == second by {
      assert NewTask(t1, map[]).Keys == second.Keys;
    }
    assert t2 == [first, second];
    assert !NotWithId(Some(JNum(1)))(first) && NotWithId(Some(JNum(1)))(second);
    assert [first, second][1..] == [second] && [second][1..] == [];
    var p := NotWithId(Some(JNum(1)));
    assert Filter([second], p) == [second] + Filter([], p);
    assert Filter(t2, p) == Filter([second], p);
    assert Deleted(t2, Some(JNum(1))) == [second];
  }

  /** The tasks as the JSON array a response carries. */
  function AsJson(tasks: seq<Task>): (r: seq<Json>)
    ensures |r| == |tasks| && forall i :: 0 <= i < |r| ==> r[i] == JObj(tasks[i])
  {
    seq(|tasks|, i requires 0 <= i < |tasks| => JObj(tasks[i]))
  }

  class TaskStore {
    var tasks: seq<Task>

    constructor ()
      ensures tasks == []
    {
      tasks := [];
    }

    /** `GET`: all tasks, in order, with status 200. */
    method GetTasks() returns (r: Response)
      ensures r == Response(200, JArr(AsJson(tasks)))
    {
      r := Response(200, JArr(AsJson(tasks)));
    }

    /** `POST`: the new task is appended and returned with status 201. */
    method Post(body: map<string, Json>) returns (r: Response)
      modifies this
      ensures tasks == old(tasks) + [NewTask(old(tasks), body)]
      ensures r == Response(201, JObj(NewTask(old(tasks), body)))
    {
      var newTask := map["id" := JNum(|tasks| + 1)] + body;
      tasks := tasks + [newTask];
      r := Response(201, JObj(newTask));
    }

    /** `PUT`: 404 and no change for an unknown id; otherwise the other fields are merged into the first task with that id. */
    method Put(body: map<string, Json>) returns (r: Response)
      modifies this
      ensures var i := FindTask(old(tasks), Field(body, "id"));
        && (i < 0 ==> tasks == old(tasks) && r == Response(404, JObj(map["error" := JStr("Task not found")])))
        && (i >= 0 ==> tasks == old(tasks)[i := old(tasks)[i] + (body - {"id"})] && r == Response(200, JObj(tasks[i])))
    {
      var id := Field(body, "id");
      var updatedData := body - {"id"};
      var taskIndex := FindTask(tasks, id);
      if taskIndex == -1 {
        return Response(404, JObj(map["error" := JStr("Task not found")]));
      }
      tasks := tasks[taskIndex := tasks[taskIndex] + updatedData];
      r := Response(200, JObj(tasks[taskIndex]));
    }

    /** `DELETE`: every task with that id goes. */
    method Delete(body: map<string, Json>) returns (r: Response)
      modifies this
      ensures tasks == Deleted(old(tasks), Field(body, "id"))
      ensures r == Response(200, JObj(map["message" := JStr("Task deleted")]))
    {
      tasks := Filter(tasks, NotWithId(Field(body, "id")));
      r := Response(200, JObj(map["message" := JStr("Task deleted")]));
    }
  }

  /** A PUT changes only the one task it finds, keeps its id, and keeps the length. */
  lemma PutOnlyFound(tasks: seq<Task>, body: map<string, Json>, i: int, j: nat)
    requires i == FindTask(tasks, Field(body, "id")) && i >= 0 && j < |tasks|
    ensures var updated := tasks[i := tasks[i] + (body - {"id"})];
      && |updated| == |tasks|
      && (j != i ==> updated[j] == tasks[j])
      && Field(updated[i], "id") == Field(tasks[i], "id")
      && forall k :: k in body && k != "id" ==> updated[i][k] == body[k]
  {
  }
}
