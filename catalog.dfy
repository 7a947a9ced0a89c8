/** The fixed, ordered list of trackable daily tasks (DEFAULT_TASKS). */
module Catalog {
  import opened Wrappers

  /** One task definition: `title` is its display label, `target` the
      completion threshold and `steps` the quick-increment amounts offered. */
  datatype Task = Task(id: string, title: string, unit: string, target: real, steps: seq<real>)

  /** The catalog shipped with the tracker, in display order. */
  const DefaultTasks: seq<Task> := [
    Task("pushups", "Push-ups", "reps", 100.0, [5.0, 10.0, 25.0]),
    Task("situps", "Sit-ups", "reps", 100.0, [5.0, 10.0, 25.0]),
    Task("squats", "Squats", "reps", 100.0, [5.0, 10.0, 25.0]),
    Task("running", "Running", "km", 5.0, [0.5, 1.0, 2.0])
  ]

  /** The ids of a catalog. */
  function Ids(tasks: seq<Task>): set<string>
  {
    set t | t in tasks :: t.id
  }

  /** A catalog the tracker can rely on: ids are unique, targets are positive
      and every task offers at least one positive step. */
  predicate WellFormed(tasks: seq<Task>)
  {
    && (forall i, j :: 0 <= i < j < |tasks| ==> tasks[i].id != tasks[j].id)
    && (forall t :: t in tasks ==> t.target > 0.0 && |t.steps| > 0)
    && (forall t, s :: t in tasks && s in t.steps ==> s > 0.0)
  }

  lemma DefaultTasksWellFormed()
    ensures WellFormed(DefaultTasks)
  {
  }

  /** `tasks.find(t => t.id === id)`: the first task carrying `id`, if any. */
  function Find(tasks: seq<Task>, id: string): (r: Option<Task>)
    ensures r.Some? <==> id in Ids(tasks)
    ensures r.Some? ==> r.value in tasks && r.value.id == id
  {
    if tasks == [] then None
    else if tasks[0].id == id then Some(tasks[0])
    else
      assert Ids(tasks) == {tasks[0].id} + Ids(tasks[1..]) by {
        assert tasks == [tasks[0]] + tasks[1..];
      }
      Find(tasks[1..], id)
  }

  /** Like `Array.prototype.find`, the lookup returns the FIRST task carrying
      `id`: no earlier task has that id. */
  lemma {:induction false} FindIsFirst(tasks: seq<Task>, id: string)
    requires id in Ids(tasks)
    ensures exists i :: 0 <= i < |tasks| && Find(tasks, id) == Some(tasks[i])
                        && forall j :: 0 <= j < i ==> tasks[j].id != id
  {
    if tasks[0].id != id {
      assert id in Ids(tasks[1..]) by {
        var t :| t in tasks && t.id == id;
        assert t in tasks[1..] by {
          assert tasks == [tasks[0]] + tasks[1..];
        }
      }
      FindIsFirst(tasks[1..], id);
      var k :| 0 <= k < |tasks[1..]| && Find(tasks[1..], id) == Some(tasks[1..][k])
               && forall j :: 0 <= j < k ==> tasks[1..][j].id != id;
      assert Find(tasks, id) == Some(tasks[k + 1]);
      forall j | 0 <= j < k + 1 ensures tasks[j].id != id {
        if j > 0 {
          assert tasks[j] == tasks[1..][j - 1];
        }
      }
    } else {
      assert Find(tasks, id) == Some(tasks[0]);
    }
  }

  /** In a well-formed catalog the lookup finds exactly the task with that id. */
  lemma FindCatalogTask(tasks: seq<Task>, t: Task)
    requires WellFormed(tasks) && t in tasks
    ensures Find(tasks, t.id) == Some(t)
  {
    assert t.id in Ids(tasks);
    var r := Find(tasks, t.id).value;
    var i :| 0 <= i < |tasks| && tasks[i] == t;
    var j :| 0 <= j < |tasks| && tasks[j] == r;
    if i < j {
      assert tasks[i].id != tasks[j].id;
    } else if j < i {
      assert tasks[j].id != tasks[i].id;
    }
  }

  /** The upper bound of a task's value: its target, or None (Infinity) for an
      id that is not in the catalog. */
  function CapOf(tasks: seq<Task>, id: string): (cap: Option<real>)
    ensures cap.None? <==> id !in Ids(tasks)
    ensures cap.Some? ==> exists t :: t in tasks && t.id == id && t.target == cap.value
  {
    match Find(tasks, id)
    case Some(t) => Some(t.target)
    case None => None
  }

  lemma CapOfCatalogTask(tasks: seq<Task>, t: Task)
    requires WellFormed(tasks) && t in tasks
    ensures CapOf(tasks, t.id) == Some(t.target)
    ensures t.target > 0.0
  {
    FindCatalogTask(tasks, t);
  }
}
