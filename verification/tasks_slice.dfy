/**
 The scheduled-task slice: a list of `ScheduledTask` records and the five
 reducers that change it. Each reducer is a pure `(state, payload) -> state`
 function; an in-place draft write in the source is the new value here.
 Ids are not required to be unique: `addTask` never checks, and the other
 reducers treat duplicates as the source does (first match for update and
 toggle, every match for remove).
 */
module TasksSlice {
  import opened Types
  import opened SeqOps

  datatype TasksState = TasksState(tasks: seq<ScheduledTask>)

  /** One constructor per action creator of the slice. */
  datatype TaskAction =
    | Add(task: ScheduledTask)
    | Update(task: ScheduledTask)
    | Remove(id: string)
    | ToggleActive(id: string)
    | ClearAll

  const InitialState: TasksState := TasksState([])

  /** The ids carried by a task list. */
  function Ids(tasks: seq<ScheduledTask>): set<string>
  {
    set i | 0 <= i < |tasks| :: tasks[i].id
  }

  /** `addTask`: append the payload; every earlier task stays where it was. */
  function AddTask(tasks: seq<ScheduledTask>, t: ScheduledTask): (r: seq<ScheduledTask>)
    ensures |r| == |tasks| + 1
    ensures r[|tasks|] == t
    ensures forall i :: 0 <= i < |tasks| ==> r[i] == tasks[i]
  {
    tasks + [t]
  }

  /** `updateTask`: replace the first task whose id is the payload's id. */
  function UpdateTask(tasks: seq<ScheduledTask>, t: ScheduledTask): (r: seq<ScheduledTask>)
    ensures |r| == |tasks|
    ensures (forall i :: 0 <= i < |tasks| ==> tasks[i].id != t.id) ==> r == tasks
    ensures forall i :: 0 <= i < |tasks| && tasks[i].id == t.id
                        && (forall j :: 0 <= j < i ==> tasks[j].id != t.id)
                        ==> r == tasks[i := t]
  {
    ReplaceFirstBy(tasks, TaskId, t.id, t)
  }

  /** `removeTask`: keep the tasks whose id differs from the payload. */
  function RemoveTask(tasks: seq<ScheduledTask>, id: string): (r: seq<ScheduledTask>)
    ensures id !in Ids(r)
    ensures forall i :: 0 <= i < |tasks| && tasks[i].id != id ==> tasks[i] in r
    ensures forall i :: 0 <= i < |r| ==> r[i] in tasks
    ensures |r| == |tasks| - CountKey(tasks, TaskId, id)
    ensures IsSubsequence(r, tasks)
  {
    RemoveByIsSubsequence(tasks, TaskId, id);
    RemoveBy(tasks, TaskId, id)
  }

  /** `toggleTaskActive`: flip `isActive` of the first task with the id. */
  function ToggleTaskActive(tasks: seq<ScheduledTask>, id: string): (r: seq<ScheduledTask>)
    ensures |r| == |tasks|
    ensures id !in Ids(tasks) ==> r == tasks
    ensures forall i :: 0 <= i < |tasks| && tasks[i].id == id
                        && (forall j :: 0 <= j < i ==> tasks[j].id != id)
                        ==> r[i].isActive == !tasks[i].isActive
                            && r[i].(isActive := tasks[i].isActive) == tasks[i]
                            && forall j :: 0 <= j < |tasks| && j != i ==> r[j] == tasks[j]
  {
    var i := FindIndexBy(tasks, TaskId, id);
    if i == -1 then tasks
    else tasks[i := tasks[i].(isActive := !tasks[i].isActive)]
  }

  /** The slice reducer. */
  function Reduce(st: TasksState, a: TaskAction): (r: TasksState)
    ensures a.ClearAll? ==> r.tasks == []
    ensures a.Add? ==> |r.tasks| == |st.tasks| + 1
    ensures !a.Add? ==> |r.tasks| <= |st.tasks|
    ensures a.Add? || a.Update? ==> Ids(r.tasks) <= Ids(st.tasks) + {a.task.id}
    ensures !a.Add? && !a.Update? ==> Ids(r.tasks) <= Ids(st.tasks)
  {
    match a
    case Add(t) => TasksState(AddTask(st.tasks, t))
    case Update(t) => TasksState(UpdateTask(st.tasks, t))
    case Remove(id) => TasksState(RemoveTask(st.tasks, id))
    case ToggleActive(id) => TasksState(ToggleTaskActive(st.tasks, id))
    case ClearAll => TasksState([])
  }

  /** The store starts empty, and clearing empties it from any state. */
  lemma InitialAndClear(st: TasksState)
    ensures InitialState.tasks == []
    ensures Reduce(st, ClearAll) == InitialState
  {
  }

  /** Removing an id that no task carries changes nothing. */
  lemma RemoveAbsentIsNoOp(tasks: seq<ScheduledTask>, id: string)
    requires id !in Ids(tasks)
    ensures RemoveTask(tasks, id) == tasks
  {
    RemoveByAbsent(tasks, TaskId, id);
  }

  /** Removing is idempotent, and the survivors keep their relative order. */
  lemma RemoveIdempotentAndOrdered(tasks: seq<ScheduledTask>, id: string)
    ensures RemoveTask(RemoveTask(tasks, id), id) == RemoveTask(tasks, id)
    ensures IsSubsequence(RemoveTask(tasks, id), tasks)
  {
    RemoveByIdempotent(tasks, TaskId, id);
    RemoveByIsSubsequence(tasks, TaskId, id);
  }

  /** Removing the id of a task just added is the same as removing it before the add. */
  lemma RemoveUndoesAdd(tasks: seq<ScheduledTask>, t: ScheduledTask)
    ensures RemoveTask(AddTask(tasks, t), t.id) == RemoveTask(tasks, t.id)
  {
    RemoveByAppend(tasks, [t], TaskId, t.id);
    assert RemoveBy([t], TaskId, t.id) == [];
  }

  /** Updating with the same payload twice is updating once. */
  lemma UpdateIdempotent(tasks: seq<ScheduledTask>, t: ScheduledTask)
    ensures UpdateTask(UpdateTask(tasks, t), t) == UpdateTask(tasks, t)
  {
    var r := UpdateTask(tasks, t);
    FindIndexSameKeys(tasks, r, TaskId, t.id);
  }

  /** Toggling the same id twice restores the original list. */
  lemma ToggleTwiceRestores(tasks: seq<ScheduledTask>, id: string)
    ensures ToggleTaskActive(ToggleTaskActive(tasks, id), id) == tasks
  {
    var i := FindIndexBy(tasks, TaskId, id);
    if i != -1 {
      var r := ToggleTaskActive(tasks, id);
      FindIndexSameKeys(tasks, r, TaskId, id);
    }
  }
}
