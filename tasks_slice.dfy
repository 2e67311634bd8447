/**
 * The task store (src/features/todolists/model/tasks-slice.ts): a map from
 * todolist id to that list's ordered bucket of tasks. Server-backed operations
 * edit the map only after their call resolved. A fulfilled reducer that reads a
 * bucket the map lacks throws a TypeError; the store then keeps its old state.
 */
module TasksSlice {
  import opened Wrappers
  import opened Scan
  import opened TaskTypes
  import TodolistsSlice

  /** `Record<string, DomainTask[]>`: one bucket per todolist id. */
  type TasksState = map<string, seq<DomainTask>>

  /** How a task thunk ended in the store. */
  datatype Settled =
    | ThunkRejected // the thunk rejected, so no fulfilled reducer ran
    | Fulfilled     // the fulfilled reducer ran to completion
    | ReducerThrew  // the fulfilled reducer read a missing bucket and threw

  /** State after a todolist was created: its bucket exists and is empty. */
  function TodolistAdded(state: TasksState, id: string): (r: TasksState)
    ensures r.Keys == state.Keys + {id} && r[id] == []
    ensures forall k :: k in state && k != id ==> r[k] == state[k]
  {
    state[id := []]
  }

  /** State after a todolist was deleted: its bucket is gone, every other bucket stays. */
  function TodolistRemoved(state: TasksState, id: string): (r: TasksState)
    ensures r.Keys == state.Keys - {id}
    ensures forall k :: k in r ==> r[k] == state[k]
  {
    state - {id}
  }

  /** State after a fetch: the bucket is exactly the server's items, whatever it held before. */
  function TasksFetched(state: TasksState, id: string, items: seq<DomainTask>): (r: TasksState)
    ensures r.Keys == state.Keys + {id} && r[id] == items
    ensures forall k :: k in state && k != id ==> r[k] == state[k]
  {
    state[id := items]
  }

  /**
   * State after a created task: the task leads the bucket named by its own
   * `todoListId`; `None` when that bucket is missing and the reducer throws.
   */
  function TaskCreated(state: TasksState, task: DomainTask): (r: Option<TasksState>)
    ensures r.None? <==> task.todoListId !in state
    ensures r.Some? ==>
      && r.value.Keys == state.Keys
      && |r.value[task.todoListId]| == |state[task.todoListId]| + 1
      && r.value[task.todoListId][0] == task
      && r.value[task.todoListId][1..] == state[task.todoListId]
    ensures r.Some? ==> forall k :: k in state && k != task.todoListId ==> r.value[k] == state[k]
  {
    if task.todoListId in state then
      Some(state[task.todoListId := [task] + state[task.todoListId]])
    else
      None
  }

  /**
   * State after a deleted task: the first task with that id leaves its
   * bucket, the others keep their order; `None` when the bucket is missing.
   */
  function TaskDeleted(state: TasksState, todolistId: string, taskId: string): (r: Option<TasksState>)
    ensures r.None? <==> todolistId !in state
    ensures r.Some? ==>
      && r.value.Keys == state.Keys
      && var b := state[todolistId];
         var k := IndexOf(b, TaskId, taskId);
         r.value[todolistId] == if k == -1 then b else b[..k] + b[k + 1..]
    ensures r.Some? ==> forall k :: k in state && k != todolistId ==> r.value[k] == state[k]
  {
    if todolistId in state then
      RemoveFirstIsSplice(state[todolistId], TaskId, taskId);
      Some(state[todolistId := RemoveFirst(state[todolistId], TaskId, taskId)])
    else
      None
  }

  /**
   * State after the server answered an update with `task`: the first task of
   * bucket `task.todoListId` with the same id becomes `task`, verbatim; no
   * other position changes. `None` when the bucket is missing.
   */
  function TaskUpdated(state: TasksState, task: DomainTask): (r: Option<TasksState>)
    ensures r.None? <==> task.todoListId !in state
    ensures r.Some? ==>
      && r.value.Keys == state.Keys
      && var b := state[task.todoListId];
         var k := IndexOf(b, TaskId, task.id);
         && |r.value[task.todoListId]| == |b|
         && (forall i :: 0 <= i < |b| && i != k ==> r.value[task.todoListId][i] == b[i])
         && (k != -1 ==> r.value[task.todoListId][k] == task)
    ensures r.Some? ==> forall k :: k in state && k != task.todoListId ==> r.value[k] == state[k]
  {
    if task.todoListId in state then
      var b := state[task.todoListId];
      var k := IndexOf(b, TaskId, task.id);
      Some(if k == -1 then state else state[task.todoListId := b[k := task]])
    else
      None
  }

  /** `state[todolistId].find(task => task.id === taskId)`, with a missing bucket read as "not found". */
  function FindTask(state: TasksState, todolistId: string, taskId: string): (r: Option<DomainTask>)
    ensures r.None? <==> todolistId !in state || forall j :: 0 <= j < |state[todolistId]| ==> state[todolistId][j].id != taskId
    ensures r.Some? ==>
      && todolistId in state
      && r.value.id == taskId
      && exists k :: 0 <= k < |state[todolistId]| && state[todolistId][k] == r.value
           && forall j :: 0 <= j < k ==> state[todolistId][j].id != taskId
  {
    if todolistId !in state then None
    else
      var k := IndexOf(state[todolistId], TaskId, taskId);
      IndexOfIsFirst(state[todolistId], TaskId, taskId);
      if k == -1 then None else Some(state[todolistId][k])
  }

  /** The six fields of a task that the update endpoint takes. */
  function ModelOf(task: DomainTask): UpdateTaskModel {
    UpdateTaskModel(task.description, task.title, task.status, task.priority, task.startDate, task.deadline)
  }

  /** The patch that names every field, with the values of `m`. */
  function PatchOf(m: UpdateTaskModel): TaskPatch {
    TaskPatch(Some(m.description), Some(m.title), Some(m.status), Some(m.priority), Some(m.startDate), Some(m.deadline))
  }

  /** Every field present in `patch` has the patch's value in `m`. */
  predicate Carries(m: UpdateTaskModel, patch: TaskPatch) {
    && (patch.description.Some? ==> m.description == patch.description.value)
    && (patch.title.Some? ==> m.title == patch.title.value)
    && (patch.status.Some? ==> m.status == patch.status.value)
    && (patch.priority.Some? ==> m.priority == patch.priority.value)
    && (patch.startDate.Some? ==> m.startDate == patch.startDate.value)
    && (patch.deadline.Some? ==> m.deadline == patch.deadline.value)
  }

  /** Every field absent from `patch` has the value it has in `base`. */
  predicate Keeps(m: UpdateTaskModel, base: UpdateTaskModel, patch: TaskPatch) {
    && (patch.description.None? ==> m.description == base.description)
    && (patch.title.None? ==> m.title == base.title)
    && (patch.status.None? ==> m.status == base.status)
    && (patch.priority.None? ==> m.priority == base.priority)
    && (patch.startDate.None? ==> m.startDate == base.startDate)
    && (patch.deadline.None? ==> m.deadline == base.deadline)
  }

  /**
   * `{ description: task.description, ..., status: task.status, ...domainModel }`:
   * the full model sent to the server, the patch's fields winning over the task's.
   */
  function MergeModel(task: DomainTask, patch: TaskPatch): (m: UpdateTaskModel)
    ensures Carries(m, patch) && Keeps(m, ModelOf(task), patch)
  {
    UpdateTaskModel(
      patch.description.GetOr(task.description),
      patch.title.GetOr(task.title),
      patch.status.GetOr(task.status),
      patch.priority.GetOr(task.priority),
      patch.startDate.GetOr(task.startDate),
      patch.deadline.GetOr(task.deadline))
  }

  /** The merge is the only model that carries the patch and keeps the rest of the task. */
  lemma MergeModelUnique(task: DomainTask, patch: TaskPatch, m: UpdateTaskModel)
    requires Carries(m, patch) && Keeps(m, ModelOf(task), patch)
    ensures m == MergeModel(task, patch)
  {
  }

  /** An empty patch re-sends the task's current fields; a full patch sends exactly its own values. */
  lemma MergeExtremes(task: DomainTask, m: UpdateTaskModel)
    ensures MergeModel(task, NoChange) == ModelOf(task)
    ensures MergeModel(task, PatchOf(m)) == m
  {
  }

  /** Creating a todolist's bucket and deleting it again restores a map that lacked it. */
  lemma RemoveUndoesAdd(state: TasksState, id: string)
    requires id !in state
    ensures TodolistRemoved(TodolistAdded(state, id), id) == state
  {
  }

  /** Of two fetches of one bucket, the later answer is all that remains. */
  lemma LastFetchWins(state: TasksState, id: string, first: seq<DomainTask>, second: seq<DomainTask>)
    ensures TasksFetched(TasksFetched(state, id, first), id, second) == TasksFetched(state, id, second)
  {
  }

  /** Two creates in one bucket leave the more recent task first. */
  lemma CreatesAreMostRecentFirst(state: TasksState, first: DomainTask, second: DomainTask)
    requires first.todoListId in state && second.todoListId == first.todoListId
    ensures TaskCreated(state, first).Some?
    ensures TaskCreated(TaskCreated(state, first).value, second).Some?
    ensures TaskCreated(TaskCreated(state, first).value, second).value[first.todoListId]
      == [second, first] + state[first.todoListId]
  {
    var l := first.todoListId;
    var once := TaskCreated(state, first).value;
    var twice := TaskCreated(once, second).value;
    assert once[l] == [first] + state[l];
    assert twice[l] == [second] + once[l];
  }

  /** A created task is what a later lookup of its id in its bucket finds. */
  lemma CreatedTaskIsFound(state: TasksState, task: DomainTask)
    requires task.todoListId in state
    ensures TaskCreated(state, task).Some?
    ensures FindTask(TaskCreated(state, task).value, task.todoListId, task.id) == Some(task)
  {
    var after := TaskCreated(state, task).value;
    assert IndexOf(after[task.todoListId], TaskId, task.id) == 0;
  }

  /** Deleting a task just created restores the task map exactly. */
  lemma DeleteUndoesCreate(state: TasksState, task: DomainTask)
    requires task.todoListId in state
    ensures TaskCreated(state, task).Some?
    ensures TaskDeleted(TaskCreated(state, task).value, task.todoListId, task.id) == Some(state)
  {
    var l := task.todoListId;
    var after := TaskCreated(state, task).value;
    assert IndexOf(after[l], TaskId, task.id) == 0;
    assert after[l][1..] == state[l];
    assert TaskDeleted(after, l, task.id).value == state;
  }

  /** After an update of a task the bucket holds, a lookup of its id finds the server's task. */
  lemma UpdatedTaskIsFound(state: TasksState, task: DomainTask)
    requires FindTask(state, task.todoListId, task.id).Some?
    ensures TaskUpdated(state, task).Some?
    ensures FindTask(TaskUpdated(state, task).value, task.todoListId, task.id) == Some(task)
  {
    var l := task.todoListId;
    var after := TaskUpdated(state, task).value;
    var k := IndexOf(state[l], TaskId, task.id);
    IndexOfSameKeys(state[l], after[l], TaskId, task.id);
  }

  /** `find` on the current state (the first phase of an update); a missing bucket finds nothing. */
  method LookupTask(state: TasksState, todolistId: string, taskId: string) returns (found: Option<DomainTask>)
    ensures found == FindTask(state, todolistId, taskId)
  {
    if todolistId !in state {
      return None;
    }
    var tasks := state[todolistId];
    var index := FindIndex(tasks, TaskId, taskId);
    if index == -1 {
      return None;
    }
    return Some(tasks[index]);
  }

  /** How a fulfilled reducer's edit lands: it throws and keeps `before`, or the state becomes its result. */
  ghost predicate Settles(settled: Settled, after: TasksState, before: TasksState, handled: Option<TasksState>) {
    match handled
    case None => settled == ReducerThrew && after == before
    case Some(s) => settled == Fulfilled && after == s
  }

  /** The local task map; its methods are the slice's reducers and thunks. */
  class TaskStore {
    var tasks: TasksState

    /** The initial state `{}`. */
    constructor ()
      ensures tasks == map[]
    {
      tasks := map[];
    }

    /** The reducer for `createTodolist.fulfilled`: `state[id] = []`. */
    method TodolistCreated(reply: Reply<TodolistsSlice.Todolist>)
      modifies this
      ensures reply.Rejected? ==> tasks == old(tasks)
      ensures reply.Resolved? ==> tasks == TodolistAdded(old(tasks), reply.payload.id)
    {
      if reply.Resolved? {
        tasks := tasks[reply.payload.id := []];
      }
    }

    /** The reducer for `deleteTodolist.fulfilled`: `delete state[id]`. */
    method TodolistDeleted(id: string, reply: Reply<()>)
      modifies this
      ensures reply.Rejected? ==> tasks == old(tasks)
      ensures reply.Resolved? ==> tasks == TodolistRemoved(old(tasks), id)
    {
      if reply.Resolved? {
        tasks := tasks - {id};
      }
    }

    /** `fetchTasks`: the bucket becomes the server's `items`; the response's `error` field is not read. */
    method FetchTasks(todolistId: string, reply: Reply<GetTasksResponse>)
      modifies this
      ensures reply.Rejected? ==> tasks == old(tasks)
      ensures reply.Resolved? ==> tasks == TasksFetched(old(tasks), todolistId, reply.payload.items)
    {
      if reply.Resolved? {
        tasks := tasks[todolistId := reply.payload.items];
      }
    }

    /**
     * `createTask`: `unshift` the server's task into the bucket its own
     * `todoListId` names; `args.todolistId` only travels to the server.
     */
    method CreateTask(args: CreateTaskArgs, reply: Reply<DomainTask>) returns (settled: Settled)
      modifies this
      ensures reply.Rejected? ==> settled == ThunkRejected && tasks == old(tasks)
      ensures reply.Resolved? ==> Settles(settled, tasks, old(tasks), TaskCreated(old(tasks), reply.payload))
    {
      if reply.Rejected? {
        return ThunkRejected;
      }
      var task := reply.payload;
      if task.todoListId !in tasks {
        return ReducerThrew;
      }
      tasks := tasks[task.todoListId := [task] + tasks[task.todoListId]];
      return Fulfilled;
    }

    /** `deleteTask`: `findIndex` in the caller's bucket, then `splice` when found. */
    method DeleteTask(args: DeleteTaskArgs, reply: Reply<()>) returns (settled: Settled)
      modifies this
      ensures reply.Rejected? ==> settled == ThunkRejected && tasks == old(tasks)
      ensures reply.Resolved? ==> Settles(settled, tasks, old(tasks), TaskDeleted(old(tasks), args.todolistId, args.taskId))
    {
      if reply.Rejected? {
        return ThunkRejected;
      }
      if args.todolistId !in tasks {
        return ReducerThrew;
      }
      var bucket := tasks[args.todolistId];
      var index := FindIndex(bucket, TaskId, args.taskId);
      if index != -1 {
        tasks := tasks[args.todolistId := bucket[..index] + bucket[index + 1..]];
      }
      return Fulfilled;
    }

    /**
     * `updateTask`: look the task up locally and reject at once, without a
     * server call, when it is absent; otherwise send the merged full model
     * (`sent`) and, once the server answers, overwrite the matching task with
     * the server's task verbatim. `reply` is read only when a model was sent.
     */
    method UpdateTask(todolistId: string, taskId: string, patch: TaskPatch, reply: Reply<DomainTask>)
      returns (sent: Option<UpdateTaskModel>, settled: Settled)
      modifies this
      ensures FindTask(old(tasks), todolistId, taskId).None? ==>
        sent == None && settled == ThunkRejected && tasks == old(tasks)
      ensures FindTask(old(tasks), todolistId, taskId).Some? ==>
        sent == Some(MergeModel(FindTask(old(tasks), todolistId, taskId).value, patch))
      ensures sent.Some? && reply.Rejected? ==> settled == ThunkRejected && tasks == old(tasks)
      ensures sent.Some? && reply.Resolved? ==>
        Settles(settled, tasks, old(tasks), TaskUpdated(old(tasks), reply.payload))
    {
      var current := LookupTask(tasks, todolistId, taskId);
      if current.None? {
        return None, ThunkRejected;
      }
      sent := Some(MergeModel(current.value, patch));
      if reply.Rejected? {
        return sent, ThunkRejected;
      }
      var task := reply.payload;
      if task.todoListId !in tasks {
        return sent, ReducerThrew;
      }
      var bucket := tasks[task.todoListId];
      var index := FindIndex(bucket, TaskId, task.id);
      if index != -1 {
        tasks := tasks[task.todoListId := bucket[index := task]];
      }
      settled := Fulfilled;
    }
  }
}
