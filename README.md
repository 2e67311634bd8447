# Todolist and task stores

This project models the client-side stores of a todolist application. They keep a local copy of the
server's todolists and tasks:

- **Todolist store** (`todolists-slice.ts`): an ordered sequence of todolists. Each carries a
  client-only display filter (`all | active | completed`).
- **Task store** (`tasks-slice.ts`): a map from todolist id to that list's ordered bucket of tasks.

Every server-backed operation (a Redux Toolkit async thunk) calls the Remote API at most once:
`updateTask` rejects without a call when its local lookup fails, every other thunk calls it exactly
once. Each edits the local state only in its fulfilled reducer, after the call resolved. On a rejection the state is
left as it was. The server is an input here: each operation takes a `Reply<T>`, either
`Resolved(payload)` or `Rejected`. Each store is a class with one field (`lists` or `tasks`). Its
methods are the reducers, written imperatively: a `findIndex` scan (`Scan.FindIndex`, a loop),
then `unshift`, `splice`, `push` or an indexed overwrite. Each method is proved against a pure
next-state function (`Created`, `Deleted`, `TaskCreated`, `TaskUpdated`, ...). The lemmas beside
those functions state the properties the stores promise: frame conditions, undo, idempotence,
ordering, and the lookup that follows an update.

A fulfilled task reducer can read a bucket the map does not have (`state[id].unshift(...)` on a
missing key). It then throws a TypeError, and Redux keeps the previous state. The model says so with
`Settled.ReducerThrew` and leaves the state unchanged. `updateTask` on a missing bucket throws while
reading local state, before any server call. The thunk then rejects, exactly as when the task is
absent.

Modules: `Wrappers` (Option, Reply), `Scan` (find and splice by id), `TaskTypes` (the shapes of
`tasksApi.types.ts`), `TodolistsSlice`, `TasksSlice`, and `AppStore`. `AppStore` applies the
todolist created/deleted events to both stores, states the lockstep invariant between them, and
holds two end-to-end client scenarios.

## Model

| member | source | states |
|---|---|---|
| `Scan.IndexOf` | src/features/todolists/model/todolists-slice.ts:18 | `findIndex` by id: the result is -1 or a valid position, and the element at a valid result has the id |
| `Scan.IndexOfIsFirst` | src/features/todolists/model/todolists-slice.ts:18 | `findIndex` finds the first match: -1 exactly when no element has the id, and no element before the result has it |
| `Scan.FindIndex` | src/features/todolists/model/tasks-slice.ts:73 | the front-to-back scan returns the first index with the id, or -1 (equal to `IndexOf`) |
| `Scan.RemoveFirstIsSplice` | src/features/todolists/model/tasks-slice.ts:73-76 | removing the first match equals `splice(index, 1)` at the `findIndex` result, and is the identity when the index is -1 |
| `Scan.IndexOfSameKeys` | src/features/todolists/model/todolists-slice.ts:34 | the first match depends only on the ids: sequences with the same ids position by position find the same index |
| `TodolistsSlice.Decorate` | src/features/todolists/model/todolists-slice.ts:15 | `{...tl, filter: "all"}` keeps every server field (stripping the filter gives back `tl`) and sets the filter to all |
| `TodolistsSlice.Decorated` | src/features/todolists/model/todolists-slice.ts:52-54 | decorating the server's lists yields one local list per server list |
| `TodolistsSlice.DecoratedAt` | src/features/todolists/model/todolists-slice.ts:52-54 | position `i` of the decorated batch is the server's list `i`, unchanged, with filter all |
| `TodolistsSlice.DecoratedAppend` | src/features/todolists/model/todolists-slice.ts:52-54 | pushing one batch after another equals pushing them together, so each `push` extends the prefix in server order |
| `TodolistsSlice.Created` | src/features/todolists/model/todolists-slice.ts:14-16 | after create, the new list with filter all is first and the old sequence follows unchanged |
| `TodolistsSlice.Deleted` | src/features/todolists/model/todolists-slice.ts:17-22 | after delete, exactly the first list with the id is gone and the others keep their order; no-op when the id is absent |
| `TodolistsSlice.Renamed` | src/features/todolists/model/todolists-slice.ts:23-28 | after rename, the length and every id, date, order and filter are unchanged; only the first match's title changes, to the new title; no-op when absent |
| `TodolistsSlice.Filtered` | src/features/todolists/model/todolists-slice.ts:33-38 | after set-filter, every server field is unchanged; only the first match's filter changes, to the new filter |
| `TodolistsSlice.DeleteUndoesCreate` | src/features/todolists/model/todolists-slice.ts:14-22 | deleting the list just created restores the previous sequence |
| `TodolistsSlice.FilterIdempotent` | src/features/todolists/model/todolists-slice.ts:33-38 | setting the same filter twice equals setting it once |
| `TodolistsSlice.RenameLastWins` | src/features/todolists/model/todolists-slice.ts:23-28 | two renames of one list equal the second rename alone |
| `TodolistsSlice.TodolistStore.constructor` | src/features/todolists/model/todolists-slice.ts:8 | the store starts empty |
| `TodolistsSlice.TodolistStore.CreateTodolist` | src/features/todolists/model/todolists-slice.ts:63-73 | on success the sequence becomes `Created(old, tl)` (the `unshift`); on rejection it is unchanged |
| `TodolistsSlice.TodolistStore.DeleteTodolist` | src/features/todolists/model/todolists-slice.ts:75-85 | on success the sequence becomes `Deleted(old, id)` (`findIndex` + `splice`); on rejection it is unchanged |
| `TodolistsSlice.TodolistStore.ChangeTodolistTitle` | src/features/todolists/model/todolists-slice.ts:87-97 | on success the sequence becomes `Renamed(old, id, title)`; on rejection it is unchanged |
| `TodolistsSlice.TodolistStore.ChangeTodolistFilter` | src/features/todolists/model/todolists-slice.ts:33-38 | the synchronous reducer makes the sequence `Filtered(old, id, filter)` |
| `TodolistsSlice.TodolistStore.FetchTodolists` | src/features/todolists/model/todolists-slice.ts:40-57 | on success the `push` loop leaves the old state as prefix, followed by the server lists decorated in server order; on rejection it is unchanged |
| `TasksSlice.TodolistAdded` | src/features/todolists/model/tasks-slice.ts:16-18 | after a created todolist the new id is a key bound to `[]`; every other key and bucket is unchanged |
| `TasksSlice.TodolistRemoved` | src/features/todolists/model/tasks-slice.ts:19-21 | after a deleted todolist the id is no longer a key; every other bucket is unchanged |
| `TasksSlice.TasksFetched` | src/features/todolists/model/tasks-slice.ts:37-39 | after a fetch the bucket is exactly the server's items in server order, whatever it held; other buckets are unchanged |
| `TasksSlice.TaskCreated` | src/features/todolists/model/tasks-slice.ts:59-61 | the reducer throws exactly when the bucket named by the task's own `todoListId` is missing; otherwise that bucket grows by one, with the task at index 0 and the old contents after it; other buckets are unchanged |
| `TasksSlice.TaskDeleted` | src/features/todolists/model/tasks-slice.ts:71-77 | the reducer throws exactly when the bucket is missing; otherwise the first task with the id is spliced out and the others keep their order (no-op without a match); other buckets are unchanged |
| `TasksSlice.TaskUpdated` | src/features/todolists/model/tasks-slice.ts:207-213 | the reducer throws exactly when the answer's bucket is missing; otherwise the bucket keeps its length and every position except the first match of the answer's id, which becomes the server's task verbatim; no-op without a match |
| `TasksSlice.FindTask` | src/features/todolists/model/tasks-slice.ts:178-179 | the lookup finds nothing exactly when the bucket is missing or holds no task with the id; otherwise it returns the first task with that id in that bucket |
| `TasksSlice.MergeModel` | src/features/todolists/model/tasks-slice.ts:185-193 | the model sent to the server has each field present in the patch from the patch, and each absent field from the current task |
| `TasksSlice.MergeModelUnique` | src/features/todolists/model/tasks-slice.ts:185-193 | any model that carries the patch and keeps the task's other fields is the merged model |
| `TasksSlice.MergeExtremes` | src/features/todolists/model/tasks-slice.ts:185-193 | an empty patch sends the task's current six fields; a patch naming every field sends exactly the patch |
| `TasksSlice.RemoveUndoesAdd` | src/features/todolists/model/tasks-slice.ts:16-21 | creating a bucket for a new list and deleting the list restores the map |
| `TasksSlice.LastFetchWins` | src/features/todolists/model/tasks-slice.ts:37-39 | of two fetches of one bucket only the later answer remains |
| `TasksSlice.CreatesAreMostRecentFirst` | src/features/todolists/model/tasks-slice.ts:59-61 | creating T1 then T2 in one bucket yields `[T2, T1]` followed by the old bucket |
| `TasksSlice.CreatedTaskIsFound` | src/features/todolists/model/tasks-slice.ts:59-61 | after a create, looking up the task's id in its bucket finds that task |
| `TasksSlice.DeleteUndoesCreate` | src/features/todolists/model/tasks-slice.ts:59-77 | deleting the task just created restores the whole map |
| `TasksSlice.UpdatedTaskIsFound` | src/features/todolists/model/tasks-slice.ts:207-213 | after an update of a task the bucket holds, looking up its id finds the server's task |
| `TasksSlice.LookupTask` | src/features/todolists/model/tasks-slice.ts:178-183 | the imperative lookup (missing bucket, then `find`) returns `FindTask` of the state |
| `TasksSlice.TaskStore.constructor` | src/features/todolists/model/tasks-slice.ts:10 | the store starts with no buckets |
| `TasksSlice.TaskStore.TodolistCreated` | src/features/todolists/model/tasks-slice.ts:16-18 | on the created event the map becomes `TodolistAdded(old, id)`; on rejection it is unchanged |
| `TasksSlice.TaskStore.TodolistDeleted` | src/features/todolists/model/tasks-slice.ts:19-21 | on the deleted event the map becomes `TodolistRemoved(old, id)`; on rejection it is unchanged |
| `TasksSlice.TaskStore.FetchTasks` | src/features/todolists/model/tasks-slice.ts:24-41 | on success the map becomes `TasksFetched(old, id, items)`; on rejection it is unchanged |
| `TasksSlice.TaskStore.CreateTask` | src/features/todolists/model/tasks-slice.ts:43-62 | on rejection nothing changes; on success the map is `TaskCreated(old, task)`, or unchanged with `ReducerThrew` when the bucket is missing |
| `TasksSlice.TaskStore.DeleteTask` | src/features/todolists/model/tasks-slice.ts:63-78 | on rejection nothing changes; on success the map is `TaskDeleted(old, ...)`, or unchanged with `ReducerThrew` when the bucket is missing |
| `TasksSlice.TaskStore.UpdateTask` | src/features/todolists/model/tasks-slice.ts:175-214 | when the lookup fails, nothing is sent, the thunk rejects and nothing changes; otherwise the merged model is sent, a rejection changes nothing, and a success makes the map `TaskUpdated(old, answer)` |
| `AppStore.SpliceRemovesOneId` | src/features/todolists/model/todolists-slice.ts:18-20 | with distinct ids, splicing out one list removes exactly its id from the id set and keeps the ids distinct |
| `AppStore.CreatePreservesLockstep` | src/features/todolists/model/tasks-slice.ts:16-18 | if the buckets are exactly the known list ids, a created list with a fresh id keeps that true in both stores |
| `AppStore.DeletePreservesLockstep` | src/features/todolists/model/tasks-slice.ts:19-21 | a deleted list and its dropped bucket keep the buckets exactly the known list ids |
| `AppStore.RenameAndFilterKeepLockstep` | src/features/todolists/model/todolists-slice.ts:23-38 | rename and set-filter never change an id, so lockstep is kept |
| `AppStore.SameIdsSameSet` | src/features/todolists/model/todolists-slice.ts:26 | in-place field edits that keep every id keep the id set and its distinctness |
| `AppStore.FetchLeavesListWithoutBucket` | src/features/todolists/model/todolists-slice.ts:51-56 | fetching todolists creates no bucket: one fetched list already breaks lockstep |
| `AppStore.CreateTodolist` | src/features/todolists/model/tasks-slice.ts:16-18 | one created event edits both stores: `Created` on the lists, `TodolistAdded` on the tasks; a rejection changes neither |
| `AppStore.DeleteTodolist` | src/features/todolists/model/tasks-slice.ts:19-21 | one deleted event edits both stores: `Deleted` on the lists, `TodolistRemoved` on the tasks; a rejection changes neither |
| `AppStore.FetchThenDeleteScenario` | src/features/todolists/model/tasks-slice.ts:37-77 | fetch list L1, fetch its task T1, delete T1: one list with filter all, and L1's bucket is empty |
| `AppStore.UpdateScenario` | src/features/todolists/model/tasks-slice.ts:175-213 | updating only the status sends the full model with the other fields from the task; the store keeps the server's answer, not the sent model |

## Notes on the code's behaviour

- `GetTasksResponse` carries an `error` field that `fetchTasks` never reads (tasks-slice.ts:28-30),
  so a response with a non-null `error` still replaces the bucket with its `items`.
- The task map's keys match the known todolist ids only across create and delete.
  `fetchTodolists` adds lists without buckets, and `fetchTasks` can add a bucket for any id
  (`AppStore.FetchLeavesListWithoutBucket`).
- `tasks-slice.ts:1` imports `createTodolist`/`deleteTodolist`, while `todolists-slice.ts` exports
  `createTodolistTC`/`deleteTodolistTC`. Both are modelled as the same two events: todolist created
  and todolist deleted.

## Left out

- The HTTP calls (`tasksApi.*`, `todolistsApi.*`): every operation takes the server's answer as a `Reply` parameter instead.
- `TasksSlice.TaskStore.UpdateTask`: the server's answer is a parameter that does not depend on the sent model; the model only records which model would be sent.
- The `setStatus` dispatches to the global status slice, and the status value itself: that slice is not part of this model.
- The `setTimeout` delays: they only affect timing.
- Interleaving of concurrent thunks (last writer wins): the model is sequential; each operation runs its lookup, call and reducer as one step.
- The selectors `selectTasks` and `selectTodolists`: they return the state unchanged.
- The commented-out alternative implementations in both slices: they are not compiled.
- The UI components `Todolists.tsx` and `TaskItem.tsx`: React rendering is not part of this model.
- `TaskStatus` and `TaskPriority` are kept as opaque numeric codes, because the enum definitions are not part of this model.
- A patch field explicitly set to `undefined` (which the spread would copy): `TaskPatch` only distinguishes present and absent fields.
- Object keys with special meaning in JavaScript (such as `__proto__`): the task map is a plain Dafny map.
