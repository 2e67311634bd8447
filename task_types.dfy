/**
 * The task shapes the Remote API exchanges (src/features/todolists/api/tasksApi.types.ts).
 */
module TaskTypes {
  import opened Wrappers

  /** A server-defined task status; the enum's members are opaque here and kept as their numeric code. */
  datatype TaskStatus = TaskStatus(code: int)

  /** A server-defined task priority, kept as its numeric code. */
  datatype TaskPriority = TaskPriority(code: int)

  /** Named codes used by the scenarios; the numbering is assumed, the enum file is not part of this model. */
  const New := TaskStatus(0)
  const Completed := TaskStatus(2)
  const Low := TaskPriority(0)

  /** A task as the server stores it; dates are kept as the strings the API sends. */
  datatype DomainTask = DomainTask(
    description: string,
    title: string,
    status: TaskStatus,
    priority: TaskPriority,
    startDate: string,
    deadline: string,
    id: string,
    todoListId: string,
    order: int,
    addedDate: string)

  /** The key the task scans compare. */
  function TaskId(t: DomainTask): string { t.id }

  /** The answer of "list tasks"; the store reads only `items`. */
  datatype GetTasksResponse = GetTasksResponse(error: Option<string>, totalCount: int, items: seq<DomainTask>)

  /** The full representation the "update task" endpoint requires. */
  datatype UpdateTaskModel = UpdateTaskModel(
    description: string,
    title: string,
    status: TaskStatus,
    priority: TaskPriority,
    startDate: string,
    deadline: string)

  /** `Partial<UpdateTaskModel>`: `None` is a field the caller left out. */
  datatype TaskPatch = TaskPatch(
    description: Option<string>,
    title: Option<string>,
    status: Option<TaskStatus>,
    priority: Option<TaskPriority>,
    startDate: Option<string>,
    deadline: Option<string>)

  /** The patch that names no field. */
  const NoChange := TaskPatch(None, None, None, None, None, None)

  /** The arguments of "delete task". */
  datatype DeleteTaskArgs = DeleteTaskArgs(todolistId: string, taskId: string)

  /** The arguments of "create task"; they only travel to the server. */
  datatype CreateTaskArgs = CreateTaskArgs(todolistId: string, title: string)
}
