/** The tasks service: task records scoped to their owner, a one-way
    completion step, and admin variants that skip the owner filter. */
module Tasks {
  import opened Ids
  import opened Outcomes

  type TaskId = ObjectId

  /** The schema's default status, and the status `completedOne` sets. */
  const PENDING := "Pending"
  const COMPLETED := "Completed"

  const TASK_NOT_FOUND := "Task not found"
  const ALREADY_COMPLETED := "This task is already completed"
  /** The validation error the store raises when the required title is
      missing or empty. */
  const TITLE_REQUIRED := "Task validation failed: title: Path `title` is required."
  const CREATE_FAILED := "Could not create task : "
  const COMPLETE_FAILED := "Could not completing task : "

  /** A task document (the id is its key in the collection). The status is a
      plain string in the schema, with no enumeration. */
  datatype Task = Task(title: string, description: Option<string>, status: string, userId: ObjectId)

  /** The body of a creation request; it may carry a `userId` of its own. */
  datatype TaskInput = TaskInput(title: Option<string>, description: Option<string>, status: Option<string>, userId: Option<ObjectId>)

  /** The body of an update request: the fields it sets. */
  datatype TaskPatch = TaskPatch(title: Option<string>, description: Option<string>, status: Option<string>)

  /** A saved document: its id and its fields. */
  datatype Saved = Saved(id: TaskId, task: Task)

  /** The result of an operation together with the collection after it. */
  datatype TaskOutcome<+T> = TaskOutcome(result: Result<T>, tasks: map<TaskId, Task>)

  /** The `{ _id, userId }` filter every non-admin query uses. */
  predicate Owned(tasks: map<TaskId, Task>, id: TaskId, userId: ObjectId) {
    id in tasks && tasks[id].userId == userId
  }

  /** `find({ userId })`: the tasks of one owner. */
  function OwnedBy(tasks: map<TaskId, Task>, userId: ObjectId): (r: map<TaskId, Task>)
    ensures forall id :: id in r <==> Owned(tasks, id, userId)
    ensures forall id :: id in r ==> id in tasks && r[id] == tasks[id]
  {
    map id | id in tasks && tasks[id].userId == userId :: tasks[id]
  }

  /** `create`, with `id` the id the new document receives: the body's
      fields, then the caller as owner, then the schema's rules. */
  function Insert(tasks: map<TaskId, Task>, id: TaskId, input: TaskInput, userId: ObjectId): (o: TaskOutcome<Saved>)
    ensures o.result.Failure? <==> input.title.None? || input.title.value == ""
    ensures o.result.Failure? ==> o.result.error == InternalError(CREATE_FAILED + TITLE_REQUIRED) && o.tasks == tasks
    ensures o.result.Success? ==>
      && o.result.value.id == id
      && o.tasks == tasks[id := o.result.value.task]
      && o.result.value.task.userId == userId
      && o.result.value.task.title == input.title.value
      && o.result.value.task.description == input.description
      && o.result.value.task.status == (if input.status.Some? then input.status.value else PENDING)
  {
    var spread := Task(input.title.GetOr(""), input.description, input.status.GetOr(PENDING),
                       if input.userId.Some? then input.userId.value else userId);
    var doc := spread.(userId := userId);
    if input.title.None? || doc.title == "" then TaskOutcome(Failure(InternalError(CREATE_FAILED + TITLE_REQUIRED)), tasks)
    else TaskOutcome(Success(Saved(id, doc)), tasks[id := doc])
  }

  /** `completedOne`: its errors are thrown inside its try block and surface
      as InternalError. The final save validates the whole document, so a
      title that an update emptied makes the completion fail. */
  function Complete(tasks: map<TaskId, Task>, userId: ObjectId, taskId: TaskId): (o: TaskOutcome<Task>)
    ensures o.result.Failure? ==> o.result.error.InternalError? && o.tasks == tasks
    ensures o.result.Success? <==>
      Owned(tasks, taskId, userId) && tasks[taskId].status != COMPLETED && tasks[taskId].title != ""
    ensures o.result.Success? ==>
      && o.result.value.status == COMPLETED
      && o.result.value == tasks[taskId].(status := COMPLETED)
      && o.tasks == tasks[taskId := o.result.value]
  {
    if !Owned(tasks, taskId, userId) then
      TaskOutcome(Failure(InternalError(COMPLETE_FAILED + TASK_NOT_FOUND)), tasks)
    else if tasks[taskId].status == COMPLETED then
      TaskOutcome(Failure(InternalError(COMPLETE_FAILED + ALREADY_COMPLETED)), tasks)
    else if tasks[taskId].title == "" then
      TaskOutcome(Failure(InternalError(COMPLETE_FAILED + TITLE_REQUIRED)), tasks)
    else
      var task := tasks[taskId].(status := COMPLETED);
      TaskOutcome(Success(task), tasks[taskId := task])
  }

  /** The fields of `task` after the update body is applied: a field the
      body gives is written, an absent one is kept, and the owner never
      changes. */
  function Patched(task: Task, patch: TaskPatch): (t: Task)
    ensures t.title == (if patch.title.Some? then patch.title.value else task.title)
    ensures t.description == (if patch.description.Some? then patch.description else task.description)
    ensures t.status == (if patch.status.Some? then patch.status.value else task.status)
    ensures t.userId == task.userId
  {
    Task(patch.title.GetOr(task.title),
         if patch.description.Some? then patch.description else task.description,
         patch.status.GetOr(task.status),
         task.userId)
  }

  /** `update`: `findOneAndUpdate` on the owner filter, returning the new record. */
  function Amend(tasks: map<TaskId, Task>, id: TaskId, userId: ObjectId, patch: TaskPatch): (o: TaskOutcome<Task>)
    ensures o.result.Failure? <==> !Owned(tasks, id, userId)
    ensures o.result.Failure? ==> o.result.error == NotFound(TASK_NOT_FOUND) && o.tasks == tasks
    ensures o.result.Success? ==>
      && o.result.value == Patched(tasks[id], patch)
      && o.tasks == tasks[id := o.result.value]
  {
    if !Owned(tasks, id, userId) then TaskOutcome(Failure(NotFound(TASK_NOT_FOUND)), tasks)
    else
      var task := Patched(tasks[id], patch);
      TaskOutcome(Success(task), tasks[id := task])
  }

  /** `delete`: `findOneAndDelete` on the owner filter. */
  function DeleteOwned(tasks: map<TaskId, Task>, userId: ObjectId, taskId: TaskId): (o: TaskOutcome<Task>)
    ensures o.result.Failure? <==> !Owned(tasks, taskId, userId)
    ensures o.result.Failure? ==> o.result.error == NotFound(TASK_NOT_FOUND) && o.tasks == tasks
    ensures o.result.Success? ==>
      && o.result.value == tasks[taskId]
      && o.tasks.Keys == tasks.Keys - {taskId}
      && forall other :: other in o.tasks ==> o.tasks[other] == tasks[other]
  {
    if !Owned(tasks, taskId, userId) then TaskOutcome(Failure(NotFound(TASK_NOT_FOUND)), tasks)
    else TaskOutcome(Success(tasks[taskId]), tasks - {taskId})
  }

  /** `removeTask`: `findByIdAndDelete`, whoever owns the task. */
  function DeleteAny(tasks: map<TaskId, Task>, id: TaskId): (o: TaskOutcome<Task>)
    ensures o.result.Failure? <==> id !in tasks
    ensures o.result.Failure? ==> o.result.error == NotFound(TASK_NOT_FOUND) && o.tasks == tasks
    ensures o.result.Success? ==>
      && o.result.value == tasks[id]
      && o.tasks.Keys == tasks.Keys - {id}
      && forall other :: other in o.tasks ==> o.tasks[other] == tasks[other]
  {
    if id !in tasks then TaskOutcome(Failure(NotFound(TASK_NOT_FOUND)), tasks)
    else TaskOutcome(Success(tasks[id]), tasks - {id})
  }

  /** The service, holding the tasks collection. */
  class TasksService {
    var tasks: map<TaskId, Task>
    /** The next id the store will hand out. */
    var nextId: TaskId

    ghost predicate Valid()
      reads this
    {
      0 < nextId && forall id :: id in tasks ==> 0 < id < nextId
    }

    constructor ()
      ensures Valid() && tasks == map[]
    {
      tasks := map[];
      nextId := 1;
    }

    /** `create`: the new document takes its id when it is built, before the
        store validates it. */
    method Create(input: TaskInput, userId: ObjectId) returns (r: Result<Saved>)
      requires Valid()
      modifies this
      ensures Valid() && nextId == old(nextId) + 1 && old(nextId) !in old(tasks)
      ensures TaskOutcome(r, tasks) == Insert(old(tasks), old(nextId), input, userId)
    {
      var id := nextId;
      nextId := nextId + 1;
      // the body's fields first, then the caller's id over any userId it carried
      var doc := Task(input.title.GetOr(""), input.description, input.status.GetOr(PENDING),
                      if input.userId.Some? then input.userId.value else userId);
      doc := doc.(userId := userId);
      if input.title.None? || doc.title == "" {
        return Failure(InternalError(CREATE_FAILED + TITLE_REQUIRED));
      }
      tasks := tasks[id := doc];
      r := Success(Saved(id, doc));
    }

    /** `getAllTasks`: the caller's tasks; an owner with none gets an empty
        collection, never NotFound. */
    method GetAllTasks(userId: ObjectId) returns (r: map<TaskId, Task>)
      ensures r == OwnedBy(tasks, userId)
      ensures forall id :: id in r <==> Owned(tasks, id, userId)
      ensures forall id :: id in r ==> id in tasks && r[id] == tasks[id]
    {
      r := OwnedBy(tasks, userId);
    }

    /** `getOne`: a task of another owner looks exactly like a missing one. */
    method GetOne(userId: ObjectId, taskId: TaskId) returns (r: Result<Task>)
      ensures r.Success? <==> Owned(tasks, taskId, userId)
      ensures r.Success? ==> r.value == tasks[taskId]
      ensures r.Failure? ==> r.error == NotFound(TASK_NOT_FOUND)
    {
      if !(taskId in tasks && tasks[taskId].userId == userId) {
        return Failure(NotFound(TASK_NOT_FOUND));
      }
      r := Success(tasks[taskId]);
    }

    method CompletedOne(userId: ObjectId, taskId: TaskId) returns (r: Result<Task>)
      requires Valid()
      modifies this
      ensures Valid() && nextId == old(nextId)
      ensures TaskOutcome(r, tasks) == Complete(old(tasks), userId, taskId)
    {
      if !(taskId in tasks && tasks[taskId].userId == userId) {
        return Failure(InternalError(COMPLETE_FAILED + TASK_NOT_FOUND));
      }
      var task := tasks[taskId];
      if task.status == COMPLETED {
        return Failure(InternalError(COMPLETE_FAILED + ALREADY_COMPLETED));
      }
      task := task.(status := COMPLETED);
      // the save validates every path, the required title included
      if task.title == "" {
        return Failure(InternalError(COMPLETE_FAILED + TITLE_REQUIRED));
      }
      tasks := tasks[taskId := task];
      r := Success(task);
    }

    method Update(id: TaskId, userId: ObjectId, patch: TaskPatch) returns (r: Result<Task>)
      requires Valid()
      modifies this
      ensures Valid() && nextId == old(nextId)
      ensures TaskOutcome(r, tasks) == Amend(old(tasks), id, userId, patch)
    {
      if !(id in tasks && tasks[id].userId == userId) {
        return Failure(NotFound(TASK_NOT_FOUND));
      }
      var task := Patched(tasks[id], patch);
      tasks := tasks[id := task];
      r := Success(task);
    }

    method Delete(userId: ObjectId, taskId: TaskId) returns (r: Result<Task>)
      requires Valid()
      modifies this
      ensures Valid() && nextId == old(nextId)
      ensures TaskOutcome(r, tasks) == DeleteOwned(old(tasks), userId, taskId)
    {
      if !(taskId in tasks && tasks[taskId].userId == userId) {
        return Failure(NotFound(TASK_NOT_FOUND));
      }
      var task := tasks[taskId];
      tasks := tasks - {taskId};
      r := Success(task);
    }

    /** `getAll` (admin): every task, no owner filter. */
    method GetAll() returns (r: map<TaskId, Task>)
      ensures r.Keys == tasks.Keys
      ensures forall id :: id in r ==> id in tasks && r[id] == tasks[id]
    {
      r := tasks;
    }

    method RemoveTask(id: TaskId) returns (r: Result<Task>)
      requires Valid()
      modifies this
      ensures Valid() && nextId == old(nextId)
      ensures TaskOutcome(r, tasks) == DeleteAny(old(tasks), id)
    {
      if id !in tasks {
        return Failure(NotFound(TASK_NOT_FOUND));
      }
      var task := tasks[id];
      tasks := tasks - {id};
      r := Success(task);
    }
  }
}
