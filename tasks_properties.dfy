/** What the tasks service promises across its operations: owners are
    isolated from one another, `completedOne` succeeds at most once on a
    task that `update` leaves alone, and the caller always owns what it
    creates. */
module TasksProperties {
  import opened Ids
  import opened Outcomes
  import opened Tasks

  /** Every owner-scoped operation refuses a task of another owner exactly as
      it refuses a missing one, and changes nothing. */
  lemma ForeignTaskLooksMissing(tasks: map<TaskId, Task>, id: TaskId, caller: ObjectId, patch: TaskPatch)
    requires id in tasks && tasks[id].userId != caller
    ensures Complete(tasks, caller, id) == Complete(tasks - {id}, caller, id).(tasks := tasks)
    ensures Amend(tasks, id, caller, patch) == Amend(tasks - {id}, id, caller, patch).(tasks := tasks)
    ensures DeleteOwned(tasks, caller, id) == DeleteOwned(tasks - {id}, caller, id).(tasks := tasks)
    ensures Complete(tasks, caller, id) == TaskOutcome(Failure(InternalError(COMPLETE_FAILED + TASK_NOT_FOUND)), tasks)
    ensures Amend(tasks, id, caller, patch) == TaskOutcome(Failure(NotFound(TASK_NOT_FOUND)), tasks)
    ensures DeleteOwned(tasks, caller, id) == TaskOutcome(Failure(NotFound(TASK_NOT_FOUND)), tasks)
  {
  }

  /** The messages behind completedOne's InternalErrors for a missing and
      for a completed task. */
  lemma CompleteFailures(tasks: map<TaskId, Task>, userId: ObjectId, taskId: TaskId)
    ensures !Owned(tasks, taskId, userId) ==>
      Complete(tasks, userId, taskId).result == Failure(InternalError("Could not completing task : Task not found"))
    ensures Owned(tasks, taskId, userId) && tasks[taskId].status == COMPLETED ==>
      Complete(tasks, userId, taskId).result == Failure(InternalError("Could not completing task : This task is already completed"))
  {
    NotFoundMessage();
    AlreadyCompletedMessage();
  }

  /** The full text of completion's not-found error. */
  lemma NotFoundMessage()
    ensures COMPLETE_FAILED + TASK_NOT_FOUND == "Could not completing task : Task not found"
  {
  }

  /** The full text of completion's already-completed error. */
  lemma AlreadyCompletedMessage()
    ensures COMPLETE_FAILED + ALREADY_COMPLETED == "Could not completing task : This task is already completed"
  {
  }

  /** The save inside completion validates the whole document: an owned,
      unfinished task with an empty title fails the required-title check,
      and nothing changes. */
  lemma CompleteRevalidatesTitle(tasks: map<TaskId, Task>, userId: ObjectId, taskId: TaskId)
    requires Owned(tasks, taskId, userId) && tasks[taskId].status != COMPLETED
    requires tasks[taskId].title == ""
    ensures Complete(tasks, userId, taskId) == TaskOutcome(Failure(InternalError(COMPLETE_FAILED + TITLE_REQUIRED)), tasks)
  {
  }

  /** Completing a task a second time fails and changes nothing. */
  lemma CompleteTwiceFails(tasks: map<TaskId, Task>, userId: ObjectId, taskId: TaskId)
    requires Complete(tasks, userId, taskId).result.Success?
    ensures var after := Complete(tasks, userId, taskId).tasks;
      Complete(after, userId, taskId) == TaskOutcome(Failure(InternalError(COMPLETE_FAILED + ALREADY_COMPLETED)), after)
  {
  }

  /** A completed task stays completed whoever asks to complete what.
      Only completion is meant here: `update` can reopen it (see
      AmendMayReopen). */
  lemma CompletedStaysCompleted(tasks: map<TaskId, Task>, userId: ObjectId, taskId: TaskId, id: TaskId)
    requires id in tasks && tasks[id].status == COMPLETED
    ensures id in Complete(tasks, userId, taskId).tasks
    ensures Complete(tasks, userId, taskId).tasks[id] == tasks[id]
  {
  }

  /** Completed is not a terminal status: the update body is written as
      given, so the owner can set a completed task back to Pending, after
      which it can be completed again. */
  lemma AmendMayReopen()
    ensures var tasks := map[1 := Task("t", None, COMPLETED, 7)];
      var o := Amend(tasks, 1, 7, TaskPatch(None, None, Some(PENDING)));
      && o.result == Success(Task("t", None, PENDING, 7))
      && o.tasks == map[1 := Task("t", None, PENDING, 7)]
      && Complete(o.tasks, 7, 1).result == Success(Task("t", None, COMPLETED, 7))
  {
    assert PENDING != COMPLETED by { assert PENDING[0] != COMPLETED[0]; }
  }

  /** Update runs no validators and may empty the title; the save inside a
      later completion does validate, so that completion fails and the task
      stays Pending. */
  lemma EmptiedTitleBlocksCompletion()
    ensures var tasks := map[1 := Task("t", None, PENDING, 7)];
      var o := Amend(tasks, 1, 7, TaskPatch(Some(""), None, None));
      && o.result == Success(Task("", None, PENDING, 7))
      && Complete(o.tasks, 7, 1) == TaskOutcome(Failure(InternalError(COMPLETE_FAILED + TITLE_REQUIRED)), o.tasks)
      && o.tasks[1].status == PENDING
  {
    assert PENDING != COMPLETED by { assert PENDING[0] != COMPLETED[0]; }
  }

  /** A userId carried in the creation body has no effect. */
  lemma CreateIgnoresBodyOwner(tasks: map<TaskId, Task>, id: TaskId, input: TaskInput, claimed: ObjectId, userId: ObjectId)
    ensures Insert(tasks, id, input.(userId := Some(claimed)), userId) == Insert(tasks, id, input.(userId := None), userId)
  {
  }

  /** A task created with a title and no status starts Pending. */
  lemma CreateStartsPending(tasks: map<TaskId, Task>, id: TaskId, input: TaskInput, userId: ObjectId)
    requires input.title.Some? && input.title.value != "" && input.status.None?
    ensures Insert(tasks, id, input, userId).result.Success?
    ensures Insert(tasks, id, input, userId).result.value.task.status == PENDING
  {
  }

  /** The collection together with the id the store hands out next. */
  datatype Store = Store(tasks: map<TaskId, Task>, nextId: TaskId)

  /** The requests an authenticated caller can make on the tasks routes
      that carry the owner filter. */
  datatype Request =
    | New(input: TaskInput)
    | Done(taskId: TaskId)
    | Edit(taskId: TaskId, patch: TaskPatch)
    | Drop(taskId: TaskId)

  /** Ids already handed out are below nextId. */
  ghost predicate Fresh(st: Store) {
    forall id :: id in st.tasks ==> id < st.nextId
  }

  /** One request by `caller`, as the service methods perform it. */
  function Serve(st: Store, caller: ObjectId, req: Request): Store {
    match req
    case New(input) => Store(Insert(st.tasks, st.nextId, input, caller).tasks, st.nextId + 1)
    case Done(taskId) => Store(Complete(st.tasks, caller, taskId).tasks, st.nextId)
    case Edit(taskId, patch) => Store(Amend(st.tasks, taskId, caller, patch).tasks, st.nextId)
    case Drop(taskId) => Store(DeleteOwned(st.tasks, caller, taskId).tasks, st.nextId)
  }

  /** A sequence of requests by `caller`, in order. */
  function ServeAll(st: Store, caller: ObjectId, reqs: seq<Request>): Store
    decreases |reqs|
  {
    if reqs == [] then st else ServeAll(Serve(st, caller, reqs[0]), caller, reqs[1..])
  }

  /** One request changes no task of another owner and gives no one else a
      new task. */
  lemma ServeIsolates(st: Store, caller: ObjectId, req: Request, other: ObjectId)
    requires Fresh(st) && other != caller
    ensures Fresh(Serve(st, caller, req))
    ensures OwnedBy(Serve(st, caller, req).tasks, other) == OwnedBy(st.tasks, other)
  {
    var after := Serve(st, caller, req);
    forall id | id in after.tasks
      ensures id < after.nextId
    {
    }
    forall id
      ensures id in OwnedBy(after.tasks, other) <==> id in OwnedBy(st.tasks, other)
      ensures id in OwnedBy(st.tasks, other) ==> OwnedBy(after.tasks, other)[id] == OwnedBy(st.tasks, other)[id]
    {
      if req.Edit? && id == req.taskId && id in st.tasks {
        assert Patched(st.tasks[id], req.patch).userId == st.tasks[id].userId;
      }
    }
  }

  /** Whatever one caller does through the owner-scoped routes, every other
      owner's tasks stay exactly as they were. */
  lemma {:induction false} ServeAllIsolates(st: Store, caller: ObjectId, reqs: seq<Request>, other: ObjectId)
    requires Fresh(st) && other != caller
    ensures Fresh(ServeAll(st, caller, reqs))
    ensures OwnedBy(ServeAll(st, caller, reqs).tasks, other) == OwnedBy(st.tasks, other)
    decreases |reqs|
  {
    if reqs != [] {
      ServeIsolates(st, caller, reqs[0], other);
      ServeAllIsolates(Serve(st, caller, reqs[0]), caller, reqs[1..], other);
    }
  }

  /** In particular a task of another owner survives, unchanged. */
  lemma ServeAllKeepsForeignTask(st: Store, caller: ObjectId, reqs: seq<Request>, id: TaskId)
    requires Fresh(st) && id in st.tasks && st.tasks[id].userId != caller
    ensures id in ServeAll(st, caller, reqs).tasks
    ensures ServeAll(st, caller, reqs).tasks[id] == st.tasks[id]
  {
    var other := st.tasks[id].userId;
    ServeAllIsolates(st, caller, reqs, other);
    assert id in OwnedBy(st.tasks, other);
  }
}
