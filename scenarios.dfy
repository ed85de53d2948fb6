/** Clients of the two services, driving them through the routes in order. */
module Scenarios {
  import opened Ids
  import opened Outcomes
  import opened Users
  import opened Tasks

  /** Sign up, then sign in with any password at all: sign-in finds the new
      user and hands back the same view and token. */
  method SignUpThenSignIn(email: string, password: string, attempt: string, salt: nat)
    returns (signedUp: Result<Session>, signedIn: Result<Session>)
    ensures signedUp.Success? && signedIn.Success?
    ensures signedIn.value == signedUp.value
    ensures signedUp.value.user.email == email
  {
    var service := new UsersService();
    signedUp := service.Create(email, password, salt);
    assert signedUp.Success?;
    signedIn := service.Signin(email, attempt);
  }

  /** A second sign-up with the same email is refused. */
  method SignUpTwice(email: string, password: string, other: string, salt: nat)
    returns (first: Result<Session>, second: Result<Session>)
    ensures first.Success?
    ensures second == Failure(Conflict(EMAIL_IN_USE))
  {
    var service := new UsersService();
    first := service.Create(email, password, salt);
    assert first.Success?;
    second := service.Create(email, other, salt + 1);
  }

  /** Sign up, create a task, list it, and complete it twice: the task is
      listed for its owner only, the first completion sets it Completed and
      the second fails. */
  method TaskLifecycle(email: string, password: string)
    returns (owner: ObjectId, created: Result<Saved>, mine: map<TaskId, Task>, all: map<TaskId, Task>,
             first: Result<Task>, second: Result<Task>)
    ensures created.Success? && created.value.task.userId == owner
    ensures mine.Keys == {created.value.id}
    ensures forall other :: other != owner ==> created.value.id !in OwnedBy(all, other)
    ensures first.Success? && first.value.status == COMPLETED
    ensures second == Failure(InternalError(COMPLETE_FAILED + ALREADY_COMPLETED))
  {
    var users := new UsersService();
    var session := users.Create(email, password, 0);
    assert session.Success?;
    owner := session.value.user.id;

    var tasks := new TasksService();
    created := tasks.Create(TaskInput(Some("Buy milk"), None, None, None), owner);
    assert created.Success?;
    var id := created.value.id;
    mine := tasks.GetAllTasks(owner);
    all := tasks.GetAll();
    first := tasks.CompletedOne(owner, id);
    second := tasks.CompletedOne(owner, id);
  }

  /** Complete a task, reopen it through update, complete it again, then
      delete it: update brings a completed task back to Pending, and once it
      is deleted its owner no longer finds it. */
  method ReopenThenDelete(owner: ObjectId)
    returns (done: Result<Task>, reopened: Result<Task>, again: Result<Task>, deleted: Result<Task>, lookup: Result<Task>)
    ensures done.Success? && done.value.status == COMPLETED
    ensures reopened.Success? && reopened.value.status == PENDING
    ensures again.Success? && again.value.status == COMPLETED
    ensures deleted == again
    ensures lookup == Failure(NotFound(TASK_NOT_FOUND))
  {
    var tasks := new TasksService();
    var created := tasks.Create(TaskInput(Some("Buy milk"), None, None, None), owner);
    assert created.Success?;
    var id := created.value.id;
    done := tasks.CompletedOne(owner, id);
    reopened := tasks.Update(id, owner, TaskPatch(None, None, Some(PENDING)));
    assert PENDING != COMPLETED by { assert PENDING[0] != COMPLETED[0]; }
    again := tasks.CompletedOne(owner, id);
    deleted := tasks.Delete(owner, id);
    lookup := tasks.GetOne(owner, id);
  }
}
