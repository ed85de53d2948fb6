# Task manager services: users and tasks over in-memory collections

This project models the business rules of a small task-management REST API.
Users sign up, sign in, update their profile and unsubscribe. Each user owns
to-do tasks, and administrators can list and remove any user or task. The
model covers the two service classes that hold those rules:

- `UsersService` (`src/users/users.service.ts`). Sign-up refuses an email
  already in use. Sign-in looks the user up by email. Profile update takes
  only keys on an allow-list and refuses a password equal to the current one.
  Self-removal, an admin listing and an admin removal by id complete it.
- `TasksService` (`src/tasks/tasks.service.ts`). It covers create, list, read,
  complete, update and delete. Every non-admin query filters on the task id
  and its owner. The admin variants skip that filter.

Each Mongo collection is a `map` from id to document, held in a field of a
class (`Users.UsersService`, `Tasks.TasksService`). A counter hands out fresh
ids, starting at 1, so the id 0 plays the part of JavaScript's falsy id. Every
service method is a class method that works on that map. Each method returns a
`Result` that carries either the value or one of the error kinds the service
throws: `Conflict`, `NotFound`, `BadRequest(fields)` or `InternalError(message)`.
Each state-changing method except `Users.UsersService.RemoveOne` is proved
equal to a pure function over the map, for instance `Users.UpdateProfile` or
`Tasks.Complete`; `RemoveOne` states its new map directly. The lemmas in
`UsersProperties` and `TasksProperties` are proved about those functions. The
read-only methods state their results directly. `Scenarios` drives the
classes through sign-up and sign-in, and takes a task through creation,
listing, completion, reopening by update, and deletion.

Password hashing and token signing (`AuthService`, which wraps bcrypt and
JWT) stay abstract in module `Credentials`. A `Digest` matches exactly the
password it was computed from, and it records the salt, which is passed in as
a parameter. A `Token` is the pair of claims it signs: the user id and the
admin flag.

The model follows the code where the code departs from the evident design:

- `signin` computes the password comparison and discards the result. Any
  password signs in once the email is found (`Users.UsersService.Signin`,
  `Scenarios.SignUpThenSignIn`).
- `completedOne` throws its "not found" and "already completed" errors inside
  its own `try`. Both surface as `InternalError` with the prefix
  `Could not completing task : `.
- `update` does not check that a new email is free. Two users can end up with
  the same email (`UsersProperties.UpdateMayDuplicateEmail`).
- `removeOne` returns null for an unknown id instead of failing.
- `update` tests `attrs.password` for truthiness. An empty password therefore
  skips both the comparison and the hashing. `Object.assign` then stores the
  empty string itself in the password field (`Secret.Plain`). That value
  matches no password (`UsersProperties.UpdateEmptyPasswordStoredAsIs`).
- The task schema declares `status` as a plain string with default
  `'Pending'`, not as an enumeration. The model keeps it a string.
- A creation body may carry its own `userId`. The spread puts it first and
  the caller's id then overrides it. A missing or empty title fails the
  schema's `required` check. Mongoose reports that as a validation error,
  which the `catch` turns into `InternalError`.
- Completed is not a terminal status. `update` passes the body straight to
  `findOneAndUpdate`, so the owner can set a completed task back to
  `'Pending'` or to any other status, provided `UpdateTaskDto` carries
  `status`. Only `completedOne` refuses a completed task
  (`TasksProperties.AmendMayReopen`, `Scenarios.ReopenThenDelete`).
- `update`'s `findOneAndUpdate` runs no validators, so it can store an empty
  title. `completedOne` ends with a `save`, which validates the whole
  document, so completing such a task fails with `InternalError` carrying the
  required-title message, and the task keeps its status
  (`TasksProperties.CompleteRevalidatesTitle`,
  `TasksProperties.EmptiedTitleBlocksCompletion`).
- `getAllTasks` checks `if (!tasks)`. That branch can never fire, because
  `find` always yields an array. An owner with no tasks therefore gets an
  empty result.

## Model

| member | source | states |
|---|---|---|
| Credentials.Hash | src/users/auth.service.ts:10-26 | a fresh digest matches the password it was made from and no other password, and it carries the salt drawn for it |
| Users.DisallowedKeys | src/users/users.service.ts:118-120 | a key is reported exactly when it was given and lies outside {fullName, email, password}; nothing else is reported |
| Users.Assign | src/users/users.service.ts:137-142 | Object.assign writes a supplied email or fullName as given; a supplied password becomes its new digest when it was hashed, else the raw value; absent fields and the admin flag stay as they were |
| Users.SignUp | src/users/users.service.ts:23-53 | fails with Conflict ("email in use!") exactly when some user already has the email, leaving the collection unchanged; otherwise adds one user under the new id with that email, a digest matching the password (never the plaintext), no name and no admin flag, and returns only {id, email} with a token for (id, false) |
| Users.UpdateProfile | src/users/users.service.ts:111-146 | a failure leaves the collection unchanged; a success changes only the user with that id and never its admin flag |
| Users.Unsubscribe | src/users/users.service.ts:156-165 | NotFound exactly when the id is absent, with the collection unchanged; otherwise removes that id only and returns the record as it was before |
| Users.UsersService.Create | src/users/users.service.ts:23-53 | the new result and collection are those of SignUp with the next free id, and the id counter advances only on success |
| Users.UsersService.FindOne | src/users/users.service.ts:63-68 | a falsy id gives null without a lookup; otherwise the user stored under the id, or null when there is none |
| Users.UsersService.Signin | src/users/users.service.ts:78-101 | NotFound exactly when no user has the email; otherwise returns {id, email} of a user with that email and a token for its id and admin flag, whatever the password |
| Users.UsersService.Update | src/users/users.service.ts:111-146 | the new result and collection are those of UpdateProfile |
| Users.UsersService.Remove | src/users/users.service.ts:156-165 | the new result and collection are those of Unsubscribe |
| Users.UsersService.GetAllUsers | src/users/users.service.ts:175-178 | returns an {id, email} view for every stored user and nothing else |
| Users.UsersService.RemoveOne | src/users/users.service.ts:180-183 | removes the id with no ownership check, returning the removed record, or null when the id is absent |
| UsersProperties.SignUpAddsOneUser | src/users/users.service.ts:33-41 | a successful sign-up under a fresh id grows the collection by exactly one |
| UsersProperties.SignUpOwnsEmail | src/users/users.service.ts:27-41 | after a successful sign-up the new user is the only one with that email, so sign-in with it finds that user |
| UsersProperties.SignUpKeepsEmailsUnique | src/users/users.service.ts:27-31 | sign-up preserves "no two users share an email" |
| UsersProperties.UnsubscribeKeepsEmailsUnique | src/users/users.service.ts:156-165 | removal preserves "no two users share an email" |
| UsersProperties.DisallowedKeysConcat | src/users/users.service.ts:118-124 | the disallowed keys of a concatenation are those of each part, concatenated: they are listed in `Object.keys` order |
| UsersProperties.UpdateMissingUser | src/users/users.service.ts:112-116 | an absent id gives NotFound ("User not found!") whatever the body, with the collection unchanged |
| UsersProperties.UpdateDisallowedKeys | src/users/users.service.ts:118-126 | for an existing user, a body with any key outside the allow-list gives BadRequest listing exactly those keys, with message "Cannot update fields: " and the keys joined by ", ", whatever the password, and the collection unchanged |
| UsersProperties.UpdateSamePassword | src/users/users.service.ts:128-136 | an allowed body whose non-empty password matches the stored digest gives Conflict, with the collection unchanged |
| UsersProperties.UpdateAccepted | src/users/users.service.ts:128-146 | an existing user, allowed keys only and no matching password: the update succeeds |
| UsersProperties.UpdateWritesSuppliedFields | src/users/users.service.ts:141-146 | a successful update writes the supplied email and name of that one user, keeps its absent fields and admin flag, and leaves every other user unchanged |
| UsersProperties.UpdateRehashesPassword | src/users/users.service.ts:128-140 | a supplied password is stored as its digest with the salt drawn, it matches the new password, and the old stored value did not match it |
| UsersProperties.UpdateEmptyPasswordStoredAsIs | src/users/users.service.ts:128-142 | an empty password skips the comparison and the hashing and is stored as the empty string, which matches no password |
| UsersProperties.UpdateMayDuplicateEmail | src/users/users.service.ts:111-146 | from a collection with distinct emails, an update can give a second user an email already in use |
| Tasks.OwnedBy | src/tasks/tasks.service.ts:37-40 | exactly the tasks whose owner is the given user, with their stored fields |
| Tasks.Insert | src/tasks/tasks.service.ts:19-34 | fails with InternalError carrying the schema's "title is required" message exactly when the title is missing or empty, with the collection unchanged; otherwise stores the body's title and description under the new id, owned by the caller whatever userId the body carried, with the body's status or 'Pending' |
| Tasks.Complete | src/tasks/tasks.service.ts:61-87 | succeeds exactly on a task the caller owns whose status is not 'Completed' and whose title is not empty, setting only that task's status to 'Completed' and returning it; every failure is an InternalError and changes nothing |
| Tasks.Patched | src/tasks/tasks.service.ts:95-96 | a title, description or status the body gives is written, an absent one keeps its value, and the owner never changes |
| Tasks.Amend | src/tasks/tasks.service.ts:90-105 | NotFound exactly when no task matches both id and owner, with the collection unchanged; otherwise only that task takes the body's fields and the new record is returned |
| Tasks.DeleteOwned | src/tasks/tasks.service.ts:107-117 | NotFound exactly when no task matches both id and owner, with the collection unchanged; otherwise removes exactly that task and returns it |
| Tasks.DeleteAny | src/tasks/tasks.service.ts:136-144 | NotFound exactly when the id is absent; otherwise removes that task, whoever owns it, and returns it |
| Tasks.TasksService.Create | src/tasks/tasks.service.ts:19-34 | the new result and collection are those of Insert with the next id, which is always consumed |
| Tasks.TasksService.GetAllTasks | src/tasks/tasks.service.ts:36-48 | returns exactly the caller's tasks, possibly none, never NotFound |
| Tasks.TasksService.GetOne | src/tasks/tasks.service.ts:50-59 | succeeds exactly when a task matches both id and owner, returning it; otherwise NotFound ("Task not found") |
| Tasks.TasksService.CompletedOne | src/tasks/tasks.service.ts:61-88 | the new result and collection are those of Complete |
| Tasks.TasksService.Update | src/tasks/tasks.service.ts:90-105 | the new result and collection are those of Amend |
| Tasks.TasksService.Delete | src/tasks/tasks.service.ts:107-117 | the new result and collection are those of DeleteOwned |
| Tasks.TasksService.GetAll | src/tasks/tasks.service.ts:119-127 | returns every task, with no owner filter |
| Tasks.TasksService.RemoveTask | src/tasks/tasks.service.ts:136-144 | the new result and collection are those of DeleteAny |
| TasksProperties.ForeignTaskLooksMissing | src/tasks/tasks.service.ts:61-117 | completing, updating or deleting another owner's task gives the same answer as for a missing task and changes nothing |
| TasksProperties.CompleteFailures | src/tasks/tasks.service.ts:68-86 | completion reports "Could not completing task : Task not found" for a missing or foreign task and "Could not completing task : This task is already completed" for a completed one |
| TasksProperties.CompleteRevalidatesTitle | src/tasks/tasks.service.ts:76-86 | completing an owned, unfinished task whose title is empty fails the save's required-title validation with InternalError and changes nothing |
| TasksProperties.EmptiedTitleBlocksCompletion | src/tasks/tasks.service.ts:61-105 | an update can empty a task's title, and a later completion of that task then fails, leaving it Pending |
| TasksProperties.CompleteTwiceFails | src/tasks/tasks.service.ts:72-80 | after a successful completion, the same call fails with the already-completed error and changes nothing |
| TasksProperties.CompletedStaysCompleted | src/tasks/tasks.service.ts:72-78 | no completion call, by any caller on any task, alters a task that is already Completed |
| TasksProperties.AmendMayReopen | src/tasks/tasks.service.ts:90-105 | an owner's update with status 'Pending' reopens a Completed task, which completion then accepts again |
| TasksProperties.CreateIgnoresBodyOwner | src/tasks/tasks.service.ts:21-24 | a userId in the creation body has no effect on the result or the collection |
| TasksProperties.CreateStartsPending | src/tasks/task.schema.ts:6-13 | a task created with a title and no status is stored as 'Pending' |
| TasksProperties.ServeIsolates | src/tasks/tasks.service.ts:19-117 | one owner-scoped request keeps ids fresh and leaves every other owner's tasks exactly as they were |
| TasksProperties.ServeAllIsolates | src/tasks/tasks.service.ts:19-117 | after any sequence of owner-scoped requests by one caller, every other owner's tasks are exactly as before |
| TasksProperties.ServeAllKeepsForeignTask | src/tasks/tasks.service.ts:50-117 | after any such sequence, a task of another owner is still stored, unchanged |
| Scenarios.SignUpThenSignIn | src/users/users.service.ts:23-101 | after sign-up, sign-in with the same email and any password returns the same view and token |
| Scenarios.SignUpTwice | src/users/users.service.ts:27-31 | a second sign-up with the same email gets Conflict |
| Scenarios.TaskLifecycle | src/tasks/tasks.service.ts:19-88 | a signed-up user's new task is listed for that user only; the first completion sets it Completed and the second fails |
| Scenarios.ReopenThenDelete | src/tasks/tasks.service.ts:50-117 | a completed task reopened by update can be completed again; after its owner deletes it, the owner's lookup gives NotFound |

## Left out

- Users.UsersService.Signin: when several users share an email, the source returns the first in the store's natural order. The model lets it return any of them, because the store's order is not modelled.
- Password hashing internals are not modelled: bcrypt's salt generation, work factor and 72-byte input limit. A digest matches exactly its own password. Comparing against a stored value that is not a digest gives false.
- Token signing is not modelled: the JWT encoding, the secret and signing failures. A token is its claims.
- Persistence failures are not modelled. The catch blocks that turn a store error into InternalError are those of `create`, `update` and `remove` in `src/users/users.service.ts` (for `create`, everything after the email lookup), and those of `create`, `completedOne` and `getAll` in `src/tasks/tasks.service.ts`. `signin`'s catch (`src/users/users.service.ts:90-108`) wraps only the token signing, which is not modelled; its `find` at line 82 lies outside it. `findOne` returns its query without `await` (line 68), so its catch cannot see a query failure. The one store-side failure modelled is the task schema's required-title check, on `create` and on the save inside `completedOne`.
- Tasks.Insert: the task schema also makes `userId` required (`src/tasks/task.schema.ts:15`), so the store would refuse a task whose owner id is falsy. The model stores it under owner 0. The controllers never reach this case, since the caller's id always comes from a signed token.
- `src/users/user.schema.ts`, `CreateTaskDto` and `UpdateTaskDto` are not part of this model. User documents are not validated and have no unique index on email. A task creation body has title, description, status and an optional userId. An update body has title, description and status and no `userId`. Ownership isolation through `update` (`Tasks.Patched`, `TasksProperties.ServeIsolates`, `TasksProperties.ServeAllIsolates`, `TasksProperties.ServeAllKeepsForeignTask`) rests on that assumption: a `userId` in `UpdateTaskDto` would let an owner hand a task to someone else.
- Query projections (`.select(...)`) on task queries are not modelled: tasks come back with all their fields. `getAllUsers` keeps its projection to {id, email}.
- Listings are maps keyed by id, or sets of views, rather than arrays, so result order is not modelled.
- ObjectId casting (a malformed id string makes Mongoose throw) is not modelled, because ids are natural numbers. Document timestamps are not modelled either.
- `test` (`src/users/users.service.ts:184-186`) returns its argument and touches no state. No route calls it, so it is not modelled.
- Each service call is modelled as atomic. In the source, `create`'s `find` and `save` (`src/users/users.service.ts:27,41`) are separate awaits, and so are `completedOne`'s `findOne` and `save` (`src/tasks/tasks.service.ts:63,78`); no transaction covers either pair. `UsersProperties.SignUpKeepsEmailsUnique` and `TasksProperties.CompleteTwiceFails` therefore hold only for requests that do not overlap: two concurrent sign-ups with one email, or two concurrent completions, can both succeed.
- Controllers, the JWT middleware, the admin guard and logging are not modelled. The model takes the caller's id as given, and admin gating shows only as the admin methods having no owner filter.
- Deleting a user does not delete that user's tasks, in the source as in the model. The orphaned tasks stay in the collection.
