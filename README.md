# To-do API controllers, modelled in Dafny

This project models the business logic of a multi-user to-do API. Users own
**tasks** and **folders**. A task has a title, an optional due date, a status
(Pending, Working or Completed), an optional folder, an owner and a creation
stamp. A folder has a name, an owner and the ordered list of its task ids.
Two controllers serve the HTTP routes:

- the *task controller* does polymorphic creation, three listings, lookup by
  id (a task wins over a folder), partial update with a folder-rename
  fallback, and delete with or without an explicit kind;
- the *folder controller* sanitizes and validates path ids, then manages the
  tasks inside one folder: create, read, add, update, change status, delete,
  reset progress and clear progress.

The document store becomes an in-memory class `Store.Db`. It holds two maps
(`tasks`, `folders`) and a creation counter (`clock`) that plays the role of
`createdAt`. Each mutating handler is a method that `modifies` the store and
returns a `Runtime.Response`: `Ok(payload)`, `BadRequest`, `NotFound`, or
`ServerError` (what the handler's catch-all returns when the store throws, for
example on a schema-validation failure). Each read-only handler is a function
over the two maps.

The store's update primitives are functions from old table to new, in
`Store`:

- `$push`, `$pull`, `deleteMany`, `updateMany`, `populate`;
- the id-keyed list reset of `clearProgress`.

`Listing.SortedBy` states what `find(...).sort(...)` returns: every match once,
in key order, ties in any order.

These library behaviours stay abstract as fields of `Runtime.Env`:

- "is a valid ObjectId", in two flavours: `mongoose.isValidObjectId` in the
  task controller and `ObjectId.isValid` in the folder controller;
- "`new Date(x)` is a valid date" (`parseDate`), which the task controller
  checks itself;
- "the task schema can cast `x` to its `dueDate` path" (`castDate`), which
  decides what the folder controller's raw strings become in the store.
  Mongoose's cast differs from `new Date(x)` on numeric strings, so the two
  are kept apart.

The central invariant is `Store.Consistent`. For every folder, its list holds
exactly the ids of the tasks whose `folder` is that folder, each once, and
those tasks have the folder's owner. Every handler is proved to keep it,
except `clearProgress` as written (see Findings). `Store.OthersUntouched`
states per-user isolation: no other user's task or folder changes.

Files:

- `task_model.dfy`: the task schema, status enumeration, defaults, update
  patches.
- `runtime.dfy`: the library oracles and the response variants.
- `ids.dfy`: `String.prototype.trim`, `sanitize`, `isValidId`.
- `listing.dfy`: sorted query results.
- `store.dfy`: the store class, its primitives, the invariant and the
  preservation lemmas.
- `task_controller.dfy`: the task controller.
- `folder_controller.dfy`: the folder controller.

## Model

| member | source | states |
|---|---|---|
| TaskModel.ParseStatus | src/models/task.js:6 | a request string is accepted exactly when it is one of the three enumeration values, and the accepted status spells back to it |
| TaskModel.StatusRoundTrip | src/models/task.js:6 | parsing a spelling gives a status exactly when that status spells to it |
| TaskModel.NewTask | src/models/task.js:3-9 | a task document exists exactly when the title is present and non-empty; dueDate and folder default to null, status to Pending, owner and stamp are kept |
| TaskModel.ApplyPatch | src/controllers/taskController.js:144 | an update sets exactly the supplied title, due date and status; folder, owner and stamp never change; an empty patch changes nothing |
| Ids.SkipLeading | src/controllers/folderController.js:5 | the leading cut stops at the first character that is not white space, and everything it skips is white space |
| Ids.SkipTrailing | src/controllers/folderController.js:5 | the trailing cut stops after the last character that is not white space, and everything it drops is white space |
| Ids.Trim | src/controllers/folderController.js:5 | the trimmed string is a window of the input with only white space cut at both ends, and has no white space at either end |
| Ids.TrimOfTrimmed | src/controllers/folderController.js:5 | a string without white space at either end is its own trim |
| Ids.TrimIdempotent | src/controllers/folderController.js:5 | trimming twice is trimming once |
| Ids.Sanitize | src/controllers/folderController.js:5 | null stays null, a string is replaced by its trim: the string with its leading and trailing white space removed |
| Ids.IsValidId | src/controllers/folderController.js:6 | `isValidId` holds exactly for a non-null value whose trim the library accepts as an ObjectId |
| Ids.SanitizeIdempotent | src/controllers/folderController.js:5 | sanitizing a sanitized value changes nothing |
| Ids.IsValidIdOfSanitized | src/controllers/folderController.js:6 | `isValidId` gives the same verdict on a sanitized value as on the raw value |
| Listing.LexTotal | src/controllers/taskController.js:65 | any two folder names are comparable in the name order |
| Listing.LexTransitive | src/controllers/taskController.js:65 | the name order is transitive |
| Listing.LexAntisymmetric | src/controllers/taskController.js:65 | two names that each sort no later than the other are equal |
| Listing.NewestFirstIsPreorder | src/controllers/taskController.js:64 | newest-first is a total preorder on tasks |
| Listing.ByNameIsPreorder | src/controllers/taskController.js:65 | name-ascending is a total preorder on folders |
| Listing.FirstExists | src/controllers/taskController.js:64-65 | every non-empty set of documents has one that may be listed first |
| Listing.ListsCons | src/controllers/taskController.js:64-65 | a first document followed by a sorted listing of the rest is a sorted listing of all |
| Listing.SortedBy | src/controllers/taskController.js:64-65 | a query result lists every matching document exactly once, with its stored value, in sort order |
| Store.Pull | src/controllers/taskController.js:179 | `$pull` removes every occurrence of the id, keeps the other ids, never lengthens the list, and keeps a duplicate-free list duplicate-free; with `PullAppend` and the one-id case `PullSingle` it is fixed on every list |
| Store.PullAppend | src/controllers/taskController.js:179 | `$pull` works element by element: pulling from a concatenation is the concatenation of the pulls, so the ids left keep their order |
| Store.PullMultiset | src/controllers/taskController.js:179 | `$pull` removes every copy of the id and keeps each other id exactly as many times as before |
| Store.PushId | src/controllers/taskController.js:50 | `$push` appends the id to the end of that folder's list and changes no other folder |
| Store.PullId | src/controllers/folderController.js:111 | `$pull` on one folder removes the id from its list and changes no other folder |
| Store.Unlist | src/controllers/taskController.js:179 | after deleting a task, only the folder it names has the task's id pulled from its list; no other folder changes, and a task with no folder changes nothing |
| Store.DeleteTasksIn | src/controllers/taskController.js:184 | `deleteMany({folder, user})` removes exactly the user's tasks in that folder and leaves every other user's tasks in place |
| Store.ResetIn | src/controllers/folderController.js:124 | `updateMany` sets status Pending on exactly the user's tasks in that folder, changing no other field and no other task |
| Store.ClearList | src/controllers/folderController.js:138 | the list of the folder with that id becomes empty, whoever owns it; nothing else changes |
| Store.ClearListScoped | src/controllers/folderController.js:138 | the list becomes empty only when the user owns the folder; no other user's folder changes |
| Store.Populate | src/controllers/taskController.js:108 | `populate` resolves each listed id to its stored task, drops dangling ids, and keeps order and length when none dangle |
| Store.PopulateAppend | src/controllers/taskController.js:108 | `populate` works id by id: populating a concatenation is the concatenation of the populations, so with the one-id case `PopulateSingle` (a found task, or nothing for a dangling id) the result keeps list order and multiplicity even when ids dangle |
| Store.PopulatedIsMembership | src/controllers/folderController.js:13 | in a consistent store a populated folder holds exactly the tasks that name it, all of the folder's owner |
| Store.InsertFolderKeeps | src/controllers/folderController.js:151 | creating an empty folder keeps the membership invariant |
| Store.InsertTaskKeeps | src/controllers/taskController.js:41-51 | creating a task and pushing its id onto its own folder keeps the invariant and touches only the owner's entities |
| Store.ReplaceTaskKeeps | src/controllers/taskController.js:144 | replacing a task by one with the same folder and owner keeps the invariant and other users' data |
| Store.RenameFolderKeeps | src/controllers/taskController.js:149 | renaming a folder keeps the invariant |
| Store.DeleteTaskKeeps | src/controllers/taskController.js:176-179 | deleting a task and pulling its id from the folder it names keeps the invariant and other users' data |
| Store.CascadeKeeps | src/controllers/taskController.js:184-185 | deleting the caller's tasks in a folder and then the folder keeps the invariant; when the folder is not the caller's, no task is deleted |
| Store.ResetKeeps | src/controllers/folderController.js:124 | resetting statuses keeps the invariant and other users' data |
| Store.ResetIdempotent | src/controllers/folderController.js:124 | resetting a folder's progress twice is resetting it once |
| Store.ClearIdempotent | src/controllers/folderController.js:137-138 | clearing a folder's progress twice, as written, is clearing it once: the second delete removes nothing more and the emptied list stays empty |
| Store.ClearScopedIdempotent | src/controllers/folderController.js:138 | the owner-scoped list reset applied twice is applied once |
| Store.ClearScopedKeeps | src/controllers/folderController.js:137-138 | deleting the caller's tasks in a folder and emptying its list only when the caller owns it keeps the invariant and other users' data |
| Store.ClearListKeeps | src/controllers/folderController.js:137-138 | in a consistent store, the delete followed by the unscoped list reset keeps the invariant exactly when the caller owns the folder, no folder has that id, or its list is already empty |
| Store.ClearListBreaksIsolation | src/controllers/folderController.js:137-138 | a concrete store where another user's clear empties a folder it does not own, breaking both the invariant and isolation |
| TaskController.GetAllTasksAndFolders | src/controllers/taskController.js:61-71 | exactly the caller's tasks, newest first, and exactly the caller's folders, by name, nothing of another user |
| TaskController.GetTasksByFolder | src/controllers/taskController.js:74-86 | a malformed folder id is a bad request; otherwise exactly the caller's tasks in that folder, newest first |
| TaskController.GetAllTasksWithoutFolder | src/controllers/taskController.js:89-98 | exactly the caller's tasks with no folder, newest first |
| TaskController.GetTaskById | src/controllers/taskController.js:101-116 | a malformed id is a bad request; a caller-owned task wins over a folder; otherwise the caller's folder with its tasks resolved; otherwise not found |
| TaskController.GetTaskByIdMembersOwned | src/controllers/taskController.js:108 | in a consistent store a folder returned by id carries only the caller's tasks that name it |
| TaskController.CascadeHidesMembers | src/controllers/taskController.js:183-187 | after a folder is deleted with its tasks, none of its former tasks can be fetched by id |
| TaskController.CreateTaskOrFolder | src/controllers/taskController.js:9-58 | a missing kind or title, a bad status, a bad due date, or a malformed or foreign folder is a bad request with no change; kind "folder" creates only an empty folder; otherwise a task with the given or default fields whose id is appended to its folder's list; invariant and isolation kept |
| TaskController.CastPatch | src/controllers/taskController.js:125-137 | the update document holds exactly the supplied fields, cast; it is empty exactly when no field was supplied |
| TaskController.UpdateTaskStatus | src/controllers/taskController.js:119-159 | an empty patch, a bad status or a bad due date is a bad request; the caller's task gets exactly the supplied fields; otherwise, with a truthy title, only the caller's folder name changes; otherwise not found; an uncastable id or empty title is a server error; invariant and isolation kept |
| TaskController.DeleteTarget | src/controllers/taskController.js:167-173 | with no id, a kind that is a valid id becomes the id; a given id is kept with its kind |
| TaskController.DeleteTaskOrFolder | src/controllers/taskController.js:162-208 | kind "task" deletes the caller's task and pulls its id; kind "folder" deletes the caller's tasks in it, then the folder, keeping the task deletion when the folder is not found; otherwise task first, then folder with cascade, else not found; invariant and isolation kept |
| FolderController.PathIdValidity | src/controllers/folderController.js:5-6 | `isValidId` of a sanitized path id is the library's verdict on the trimmed string |
| FolderController.ReadPathId | src/controllers/folderController.js:5-6 | a path id is looked up in trimmed form and accepted exactly when the library accepts the trimmed string |
| FolderController.CreateFolder | src/controllers/folderController.js:146-157 | a falsy name is a bad request with no change; otherwise exactly one empty folder of the caller with that name; invariant and isolation kept |
| FolderController.GetFolderById | src/controllers/folderController.js:8-20 | a malformed id is a bad request; the caller's stored folder record comes back unchanged under the trimmed id, with its list resolved to tasks; absent or foreign is not found |
| FolderController.GetTasksInFolder | src/controllers/folderController.js:22-33 | a malformed id is a bad request; otherwise exactly the caller's tasks in that folder, newest first |
| FolderController.AddTaskToFolder | src/controllers/folderController.js:35-58 | malformed id is a bad request, an absent or foreign folder is not found, a missing title or a due date the schema cannot cast is a server error, all without change; otherwise a Pending task in that folder whose id is appended to the folder's list; invariant and isolation kept |
| FolderController.AddedTaskIsListed | src/controllers/folderController.js:40-51 | a task added to a folder is among the tasks that folder shows when fetched |
| FolderController.BodyPatch | src/controllers/folderController.js:66-70 | the update body is refused exactly for a status outside the enumeration, a due date the schema cannot cast or an empty title; an empty due date clears it; otherwise the supplied fields are set |
| FolderController.UpdateTaskInFolder | src/controllers/folderController.js:60-77 | malformed ids are a bad request; a refused body is a server error; only the task matching task id, folder id and caller is updated with exactly the body's fields, else not found with no change; invariant and isolation kept |
| FolderController.UpdateTaskStatus | src/controllers/folderController.js:79-100 | malformed ids or a missing or unknown status are a bad request; only the status of the task matching task id, folder id and caller changes, else not found with no change; invariant and isolation kept |
| FolderController.DeleteTaskInFolder | src/controllers/folderController.js:102-117 | only the task matching task id, folder id and caller is deleted and its id pulled from that folder, else not found with no change; invariant and isolation kept |
| FolderController.DeletedTaskIsUnlisted | src/controllers/folderController.js:108-111 | after the delete, fetching the folder no longer lists the task |
| FolderController.ResetProgress | src/controllers/folderController.js:119-130 | a malformed id is a bad request; otherwise it always succeeds and exactly the caller's tasks in the folder become Pending; invariant and isolation kept |
| FolderController.ClearProgress | src/controllers/folderController.js:132-144 | as written: the caller's tasks in the folder are deleted and other users' tasks stay, but the list of the folder with that id is emptied whoever owns it; from a consistent store the invariant is kept exactly when the caller owns the folder, no folder has that id or its list is already empty, and broken when another user's non-empty folder is cleared |
| FolderController.ClearProgressScoped | src/controllers/folderController.js:132-144 | with the list reset limited to the caller's folder: no task of the caller is left in the folder, and the invariant and isolation are kept |

## Left out

- Authentication, the JWT middleware and `authController.js`: the caller's user id is a parameter of every handler, as `getUserId` (src/controllers/taskController.js:6) supplies it.
- The route tables, Express setup, the database connection, HTTP status codes beyond the four response variants, response message texts and `console.error` logging.
- ObjectId generation: the id of a new document is a parameter that must be fresh in both maps.
- Id casting: a string id stands for its ObjectId. The validity checks and date parsing are uninterpreted functions in `Runtime.Env`.
- `updatedAt`, which no handler reads. `createdAt` is the store's counter.
- Non-atomicity of the dual writes (create then `$push`, delete then `$pull`, `deleteMany` then delete) and concurrent requests: each handler is one sequential step.
- Request values that are not strings (numbers, arrays) and the `String(v)` conversion `sanitize` applies to them.
- JSON `null` in a request body: an absent field and a `null` field are both `None`. The truthiness checks in create and delete treat the two alike, so those handlers are exact. The `!== undefined` checks and the body handed straight to the store do not, as the next two lines say.
- TaskController.UpdateTaskStatus: a field sent as `null` is treated as absent. The source treats it as present. So `{title: "x", status: null}` is a bad request in the source (null is not a valid status), but the model updates the title. `{dueDate: null}` sets the due date to the epoch in the source (`new Date(null)` is valid), but the model refuses the empty patch as a bad request. `{title: null, status: "Working"}` is a server error in the source (the schema requires a title), but the model updates the status.
- FolderController.UpdateTaskInFolder: `{dueDate: null}` clears the due date in the source, because the body goes to the store as it is; the model treats that field as absent and leaves the due date unchanged. What the schema's validators do with a `null` title or status is not modelled either; the model treats both as absent.
- FolderController.UpdateTaskInFolder: the body is limited to title, due date and status. The source passes the whole body to the store, so it could also rewrite `folder` or `user`; the membership invariant holds only for the limited body.
- FolderController.UpdateTaskStatus: no route in the folder routes reaches this handler. It is modelled as written.
- The folder schema file is not part of this model. The folder record has the fields the controllers use: name, owner and the task-id list.
- `populate` is modelled as resolving ids to tasks. Field selection and population options are not modelled.
- Where the code and the API documentation disagree, the code is modelled:
  - in the task controller, update and delete do not validate the id, so an id that cannot be cast makes the store throw (a server error, not a bad request);
  - the status enumeration in the route comments differs from the one in the schema and controllers.

## Findings

| source | as written | input that shows it | evidently intended | confidence | as-written member | corrected member |
|---|---|---|---|---|---|---|
| src/controllers/folderController.js:138 | `clearProgress` resets the folder's task list with a lookup keyed on the id alone, with no owner filter | user alice owns folder `f1` listing her task `t1`; user bob calls clearProgress on `f1`; bob's delete removes nothing, but `f1`'s list becomes empty while `t1` still names `f1` | reset the list only of the caller's own folder, as every other handler scopes by owner | not executed | FolderController.ClearProgress, Store.ClearListBreaksIsolation | FolderController.ClearProgressScoped, Store.ClearScopedKeeps |
