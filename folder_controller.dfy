/**
 * The folder controller. Every id taken from the path is sanitized (trimmed)
 * and checked with `isValidId` before the store is touched; a malformed id is
 * a bad request. Lookups use the trimmed id.
 */
module FolderController {
  import opened TaskModel
  import opened Runtime
  import opened Store
  import opened Listing
  import opened Ids

  /** A path id as the handlers use it: `sanitize(req.params.x)`. */
  function PathId(raw: string): (id: Id)
    ensures Sanitize(Some(raw)) == Some(id)
  {
    Sanitize(Some(raw)).value
  }

  /** `isValidId` applied to a sanitized path id: the library judges the trimmed string. */
  lemma PathIdValidity(env: Env, raw: string)
    ensures IsValidId(env, Some(PathId(raw))) == env.objectIdIsValid(Trim(raw))
  {
    IsValidIdOfSanitized(env, Some(raw));
  }

  /** Reading a path parameter in a handler: `sanitize` it, then ask `isValidId`. */
  method ReadPathId(env: Env, raw: string) returns (id: Id, valid: bool)
    ensures id == Trim(raw)
    ensures valid <==> env.objectIdIsValid(Trim(raw))
  {
    id := PathId(raw);
    PathIdValidity(env, raw);
    valid := IsValidId(env, Some(id));
  }

  /* ---------------- creation and reads ---------------- */

  /** `createFolder`: an empty or missing name is refused; otherwise an empty folder of the caller. */
  method CreateFolder(db: Db, caller: Id, name: Option<string>, newId: Id) returns (r: Response)
    requires newId !in db.tasks && newId !in db.folders
    modifies db
    ensures !Truthy(name) ==> r == BadRequest && unchanged(db)
    ensures Truthy(name) ==>
              && r == Ok(FolderItem(newId, Folder(name.value, caller, [])))
              && db.folders == old(db.folders)[newId := Folder(name.value, caller, [])]
              && db.tasks == old(db.tasks) && db.clock == old(db.clock)
    ensures Consistent(old(db.tasks), old(db.folders)) ==>
              && Consistent(db.tasks, db.folders)
              && OthersUntouched(old(db.tasks), old(db.folders), db.tasks, db.folders, caller)
  {
    if !Truthy(name) {
      return BadRequest;
    }
    var created := Folder(name.value, caller, []);
    if Consistent(db.tasks, db.folders) {
      InsertFolderKeeps(db.tasks, db.folders, newId, created);
    }
    db.folders := db.folders[newId := created];
    return Ok(FolderItem(newId, created));
  }

  /**
   * `getFolderById`: the caller's folder with that (trimmed) id, its list
   * populated with the tasks; a malformed id is a bad request, a folder
   * that is absent or someone else's is not found.
   */
  function GetFolderById(env: Env, tasks: map<Id, Task>, folders: map<Id, Folder>, caller: Id, raw: string): (r: Response)
    ensures r.BadRequest? <==> !env.objectIdIsValid(Trim(raw))
    ensures r.Ok? <==> env.objectIdIsValid(Trim(raw)) && OwnedFolder(folders, Trim(raw), caller)
    ensures r.Ok? || r.BadRequest? || r.NotFound?
    ensures r.Ok? ==> r.payload.PopulatedFolder? && r.payload.id == Trim(raw) && r.payload.folder.user == caller
    ensures r.Ok? ==> r.payload.members == Populate(folders[Trim(raw)].tasks, tasks)
    ensures r.Ok? ==>
              r.payload == PopulatedFolder(Trim(raw), folders[Trim(raw)], Populate(folders[Trim(raw)].tasks, tasks))
  {
    var id := PathId(raw);
    PathIdValidity(env, raw);
    if !IsValidId(env, Some(id)) then BadRequest
    else if !OwnedFolder(folders, id, caller) then NotFound
    else Ok(PopulatedFolder(id, folders[id], Populate(folders[id].tasks, tasks)))
  }

  /**
   * `getTasksInFolder`: a malformed id is a bad request; otherwise the
   * caller's tasks that name the folder, newest first.
   */
  ghost function GetTasksInFolder(env: Env, tasks: map<Id, Task>, caller: Id, raw: string): (r: Response)
    ensures r.BadRequest? <==> !env.objectIdIsValid(Trim(raw))
    ensures r.BadRequest? || (r.Ok? && r.payload.TaskList?)
    ensures r.Ok? ==> Lists(r.payload.entries, tasks, TasksIn(tasks, Trim(raw), caller), NewerOrSame)
    ensures r.Ok? ==> forall i | 0 <= i < |r.payload.entries| ::
                        InFolder(r.payload.entries[i].1, Trim(raw), caller)
  {
    var id := PathId(raw);
    PathIdValidity(env, raw);
    if !IsValidId(env, Some(id)) then BadRequest
    else
      NewestFirstIsPreorder();
      Ok(TaskList(SortedBy(tasks, TasksIn(tasks, id, caller), NewerOrSame)))
  }

  /* ---------------- adding a task ---------------- */

  /**
   * `addTaskToFolder`: the folder must be the caller's. The new task takes
   * the body's title and due date (an empty due date is null), the default
   * status and the folder; its id is pushed onto the folder's list. A missing
   * title or a due date the schema cannot cast makes the store throw, and
   * nothing is created.
   */
  method AddTaskToFolder(db: Db, env: Env, caller: Id, raw: string, title: Option<string>,
                         dueDate: Option<string>, newId: Id) returns (r: Response)
    requires newId !in db.tasks && newId !in db.folders
    modifies db
    ensures r.BadRequest? <==> !env.objectIdIsValid(Trim(raw))
    ensures r.NotFound? <==> env.objectIdIsValid(Trim(raw)) && !OwnedFolder(old(db.folders), Trim(raw), caller)
    ensures r.ServerError? <==>
              && env.objectIdIsValid(Trim(raw)) && OwnedFolder(old(db.folders), Trim(raw), caller)
              && (!Truthy(title) || (Truthy(dueDate) && env.castDate(dueDate.value).None?))
    ensures !r.Ok? ==> unchanged(db)
    ensures r.Ok? ==>
              && r.payload.TaskItem? && r.payload.id == newId
              && var t := r.payload.task;
              && t.title == title.value && t.status == Pending
              && t.folder == Some(Trim(raw)) && t.user == caller && t.created == old(db.clock)
              && t.dueDate == (if Truthy(dueDate) then env.castDate(dueDate.value) else None)
              && db.tasks == old(db.tasks)[newId := t] && db.clock == old(db.clock) + 1
              && db.folders == PushId(old(db.folders), Trim(raw), newId)
              && db.folders[Trim(raw)].tasks == old(db.folders)[Trim(raw)].tasks + [newId]
    ensures Consistent(old(db.tasks), old(db.folders)) ==>
              && Consistent(db.tasks, db.folders)
              && OthersUntouched(old(db.tasks), old(db.folders), db.tasks, db.folders, caller)
  {
    ghost var t0, f0 := db.tasks, db.folders;
    var folderId, valid := ReadPathId(env, raw);
    if !valid {
      return BadRequest;
    }
    if !OwnedFolder(db.folders, folderId, caller) {
      return NotFound;
    }
    var folder := db.folders[folderId];
    var due: Option<Date> := None;
    if Truthy(dueDate) {
      due := env.castDate(dueDate.value);
      if due.None? {
        return ServerError;
      }
    }
    var doc := NewTask(title, due, None, Some(folderId), caller, db.clock);
    if doc.None? {
      return ServerError;
    }
    var t := doc.value;
    db.tasks := db.tasks[newId := t];
    db.clock := db.clock + 1;
    folder := folder.(tasks := folder.tasks + [newId]);
    db.folders := db.folders[folderId := folder];
    if Consistent(t0, f0) {
      InsertTaskKeeps(t0, f0, newId, t);
    }
    return Ok(TaskItem(newId, t));
  }

  /** A task added to a folder shows up when that folder is fetched. */
  lemma AddedTaskIsListed(env: Env, tasks: map<Id, Task>, folders: map<Id, Folder>, caller: Id,
                          raw: string, newId: Id, t: Task)
    requires env.objectIdIsValid(Trim(raw)) && OwnedFolder(folders, Trim(raw), caller)
    ensures var r := GetFolderById(env, tasks[newId := t], PushId(folders, Trim(raw), newId), caller, raw);
            r.Ok? && (newId, t) in r.payload.members
  {
    var f1 := PushId(folders, Trim(raw), newId);
    assert newId in f1[Trim(raw)].tasks;
  }

  /* ---------------- updates inside a folder ---------------- */

  /**
   * How the schema casts and validates an update body (`runValidators`):
   * a status outside the enumeration, a due date the schema cannot cast, or an
   * empty title are rejected; an empty due date clears it.
   */
  function BodyPatch(env: Env, title: Option<string>, status: Option<string>, dueDate: Option<string>): (p: Option<Patch>)
    ensures p.None? <==> || (status.Some? && ParseStatus(status.value).None?)
                         || (dueDate.Some? && dueDate.value != "" && env.castDate(dueDate.value).None?)
                         || title == Some("")
    ensures p.Some? ==> p.value.title == title
    ensures p.Some? ==> (p.value.status.Some? <==> status.Some?)
    ensures p.Some? && status.Some? ==> StatusName(p.value.status.value) == status.value
    ensures p.Some? ==> (p.value.dueDate.Some? <==> dueDate.Some?)
    ensures p.Some? && dueDate == Some("") ==> p.value.dueDate == Some(None)
    ensures p.Some? && Truthy(dueDate) ==> p.value.dueDate == Some(env.castDate(dueDate.value))
  {
    var st := if status.Some? then ParseStatus(status.value) else None;
    var due := if dueDate.Some? && dueDate.value != "" then env.castDate(dueDate.value) else None;
    if status.Some? && st.None? then None
    else if dueDate.Some? && dueDate.value != "" && due.None? then None
    else if title == Some("") then None
    else Some(Patch(title, if dueDate.Some? then Some(due) else None, st))
  }

  /** `{ _id: taskId, folder: folderId, user: caller }` matches a task. */
  predicate MatchesInFolder(tasks: map<Id, Task>, taskId: Id, folderId: Id, caller: Id) {
    taskId in tasks && InFolder(tasks[taskId], folderId, caller)
  }

  /**
   * `updateTaskInFolder`: both ids must be well formed; the body, limited to
   * title, due date and status, is applied only to the task matching task id,
   * folder id and caller; a body the schema rejects makes the store throw.
   */
  method UpdateTaskInFolder(db: Db, env: Env, caller: Id, rawFolder: string, rawTask: string,
                            title: Option<string>, status: Option<string>, dueDate: Option<string>)
    returns (r: Response)
    modifies db
    ensures r.BadRequest? <==> !env.objectIdIsValid(Trim(rawFolder)) || !env.objectIdIsValid(Trim(rawTask))
    ensures !r.BadRequest? ==> (r.ServerError? <==> BodyPatch(env, title, status, dueDate).None?)
    ensures r.NotFound? <==>
              && !r.BadRequest? && BodyPatch(env, title, status, dueDate).Some?
              && !MatchesInFolder(old(db.tasks), Trim(rawTask), Trim(rawFolder), caller)
    ensures !r.Ok? ==> unchanged(db)
    ensures r.Ok? ==>
              && MatchesInFolder(old(db.tasks), Trim(rawTask), Trim(rawFolder), caller)
              && r == Ok(TaskItem(Trim(rawTask), ApplyPatch(old(db.tasks)[Trim(rawTask)], BodyPatch(env, title, status, dueDate).value)))
              && db.tasks == old(db.tasks)[Trim(rawTask) := r.payload.task]
              && db.folders == old(db.folders) && db.clock == old(db.clock)
    ensures Consistent(old(db.tasks), old(db.folders)) ==>
              && Consistent(db.tasks, db.folders)
              && OthersUntouched(old(db.tasks), old(db.folders), db.tasks, db.folders, caller)
  {
    var folderId, folderValid := ReadPathId(env, rawFolder);
    var taskId, taskValid := ReadPathId(env, rawTask);
    if !folderValid || !taskValid {
      return BadRequest;
    }
    var update := BodyPatch(env, title, status, dueDate);
    if update.None? {
      return ServerError;
    }
    if !MatchesInFolder(db.tasks, taskId, folderId, caller) {
      return NotFound;
    }
    var t := ApplyPatch(db.tasks[taskId], update.value);
    if Consistent(db.tasks, db.folders) {
      ReplaceTaskKeeps(db.tasks, db.folders, taskId, t);
    }
    db.tasks := db.tasks[taskId := t];
    return Ok(TaskItem(taskId, t));
  }

  /**
   * `updateTaskStatus` (folder controller): both ids must be well formed and
   * the status must be in the enumeration; only the status of the task
   * matching task id, folder id and caller changes.
   */
  method UpdateTaskStatus(db: Db, env: Env, caller: Id, rawFolder: string, rawTask: string,
                          status: Option<string>) returns (r: Response)
    modifies db
    ensures r.BadRequest? <==>
              || !env.objectIdIsValid(Trim(rawFolder)) || !env.objectIdIsValid(Trim(rawTask))
              || status.None? || ParseStatus(status.value).None?
    ensures r.NotFound? <==> !r.BadRequest? && !MatchesInFolder(old(db.tasks), Trim(rawTask), Trim(rawFolder), caller)
    ensures r.Ok? || r.BadRequest? || r.NotFound?
    ensures !r.Ok? ==> unchanged(db)
    ensures r.Ok? ==>
              && MatchesInFolder(old(db.tasks), Trim(rawTask), Trim(rawFolder), caller)
              && r.payload.TaskItem? && r.payload.id == Trim(rawTask)
              && StatusName(r.payload.task.status) == status.value
              && r.payload.task == old(db.tasks)[Trim(rawTask)].(status := r.payload.task.status)
              && db.tasks == old(db.tasks)[Trim(rawTask) := r.payload.task]
              && db.folders == old(db.folders) && db.clock == old(db.clock)
    ensures Consistent(old(db.tasks), old(db.folders)) ==>
              && Consistent(db.tasks, db.folders)
              && OthersUntouched(old(db.tasks), old(db.folders), db.tasks, db.folders, caller)
  {
    var folderId, folderValid := ReadPathId(env, rawFolder);
    var taskId, taskValid := ReadPathId(env, rawTask);
    if !folderValid || !taskValid {
      return BadRequest;
    }
    var st := if status.Some? then ParseStatus(status.value) else None;
    if st.None? {
      return BadRequest;
    }
    if !MatchesInFolder(db.tasks, taskId, folderId, caller) {
      return NotFound;
    }
    ghost var t0 := db.tasks;
    var t := db.tasks[taskId].(status := st.value);
    db.tasks := db.tasks[taskId := t];
    if Consistent(t0, db.folders) {
      ReplaceTaskKeeps(t0, db.folders, taskId, t);
    }
    return Ok(TaskItem(taskId, t));
  }

  /* ---------------- deletions ---------------- */

  /**
   * `deleteTaskInFolder`: deletes only the task matching task id, folder id
   * and caller, then pulls its id from that folder's list.
   */
  method DeleteTaskInFolder(db: Db, env: Env, caller: Id, rawFolder: string, rawTask: string)
    returns (r: Response)
    modifies db
    ensures r.BadRequest? <==> !env.objectIdIsValid(Trim(rawFolder)) || !env.objectIdIsValid(Trim(rawTask))
    ensures r.NotFound? <==> !r.BadRequest? && !MatchesInFolder(old(db.tasks), Trim(rawTask), Trim(rawFolder), caller)
    ensures r.Ok? || r.BadRequest? || r.NotFound?
    ensures !r.Ok? ==> unchanged(db)
    ensures r.Ok? ==>
              && r == Ok(Message)
              && MatchesInFolder(old(db.tasks), Trim(rawTask), Trim(rawFolder), caller)
              && db.tasks == old(db.tasks) - {Trim(rawTask)}
              && db.folders == PullId(old(db.folders), Trim(rawFolder), Trim(rawTask))
              && db.clock == old(db.clock)
    ensures Consistent(old(db.tasks), old(db.folders)) ==>
              && Consistent(db.tasks, db.folders)
              && OthersUntouched(old(db.tasks), old(db.folders), db.tasks, db.folders, caller)
  {
    var folderId, folderValid := ReadPathId(env, rawFolder);
    var taskId, taskValid := ReadPathId(env, rawTask);
    if !folderValid || !taskValid {
      return BadRequest;
    }
    if !MatchesInFolder(db.tasks, taskId, folderId, caller) {
      return NotFound;
    }
    if Consistent(db.tasks, db.folders) {
      DeleteTaskKeeps(db.tasks, db.folders, taskId);
    }
    db.tasks := db.tasks - {taskId};
    db.folders := PullId(db.folders, folderId, taskId);
    return Ok(Message);
  }

  /** After a task is deleted from a folder, fetching the folder no longer lists it. */
  lemma DeletedTaskIsUnlisted(env: Env, tasks: map<Id, Task>, folders: map<Id, Folder>, caller: Id,
                              rawFolder: string, taskId: Id)
    ensures var r := GetFolderById(env, tasks - {taskId}, PullId(folders, Trim(rawFolder), taskId), caller, rawFolder);
            r.Ok? ==> taskId !in r.payload.folder.tasks && forall i | 0 <= i < |r.payload.members| :: r.payload.members[i].0 != taskId
  {
  }

  /**
   * `resetProgress`: every task of the caller in the folder goes back to
   * Pending; nothing else changes. It succeeds whether or not the folder
   * exists or has tasks.
   */
  method ResetProgress(db: Db, env: Env, caller: Id, raw: string) returns (r: Response)
    modifies db
    ensures r.BadRequest? <==> !env.objectIdIsValid(Trim(raw))
    ensures r.Ok? <==> !r.BadRequest?
    ensures r.BadRequest? ==> unchanged(db)
    ensures r.Ok? ==>
              && r.payload == Message
              && db.tasks == ResetIn(old(db.tasks), Trim(raw), caller)
              && db.folders == old(db.folders) && db.clock == old(db.clock)
    ensures Consistent(old(db.tasks), old(db.folders)) ==>
              && Consistent(db.tasks, db.folders)
              && OthersUntouched(old(db.tasks), old(db.folders), db.tasks, db.folders, caller)
  {
    var id, valid := ReadPathId(env, raw);
    if !valid {
      return BadRequest;
    }
    if Consistent(db.tasks, db.folders) {
      ResetKeeps(db.tasks, db.folders, id, caller);
    }
    db.tasks := ResetIn(db.tasks, id, caller);
    return Ok(Message);
  }

  /**
   * `clearProgress` as written: deletes the caller's tasks in the folder,
   * then empties the list of whichever folder has that id, whoever owns it.
   * The invariant is kept exactly when the caller owns the folder, no folder
   * has that id, or its list is already empty.
   */
  method ClearProgress(db: Db, env: Env, caller: Id, raw: string) returns (r: Response)
    modifies db
    ensures r.BadRequest? <==> !env.objectIdIsValid(Trim(raw))
    ensures r.Ok? <==> !r.BadRequest?
    ensures r.BadRequest? ==> unchanged(db)
    ensures r.Ok? ==>
              && r.payload == Message
              && db.tasks == DeleteTasksIn(old(db.tasks), Trim(raw), caller)
              && db.folders == ClearList(old(db.folders), Trim(raw))
              && db.clock == old(db.clock)
    ensures forall k | k in old(db.tasks) && old(db.tasks)[k].user != caller ::
              k in db.tasks && db.tasks[k] == old(db.tasks)[k]
    ensures r.Ok? && Consistent(old(db.tasks), old(db.folders)) ==>
              (Consistent(db.tasks, db.folders) <==>
                 OwnedFolder(old(db.folders), Trim(raw), caller) || Trim(raw) !in old(db.folders)
                 || old(db.folders)[Trim(raw)].tasks == [])
  {
    var id, valid := ReadPathId(env, raw);
    if !valid {
      return BadRequest;
    }
    if Consistent(db.tasks, db.folders) {
      ClearListKeeps(db.tasks, db.folders, id, caller);
    }
    db.tasks := DeleteTasksIn(db.tasks, id, caller);
    db.folders := ClearList(db.folders, id);
    return Ok(Message);
  }

  /**
   * `clearProgress` with the list reset scoped to the caller's folder, as the
   * per-user isolation of every other handler intends: the invariant and
   * every other user's data are kept.
   */
  method ClearProgressScoped(db: Db, env: Env, caller: Id, raw: string) returns (r: Response)
    modifies db
    ensures r.BadRequest? <==> !env.objectIdIsValid(Trim(raw))
    ensures r.Ok? <==> !r.BadRequest?
    ensures r.BadRequest? ==> unchanged(db)
    ensures r.Ok? ==>
              && r.payload == Message
              && db.tasks == DeleteTasksIn(old(db.tasks), Trim(raw), caller)
              && db.folders == ClearListScoped(old(db.folders), Trim(raw), caller)
              && db.clock == old(db.clock)
    ensures r.Ok? ==> TasksIn(db.tasks, Trim(raw), caller) == {}
    ensures Consistent(old(db.tasks), old(db.folders)) ==>
              && Consistent(db.tasks, db.folders)
              && OthersUntouched(old(db.tasks), old(db.folders), db.tasks, db.folders, caller)
  {
    var id, valid := ReadPathId(env, raw);
    if !valid {
      return BadRequest;
    }
    if Consistent(db.tasks, db.folders) {
      ClearScopedKeeps(db.tasks, db.folders, id, caller);
    }
    db.tasks := DeleteTasksIn(db.tasks, id, caller);
    db.folders := ClearListScoped(db.folders, id, caller);
    return Ok(Message);
  }
}
