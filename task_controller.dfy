/**
 * The task controller: polymorphic creation, the three listings, lookup by
 * id with task-before-folder precedence, partial update with a folder-rename
 * fallback, and delete by id with or without an explicit kind.
 *
 * Every handler receives the caller's user id as a plain parameter; the
 * creation handler also receives the id the store will give the new document.
 */
module TaskController {
  import opened TaskModel
  import opened Runtime
  import opened Store
  import opened Listing

  /* ---------------- queries ---------------- */

  /**
   * `getAllTasksAndFolders`: the caller's tasks, newest first, and the
   * caller's folders, by name; nothing of any other user.
   */
  ghost function GetAllTasksAndFolders(tasks: map<Id, Task>, folders: map<Id, Folder>, caller: Id): (r: Response)
    ensures r.Ok? && r.payload.Everything?
    ensures Lists(r.payload.tasks, tasks, TasksOf(tasks, caller), NewerOrSame)
    ensures Lists(r.payload.folders, folders, FoldersOf(folders, caller), NameNotAfter)
    ensures forall i | 0 <= i < |r.payload.tasks| :: r.payload.tasks[i].1.user == caller
    ensures forall i | 0 <= i < |r.payload.folders| :: r.payload.folders[i].1.user == caller
  {
    NewestFirstIsPreorder();
    ByNameIsPreorder();
    Ok(Everything(SortedBy(tasks, TasksOf(tasks, caller), NewerOrSame),
                  SortedBy(folders, FoldersOf(folders, caller), NameNotAfter)))
  }

  /**
   * `getTasksByFolder`: a malformed folder id is a bad request; otherwise the
   * caller's tasks in that folder, newest first.
   */
  ghost function GetTasksByFolder(env: Env, tasks: map<Id, Task>, caller: Id, folderId: string): (r: Response)
    ensures r.BadRequest? <==> !env.isValidObjectId(folderId)
    ensures r.BadRequest? || (r.Ok? && r.payload.TaskList?)
    ensures r.Ok? ==> Lists(r.payload.entries, tasks, TasksIn(tasks, folderId, caller), NewerOrSame)
    ensures r.Ok? ==> forall i | 0 <= i < |r.payload.entries| ::
                        r.payload.entries[i].1.user == caller && r.payload.entries[i].1.folder == Some(folderId)
  {
    if !env.isValidObjectId(folderId) then BadRequest
    else
      NewestFirstIsPreorder();
      Ok(TaskList(SortedBy(tasks, TasksIn(tasks, folderId, caller), NewerOrSame)))
  }

  /** `getAllTasksWithoutFolder`: the caller's tasks with no folder, newest first. */
  ghost function GetAllTasksWithoutFolder(tasks: map<Id, Task>, caller: Id): (r: Response)
    ensures r.Ok? && r.payload.TaskList?
    ensures Lists(r.payload.entries, tasks, UnfiledTasksOf(tasks, caller), NewerOrSame)
    ensures forall i | 0 <= i < |r.payload.entries| ::
              r.payload.entries[i].1.user == caller && r.payload.entries[i].1.folder.None?
  {
    NewestFirstIsPreorder();
    Ok(TaskList(SortedBy(tasks, UnfiledTasksOf(tasks, caller), NewerOrSame)))
  }

  /**
   * `getTaskById`: a malformed id is a bad request; a task of the caller with
   * that id wins over a folder; a folder of the caller comes back with its
   * list populated; anything else is not found.
   */
  function GetTaskById(env: Env, tasks: map<Id, Task>, folders: map<Id, Folder>, caller: Id, id: string): (r: Response)
    ensures r.BadRequest? <==> !env.isValidObjectId(id)
    ensures r.Ok? <==> env.isValidObjectId(id) && (OwnedTask(tasks, id, caller) || OwnedFolder(folders, id, caller))
    ensures r.Ok? || r.BadRequest? || r.NotFound?
    ensures r.Ok? && OwnedTask(tasks, id, caller) ==> r.payload == TaskItem(id, tasks[id])
    ensures r.Ok? && !OwnedTask(tasks, id, caller) ==>
              r.payload == PopulatedFolder(id, folders[id], Populate(folders[id].tasks, tasks))
    ensures r.Ok? && r.payload.TaskItem? ==> r.payload.task.user == caller
    ensures r.Ok? && r.payload.PopulatedFolder? ==> r.payload.folder.user == caller
  {
    if !env.isValidObjectId(id) then BadRequest
    else if OwnedTask(tasks, id, caller) then Ok(TaskItem(id, tasks[id]))
    else if OwnedFolder(folders, id, caller) then
      Ok(PopulatedFolder(id, folders[id], Populate(folders[id].tasks, tasks)))
    else NotFound
  }

  /**
   * When the store is consistent, a folder returned by `getTaskById` carries
   * exactly its own tasks, all of them the caller's.
   */
  lemma GetTaskByIdMembersOwned(env: Env, tasks: map<Id, Task>, folders: map<Id, Folder>, caller: Id, id: string)
    requires Consistent(tasks, folders)
    ensures var r := GetTaskById(env, tasks, folders, caller, id);
            r.Ok? && r.payload.PopulatedFolder? ==>
              forall i | 0 <= i < |r.payload.members| ::
                InFolder(r.payload.members[i].1, id, caller)
  {
    var r := GetTaskById(env, tasks, folders, caller, id);
    if r.Ok? && r.payload.PopulatedFolder? {
      PopulatedIsMembership(tasks, folders, id);
    }
  }

  /**
   * After a folder is deleted with its tasks, none of its former tasks can be
   * fetched by id any more.
   */
  lemma CascadeHidesMembers(env: Env, tasks: map<Id, Task>, folders: map<Id, Folder>, caller: Id, fid: Id, x: Id)
    requires Consistent(tasks, folders)
    requires OwnedFolder(folders, fid, caller)
    requires x in tasks && tasks[x].folder == Some(fid)
    requires env.isValidObjectId(x)
    ensures GetTaskById(env, DeleteTasksIn(tasks, fid, caller), folders - {fid}, caller, x) == NotFound
  {
    assert Filed(tasks, folders, x);
  }

  /* ---------------- creation ---------------- */

  /** A status that is given but outside the enumeration. */
  predicate BadStatus(status: Option<string>) {
    Truthy(status) && ParseStatus(status.value).None?
  }

  /** A due date that is given but does not parse. */
  predicate BadDueDate(env: Env, dueDate: Option<string>) {
    Truthy(dueDate) && env.parseDate(dueDate.value).None?
  }

  /** A folder reference that is given but malformed or not the caller's. */
  predicate BadFolderRef(env: Env, folders: map<Id, Folder>, caller: Id, folder: Option<string>) {
    Truthy(folder) && !(env.isValidObjectId(folder.value) && OwnedFolder(folders, folder.value, caller))
  }

  /**
   * `createTaskOrFolder`. Without a kind or a title nothing happens. The kind
   * "folder" creates an empty folder named by the title; any other kind
   * creates a task, after checking status, due date and folder reference in
   * that order; a task created in a folder is appended to the folder's list.
   */
  method CreateTaskOrFolder(db: Db, env: Env, caller: Id, kind: Option<string>, title: Option<string>,
                            dueDate: Option<string>, status: Option<string>, folder: Option<string>,
                            newId: Id) returns (r: Response)
    requires newId !in db.tasks && newId !in db.folders
    modifies db
    ensures r.Ok? || r.BadRequest?
    ensures r.BadRequest? ==> unchanged(db)
    ensures !Truthy(kind) || !Truthy(title) ==> r == BadRequest
    ensures Truthy(kind) && Truthy(title) && kind.value == "folder" ==>
              && r == Ok(FolderItem(newId, Folder(title.value, caller, [])))
              && db.folders == old(db.folders)[newId := Folder(title.value, caller, [])]
              && db.tasks == old(db.tasks) && db.clock == old(db.clock)
    ensures Truthy(kind) && Truthy(title) && kind.value != "folder" ==>
              (r.BadRequest? <==> BadStatus(status) || BadDueDate(env, dueDate)
                                  || BadFolderRef(env, old(db.folders), caller, folder))
    ensures r.Ok? && kind.value != "folder" ==>
              && r.payload.TaskItem? && r.payload.id == newId
              && var t := r.payload.task;
              && t.title == title.value && t.user == caller && t.created == old(db.clock)
              && (Truthy(status) ==> StatusName(t.status) == status.value)
              && (!Truthy(status) ==> t.status == Pending)
              && (Truthy(dueDate) ==> t.dueDate == env.parseDate(dueDate.value))
              && (!Truthy(dueDate) ==> t.dueDate == None)
              && (Truthy(folder) ==> t.folder == Some(folder.value))
              && (!Truthy(folder) ==> t.folder == None)
              && db.tasks == old(db.tasks)[newId := t] && db.clock == old(db.clock) + 1
              && db.folders == (if Truthy(folder) then PushId(old(db.folders), folder.value, newId)
                                else old(db.folders))
    ensures Consistent(old(db.tasks), old(db.folders)) ==>
              && Consistent(db.tasks, db.folders)
              && OthersUntouched(old(db.tasks), old(db.folders), db.tasks, db.folders, caller)
  {
    ghost var t0, f0 := db.tasks, db.folders;
    if !Truthy(kind) || !Truthy(title) {
      return BadRequest;
    }
    if kind.value == "folder" {
      var created := Folder(title.value, caller, []);
      db.folders := db.folders[newId := created];
      if Consistent(t0, f0) {
        InsertFolderKeeps(t0, f0, newId, created);
      }
      return Ok(FolderItem(newId, created));
    }
    var st: Option<Status> := None;
    if Truthy(status) {
      st := ParseStatus(status.value);
      if st.None? {
        return BadRequest;
      }
    }
    var due: Option<Date> := None;
    if Truthy(dueDate) {
      due := env.parseDate(dueDate.value);
      if due.None? {
        return BadRequest;
      }
    }
    var home: Option<Id> := None;
    if Truthy(folder) {
      if !env.isValidObjectId(folder.value) {
        return BadRequest;
      }
      if !OwnedFolder(db.folders, folder.value, caller) {
        return BadRequest;
      }
      home := Some(folder.value);
    }
    var doc := NewTask(title, due, st, home, caller, db.clock);
    var t := doc.value;
    db.tasks := db.tasks[newId := t];
    db.clock := db.clock + 1;
    if home.Some? {
      db.folders := PushId(db.folders, home.value, newId);
    }
    if Consistent(t0, f0) {
      InsertTaskKeeps(t0, f0, newId, t);
    }
    return Ok(TaskItem(newId, t));
  }

  /* ---------------- update ---------------- */

  /** The update document built from a request whose fields all passed their checks. */
  function CastPatch(env: Env, title: Option<string>, status: Option<string>, dueDate: Option<string>): (p: Patch)
    requires status.Some? ==> ParseStatus(status.value).Some?
    requires dueDate.Some? ==> env.parseDate(dueDate.value).Some?
    ensures EmptyPatch(p) <==> title.None? && status.None? && dueDate.None?
    ensures p.title == title
    ensures p.status.Some? <==> status.Some?
    ensures p.status.Some? ==> StatusName(p.status.value) == status.value
    ensures p.dueDate.Some? <==> dueDate.Some?
    ensures p.dueDate.Some? ==> p.dueDate.value.Some? && p.dueDate.value == env.parseDate(dueDate.value)
  {
    Patch(title,
          if dueDate.Some? then Some(env.parseDate(dueDate.value)) else None,
          if status.Some? then ParseStatus(status.value) else None)
  }

  /** Whether `updateTaskStatus` turns the request away before reaching the store. */
  predicate RejectedUpdate(env: Env, title: Option<string>, status: Option<string>, dueDate: Option<string>) {
    || (status.Some? && ParseStatus(status.value).None?)
    || (dueDate.Some? && env.parseDate(dueDate.value).None?)
    || (title.None? && status.None? && dueDate.None?)
  }

  /**
   * `updateTaskStatus` (task controller). A given status must be in the
   * enumeration and a given due date must parse, and at least one field must
   * be given. The caller's task with that id gets exactly the given fields;
   * only when no task matched and the title is non-empty is the caller's
   * folder with that id renamed. An id that cannot be cast, or an empty title
   * (the schema's `required`), makes the store throw.
   */
  method UpdateTaskStatus(db: Db, env: Env, caller: Id, id: string,
                          title: Option<string>, status: Option<string>, dueDate: Option<string>)
    returns (r: Response)
    modifies db
    ensures r.BadRequest? <==> RejectedUpdate(env, title, status, dueDate)
    ensures !RejectedUpdate(env, title, status, dueDate) ==>
              (r.ServerError? <==> !env.isValidObjectId(id) || title == Some(""))
    ensures !r.Ok? ==> unchanged(db)
    ensures db.clock == old(db.clock)
    ensures r.Ok? && OwnedTask(old(db.tasks), id, caller) ==>
              && r == Ok(TaskItem(id, ApplyPatch(old(db.tasks)[id], CastPatch(env, title, status, dueDate))))
              && db.tasks == old(db.tasks)[id := r.payload.task] && db.folders == old(db.folders)
    ensures r.Ok? && !OwnedTask(old(db.tasks), id, caller) ==>
              && Truthy(title) && OwnedFolder(old(db.folders), id, caller)
              && r == Ok(FolderItem(id, old(db.folders)[id].(name := title.value)))
              && db.folders == old(db.folders)[id := r.payload.folder] && db.tasks == old(db.tasks)
    ensures r.NotFound? <==>
              && !RejectedUpdate(env, title, status, dueDate)
              && env.isValidObjectId(id) && title != Some("")
              && !OwnedTask(old(db.tasks), id, caller)
              && !(Truthy(title) && OwnedFolder(old(db.folders), id, caller))
    ensures Consistent(old(db.tasks), old(db.folders)) ==>
              && Consistent(db.tasks, db.folders)
              && OthersUntouched(old(db.tasks), old(db.folders), db.tasks, db.folders, caller)
  {
    ghost var t0, f0 := db.tasks, db.folders;
    var update := Patch(None, None, None);
    if title.Some? {
      update := update.(title := title);
    }
    if status.Some? {
      var st := ParseStatus(status.value);
      if st.None? {
        return BadRequest;
      }
      update := update.(status := st);
    }
    if dueDate.Some? {
      var d := env.parseDate(dueDate.value);
      if d.None? {
        return BadRequest;
      }
      update := update.(dueDate := Some(d));
    }
    if EmptyPatch(update) {
      return BadRequest;
    }
    assert update == CastPatch(env, title, status, dueDate);
    // the filter's id is cast and the update validated before the store is touched
    if !env.isValidObjectId(id) || update.title == Some("") {
      return ServerError;
    }
    if OwnedTask(db.tasks, id, caller) {
      var t := ApplyPatch(db.tasks[id], update);
      db.tasks := db.tasks[id := t];
      if Consistent(t0, f0) {
        ReplaceTaskKeeps(t0, f0, id, t);
      }
      return Ok(TaskItem(id, t));
    }
    if Truthy(title) && OwnedFolder(db.folders, id, caller) {
      var f := db.folders[id].(name := title.value);
      db.folders := db.folders[id := f];
      if Consistent(t0, f0) {
        RenameFolderKeeps(t0, f0, id, title.value);
      }
      return Ok(FolderItem(id, f));
    }
    return NotFound;
  }

  /* ---------------- deletion ---------------- */

  /**
   * The `/:type/:id` and `/:id` routes: when no id came but the kind looks
   * like an id, the kind is taken as the id and the kind is dropped.
   */
  function DeleteTarget(env: Env, kind: Option<string>, id: Option<string>): (r: (Option<string>, Option<string>))
    ensures Truthy(r.1) <==> Truthy(id) || (Truthy(kind) && env.isValidObjectId(kind.value))
    ensures Truthy(id) ==> r == (kind, id)
    ensures !Truthy(id) && Truthy(r.1) ==> r == (None, kind)
    ensures !Truthy(r.1) ==> r == (kind, id)
    ensures kind.None? ==> r.0.None?
  {
    if !Truthy(id) && Truthy(kind) && env.isValidObjectId(kind.value) then (None, kind)
    else (kind, id)
  }

  /** The task `key` was deleted and its id pulled from the folder it named. */
  ghost predicate TaskDeleted(t0: map<Id, Task>, f0: map<Id, Folder>, t1: map<Id, Task>, f1: map<Id, Folder>, key: Id) {
    key in t0 && t1 == t0 - {key} && f1 == Unlist(f0, t0[key], key)
  }

  /**
   * `deleteTaskOrFolder`. The kind "task" deletes only a task, pulling its id
   * from its folder; the kind "folder" first deletes the caller's tasks in the
   * folder, then the folder, and keeps the task deletion even when the folder
   * is not found; any other kind, or none, tries a task first and then a
   * folder with its tasks. An id that cannot be cast makes the store throw.
   */
  method DeleteTaskOrFolder(db: Db, env: Env, caller: Id, kind: Option<string>, id: Option<string>)
    returns (r: Response)
    modifies db
    ensures db.clock == old(db.clock)
    ensures r.Ok? ==> r.payload == Message
    ensures r.BadRequest? <==> !Truthy(DeleteTarget(env, kind, id).1)
    ensures r.ServerError? <==> Truthy(DeleteTarget(env, kind, id).1) && !env.isValidObjectId(DeleteTarget(env, kind, id).1.value)
    ensures r.BadRequest? || r.ServerError? ==> unchanged(db)
    ensures var (k, i) := DeleteTarget(env, kind, id);
            Truthy(i) && env.isValidObjectId(i.value) && k == Some("task") ==>
              if OwnedTask(old(db.tasks), i.value, caller)
              then r == Ok(Message) && TaskDeleted(old(db.tasks), old(db.folders), db.tasks, db.folders, i.value)
              else r == NotFound && unchanged(db)
    ensures var (k, i) := DeleteTarget(env, kind, id);
            Truthy(i) && env.isValidObjectId(i.value) && k == Some("folder") ==>
              && db.tasks == DeleteTasksIn(old(db.tasks), i.value, caller)
              && if OwnedFolder(old(db.folders), i.value, caller)
                 then r == Ok(Message) && db.folders == old(db.folders) - {i.value}
                 else r == NotFound && db.folders == old(db.folders)
    ensures var (k, i) := DeleteTarget(env, kind, id);
            Truthy(i) && env.isValidObjectId(i.value) && k != Some("task") && k != Some("folder") ==>
              if OwnedTask(old(db.tasks), i.value, caller)
              then r == Ok(Message) && TaskDeleted(old(db.tasks), old(db.folders), db.tasks, db.folders, i.value)
              else if OwnedFolder(old(db.folders), i.value, caller)
              then r == Ok(Message) && db.tasks == DeleteTasksIn(old(db.tasks), i.value, caller)
                   && db.folders == old(db.folders) - {i.value}
              else r == NotFound && unchanged(db)
    ensures Consistent(old(db.tasks), old(db.folders)) ==>
              && Consistent(db.tasks, db.folders)
              && OthersUntouched(old(db.tasks), old(db.folders), db.tasks, db.folders, caller)
              && (r.NotFound? ==> unchanged(db))
  {
    ghost var t0, f0 := db.tasks, db.folders;
    var target := DeleteTarget(env, kind, id);
    var k, i := target.0, target.1;
    if !Truthy(i) {
      return BadRequest;
    }
    var key := i.value;
    if !env.isValidObjectId(key) {
      return ServerError;
    }
    if k == Some("task") {
      if !OwnedTask(db.tasks, key, caller) {
        return NotFound;
      }
      var deleted := db.tasks[key];
      db.tasks := db.tasks - {key};
      if deleted.folder.Some? {
        db.folders := PullId(db.folders, deleted.folder.value, key);
      }
      if Consistent(t0, f0) {
        DeleteTaskKeeps(t0, f0, key);
      }
      return Ok(Message);
    }
    if k == Some("folder") {
      db.tasks := DeleteTasksIn(db.tasks, key, caller);
      if Consistent(t0, f0) {
        CascadeKeeps(t0, f0, key, caller);
      }
      if !OwnedFolder(db.folders, key, caller) {
        return NotFound;
      }
      db.folders := db.folders - {key};
      return Ok(Message);
    }
    if OwnedTask(db.tasks, key, caller) {
      var deleted := db.tasks[key];
      db.tasks := db.tasks - {key};
      if deleted.folder.Some? {
        db.folders := PullId(db.folders, deleted.folder.value, key);
      }
      if Consistent(t0, f0) {
        DeleteTaskKeeps(t0, f0, key);
      }
      return Ok(Message);
    }
    if OwnedFolder(db.folders, key, caller) {
      db.folders := db.folders - {key};
      db.tasks := DeleteTasksIn(db.tasks, key, caller);
      if Consistent(t0, f0) {
        CascadeKeeps(t0, f0, key, caller);
      }
      return Ok(Message);
    }
    return NotFound;
  }
}
