/**
 * The entity store both controllers share: a table of tasks and a table of
 * folders keyed by id, and the clock that stamps new tasks. The store
 * operations the controllers issue (`deleteMany`, `updateMany`, `$push`,
 * `$pull`, ...) are given here as functions from the old table to the new one,
 * together with the membership invariant that ties a folder's list of task
 * ids to the tasks that name that folder, and the lemmas saying which
 * operations keep it.
 */
module Store {
  import opened TaskModel

  class Db {
    var tasks: map<Id, Task>
    var folders: map<Id, Folder>
    /** The next creation stamp. */
    var clock: nat

    constructor ()
      ensures tasks == map[] && folders == map[] && clock == 0
    {
      tasks, folders, clock := map[], map[], 0;
    }
  }

  /* ---------------- owner-scoped filters ---------------- */

  /** `{ _id: id, user: user }` matches a task. */
  predicate OwnedTask(tasks: map<Id, Task>, id: Id, user: Id) {
    id in tasks && tasks[id].user == user
  }

  /** `{ _id: id, user: user }` matches a folder. */
  predicate OwnedFolder(folders: map<Id, Folder>, id: Id, user: Id) {
    id in folders && folders[id].user == user
  }

  /** `{ folder: fid, user: user }` matches a task. */
  predicate InFolder(t: Task, fid: Id, user: Id) {
    t.folder == Some(fid) && t.user == user
  }

  function TasksOf(tasks: map<Id, Task>, user: Id): set<Id> {
    set k | k in tasks && tasks[k].user == user
  }

  function TasksIn(tasks: map<Id, Task>, fid: Id, user: Id): set<Id> {
    set k | k in tasks && InFolder(tasks[k], fid, user)
  }

  function UnfiledTasksOf(tasks: map<Id, Task>, user: Id): set<Id> {
    set k | k in tasks && tasks[k].user == user && tasks[k].folder.None?
  }

  function FoldersOf(folders: map<Id, Folder>, user: Id): set<Id> {
    set k | k in folders && folders[k].user == user
  }

  /* ---------------- the membership invariant ---------------- */

  predicate NoDup(s: seq<Id>) {
    forall i, j | 0 <= i < j < |s| :: s[i] != s[j]
  }

  /** A task that names a folder sits in a folder of its own owner that lists it. */
  ghost predicate Filed(tasks: map<Id, Task>, folders: map<Id, Folder>, t: Id)
    requires t in tasks
  {
    tasks[t].folder.Some? ==>
      var f := tasks[t].folder.value;
      f in folders && folders[f].user == tasks[t].user && t in folders[f].tasks
  }

  /** A folder lists each id once, and only ids of tasks that name it. */
  ghost predicate Listed(tasks: map<Id, Task>, f: Id, folder: Folder) {
    && NoDup(folder.tasks)
    && forall x | x in folder.tasks :: x in tasks && tasks[x].folder == Some(f)
  }

  /**
   * For each folder, the ids in its list are exactly the tasks whose `folder`
   * is that folder, and those tasks have the folder's owner; task ids and
   * folder ids never collide.
   */
  ghost predicate Consistent(tasks: map<Id, Task>, folders: map<Id, Folder>) {
    && tasks.Keys !! folders.Keys
    && (forall t | t in tasks :: Filed(tasks, folders, t))
    && (forall f | f in folders :: Listed(tasks, f, folders[f]))
  }

  /** Every task and folder of another user is still there, unchanged. */
  ghost predicate OthersUntouched(t0: map<Id, Task>, f0: map<Id, Folder>,
                                  t1: map<Id, Task>, f1: map<Id, Folder>, caller: Id) {
    && (forall k | k in t0 && t0[k].user != caller :: k in t1 && t1[k] == t0[k])
    && (forall k | k in f0 && f0[k].user != caller :: k in f1 && f1[k] == f0[k])
  }

  /* ---------------- store operations ---------------- */

  /** `$pull`: every occurrence of `x` goes, the rest keeps its order. */
  function Pull(s: seq<Id>, x: Id): (r: seq<Id>)
    ensures forall y :: y in r <==> y in s && y != x
    ensures |r| <= |s|
    ensures x !in s ==> r == s
    ensures NoDup(s) ==> NoDup(r)
  {
    if s == [] then []
    else
      var rest := Pull(s[1..], x);
      assert s == [s[0]] + s[1..];
      if s[0] == x then rest
      else
        assert NoDup(s) ==> s[0] !in s[1..];
        [s[0]] + rest
  }

  /** `$pull` works element by element: the ids left keep their order. */
  lemma {:induction false} PullAppend(a: seq<Id>, b: seq<Id>, x: Id)
    ensures Pull(a + b, x) == Pull(a, x) + Pull(b, x)
    decreases |a|
  {
    if a != [] {
      var ab := a + b;
      assert ab[0] == a[0] && ab[1..] == a[1..] + b;
      assert Pull(ab, x) == if a[0] == x then Pull(a[1..] + b, x) else [a[0]] + Pull(a[1..] + b, x);
      assert Pull(a, x) == if a[0] == x then Pull(a[1..], x) else [a[0]] + Pull(a[1..], x);
      PullAppend(a[1..], b, x);
      if a[0] != x {
        assert [a[0]] + (Pull(a[1..], x) + Pull(b, x)) == ([a[0]] + Pull(a[1..], x)) + Pull(b, x);
      }
    } else {
      assert a + b == b;
    }
  }

  /** `$pull` removes every copy of `x` and keeps every other id as many times as it was there. */
  lemma {:induction false} PullMultiset(s: seq<Id>, x: Id)
    ensures multiset(Pull(s, x)) == multiset(s)[x := 0]
    decreases |s|
  {
    if s != [] {
      assert s == [s[0]] + s[1..];
      PullMultiset(s[1..], x);
      if s[0] != x {
        assert Pull(s, x) == [s[0]] + Pull(s[1..], x);
      }
    }
  }

  /** Pulling from a single id: it goes when it is `x`, and stays otherwise. */
  lemma PullSingle(y: Id, x: Id)
    ensures Pull([y], x) == if y == x then [] else [y]
  {
  }

  /** `findByIdAndUpdate(fid, { $push: { tasks: tid } })`: keyed on the id alone. */
  function PushId(folders: map<Id, Folder>, fid: Id, tid: Id): (r: map<Id, Folder>)
    ensures r.Keys == folders.Keys
    ensures forall k | k in folders && k != fid :: r[k] == folders[k]
    ensures fid in folders ==> r[fid] == folders[fid].(tasks := folders[fid].tasks + [tid])
  {
    if fid in folders then folders[fid := folders[fid].(tasks := folders[fid].tasks + [tid])]
    else folders
  }

  /** `updateOne({ _id: fid }, { $pull: { tasks: tid } })`: keyed on the id alone. */
  function PullId(folders: map<Id, Folder>, fid: Id, tid: Id): (r: map<Id, Folder>)
    ensures r.Keys == folders.Keys
    ensures forall k | k in folders && k != fid :: r[k] == folders[k]
    ensures fid in folders ==> tid !in r[fid].tasks
    ensures fid in folders ==> r[fid] == folders[fid].(tasks := Pull(folders[fid].tasks, tid))
  {
    if fid in folders then folders[fid := folders[fid].(tasks := Pull(folders[fid].tasks, tid))]
    else folders
  }

  /** The `$pull` that follows deleting task `tid`, when the task named a folder. */
  function Unlist(folders: map<Id, Folder>, t: Task, tid: Id): (r: map<Id, Folder>)
    ensures r.Keys == folders.Keys
    ensures forall k | k in folders && t.folder != Some(k) :: r[k] == folders[k]
    ensures forall k | k in folders && t.folder == Some(k) ::
              r[k] == folders[k].(tasks := Pull(folders[k].tasks, tid)) && tid !in r[k].tasks
  {
    if t.folder.Some? then PullId(folders, t.folder.value, tid) else folders
  }

  /** `deleteMany({ folder: fid, user: user })`. */
  function DeleteTasksIn(tasks: map<Id, Task>, fid: Id, user: Id): (r: map<Id, Task>)
    ensures forall k :: k in r <==> k in tasks && !InFolder(tasks[k], fid, user)
    ensures forall k | k in r :: r[k] == tasks[k]
  {
    map k | k in tasks && !InFolder(tasks[k], fid, user) :: tasks[k]
  }

  /** `updateMany({ folder: fid, user: user }, { status: 'Pending' })`. */
  function ResetIn(tasks: map<Id, Task>, fid: Id, user: Id): (r: map<Id, Task>)
    ensures r.Keys == tasks.Keys
    ensures forall k | k in tasks && InFolder(tasks[k], fid, user) ::
              r[k].status == Pending && r[k].(status := tasks[k].status) == tasks[k]
    ensures forall k | k in tasks && !InFolder(tasks[k], fid, user) :: r[k] == tasks[k]
  {
    map k | k in tasks :: if InFolder(tasks[k], fid, user) then tasks[k].(status := Pending) else tasks[k]
  }

  /** `findByIdAndUpdate(fid, { tasks: [] })`: keyed on the id alone, whoever owns the folder. */
  function ClearList(folders: map<Id, Folder>, fid: Id): (r: map<Id, Folder>)
    ensures r.Keys == folders.Keys
    ensures forall k | k in folders && k != fid :: r[k] == folders[k]
    ensures fid in folders ==> r[fid].tasks == [] && r[fid].(tasks := folders[fid].tasks) == folders[fid]
  {
    if fid in folders then folders[fid := folders[fid].(tasks := [])] else folders
  }

  /** The owner-scoped reset: `findOneAndUpdate({ _id: fid, user: user }, { tasks: [] })`. */
  function ClearListScoped(folders: map<Id, Folder>, fid: Id, user: Id): (r: map<Id, Folder>)
    ensures r.Keys == folders.Keys
    ensures forall k | k in folders && !OwnedFolder(folders, k, user) :: r[k] == folders[k]
    ensures forall k | k in folders && k != fid :: r[k] == folders[k]
    ensures OwnedFolder(folders, fid, user) ==> r[fid].tasks == [] && r[fid].(tasks := folders[fid].tasks) == folders[fid]
  {
    if OwnedFolder(folders, fid, user) then folders[fid := folders[fid].(tasks := [])] else folders
  }

  /**
   * `populate('tasks')`: each listed id replaced by its task, in list order;
   * ids without a task are dropped. No owner filter is applied.
   */
  function Populate(ids: seq<Id>, tasks: map<Id, Task>): (r: seq<(Id, Task)>)
    ensures |r| <= |ids|
    ensures forall i | 0 <= i < |r| :: r[i].0 in ids && r[i].0 in tasks && r[i].1 == tasks[r[i].0]
    ensures forall x | x in ids && x in tasks :: (x, tasks[x]) in r
    ensures (forall x | x in ids :: x in tasks) ==> |r| == |ids| && forall i | 0 <= i < |r| :: r[i].0 == ids[i]
  {
    if ids == [] then []
    else
      var rest := Populate(ids[1..], tasks);
      assert ids == [ids[0]] + ids[1..];
      if ids[0] in tasks then
        var r := [(ids[0], tasks[ids[0]])] + rest;
        assert forall i | 1 <= i < |r| :: r[i] == rest[i - 1];
        r
      else rest
  }
  /** `populate` works id by id: the tasks found keep the order of the list. */
  lemma {:induction false} PopulateAppend(a: seq<Id>, b: seq<Id>, tasks: map<Id, Task>)
    ensures Populate(a + b, tasks) == Populate(a, tasks) + Populate(b, tasks)
    decreases |a|
  {
    if a != [] {
      var ab := a + b;
      assert ab[0] == a[0] && ab[1..] == a[1..] + b;
      PopulateAppend(a[1..], b, tasks);
      if a[0] in tasks {
        var e := [(a[0], tasks[a[0]])];
        assert e + (Populate(a[1..], tasks) + Populate(b, tasks)) == (e + Populate(a[1..], tasks)) + Populate(b, tasks);
      }
    } else {
      assert a + b == b;
    }
  }

  /** Populating a single id: its task when there is one, nothing otherwise. */
  lemma PopulateSingle(x: Id, tasks: map<Id, Task>)
    ensures Populate([x], tasks) == if x in tasks then [(x, tasks[x])] else []
  {
  }


  /**
   * In a consistent store, populating a folder's list gives, in list order,
   * exactly the tasks that name the folder, all of them the folder owner's.
   */
  lemma PopulatedIsMembership(tasks: map<Id, Task>, folders: map<Id, Folder>, fid: Id)
    requires Consistent(tasks, folders)
    requires fid in folders
    ensures var r := Populate(folders[fid].tasks, tasks);
            && |r| == |folders[fid].tasks|
            && (forall i | 0 <= i < |r| :: r[i].0 == folders[fid].tasks[i] && InFolder(r[i].1, fid, folders[fid].user))
            && (forall k | k in tasks && tasks[k].folder == Some(fid) :: (k, tasks[k]) in r)
  {
  }

  /* ---------------- what keeps the invariant ---------------- */

  /** Creating an empty folder under a fresh id. */
  lemma InsertFolderKeeps(tasks: map<Id, Task>, folders: map<Id, Folder>, id: Id, f: Folder)
    requires Consistent(tasks, folders)
    requires id !in tasks && id !in folders && f.tasks == []
    ensures Consistent(tasks, folders[id := f])
  {
  }

  /**
   * Creating a task under a fresh id; when it names a folder, that folder
   * belongs to the task's owner and the new id is pushed onto its list.
   */
  lemma InsertTaskKeeps(tasks: map<Id, Task>, folders: map<Id, Folder>, id: Id, t: Task)
    requires Consistent(tasks, folders)
    requires id !in tasks && id !in folders
    requires t.folder.Some? ==> OwnedFolder(folders, t.folder.value, t.user)
    ensures Consistent(tasks[id := t], if t.folder.Some? then PushId(folders, t.folder.value, id) else folders)
    ensures OthersUntouched(tasks, folders, tasks[id := t],
                            if t.folder.Some? then PushId(folders, t.folder.value, id) else folders, t.user)
  {
  }

  /** Replacing a task by one with the same folder and owner. */
  lemma ReplaceTaskKeeps(tasks: map<Id, Task>, folders: map<Id, Folder>, id: Id, t: Task)
    requires Consistent(tasks, folders)
    requires id in tasks && t.folder == tasks[id].folder && t.user == tasks[id].user
    ensures Consistent(tasks[id := t], folders)
    ensures OthersUntouched(tasks, folders, tasks[id := t], folders, t.user)
  {
  }

  /** Renaming a folder. */
  lemma RenameFolderKeeps(tasks: map<Id, Task>, folders: map<Id, Folder>, id: Id, name: string)
    requires Consistent(tasks, folders)
    requires id in folders
    ensures Consistent(tasks, folders[id := folders[id].(name := name)])
  {
  }

  /**
   * Deleting a task and pulling its id from the folder it names keeps the
   * invariant, and touches only entities of the task's owner.
   */
  lemma DeleteTaskKeeps(tasks: map<Id, Task>, folders: map<Id, Folder>, id: Id)
    requires Consistent(tasks, folders)
    requires id in tasks
    ensures Consistent(tasks - {id}, Unlist(folders, tasks[id], id))
    ensures OthersUntouched(tasks, folders, tasks - {id}, Unlist(folders, tasks[id], id), tasks[id].user)
  {
  }

  /**
   * Deleting the user's tasks in folder `fid`, and then the folder when the
   * user owns it. When the user does not own it, no task is deleted at all.
   */
  lemma CascadeKeeps(tasks: map<Id, Task>, folders: map<Id, Folder>, fid: Id, user: Id)
    requires Consistent(tasks, folders)
    ensures OwnedFolder(folders, fid, user) ==> Consistent(DeleteTasksIn(tasks, fid, user), folders - {fid})
    ensures !OwnedFolder(folders, fid, user) ==> DeleteTasksIn(tasks, fid, user) == tasks
  {
  }

  /** Resetting statuses changes no folder reference. */
  lemma ResetKeeps(tasks: map<Id, Task>, folders: map<Id, Folder>, fid: Id, user: Id)
    requires Consistent(tasks, folders)
    ensures Consistent(ResetIn(tasks, fid, user), folders)
    ensures OthersUntouched(tasks, folders, ResetIn(tasks, fid, user), folders, user)
  {
  }

  /** Resetting twice is resetting once. */
  lemma ResetIdempotent(tasks: map<Id, Task>, fid: Id, user: Id)
    ensures ResetIn(ResetIn(tasks, fid, user), fid, user) == ResetIn(tasks, fid, user)
  {
  }

  /** Clearing progress twice, as written, is clearing it once. */
  lemma ClearIdempotent(tasks: map<Id, Task>, folders: map<Id, Folder>, fid: Id, user: Id)
    ensures DeleteTasksIn(DeleteTasksIn(tasks, fid, user), fid, user) == DeleteTasksIn(tasks, fid, user)
    ensures ClearList(ClearList(folders, fid), fid) == ClearList(folders, fid)
  {
  }

  /** The owner-scoped clear is idempotent too. */
  lemma ClearScopedIdempotent(folders: map<Id, Folder>, fid: Id, user: Id)
    ensures ClearListScoped(ClearListScoped(folders, fid, user), fid, user) == ClearListScoped(folders, fid, user)
  {
  }

  /**
   * The owner-scoped clear: deleting the user's tasks in `fid` and emptying
   * the list of `fid` only when the user owns it keeps the invariant.
   */
  lemma ClearScopedKeeps(tasks: map<Id, Task>, folders: map<Id, Folder>, fid: Id, user: Id)
    requires Consistent(tasks, folders)
    ensures Consistent(DeleteTasksIn(tasks, fid, user), ClearListScoped(folders, fid, user))
    ensures OthersUntouched(tasks, folders, DeleteTasksIn(tasks, fid, user), ClearListScoped(folders, fid, user), user)
  {
  }

  /**
   * The reset as written keeps the invariant exactly when the caller owns the
   * folder, or no folder has that id, or the folder's list is already empty;
   * when another user's non-empty folder is cleared, a task of that user still
   * names the folder but is no longer listed.
   */
  lemma ClearListKeeps(tasks: map<Id, Task>, folders: map<Id, Folder>, fid: Id, user: Id)
    requires Consistent(tasks, folders)
    ensures Consistent(DeleteTasksIn(tasks, fid, user), ClearList(folders, fid)) <==>
              OwnedFolder(folders, fid, user) || fid !in folders || folders[fid].tasks == []
  {
    var t1 := DeleteTasksIn(tasks, fid, user);
    if OwnedFolder(folders, fid, user) {
      assert ClearList(folders, fid) == ClearListScoped(folders, fid, user);
      ClearScopedKeeps(tasks, folders, fid, user);
    } else if fid !in folders || folders[fid].tasks == [] {
      forall k | k in tasks ensures !InFolder(tasks[k], fid, user) {
        assert Filed(tasks, folders, k);
      }
      assert t1 == tasks;
      assert ClearList(folders, fid) == folders;
    } else {
      var x := folders[fid].tasks[0];
      assert Listed(tasks, fid, folders[fid]);
      assert Filed(tasks, folders, x);
      assert x in t1;
      assert !Filed(t1, ClearList(folders, fid), x);
    }
  }

  /**
   * The reset as written, keyed on the id alone, lets one user empty the list
   * of another user's folder: the invariant and the other user's folder are
   * both lost, although the caller deleted nothing.
   */
  lemma ClearListBreaksIsolation()
    ensures var tasks := map["t1" := Task("buy milk", None, Pending, Some("f1"), "alice", 0)];
            var folders := map["f1" := Folder("home", "alice", ["t1"])];
            && Consistent(tasks, folders)
            && DeleteTasksIn(tasks, "f1", "bob") == tasks
            && !Consistent(DeleteTasksIn(tasks, "f1", "bob"), ClearList(folders, "f1"))
            && !OthersUntouched(tasks, folders, DeleteTasksIn(tasks, "f1", "bob"), ClearList(folders, "f1"), "bob")
  {
    var tasks := map["t1" := Task("buy milk", None, Pending, Some("f1"), "alice", 0)];
    var folders := map["f1" := Folder("home", "alice", ["t1"])];
    assert Filed(tasks, folders, "t1");
    assert Listed(tasks, "f1", folders["f1"]);
    var t1 := DeleteTasksIn(tasks, "f1", "bob");
    assert t1.Keys == tasks.Keys;
    assert t1 == tasks;
    assert !Filed(t1, ClearList(folders, "f1"), "t1");
  }
}
