/**
 * The Task record of the entity store: its fields, its status enumeration
 * and the defaults and requirements its schema imposes when a task is created.
 * The Folder record sits beside it: a name, an owner and the ordered list of
 * the ids of its tasks.
 */
module TaskModel {

  datatype Option<+T> = None | Some(value: T)

  /** Entity and user identifiers, in their string form. */
  type Id = string

  /** A calendar instant, as milliseconds since the epoch. */
  type Date = int

  /** The three values the schema's `status` enumeration admits. */
  datatype Status = Pending | Working | Completed

  /**
   * A stored task. `created` is the creation stamp the schema's timestamps
   * give every document; the store hands them out from a counter.
   */
  datatype Task = Task(
    title: string,
    dueDate: Option<Date>,
    status: Status,
    folder: Option<Id>,
    user: Id,
    created: nat)

  /** A stored folder: its name, its owner and its membership list. */
  datatype Folder = Folder(name: string, user: Id, tasks: seq<Id>)

  /**
   * JavaScript truthiness of an optional request string: present and
   * non-empty. Absent fields (undefined or null) are `None`.
   */
  predicate Truthy(v: Option<string>) {
    v.Some? && v.value != ""
  }

  /** The spelling of a status in requests and documents. */
  function StatusName(s: Status): string {
    match s
    case Pending => "Pending"
    case Working => "Working"
    case Completed => "Completed"
  }

  /** Membership of a request string in the enumeration. */
  function ParseStatus(s: string): (r: Option<Status>)
    ensures r.Some? <==> (s == "Pending" || s == "Working" || s == "Completed")
    ensures r.Some? ==> StatusName(r.value) == s
  {
    if s == "Pending" then Some(Pending)
    else if s == "Working" then Some(Working)
    else if s == "Completed" then Some(Completed)
    else None
  }

  /** A status and its spelling determine each other. */
  lemma StatusRoundTrip(st: Status, s: string)
    ensures ParseStatus(s) == Some(st) <==> StatusName(st) == s
  {
  }

  /**
   * Creating a task document: a missing or empty title fails the schema's
   * `required` check and nothing is built; `dueDate`, `folder` default to
   * null and `status` to Pending.
   */
  function NewTask(title: Option<string>, dueDate: Option<Date>, status: Option<Status>,
                   folder: Option<Id>, user: Id, stamp: nat): (r: Option<Task>)
    ensures r.Some? <==> Truthy(title)
    ensures r.Some? ==> r.value.title != "" && r.value.title == title.value
    ensures r.Some? ==> r.value.user == user && r.value.created == stamp
    ensures r.Some? ==> r.value.dueDate == dueDate && r.value.folder == folder
    ensures r.Some? && status.None? ==> r.value.status == Pending
    ensures r.Some? && status.Some? ==> r.value.status == status.value
  {
    if !Truthy(title) then None
    else
      var st := match status case Some(s) => s case None => Pending;
      Some(Task(title.value, dueDate, st, folder, user, stamp))
  }

  /**
   * The fields an update may set, already cast: `None` leaves a field alone;
   * `dueDate := Some(None)` clears the due date.
   */
  datatype Patch = Patch(title: Option<string>, dueDate: Option<Option<Date>>, status: Option<Status>)

  predicate EmptyPatch(p: Patch) {
    p.title.None? && p.dueDate.None? && p.status.None?
  }

  /** An update sets exactly the supplied fields; folder, owner and stamp never change. */
  function ApplyPatch(t: Task, p: Patch): (r: Task)
    ensures r.folder == t.folder && r.user == t.user && r.created == t.created
    ensures r.title == (if p.title.Some? then p.title.value else t.title)
    ensures r.dueDate == (if p.dueDate.Some? then p.dueDate.value else t.dueDate)
    ensures r.status == (if p.status.Some? then p.status.value else t.status)
    ensures EmptyPatch(p) ==> r == t
  {
    var t1 := if p.title.Some? then t.(title := p.title.value) else t;
    var t2 := if p.dueDate.Some? then t1.(dueDate := p.dueDate.value) else t1;
    if p.status.Some? then t2.(status := p.status.value) else t2
  }
}
