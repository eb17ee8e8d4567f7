/**
 * What the controllers take from their surroundings, and what they answer.
 *
 * The library checks the controllers consult are left uninterpreted: they
 * arrive as fields of an `Env` value, so every property proved here holds for
 * whatever the libraries decide.
 */
module Runtime {
  import opened TaskModel

  /**
   * `isValidObjectId`: mongoose's check that a string can be cast to an
   *   ObjectId (used by the task controller, and deciding whether a query on
   *   an unchecked id throws a cast error).
   * `objectIdIsValid`: the driver's `ObjectId.isValid` (used by the folder
   *   controller's `isValidId`).
   * `parseDate`: `new Date(s)`, `None` when the result is an invalid date
   *   (the task controller parses dates itself).
   * `castDate`: the schema's cast of a string to a `Date` path, `None` when
   *   the cast fails (the folder controller hands raw strings to the store).
   *   It differs from `new Date(s)`, for instance on numeric strings.
   */
  datatype Env = Env(
    isValidObjectId: string -> bool,
    objectIdIsValid: string -> bool,
    parseDate: string -> Option<Date>,
    castDate: string -> Option<Date>)

  /** The body of a successful response. */
  datatype Payload =
    | TaskItem(id: Id, task: Task)
    | FolderItem(id: Id, folder: Folder)
    | PopulatedFolder(id: Id, folder: Folder, members: seq<(Id, Task)>)
    | TaskList(entries: seq<(Id, Task)>)
    | Everything(tasks: seq<(Id, Task)>, folders: seq<(Id, Folder)>)
    | Message

  /**
   * The outcome of a handler. `BadRequest` is the 400 family, `NotFound` the
   * 404 family, `ServerError` the catch-all 500 (schema validation and cast
   * failures thrown by the store).
   */
  datatype Response = Ok(payload: Payload) | BadRequest | NotFound | ServerError
}
