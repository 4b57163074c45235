/**
 * The records exchanged with the remote to-do REST API and the requests the
 * two components issue to it. The HTTP layer itself is not modelled: every
 * request becomes a `Call` value and every response an `Outcome` value that
 * the caller of a component operation supplies.
 */
module Api {

  datatype Option<+T> = None | Some(value: T)

  /** A response as the components see it: a 200 with a body, a 404, or any other failure. */
  datatype Outcome<+T> = Ok(data: T) | NotFound | Fail

  /** Server-assigned identifiers are strings in the mock API. */
  type Id = string

  /** The due date is carried around as an opaque value; its format never matters here. */
  type DueDate = string

  /** A to-do list as the server returns it. */
  datatype TaskList = TaskList(id: Id, title: string)

  /** A task as the server returns it. */
  datatype Task = Task(
    id: Id,
    title: string,
    description: string,
    dueDate: DueDate,
    priority: string,
    completed: bool)

  /**
   * The working draft behind the create/edit form: the four named fields plus
   * any further keys an input change has added to the underlying object.
   */
  datatype Draft = Draft(
    title: string,
    description: string,
    dueDate: DueDate,
    priority: string,
    extra: map<string, string>)

  /** The body of a POST or PUT of a task. */
  datatype Payload =
    | FormPayload(draft: Draft)       // the working draft, as sent by the form
    | RecordPayload(task: Task)       // a full task record
    | CompletedOnly(completed: bool)  // an object holding only the completion flag

  /** One request to the remote store. */
  datatype Call =
    | GetLists
    | PostList(title: string)
    | DeleteList(listId: Id)
    | GetTasks(listId: Id)
    | PostTask(listId: Id, payload: Payload)
    | PutTask(listId: Id, taskId: Id, payload: Payload)
    | DeleteTask(listId: Id, taskId: Id)
}
