/**
 * The task panel: the tasks of one expanded list, the loading and error
 * flags, the create/edit form and its working draft. Each handler takes the
 * response of its request as an `Outcome` and returns the request it issued.
 */
module ToDoTask {
  import opened Api
  import opened View

  // ---------------------------------------------------------------------
  // Updates of the task collection after a successful mutation
  // ---------------------------------------------------------------------

  /** The collection after a created task came back from the server. */
  function Appended(tasks: seq<Task>, created: Task): (r: seq<Task>)
    ensures |r| == |tasks| + 1
    ensures r[..|tasks|] == tasks && r[|tasks|] == created
  {
    tasks + [created]
  }

  /** The collection after the task `id` was deleted: every task with another id, in order. */
  function RemoveById(tasks: seq<Task>, id: Id): (r: seq<Task>)
    ensures |r| <= |tasks|
    ensures forall t :: t in r <==> t in tasks && t.id != id
  {
    if tasks == [] then []
    else
      var rest := RemoveById(tasks[1..], id);
      if tasks[0].id != id then [tasks[0]] + rest else rest
  }

  /** The collection after the task `id` was edited: each task with that id becomes the server's record. */
  function ReplaceById(tasks: seq<Task>, id: Id, updated: Task): (r: seq<Task>)
    ensures |r| == |tasks|
    ensures forall i :: 0 <= i < |tasks| ==> r[i] == if tasks[i].id == id then updated else tasks[i]
  {
    if tasks == [] then []
    else [if tasks[0].id == id then updated else tasks[0]] + ReplaceById(tasks[1..], id, updated)
  }

  /** The position of the first task with the given id, or |tasks| when there is none. */
  function FindIndex(tasks: seq<Task>, id: Id): (k: nat)
    ensures k <= |tasks|
    ensures forall j :: 0 <= j < k ==> tasks[j].id != id
    ensures k < |tasks| ==> tasks[k].id == id
  {
    if tasks == [] then 0
    else if tasks[0].id == id then 0
    else 1 + FindIndex(tasks[1..], id)
  }

  /** The first task with the given id, as a search from the front finds it. */
  function FindById(tasks: seq<Task>, id: Id): (r: Option<Task>)
    ensures r.None? <==> forall t :: t in tasks ==> t.id != id
    ensures r.Some? ==> r.value in tasks && r.value.id == id
    ensures r.Some? ==>
      exists k :: 0 <= k < |tasks| && tasks[k] == r.value && (forall j :: 0 <= j < k ==> tasks[j].id != id)
  {
    var k := FindIndex(tasks, id);
    if k < |tasks| then Some(tasks[k]) else None
  }

  /**
   * The body of the edit a checkbox change sends: the found task with only
   * its completion flag replaced, or, when no task has that id, an object
   * holding only the flag.
   */
  function CheckboxPayload(tasks: seq<Task>, taskId: Id, checked: bool): (p: Payload)
    ensures p.RecordPayload? <==> FindById(tasks, taskId).Some?
    ensures p.RecordPayload? ==>
      var found := FindById(tasks, taskId).value;
      p.task.completed == checked && p.task.(completed := found.completed) == found
    ensures FindById(tasks, taskId).None? ==> p == CompletedOnly(checked)
  {
    match FindById(tasks, taskId)
    case Some(found) => RecordPayload(found.(completed := checked))
    case None => CompletedOnly(checked)
  }

  // ---------------------------------------------------------------------
  // Lemmas about the collection updates
  // ---------------------------------------------------------------------

  /** Deletion keeps relative order: it distributes over concatenation. */
  lemma {:induction false} RemoveByIdConcat(a: seq<Task>, b: seq<Task>, id: Id)
    ensures RemoveById(a + b, id) == RemoveById(a, id) + RemoveById(b, id)
  {
    if a == [] {
      assert a + b == b;
    } else {
      assert (a + b)[1..] == a[1..] + b;
      RemoveByIdConcat(a[1..], b, id);
    }
  }

  /** Deletion drops every copy of a task with the deleted id and keeps every copy of any other task. */
  lemma {:induction false} RemoveByIdCount(tasks: seq<Task>, id: Id, t: Task)
    ensures multiset(RemoveById(tasks, id))[t] == if t.id == id then 0 else multiset(tasks)[t]
  {
    if tasks != [] {
      RemoveByIdCount(tasks[1..], id, t);
      assert tasks == [tasks[0]] + tasks[1..];
    }
  }

  /** Deleting the same id twice has the effect of deleting it once. */
  lemma {:induction false} RemoveByIdIdempotent(tasks: seq<Task>, id: Id)
    ensures RemoveById(RemoveById(tasks, id), id) == RemoveById(tasks, id)
  {
    if tasks != [] {
      RemoveByIdIdempotent(tasks[1..], id);
      var rest := RemoveById(tasks[1..], id);
      if tasks[0].id != id {
        assert ([tasks[0]] + rest)[1..] == rest;
      }
    }
  }

  /** Deleting an id no task carries leaves the collection as it is. */
  lemma {:induction false} RemoveByIdAbsent(tasks: seq<Task>, id: Id)
    requires forall t :: t in tasks ==> t.id != id
    ensures RemoveById(tasks, id) == tasks
  {
    if tasks != [] {
      assert tasks[0] in tasks;
      assert forall t :: t in tasks[1..] ==> t in tasks;
      RemoveByIdAbsent(tasks[1..], id);
      assert tasks == [tasks[0]] + tasks[1..];
    }
  }

  /** Deleting a task right after creating it restores the collection, as far as that id goes. */
  lemma RemoveAfterAppend(tasks: seq<Task>, created: Task)
    ensures RemoveById(Appended(tasks, created), created.id) == RemoveById(tasks, created.id)
  {
    RemoveByIdConcat(tasks, [created], created.id);
    assert RemoveById([created][1..], created.id) == [];
  }

  /** Editing with the same server record twice has the effect of editing once. */
  lemma ReplaceByIdIdempotent(tasks: seq<Task>, id: Id, updated: Task)
    ensures ReplaceById(ReplaceById(tasks, id, updated), id, updated) == ReplaceById(tasks, id, updated)
  {
    var once := ReplaceById(tasks, id, updated);
    var twice := ReplaceById(once, id, updated);
    forall i | 0 <= i < |tasks| ensures twice[i] == once[i] {
      if tasks[i].id != id {
        assert once[i] == tasks[i];
      }
    }
  }

  /** Ids are unique within the collection, as the server assigns them. */
  ghost predicate UniqueIds(tasks: seq<Task>) {
    forall i, j :: 0 <= i < j < |tasks| ==> tasks[i].id != tasks[j].id
  }

  /**
   * With unique ids, a checkbox change whose edit the server echoes back
   * changes the completion flag of that one task and nothing else.
   */
  lemma ToggleEcho(tasks: seq<Task>, taskId: Id, checked: bool, i: nat)
    requires UniqueIds(tasks)
    requires i < |tasks| && tasks[i].id == taskId
    ensures CheckboxPayload(tasks, taskId, checked).RecordPayload?
    ensures var r := ReplaceById(tasks, taskId, CheckboxPayload(tasks, taskId, checked).task);
      |r| == |tasks| && r[i] == tasks[i].(completed := checked) &&
      forall j :: 0 <= j < |tasks| && j != i ==> r[j] == tasks[j]
  {
  }

  // ---------------------------------------------------------------------
  // The working draft
  // ---------------------------------------------------------------------

  /** The keys the draft carries as named fields. */
  const FieldNames: set<string> := {"title", "description", "dueDate", "priority"}

  /** A draft whose extra keys never shadow a named field. */
  predicate WellFormed(d: Draft) {
    forall k :: k in d.extra ==> k !in FieldNames
  }

  /** The draft read as the object it is in the source: the value under a key, if any. */
  function Lookup(d: Draft, key: string): Option<string> {
    if key == "title" then Some(d.title)
    else if key == "description" then Some(d.description)
    else if key == "dueDate" then Some(d.dueDate)
    else if key == "priority" then Some(d.priority)
    else if key in d.extra then Some(d.extra[key])
    else None
  }

  /** The object spread with one key overwritten: `{...d, [key]: value}`. */
  function SetField(d: Draft, key: string, value: string): (r: Draft)
    requires WellFormed(d)
    ensures WellFormed(r)
    ensures Lookup(r, key) == Some(value)
    ensures forall k :: k != key ==> Lookup(r, k) == Lookup(d, k)
  {
    if key == "title" then d.(title := value)
    else if key == "description" then d.(description := value)
    else if key == "dueDate" then d.(dueDate := value)
    else if key == "priority" then d.(priority := value)
    else d.(extra := d.extra[key := value])
  }

  /** The target of a form input's change event. */
  datatype Target = Target(id: string, value: string)

  /** A change event, whose target may be missing. */
  datatype InputEvent = InputEvent(target: Option<Target>)

  /**
   * The draft after a text input changed: a missing event, a missing target or
   * an empty id leaves it as it was; otherwise only the key named by the id
   * changes.
   */
  function InputChange(d: Draft, e: Option<InputEvent>): (r: Draft)
    requires WellFormed(d)
    ensures WellFormed(r)
    ensures (e.None? || e.value.target.None? || e.value.target.value.id == "") ==> r == d
    ensures e.Some? && e.value.target.Some? && e.value.target.value.id != "" ==>
      var t := e.value.target.value;
      Lookup(r, t.id) == Some(t.value) && forall k :: k != t.id ==> Lookup(r, k) == Lookup(d, k)
  {
    if e.None? || e.value.target.None? then d
    else
      var t := e.value.target.value;
      if t.id == "" then d else SetField(d, t.id, t.value)
  }

  /** The draft after the date picker changed: only the due date changes. */
  function DateChange(d: Draft, date: DueDate): (r: Draft)
    requires WellFormed(d)
    ensures WellFormed(r) && r.dueDate == date
    ensures forall k :: k != "dueDate" ==> Lookup(r, k) == Lookup(d, k)
  {
    SetField(d, "dueDate", date)
  }

  /** The draft after a priority was picked: only the priority changes. */
  function PriorityChange(d: Draft, priority: string): (r: Draft)
    requires WellFormed(d)
    ensures WellFormed(r) && r.priority == priority
    ensures forall k :: k != "priority" ==> Lookup(r, k) == Lookup(d, k)
  {
    SetField(d, "priority", priority)
  }

  /** The draft the panel starts with; note its non-empty title. */
  function InitialDraft(now: DueDate): (d: Draft)
    ensures WellFormed(d) && d.title == "New Task" && d.description == "" && d.priority == ""
    ensures d.dueDate == now
    ensures forall k :: k !in FieldNames ==> Lookup(d, k).None?
  {
    Draft("New Task", "", now, "", map[])
  }

  /** The draft every reset produces: empty texts, the current time, no priority. */
  function EmptyDraft(now: DueDate): (d: Draft)
    ensures WellFormed(d) && d.title == "" && d.description == "" && d.priority == ""
    ensures d.dueDate == now
    ensures forall k :: k !in FieldNames ==> Lookup(d, k).None?
  {
    Draft("", "", now, "", map[])
  }

  /** The draft seeded from a task for editing: its four form fields and nothing else. */
  function DraftOf(task: Task): (d: Draft)
    ensures WellFormed(d)
    ensures Lookup(d, "title") == Some(task.title) && Lookup(d, "description") == Some(task.description)
    ensures Lookup(d, "dueDate") == Some(task.dueDate) && Lookup(d, "priority") == Some(task.priority)
    ensures forall k :: k !in FieldNames ==> Lookup(d, k).None?
  {
    Draft(task.title, task.description, task.dueDate, task.priority, map[])
  }

  // ---------------------------------------------------------------------
  // The component state
  // ---------------------------------------------------------------------

  class TaskPanel {
    const listId: Id
    var tasks: seq<Task>
    var loading: bool
    var error: bool
    var isModalOpen: bool
    var taskData: Draft
    var editingTaskId: Option<Id>

    ghost predicate Valid()
      reads this
    {
      WellFormed(taskData)
    }

    /** What the panel shows. */
    function Screen(): Screen
      reads this
    {
      Render(loading, error)
    }

    /** A freshly mounted panel for one list: loading, no tasks, the initial draft. */
    constructor (listId: Id, now: DueDate)
      ensures Valid()
      ensures this.listId == listId && tasks == [] && loading && !error
      ensures !isModalOpen && taskData == InitialDraft(now) && editingTaskId == None
    {
      this.listId := listId;
      tasks := [];
      loading := true;
      error := false;
      isModalOpen := false;
      taskData := InitialDraft(now);
      editingTaskId := None;
    }

    /**
     * Handles the response to fetching the list's tasks: a 404 means no tasks
     * and no error; any other failure keeps the tasks and sets the error.
     */
    method FetchTasks(outcome: Outcome<seq<Task>>) returns (call: Call)
      requires Valid()
      modifies this
      ensures Valid()
      ensures call == GetTasks(listId)
      ensures tasks == match outcome
        case Ok(data) => data
        case NotFound => []
        case Fail => old(tasks)
      ensures error <==> outcome.Fail?
      ensures !loading && Screen() != Spinner
      ensures isModalOpen == old(isModalOpen) && taskData == old(taskData)
      ensures editingTaskId == old(editingTaskId)
    {
      call := GetTasks(listId);
      loading := true;
      error := false;
      match outcome {
        case Ok(data) =>
          tasks := data;
        case NotFound =>
          tasks := [];
          error := false;
        case Fail =>
          error := true;
      }
      loading := false;
    }

    /** Posts a new task; on success the server's record is appended, on failure the error is set. */
    method AddTask(payload: Payload, outcome: Outcome<Task>) returns (call: Call)
      requires Valid()
      modifies this
      ensures Valid()
      ensures call == PostTask(listId, payload)
      ensures outcome.Ok? ==> tasks == Appended(old(tasks), outcome.data) && error == old(error)
      ensures !outcome.Ok? ==> tasks == old(tasks) && error
      ensures loading == old(loading) && isModalOpen == old(isModalOpen)
      ensures taskData == old(taskData) && editingTaskId == old(editingTaskId)
    {
      call := PostTask(listId, payload);
      if outcome.Ok? {
        tasks := Appended(tasks, outcome.data);
      } else {
        error := true;
      }
    }

    /** Deletes a task; on success every task with that id is dropped, on failure the error is set. */
    method DeleteTask(taskId: Id, outcome: Outcome<()>) returns (call: Call)
      requires Valid()
      modifies this
      ensures Valid()
      ensures call == Call.DeleteTask(listId, taskId)
      ensures outcome.Ok? ==> tasks == RemoveById(old(tasks), taskId) && error == old(error)
      ensures !outcome.Ok? ==> tasks == old(tasks) && error
      ensures loading == old(loading) && isModalOpen == old(isModalOpen)
      ensures taskData == old(taskData) && editingTaskId == old(editingTaskId)
    {
      call := Call.DeleteTask(listId, taskId);
      if outcome.Ok? {
        tasks := RemoveById(tasks, taskId);
      } else {
        error := true;
      }
    }

    /** Puts an edit; on success every task with that id becomes the server's record. */
    method EditTask(taskId: Id, payload: Payload, outcome: Outcome<Task>) returns (call: Call)
      requires Valid()
      modifies this
      ensures Valid()
      ensures call == PutTask(listId, taskId, payload)
      ensures outcome.Ok? ==> tasks == ReplaceById(old(tasks), taskId, outcome.data) && error == old(error)
      ensures !outcome.Ok? ==> tasks == old(tasks) && error
      ensures loading == old(loading) && isModalOpen == old(isModalOpen)
      ensures taskData == old(taskData) && editingTaskId == old(editingTaskId)
    {
      call := PutTask(listId, taskId, payload);
      if outcome.Ok? {
        tasks := ReplaceById(tasks, taskId, outcome.data);
      } else {
        error := true;
      }
    }

    /** A checkbox change: one full-record edit of the task with the flag set to the checkbox's value. */
    method CheckboxChange(taskId: Id, checked: bool, outcome: Outcome<Task>) returns (call: Call)
      requires Valid()
      modifies this
      ensures Valid()
      ensures call == PutTask(listId, taskId, CheckboxPayload(old(tasks), taskId, checked))
      ensures outcome.Ok? ==> tasks == ReplaceById(old(tasks), taskId, outcome.data) && error == old(error)
      ensures !outcome.Ok? ==> tasks == old(tasks) && error
      ensures loading == old(loading) && isModalOpen == old(isModalOpen)
      ensures taskData == old(taskData) && editingTaskId == old(editingTaskId)
    {
      var payload := CheckboxPayload(tasks, taskId, checked);
      call := EditTask(taskId, payload, outcome);
    }

    /** A text input of the form changed. */
    method HandleInputChange(e: Option<InputEvent>)
      requires Valid()
      modifies this
      ensures Valid()
      ensures taskData == InputChange(old(taskData), e)
      ensures tasks == old(tasks) && loading == old(loading) && error == old(error)
      ensures isModalOpen == old(isModalOpen) && editingTaskId == old(editingTaskId)
    {
      taskData := InputChange(taskData, e);
    }

    /** The date picker changed. */
    method HandleDateChange(date: DueDate)
      requires Valid()
      modifies this
      ensures Valid()
      ensures taskData == DateChange(old(taskData), date)
      ensures tasks == old(tasks) && loading == old(loading) && error == old(error)
      ensures isModalOpen == old(isModalOpen) && editingTaskId == old(editingTaskId)
    {
      taskData := DateChange(taskData, date);
    }

    /** A priority was picked from the dropdown. */
    method HandlePriorityChange(priority: string)
      requires Valid()
      modifies this
      ensures Valid()
      ensures taskData == PriorityChange(old(taskData), priority)
      ensures tasks == old(tasks) && loading == old(loading) && error == old(error)
      ensures isModalOpen == old(isModalOpen) && editingTaskId == old(editingTaskId)
    {
      taskData := PriorityChange(taskData, priority);
    }

    /**
     * Saves the form: an edit of the task being edited, or else a new task,
     * with the draft as payload; then the form closes and the draft resets.
     */
    method HandleSave(now: DueDate, outcome: Outcome<Task>) returns (call: Call)
      requires Valid()
      modifies this
      ensures Valid()
      ensures old(editingTaskId).Some? ==>
        call == PutTask(listId, old(editingTaskId).value, FormPayload(old(taskData))) &&
        tasks == (if outcome.Ok? then ReplaceById(old(tasks), old(editingTaskId).value, outcome.data) else old(tasks))
      ensures old(editingTaskId).None? ==>
        call == PostTask(listId, FormPayload(old(taskData))) &&
        tasks == (if outcome.Ok? then Appended(old(tasks), outcome.data) else old(tasks))
      ensures error == (old(error) || !outcome.Ok?)
      ensures loading == old(loading)
      ensures !isModalOpen && taskData == EmptyDraft(now) && editingTaskId == None
    {
      if editingTaskId.Some? {
        call := EditTask(editingTaskId.value, FormPayload(taskData), outcome);
      } else {
        call := AddTask(FormPayload(taskData), outcome);
      }
      isModalOpen := false;
      taskData := EmptyDraft(now);
      editingTaskId := None;
    }

    /** Opens the form to edit a task, seeded with that task's fields. */
    method OpenModalEdit(task: Task)
      modifies this
      ensures Valid()
      ensures editingTaskId == Some(task.id) && taskData == DraftOf(task) && isModalOpen
      ensures tasks == old(tasks) && loading == old(loading) && error == old(error)
    {
      editingTaskId := Some(task.id);
      taskData := DraftOf(task);
      isModalOpen := true;
    }

    /** Opens the form to create a task, with an empty draft. */
    method OpenModalNew(now: DueDate)
      modifies this
      ensures Valid()
      ensures editingTaskId == None && taskData == EmptyDraft(now) && isModalOpen
      ensures tasks == old(tasks) && loading == old(loading) && error == old(error)
    {
      editingTaskId := None;
      taskData := EmptyDraft(now);
      isModalOpen := true;
    }

    /** Closes the form without saving, discarding the draft. */
    method CloseModal(now: DueDate)
      modifies this
      ensures Valid()
      ensures editingTaskId == None && taskData == EmptyDraft(now) && !isModalOpen
      ensures tasks == old(tasks) && loading == old(loading) && error == old(error)
    {
      isModalOpen := false;
      taskData := EmptyDraft(now);
      editingTaskId := None;
    }
  }
}
