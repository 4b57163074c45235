/**
 * The list manager: the collection of lists, which one is expanded, the
 * dialog for creating a list, and the two-phase deletion of a list together
 * with its tasks.
 */
module ToDoList {
  import opened Api
  import opened View

  // ---------------------------------------------------------------------
  // Expansion
  // ---------------------------------------------------------------------

  /** The selection after clicking a list's toggle: the list collapses if it was expanded, and is expanded otherwise. */
  function NextSelection(selected: Option<Id>, clicked: Id): (next: Option<Id>)
    ensures next.None? <==> selected == Some(clicked)
    ensures next.Some? ==> next.value == clicked
  {
    if selected == Some(clicked) then None else Some(clicked)
  }

  /** The ids of the lists that show their task panel under a selection. */
  function ExpandedIds(lists: seq<TaskList>, selected: Option<Id>): set<Id> {
    set l | l in lists && selected == Some(l.id) :: l.id
  }

  /** The positions of the list entries that show their task panel under a selection. */
  function ExpandedPositions(lists: seq<TaskList>, selected: Option<Id>): set<nat> {
    set k: nat | k < |lists| && selected == Some(lists[k].id)
  }

  /** List ids are unique within the collection, as the server assigns them. */
  predicate UniqueListIds(lists: seq<TaskList>) {
    forall a, b :: 0 <= a < b < |lists| ==> lists[a].id != lists[b].id
  }

  /**
   * With unique ids, at most one list entry shows its task panel: two
   * entries that both match the selection are the same entry.
   */
  lemma AtMostOneExpanded(lists: seq<TaskList>, selected: Option<Id>)
    requires UniqueListIds(lists)
    ensures forall i, j ::
      (0 <= i < |lists| && 0 <= j < |lists| && selected == Some(lists[i].id) && selected == Some(lists[j].id))
      ==> i == j
    ensures |ExpandedPositions(lists, selected)| <= 1
  {
    var ps := ExpandedPositions(lists, selected);
    if ps != {} {
      var i :| i in ps;
      assert ps == {i};
    }
  }

  /** After a click, the clicked list is the only expanded one, or none is. */
  lemma ClickExpandsOnlyClicked(lists: seq<TaskList>, selected: Option<Id>, clicked: Id)
    ensures ExpandedIds(lists, NextSelection(selected, clicked)) <= {clicked}
    ensures selected == Some(clicked) ==> ExpandedIds(lists, NextSelection(selected, clicked)) == {}
  {
  }

  /** Clicking the same list twice restores a selection that was empty or that list. */
  lemma ClickTwiceRestores(selected: Option<Id>, clicked: Id)
    requires selected.None? || selected == Some(clicked)
    ensures NextSelection(NextSelection(selected, clicked), clicked) == selected
  {
  }

  /** Clicking a list twice when another one was expanded collapses everything. */
  lemma ClickTwiceFromOther(other: Id, clicked: Id)
    requires other != clicked
    ensures NextSelection(NextSelection(Some(other), clicked), clicked) == None
  {
  }

  // ---------------------------------------------------------------------
  // Deleting a list
  // ---------------------------------------------------------------------

  /** The tasks a deletion must remove, given the response to fetching them; a 404 means none. */
  function TasksToDelete(fetched: Outcome<seq<Task>>): (ts: seq<Task>)
    ensures fetched.Ok? ==> ts == fetched.data
    ensures !fetched.Ok? ==> ts == []
  {
    if fetched.Ok? then fetched.data else []
  }

  /** One delete request per task, in the order the tasks were fetched. */
  function TaskDeletes(listId: Id, ts: seq<Task>): (calls: seq<Call>)
    ensures |calls| == |ts|
    ensures forall i :: 0 <= i < |ts| ==> calls[i] == DeleteTask(listId, ts[i].id)
  {
    if ts == [] then []
    else TaskDeletes(listId, ts[..|ts| - 1]) + [DeleteTask(listId, ts[|ts| - 1].id)]
  }

  /** Every task delete succeeded. */
  predicate AllDeleted(ts: seq<Task>, taskDelete: Id -> Outcome<()>) {
    forall i :: 0 <= i < |ts| ==> taskDelete(ts[i].id).Ok?
  }

  /**
   * The requests a deletion issues: the task fetch; unless it failed with
   * something other than a 404, one delete per fetched task; if they all
   * succeeded, the list delete; and if that succeeded, a refetch of the lists.
   */
  function DeleteListTrace(listId: Id, fetched: Outcome<seq<Task>>,
                           taskDelete: Id -> Outcome<()>, listDelete: Outcome<()>): seq<Call>
  {
    var ts := TasksToDelete(fetched);
    var deletes := if fetched.Fail? then [] else TaskDeletes(listId, ts);
    var finish :=
      if fetched.Fail? || !AllDeleted(ts, taskDelete) then []
      else if listDelete.Ok? then [DeleteList(listId), GetLists]
      else [DeleteList(listId)];
    [GetTasks(listId)] + deletes + finish
  }

  /** Whether a deletion ends with the error set: some step of it failed. */
  predicate DeleteListFails(fetched: Outcome<seq<Task>>, taskDelete: Id -> Outcome<()>, listDelete: Outcome<()>) {
    fetched.Fail? || !AllDeleted(TasksToDelete(fetched), taskDelete) || !listDelete.Ok?
  }

  /** The number of task-delete requests in a trace. */
  function CountTaskDeletes(calls: seq<Call>): nat {
    if calls == [] then 0
    else (if calls[0].DeleteTask? then 1 else 0) + CountTaskDeletes(calls[1..])
  }

  /** The number of list-delete requests in a trace. */
  function CountListDeletes(calls: seq<Call>): nat {
    if calls == [] then 0
    else (if calls[0].DeleteList? then 1 else 0) + CountListDeletes(calls[1..])
  }

  lemma {:induction false} CountsConcat(a: seq<Call>, b: seq<Call>)
    ensures CountTaskDeletes(a + b) == CountTaskDeletes(a) + CountTaskDeletes(b)
    ensures CountListDeletes(a + b) == CountListDeletes(a) + CountListDeletes(b)
  {
    if a == [] {
      assert a + b == b;
    } else {
      assert (a + b)[1..] == a[1..] + b;
      CountsConcat(a[1..], b);
    }
  }

  lemma {:induction false} CountsOfTaskDeletes(listId: Id, ts: seq<Task>)
    ensures CountTaskDeletes(TaskDeletes(listId, ts)) == |ts|
    ensures CountListDeletes(TaskDeletes(listId, ts)) == 0
  {
    if ts != [] {
      CountsOfTaskDeletes(listId, ts[..|ts| - 1]);
      CountsConcat(TaskDeletes(listId, ts[..|ts| - 1]), [DeleteTask(listId, ts[|ts| - 1].id)]);
    }
  }

  /**
   * A deletion issues exactly one delete per fetched task (none when the
   * fetch failed), and one list delete exactly when every task delete
   * succeeded.
   */
  lemma DeleteListCounts(listId: Id, fetched: Outcome<seq<Task>>,
                         taskDelete: Id -> Outcome<()>, listDelete: Outcome<()>)
    ensures var trace := DeleteListTrace(listId, fetched, taskDelete, listDelete);
      CountTaskDeletes(trace) == (if fetched.Fail? then 0 else |TasksToDelete(fetched)|) &&
      CountListDeletes(trace) ==
        (if !fetched.Fail? && AllDeleted(TasksToDelete(fetched), taskDelete) then 1 else 0)
  {
    var ts := TasksToDelete(fetched);
    var deletes := if fetched.Fail? then [] else TaskDeletes(listId, ts);
    var finish :=
      if fetched.Fail? || !AllDeleted(ts, taskDelete) then []
      else if listDelete.Ok? then [DeleteList(listId), GetLists]
      else [DeleteList(listId)];
    CountsOfTaskDeletes(listId, ts);
    CountsConcat([GetTasks(listId)], deletes);
    CountsConcat([GetTasks(listId)] + deletes, finish);
    assert [GetTasks(listId)][1..] == [];
    if finish != [] {
      assert finish[1..] == [] || finish[1..] == [GetLists];
      assert [GetLists][1..] == [];
    }
  }

  /** Every task delete of a deletion is issued before its list delete. */
  lemma DeleteListOrder(listId: Id, fetched: Outcome<seq<Task>>,
                        taskDelete: Id -> Outcome<()>, listDelete: Outcome<()>, i: nat, j: nat)
    requires var trace := DeleteListTrace(listId, fetched, taskDelete, listDelete);
      i < |trace| && j < |trace| && trace[i].DeleteTask? && trace[j].DeleteList?
    ensures i < j
  {
    var ts := TasksToDelete(fetched);
    var trace := DeleteListTrace(listId, fetched, taskDelete, listDelete);
    assert !fetched.Fail?;
    assert 1 <= i < 1 + |ts|;
    assert j == 1 + |ts|;
  }

  /** A list with no tasks, or whose task fetch is a 404, is deleted with no task deletes and one list delete. */
  lemma DeleteEmptyList(listId: Id, fetched: Outcome<seq<Task>>,
                        taskDelete: Id -> Outcome<()>, listDelete: Outcome<()>)
    requires fetched == NotFound || fetched == Ok([])
    ensures DeleteListTrace(listId, fetched, taskDelete, listDelete) ==
      [GetTasks(listId), DeleteList(listId)] + if listDelete.Ok? then [GetLists] else []
    ensures DeleteListFails(fetched, taskDelete, listDelete) <==> !listDelete.Ok?
  {
    assert TaskDeletes(listId, []) == [];
  }

  /** A task fetch failing with other than a 404 aborts: nothing is deleted and the error is set. */
  lemma DeleteAbortsOnFetchFailure(listId: Id, taskDelete: Id -> Outcome<()>, listDelete: Outcome<()>)
    ensures DeleteListTrace(listId, Fail, taskDelete, listDelete) == [GetTasks(listId)]
    ensures DeleteListFails(Fail, taskDelete, listDelete)
  {
  }

  /** One failed task delete keeps the list delete from being issued, and the error is set. */
  lemma DeleteAbortsOnTaskFailure(listId: Id, ts: seq<Task>, k: nat,
                                  taskDelete: Id -> Outcome<()>, listDelete: Outcome<()>)
    requires k < |ts| && !taskDelete(ts[k].id).Ok?
    ensures DeleteListTrace(listId, Ok(ts), taskDelete, listDelete) == [GetTasks(listId)] + TaskDeletes(listId, ts)
    ensures DeleteListFails(Ok(ts), taskDelete, listDelete)
  {
    assert !AllDeleted(ts, taskDelete);
  }

  /**
   * Plans the deletion of a list: issues the requests of the deletion, given
   * the response to each, and reports whether the error ends up set.
   */
  method DeleteListPlan(listId: Id, fetched: Outcome<seq<Task>>,
                        taskDelete: Id -> Outcome<()>, listDelete: Outcome<()>)
    returns (trace: seq<Call>, failed: bool)
    ensures trace == DeleteListTrace(listId, fetched, taskDelete, listDelete)
    ensures failed == DeleteListFails(fetched, taskDelete, listDelete)
  {
    trace := [GetTasks(listId)];
    if fetched.Fail? {
      return trace, true;
    }
    var tasksToDelete := TasksToDelete(fetched);
    var allDeleted := true;
    for i := 0 to |tasksToDelete|
      invariant trace == [GetTasks(listId)] + TaskDeletes(listId, tasksToDelete[..i])
      invariant allDeleted == AllDeleted(tasksToDelete[..i], taskDelete)
    {
      assert tasksToDelete[..i + 1][..i] == tasksToDelete[..i];
      trace := trace + [DeleteTask(listId, tasksToDelete[i].id)];
      allDeleted := allDeleted && taskDelete(tasksToDelete[i].id).Ok?;
    }
    assert tasksToDelete[..|tasksToDelete|] == tasksToDelete;
    if !allDeleted {
      return trace, true;
    }
    trace := trace + [DeleteList(listId)];
    if !listDelete.Ok? {
      return trace, true;
    }
    trace := trace + [GetLists];
    failed := false;
  }

  // ---------------------------------------------------------------------
  // The component state
  // ---------------------------------------------------------------------

  class ListManager {
    var lists: seq<TaskList>
    var loading: bool
    var error: bool
    var selectedList: Option<Id>
    var isModalNewListOpen: bool

    /** What the manager shows. */
    function Screen(): Screen
      reads this
    {
      Render(loading, error)
    }

    /** A freshly mounted manager: loading, no lists, nothing expanded, the dialog closed. */
    constructor ()
      ensures lists == [] && loading && !error && selectedList == None && !isModalNewListOpen
    {
      lists := [];
      loading := true;
      error := false;
      selectedList := None;
      isModalNewListOpen := false;
    }

    /**
     * Handles the response to fetching the lists: success replaces them,
     * failure sets the error and keeps them. An earlier error is not cleared.
     */
    method FetchData(outcome: Outcome<seq<TaskList>>) returns (call: Call)
      modifies this
      ensures call == GetLists
      ensures lists == if outcome.Ok? then outcome.data else old(lists)
      ensures error == (old(error) || !outcome.Ok?)
      ensures !loading && Screen() != Spinner
      ensures selectedList == old(selectedList) && isModalNewListOpen == old(isModalNewListOpen)
    {
      call := GetLists;
      loading := true;
      if outcome.Ok? {
        lists := outcome.data;
      } else {
        error := true;
      }
      loading := false;
    }

    /** A click on a list's toggle. */
    method HandleListClick(listId: Id)
      modifies this
      ensures selectedList == NextSelection(old(selectedList), listId)
      ensures lists == old(lists) && loading == old(loading) && error == old(error)
      ensures isModalNewListOpen == old(isModalNewListOpen)
    {
      selectedList := NextSelection(selectedList, listId);
    }

    /**
     * Creates a list: on success the lists are refetched and the dialog
     * closes; on failure the error is set and the dialog stays as it was.
     */
    method AddList(title: string, created: Outcome<TaskList>, refetch: Outcome<seq<TaskList>>)
      returns (trace: seq<Call>)
      modifies this
      ensures created.Ok? ==>
        trace == [PostList(title), GetLists] &&
        lists == (if refetch.Ok? then refetch.data else old(lists)) &&
        error == (old(error) || !refetch.Ok?) && !loading && !isModalNewListOpen
      ensures !created.Ok? ==>
        trace == [PostList(title)] && lists == old(lists) && error &&
        loading == old(loading) && isModalNewListOpen == old(isModalNewListOpen)
      ensures selectedList == old(selectedList)
    {
      trace := [PostList(title)];
      if created.Ok? {
        var call := FetchData(refetch);
        trace := trace + [call];
        isModalNewListOpen := false;
      } else {
        error := true;
      }
    }

    /**
     * Deletes a list with its tasks, issuing the requests of the deletion
     * plan; any failure sets the error, and success refetches the lists.
     */
    method DeleteListWithTasks(listId: Id, fetched: Outcome<seq<Task>>, taskDelete: Id -> Outcome<()>,
                               listDelete: Outcome<()>, refetch: Outcome<seq<TaskList>>)
      returns (trace: seq<Call>)
      modifies this
      ensures trace == DeleteListTrace(listId, fetched, taskDelete, listDelete)
      ensures DeleteListFails(fetched, taskDelete, listDelete) ==>
        error && lists == old(lists) && loading == old(loading)
      ensures !DeleteListFails(fetched, taskDelete, listDelete) ==>
        lists == (if refetch.Ok? then refetch.data else old(lists)) &&
        error == (old(error) || !refetch.Ok?) && !loading
      ensures selectedList == old(selectedList) && isModalNewListOpen == old(isModalNewListOpen)
    {
      var failed;
      trace, failed := DeleteListPlan(listId, fetched, taskDelete, listDelete);
      if failed {
        error := true;
      } else {
        var call := FetchData(refetch);
      }
    }

    /** Opens the dialog for creating a list. */
    method OpenModalNewList()
      modifies this
      ensures isModalNewListOpen
      ensures lists == old(lists) && loading == old(loading) && error == old(error)
      ensures selectedList == old(selectedList)
    {
      isModalNewListOpen := true;
    }

    /** Closes the dialog for creating a list. */
    method CloseModalNewList()
      modifies this
      ensures !isModalNewListOpen
      ensures lists == old(lists) && loading == old(loading) && error == old(error)
      ensures selectedList == old(selectedList)
    {
      isModalNewListOpen := false;
    }
  }
}
