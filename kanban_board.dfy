/** The kanban board: a fixed row of three columns, each an ordered list of tasks,
    reordered by drag and drop, extended by a per-column text input and pruned by
    a delete button. */
module KanbanBoard {
  import opened Wrappers
  import opened Seqs
  import opened JsStrings

  datatype Task = Task(id: string, content: string)

  datatype Column = Column(id: string, title: string, tasks: seq<Task>)

  /** Where a drag started or ended: a column id and a position in it. */
  datatype DraggableLocation = DraggableLocation(droppableId: string, index: nat)

  /** What the drag-and-drop library reports when a drag ends; no destination
      means the dragged task was dropped outside every column. */
  datatype DropResult = DropResult(source: DraggableLocation, destination: Option<DraggableLocation>)

  function TaskId(t: Task): string
  {
    t.id
  }

  /** The board the component starts with; the five task ids stand for the
      `uuidv4()` values drawn when it is created. */
  function InitialColumns(ids: seq<string>): seq<Column>
    requires |ids| == 5
  {
    [ Column("todo", "To Do", [Task(ids[0], "Design new dashboard layout"),
                               Task(ids[1], "Implement user authentication")]),
      Column("in-progress", "In Progress", [Task(ids[2], "Develop Kanban board")]),
      Column("done", "Done", [Task(ids[3], "Set up project structure"),
                              Task(ids[4], "Configure Supabase")]) ]
  }

  /** The three columns, by id and title, in the order the board shows them. */
  predicate StandardLayout(columns: seq<Column>)
  {
    && |columns| == 3
    && columns[0].id == "todo" && columns[0].title == "To Do"
    && columns[1].id == "in-progress" && columns[1].title == "In Progress"
    && columns[2].id == "done" && columns[2].title == "Done"
  }

  /** Column ids are pairwise distinct. */
  predicate UniqueColumnIds(columns: seq<Column>)
  {
    forall i, j :: 0 <= i < j < |columns| ==> columns[i].id != columns[j].id
  }

  /** Same number of columns, with the same ids and titles in the same order. */
  predicate SameColumns(a: seq<Column>, b: seq<Column>)
  {
    && |a| == |b|
    && forall k :: 0 <= k < |a| ==> a[k].id == b[k].id && a[k].title == b[k].title
  }

  /** `columns.findIndex(col => col.id === id)`: the first column with that id, or -1. */
  function FindIndex(columns: seq<Column>, id: string): (r: int)
    ensures -1 <= r < |columns|
    ensures r == -1 <==> forall k :: 0 <= k < |columns| ==> columns[k].id != id
    ensures 0 <= r ==> columns[r].id == id && forall k :: 0 <= k < r ==> columns[k].id != id
  {
    if columns == [] then -1
    else if columns[0].id == id then 0
    else
      var r := FindIndex(columns[1..], id);
      if r < 0 then -1 else r + 1
  }

  /** All tasks of the board, column after column. */
  function AllTasks(columns: seq<Column>): seq<Task>
  {
    if columns == [] then [] else columns[0].tasks + AllTasks(columns[1..])
  }

  /** Both columns of a drop exist and the source position holds a task: the
      drag-and-drop library only reports drags of existing tasks between the
      board's own columns. */
  predicate DropInRange(columns: seq<Column>, source: DraggableLocation, destination: DraggableLocation)
  {
    var si := FindIndex(columns, source.droppableId);
    && 0 <= si
    && source.index < |columns[si].tasks|
    && 0 <= FindIndex(columns, destination.droppableId)
  }

  /** Dropped where it was picked up. */
  predicate SamePlace(source: DraggableLocation, destination: DraggableLocation)
  {
    source.droppableId == destination.droppableId && source.index == destination.index
  }

  /** The board after the dragged task at `source` is spliced out of its column and then
      spliced into the destination column at `destination.index` (after the
      removal, so within one column the index counts the shortened list). */
  function Moved(columns: seq<Column>, source: DraggableLocation, destination: DraggableLocation): seq<Column>
    requires DropInRange(columns, source, destination)
  {
    var si := FindIndex(columns, source.droppableId);
    var di := FindIndex(columns, destination.droppableId);
    var movedTask := columns[si].tasks[source.index];
    var removed := columns[si := columns[si].(tasks := RemoveAt(columns[si].tasks, source.index))];
    removed[di := removed[di].(tasks := InsertAt(removed[di].tasks, destination.index, movedTask))]
  }

  /** `columns.map(...)` in `addTask`: every column with that id gets `task` appended. */
  function AddedTo(columns: seq<Column>, columnId: string, task: Task): seq<Column>
  {
    seq(|columns|, k requires 0 <= k < |columns| =>
      if columns[k].id == columnId then columns[k].(tasks := columns[k].tasks + [task]) else columns[k])
  }

  /** `columns.map(...)` in `deleteTask`: every column with that id loses its tasks with that id. */
  function DeletedFrom(columns: seq<Column>, columnId: string, taskId: string): seq<Column>
  {
    seq(|columns|, k requires 0 <= k < |columns| =>
      if columns[k].id == columnId
      then columns[k].(tasks := RemoveWhere(columns[k].tasks, TaskId, taskId))
      else columns[k])
  }

  // ---------------------------------------------------------------------------
  // Board-wide facts

  /** The fixed layout has distinct column ids. */
  lemma StandardLayoutUnique(columns: seq<Column>)
    requires StandardLayout(columns)
    ensures UniqueColumnIds(columns)
  {
  }

  /** Replacing one column changes the board's multiset of tasks by exactly the
      difference between the old and the new column. */
  lemma {:induction false} AllTasksUpdate(columns: seq<Column>, k: nat, c: Column)
    requires k < |columns|
    ensures multiset(AllTasks(columns[k := c])) + multiset(columns[k].tasks)
         == multiset(AllTasks(columns)) + multiset(c.tasks)
  {
    var u := columns[k := c];
    assert u[0] == (if k == 0 then c else columns[0]);
    if k == 0 {
      assert u[1..] == columns[1..];
    } else {
      var tail := columns[1..];
      AllTasksUpdate(tail, k - 1, c);
      assert u[1..] == tail[k - 1 := c];
      var head, rest, rest', old', new' := multiset(columns[0].tasks), multiset(AllTasks(tail)),
        multiset(AllTasks(tail[k - 1 := c])), multiset(columns[k].tasks), multiset(c.tasks);
      assert rest' + old' == rest + new';
      assert multiset(AllTasks(u)) == head + rest';
      assert multiset(AllTasks(columns)) == head + rest;
      assert (head + rest') + old' == head + (rest' + old');
    }
  }

  /** Adding the same multiset on both sides can be undone. */
  lemma MultisetCancel<T>(a: multiset<T>, b: multiset<T>, c: multiset<T>)
    requires a + c == b + c
    ensures a == b
  {
    assert forall x :: a[x] == (a + c)[x] - c[x];
  }

  // ---------------------------------------------------------------------------
  // Drag and drop

  /** A move keeps the number, ids, titles and order of the columns. */
  lemma MoveKeepsColumns(columns: seq<Column>, source: DraggableLocation, destination: DraggableLocation)
    requires DropInRange(columns, source, destination)
    ensures SameColumns(Moved(columns, source, destination), columns)
  {
  }

  /** A move neither creates nor loses a task: the board holds the same multiset
      of tasks, so also the same number of tasks. */
  lemma MovePreservesTasks(columns: seq<Column>, source: DraggableLocation, destination: DraggableLocation)
    requires DropInRange(columns, source, destination)
    ensures multiset(AllTasks(Moved(columns, source, destination))) == multiset(AllTasks(columns))
    ensures |AllTasks(Moved(columns, source, destination))| == |AllTasks(columns)|
  {
    var si := FindIndex(columns, source.droppableId);
    var di := FindIndex(columns, destination.droppableId);
    var movedTask := columns[si].tasks[source.index];
    var shortened := RemoveAt(columns[si].tasks, source.index);
    var removed := columns[si := columns[si].(tasks := shortened)];
    var lengthened := InsertAt(removed[di].tasks, destination.index, movedTask);
    var result := removed[di := removed[di].(tasks := lengthened)];
    assert result == Moved(columns, source, destination);
    var m0, m1, m2 := multiset(AllTasks(columns)), multiset(AllTasks(removed)), multiset(AllTasks(result));
    // taking the dragged task out of its column
    RemoveAtMultiset(columns[si].tasks, source.index);
    AllTasksUpdate(columns, si, columns[si].(tasks := shortened));
    assert (m1 + multiset{movedTask}) + multiset(shortened) == m0 + multiset(shortened);
    MultisetCancel(m1 + multiset{movedTask}, m0, multiset(shortened));
    // putting it into the destination column
    InsertAtMultiset(removed[di].tasks, destination.index, movedTask);
    AllTasksUpdate(removed, di, removed[di].(tasks := lengthened));
    assert m2 + multiset(removed[di].tasks) == (m1 + multiset{movedTask}) + multiset(removed[di].tasks);
    MultisetCancel(m2, m1 + multiset{movedTask}, multiset(removed[di].tasks));
    assert |AllTasks(result)| == |m2| == |m0| == |AllTasks(columns)|;
  }

  /** The dragged task lands at `destination.index` of the destination column,
      provided that index is at most the column's length after the removal (so
      dropping at the very end is allowed). */
  lemma MovePlacesTask(columns: seq<Column>, source: DraggableLocation, destination: DraggableLocation)
    requires DropInRange(columns, source, destination)
    requires var di := FindIndex(columns, destination.droppableId);
      destination.index <= |columns[di].tasks| - (if source.droppableId == destination.droppableId then 1 else 0)
    ensures var si := FindIndex(columns, source.droppableId);
      var di := FindIndex(columns, destination.droppableId);
      var r := Moved(columns, source, destination);
      destination.index < |r[di].tasks| && r[di].tasks[destination.index] == columns[si].tasks[source.index]
  {
    var si := FindIndex(columns, source.droppableId);
    var di := FindIndex(columns, destination.droppableId);
    var removed := columns[si := columns[si].(tasks := RemoveAt(columns[si].tasks, source.index))];
    InsertAtThenRemove(removed[di].tasks, destination.index, columns[si].tasks[source.index]);
  }

  /** Between two columns: the source loses exactly the dragged task, the
      destination gains exactly it (taking it out again gives the old column), and
      every other column is untouched, so all other tasks keep their relative order. */
  lemma MoveAcrossColumns(columns: seq<Column>, source: DraggableLocation, destination: DraggableLocation)
    requires DropInRange(columns, source, destination)
    requires source.droppableId != destination.droppableId
    ensures var si := FindIndex(columns, source.droppableId);
      var di := FindIndex(columns, destination.droppableId);
      var r := Moved(columns, source, destination);
      && si != di
      && r[si].tasks == RemoveAt(columns[si].tasks, source.index)
      && |r[si].tasks| == |columns[si].tasks| - 1
      && |r[di].tasks| == |columns[di].tasks| + 1
      && RemoveAt(r[di].tasks, ClampIndex(columns[di].tasks, destination.index)) == columns[di].tasks
      && forall k :: 0 <= k < |columns| && k != si && k != di ==> r[k] == columns[k]
  {
    var si := FindIndex(columns, source.droppableId);
    var di := FindIndex(columns, destination.droppableId);
    InsertAtThenRemove(columns[di].tasks, destination.index, columns[si].tasks[source.index]);
  }

  /** Within one column: the column keeps its length, taking the dragged task out
      at its new place gives the column without it at its old place, and every
      other column is untouched. */
  lemma MoveWithinColumn(columns: seq<Column>, source: DraggableLocation, destination: DraggableLocation)
    requires DropInRange(columns, source, destination)
    requires source.droppableId == destination.droppableId
    ensures var si := FindIndex(columns, source.droppableId);
      var shortened := RemoveAt(columns[si].tasks, source.index);
      var r := Moved(columns, source, destination);
      && |r[si].tasks| == |columns[si].tasks|
      && RemoveAt(r[si].tasks, ClampIndex(shortened, destination.index)) == shortened
      && forall k :: 0 <= k < |columns| && k != si ==> r[k] == columns[k]
  {
    var si := FindIndex(columns, source.droppableId);
    var shortened := RemoveAt(columns[si].tasks, source.index);
    InsertAtThenRemove(shortened, destination.index, columns[si].tasks[source.index]);
  }

  // ---------------------------------------------------------------------------
  // Adding a task

  /** Appending keeps the columns' ids and titles. */
  lemma AddKeepsColumns(columns: seq<Column>, columnId: string, task: Task)
    ensures SameColumns(AddedTo(columns, columnId, task), columns)
  {
  }

  /** With distinct column ids, adding to an existing column appends exactly one
      task at its end, leaves the other columns alone, and adds exactly that task
      to the board. */
  lemma AddAppendsOne(columns: seq<Column>, columnId: string, task: Task)
    requires UniqueColumnIds(columns)
    requires 0 <= FindIndex(columns, columnId)
    ensures var k := FindIndex(columns, columnId);
      var r := AddedTo(columns, columnId, task);
      && r[k].tasks == columns[k].tasks + [task]
      && r[k].tasks[|r[k].tasks| - 1] == task
      && (forall j :: 0 <= j < |columns| && j != k ==> r[j] == columns[j])
      && multiset(AllTasks(r)) == multiset(AllTasks(columns)) + multiset{task}
      && |AllTasks(r)| == |AllTasks(columns)| + 1
  {
    var k := FindIndex(columns, columnId);
    var c := columns[k].(tasks := columns[k].tasks + [task]);
    var r := AddedTo(columns, columnId, task);
    forall j | 0 <= j < |columns| && j != k ensures r[j] == columns[j] {
      assert columns[j].id != columns[k].id;
    }
    assert r == columns[k := c];
    AllTasksUpdate(columns, k, c);
    assert multiset(c.tasks) == multiset(columns[k].tasks) + multiset{task};
    MultisetCancel(multiset(AllTasks(r)), multiset(AllTasks(columns)) + multiset{task}, multiset(columns[k].tasks));
  }

  /** Adding to an id no column has changes nothing. */
  lemma AddToMissingColumn(columns: seq<Column>, columnId: string, task: Task)
    requires FindIndex(columns, columnId) == -1
    ensures AddedTo(columns, columnId, task) == columns
  {
  }

  // ---------------------------------------------------------------------------
  // Deleting a task

  /** Deleting keeps the columns' ids and titles and touches only the named
      column, where no task with that id is left, every other task stays as often
      as before, and the kept tasks keep their order. */
  lemma DeleteFromColumn(columns: seq<Column>, columnId: string, taskId: string)
    ensures var r := DeletedFrom(columns, columnId, taskId);
      && SameColumns(r, columns)
      && forall k :: 0 <= k < |columns| ==>
           if columns[k].id == columnId then
             && (forall t :: t in r[k].tasks ==> t.id != taskId)
             && (forall t: Task :: t.id != taskId ==> multiset(r[k].tasks)[t] == multiset(columns[k].tasks)[t])
             && IsSubsequence(r[k].tasks, columns[k].tasks)
           else r[k] == columns[k]
  {
    var r := DeletedFrom(columns, columnId, taskId);
    forall k | 0 <= k < |columns| && columns[k].id == columnId
      ensures forall t :: t in r[k].tasks ==> t.id != taskId
      ensures forall t: Task :: t.id != taskId ==> multiset(r[k].tasks)[t] == multiset(columns[k].tasks)[t]
      ensures IsSubsequence(r[k].tasks, columns[k].tasks)
    {
      RemoveWhereContents(columns[k].tasks, TaskId, taskId);
      RemoveWhereSubsequence(columns[k].tasks, TaskId, taskId);
      forall t | t in r[k].tasks ensures t.id != taskId {
        assert multiset(r[k].tasks)[t] > 0;
      }
    }
  }

  /** Deleting an id the column does not hold changes nothing. */
  lemma DeleteAbsentIsNoop(columns: seq<Column>, columnId: string, taskId: string)
    requires forall k, t :: 0 <= k < |columns| && columns[k].id == columnId && t in columns[k].tasks ==> t.id != taskId
    ensures DeletedFrom(columns, columnId, taskId) == columns
  {
    forall k | 0 <= k < |columns| && columns[k].id == columnId
      ensures RemoveWhere(columns[k].tasks, TaskId, taskId) == columns[k].tasks
    {
      RemoveWhereUnchangedIff(columns[k].tasks, TaskId, taskId);
    }
  }

  /** With distinct column ids, deleting a task id that occurs once in its column,
      at position `i`, removes exactly that task: the column shrinks by one. */
  lemma DeleteRemovesExactlyOne(columns: seq<Column>, columnId: string, taskId: string, i: nat)
    requires UniqueColumnIds(columns)
    requires 0 <= FindIndex(columns, columnId)
    requires var k := FindIndex(columns, columnId);
      && i < |columns[k].tasks| && columns[k].tasks[i].id == taskId
      && forall j :: 0 <= j < |columns[k].tasks| && j != i ==> columns[k].tasks[j].id != taskId
    ensures var k := FindIndex(columns, columnId);
      var r := DeletedFrom(columns, columnId, taskId);
      && r[k].tasks == RemoveAt(columns[k].tasks, i)
      && |r[k].tasks| == |columns[k].tasks| - 1
      && |AllTasks(r)| == |AllTasks(columns)| - 1
  {
    var k := FindIndex(columns, columnId);
    RemoveWhereSingle(columns[k].tasks, TaskId, taskId, i);
    var c := columns[k].(tasks := RemoveAt(columns[k].tasks, i));
    var r := DeletedFrom(columns, columnId, taskId);
    forall j | 0 <= j < |columns| && j != k ensures r[j] == columns[j] {
      assert columns[j].id != columns[k].id;
    }
    assert r == columns[k := c];
    AllTasksUpdate(columns, k, c);
    RemoveAtMultiset(columns[k].tasks, i);
    var m, m' := multiset(AllTasks(columns)), multiset(AllTasks(r));
    assert m' + multiset(c.tasks) + multiset{columns[k].tasks[i]} == m + multiset(c.tasks);
    MultisetCancel(m' + multiset{columns[k].tasks[i]}, m, multiset(c.tasks));
  }

  // ---------------------------------------------------------------------------
  // The component's state

  /** The board component: its `columns` and its per-column `newTaskInput`. */
  class Board {
    var columns: seq<Column>
    var newTaskInput: map<string, string>

    /** The three columns stay in place, and every column has an input entry. */
    ghost predicate Valid()
      reads this
    {
      StandardLayout(columns) && newTaskInput.Keys == {"todo", "in-progress", "done"}
    }

    constructor (taskIds: seq<string>)
      requires |taskIds| == 5
      ensures Valid()
      ensures columns == InitialColumns(taskIds)
      ensures newTaskInput == map["todo" := "", "in-progress" := "", "done" := ""]
    {
      columns := InitialColumns(taskIds);
      newTaskInput := map["todo" := "", "in-progress" := "", "done" := ""];
    }

    /** Typing into a column's input field. */
    method SetTaskInput(columnId: string, text: string)
      requires Valid() && columnId in newTaskInput
      modifies this
      ensures Valid()
      ensures newTaskInput == old(newTaskInput)[columnId := text] && columns == old(columns)
    {
      newTaskInput := newTaskInput[columnId := text];
    }

    /** `onDragEnd`: cancelled drops and drops onto the starting place change
        nothing; any other drop splices the dragged task out of its column and into the
        destination column. */
    method OnDragEnd(result: DropResult)
      requires Valid()
      requires result.destination.Some? && !SamePlace(result.source, result.destination.value)
               ==> DropInRange(columns, result.source, result.destination.value)
      modifies this
      ensures Valid() && newTaskInput == old(newTaskInput)
      ensures result.destination.None? ==> columns == old(columns)
      ensures result.destination.Some? && SamePlace(result.source, result.destination.value)
              ==> columns == old(columns)
      ensures result.destination.Some? && !SamePlace(result.source, result.destination.value)
              ==> columns == Moved(old(columns), result.source, result.destination.value)
      ensures multiset(AllTasks(columns)) == multiset(AllTasks(old(columns)))
    {
      if result.destination.None? {
        return;
      }
      var source, destination := result.source, result.destination.value;
      if source.droppableId == destination.droppableId && source.index == destination.index {
        return;
      }
      MoveKeepsColumns(columns, source, destination);
      MovePreservesTasks(columns, source, destination);
      var newColumns := columns;
      var sourceColumnIndex := FindIndex(newColumns, source.droppableId);
      var destColumnIndex := FindIndex(newColumns, destination.droppableId);
      var movedTask := newColumns[sourceColumnIndex].tasks[source.index];
      newColumns := newColumns[sourceColumnIndex :=
        newColumns[sourceColumnIndex].(tasks := RemoveAt(newColumns[sourceColumnIndex].tasks, source.index))];
      newColumns := newColumns[destColumnIndex :=
        newColumns[destColumnIndex].(tasks := InsertAt(newColumns[destColumnIndex].tasks, destination.index, movedTask))];
      columns := newColumns;
    }

    /** `addTask`: blank input (after trimming) changes nothing; otherwise the
        trimmed text becomes a new task, with the fresh id standing for
        `uuidv4()`, at the end of the column, and the column's input is cleared. */
    method AddTask(columnId: string, freshId: string)
      requires Valid() && columnId in newTaskInput
      modifies this
      ensures Valid()
      ensures Trim(old(newTaskInput)[columnId]) == []
              ==> columns == old(columns) && newTaskInput == old(newTaskInput)
      ensures Trim(old(newTaskInput)[columnId]) != []
              ==> && columns == AddedTo(old(columns), columnId, Task(freshId, Trim(old(newTaskInput)[columnId])))
                  && newTaskInput == old(newTaskInput)[columnId := ""]
      ensures Trim(old(newTaskInput)[columnId]) != []
              ==> var k := FindIndex(columns, columnId);
                  && 0 <= k
                  && columns[k].tasks == old(columns)[k].tasks + [Task(freshId, Trim(old(newTaskInput)[columnId]))]
                  && (forall j :: 0 <= j < |columns| && j != k ==> columns[j] == old(columns)[j])
                  && multiset(AllTasks(columns))
                     == multiset(AllTasks(old(columns))) + multiset{Task(freshId, Trim(old(newTaskInput)[columnId]))}
    {
      var taskContent := Trim(newTaskInput[columnId]);
      if taskContent == [] {
        return;
      }
      StandardLayoutUnique(columns);
      assert columns[FindIndex(columns, columnId)].id == columnId;
      AddKeepsColumns(columns, columnId, Task(freshId, taskContent));
      AddAppendsOne(columns, columnId, Task(freshId, taskContent));
      columns := AddedTo(columns, columnId, Task(freshId, taskContent));
      newTaskInput := newTaskInput[columnId := ""];
    }

    /** `deleteTask`: drops the column's tasks with that id. */
    method DeleteTask(columnId: string, taskId: string)
      requires Valid()
      modifies this
      ensures Valid() && newTaskInput == old(newTaskInput)
      ensures columns == DeletedFrom(old(columns), columnId, taskId)
    {
      var newColumns := DeletedFrom(columns, columnId, taskId);
      DeleteFromColumn(columns, columnId, taskId);
      columns := newColumns;
    }
  }
}
