/**
 * The view model: the list of items on the canvas, the one-shot lock on loading from the
 * database, and the database writes, which are kept as a log of abstract calls.
 */
module TaskViewModels {
  import opened Wrappers
  import opened Tasks
  import opened TaskGroups
  import opened TaskItems

  /** A write the view model asks the database helper to perform. */
  datatype DatabaseCall = AddNewTask(task: Task) | UpdateTask(task: Task)

  datatype TaskViewModel = TaskViewModel(taskItems: seq<TaskItem>, addTasksLocked: bool, databaseCalls: seq<DatabaseCall>)

  /** A freshly constructed view model: no items, not yet loaded. */
  const Initial := TaskViewModel([], false, [])

  const DownloadTwiceMessage := "Downloading from the database should occur only once"

  predicate IsTaskWithId(item: TaskItem, id: int)
  {
    item.Single? && item.task.id == id
  }

  /** The first loose task with the id; groups and their members are skipped. */
  function FindTask(items: seq<TaskItem>, id: int): (r: Option<Task>)
    ensures r.None? <==> forall i :: 0 <= i < |items| ==> !IsTaskWithId(items[i], id)
    ensures r.Some? ==> r.value.id == id
    ensures r.Some? ==>
      exists i :: 0 <= i < |items| && items[i] == Single(r.value) && forall j :: 0 <= j < i ==> !IsTaskWithId(items[j], id)
  {
    if |items| == 0 then None
    else if IsTaskWithId(items[0], id) then Some(items[0].task)
    else
      var r := FindTask(items[1..], id);
      if r.Some? then
        var i :| 0 <= i < |items[1..]| && items[1..][i] == Single(r.value)
                 && forall j :: 0 <= j < i ==> !IsTaskWithId(items[1..][j], id);
        assert items[i + 1] == Single(r.value);
        r
      else r
  }

  /** Searching a concatenation searches the first part, then the second. */
  lemma {:induction false} FindTaskAppend(a: seq<TaskItem>, b: seq<TaskItem>, id: int)
    ensures FindTask(a + b, id) == if FindTask(a, id).Some? then FindTask(a, id) else FindTask(b, id)
  {
    if |a| > 0 {
      assert (a + b)[0] == a[0] && (a + b)[1..] == a[1..] + b;
      FindTaskAppend(a[1..], b, id);
    } else {
      assert a + b == b;
    }
  }

  /** `getTask`. */
  function GetTask(vm: TaskViewModel, id: int): (r: Option<Task>)
    ensures r.Some? ==> r.value.id == id && Single(r.value) in vm.taskItems
    ensures r.None? <==> forall i :: 0 <= i < |vm.taskItems| ==> !IsTaskWithId(vm.taskItems[i], id)
  {
    FindTask(vm.taskItems, id)
  }

  /** `addNewTaskItem`: appends the item; only a loose task is written to the database. */
  function AddNewTaskItem(vm: TaskViewModel, item: TaskItem): (r: TaskViewModel)
    ensures r.taskItems == vm.taskItems + [item]
    ensures r.addTasksLocked == vm.addTasksLocked
    ensures item.Single? ==> r.databaseCalls == vm.databaseCalls + [AddNewTask(item.task)]
    ensures item.Group? ==> r.databaseCalls == vm.databaseCalls
  {
    vm.(taskItems := vm.taskItems + [item],
        databaseCalls := vm.databaseCalls + if item.Single? then [AddNewTask(item.task)] else [])
  }

  /** After adding a task, looking up its id finds it unless an earlier task already has that id. */
  lemma GetTaskAfterAdd(vm: TaskViewModel, item: TaskItem, id: int)
    ensures GetTask(AddNewTaskItem(vm, item), id)
         == if GetTask(vm, id).Some? then GetTask(vm, id)
            else if IsTaskWithId(item, id) then Some(item.task) else None
  {
    FindTaskAppend(vm.taskItems, [item], id);
    assert FindTask([item], id) == if IsTaskWithId(item, id) then Some(item.task) else FindTask([], id);
  }

  /**
   * `downloadIncompleteTasks`: `stored` stands for what the database returns for the
   * incomplete tasks. The first call appends them and locks; any later call fails.
   */
  function DownloadIncompleteTasks(vm: TaskViewModel, stored: seq<Task>): (r: Result<TaskViewModel, Exception>)
    ensures r.Success? <==> !vm.addTasksLocked
    ensures r.Success? ==> r.value == vm.(taskItems := vm.taskItems + Singles(stored), addTasksLocked := true)
    ensures r.Failure? ==> r.error == IllegalState(DownloadTwiceMessage)
  {
    if !vm.addTasksLocked then
      Success(vm.(taskItems := vm.taskItems + Singles(stored), addTasksLocked := true))
    else
      Failure(IllegalState(DownloadTwiceMessage))
  }

  /** Loading happens at most once, whatever the database returns the second time. */
  lemma DownloadOnlyOnce(vm: TaskViewModel, first: seq<Task>, second: seq<Task>)
    requires DownloadIncompleteTasks(vm, first).Success?
    ensures DownloadIncompleteTasks(DownloadIncompleteTasks(vm, first).value, second).Failure?
  {
  }

  /** Loading keeps the earlier items and adds exactly the stored tasks. */
  lemma DownloadAddsStored(vm: TaskViewModel, stored: seq<Task>)
    requires !vm.addTasksLocked
    ensures var r := DownloadIncompleteTasks(vm, stored).value;
      && AllTasks(r.taskItems) == AllTasks(vm.taskItems) + stored
      && r.databaseCalls == vm.databaseCalls
  {
    AllTasksAppend(vm.taskItems, Singles(stored));
    SinglesFlatten(stored);
  }

  /** `updateTask`: only the database is written; the item list is left as it is. */
  function UpdateTaskInDatabase(vm: TaskViewModel, t: Task): (r: TaskViewModel)
    ensures r.taskItems == vm.taskItems && r.addTasksLocked == vm.addTasksLocked
    ensures r.databaseCalls == vm.databaseCalls + [UpdateTask(t)]
  {
    vm.(databaseCalls := vm.databaseCalls + [UpdateTask(t)])
  }

  predicate NoGroups(items: seq<TaskItem>)
  {
    forall i :: 0 <= i < |items| ==> items[i].Single?
  }

  /** The items that are not groups, in order. */
  function Ungrouped(items: seq<TaskItem>): (r: seq<TaskItem>)
    ensures NoGroups(r) && |r| <= |items|
    ensures forall item :: item in r ==> item in items
  {
    if |items| == 0 then []
    else
      var last := items[|items| - 1];
      Ungrouped(items[..|items| - 1]) + if last.Group? then [] else [last]
  }

  /** The members of every group, group by group. */
  function GroupMembers(items: seq<TaskItem>): seq<Task>
  {
    if |items| == 0 then []
    else
      var last := items[|items| - 1];
      GroupMembers(items[..|items| - 1]) + if last.Group? then last.group.tasks else []
  }

  /** What `deGroupTasks` leaves: the loose items in order, then every group's members as loose tasks. */
  function DeGrouped(items: seq<TaskItem>): seq<TaskItem>
  {
    Ungrouped(items) + Singles(GroupMembers(items))
  }

  /** `removeAll`: drops every group that is among `groups`. */
  function RemoveGroups(items: seq<TaskItem>, groups: seq<TaskGroup>): seq<TaskItem>
  {
    if |items| == 0 then []
    else
      var last := items[|items| - 1];
      RemoveGroups(items[..|items| - 1], groups) + if last.Group? && last.group in groups then [] else [last]
  }

  /**
   * `deGroupTasks`: collects every group and its members, appends the members as loose tasks,
   * then removes the collected groups.
   */
  method DeGroupTasks(vm: TaskViewModel) returns (r: TaskViewModel)
    ensures r == vm.(taskItems := DeGrouped(vm.taskItems))
    ensures NoGroups(r.taskItems)
  {
    var items := vm.taskItems;
    var groups: seq<TaskGroup> := [];
    var tasks: seq<Task> := [];
    var i := 0;
    while i < |items|
      invariant 0 <= i <= |items|
      invariant tasks == GroupMembers(items[..i])
      invariant forall j :: 0 <= j < i && items[j].Group? ==> items[j].group in groups
    {
      assert items[..i + 1][..i] == items[..i];
      if items[i].Group? {
        tasks := tasks + items[i].group.tasks;
        groups := groups + [items[i].group];
      }
      i := i + 1;
    }
    assert items[..i] == items;
    var all := items + Singles(tasks);
    var kept: seq<TaskItem> := [];
    var k := 0;
    while k < |all|
      invariant 0 <= k <= |all|
      invariant kept == RemoveGroups(all[..k], groups)
    {
      assert all[..k + 1][..k] == all[..k];
      if !(all[k].Group? && all[k].group in groups) {
        kept := kept + [all[k]];
      }
      k := k + 1;
    }
    assert all[..k] == all;
    RemoveCollectedGroups(items, Singles(tasks), groups);
    r := vm.(taskItems := kept);
    DeGroupedHasNoGroups(items);
  }

  /** Removing groups that include every group of `items` from `items + loose` leaves the loose items. */
  lemma {:induction false} RemoveCollectedGroups(items: seq<TaskItem>, loose: seq<TaskItem>, groups: seq<TaskGroup>)
    requires forall j :: 0 <= j < |items| && items[j].Group? ==> items[j].group in groups
    requires NoGroups(loose)
    ensures RemoveGroups(items + loose, groups) == Ungrouped(items) + loose
    decreases |loose|, |items|
  {
    if |loose| > 0 {
      var init := loose[..|loose| - 1];
      assert (items + loose)[..|items + loose| - 1] == items + init;
      RemoveCollectedGroups(items, init, groups);
      assert loose == init + [loose[|loose| - 1]];
    } else if |items| > 0 {
      assert items + loose == items;
      var init := items[..|items| - 1];
      assert init + loose == init;
      RemoveCollectedGroups(init, loose, groups);
    } else {
      assert items + loose == [];
    }
  }

  lemma DeGroupedHasNoGroups(items: seq<TaskItem>)
    ensures NoGroups(DeGrouped(items))
  {
  }

  /** De-grouping keeps every task: the loose tasks and all group members, each exactly once. */
  lemma {:induction false} DeGroupKeepsTasks(items: seq<TaskItem>)
    ensures multiset(AllTasks(DeGrouped(items))) == multiset(AllTasks(items))
    ensures |AllTasks(DeGrouped(items))| == |AllTasks(items)|
  {
    UngroupedAndMembers(items);
    AllTasksAppend(Ungrouped(items), Singles(GroupMembers(items)));
    SinglesFlatten(GroupMembers(items));
    assert |multiset(AllTasks(DeGrouped(items)))| == |multiset(AllTasks(items))|;
  }

  /** The loose tasks and the group members together are the tasks of the items. */
  lemma {:induction false} UngroupedAndMembers(items: seq<TaskItem>)
    ensures multiset(AllTasks(Ungrouped(items))) + multiset(GroupMembers(items)) == multiset(AllTasks(items))
  {
    if |items| > 0 {
      var init := items[..|items| - 1];
      var last := items[|items| - 1];
      assert items == init + [last];
      UngroupedAndMembers(init);
      AllTasksAppend(init, [last]);
      assert AllTasks([last]) == TasksOf(last) + AllTasks([]);
      var tail := if last.Group? then [] else [last];
      AllTasksAppend(Ungrouped(init), tail);
      assert AllTasks(tail) == if last.Group? then [] else [last.task];
    }
  }

  /** A list without groups is left as it is, so de-grouping twice changes nothing more. */
  lemma {:induction false} DeGroupWithoutGroups(items: seq<TaskItem>)
    requires NoGroups(items)
    ensures DeGrouped(items) == items
  {
    NoGroupsFixed(items);
    assert Singles([]) == [];
  }

  lemma {:induction false} NoGroupsFixed(items: seq<TaskItem>)
    requires NoGroups(items)
    ensures Ungrouped(items) == items && GroupMembers(items) == []
  {
    if |items| > 0 {
      var init := items[..|items| - 1];
      NoGroupsFixed(init);
      assert items == init + [items[|items| - 1]];
    }
  }

  lemma DeGroupIdempotent(items: seq<TaskItem>)
    ensures DeGrouped(DeGrouped(items)) == DeGrouped(items)
  {
    DeGroupedHasNoGroups(items);
    DeGroupWithoutGroups(DeGrouped(items));
  }
}
