/** A task or a group, shown on the canvas as one marker. */
module TaskItems {
  import opened Tasks
  import opened TaskGroups

  datatype TaskItem = Single(task: Task) | Group(group: TaskGroup)

  /** The tasks an item stands for. */
  function TasksOf(item: TaskItem): seq<Task>
  {
    match item
    case Single(t) => [t]
    case Group(g) => g.tasks
  }

  /** All tasks the items stand for, in item order. */
  function AllTasks(items: seq<TaskItem>): seq<Task>
  {
    if |items| == 0 then [] else TasksOf(items[0]) + AllTasks(items[1..])
  }

  lemma {:induction false} AllTasksAppend(a: seq<TaskItem>, b: seq<TaskItem>)
    ensures AllTasks(a + b) == AllTasks(a) + AllTasks(b)
  {
    if |a| == 0 {
      assert a + b == b;
    } else {
      assert (a + b)[1..] == a[1..] + b;
      AllTasksAppend(a[1..], b);
    }
  }

  /** `addTaskItem`: a task is added as is, a group is flattened into its member tasks. */
  function AddTaskItem(g: TaskGroup, item: TaskItem): (r: TaskGroup)
    ensures |r.tasks| == |g.tasks| + |TasksOf(item)|
    ensures multiset(r.tasks) == multiset(g.tasks) + multiset(TasksOf(item))
    ensures |TasksOf(item)| > 0 ==> Consistent(r)
    ensures |TasksOf(item)| == 0 ==> r == g
    ensures r.forceCombining == g.forceCombining
  {
    match item
    case Single(t) => AddTask(g, t)
    case Group(other) => AddTaskGroup(g, other)
  }

  /** Adds each item in turn, as both `TaskGroup` constructors do. */
  function AddTaskItems(g: TaskGroup, items: seq<TaskItem>): (r: TaskGroup)
    ensures |r.tasks| == |g.tasks| + |AllTasks(items)|
    ensures multiset(r.tasks) == multiset(g.tasks) + multiset(AllTasks(items))
    ensures |AllTasks(items)| > 0 ==> Consistent(r)
    ensures |AllTasks(items)| == 0 ==> r == g
    ensures r.forceCombining == g.forceCombining
    decreases |items|
  {
    if |items| == 0 then g
    else
      var first := TasksOf(items[0]);
      var later := AllTasks(items[1..]);
      assert AllTasks(items) == first + later;
      assert multiset(AllTasks(items)) == multiset(first) + multiset(later);
      var g1 := AddTaskItem(g, items[0]);
      AddTaskItems(g1, items[1..])
  }

  /** The `TaskGroup(TaskItem...)` and `TaskGroup(ArrayList<TaskItem>)` constructors. */
  function NewGroup(items: seq<TaskItem>): (r: TaskGroup)
    ensures |r.tasks| == |AllTasks(items)|
    ensures multiset(r.tasks) == multiset(AllTasks(items))
    ensures |AllTasks(items)| > 0 ==> Consistent(r)
    ensures !r.forceCombining
  {
    AddTaskItems(EmptyGroup, items)
  }

  /** Adding items is stable: members of equal importance end up in the order they were added. */
  lemma {:induction false} AddTaskItemsStable(g: TaskGroup, items: seq<TaskItem>, v: int)
    ensures WithImportance(AddTaskItems(g, items).tasks, v) == WithImportance(g.tasks + AllTasks(items), v)
    decreases |items|
  {
    if |items| == 0 {
      assert g.tasks + AllTasks(items) == g.tasks;
    } else {
      var g1, rest := AddTaskItem(g, items[0]), items[1..];
      AddTaskItemsStable(g1, rest, v);
      AddTaskItemStable(g, items[0], v);
      assert AllTasks(items) == TasksOf(items[0]) + AllTasks(rest);
      StableChain(AddTaskItems(g1, rest).tasks, g.tasks, g1.tasks, TasksOf(items[0]), AllTasks(rest),
                  AllTasks(items), v);
    }
  }

  lemma AddTaskItemStable(g: TaskGroup, item: TaskItem, v: int)
    ensures WithImportance(AddTaskItem(g, item).tasks, v) == WithImportance(g.tasks, v) + WithImportance(TasksOf(item), v)
  {
    match item
    case Single(t) =>
      AddTaskStable(g, t, v);
    case Group(other) =>
      AddTasksStable(g, other.tasks, v);
      WithImportanceAppend(g.tasks, other.tasks, v);
  }

  /** Loose tasks as items. */
  function Singles(ts: seq<Task>): seq<TaskItem>
  {
    seq(|ts|, i requires 0 <= i < |ts| => Single(ts[i]))
  }

  /**
   * A group built from k loose tasks has exactly those k tasks as members, sorted by descending
   * importance with ties in the order given.
   */
  lemma NewGroupOfTasks(ts: seq<Task>, v: int)
    requires |ts| > 0
    ensures var g := NewGroup(Singles(ts));
      && Consistent(g)
      && |g.tasks| == |ts|
      && multiset(g.tasks) == multiset(ts)
      && WithImportance(g.tasks, v) == WithImportance(ts, v)
  {
    SinglesFlatten(ts);
    AddTaskItemsStable(EmptyGroup, Singles(ts), v);
    assert EmptyGroup.tasks + AllTasks(Singles(ts)) == ts;
  }

  /** Flattening loose tasks gives the tasks back. */
  lemma {:induction false} SinglesFlatten(ts: seq<Task>)
    ensures AllTasks(Singles(ts)) == ts
  {
    if |ts| > 0 {
      SinglesFlatten(ts[1..]);
      assert Singles(ts)[1..] == Singles(ts[1..]);
      assert ts == [ts[0]] + ts[1..];
    }
  }
}
