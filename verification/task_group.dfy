/**
 * A group of tasks drawn as one marker. Every addition flattens to member tasks and then
 * recomputes the truncated averages, the stable descending-importance order and the label.
 */
module TaskGroups {
  import opened Wrappers
  import opened Numerics
  import opened Tasks
  import opened TaskGraphics
  import opened Sequences

  /** Groups larger than this are never nudged apart. */
  const MaxNudges := 3

  /**
   * `labelText` is `None` (Java `null`) until the first task is added; the averages of an empty
   * group are Java's default of zero.
   */
  datatype TaskGroup = TaskGroup(tasks: seq<Task>, labelText: Option<string>,
                                 averageImportance: int, averageUrgency: int,
                                 forceCombining: bool, graphic: Option<TaskGraphic>)

  /** The group made by a constructor before any item is added. */
  const EmptyGroup := TaskGroup([], None, 0, 0, false, None)

  datatype Rating = Importance | Urgency

  function RatingOf(t: Task, k: Rating): int
  {
    match k
    case Importance => t.importance
    case Urgency => t.urgency
  }

  function RatingSum(s: seq<Task>, k: Rating): int
  {
    if |s| == 0 then 0 else RatingOf(s[0], k) + RatingSum(s[1..], k)
  }

  lemma {:induction false} RatingSumAppend(a: seq<Task>, b: seq<Task>, k: Rating)
    ensures RatingSum(a + b, k) == RatingSum(a, k) + RatingSum(b, k)
  {
    if |a| == 0 {
      assert a + b == b;
    } else {
      assert (a + b)[1..] == a[1..] + b;
      RatingSumAppend(a[1..], b, k);
    }
  }

  /** If every member's rating lies in [lo, hi], the sum lies in [n * lo, n * hi]. */
  lemma {:induction false} RatingSumBounds(s: seq<Task>, k: Rating, lo: int, hi: int)
    requires forall i :: 0 <= i < |s| ==> lo <= RatingOf(s[i], k) <= hi
    ensures |s| * lo <= RatingSum(s, k) <= |s| * hi
  {
    if |s| > 0 {
      RatingSumBounds(s[1..], k, lo, hi);
      assert |s| * lo == lo + (|s| - 1) * lo;
      assert |s| * hi == hi + (|s| - 1) * hi;
    }
  }

  /** Non-increasing importance from front to back. */
  predicate SortedByImportance(s: seq<Task>)
  {
    forall i, j :: 0 <= i < j < |s| ==> s[i].importance >= s[j].importance
  }

  /** The members of importance `v`, in order: a stable sort leaves this unchanged for every `v`. */
  function WithImportance(s: seq<Task>, v: int): seq<Task>
  {
    if |s| == 0 then [] else (if s[0].importance == v then [s[0]] else []) + WithImportance(s[1..], v)
  }

  lemma {:induction false} WithImportanceAppend(a: seq<Task>, b: seq<Task>, v: int)
    ensures WithImportance(a + b, v) == WithImportance(a, v) + WithImportance(b, v)
  {
    if |a| == 0 {
      assert a + b == b;
    } else {
      var head := if a[0].importance == v then [a[0]] else [];
      assert (a + b)[0] == a[0] && (a + b)[1..] == a[1..] + b;
      assert WithImportance(a + b, v) == head + WithImportance(a[1..] + b, v);
      assert WithImportance(a, v) == head + WithImportance(a[1..], v);
      WithImportanceAppend(a[1..], b, v);
      AppendAssociative(head, WithImportance(a[1..], v), WithImportance(b, v));
    }
  }

  /** A sorted sequence headed by importance below `v` holds no task of importance `v`. */
  lemma {:induction false} WithImportanceAbsent(s: seq<Task>, v: int)
    requires SortedByImportance(s)
    requires |s| > 0 ==> s[0].importance < v
    ensures WithImportance(s, v) == []
  {
    if |s| > 0 {
      assert SortedByImportance(s[1..]);
      WithImportanceAbsent(s[1..], v);
    }
  }

  /**
   * Inserts `t` into a sorted sequence after every task of importance at least its own,
   * which is where a stable sort of `s + [t]` puts it.
   */
  function Insert(s: seq<Task>, t: Task): (r: seq<Task>)
    requires SortedByImportance(s)
    ensures |r| == |s| + 1 && SortedByImportance(r)
    ensures r[0] == t || (|s| > 0 && r[0] == s[0])
    ensures multiset(r) == multiset(s) + multiset{t}
    ensures RatingSum(r, Importance) == RatingSum(s, Importance) + t.importance
    ensures RatingSum(r, Urgency) == RatingSum(s, Urgency) + t.urgency
  {
    if |s| == 0 then [t]
    else if s[0].importance < t.importance then
      Prepend(t, s);
      [t] + s
    else
      SortedTail(s);
      var rest := Insert(s[1..], t);
      InsertAfterHead(s, t, rest);
      [s[0]] + rest
  }

  /** The recursive case of `Insert`: what holds of the tail's insertion holds with the head put back. */
  lemma InsertAfterHead(s: seq<Task>, t: Task, rest: seq<Task>)
    requires SortedByImportance(s) && |s| > 0 && s[0].importance >= t.importance
    requires |rest| == |s| && SortedByImportance(rest)
    requires rest[0] == t || (|s| > 1 && rest[0] == s[1])
    requires multiset(rest) == multiset(s[1..]) + multiset{t}
    requires RatingSum(rest, Importance) == RatingSum(s[1..], Importance) + t.importance
    requires RatingSum(rest, Urgency) == RatingSum(s[1..], Urgency) + t.urgency
    ensures SortedByImportance([s[0]] + rest)
    ensures multiset([s[0]] + rest) == multiset(s) + multiset{t}
    ensures RatingSum([s[0]] + rest, Importance) == RatingSum(s, Importance) + t.importance
    ensures RatingSum([s[0]] + rest, Urgency) == RatingSum(s, Urgency) + t.urgency
  {
    Prepend(s[0], rest);
    SplitHead(s);
  }


  lemma SortedTail(s: seq<Task>)
    requires SortedByImportance(s) && |s| > 0
    ensures SortedByImportance(s[1..]) && (|s| > 1 ==> s[0].importance >= s[1].importance)
  {
  }

  /** Putting a task in front adds its ratings to the sums, and keeps a sequence sorted when it outranks the old head. */
  lemma Prepend(x: Task, r: seq<Task>)
    ensures RatingSum([x] + r, Importance) == x.importance + RatingSum(r, Importance)
    ensures RatingSum([x] + r, Urgency) == x.urgency + RatingSum(r, Urgency)
    ensures SortedByImportance(r) && (|r| > 0 ==> x.importance >= r[0].importance) ==> SortedByImportance([x] + r)
  {
    assert ([x] + r)[1..] == r;
  }

  /** `Insert` is stable: `t` lands after every member of its own importance. */
  lemma {:induction false} InsertStable(s: seq<Task>, t: Task, v: int)
    requires SortedByImportance(s)
    ensures WithImportance(Insert(s, t), v) == WithImportance(s, v) + WithImportance([t], v)
  {
    if |s| == 0 {
      assert WithImportance([t], v) == (if t.importance == v then [t] else []) + WithImportance([], v);
    } else if s[0].importance < t.importance {
      InsertStableFront(s, t, v);
    } else {
      assert SortedByImportance(s[1..]);
      InsertStable(s[1..], t, v);
      InsertStableStep(s, t, v);
    }
  }

  /** `InsertStable` when `t` outranks the head and goes first. */
  lemma InsertStableFront(s: seq<Task>, t: Task, v: int)
    requires SortedByImportance(s) && |s| > 0 && s[0].importance < t.importance
    ensures WithImportance(Insert(s, t), v) == WithImportance(s, v) + WithImportance([t], v)
  {
    assert WithImportance([t], v) == (if t.importance == v then [t] else []) + WithImportance([], v);
    assert ([t] + s)[1..] == s;
    if t.importance == v {
      WithImportanceAbsent(s, v);
    }
  }

  /** The inductive step of `InsertStable`, when `t` goes after the head. */
  lemma InsertStableStep(s: seq<Task>, t: Task, v: int)
    requires SortedByImportance(s) && |s| > 0 && s[0].importance >= t.importance
    requires WithImportance(Insert(s[1..], t), v) == WithImportance(s[1..], v) + WithImportance([t], v)
    ensures WithImportance(Insert(s, t), v) == WithImportance(s, v) + WithImportance([t], v)
  {
    var rest := Insert(s[1..], t);
    var head := if s[0].importance == v then [s[0]] else [];
    assert Insert(s, t) == [s[0]] + rest;
    assert ([s[0]] + rest)[1..] == rest;
    assert WithImportance(Insert(s, t), v) == head + WithImportance(rest, v);
    assert WithImportance(s, v) == head + WithImportance(s[1..], v);
    AppendAssociative(head, WithImportance(s[1..], v), WithImportance([t], v));
  }

  /**
   * `Collections.sort` with the comparator `t2.importance - t1.importance`: a stable sort by
   * descending importance (ratings are small, so the subtraction cannot overflow).
   */
  function SortByImportance(s: seq<Task>): (r: seq<Task>)
    ensures SortedByImportance(r)
    ensures multiset(r) == multiset(s)
    ensures RatingSum(r, Importance) == RatingSum(s, Importance)
    ensures RatingSum(r, Urgency) == RatingSum(s, Urgency)
  {
    if |s| == 0 then []
    else
      var init := s[..|s| - 1];
      assert s == init + [s[|s| - 1]];
      RatingSumAppend(init, [s[|s| - 1]], Importance);
      RatingSumAppend(init, [s[|s| - 1]], Urgency);
      Insert(SortByImportance(init), s[|s| - 1])
  }

  /** The sort is stable: tasks of equal importance keep their relative order. */
  lemma {:induction false} SortStable(s: seq<Task>, v: int)
    ensures WithImportance(SortByImportance(s), v) == WithImportance(s, v)
  {
    if |s| > 0 {
      var init := s[..|s| - 1];
      var last := s[|s| - 1];
      assert s == init + [last];
      SortStable(init, v);
      InsertStable(SortByImportance(init), last, v);
      WithImportanceAppend(init, [last], v);
    }
  }

  /** The label `combine` writes. */
  function CountLabel(n: nat): string
  {
    NatToString(n) + " tasks"
  }

  /** Truncated average of one rating over the members. */
  function Average(s: seq<Task>, k: Rating): int
    requires |s| > 0
  {
    JavaDiv(RatingSum(s, k), |s|)
  }

  /** What `combine` establishes and every later addition re-establishes. */
  predicate Consistent(g: TaskGroup)
  {
    && |g.tasks| > 0
    && SortedByImportance(g.tasks)
    && g.averageImportance == Average(g.tasks, Importance)
    && g.averageUrgency == Average(g.tasks, Urgency)
    && g.labelText == Some(CountLabel(|g.tasks|))
  }

  /**
   * `combine`: recomputes the averages from the members in their current order, then sorts,
   * then rewrites the label.
   */
  function Combine(g: TaskGroup): (c: TaskGroup)
    requires |g.tasks| > 0
    ensures Consistent(c)
    ensures multiset(c.tasks) == multiset(g.tasks)
    ensures c.forceCombining == g.forceCombining && c.graphic == g.graphic
  {
    var n := |g.tasks|;
    g.(averageImportance := JavaDiv(RatingSum(g.tasks, Importance), n),
       averageUrgency := JavaDiv(RatingSum(g.tasks, Urgency), n),
       tasks := SortByImportance(g.tasks),
       labelText := Some(CountLabel(n)))
  }

  /** `addTask`: appends one task and recombines. */
  function AddTask(g: TaskGroup, t: Task): (r: TaskGroup)
    ensures Consistent(r)
    ensures |r.tasks| == |g.tasks| + 1
    ensures multiset(r.tasks) == multiset(g.tasks) + multiset{t}
    ensures r.forceCombining == g.forceCombining && r.graphic == g.graphic
  {
    Combine(g.(tasks := g.tasks + [t]))
  }

  /** An added task goes after every member of the same importance. */
  lemma AddTaskStable(g: TaskGroup, t: Task, v: int)
    ensures WithImportance(AddTask(g, t).tasks, v) == WithImportance(g.tasks, v) + WithImportance([t], v)
  {
    SortStable(g.tasks + [t], v);
    WithImportanceAppend(g.tasks, [t], v);
  }

  /** `addTask` for each task in turn, as `addTaskGroup` does with another group's members. */
  function AddTasks(g: TaskGroup, ts: seq<Task>): (r: TaskGroup)
    ensures |r.tasks| == |g.tasks| + |ts|
    ensures multiset(r.tasks) == multiset(g.tasks) + multiset(ts)
    ensures |ts| > 0 ==> Consistent(r)
    ensures |ts| == 0 ==> r == g
    ensures r.forceCombining == g.forceCombining && r.graphic == g.graphic
    decreases |ts|
  {
    if |ts| == 0 then g
    else
      assert ts == [ts[0]] + ts[1..];
      AddTasks(AddTask(g, ts[0]), ts[1..])
  }

  /** Adding many tasks is stable too: ties end up in the order they were added. */
  lemma {:induction false} AddTasksStable(g: TaskGroup, ts: seq<Task>, v: int)
    ensures WithImportance(AddTasks(g, ts).tasks, v) == WithImportance(g.tasks + ts, v)
    decreases |ts|
  {
    if |ts| > 0 {
      AddTasksStable(AddTask(g, ts[0]), ts[1..], v);
      AddTasksStableStep(g, ts, v);
    } else {
      assert g.tasks + ts == g.tasks;
    }
  }

  /** The inductive step of `AddTasksStable`: stability of the first addition, then of the rest. */
  lemma AddTasksStableStep(g: TaskGroup, ts: seq<Task>, v: int)
    requires |ts| > 0
    requires WithImportance(AddTasks(AddTask(g, ts[0]), ts[1..]).tasks, v)
             == WithImportance(AddTask(g, ts[0]).tasks + ts[1..], v)
    ensures WithImportance(AddTasks(g, ts).tasks, v) == WithImportance(g.tasks + ts, v)
  {
    AddTaskStable(g, ts[0], v);
    StableHead(AddTasks(g, ts).tasks, g.tasks, AddTask(g, ts[0]).tasks, ts, v);
  }

  /** `StableChain` for a first step that adds the single task `all[0]`. */
  lemma StableHead(result: seq<Task>, start: seq<Task>, mid: seq<Task>, all: seq<Task>, v: int)
    requires |all| > 0
    requires WithImportance(mid, v) == WithImportance(start, v) + WithImportance([all[0]], v)
    requires WithImportance(result, v) == WithImportance(mid + all[1..], v)
    ensures WithImportance(result, v) == WithImportance(start + all, v)
  {
    assert all == [all[0]] + all[1..];
    StableChain(result, start, mid, [all[0]], all[1..], all, v);
  }

  /**
   * One step of a stable fold: if `mid` holds the ties of `start` followed by those of `first`,
   * and `result` those of `mid` followed by `rest`, then `result` holds those of `start + all`.
   */
  lemma StableChain(result: seq<Task>, start: seq<Task>, mid: seq<Task>, first: seq<Task>, rest: seq<Task>,
                    all: seq<Task>, v: int)
    requires all == first + rest
    requires WithImportance(mid, v) == WithImportance(start, v) + WithImportance(first, v)
    requires WithImportance(result, v) == WithImportance(mid + rest, v)
    ensures WithImportance(result, v) == WithImportance(start + all, v)
  {
    AppendAfterStable(start, mid, first, rest, v);
  }

  /**
   * If `b` holds the ties of `a` followed by those of `added`, then appending `rest` to `b`
   * gives the ties of `a + added + rest`.
   */
  lemma AppendAfterStable(a: seq<Task>, b: seq<Task>, added: seq<Task>, rest: seq<Task>, v: int)
    requires WithImportance(b, v) == WithImportance(a, v) + WithImportance(added, v)
    ensures WithImportance(b + rest, v) == WithImportance(a + (added + rest), v)
  {
    var wa, wd, wr := WithImportance(a, v), WithImportance(added, v), WithImportance(rest, v);
    calc {
      WithImportance(b + rest, v);
      { WithImportanceAppend(b, rest, v); }
      (wa + wd) + wr;
      { AppendAssociative(wa, wd, wr); }
      wa + (wd + wr);
      { WithImportanceAppend(added, rest, v); }
      wa + WithImportance(added + rest, v);
      { WithImportanceAppend(a, added + rest, v); }
      WithImportance(a + (added + rest), v);
    }
  }

  lemma AppendAssociative(x: seq<Task>, y: seq<Task>, z: seq<Task>)
    ensures (x + y) + z == x + (y + z)
  {
  }

  /** `addTaskGroup`: adds the other group's members one by one, never the group itself. */
  function AddTaskGroup(g: TaskGroup, other: TaskGroup): (r: TaskGroup)
    ensures |r.tasks| == |g.tasks| + |other.tasks|
    ensures multiset(r.tasks) == multiset(g.tasks) + multiset(other.tasks)
    ensures |other.tasks| > 0 ==> Consistent(r)
    ensures |other.tasks| == 0 ==> r == g
  {
    AddTasks(g, other.tasks)
  }

  /** `setForceCombining`. */
  function SetForceCombining(g: TaskGroup, force: bool): (r: TaskGroup)
    ensures r.forceCombining == force && r == g.(forceCombining := r.forceCombining)
  {
    g.(forceCombining := force)
  }

  /** `getNudging`: small groups that are not forced together may be nudged apart. */
  predicate GetNudging(g: TaskGroup)
  {
    |g.tasks| <= MaxNudges && !g.forceCombining
  }

  /** Nudging is allowed exactly for groups of at most three members that are not forced together. */
  lemma NudgingIff(g: TaskGroup)
    ensures GetNudging(g) <==> |g.tasks| <= 3 && !g.forceCombining
    ensures !GetNudging(SetForceCombining(g, true))
  {
  }

  /** Growing a group never turns nudging back on. */
  lemma NudgingOnlyShrinks(g: TaskGroup, ts: seq<Task>)
    ensures GetNudging(AddTasks(g, ts)) ==> GetNudging(g)
  {
  }

  /** Each average lies between the smallest and largest member rating. */
  lemma AverageBetween(s: seq<Task>, k: Rating, lo: int, hi: int)
    requires |s| > 0
    requires forall i :: 0 <= i < |s| ==> lo <= RatingOf(s[i], k) <= hi
    ensures lo <= Average(s, k) <= hi
  {
    RatingSumBounds(s, k, lo, hi);
    JavaDivBetween(RatingSum(s, k), |s|, lo, hi);
  }

  /** A consistent group of valid tasks has both averages in [0, 100]. */
  lemma AveragesAreRatings(g: TaskGroup)
    requires Consistent(g)
    requires forall i :: 0 <= i < |g.tasks| ==> Valid(g.tasks[i])
    ensures 0 <= g.averageImportance <= 100 && 0 <= g.averageUrgency <= 100
  {
    AverageBetween(g.tasks, Importance, 0, 100);
    AverageBetween(g.tasks, Urgency, 0, 100);
  }
}
