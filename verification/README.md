# Task-Master core in Dafny

Task-Master is an Android app that plots tasks on an urgency-versus-importance canvas. Urgency
runs right to left and importance bottom to top. Each task is drawn as a checkbox and a label.
Tasks can be gathered into groups. Tapping a group opens a popup that lays its members out in a
padded box, coloured by where the group sits on the canvas.

This project models the app's core as pure Dafny functions over immutable datatypes and proves
what the Java code promises:

- **Tasks.** Rating validation and its exceptions, the completion code, and the constructors.
- **Task graphics.** The rigid `move` of a glyph.
- **Task groups.** Flattening additions into member tasks, truncated averages, a stable sort by
  descending importance, the "n tasks" label, and the nudging test.
- **The canvas** (`TaskDraw`). Rating-to-pixel mapping, glyph placement inside the margins, the
  touch rectangle, and the tap test.
- **The group popup** (`GroupPopup`). Moving members to the padded origin, the popup size, the
  tap test, and the four-quadrant colour gradient.
- **The view model.** Lookup by id, appending items, the one-shot load from the database, and
  de-grouping.

Modules, one file each:

- `Wrappers`: `Option`, `Result`, and the two Java exceptions the code throws on purpose.
- `Numerics`: Java's `(int)` cast of a float (truncation toward zero), Java's truncating integer
  `/`, and the decimal rendering of an `int`.
- `Rects`: the part of `android.graphics.Rect` in use (`offset`, `inset`, `union`, half-open
  `contains`) and a left fold of `union`.
- `Colors`: packed ARGB colours as unsigned 32-bit integers, and a colour as its four byte channels (`Color`), with `Pack` and `Unpack` between the two.
- `Sequences`: the subsequence relation.
- `TaskGraphics`, `Tasks`, `TaskGroups`, `TaskItems`, `TaskDraw`, `GroupPopup`, `TaskViewModels`:
  one per Java class. `TaskItems` holds the `TaskItem` interface as a tagged union and the group
  operations that take items.

Modelling choices:

- Java `float` values are reals. Every `(int)` cast is `Numerics.Trunc`.
- Java's `long` ids and `int` ratings are unbounded integers.
- Mutation becomes a function that returns the new value.
- Java `null` is `None`: a group's label before the first addition, and a task's graphic before
  layout.
- A `TaskGraphic` belongs to its `Task` (the `graphic` field). The popup reads it there through
  `getTaskGraphic`.
- A crash the code does not guard against is a precondition. Examples are `get(0)` on an empty
  group, or a member without a graphic.
- An exception the code throws on purpose is a `Result.Failure` carrying the exact message.

Three behaviours of the code that the model keeps:

- **Text placement near the right edge.** When the checkbox and its text would run past the right
  margin, the text moves to the left of the checkbox.
- **Touch rectangle.** It is built tight around the checkbox and text. Only the tap test on the
  canvas widens it, by the checkbox side.
- **Popup colour.** It comes from a bilinear blend of three palette colours and their two
  midpoints.

## Model

| member | source | states |
|---|---|---|
| Tasks.SetImportance | app/src/main/java/com/rsquared/taskmaster/Task.java:98-103 | succeeds exactly for importance in [0, 100] and then changes only the importance; otherwise fails with IllegalArgumentException and the exact message; a valid task stays valid |
| Tasks.SetUrgency | app/src/main/java/com/rsquared/taskmaster/Task.java:105-110 | succeeds exactly for urgency in [0, 100] and then changes only the urgency; otherwise fails with IllegalArgumentException and the exact message |
| Tasks.SetCompletedCode | app/src/main/java/com/rsquared/taskmaster/Task.java:112 | the task is completed exactly when the code is at least 1, and nothing else changes |
| Tasks.NewTask | app/src/main/java/com/rsquared/taskmaster/Task.java:25-31 | construction succeeds exactly when both ratings are valid and yields a valid task with the given fields; when both are invalid the importance error is the one reported, as the setters run in that order |
| Tasks.NewTaskFromCode | app/src/main/java/com/rsquared/taskmaster/Task.java:17-23 | same success condition and error order; on success the task has the given id, text and ratings, no graphic, and is completed exactly when the code is at least 1 |
| TaskGraphics.Move | app/src/main/java/com/rsquared/taskmaster/TaskGraphic.java:64-69 | baseline shifts by dy, checkbox and text by dx, all four touch-area edges by (dx, dy); text-to-checkbox gap, baseline-to-top distance and the area's size are unchanged |
| TaskGraphics.MoveZero | app/src/main/java/com/rsquared/taskmaster/TaskGraphic.java:64-69 | a move by (0, 0) is the identity |
| TaskGraphics.MoveCompose | app/src/main/java/com/rsquared/taskmaster/TaskGraphic.java:64-69 | two moves equal one move by the summed offsets |
| TaskGraphics.MoveInverse | app/src/main/java/com/rsquared/taskmaster/TaskGraphic.java:64-69 | a move followed by the opposite move restores the glyph |
| Rects.Offset | app/src/main/java/com/rsquared/taskmaster/TaskGraphic.java:68 | the top-left corner moves by (dx, dy) and width and height are kept, so every edge moves by the offset; emptiness is kept, and a point is inside the offset rectangle exactly when the point shifted back is inside the original |
| Rects.Inset | app/src/main/java/com/rsquared/taskmaster/TaskDraw.java:244 | width and height shrink by twice the amounts while the centre stays put, so each side moves by dx or dy; a negative inset covers the original |
| Rects.Union | app/src/main/java/com/rsquared/taskmaster/GroupPopup.java:51 | an empty argument leaves the rectangle alone, an empty receiver is replaced, otherwise the result covers both; each edge comes from one of the two |
| Rects.UnionFromOffset | app/src/main/java/com/rsquared/taskmaster/GroupPopup.java:49-58 | the union of translated rectangles is the translated union |
| Rects.UnionFromBoundingBox | app/src/main/java/com/rsquared/taskmaster/GroupPopup.java:49-52 | the union of non-empty rectangles covers each of them and each of its edges is attained by one of them |
| Numerics.Trunc | app/src/main/java/com/rsquared/taskmaster/TaskDraw.java:158-168 | the cast lands within one unit of the value, toward zero, for either sign |
| Numerics.JavaDiv | app/src/main/java/com/rsquared/taskmaster/TaskGroup.java:67-68 | the quotient is truncated toward zero: q*n lies within one divisor of the dividend, on the side of zero |
| Numerics.JavaDivBetween | app/src/main/java/com/rsquared/taskmaster/TaskGroup.java:67-68 | a truncated quotient stays within any integer bounds the exact quotient respects |
| Numerics.NatToString | app/src/main/java/com/rsquared/taskmaster/TaskGroup.java:74 | the rendering is non-empty decimal digits with no leading zero, and reading it back gives the number |
| Colors.Pack | app/src/main/java/com/rsquared/taskmaster/GroupPopup.java:138-139 | packing four channels with shifts and ors gives back each channel through `Color.alpha/red/green/blue` |
| Colors.PackUnpack | app/src/main/java/com/rsquared/taskmaster/GroupPopup.java:109-122 | splitting a colour `int` into its channels and packing them again gives the same `int` back |
| TaskGroups.RatingSumBounds | app/src/main/java/com/rsquared/taskmaster/TaskGroup.java:63-66 | with every rating in [lo, hi], the sum over n members lies in [n*lo, n*hi] |
| TaskGroups.Insert | app/src/main/java/com/rsquared/taskmaster/TaskGroup.java:70-72 | inserting into a sorted list keeps it sorted by descending importance, adds exactly the task (as a multiset) and adds its ratings to the sums |
| TaskGroups.InsertStable | app/src/main/java/com/rsquared/taskmaster/TaskGroup.java:70-72 | the inserted task goes after every member of its own importance |
| TaskGroups.SortByImportance | app/src/main/java/com/rsquared/taskmaster/TaskGroup.java:70-72 | the result is sorted by descending importance and is a permutation of the input |
| TaskGroups.SortStable | app/src/main/java/com/rsquared/taskmaster/TaskGroup.java:70-72 | for every importance, the tasks of that importance keep their relative order (with the two above, this pins down what `Collections.sort` returns) |
| TaskGroups.Combine | app/src/main/java/com/rsquared/taskmaster/TaskGroup.java:60-75 | afterwards the members are sorted, the averages are the truncated means, the label reads "n tasks", the members are a permutation of before, and the flags and graphic are untouched |
| TaskGroups.AddTask | app/src/main/java/com/rsquared/taskmaster/TaskGroup.java:48-51 | the group gains exactly the task and is consistent again |
| TaskGroups.AddTaskStable | app/src/main/java/com/rsquared/taskmaster/TaskGroup.java:48-51 | the added task lands after all members of equal importance |
| TaskGroups.AddTasks | app/src/main/java/com/rsquared/taskmaster/TaskGroup.java:53-57 | the group gains exactly the given tasks, is consistent when any were added and is unchanged otherwise |
| TaskGroups.AddTasksStable | app/src/main/java/com/rsquared/taskmaster/TaskGroup.java:53-57 | ties end up in the order old members then added tasks |
| TaskGroups.AddTaskGroup | app/src/main/java/com/rsquared/taskmaster/TaskGroup.java:53-57 | a group added to a group contributes its member tasks, not itself; adding an empty group changes nothing |
| TaskGroups.SetForceCombining | app/src/main/java/com/rsquared/taskmaster/TaskGroup.java:77-79 | sets the flag and nothing else |
| TaskGroups.NudgingIff | app/src/main/java/com/rsquared/taskmaster/TaskGroup.java:103-105 | nudging is allowed exactly for groups of at most three members not forced together; forcing turns it off |
| TaskGroups.NudgingOnlyShrinks | app/src/main/java/com/rsquared/taskmaster/TaskGroup.java:103-105 | adding tasks never turns nudging on |
| TaskGroups.AverageBetween | app/src/main/java/com/rsquared/taskmaster/TaskGroup.java:60-68 | each truncated average lies between the smallest and largest member rating |
| TaskGroups.AveragesAreRatings | app/src/main/java/com/rsquared/taskmaster/TaskGroup.java:60-68 | a consistent group of valid tasks has both averages in [0, 100] |
| TaskItems.AddTaskItem | app/src/main/java/com/rsquared/taskmaster/TaskGroup.java:39-46 | a task is added as is and a group as its members; the group is consistent afterwards unless nothing was added, in which case it is unchanged |
| TaskItems.AddTaskItems | app/src/main/java/com/rsquared/taskmaster/TaskGroup.java:24-34 | adding items in turn adds exactly the tasks they stand for |
| TaskItems.NewGroup | app/src/main/java/com/rsquared/taskmaster/TaskGroup.java:24-34 | a group built from items holds exactly their tasks, is consistent when there is any, and is not forced together |
| TaskItems.AddTaskItemsStable | app/src/main/java/com/rsquared/taskmaster/TaskGroup.java:24-34 | members of equal importance end up in the order they were added |
| TaskItems.NewGroupOfTasks | app/src/main/java/com/rsquared/taskmaster/TaskGroup.java:24-28 | a group built from k loose tasks is consistent, has exactly those k tasks, and keeps ties in the given order |
| TaskDraw.PercentCoordinates | app/src/main/java/com/rsquared/taskmaster/TaskDraw.java:86-92 | a valid task maps into the unit square, and the ratings can be read back from the position |
| TaskDraw.PercentMonotone | app/src/main/java/com/rsquared/taskmaster/TaskDraw.java:86-92 | more urgent is further left, more important is further up, and distinct rating pairs get distinct positions |
| TaskDraw.PixelCoordinates | app/src/main/java/com/rsquared/taskmaster/TaskDraw.java:95-100 | a valid task maps inside the view |
| TaskDraw.PixelInverse | app/src/main/java/com/rsquared/taskmaster/TaskDraw.java:95-100 | on a view of positive size the ratings can be read back from the pixel position |
| TaskDraw.LayoutHighest | app/src/main/java/com/rsquared/taskmaster/TaskDraw.java:124-130 | the glyph's reach above the baseline is the larger of the font top and the checkbox side |
| TaskDraw.LayoutLowest | app/src/main/java/com/rsquared/taskmaster/TaskDraw.java:131 | the reach below the baseline is the font bottom's magnitude |
| TaskDraw.ClampBaseline | app/src/main/java/com/rsquared/taskmaster/TaskDraw.java:133-139 | a glyph crossing the bottom margin is moved to `height - lowest - margin`; one crossing the top margin is moved to `highest + margin` when the canvas is tall enough and otherwise to the bottom position (the bottom wins); a glyph that fits is not moved; the glyph always ends above the bottom margin |
| TaskDraw.InitTask | app/src/main/java/com/rsquared/taskmaster/TaskDraw.java:106-168 | the baseline is the task's pixel y moved only off a margin it would cross, and stays at that y when the glyph fits; the checkbox is the pixel x, pushed right to the left margin, or on overflow pulled back to `width - margin - rectSide` only when the checkbox alone would not fit; the text is flipped left of the checkbox on overflow; a touch area exactly `rectSide + margin + textWidth` wide whose left, top and bottom are the truncated glyph edges and which is non-empty |
| TaskDraw.InitTasks | app/src/main/java/com/rsquared/taskmaster/TaskDraw.java:179-182 | every task is laid out, each by `initTask` |
| TaskDraw.TouchedTasks | app/src/main/java/com/rsquared/taskmaster/TaskDraw.java:233-251 | returns, in list order, exactly the tasks whose touch area widened by the checkbox side contains the truncated tap, each as often as the list holds it |
| TaskDraw.TouchHitWithinReach | app/src/main/java/com/rsquared/taskmaster/TaskDraw.java:241-248 | a tap hits a task exactly when it lands within the checkbox side of its touch area |
| TaskDraw.TouchedTasksAsWritten | app/src/main/java/com/rsquared/taskmaster/TaskDraw.java:241-249 | the tasks returned are those above, and each stored touch area is left widened by the checkbox side |
| TaskDraw.TouchAreaDriftsAsWritten | app/src/main/java/com/rsquared/taskmaster/TaskDraw.java:243-247 | a tap that misses a task hits it when repeated at the same point |
| GroupPopup.SetGraphic | app/src/main/java/com/rsquared/taskmaster/GroupPopup.java:46-59 | the group area is the union of the members' touch areas, every member moves by the one vector (padding - left, padding - top), and members keep their relative positions |
| GroupPopup.SetGraphicAnchorsUnion | app/src/main/java/com/rsquared/taskmaster/GroupPopup.java:54-58 | after the move the members' union sits at (padding, padding) with its size unchanged |
| GroupPopup.GroupAreaIsBoundingBox | app/src/main/java/com/rsquared/taskmaster/GroupPopup.java:48-52 | with non-empty touch areas, the group area covers every member and each of its edges belongs to some member |
| GroupPopup.PopupSize | app/src/main/java/com/rsquared/taskmaster/GroupPopup.java:67-68 | the popup is the group area plus the padding on both sides |
| GroupPopup.PopupHoldsMembers | app/src/main/java/com/rsquared/taskmaster/GroupPopup.java:46-68 | every member ends up inside the popup at least the padding away from each edge |
| GroupPopup.GetTouchedTask | app/src/main/java/com/rsquared/taskmaster/GroupPopup.java:86-96 | returns the first member whose plain touch area contains the truncated tap, and none exactly when no member is hit |
| GroupPopup.MidChannel | app/src/main/java/com/rsquared/taskmaster/GroupPopup.java:126-134 | the midpoint channel is the mean rounded down |
| GroupPopup.MidColor | app/src/main/java/com/rsquared/taskmaster/GroupPopup.java:126-139 | every channel of a midpoint colour is the mean of the two channels rounded down |
| GroupPopup.ChooseQuadrant | app/src/main/java/com/rsquared/taskmaster/GroupPopup.java:152-182 | for ratings in [0, 100] both weights lie in [0, 1] |
| GroupPopup.MixWithin | app/src/main/java/com/rsquared/taskmaster/GroupPopup.java:186-189 | with weights in the unit square the blend lies within the corners' range |
| GroupPopup.BlendWithin | app/src/main/java/com/rsquared/taskmaster/GroupPopup.java:186-204 | each channel of a quadrant's blend lies within the range of its four corners |
| GroupPopup.ResultChannel | app/src/main/java/com/rsquared/taskmaster/GroupPopup.java:186-204 | the truncated blend is a valid channel value, so the final packing cannot spill into a neighbouring channel |
| GroupPopup.GetColor | app/src/main/java/com/rsquared/taskmaster/GroupPopup.java:100-208 | each channel of the colour is the truncated blend of the chosen quadrant |
| GroupPopup.CornersInPalette | app/src/main/java/com/rsquared/taskmaster/GroupPopup.java:124-182 | every corner of the chosen quadrant, midpoints included, lies within the palette's range per channel |
| GroupPopup.GetColorWithinPalette | app/src/main/java/com/rsquared/taskmaster/GroupPopup.java:100-208 | every channel of the background stays between the palette's smallest and largest value for that channel |
| GroupPopup.ColorAtTopLeft | app/src/main/java/com/rsquared/taskmaster/GroupPopup.java:152-159 | importance 100 and urgency 100 give exactly the `highest` colour, packed |
| GroupPopup.ColorAtBottomRight | app/src/main/java/com/rsquared/taskmaster/GroupPopup.java:167-174 | importance 0 and urgency 0 give exactly the `lowest` colour, packed |
| GroupPopup.ColorAtCentre | app/src/main/java/com/rsquared/taskmaster/GroupPopup.java:175-181 | importance 50 and urgency 50 give exactly the `middle` colour, packed |
| GroupPopup.StackedQuadrantsMeet | app/src/main/java/com/rsquared/taskmaster/GroupPopup.java:186-189 | a quadrant's lower edge and the upper edge of the one below agree when they share corners and horizontal weight |
| GroupPopup.AdjacentQuadrantsMeet | app/src/main/java/com/rsquared/taskmaster/GroupPopup.java:186-189 | a quadrant's right edge and the left edge of its neighbour agree when they share corners and vertical weight |
| GroupPopup.SeamUrgentSide | app/src/main/java/com/rsquared/taskmaster/GroupPopup.java:152-182 | on the urgent (left) half, the important and unimportant quadrants' formulas agree at importance 50: no colour step |
| GroupPopup.SeamCalmSide | app/src/main/java/com/rsquared/taskmaster/GroupPopup.java:152-182 | on the non-urgent (right) half, the important and unimportant quadrants' formulas agree at importance 50 |
| GroupPopup.SeamImportantSide | app/src/main/java/com/rsquared/taskmaster/GroupPopup.java:152-182 | on the important (upper) half, the urgent and non-urgent quadrants' formulas agree at urgency 50 |
| GroupPopup.SeamUnimportantSide | app/src/main/java/com/rsquared/taskmaster/GroupPopup.java:152-182 | on the unimportant (lower) half, the urgent and non-urgent quadrants' formulas agree at urgency 50 |
| TaskViewModels.FindTask | app/src/main/java/com/rsquared/taskmaster/TaskViewModel.java:31-37 | the result is the first loose task with the id, skipping groups, and none exactly when no loose task has it |
| TaskViewModels.FindTaskAppend | app/src/main/java/com/rsquared/taskmaster/TaskViewModel.java:31-37 | searching a concatenation searches the first part and then the second |
| TaskViewModels.GetTask | app/src/main/java/com/rsquared/taskmaster/TaskViewModel.java:31-37 | a found task has the id and is an item of the list; none is found exactly when no loose task has the id |
| TaskViewModels.AddNewTaskItem | app/src/main/java/com/rsquared/taskmaster/TaskViewModel.java:55-58 | appends exactly the item, keeps the lock, and writes to the database only for a loose task |
| TaskViewModels.GetTaskAfterAdd | app/src/main/java/com/rsquared/taskmaster/TaskViewModel.java:55-58 | after adding, a lookup finds the earlier task with the id if any, else the added task if it has the id |
| TaskViewModels.DownloadIncompleteTasks | app/src/main/java/com/rsquared/taskmaster/TaskViewModel.java:61-67 | the first call appends the stored tasks and locks; a locked model fails with IllegalStateException and the exact message |
| TaskViewModels.DownloadOnlyOnce | app/src/main/java/com/rsquared/taskmaster/TaskViewModel.java:61-67 | after a successful load any further load fails |
| TaskViewModels.DownloadAddsStored | app/src/main/java/com/rsquared/taskmaster/TaskViewModel.java:61-64 | a load keeps the earlier tasks and adds exactly the stored ones, with no database write |
| TaskViewModels.UpdateTaskInDatabase | app/src/main/java/com/rsquared/taskmaster/TaskViewModel.java:70-73 | only the database is written; the items and the lock are untouched |
| TaskViewModels.DeGroupTasks | app/src/main/java/com/rsquared/taskmaster/TaskViewModel.java:76-87 | the list becomes the non-group items in order followed by every group's members, and holds no group |
| TaskViewModels.RemoveCollectedGroups | app/src/main/java/com/rsquared/taskmaster/TaskViewModel.java:85-86 | removing the collected groups from the list with the members appended leaves the loose items and the members |
| TaskViewModels.DeGroupKeepsTasks | app/src/main/java/com/rsquared/taskmaster/TaskViewModel.java:76-87 | de-grouping keeps every task, loose or member, exactly once |
| TaskViewModels.UngroupedAndMembers | app/src/main/java/com/rsquared/taskmaster/TaskViewModel.java:79-84 | the loose tasks and the collected members together are the tasks of the list |
| TaskViewModels.DeGroupWithoutGroups | app/src/main/java/com/rsquared/taskmaster/TaskViewModel.java:76-87 | on a list with no groups de-grouping changes nothing |
| TaskViewModels.DeGroupIdempotent | app/src/main/java/com/rsquared/taskmaster/TaskViewModel.java:76-87 | de-grouping twice is the same as once |

## Left out

- The `Parcelable` support of `Task` (Task.java:48-67, 129-141) is Android serialisation, not behaviour of the core.
- `debug()` in `Task` and `TaskGraphic` prints to the console.
- Plain accessors are the datatypes' fields or one-line record updates, with nothing to prove. These are `setID`, `setTask`, the getters, `setLabel`/`getLabel`, `getTaskGraphic`/`setTaskGraphic`, `getGroup`, `setGroup`, and `getTaskItems`/`setTaskItems`.
- Drawing is rendering only. This covers `onDraw` in both views, the paint set-up, and the background drawable and border of `prepareCanvas`. Only the popup size from `prepareCanvas` is modelled.
- `GroupPopup.initialize` calls `nudgeTasks`, and `onDraw` calls `drawTask`. Neither is defined in the modelled files. The rest of `initialize` (GroupPopup.java:31-38) is paint set-up, `setGroup`, `setGraphic` (modelled as `GroupPopup.SetGraphic`) and `prepareCanvas`.
- The database is outside the core. `TaskDatabaseHelper` is not part of this model. Writes are kept as a log of abstract calls, and what `getTasks(true)` returns is a parameter.
- Text measurement is a parameter. The paint's text bounds and font metrics are a `TextMetrics` value, or a function from label to metrics. The view's size is a `Surface` parameter. The palette colours, which come from resources, are a `Palette` parameter holding each colour as its channels, that is, `Unpack` of the resource's `int`; `Colors.PackUnpack` says nothing is lost that way.
- `TaskDraw.java` belongs to an earlier revision that keeps graphics in the view model, keyed by task id. The model keeps the graphic on the task, as the popup code reads it.
- TaskViewModels.UpdateTaskInDatabase: the Java code relies on the caller having already changed the shared `Task` object. Items here are values, so the model records only the database write.
- TaskGroups.AddTaskGroup: adding a group to itself makes Java fail with a concurrent modification of the list being iterated. The model adds a snapshot of the members instead.
- TaskGroups.Combine: the rating sums and the comparator's subtraction are unbounded. Java's 32-bit `int` would overflow only with more than twenty million members.
- `Collections.sort` is modelled as an insertion sort. A stable sort's output is unique, and `SortByImportance` is proved sorted, a permutation and stable, so the two agree.
- Numerics.Trunc: float rounding is not modelled, and neither is the saturation of `(int)` on NaN or infinities. Positions, weights and blends are exact reals, so a truncated channel or pixel edge can differ from the device by one.
- GroupPopup.GetColor: it requires both ratings in [0, 100]. Outside that range Java's weights leave [0, 1] and a channel can overflow into its neighbour under `<<` and `|`. The one caller passes a group's averages, which `TaskGroups.AveragesAreRatings` proves lie in that range.
- TaskDraw.TouchedTasks is the corrected hit test; the as-written in-place widening is under "Findings".

## Findings

| source | as written | input that shows it | evidently intended | confidence | as-written member | corrected member |
|---|---|---|---|---|---|---|
| app/src/main/java/com/rsquared/taskmaster/TaskDraw.java:243-244 | `inset(-rectSide, -rectSide)` is applied to the stored touch rectangle, so every tap leaves each task's touch area `rectSide` larger on every side | a task whose touch area is (100, 110)-(160, 140), tapped twice at (75, 120): the first tap misses, the second hits | widen a copy, so every tap tests the touch area widened once | medium, not executed; assumes the view model's `getTouchArea` returns the stored `Rect` itself, as a map lookup does (that revision of the view model is not part of this model) | TaskDraw.TouchedTasksAsWritten, TaskDraw.TouchAreaDriftsAsWritten | TaskDraw.TouchedTasks |
