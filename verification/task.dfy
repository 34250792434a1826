/** A single task with its importance and urgency ratings and its completion flag. */
module Tasks {
  import opened Wrappers
  import opened TaskGraphics

  /**
   * `graphic` is `None` until a layout pass has placed the task (a null `TaskGraphic` in Java).
   * Java's `long` id is an unbounded integer here.
   */
  datatype Task = Task(id: int, text: string, importance: int, urgency: int, completed: bool,
                       graphic: Option<TaskGraphic>)

  const MinRating := 0
  const MaxRating := 100

  /** The id a task gets from a constructor that takes none (Java's default for a `long` field). */
  const UnsavedId := 0

  const ImportanceMessage := "Importance must be an integer between 0 and 100"
  const UrgencyMessage := "Urgency must be an integer between 0 and 100"

  /** `validateRating`, shared by `validateImportance` and `validateUrgency`. */
  predicate ValidateRating(rating: int)
  {
    rating >= MinRating && rating <= MaxRating
  }

  /** The invariant every constructed task keeps. */
  predicate Valid(t: Task)
  {
    ValidateRating(t.importance) && ValidateRating(t.urgency)
  }

  /** `setImportance`: stores a valid rating, otherwise throws and changes nothing. */
  function SetImportance(t: Task, importance: int): (r: Result<Task, Exception>)
    ensures r.Success? <==> 0 <= importance <= 100
    ensures r.Success? ==> r.value.importance == importance && r.value == t.(importance := r.value.importance)
    ensures r.Failure? ==> r.error == IllegalArgument(ImportanceMessage)
    ensures r.Success? && Valid(t) ==> Valid(r.value)
  {
    if ValidateRating(importance) then Success(t.(importance := importance))
    else Failure(IllegalArgument(ImportanceMessage))
  }

  /** `setUrgency`: stores a valid rating, otherwise throws and changes nothing. */
  function SetUrgency(t: Task, urgency: int): (r: Result<Task, Exception>)
    ensures r.Success? <==> 0 <= urgency <= 100
    ensures r.Success? ==> r.value.urgency == urgency && r.value == t.(urgency := r.value.urgency)
    ensures r.Failure? ==> r.error == IllegalArgument(UrgencyMessage)
    ensures r.Success? && Valid(t) ==> Valid(r.value)
  {
    if ValidateRating(urgency) then Success(t.(urgency := urgency))
    else Failure(IllegalArgument(UrgencyMessage))
  }

  /** `setCompleted(int)`: any code of at least one means completed. */
  function SetCompletedCode(t: Task, code: int): (r: Task)
    ensures r.completed <==> code >= 1
    ensures r == t.(completed := r.completed)
  {
    t.(completed := code >= 1)
  }

  /**
   * The constructors taking a boolean completion flag. They set the id and text, then the
   * importance, then the urgency, so an invalid importance is the one reported when both are
   * invalid. The id-less overloads are this with `UnsavedId`.
   */
  function NewTask(id: int, text: string, importance: int, urgency: int, completed: bool): (r: Result<Task, Exception>)
    ensures r.Success? <==> 0 <= importance <= 100 && 0 <= urgency <= 100
    ensures r.Success? ==> (Valid(r.value) && r.value == Task(id, text, importance, urgency, completed, None))
    ensures r.Failure? ==> r.error == if 0 <= importance <= 100 then IllegalArgument(UrgencyMessage)
                                     else IllegalArgument(ImportanceMessage)
  {
    var blank := Task(id, text, 0, 0, false, None);
    match SetImportance(blank, importance)
    case Failure(e) => Failure(e)
    case Success(t1) =>
      match SetUrgency(t1, urgency)
      case Failure(e) => Failure(e)
      case Success(t2) => Success(t2.(completed := completed))
  }

  /** The constructors taking an integer completion code. */
  function NewTaskFromCode(id: int, text: string, importance: int, urgency: int, completed: int): (r: Result<Task, Exception>)
    ensures r.Success? <==> 0 <= importance <= 100 && 0 <= urgency <= 100
    ensures r.Success? ==> (Valid(r.value) && r.value == Task(id, text, importance, urgency, completed >= 1, None))
    ensures r.Failure? ==> r.error == if 0 <= importance <= 100 then IllegalArgument(UrgencyMessage)
                                     else IllegalArgument(ImportanceMessage)
  {
    match NewTask(id, text, importance, urgency, false)
    case Failure(e) => Failure(e)
    case Success(t) => Success(SetCompletedCode(t, completed))
  }
}
