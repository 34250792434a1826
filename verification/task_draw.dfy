/**
 * The main canvas: maps ratings to pixels, places each task's checkbox and text inside the
 * margins, and answers which tasks a tap lands on.
 */
module TaskDraw {
  import opened Wrappers
  import opened Numerics
  import opened Rects
  import opened Sequences
  import opened Tasks
  import opened TaskGraphics

  const RectSide := 20
  const Margin := 10

  /**
   * The view's measured size (`getWidth`/`getHeight`), used to map ratings to pixels, and the
   * size passed to `setDimensions`, used to keep glyphs inside the margins.
   */
  datatype Surface = Surface(viewWidth: int, viewHeight: int, width: int, height: int)

  /** The text paint's measurements for one label: the text bounds' width and the font's top and bottom. */
  datatype TextMetrics = TextMetrics(textWidth: int, fontTop: real, fontBottom: real)

  datatype Point = Point(x: real, y: real)

  /** `getPercentCoordinates`: urgency runs right to left, importance bottom to top. */
  function PercentCoordinates(t: Task): (p: Point)
    ensures Valid(t) ==> 0.0 <= p.x <= 1.0 && 0.0 <= p.y <= 1.0
    ensures t.urgency as real == 100.0 - 100.0 * p.x
    ensures t.importance as real == 100.0 - 100.0 * p.y
  {
    Point((100.0 - t.urgency as real) / 100.0, (100.0 - t.importance as real) / 100.0)
  }

  /** More urgent tasks sit further left, more important ones further up. */
  lemma PercentMonotone(a: Task, b: Task)
    ensures a.urgency < b.urgency ==> PercentCoordinates(b).x < PercentCoordinates(a).x
    ensures a.importance < b.importance ==> PercentCoordinates(b).y < PercentCoordinates(a).y
    ensures PercentCoordinates(a) == PercentCoordinates(b) <==> a.urgency == b.urgency && a.importance == b.importance
  {
  }

  /** `getPixelCoordinates`: the percent position scaled by the view's size. */
  function PixelCoordinates(t: Task, s: Surface): (p: Point)
    ensures Valid(t) && 0 <= s.viewWidth ==> 0.0 <= p.x <= s.viewWidth as real
    ensures Valid(t) && 0 <= s.viewHeight ==> 0.0 <= p.y <= s.viewHeight as real
  {
    var pc := PercentCoordinates(t);
    ScaleWithin(pc.x, s.viewWidth as real);
    ScaleWithin(pc.y, s.viewHeight as real);
    Point(pc.x * s.viewWidth as real, pc.y * s.viewHeight as real)
  }

  lemma ScaleWithin(a: real, w: real)
    ensures 0.0 <= a <= 1.0 && 0.0 <= w ==> 0.0 <= a * w <= w
  {
    if 0.0 <= a <= 1.0 && 0.0 <= w {
      assert a * w <= 1.0 * w;
    }
  }

  /** On a view of positive size the ratings can be read back from the pixel position. */
  lemma PixelInverse(t: Task, s: Surface)
    requires 0 < s.viewWidth && 0 < s.viewHeight
    ensures t.urgency as real == 100.0 - 100.0 * (PixelCoordinates(t, s).x / s.viewWidth as real)
    ensures t.importance as real == 100.0 - 100.0 * (PixelCoordinates(t, s).y / s.viewHeight as real)
  {
    var pc := PercentCoordinates(t);
    var p := PixelCoordinates(t, s);
    Unscale(pc.x, s.viewWidth as real);
    Unscale(pc.y, s.viewHeight as real);
    assert p.x / (s.viewWidth as real) == pc.x;
    assert p.y / (s.viewHeight as real) == pc.y;
  }

  lemma Unscale(a: real, w: real)
    requires 0.0 < w
    ensures (a * w) / w == a
  {
  }

  /** How far the glyph reaches above its baseline: the taller of the font's top and the checkbox. */
  function LayoutHighest(m: TextMetrics): (h: real)
    ensures h >= Abs(m.fontTop) && h >= RectSide as real
    ensures h == Abs(m.fontTop) || h == RectSide as real
  {
    if Abs(m.fontTop) > RectSide as real then Abs(m.fontTop) else RectSide as real
  }

  /** How far the glyph reaches below its baseline: the font's bottom. */
  function LayoutLowest(m: TextMetrics): (l: real)
    ensures l >= 0.0 && (l == m.fontBottom || l == -m.fontBottom)
  {
    Abs(m.fontBottom)
  }

  /** Width from the checkbox's left side to the end of the text. */
  function LayoutWidth(m: TextMetrics): int
  {
    RectSide + Margin + m.textWidth
  }

  /** Pushes the baseline down off the top margin, then up off the bottom margin; the bottom wins. */
  function ClampBaseline(y: real, highest: real, lowest: real, height: int): (b: real)
    ensures y + lowest > height as real - Margin as real ==> b == height as real - lowest - Margin as real
    ensures y - highest < Margin as real ==>
      b == if highest + lowest + 2.0 * Margin as real <= height as real then highest + Margin as real
           else height as real - lowest - Margin as real
    ensures b + lowest <= height as real - Margin as real
    ensures height as real >= highest + lowest + 2.0 * Margin as real ==> b - highest >= Margin as real
    ensures Margin as real <= y - highest && y + lowest <= height as real - Margin as real ==> b == y
  {
    var b1 := if y - highest < Margin as real then highest + Margin as real else y;
    if b1 + lowest > height as real - Margin as real then height as real - lowest - Margin as real else b1
  }

  /**
   * `initTask`: places the checkbox at the task's pixel position, moving it or the baseline only
   * where the glyph would cross a margin (flipping the text to the left of the checkbox when it
   * would run off the right edge), and builds the touch rectangle around checkbox and text.
   */
  function InitTask(t: Task, s: Surface, m: TextMetrics): (g: TaskGraphic)
    ensures var y := PixelCoordinates(t, s).y;
      var high := LayoutHighest(m);
      var low := LayoutLowest(m);
      && g.baseline == ClampBaseline(y, high, low, s.height)
      && g.baseline + low <= s.height as real - Margin as real
      && (s.height as real >= high + low + 2.0 * Margin as real ==> g.baseline - high >= Margin as real)
      && (Margin as real <= y - high && y + low <= s.height as real - Margin as real ==> g.baseline == y)
    ensures var x := PixelCoordinates(t, s).x;
      if x + LayoutWidth(m) as real > s.width as real - Margin as real then
        && g.checkBoxStart == (if x + RectSide as real > s.width as real - Margin as real
                               then s.width as real - Margin as real - RectSide as real else x)
        && g.checkBoxStart + RectSide as real <= s.width as real - Margin as real
        && g.textStart + m.textWidth as real == g.checkBoxStart - Margin as real
      else
        && g.checkBoxStart == (if x < Margin as real then Margin as real else x)
        && g.checkBoxStart >= Margin as real
        && g.textStart == g.checkBoxStart + RectSide as real + Margin as real
    ensures Width(g.touchArea) == LayoutWidth(m)
    ensures g.touchArea.left == Trunc(if g.checkBoxStart < g.textStart then g.checkBoxStart else g.textStart)
    ensures g.touchArea.top == Trunc(g.baseline - LayoutHighest(m))
    ensures g.touchArea.bottom == Trunc(g.baseline + LayoutLowest(m))
    ensures m.textWidth >= 0 ==> !IsEmpty(g.touchArea)
  {
    var p := PixelCoordinates(t, s);
    var high := LayoutHighest(m);
    var low := LayoutLowest(m);
    var layoutWidth := LayoutWidth(m);
    var baseline := ClampBaseline(p.y, high, low, s.height);
    var checkBox :=
      if p.x + layoutWidth as real > s.width as real - Margin as real then
        (if p.x + RectSide as real > s.width as real - Margin as real
         then s.width as real - Margin as real - RectSide as real else p.x)
      else if p.x < Margin as real then Margin as real else p.x;
    var text :=
      if p.x + layoutWidth as real > s.width as real - Margin as real
      then checkBox - Margin as real - m.textWidth as real
      else checkBox + RectSide as real + Margin as real;
    var left := Trunc(if checkBox < text then checkBox else text);
    var touchArea := Rect(left, Trunc(baseline - high), left + layoutWidth, Trunc(baseline + low));
    TruncGap(baseline - high, baseline + low);
    TaskGraphic(baseline, checkBox, text, touchArea)
  }

  /** Truncating two reals at least 20 apart leaves integers at least 19 apart. */
  lemma TruncGap(u: real, w: real)
    requires u + 20.0 <= w
    ensures Trunc(u) + 19 <= Trunc(w)
  {
  }

  predicate Placed(t: Task) { t.graphic.Some? }

  predicate AllPlaced(tasks: seq<Task>)
  {
    forall i :: 0 <= i < |tasks| ==> Placed(tasks[i])
  }

  /** `initTasks`: lays out every task; `measure` stands for the text paint's measurements of each label. */
  function InitTasks(tasks: seq<Task>, s: Surface, measure: string -> TextMetrics): (r: seq<Task>)
    ensures |r| == |tasks| && AllPlaced(r)
    ensures forall i :: 0 <= i < |r| ==>
      r[i] == tasks[i].(graphic := Some(InitTask(tasks[i], s, measure(tasks[i].text))))
  {
    seq(|tasks|, i requires 0 <= i < |tasks| =>
      tasks[i].(graphic := Some(InitTask(tasks[i], s, measure(tasks[i].text)))))
  }

  /** The tap test of `touchedTasks`: the touch area widened by the checkbox side on every side. */
  predicate TouchHit(t: Task, x: real, y: real)
    requires Placed(t)
  {
    Contains(Inset(t.graphic.value.touchArea, -RectSide, -RectSide), Trunc(x), Trunc(y))
  }

  /**
   * `touchedTasks`: every placed task whose widened touch area contains the tap, in list order.
   * A task listed twice is returned twice: the counts fix how often, the subsequence fixes the order.
   */
  function TouchedTasks(tasks: seq<Task>, x: real, y: real): (r: seq<Task>)
    requires AllPlaced(tasks)
    ensures forall t :: t in r ==> t in tasks && Placed(t) && TouchHit(t, x, y)
    ensures forall i :: 0 <= i < |tasks| && TouchHit(tasks[i], x, y) ==> tasks[i] in r
    ensures forall t :: multiset(r)[t] == if Placed(t) && TouchHit(t, x, y) then multiset(tasks)[t] else 0
    ensures Subsequence(r, tasks)
  {
    if |tasks| == 0 then []
    else
      var rest := TouchedTasks(tasks[1..], x, y);
      SplitHead(tasks);
      if TouchHit(tasks[0], x, y) then [tasks[0]] + rest else rest
  }


  /** For a task with a non-empty touch area, a tap hits exactly when it lands within `RectSide` of that area. */
  lemma TouchHitWithinReach(t: Task, x: real, y: real)
    requires Placed(t) && !IsEmpty(t.graphic.value.touchArea)
    ensures var a := t.graphic.value.touchArea;
      TouchHit(t, x, y) <==> (a.left - RectSide <= Trunc(x) < a.right + RectSide
                              && a.top - RectSide <= Trunc(y) < a.bottom + RectSide)
  {
  }

  /** One pass of `touchedTasks` as written: the tasks it returns and the layout it leaves behind. */
  datatype TouchPass = TouchPass(touched: seq<Task>, stored: seq<Task>)

  /** The stored touch area after `inset(-rectSide, -rectSide)` has been applied to it in place. */
  function WidenStored(t: Task): (w: Task)
    requires Placed(t)
    ensures Placed(w) && w.graphic.value.touchArea == Inset(t.graphic.value.touchArea, -RectSide, -RectSide)
    ensures w == t.(graphic := w.graphic)
  {
    t.(graphic := Some(t.graphic.value.(touchArea := Inset(t.graphic.value.touchArea, -RectSide, -RectSide))))
  }

  /**
   * `touchedTasks` as written: `inset` widens the rectangle the layout keeps, not a copy, so every
   * tap leaves each stored touch area `RectSide` larger on every side.
   */
  function TouchedTasksAsWritten(tasks: seq<Task>, x: real, y: real): (r: TouchPass)
    requires AllPlaced(tasks)
    ensures r.touched == TouchedTasks(tasks, x, y)
    ensures |r.stored| == |tasks| && AllPlaced(r.stored)
    ensures forall i :: 0 <= i < |tasks| ==> r.stored[i] == WidenStored(tasks[i])
  {
    TouchPass(TouchedTasks(tasks, x, y), seq(|tasks|, i requires 0 <= i < |tasks| => WidenStored(tasks[i])))
  }

  /**
   * A tap 25 pixels left of a task's touch area misses it, and the same tap repeated hits it,
   * because the first tap widened the stored area.
   */
  lemma TouchAreaDriftsAsWritten()
    ensures var t := Task(1, "a", 50, 50, false, Some(TaskGraphic(140.0, 100.0, 130.0, Rect(100, 110, 160, 140))));
      var first := TouchedTasksAsWritten([t], 75.0, 120.0);
      && first.touched == []
      && |TouchedTasksAsWritten(first.stored, 75.0, 120.0).touched| == 1
  {
    var t := Task(1, "a", 50, 50, false, Some(TaskGraphic(140.0, 100.0, 130.0, Rect(100, 110, 160, 140))));
    var first := TouchedTasksAsWritten([t], 75.0, 120.0);
    assert Trunc(75.0) == 75 && Trunc(120.0) == 120;
    assert !TouchHit(t, 75.0, 120.0);
    assert first.stored == [WidenStored(t)];
    assert TouchHit(WidenStored(t), 75.0, 120.0);
  }
}
