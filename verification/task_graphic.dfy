/** The glyph geometry of one task: where its checkbox, text and touch rectangle sit. */
module TaskGraphics {
  import opened Rects

  /**
   * `baseline` is the y of the bottom of the text and checkbox, `checkBoxStart` and `textStart`
   * the x of the left side of the checkbox and of the text; Java's `Float` fields become reals.
   */
  datatype TaskGraphic = TaskGraphic(baseline: real, checkBoxStart: real, textStart: real, touchArea: Rect)

  /** `TaskGraphic.move(dx, dy)`: a rigid translation of the whole glyph by integer amounts. */
  function Move(g: TaskGraphic, dx: int, dy: int): (m: TaskGraphic)
    ensures m.baseline - g.baseline == dy as real
    ensures m.checkBoxStart - g.checkBoxStart == dx as real && m.textStart - g.textStart == dx as real
    ensures m.touchArea.left - g.touchArea.left == dx && m.touchArea.right - g.touchArea.right == dx
    ensures m.touchArea.top - g.touchArea.top == dy && m.touchArea.bottom - g.touchArea.bottom == dy
    ensures m.textStart - m.checkBoxStart == g.textStart - g.checkBoxStart
    ensures m.baseline - m.touchArea.top as real == g.baseline - g.touchArea.top as real
    ensures Width(m.touchArea) == Width(g.touchArea) && Height(m.touchArea) == Height(g.touchArea)
  {
    TaskGraphic(g.baseline + dy as real, g.checkBoxStart + dx as real, g.textStart + dx as real,
                Offset(g.touchArea, dx, dy))
  }

  /** Moving by nothing changes nothing. */
  lemma MoveZero(g: TaskGraphic)
    ensures Move(g, 0, 0) == g
  {
  }

  /** Two moves compose into one move by the summed offsets. */
  lemma MoveCompose(g: TaskGraphic, a: int, b: int, c: int, d: int)
    ensures Move(Move(g, a, b), c, d) == Move(g, a + c, b + d)
  {
  }

  /** A move is undone by the opposite move. */
  lemma MoveInverse(g: TaskGraphic, dx: int, dy: int)
    ensures Move(Move(g, dx, dy), -dx, -dy) == g
  {
    MoveCompose(g, dx, dy, -dx, -dy);
    MoveZero(g);
  }
}
