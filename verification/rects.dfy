/**
 * The part of Android's `android.graphics.Rect` the program relies on: integer edges,
 * `offset`, `inset`, `union` and the half-open `contains` test.
 */
module Rects {

  datatype Rect = Rect(left: int, top: int, right: int, bottom: int)

  function Width(r: Rect): int { r.right - r.left }

  function Height(r: Rect): int { r.bottom - r.top }

  /** Android treats a rectangle with no area as empty; `union` and `contains` ignore such rectangles. */
  predicate IsEmpty(r: Rect) { r.left >= r.right || r.top >= r.bottom }

  /** `outer` covers `inner` edge by edge. */
  predicate Covers(outer: Rect, inner: Rect)
  {
    outer.left <= inner.left && outer.top <= inner.top
    && inner.right <= outer.right && inner.bottom <= outer.bottom
  }

  /** `Rect.offset(dx, dy)`: translates all four edges. */
  function Offset(r: Rect, dx: int, dy: int): (o: Rect)
    ensures o.left == r.left + dx && o.top == r.top + dy
    ensures Width(o) == Width(r) && Height(o) == Height(r)
    ensures IsEmpty(o) <==> IsEmpty(r)
    ensures forall x, y :: Contains(o, x + dx, y + dy) <==> Contains(r, x, y)
  {
    Rect(r.left + dx, r.top + dy, r.right + dx, r.bottom + dy)
  }

  /** `Rect.inset(dx, dy)`: moves each edge inwards about a fixed centre; negative amounts inflate the rectangle. */
  function Inset(r: Rect, dx: int, dy: int): (o: Rect)
    ensures Width(o) == Width(r) - 2 * dx && Height(o) == Height(r) - 2 * dy
    ensures o.left + o.right == r.left + r.right && o.top + o.bottom == r.top + r.bottom
    ensures dx <= 0 && dy <= 0 ==> Covers(o, r)
  {
    Rect(r.left + dx, r.top + dy, r.right - dx, r.bottom - dy)
  }

  /** `Rect.contains(x, y)`: left and top edges inclusive, right and bottom exclusive, never true of an empty rectangle. */
  predicate Contains(r: Rect, x: int, y: int)
  {
    r.left < r.right && r.top < r.bottom
    && r.left <= x < r.right && r.top <= y < r.bottom
  }

  /**
   * `Rect.union(r)`: grows `a` to enclose `b`. An empty `b` leaves `a` alone; an empty `a`
   * is replaced by `b`.
   */
  function Union(a: Rect, b: Rect): (u: Rect)
    ensures IsEmpty(b) ==> u == a
    ensures !IsEmpty(b) ==> Covers(u, b) && !IsEmpty(u)
    ensures !IsEmpty(a) ==> Covers(u, a)
    ensures !IsEmpty(b) && IsEmpty(a) ==> u == b
    ensures u.left == a.left || u.left == b.left
    ensures u.top == a.top || u.top == b.top
    ensures u.right == a.right || u.right == b.right
    ensures u.bottom == a.bottom || u.bottom == b.bottom
  {
    if IsEmpty(b) then a
    else if IsEmpty(a) then b
    else Rect(
      if a.left > b.left then b.left else a.left,
      if a.top > b.top then b.top else a.top,
      if a.right < b.right then b.right else a.right,
      if a.bottom < b.bottom then b.bottom else a.bottom)
  }

  /** Translating two rectangles and then joining them is the same as joining them first. */
  lemma OffsetUnion(a: Rect, b: Rect, dx: int, dy: int)
    ensures Union(Offset(a, dx, dy), Offset(b, dx, dy)) == Offset(Union(a, b), dx, dy)
  {
  }

  /** The rectangles' union taken from left to right, starting from `acc`, as a loop of `union` calls does. */
  function UnionFrom(acc: Rect, rs: seq<Rect>): Rect
    decreases |rs|
  {
    if |rs| == 0 then acc else UnionFrom(Union(acc, rs[0]), rs[1..])
  }

  function OffsetAll(rs: seq<Rect>, dx: int, dy: int): (os: seq<Rect>)
    ensures |os| == |rs|
    ensures forall i :: 0 <= i < |rs| ==> os[i] == Offset(rs[i], dx, dy)
  {
    seq(|rs|, i requires 0 <= i < |rs| => Offset(rs[i], dx, dy))
  }

  /** Joining translated rectangles gives the translated join. */
  lemma {:induction false} UnionFromOffset(acc: Rect, rs: seq<Rect>, dx: int, dy: int)
    ensures UnionFrom(Offset(acc, dx, dy), OffsetAll(rs, dx, dy)) == Offset(UnionFrom(acc, rs), dx, dy)
    decreases |rs|
  {
    if |rs| > 0 {
      OffsetUnion(acc, rs[0], dx, dy);
      assert OffsetAll(rs, dx, dy)[1..] == OffsetAll(rs[1..], dx, dy);
      UnionFromOffset(Union(acc, rs[0]), rs[1..], dx, dy);
    }
  }

  /**
   * Starting from a non-empty rectangle, the join of non-empty rectangles is their bounding
   * box: it covers each of them, and each of its edges is an edge of one of them.
   */
  lemma {:induction false} UnionFromBoundingBox(acc: Rect, rs: seq<Rect>)
    requires !IsEmpty(acc)
    requires forall i :: 0 <= i < |rs| ==> !IsEmpty(rs[i])
    ensures var u := UnionFrom(acc, rs);
      && !IsEmpty(u) && Covers(u, acc)
      && (forall i :: 0 <= i < |rs| ==> Covers(u, rs[i]))
      && (u.left == acc.left || exists i :: 0 <= i < |rs| && u.left == rs[i].left)
      && (u.top == acc.top || exists i :: 0 <= i < |rs| && u.top == rs[i].top)
      && (u.right == acc.right || exists i :: 0 <= i < |rs| && u.right == rs[i].right)
      && (u.bottom == acc.bottom || exists i :: 0 <= i < |rs| && u.bottom == rs[i].bottom)
    decreases |rs|
  {
    if |rs| > 0 {
      var a1 := Union(acc, rs[0]);
      UnionFromBoundingBox(a1, rs[1..]);
      var u := UnionFrom(a1, rs[1..]);
      assert u == UnionFrom(acc, rs);
      forall i | 0 <= i < |rs|
        ensures Covers(u, rs[i])
      {
        if i > 0 {
          assert rs[1..][i - 1] == rs[i];
        }
      }
      if u.left != acc.left && u.left == a1.left {
        assert u.left == rs[0].left;
      }
      if u.left != a1.left {
        var j :| 0 <= j < |rs[1..]| && u.left == rs[1..][j].left;
        assert u.left == rs[j + 1].left;
      }
      if u.top != a1.top {
        var j :| 0 <= j < |rs[1..]| && u.top == rs[1..][j].top;
        assert u.top == rs[j + 1].top;
      }
      if u.right != a1.right {
        var j :| 0 <= j < |rs[1..]| && u.right == rs[1..][j].right;
        assert u.right == rs[j + 1].right;
      }
      if u.bottom != a1.bottom {
        var j :| 0 <= j < |rs[1..]| && u.bottom == rs[1..][j].bottom;
        assert u.bottom == rs[j + 1].bottom;
      }
    }
  }
}
