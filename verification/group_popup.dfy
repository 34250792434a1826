/**
 * The popup that opens on a tapped group: it lays the group's tasks out inside a padded box,
 * answers which task a tap lands on, and colours its background by the group's position.
 */
module GroupPopup {
  import opened Wrappers
  import opened Numerics
  import opened Rects
  import opened Colors
  import opened Tasks
  import opened TaskGraphics
  import opened TaskDraw

  const Padding := 20

  function AreaOf(t: Task): Rect
    requires Placed(t)
  {
    t.graphic.value.touchArea
  }

  function Areas(tasks: seq<Task>): (rs: seq<Rect>)
    requires AllPlaced(tasks)
    ensures |rs| == |tasks| && forall i :: 0 <= i < |tasks| ==> rs[i] == AreaOf(tasks[i])
  {
    seq(|tasks|, i requires 0 <= i < |tasks| => AreaOf(tasks[i]))
  }

  /** The first task's touch area joined with each later one's, as the loop in `setGraphic` does. */
  function GroupArea(tasks: seq<Task>): Rect
    requires |tasks| > 0 && AllPlaced(tasks)
  {
    UnionFrom(AreaOf(tasks[0]), Areas(tasks)[1..])
  }

  function MoveTask(t: Task, dx: int, dy: int): (m: Task)
    requires Placed(t)
    ensures Placed(m)
  {
    t.(graphic := Some(Move(t.graphic.value, dx, dy)))
  }

  function MoveAll(tasks: seq<Task>, dx: int, dy: int): (ms: seq<Task>)
    requires AllPlaced(tasks)
    ensures |ms| == |tasks| && AllPlaced(ms)
    ensures forall i :: 0 <= i < |tasks| ==> ms[i] == MoveTask(tasks[i], dx, dy)
  {
    seq(|tasks|, i requires 0 <= i < |tasks| => MoveTask(tasks[i], dx, dy))
  }

  /** The popup's state after `setGraphic`: the moved tasks and the area measured before the move. */
  datatype PopupLayout = PopupLayout(tasks: seq<Task>, groupArea: Rect)

  /**
   * `setGraphic`: measures the union of the members' touch areas and translates every member by
   * the one vector that brings the union's top-left corner to (padding, padding). The group
   * must have a member and every member a graphic; otherwise Java fails with an unchecked exception.
   */
  function SetGraphic(tasks: seq<Task>): (p: PopupLayout)
    requires |tasks| > 0 && AllPlaced(tasks)
    ensures |p.tasks| == |tasks| && AllPlaced(p.tasks)
    ensures p.groupArea == GroupArea(tasks)
    ensures forall i :: 0 <= i < |tasks| ==>
      p.tasks[i] == MoveTask(tasks[i], Padding - p.groupArea.left, Padding - p.groupArea.top)
    ensures forall i, j :: 0 <= i < |tasks| && 0 <= j < |tasks| ==>
      AreaOf(p.tasks[i]).left - AreaOf(p.tasks[j]).left == AreaOf(tasks[i]).left - AreaOf(tasks[j]).left
      && AreaOf(p.tasks[i]).top - AreaOf(p.tasks[j]).top == AreaOf(tasks[i]).top - AreaOf(tasks[j]).top
  {
    var area := GroupArea(tasks);
    PopupLayout(MoveAll(tasks, Padding - area.left, Padding - area.top), area)
  }

  /** After `setGraphic` the members' union sits at (padding, padding) with its size unchanged. */
  lemma SetGraphicAnchorsUnion(tasks: seq<Task>)
    requires |tasks| > 0 && AllPlaced(tasks)
    ensures var p := SetGraphic(tasks);
      var moved := GroupArea(p.tasks);
      && moved.left == Padding && moved.top == Padding
      && Width(moved) == Width(p.groupArea) && Height(moved) == Height(p.groupArea)
  {
    var p := SetGraphic(tasks);
    var dx := Padding - p.groupArea.left;
    var dy := Padding - p.groupArea.top;
    var rs := Areas(tasks);
    assert Areas(p.tasks)[1..] == OffsetAll(rs[1..], dx, dy);
    assert AreaOf(p.tasks[0]) == Offset(rs[0], dx, dy);
    UnionFromOffset(rs[0], rs[1..], dx, dy);
  }

  /** With non-empty touch areas, the measured group area is the members' bounding box. */
  lemma GroupAreaIsBoundingBox(tasks: seq<Task>)
    requires |tasks| > 0 && AllPlaced(tasks)
    requires forall i :: 0 <= i < |tasks| ==> !IsEmpty(AreaOf(tasks[i]))
    ensures var u := GroupArea(tasks);
      && (forall i :: 0 <= i < |tasks| ==> Covers(u, AreaOf(tasks[i])))
      && (exists i :: 0 <= i < |tasks| && u.left == AreaOf(tasks[i]).left)
      && (exists i :: 0 <= i < |tasks| && u.top == AreaOf(tasks[i]).top)
      && (exists i :: 0 <= i < |tasks| && u.right == AreaOf(tasks[i]).right)
      && (exists i :: 0 <= i < |tasks| && u.bottom == AreaOf(tasks[i]).bottom)
  {
    var rs := Areas(tasks);
    UnionFromBoundingBox(rs[0], rs[1..]);
    var u := GroupArea(tasks);
    forall i | 0 <= i < |tasks|
      ensures Covers(u, AreaOf(tasks[i]))
    {
      if i > 0 {
        assert rs[1..][i - 1] == rs[i];
      }
    }
    if u.left != rs[0].left {
      var j :| 0 <= j < |rs[1..]| && u.left == rs[1..][j].left;
      assert u.left == AreaOf(tasks[j + 1]).left;
    }
    if u.top != rs[0].top {
      var j :| 0 <= j < |rs[1..]| && u.top == rs[1..][j].top;
      assert u.top == AreaOf(tasks[j + 1]).top;
    }
    if u.right != rs[0].right {
      var j :| 0 <= j < |rs[1..]| && u.right == rs[1..][j].right;
      assert u.right == AreaOf(tasks[j + 1]).right;
    }
    if u.bottom != rs[0].bottom {
      var j :| 0 <= j < |rs[1..]| && u.bottom == rs[1..][j].bottom;
      assert u.bottom == AreaOf(tasks[j + 1]).bottom;
    }
  }

  /** The layout size `prepareCanvas` sets: the group area plus the padding on both sides. */
  function PopupSize(groupArea: Rect): (size: (int, int))
    ensures size.0 - 2 * Padding == Width(groupArea) && size.1 - 2 * Padding == Height(groupArea)
  {
    (groupArea.right - groupArea.left + 2 * Padding, groupArea.bottom - groupArea.top + 2 * Padding)
  }

  /** Every member with a non-empty touch area ends up inside the popup, at least `Padding` from each edge. */
  lemma PopupHoldsMembers(tasks: seq<Task>)
    requires |tasks| > 0 && AllPlaced(tasks)
    requires forall i :: 0 <= i < |tasks| ==> !IsEmpty(AreaOf(tasks[i]))
    ensures var p := SetGraphic(tasks);
      var size := PopupSize(p.groupArea);
      forall i :: 0 <= i < |tasks| ==>
        var a := AreaOf(p.tasks[i]);
        Padding <= a.left && a.right <= size.0 - Padding && Padding <= a.top && a.bottom <= size.1 - Padding
  {
    GroupAreaIsBoundingBox(tasks);
  }

  /** The tap test of `getTouchedTask`: the plain touch area, not widened. */
  predicate PopupHit(t: Task, x: real, y: real)
    requires Placed(t)
  {
    Contains(AreaOf(t), Trunc(x), Trunc(y))
  }

  /** `getTouchedTask`: the first member, in order, whose touch area contains the tap, or `None`. */
  method GetTouchedTask(tasks: seq<Task>, x: real, y: real) returns (r: Option<Task>)
    requires AllPlaced(tasks)
    ensures r.Some? ==> exists i :: (0 <= i < |tasks| && tasks[i] == r.value && PopupHit(tasks[i], x, y)
                                     && forall j :: 0 <= j < i ==> !PopupHit(tasks[j], x, y))
    ensures r.None? <==> forall i :: 0 <= i < |tasks| ==> !PopupHit(tasks[i], x, y)
  {
    var i := 0;
    while i < |tasks|
      invariant 0 <= i <= |tasks|
      invariant forall j :: 0 <= j < i ==> !PopupHit(tasks[j], x, y)
    {
      if PopupHit(tasks[i], x, y) {
        return Some(tasks[i]);
      }
      i := i + 1;
    }
    return None;
  }

  /** The colour resources `highest`, `lowest` and `middle` (red, green and yellow in the app). */
  datatype Palette = Palette(highest: Color, lowest: Color, middle: Color)

  /** Integer average of two channels, rounded down. */
  function MidChannel(x: Byte, y: Byte): (m: Byte)
    ensures x + y - 1 <= 2 * m <= x + y
  {
    (x + y) / 2
  }

  /** The colour halfway between two others, channel by channel (`yellowRed`, `yellowGreen`). */
  function MidColor(c1: Color, c2: Color): (m: Color)
    ensures forall k :: ChannelOf(c1, k) + ChannelOf(c2, k) - 1 <= 2 * ChannelOf(m, k)
                        <= ChannelOf(c1, k) + ChannelOf(c2, k)
  {
    Color(MidChannel(c1.alpha, c2.alpha), MidChannel(c1.red, c2.red),
          MidChannel(c1.green, c2.green), MidChannel(c1.blue, c2.blue))
  }

  /** One quadrant of the gradient: its two weights and its four corner colours. */
  datatype Quadrant = Quadrant(xWeight: real, yWeight: real,
                               upperLeft: Color, upperRight: Color, lowerRight: Color, lowerLeft: Color)

  function YellowRed(p: Palette): Color { MidColor(p.middle, p.highest) }

  function YellowGreen(p: Palette): Color { MidColor(p.middle, p.lowest) }

  /** Important and urgent. */
  function HighHigh(p: Palette, importance: int, urgency: int): Quadrant
  {
    Quadrant((urgency - 50) as real / 50.0, (importance - 50) as real / 50.0,
             p.highest, YellowRed(p), p.middle, YellowRed(p))
  }

  /** Important, not urgent. */
  function HighLow(p: Palette, importance: int, urgency: int): Quadrant
  {
    Quadrant(urgency as real / 50.0, (importance - 50) as real / 50.0,
             YellowRed(p), p.middle, YellowGreen(p), p.middle)
  }

  /** Neither important nor urgent. */
  function LowLow(p: Palette, importance: int, urgency: int): Quadrant
  {
    Quadrant(urgency as real / 50.0, importance as real / 50.0,
             p.middle, YellowGreen(p), p.lowest, YellowGreen(p))
  }

  /** Urgent, not important. */
  function LowHigh(p: Palette, importance: int, urgency: int): Quadrant
  {
    Quadrant((urgency - 50) as real / 50.0, importance as real / 50.0,
             YellowRed(p), p.middle, YellowGreen(p), p.middle)
  }

  predicate WeightsInRange(q: Quadrant)
  {
    0.0 <= q.xWeight <= 1.0 && 0.0 <= q.yWeight <= 1.0
  }

  /**
   * The quadrant `getColor` picks. Importance 50 belongs to the lower half; urgency 50 belongs to
   * the right half above it and to the left half below it.
   */
  function ChooseQuadrant(p: Palette, importance: int, urgency: int): (q: Quadrant)
    requires 0 <= importance <= 100 && 0 <= urgency <= 100
    ensures WeightsInRange(q)
  {
    if importance > 50 then
      if urgency > 50 then HighHigh(p, importance, urgency) else HighLow(p, importance, urgency)
    else
      if urgency < 50 then LowLow(p, importance, urgency) else LowHigh(p, importance, urgency)
  }

  /**
   * The two-factor blend: `x` weighs the left corners against the right ones and `y` the upper
   * corners against the lower ones, grouped as in `getColor`.
   */
  function Mix(ul: real, ur: real, lr: real, ll: real, x: real, y: real): real
  {
    (ul * (y * x)) + (lr * (1.0 - x) * (1.0 - y)) + (ur * y * (1.0 - x)) + (ll * (1.0 - y) * x)
  }

  /** One channel of a quadrant's blend. */
  function Blend(q: Quadrant, k: Channel): real
  {
    Mix(ChannelOf(q.upperLeft, k) as real, ChannelOf(q.upperRight, k) as real,
        ChannelOf(q.lowerRight, k) as real, ChannelOf(q.lowerLeft, k) as real,
        q.xWeight, q.yWeight)
  }

  predicate CornersWithin(q: Quadrant, k: Channel, lo: int, hi: int)
  {
    && lo <= ChannelOf(q.upperLeft, k) <= hi
    && lo <= ChannelOf(q.upperRight, k) <= hi
    && lo <= ChannelOf(q.lowerRight, k) <= hi
    && lo <= ChannelOf(q.lowerLeft, k) <= hi
  }

  /** The four weights of a blend sum to one. */
  lemma WeightsSumToOne(x: real, y: real)
    ensures y * x + (1.0 - x) * (1.0 - y) + y * (1.0 - x) + (1.0 - y) * x == 1.0
  {
  }

  lemma ScaleBetween(c: real, w: real, lo: real, hi: real)
    requires 0.0 <= w && lo <= c <= hi
    ensures lo * w <= c * w <= hi * w
  {
  }

  lemma NonNegativeProduct(a: real, b: real)
    requires 0.0 <= a && 0.0 <= b
    ensures 0.0 <= a * b
  {
  }

  lemma Distribute(c: real, a: real, b: real, d: real, e: real)
    ensures c * a + c * b + c * d + c * e == c * (a + b + d + e)
  {
  }

  lemma SumBetween(a1: real, a2: real, a3: real, a4: real, b1: real, b2: real, b3: real, b4: real,
                   c1: real, c2: real, c3: real, c4: real)
    requires a1 <= b1 <= c1 && a2 <= b2 <= c2 && a3 <= b3 <= c3 && a4 <= b4 <= c4
    ensures a1 + a2 + a3 + a4 <= b1 + b2 + b3 + b4 <= c1 + c2 + c3 + c4
  {
  }

  /** A weighted sum with non-negative weights summing to one lies within the values' bounds. */
  lemma WeightedBetween(v1: real, v2: real, v3: real, v4: real, w1: real, w2: real, w3: real, w4: real,
                        lo: real, hi: real)
    requires 0.0 <= w1 && 0.0 <= w2 && 0.0 <= w3 && 0.0 <= w4 && w1 + w2 + w3 + w4 == 1.0
    requires lo <= v1 <= hi && lo <= v2 <= hi && lo <= v3 <= hi && lo <= v4 <= hi
    ensures lo <= v1 * w1 + v2 * w2 + v3 * w3 + v4 * w4 <= hi
  {
    ScaleBetween(v1, w1, lo, hi);
    ScaleBetween(v2, w2, lo, hi);
    ScaleBetween(v3, w3, lo, hi);
    ScaleBetween(v4, w4, lo, hi);
    SumBetween(lo * w1, lo * w2, lo * w3, lo * w4, v1 * w1, v2 * w2, v3 * w3, v4 * w4,
               hi * w1, hi * w2, hi * w3, hi * w4);
    Distribute(lo, w1, w2, w3, w4);
    Distribute(hi, w1, w2, w3, w4);
  }

  /** With weights in the unit square, the blend lies between the smallest and largest corner bound. */
  lemma MixWithin(ul: real, ur: real, lr: real, ll: real, x: real, y: real, lo: real, hi: real)
    requires 0.0 <= x <= 1.0 && 0.0 <= y <= 1.0
    requires lo <= ul <= hi && lo <= ur <= hi && lo <= lr <= hi && lo <= ll <= hi
    ensures lo <= Mix(ul, ur, lr, ll, x, y) <= hi
  {
    NonNegativeProduct(y, x);
    NonNegativeProduct(1.0 - x, 1.0 - y);
    NonNegativeProduct(y, 1.0 - x);
    NonNegativeProduct(1.0 - y, x);
    WeightsSumToOne(x, y);
    WeightedBetween(ul, lr, ur, ll, y * x, (1.0 - x) * (1.0 - y), y * (1.0 - x), (1.0 - y) * x, lo, hi);
  }

  /** The blend of a quadrant stays within the range of its corners. */
  lemma BlendWithin(q: Quadrant, k: Channel, lo: int, hi: int)
    requires WeightsInRange(q) && CornersWithin(q, k, lo, hi)
    ensures lo as real <= Blend(q, k) <= hi as real
  {
    MixWithin(ChannelOf(q.upperLeft, k) as real, ChannelOf(q.upperRight, k) as real,
              ChannelOf(q.lowerRight, k) as real, ChannelOf(q.lowerLeft, k) as real,
              q.xWeight, q.yWeight, lo as real, hi as real);
  }

  /** A blended channel, truncated by the `(int)` cast; it is a valid channel value. */
  function ResultChannel(q: Quadrant, k: Channel): (c: Byte)
    requires WeightsInRange(q)
    ensures c == Trunc(Blend(q, k))
  {
    BlendWithin(q, k, 0, 255);
    Trunc(Blend(q, k))
  }

  function MinChannel(p: Palette, k: Channel): int
  {
    var a := ChannelOf(p.highest, k);
    var b := ChannelOf(p.lowest, k);
    var c := ChannelOf(p.middle, k);
    if a <= b && a <= c then a else if b <= c then b else c
  }

  function MaxChannel(p: Palette, k: Channel): int
  {
    var a := ChannelOf(p.highest, k);
    var b := ChannelOf(p.lowest, k);
    var c := ChannelOf(p.middle, k);
    if a >= b && a >= c then a else if b >= c then b else c
  }

  /**
   * `getColor`: the background colour for a group at (importance, urgency), a bilinear blend
   * inside one of four quadrants whose corners are the three palette colours and their midpoints.
   */
  function GetColor(p: Palette, importance: int, urgency: int): (c: Argb32)
    requires 0 <= importance <= 100 && 0 <= urgency <= 100
    ensures forall k :: ChannelOf(Unpack(c), k) == ResultChannel(ChooseQuadrant(p, importance, urgency), k)
  {
    var q := ChooseQuadrant(p, importance, urgency);
    Pack(Color(ResultChannel(q, A), ResultChannel(q, R), ResultChannel(q, G), ResultChannel(q, B)))
  }

  /** The three palette colours lie within the palette's range. */
  lemma PaletteInRange(p: Palette, k: Channel)
    ensures MinChannel(p, k) <= ChannelOf(p.highest, k) <= MaxChannel(p, k)
    ensures MinChannel(p, k) <= ChannelOf(p.middle, k) <= MaxChannel(p, k)
    ensures MinChannel(p, k) <= ChannelOf(p.lowest, k) <= MaxChannel(p, k)
  {
  }

  /** The midpoint of two colours lies within any range holding both. */
  lemma MidBetween(c1: Color, c2: Color, k: Channel, lo: int, hi: int)
    requires lo <= ChannelOf(c1, k) <= hi && lo <= ChannelOf(c2, k) <= hi
    ensures lo <= ChannelOf(MidColor(c1, c2), k) <= hi
  {
  }

  /** A midpoint of two palette colours lies within the palette's range. */
  lemma MidInPalette(p: Palette, k: Channel)
    ensures MinChannel(p, k) <= ChannelOf(YellowRed(p), k) <= MaxChannel(p, k)
    ensures MinChannel(p, k) <= ChannelOf(YellowGreen(p), k) <= MaxChannel(p, k)
  {
    PaletteInRange(p, k);
    MidBetween(p.middle, p.highest, k, MinChannel(p, k), MaxChannel(p, k));
    MidBetween(p.middle, p.lowest, k, MinChannel(p, k), MaxChannel(p, k));
  }

  /** Every corner of the chosen quadrant, midpoints included, lies within the palette's range. */
  lemma CornersInPalette(p: Palette, importance: int, urgency: int, k: Channel)
    requires 0 <= importance <= 100 && 0 <= urgency <= 100
    ensures CornersWithin(ChooseQuadrant(p, importance, urgency), k, MinChannel(p, k), MaxChannel(p, k))
  {
    MidInPalette(p, k);
    PaletteInRange(p, k);
    var q := ChooseQuadrant(p, importance, urgency);
    assert q.upperLeft in {p.highest, p.middle, YellowRed(p)};
    assert q.upperRight in {p.middle, YellowRed(p), YellowGreen(p)};
    assert q.lowerRight in {p.middle, p.lowest, YellowGreen(p)};
    assert q.lowerLeft in {p.middle, YellowRed(p), YellowGreen(p)};
  }

  /** Every channel of the colour stays within the palette's range for that channel. */
  lemma GetColorWithinPalette(p: Palette, importance: int, urgency: int, k: Channel)
    requires 0 <= importance <= 100 && 0 <= urgency <= 100
    ensures MinChannel(p, k) <= ChannelOf(Unpack(GetColor(p, importance, urgency)), k) <= MaxChannel(p, k)
  {
    var q := ChooseQuadrant(p, importance, urgency);
    CornersInPalette(p, importance, urgency, k);
    BlendWithin(q, k, MinChannel(p, k), MaxChannel(p, k));
    TruncBetween(Blend(q, k), MinChannel(p, k), MaxChannel(p, k));
  }

  lemma TruncBetween(v: real, lo: int, hi: int)
    requires 0 <= lo && lo as real <= v <= hi as real
    ensures lo <= Trunc(v) <= hi
  {
  }

  /** When every channel of the chosen quadrant's blend is exactly one colour's channel, the result is that colour. */
  lemma ColorIsCorner(p: Palette, importance: int, urgency: int, corner: Color)
    requires 0 <= importance <= 100 && 0 <= urgency <= 100
    requires forall k :: Blend(ChooseQuadrant(p, importance, urgency), k) == ChannelOf(corner, k) as real
    ensures GetColor(p, importance, urgency) == Pack(corner)
  {
    var q := ChooseQuadrant(p, importance, urgency);
    forall k
      ensures ResultChannel(q, k) == ChannelOf(corner, k)
    {
      TruncOfWhole(ChannelOf(corner, k));
    }
    assert Color(ResultChannel(q, A), ResultChannel(q, R), ResultChannel(q, G), ResultChannel(q, B)) == corner;
  }

  /** Truncating a whole number leaves it unchanged. */
  lemma TruncOfWhole(n: nat)
    ensures Trunc(n as real) == n
  {
  }

  lemma BlendAtUpperLeft(q: Quadrant, k: Channel)
    requires q.xWeight == 1.0 && q.yWeight == 1.0
    ensures Blend(q, k) == ChannelOf(q.upperLeft, k) as real
  {
  }

  lemma BlendAtLowerRight(q: Quadrant, k: Channel)
    requires q.xWeight == 0.0 && q.yWeight == 0.0
    ensures Blend(q, k) == ChannelOf(q.lowerRight, k) as real
  {
  }

  lemma BlendAtUpperRight(q: Quadrant, k: Channel)
    requires q.xWeight == 0.0 && q.yWeight == 1.0
    ensures Blend(q, k) == ChannelOf(q.upperRight, k) as real
  {
  }

  /** The most important and most urgent position gets exactly the `highest` colour. */
  lemma ColorAtTopLeft(p: Palette)
    ensures GetColor(p, 100, 100) == Pack(p.highest)
  {
    var q := ChooseQuadrant(p, 100, 100);
    forall k
      ensures Blend(q, k) == ChannelOf(p.highest, k) as real
    {
      BlendAtUpperLeft(q, k);
    }
    ColorIsCorner(p, 100, 100, p.highest);
  }

  /** The least important and least urgent position gets exactly the `lowest` colour. */
  lemma ColorAtBottomRight(p: Palette)
    ensures GetColor(p, 0, 0) == Pack(p.lowest)
  {
    var q := ChooseQuadrant(p, 0, 0);
    forall k
      ensures Blend(q, k) == ChannelOf(p.lowest, k) as real
    {
      BlendAtLowerRight(q, k);
    }
    ColorIsCorner(p, 0, 0, p.lowest);
  }

  /** The centre gets exactly the `middle` colour. */
  lemma ColorAtCentre(p: Palette)
    ensures GetColor(p, 50, 50) == Pack(p.middle)
  {
    var q := ChooseQuadrant(p, 50, 50);
    forall k
      ensures Blend(q, k) == ChannelOf(p.middle, k) as real
    {
      BlendAtUpperRight(q, k);
    }
    ColorIsCorner(p, 50, 50, p.middle);
  }

  /** On the lower edge (`y` = 0) only the two lower corners contribute. */
  lemma BlendLowerEdge(q: Quadrant, k: Channel)
    requires q.yWeight == 0.0
    ensures Blend(q, k) == ChannelOf(q.lowerRight, k) as real * (1.0 - q.xWeight)
                           + ChannelOf(q.lowerLeft, k) as real * q.xWeight
  {
  }

  /** On the upper edge (`y` = 1) only the two upper corners contribute. */
  lemma BlendUpperEdge(q: Quadrant, k: Channel)
    requires q.yWeight == 1.0
    ensures Blend(q, k) == ChannelOf(q.upperLeft, k) as real * q.xWeight
                           + ChannelOf(q.upperRight, k) as real * (1.0 - q.xWeight)
  {
  }

  /** On the right edge (`x` = 0) only the two right corners contribute. */
  lemma BlendRightEdge(q: Quadrant, k: Channel)
    requires q.xWeight == 0.0
    ensures Blend(q, k) == ChannelOf(q.lowerRight, k) as real * (1.0 - q.yWeight)
                           + ChannelOf(q.upperRight, k) as real * q.yWeight
  {
  }

  /** On the left edge (`x` = 1) only the two left corners contribute. */
  lemma BlendLeftEdge(q: Quadrant, k: Channel)
    requires q.xWeight == 1.0
    ensures Blend(q, k) == ChannelOf(q.upperLeft, k) as real * q.yWeight
                           + ChannelOf(q.lowerLeft, k) as real * (1.0 - q.yWeight)
  {
  }

  /** A quadrant's lower edge and the upper edge of the one below it agree when they share corners and `x`. */
  lemma StackedQuadrantsMeet(upper: Quadrant, lower: Quadrant, k: Channel)
    requires upper.yWeight == 0.0 && lower.yWeight == 1.0 && upper.xWeight == lower.xWeight
    requires upper.lowerRight == lower.upperRight && upper.lowerLeft == lower.upperLeft
    ensures Blend(upper, k) == Blend(lower, k)
  {
    BlendLowerEdge(upper, k);
    BlendUpperEdge(lower, k);
  }

  /** A quadrant's right edge and the left edge of the one beside it agree when they share corners and `y`. */
  lemma AdjacentQuadrantsMeet(left: Quadrant, right: Quadrant, k: Channel)
    requires left.xWeight == 0.0 && right.xWeight == 1.0 && left.yWeight == right.yWeight
    requires left.lowerRight == right.lowerLeft && left.upperRight == right.upperLeft
    ensures Blend(left, k) == Blend(right, k)
  {
    BlendRightEdge(left, k);
    BlendLeftEdge(right, k);
  }

  /**
   * Across importance 50 on the urgent (left) half of the canvas: the important quadrant's lower
   * edge meets the unimportant quadrant's upper edge, so the gradient has no step there.
   */
  lemma SeamUrgentSide(p: Palette, urgency: int, k: Channel)
    ensures Blend(HighHigh(p, 50, urgency), k) == Blend(LowHigh(p, 50, urgency), k)
  {
    StackedQuadrantsMeet(HighHigh(p, 50, urgency), LowHigh(p, 50, urgency), k);
  }

  /** Across importance 50 on the non-urgent (right) half. */
  lemma SeamCalmSide(p: Palette, urgency: int, k: Channel)
    ensures Blend(HighLow(p, 50, urgency), k) == Blend(LowLow(p, 50, urgency), k)
  {
    StackedQuadrantsMeet(HighLow(p, 50, urgency), LowLow(p, 50, urgency), k);
  }

  /** Across urgency 50 on the important (upper) half. */
  lemma SeamImportantSide(p: Palette, importance: int, k: Channel)
    ensures Blend(HighHigh(p, importance, 50), k) == Blend(HighLow(p, importance, 50), k)
  {
    AdjacentQuadrantsMeet(HighHigh(p, importance, 50), HighLow(p, importance, 50), k);
  }

  /** Across urgency 50 on the unimportant (lower) half. */
  lemma SeamUnimportantSide(p: Palette, importance: int, k: Channel)
    ensures Blend(LowLow(p, importance, 50), k) == Blend(LowHigh(p, importance, 50), k)
  {
    AdjacentQuadrantsMeet(LowHigh(p, importance, 50), LowLow(p, importance, 50), k);
  }
}
