/**
 * The line rasteriser: the sequence of points that the all-octant
 * error-accumulation loop of `draw_line` hands to `draw_point`.
 */
module Bresenham {
  import opened Raster
  import opened Arith

  function Abs(v: int): nat
  {
    if v < 0 then -v else v
  }

  function Max(a: int, b: int): int
  {
    if a < b then b else a
  }

  function Min(a: int, b: int): int
  {
    if a < b then a else b
  }

  /** The quantities `draw_line` fixes before its loop: target, deltas and step directions. */
  datatype Line = Line(x1: int, y1: int, dx: int, dy: int, sx: int, sy: int)

  /**
   * `dx` steps of `sx` lead from x0 to x1 and `dy` steps of `sy` from y0 to
   * y1; a direction is -1 when its coordinate does not grow.
   */
  function Setup(x0: int, y0: int, x1: int, y1: int): (l: Line)
    ensures l.x1 == x1 && l.y1 == y1 && l.dx >= 0 && l.dy >= 0
    ensures (l.sx == 1 || l.sx == -1) && (l.sy == 1 || l.sy == -1)
    ensures x0 + l.sx * l.dx == x1 && y0 + l.sy * l.dy == y1
    ensures (l.sx == 1 <==> x0 < x1) && (l.sy == 1 <==> y0 < y1)
  {
    Line(x1, y1, Abs(x1 - x0), Abs(y1 - y0), if x0 < x1 then 1 else -1, if y0 < y1 then 1 else -1)
  }

  /** Distance still to go from v to the target, measured along the step direction. */
  function Remaining(s: int, target: int, v: int): int
  {
    if s == 1 then target - v else v - target
  }

  /** The loop variables of `draw_line`: the current point and the error term. */
  datatype Cursor = Cursor(x: int, y: int, err: int)

  function RemX(l: Line, c: Cursor): int
  {
    Remaining(l.sx, l.x1, c.x)
  }

  function RemY(l: Line, c: Cursor): int
  {
    Remaining(l.sy, l.y1, c.y)
  }

  predicate AtTarget(l: Line, c: Cursor)
  {
    c.x == l.x1 && c.y == l.y1
  }

  /**
   * The cursor is one the loop can reach: neither coordinate has passed its
   * target, and err is the initial dx - dy corrected by the cross product of
   * the remaining distances with the deltas.
   */
  ghost predicate Reachable(l: Line, c: Cursor)
  {
    (l.sx == 1 || l.sx == -1) && (l.sy == 1 || l.sy == -1) &&
    0 <= RemX(l, c) <= l.dx && 0 <= RemY(l, c) <= l.dy &&
    c.err == l.dx - l.dy + Times(RemX(l, c), l.dy) - Times(RemY(l, c), l.dx)
  }

  /**
   * One pass of the loop body after the exit test: the error doubling and
   * the two guarded steps. Each coordinate moves by zero or one step in its
   * direction, and the error pays dy for an x step and earns dx for a y step.
   */
  function Step(l: Line, c: Cursor): (n: Cursor)
    ensures n.x == c.x || n.x == c.x + l.sx
    ensures n.y == c.y || n.y == c.y + l.sy
    ensures l.sx != 0 && l.sy != 0 ==>
      n.err == c.err - (if n.x != c.x then l.dy else 0) + (if n.y != c.y then l.dx else 0)
  {
    var e2 := 2 * c.err;
    var (x, err) := if e2 > -l.dy then (c.x + l.sx, c.err - l.dy) else (c.x, c.err);
    var (y, err') := if e2 < l.dx then (c.y + l.sy, err + l.dx) else (c.y, err);
    Cursor(x, y, err')
  }

  /** The error term of a reachable cursor, with the products written out. */
  lemma ReachableError(l: Line, c: Cursor)
    requires Reachable(l, c)
    ensures c.err == l.dx - l.dy + RemX(l, c) * l.dy - RemY(l, c) * l.dx
  {
    TimesIsMul(RemX(l, c), l.dy);
    TimesIsMul(RemY(l, c), l.dx);
  }

  /** The body of the `draw_line` loop after the point is plotted, as the C code writes it. */
  method Advance(l: Line, x: int, y: int, err: int) returns (x': int, y': int, err': int)
    ensures Cursor(x', y', err') == Step(l, Cursor(x, y, err))
  {
    x', y', err' := x, y, err;
    var e2 := 2 * err';
    if e2 > -l.dy {
      err' := err' - l.dy;
      x' := x' + l.sx;
    }
    if e2 < l.dx {
      err' := err' + l.dx;
      y' := y' + l.sy;
    }
  }

  /**
   * The error-term arithmetic of one loop pass, on the remaining distances:
   * some axis steps, no axis steps past its target, and the error keeps its
   * relation to the remaining distances.
   */
  lemma ErrorStep(dx: int, dy: int, rx: int, ry: int, err: int)
    requires 0 <= rx <= dx && 0 <= ry <= dy && rx + ry > 0
    requires err == dx - dy + rx * dy - ry * dx
    ensures var xStep, yStep := 2 * err > -dy, 2 * err < dx;
      (xStep || yStep) && (xStep ==> rx > 0) && (yStep ==> ry > 0) &&
      var rx', ry' := if xStep then rx - 1 else rx, if yStep then ry - 1 else ry;
      (if yStep then (if xStep then err - dy else err) + dx else if xStep then err - dy else err)
        == dx - dy + rx' * dy - ry' * dx
  {
    if rx == 0 {
      // only y is left to travel: the error is at most -dy, so x stays
      assert ry * dx >= dx by { assert (ry - 1) * dx >= 0; }
    } else if ry == 0 {
      // only x is left to travel: the error is at least dx, so y stays
      assert rx * dy >= dy by { assert (rx - 1) * dy >= 0; }
    }
    assert (rx - 1) * dy == rx * dy - dy;
    assert (ry - 1) * dx == ry * dx - dx;
  }

  /**
   * A step from a reachable cursor that is not at the target stays
   * reachable, moves each coordinate by zero or one unit towards its
   * target, and strictly shortens the remaining distance.
   */
  lemma StepReachable(l: Line, c: Cursor)
    requires Reachable(l, c) && !AtTarget(l, c)
    ensures Reachable(l, Step(l, c))
    ensures Step(l, c).x == c.x || Step(l, c).x == c.x + l.sx
    ensures Step(l, c).y == c.y || Step(l, c).y == c.y + l.sy
    ensures RemX(l, Step(l, c)) + RemY(l, Step(l, c)) < RemX(l, c) + RemY(l, c)
  {
    ReachableError(l, c);
    ErrorStep(l.dx, l.dy, RemX(l, c), RemY(l, c), c.err);
    TimesIsMul(RemX(l, Step(l, c)), l.dy);
    TimesIsMul(RemY(l, Step(l, c)), l.dx);
  }

  /** The points plotted from a reachable cursor up to and including the target. */
  ghost function Walk(l: Line, c: Cursor): (path: seq<Point>)
    requires Reachable(l, c)
    ensures |path| >= 1 && path[0] == Point(c.x, c.y)
    decreases RemX(l, c) + RemY(l, c)
  {
    if AtTarget(l, c) then [Point(c.x, c.y)]
    else
      StepReachable(l, c);
      [Point(c.x, c.y)] + Walk(l, Step(l, c))
  }

  /** One pass of the loop: the walk is the cursor's point, then either nothing or the walk from the next cursor. */
  lemma WalkUnfold(l: Line, c: Cursor)
    requires Reachable(l, c)
    ensures AtTarget(l, c) ==> Walk(l, c) == [Point(c.x, c.y)]
    ensures !AtTarget(l, c) ==> Reachable(l, Step(l, c)) && Walk(l, c) == [Point(c.x, c.y)] + Walk(l, Step(l, c))
  {
    if !AtTarget(l, c) {
      StepReachable(l, c);
    }
  }

  function Start(x0: int, y0: int, x1: int, y1: int): Cursor
  {
    var l := Setup(x0, y0, x1, y1);
    Cursor(x0, y0, l.dx - l.dy)
  }

  lemma StartReachable(x0: int, y0: int, x1: int, y1: int)
    ensures Reachable(Setup(x0, y0, x1, y1), Start(x0, y0, x1, y1))
    ensures RemX(Setup(x0, y0, x1, y1), Start(x0, y0, x1, y1)) == Abs(x1 - x0)
    ensures RemY(Setup(x0, y0, x1, y1), Start(x0, y0, x1, y1)) == Abs(y1 - y0)
  {
    var l := Setup(x0, y0, x1, y1);
    TimesIsMul(l.dx, l.dy);
    TimesIsMul(l.dy, l.dx);
    assert l.dx * l.dy == l.dy * l.dx;
  }

  /** Every point `draw_line(x0, y0, x1, y1, _)` plots, in order. */
  ghost function LinePath(x0: int, y0: int, x1: int, y1: int): (path: seq<Point>)
    ensures |path| >= 1 && path[0] == Point(x0, y0)
  {
    StartReachable(x0, y0, x1, y1);
    Walk(Setup(x0, y0, x1, y1), Start(x0, y0, x1, y1))
  }

  /**
   * The state of the `draw_line` loop: the points in `done` are plotted, the
   * cursor c is reachable, and the rest of the line is the walk from c.
   */
  ghost predicate Tracing(x0: int, y0: int, x1: int, y1: int, done: seq<Point>, c: Cursor)
  {
    Reachable(Setup(x0, y0, x1, y1), c) && LinePath(x0, y0, x1, y1) == done + Walk(Setup(x0, y0, x1, y1), c)
  }

  /** The loop starts with nothing plotted and the cursor on (x0, y0). */
  lemma TraceStart(x0: int, y0: int, x1: int, y1: int)
    ensures Tracing(x0, y0, x1, y1, [], Start(x0, y0, x1, y1))
  {
    StartReachable(x0, y0, x1, y1);
    assert [] + Walk(Setup(x0, y0, x1, y1), Start(x0, y0, x1, y1)) == LinePath(x0, y0, x1, y1);
  }

  /**
   * One pass of the loop: the cursor's point is the next point of the line;
   * at the target it is the last one, otherwise the step keeps the loop state
   * and shortens the remaining distance.
   */
  lemma TraceStep(x0: int, y0: int, x1: int, y1: int, done: seq<Point>, c: Cursor)
    requires Tracing(x0, y0, x1, y1, done, c)
    ensures |done| < |LinePath(x0, y0, x1, y1)| && LinePath(x0, y0, x1, y1)[|done|] == Point(c.x, c.y)
    ensures AtTarget(Setup(x0, y0, x1, y1), c) ==> LinePath(x0, y0, x1, y1) == done + [Point(c.x, c.y)]
    ensures !AtTarget(Setup(x0, y0, x1, y1), c) ==>
      Tracing(x0, y0, x1, y1, done + [Point(c.x, c.y)], Step(Setup(x0, y0, x1, y1), c)) &&
      RemX(Setup(x0, y0, x1, y1), Step(Setup(x0, y0, x1, y1), c)) + RemY(Setup(x0, y0, x1, y1), Step(Setup(x0, y0, x1, y1), c))
        < RemX(Setup(x0, y0, x1, y1), c) + RemY(Setup(x0, y0, x1, y1), c)
  {
    var l := Setup(x0, y0, x1, y1);
    WalkUnfold(l, c);
    if !AtTarget(l, c) {
      StepReachable(l, c);
      assert done + Walk(l, c) == (done + [Point(c.x, c.y)]) + Walk(l, Step(l, c));
    }
  }

  /** The walk ends at the target. */
  lemma {:induction false} WalkLast(l: Line, c: Cursor)
    requires Reachable(l, c)
    ensures var path := Walk(l, c); path[|path| - 1] == Point(l.x1, l.y1)
    decreases RemX(l, c) + RemY(l, c)
  {
    if !AtTarget(l, c) {
      StepReachable(l, c);
      WalkLast(l, Step(l, c));
    }
  }

  /** q follows p on a line with step directions (sx, sy): at most one unit per axis, towards the target. */
  predicate Adjacent(l: Line, p: Point, q: Point)
  {
    (q.x == p.x || q.x == p.x + l.sx) && (q.y == p.y || q.y == p.y + l.sy) && q != p
  }

  /** Consecutive points differ by zero or one unit per axis, always towards the target, and never repeat. */
  lemma {:induction false} WalkSteps(l: Line, c: Cursor)
    requires Reachable(l, c)
    ensures forall k :: 0 <= k < |Walk(l, c)| - 1 ==> Adjacent(l, Walk(l, c)[k], Walk(l, c)[k + 1])
    decreases RemX(l, c) + RemY(l, c)
  {
    if !AtTarget(l, c) {
      StepReachable(l, c);
      WalkSteps(l, Step(l, c));
      var path, rest := Walk(l, c), Walk(l, Step(l, c));
      assert path == [Point(c.x, c.y)] + rest;
      forall k | 0 <= k < |path| - 1
        ensures Adjacent(l, path[k], path[k + 1])
      {
        if k == 0 {
          assert path[1] == rest[0] == Point(Step(l, c).x, Step(l, c).y);
        } else {
          assert path[k] == rest[k - 1] && path[k + 1] == rest[k];
          assert Adjacent(l, rest[k - 1], rest[k - 1 + 1]);
        }
      }
    }
  }

  /** Every point of the walk lies between the cursor and the target on both axes. */
  lemma {:induction false} WalkBetween(l: Line, c: Cursor)
    requires Reachable(l, c)
    ensures forall p :: p in Walk(l, c) ==>
      0 <= Remaining(l.sx, l.x1, p.x) <= RemX(l, c) &&
      0 <= Remaining(l.sy, l.y1, p.y) <= RemY(l, c)
    decreases RemX(l, c) + RemY(l, c)
  {
    if !AtTarget(l, c) {
      StepReachable(l, c);
      WalkBetween(l, Step(l, c));
    }
  }

  /**
   * The error term stays in the band that makes the major axis step on
   * every pass: for a shallow line (dx >= dy) x always steps, for a steep
   * one (dy >= dx) y always steps. Stated on err - dx + dy, the deviation
   * of the cursor from the ideal line.
   */
  ghost predicate Banded(l: Line, c: Cursor)
  {
    var d := c.err - l.dx + l.dy;
    (l.dx >= l.dy && l.dx > 0 ==> l.dy - 2 * l.dx < 2 * d < l.dx) &&
    (l.dy >= l.dx && l.dy > 0 ==> -l.dy < 2 * d < 2 * l.dy - l.dx)
  }

  lemma StartBanded(x0: int, y0: int, x1: int, y1: int)
    ensures Banded(Setup(x0, y0, x1, y1), Start(x0, y0, x1, y1))
  {
  }

  /** A banded step keeps the band and always advances the major axis. */
  lemma StepBanded(l: Line, c: Cursor)
    requires Reachable(l, c) && Banded(l, c) && !AtTarget(l, c)
    ensures Banded(l, Step(l, c))
    ensures l.dx >= l.dy ==> RemX(l, Step(l, c)) == RemX(l, c) - 1
    ensures l.dy >= l.dx ==> RemY(l, Step(l, c)) == RemY(l, c) - 1
  {
    StepReachable(l, c);
  }

  /** If ry exceeds rx, the cross product rx*dy - ry*dx is at most -dx once dy <= dx. */
  lemma ShallowBound(dx: int, dy: int, rx: int, ry: int)
    requires 0 <= rx && 0 <= dy <= dx && rx < ry
    ensures rx * dy - ry * dx <= -dx
  {
    var k := ry - rx - 1;
    MulDistributes(dx, rx, k + 1);
    MulDistributes(dx, k, 1);
    MulNonNegative(dx, k);
    MulDistributes(rx, dy, dx - dy);
    MulNonNegative(rx, dx - dy);
  }

  /** If rx exceeds ry, the cross product rx*dy - ry*dx is at least dy once dx <= dy. */
  lemma SteepBound(dx: int, dy: int, rx: int, ry: int)
    requires 0 <= ry && 0 <= dx <= dy && ry < rx
    ensures rx * dy - ry * dx >= dy
  {
    var k := rx - ry - 1;
    MulDistributes(dy, ry, k + 1);
    MulDistributes(dy, k, 1);
    MulNonNegative(dy, k);
    MulDistributes(ry, dx, dy - dx);
    MulNonNegative(ry, dy - dx);
  }

  /** Within the band the minor axis never has further to go than the major one. */
  lemma BandedOrder(l: Line, c: Cursor)
    requires Reachable(l, c) && Banded(l, c)
    ensures l.dx >= l.dy ==> RemY(l, c) <= RemX(l, c)
    ensures l.dy >= l.dx ==> RemX(l, c) <= RemY(l, c)
  {
    var rx, ry := RemX(l, c), RemY(l, c);
    ReachableError(l, c);
    if l.dx >= l.dy && rx < ry {
      ShallowBound(l.dx, l.dy, rx, ry);
    }
    if l.dy >= l.dx && ry < rx {
      SteepBound(l.dx, l.dy, rx, ry);
    }
  }

  /** From a banded cursor the walk has one point per unit of the longer remaining distance, plus one. */
  lemma {:induction false} WalkLength(l: Line, c: Cursor)
    requires Reachable(l, c) && Banded(l, c)
    ensures |Walk(l, c)| == Max(RemX(l, c), RemY(l, c)) + 1
    decreases RemX(l, c) + RemY(l, c)
  {
    BandedOrder(l, c);
    if !AtTarget(l, c) {
      StepReachable(l, c);
      StepBanded(l, c);
      WalkLength(l, Step(l, c));
      BandedOrder(l, Step(l, c));
    }
  }

  /** A walk along a row (dy == 0) visits every column between the cursor and the target. */
  lemma {:induction false} WalkRow(l: Line, c: Cursor)
    requires Reachable(l, c) && l.dy == 0
    ensures forall v :: 0 <= Remaining(l.sx, l.x1, v) <= RemX(l, c) ==> Point(v, c.y) in Walk(l, c)
    decreases RemX(l, c)
  {
    if !AtTarget(l, c) {
      StepReachable(l, c);
      ReachableError(l, c);
      ErrorStep(l.dx, l.dy, RemX(l, c), RemY(l, c), c.err);
      var next := Step(l, c);
      assert next.y == c.y && next.x == c.x + l.sx;
      WalkRow(l, next);
      assert Walk(l, c) == [Point(c.x, c.y)] + Walk(l, next);
    }
  }

  /** A walk along a column (dx == 0) visits every row between the cursor and the target. */
  lemma {:induction false} WalkColumn(l: Line, c: Cursor)
    requires Reachable(l, c) && l.dx == 0
    ensures forall v :: 0 <= Remaining(l.sy, l.y1, v) <= RemY(l, c) ==> Point(c.x, v) in Walk(l, c)
    decreases RemY(l, c)
  {
    if !AtTarget(l, c) {
      StepReachable(l, c);
      ReachableError(l, c);
      ErrorStep(l.dx, l.dy, RemX(l, c), RemY(l, c), c.err);
      var next := Step(l, c);
      assert next.x == c.x && next.y == c.y + l.sy;
      WalkColumn(l, next);
      assert Walk(l, c) == [Point(c.x, c.y)] + Walk(l, next);
    }
  }

  /** `draw_line` plots (x0, y0) first and (x1, y1) last. */
  lemma LineEnds(x0: int, y0: int, x1: int, y1: int)
    ensures LinePath(x0, y0, x1, y1)[0] == Point(x0, y0)
    ensures LinePath(x0, y0, x1, y1)[|LinePath(x0, y0, x1, y1)| - 1] == Point(x1, y1)
  {
    StartReachable(x0, y0, x1, y1);
    WalkLast(Setup(x0, y0, x1, y1), Start(x0, y0, x1, y1));
  }

  /** Each pass moves x and y by at most one unit each, towards (x1, y1), and never stands still. */
  lemma LineSteps(x0: int, y0: int, x1: int, y1: int)
    ensures forall k :: 0 <= k < |LinePath(x0, y0, x1, y1)| - 1 ==>
      Adjacent(Setup(x0, y0, x1, y1), LinePath(x0, y0, x1, y1)[k], LinePath(x0, y0, x1, y1)[k + 1])
  {
    StartReachable(x0, y0, x1, y1);
    WalkSteps(Setup(x0, y0, x1, y1), Start(x0, y0, x1, y1));
  }

  /** Every plotted point lies in the bounding box of the two endpoints. */
  lemma LineInBox(x0: int, y0: int, x1: int, y1: int)
    ensures forall p :: p in LinePath(x0, y0, x1, y1) ==>
      Min(x0, x1) <= p.x <= Max(x0, x1) && Min(y0, y1) <= p.y <= Max(y0, y1)
  {
    StartReachable(x0, y0, x1, y1);
    WalkBetween(Setup(x0, y0, x1, y1), Start(x0, y0, x1, y1));
  }

  /** A segment between on-screen endpoints plots only on-screen points. */
  lemma LineOnScreen(x0: int, y0: int, x1: int, y1: int)
    requires OnScreen(Point(x0, y0)) && OnScreen(Point(x1, y1))
    ensures forall p :: p in LinePath(x0, y0, x1, y1) ==> OnScreen(p)
  {
    LineInBox(x0, y0, x1, y1);
  }

  /** `draw_line` calls `draw_point` exactly max(|x1 - x0|, |y1 - y0|) + 1 times. */
  lemma LineLength(x0: int, y0: int, x1: int, y1: int)
    ensures |LinePath(x0, y0, x1, y1)| == Max(Abs(x1 - x0), Abs(y1 - y0)) + 1
  {
    StartReachable(x0, y0, x1, y1);
    StartBanded(x0, y0, x1, y1);
    WalkLength(Setup(x0, y0, x1, y1), Start(x0, y0, x1, y1));
  }

  /**
   * A horizontal segment covers exactly the pixels between its endpoints,
   * without gaps, and the same pixels whichever end it starts from.
   */
  lemma HorizontalLine(x0: int, x1: int, y: int)
    ensures forall p :: p in LinePath(x0, y, x1, y) <==> p.y == y && Min(x0, x1) <= p.x <= Max(x0, x1)
    ensures forall p :: p in LinePath(x0, y, x1, y) <==> p in LinePath(x1, y, x0, y)
  {
    forall a, b | (a == x0 && b == x1) || (a == x1 && b == x0)
      ensures forall p :: p in LinePath(a, y, b, y) <==> p.y == y && Min(x0, x1) <= p.x <= Max(x0, x1)
    {
      StartReachable(a, y, b, y);
      WalkRow(Setup(a, y, b, y), Start(a, y, b, y));
      LineInBox(a, y, b, y);
    }
  }

  /** A vertical segment covers exactly the pixels between its endpoints, without gaps, in either direction. */
  lemma VerticalLine(x: int, y0: int, y1: int)
    ensures forall p :: p in LinePath(x, y0, x, y1) <==> p.x == x && Min(y0, y1) <= p.y <= Max(y0, y1)
    ensures forall p :: p in LinePath(x, y0, x, y1) <==> p in LinePath(x, y1, x, y0)
  {
    forall a, b | (a == y0 && b == y1) || (a == y1 && b == y0)
      ensures forall p :: p in LinePath(x, a, x, b) <==> p.x == x && Min(y0, y1) <= p.y <= Max(y0, y1)
    {
      StartReachable(x, a, x, b);
      WalkColumn(Setup(x, a, x, b), Start(x, a, x, b));
      LineInBox(x, a, x, b);
    }
  }

  /** A segment whose endpoints coincide is the single point: the same pixels `draw_point` writes. */
  lemma DegenerateLine(x: int, y: int)
    ensures LinePath(x, y, x, y) == [Point(x, y)]
  {
    StartReachable(x, y, x, y);
  }
}
