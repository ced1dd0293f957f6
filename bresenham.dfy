/** The sequence of points SoftwareRenderer::DrawLine visits: integer
    Bresenham from (x0, y0) to (x1, y1), one PutPixel per point. */
module Bresenham {
  import opened Common
  import opened Framebuffer

  function Abs(a: int): nat {
    if a < 0 then -a else a
  }

  function Step(from: int, to: int): int {
    if from < to then 1 else -1
  }

  /** Distance still to travel along one axis, measured in the stepping direction. */
  function Remaining(cur: int, target: int, s: int): int {
    if s == 1 then target - cur else cur - target
  }

  /** The loop invariant of DrawLine with the fixed per-line quantities. */
  ghost predicate Inv(x: int, y: int, err: int, x1: int, y1: int, dx: int, dy: int, sx: int, sy: int) {
    var a := Remaining(x, x1, sx);
    var b := Remaining(y, y1, sy);
    dx >= 0 && dy >= 0 && (sx == 1 || sx == -1) && (sy == 1 || sy == -1) &&
    0 <= a <= dx && 0 <= b <= dy && err == dx - dy + a * dy - b * dx
  }

  lemma MulAtLeast(k: int, d: int)
    requires k >= 1 && d >= 0
    ensures k * d >= d
  {
  }

  /** The arithmetic of one iteration, on the remaining distances a and b: the
      loop always steps on some axis, steps on an axis only while distance
      remains on it, and the new error term matches the new distances. */
  lemma StepArithmetic(a: int, b: int, err: int, dx: int, dy: int)
    requires dx >= 0 && dy >= 0 && 0 <= a <= dx && 0 <= b <= dy && a + b > 0
    requires err == dx - dy + a * dy - b * dx
    ensures 2 * err > -dy || 2 * err < dx
    ensures 2 * err > -dy ==> a >= 1
    ensures 2 * err < dx ==> b >= 1
    ensures var na := if 2 * err > -dy then a - 1 else a;
      var nb := if 2 * err < dx then b - 1 else b;
      err - (if 2 * err > -dy then dy else 0) + (if 2 * err < dx then dx else 0) == dx - dy + na * dy - nb * dx
  {
    if a == 0 {
      MulAtLeast(b, dx);
    }
    if b == 0 {
      MulAtLeast(a, dy);
    }
    assert (a - 1) * dy == a * dy - dy;
    assert (b - 1) * dx == b * dx - dx;
  }

  /** One iteration keeps the invariant and shortens the remaining distance. */
  lemma StepKeepsInv(x: int, y: int, err: int, x1: int, y1: int, dx: int, dy: int, sx: int, sy: int)
    requires Inv(x, y, err, x1, y1, dx, dy, sx, sy)
    requires !(x == x1 && y == y1)
    ensures var e2 := 2 * err;
      var nx := if e2 > -dy then x + sx else x;
      var ny := if e2 < dx then y + sy else y;
      var ne := err - (if e2 > -dy then dy else 0) + (if e2 < dx then dx else 0);
      Inv(nx, ny, ne, x1, y1, dx, dy, sx, sy) &&
      Remaining(nx, x1, sx) + Remaining(ny, y1, sy) < Remaining(x, x1, sx) + Remaining(y, y1, sy)
  {
    StepArithmetic(Remaining(x, x1, sx), Remaining(y, y1, sy), err, dx, dy);
  }

  /** The points visited from loop state (x, y, err) on. */
  ghost function LineFrom(x: int, y: int, err: int, x1: int, y1: int, dx: int, dy: int, sx: int, sy: int): (r: seq<Point>)
    requires Inv(x, y, err, x1, y1, dx, dy, sx, sy)
    ensures |r| >= 1 && r[0] == Point(x, y)
    decreases Remaining(x, x1, sx) + Remaining(y, y1, sy)
  {
    if x == x1 && y == y1 then [Point(x, y)]
    else
      var e2 := 2 * err;
      var nx := if e2 > -dy then x + sx else x;
      var ny := if e2 < dx then y + sy else y;
      var ne := err - (if e2 > -dy then dy else 0) + (if e2 < dx then dx else 0);
      StepKeepsInv(x, y, err, x1, y1, dx, dy, sx, sy);
      [Point(x, y)] + LineFrom(nx, ny, ne, x1, y1, dx, dy, sx, sy)
  }

  /** The state after one iteration, as DrawLine's two conditional updates compute it. */
  function NextX(x: int, err: int, dy: int, sx: int): int {
    if 2 * err > -dy then x + sx else x
  }

  function NextY(y: int, err: int, dx: int, sy: int): int {
    if 2 * err < dx then y + sy else y
  }

  function NextErr(err: int, dx: int, dy: int): int {
    err - (if 2 * err > -dy then dy else 0) + (if 2 * err < dx then dx else 0)
  }

  /** One unfolding of LineFrom. */
  lemma LineFromStep(x: int, y: int, err: int, x1: int, y1: int, dx: int, dy: int, sx: int, sy: int)
    requires Inv(x, y, err, x1, y1, dx, dy, sx, sy)
    ensures x == x1 && y == y1 ==> LineFrom(x, y, err, x1, y1, dx, dy, sx, sy) == [Point(x, y)]
    ensures !(x == x1 && y == y1) ==>
      Inv(NextX(x, err, dy, sx), NextY(y, err, dx, sy), NextErr(err, dx, dy), x1, y1, dx, dy, sx, sy) &&
      LineFrom(x, y, err, x1, y1, dx, dy, sx, sy) ==
        [Point(x, y)] + LineFrom(NextX(x, err, dy, sx), NextY(y, err, dx, sy), NextErr(err, dx, dy), x1, y1, dx, dy, sx, sy)
  {
    if !(x == x1 && y == y1) {
      StepKeepsInv(x, y, err, x1, y1, dx, dy, sx, sy);
    }
  }

  lemma InitialInv(x0: int, y0: int, x1: int, y1: int)
    ensures Inv(x0, y0, Abs(x1 - x0) - Abs(y1 - y0), x1, y1, Abs(x1 - x0), Abs(y1 - y0), Step(x0, x1), Step(y0, y1))
  {
  }

  /** The whole path DrawLine plots. */
  ghost function Line(x0: int, y0: int, x1: int, y1: int): (r: seq<Point>)
    ensures |r| >= 1 && r[0] == Point(x0, y0)
  {
    InitialInv(x0, y0, x1, y1);
    LineFrom(x0, y0, Abs(x1 - x0) - Abs(y1 - y0), x1, y1, Abs(x1 - x0), Abs(y1 - y0), Step(x0, x1), Step(y0, y1))
  }

  /** The path starts at (x, y), ends at (x1, y1) and reaches (x1, y1) only at its end. */
  ghost predicate Ends(pts: seq<Point>, x: int, y: int, x1: int, y1: int) {
    |pts| >= 1 && pts[0] == Point(x, y) && pts[|pts| - 1] == Point(x1, y1) &&
    forall i :: 0 <= i < |pts| - 1 ==> pts[i] != Point(x1, y1)
  }

  /** Every step moves at most one pixel on each axis, in the stepping direction, and moves. */
  ghost predicate KingSteps(pts: seq<Point>, sx: int, sy: int) {
    forall i :: 0 <= i < |pts| - 1 ==>
      (pts[i + 1].x == pts[i].x || pts[i + 1].x == pts[i].x + sx) &&
      (pts[i + 1].y == pts[i].y || pts[i + 1].y == pts[i].y + sy) &&
      pts[i + 1] != pts[i]
  }

  /** No point is farther from the target than the start, on either axis, nor beyond it. */
  ghost predicate WithinReach(pts: seq<Point>, a: int, b: int, x1: int, y1: int, sx: int, sy: int) {
    forall i :: 0 <= i < |pts| ==>
      0 <= Remaining(pts[i].x, x1, sx) <= a && 0 <= Remaining(pts[i].y, y1, sy) <= b
  }

  lemma {:induction false} LineFromEnds(x: int, y: int, err: int, x1: int, y1: int, dx: int, dy: int, sx: int, sy: int)
    requires Inv(x, y, err, x1, y1, dx, dy, sx, sy)
    ensures Ends(LineFrom(x, y, err, x1, y1, dx, dy, sx, sy), x, y, x1, y1)
    decreases Remaining(x, x1, sx) + Remaining(y, y1, sy)
  {
    if !(x == x1 && y == y1) {
      var e2 := 2 * err;
      var nx := if e2 > -dy then x + sx else x;
      var ny := if e2 < dx then y + sy else y;
      var ne := err - (if e2 > -dy then dy else 0) + (if e2 < dx then dx else 0);
      StepKeepsInv(x, y, err, x1, y1, dx, dy, sx, sy);
      var rest := LineFrom(nx, ny, ne, x1, y1, dx, dy, sx, sy);
      LineFromEnds(nx, ny, ne, x1, y1, dx, dy, sx, sy);
      var pts := [Point(x, y)] + rest;
      forall i | 0 <= i < |pts| - 1
        ensures pts[i] != Point(x1, y1)
      {
        if i > 0 { assert pts[i] == rest[i - 1]; }
      }
    }
  }

  /** Prepending a king step to a path of king steps gives a path of king steps. */
  lemma KingStepsCons(p: Point, rest: seq<Point>, sx: int, sy: int)
    requires KingSteps(rest, sx, sy) && |rest| >= 1
    requires rest[0].x == p.x || rest[0].x == p.x + sx
    requires rest[0].y == p.y || rest[0].y == p.y + sy
    requires rest[0] != p
    ensures KingSteps([p] + rest, sx, sy)
  {
    var pts := [p] + rest;
    forall i | 0 <= i < |pts| - 1
      ensures (pts[i + 1].x == pts[i].x || pts[i + 1].x == pts[i].x + sx) &&
              (pts[i + 1].y == pts[i].y || pts[i + 1].y == pts[i].y + sy) &&
              pts[i + 1] != pts[i]
    {
      if i > 0 { assert pts[i] == rest[i - 1] && pts[i + 1] == rest[i]; }
    }
  }

  lemma {:induction false} LineFromSteps(x: int, y: int, err: int, x1: int, y1: int, dx: int, dy: int, sx: int, sy: int)
    requires Inv(x, y, err, x1, y1, dx, dy, sx, sy)
    ensures KingSteps(LineFrom(x, y, err, x1, y1, dx, dy, sx, sy), sx, sy)
    decreases Remaining(x, x1, sx) + Remaining(y, y1, sy)
  {
    LineFromStep(x, y, err, x1, y1, dx, dy, sx, sy);
    if !(x == x1 && y == y1) {
      var nx, ny, ne := NextX(x, err, dy, sx), NextY(y, err, dx, sy), NextErr(err, dx, dy);
      StepKeepsInv(x, y, err, x1, y1, dx, dy, sx, sy);
      LineFromSteps(nx, ny, ne, x1, y1, dx, dy, sx, sy);
      LineFromEnds(nx, ny, ne, x1, y1, dx, dy, sx, sy);
      KingStepsCons(Point(x, y), LineFrom(nx, ny, ne, x1, y1, dx, dy, sx, sy), sx, sy);
    }
  }

  lemma {:induction false} LineFromReach(x: int, y: int, err: int, x1: int, y1: int, dx: int, dy: int, sx: int, sy: int)
    requires Inv(x, y, err, x1, y1, dx, dy, sx, sy)
    ensures WithinReach(LineFrom(x, y, err, x1, y1, dx, dy, sx, sy),
                        Remaining(x, x1, sx), Remaining(y, y1, sy), x1, y1, sx, sy)
    decreases Remaining(x, x1, sx) + Remaining(y, y1, sy)
  {
    if !(x == x1 && y == y1) {
      var e2 := 2 * err;
      var nx := if e2 > -dy then x + sx else x;
      var ny := if e2 < dx then y + sy else y;
      var ne := err - (if e2 > -dy then dy else 0) + (if e2 < dx then dx else 0);
      StepKeepsInv(x, y, err, x1, y1, dx, dy, sx, sy);
      var rest := LineFrom(nx, ny, ne, x1, y1, dx, dy, sx, sy);
      LineFromReach(nx, ny, ne, x1, y1, dx, dy, sx, sy);
      var pts := [Point(x, y)] + rest;
      forall i | 0 <= i < |pts|
        ensures 0 <= Remaining(pts[i].x, x1, sx) <= Remaining(x, x1, sx) &&
                0 <= Remaining(pts[i].y, y1, sy) <= Remaining(y, y1, sy)
      {
        if i > 0 { assert pts[i] == rest[i - 1]; }
      }
    }
  }

  lemma {:induction false} LineFromLength(x: int, y: int, err: int, x1: int, y1: int, dx: int, dy: int, sx: int, sy: int)
    requires Inv(x, y, err, x1, y1, dx, dy, sx, sy)
    ensures var n := |LineFrom(x, y, err, x1, y1, dx, dy, sx, sy)|;
      var a := Remaining(x, x1, sx);
      var b := Remaining(y, y1, sy);
      Max(a, b) + 1 <= n <= a + b + 1
    decreases Remaining(x, x1, sx) + Remaining(y, y1, sy)
  {
    LineFromStep(x, y, err, x1, y1, dx, dy, sx, sy);
    if !(x == x1 && y == y1) {
      var nx, ny, ne := NextX(x, err, dy, sx), NextY(y, err, dx, sy), NextErr(err, dx, dy);
      StepKeepsInv(x, y, err, x1, y1, dx, dy, sx, sy);
      LineFromLength(nx, ny, ne, x1, y1, dx, dy, sx, sy);
    }
  }

  /** DrawLine's path begins at (x0, y0), ends at (x1, y1) and reaches (x1, y1)
      only at its end. */
  lemma LineEnds(x0: int, y0: int, x1: int, y1: int)
    ensures Ends(Line(x0, y0, x1, y1), x0, y0, x1, y1)
  {
    var dx: int, dy: int := Abs(x1 - x0), Abs(y1 - y0);
    InitialInv(x0, y0, x1, y1);
    LineFromEnds(x0, y0, dx - dy, x1, y1, dx, dy, Step(x0, x1), Step(y0, y1));
  }

  /** DrawLine's path moves one pixel at a time, towards the target on each axis. */
  lemma LineSteps(x0: int, y0: int, x1: int, y1: int)
    ensures KingSteps(Line(x0, y0, x1, y1), Step(x0, x1), Step(y0, y1))
  {
    var dx: int, dy: int := Abs(x1 - x0), Abs(y1 - y0);
    InitialInv(x0, y0, x1, y1);
    LineFromSteps(x0, y0, dx - dy, x1, y1, dx, dy, Step(x0, x1), Step(y0, y1));
  }

  /** DrawLine's path stays inside the bounding box of its endpoints. */
  lemma LineInBox(x0: int, y0: int, x1: int, y1: int)
    ensures var pts := Line(x0, y0, x1, y1);
      forall i :: 0 <= i < |pts| ==>
        Min(x0, x1) <= pts[i].x <= Max(x0, x1) && Min(y0, y1) <= pts[i].y <= Max(y0, y1)
  {
    var dx: int, dy: int, sx, sy := Abs(x1 - x0), Abs(y1 - y0), Step(x0, x1), Step(y0, y1);
    InitialInv(x0, y0, x1, y1);
    LineFromReach(x0, y0, dx - dy, x1, y1, dx, dy, sx, sy);
    var pts := Line(x0, y0, x1, y1);
    forall i | 0 <= i < |pts|
      ensures Min(x0, x1) <= pts[i].x <= Max(x0, x1) && Min(y0, y1) <= pts[i].y <= Max(y0, y1)
    {
      assert 0 <= Remaining(pts[i].x, x1, sx) <= dx && 0 <= Remaining(pts[i].y, y1, sy) <= dy;
    }
  }

  /** DrawLine plots between max(|dx|, |dy|) + 1 and |dx| + |dy| + 1 points. */
  lemma LineLength(x0: int, y0: int, x1: int, y1: int)
    ensures Max(Abs(x1 - x0), Abs(y1 - y0)) + 1 <= |Line(x0, y0, x1, y1)| <= Abs(x1 - x0) + Abs(y1 - y0) + 1
  {
    var dx: int, dy: int := Abs(x1 - x0), Abs(y1 - y0);
    InitialInv(x0, y0, x1, y1);
    LineFromLength(x0, y0, dx - dy, x1, y1, dx, dy, Step(x0, x1), Step(y0, y1));
  }

  /** A line whose endpoints coincide is the single point. */
  lemma DegenerateLine(x0: int, y0: int)
    ensures Line(x0, y0, x0, y0) == [Point(x0, y0)]
  {
  }

  /** Concrete examples: a horizontal, a diagonal and a shallow line. */
  lemma LineExamples()
    ensures Line(0, 0, 3, 0) == [Point(0, 0), Point(1, 0), Point(2, 0), Point(3, 0)]
    ensures Line(0, 0, 2, 2) == [Point(0, 0), Point(1, 1), Point(2, 2)]
    ensures Line(0, 0, 2, 1) == [Point(0, 0), Point(1, 0), Point(2, 1)]
  {
  }
}
