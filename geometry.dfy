/** The axis-aligned rectangle of the window manager: an overlap test with
    strict inequalities and an intersection that falls back to the
    degenerate rectangle (0,0,0,0). */
module Geometry {
  import opened Common

  datatype Rect = Rect(x: int, y: int, width: int, height: int) {

    function Right(): int { x + width }

    function Bottom(): int { y + height }

    /** A rectangle of positive area. */
    predicate HasArea() { width > 0 && height > 0 }

    /** The open-interval overlap test of Rect::Intersects: for two rectangles
        of positive area it holds exactly when the common box between the
        larger left/top edges and the smaller right/bottom edges is non-empty
        on both axes. */
    predicate Intersects(other: Rect)
      ensures HasArea() && other.HasArea() ==> (Intersects(other) <==>
        Max(x, other.x) < Min(Right(), other.Right()) && Max(y, other.y) < Min(Bottom(), other.Bottom()))
    {
      && x < other.x + other.width
      && x + width > other.x
      && y < other.y + other.height
      && y + height > other.y
    }

    /** Rect::GetIntersection: clip to the common box, or (0,0,0,0). */
    function GetIntersection(other: Rect): (r: Rect)
      ensures r == DefaultRect() || r.HasArea()
    {
      var left := Max(x, other.x);
      var top := Max(y, other.y);
      var right := Min(x + width, other.x + other.width);
      var bottom := Min(y + height, other.y + other.height);
      if left < right && top < bottom then
        Rect(left, top, right - left, bottom - top)
      else
        Rect(0, 0, 0, 0)
    }

    /** Every point of `this` is a point of `outer`. */
    predicate Inside(outer: Rect) {
      outer.x <= x && x + width <= outer.x + outer.width &&
      outer.y <= y && y + height <= outer.y + outer.height
    }

    /** The integer point (px, py) lies in the half-open box of the rectangle. */
    predicate Contains(px: int, py: int) {
      x <= px < x + width && y <= py < y + height
    }
  }

  /** The default-argument constructor Rect(). */
  function DefaultRect(): (r: Rect)
    ensures r.x == 0 && r.y == 0 && r.width == 0 && r.height == 0
  {
    Rect(0, 0, 0, 0)
  }

  /** Rectangles that share only an edge do not intersect. */
  lemma TouchingEdgesDoNotIntersect()
    ensures !Rect(0, 0, 10, 10).Intersects(Rect(10, 0, 10, 10))
    ensures !Rect(10, 0, 10, 10).Intersects(Rect(0, 0, 10, 10))
  {
  }

  /** The worked examples: an overlap of (5,5,5,5), and a disjoint pair. */
  lemma IntersectionExamples()
    ensures Rect(0, 0, 10, 10).Intersects(Rect(5, 5, 10, 10))
    ensures Rect(0, 0, 10, 10).GetIntersection(Rect(5, 5, 10, 10)) == Rect(5, 5, 5, 5)
    ensures !Rect(0, 0, 5, 5).Intersects(Rect(10, 10, 5, 5))
    ensures Rect(0, 0, 5, 5).GetIntersection(Rect(10, 10, 5, 5)) == DefaultRect()
    ensures Rect(0, 0, 400, 300).GetIntersection(Rect(300, 200, 400, 300)) == Rect(300, 200, 100, 100)
  {
  }

  lemma IntersectsSymmetric(a: Rect, b: Rect)
    ensures a.Intersects(b) <==> b.Intersects(a)
  {
  }

  lemma GetIntersectionSymmetric(a: Rect, b: Rect)
    ensures a.GetIntersection(b) == b.GetIntersection(a)
  {
  }

  /** When the clipped box is non-empty, it is the clip and lies inside both inputs. */
  lemma GetIntersectionClip(a: Rect, b: Rect)
    requires Max(a.x, b.x) < Min(a.Right(), b.Right())
    requires Max(a.y, b.y) < Min(a.Bottom(), b.Bottom())
    ensures var r := a.GetIntersection(b);
      && r.x == Max(a.x, b.x) && r.y == Max(a.y, b.y)
      && r.width == Min(a.Right(), b.Right()) - Max(a.x, b.x)
      && r.height == Min(a.Bottom(), b.Bottom()) - Max(a.y, b.y)
      && r.HasArea() && r.Inside(a) && r.Inside(b)
  {
  }

  /** Otherwise the result is exactly the degenerate rectangle. */
  lemma GetIntersectionEmpty(a: Rect, b: Rect)
    requires !(Max(a.x, b.x) < Min(a.Right(), b.Right()) && Max(a.y, b.y) < Min(a.Bottom(), b.Bottom()))
    ensures a.GetIntersection(b) == DefaultRect()
  {
  }

  /** For rectangles of positive area, the overlap test agrees with the clip. */
  lemma IntersectsIffIntersectionHasArea(a: Rect, b: Rect)
    requires a.HasArea() && b.HasArea()
    ensures a.Intersects(b) <==> a.GetIntersection(b).HasArea()
  {
  }

  /** The intersection holds exactly the integer points common to both inputs. */
  lemma GetIntersectionPoints(a: Rect, b: Rect, px: int, py: int)
    ensures a.GetIntersection(b).HasArea() ==>
      (a.GetIntersection(b).Contains(px, py) <==> a.Contains(px, py) && b.Contains(px, py))
  {
  }
}
