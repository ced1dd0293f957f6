/** The software renderer's framebuffer as a value: width*height pixels of
    four bytes each, in B, G, R, A order, row after row. */
module Framebuffer {
  import opened Common

  datatype Bgra = Bgra(b: byte, g: byte, r: byte, a: byte)

  datatype Point = Point(x: int, y: int)

  predicate InBounds(width: int, height: int, x: int, y: int) {
    0 <= x < width && 0 <= y < height
  }

  /** The pixel number of (x, y); its first byte is at 4 times this. */
  function PixelIndex(width: int, x: int, y: int): int {
    y * width + x
  }

  /** The four bytes of pixel p, or transparent black when p is not in the buffer. */
  function PixelOf(buf: seq<byte>, p: int): Bgra {
    if 0 <= p && 4 * p + 3 < |buf| then Bgra(buf[4 * p], buf[4 * p + 1], buf[4 * p + 2], buf[4 * p + 3])
    else Bgra(0, 0, 0, 0)
  }

  /** A pixel after a colour write that leaves its alpha byte alone. */
  function Paint(c: Bgra, r: byte, g: byte, b: byte): Bgra {
    Bgra(b, g, r, c.a)
  }

  lemma MulMonotone(a: int, b: int, c: int)
    requires a <= b && c >= 0
    ensures a * c <= b * c
  {
  }

  /** An in-bounds pixel number lies below width*height. */
  lemma PixelInBuffer(width: int, height: int, x: int, y: int)
    requires InBounds(width, height, x, y)
    ensures 0 <= PixelIndex(width, x, y) < width * height
  {
    MulMonotone(0, y, width);
    MulMonotone(y + 1, height, width);
    assert (y + 1) * width == y * width + width;
  }

  /** Distinct in-bounds coordinates have distinct pixel numbers. */
  lemma PixelIndexInjective(width: int, height: int, x1: int, y1: int, x2: int, y2: int)
    requires InBounds(width, height, x1, y1) && InBounds(width, height, x2, y2)
    ensures PixelIndex(width, x1, y1) == PixelIndex(width, x2, y2) <==> x1 == x2 && y1 == y2
  {
    if y1 < y2 {
      MulMonotone(y1 + 1, y2, width);
      assert (y1 + 1) * width == y1 * width + width;
    } else if y2 < y1 {
      MulMonotone(y2 + 1, y1, width);
      assert (y2 + 1) * width == y2 * width + width;
    }
  }

  /** The three colour bytes of the pixel whose first byte is at i. */
  function Written(buf: seq<byte>, i: int, r: byte, g: byte, b: byte): (res: seq<byte>)
    requires 0 <= i && i + 3 < |buf|
    ensures |res| == |buf|
  {
    buf[i := b][i + 1 := g][i + 2 := r]
  }

  /** Writing pixel p's colour changes pixel p (but not its alpha) and no other pixel. */
  lemma WrittenPixel(buf: seq<byte>, p: int, q: int, r: byte, g: byte, b: byte)
    requires 0 <= p && 4 * p + 3 < |buf|
    ensures PixelOf(Written(buf, 4 * p, r, g, b), q) ==
      if q == p then Paint(PixelOf(buf, p), r, g, b) else PixelOf(buf, q)
  {
  }

  /** The effect of SoftwareRenderer::PutPixel on the buffer. */
  function Plotted(buf: seq<byte>, width: int, height: int, x: int, y: int,
                   r: byte, g: byte, b: byte): (res: seq<byte>)
    requires width >= 0 && height >= 0 && |buf| == width * height * 4
    ensures |res| == |buf|
  {
    if InBounds(width, height, x, y) then
      PixelInBuffer(width, height, x, y);
      Written(buf, 4 * PixelIndex(width, x, y), r, g, b)
    else
      buf
  }

  /** PutPixel writes exactly bytes idx..idx+2 of an in-bounds pixel, where
      idx = (y*width + x)*4; the alpha byte and every other byte keep their values. */
  lemma PlottedBytes(buf: seq<byte>, width: int, height: int, x: int, y: int,
                     r: byte, g: byte, b: byte, k: int)
    requires width >= 0 && height >= 0 && |buf| == width * height * 4
    requires 0 <= k < |buf|
    ensures var idx := 4 * PixelIndex(width, x, y);
      Plotted(buf, width, height, x, y, r, g, b)[k] ==
        if InBounds(width, height, x, y) && k == idx then b
        else if InBounds(width, height, x, y) && k == idx + 1 then g
        else if InBounds(width, height, x, y) && k == idx + 2 then r
        else buf[k]
  {
    if InBounds(width, height, x, y) {
      PixelInBuffer(width, height, x, y);
    }
  }

  /** In pixel terms: PutPixel paints pixel (x, y) if it is in bounds, and nothing else. */
  lemma PlottedPixel(buf: seq<byte>, width: int, height: int, x: int, y: int,
                     r: byte, g: byte, b: byte, px: int, py: int)
    requires width >= 0 && height >= 0 && |buf| == width * height * 4
    requires InBounds(width, height, px, py)
    ensures var q := PixelIndex(width, px, py);
      PixelOf(Plotted(buf, width, height, x, y, r, g, b), q) ==
        if px == x && py == y then Paint(PixelOf(buf, q), r, g, b) else PixelOf(buf, q)
  {
    if InBounds(width, height, x, y) {
      PixelInBuffer(width, height, x, y);
      PixelIndexInjective(width, height, x, y, px, py);
      WrittenPixel(buf, PixelIndex(width, x, y), PixelIndex(width, px, py), r, g, b);
    }
  }

  /** All four bytes of pixel p set to c. */
  function Filled(buf: seq<byte>, p: int, c: Bgra): (res: seq<byte>)
    requires 0 <= p && 4 * p + 3 < |buf|
    ensures |res| == |buf|
  {
    buf[4 * p := c.b][4 * p + 1 := c.g][4 * p + 2 := c.r][4 * p + 3 := c.a]
  }

  lemma FilledPixel(buf: seq<byte>, p: int, c: Bgra, q: int)
    requires 0 <= p && 4 * p + 3 < |buf|
    ensures PixelOf(Filled(buf, p, c), q) == if q == p then c else PixelOf(buf, q)
  {
  }

  /** After plotting (x, y), every in-bounds pixel reads as before except (x, y), which is painted. */
  lemma PlottedPixels(before: seq<byte>, after: seq<byte>, width: int, height: int, x: int, y: int,
                      r: byte, g: byte, b: byte)
    requires width >= 0 && height >= 0 && |before| == width * height * 4
    requires after == Plotted(before, width, height, x, y, r, g, b)
    ensures forall px, py :: InBounds(width, height, px, py) ==>
      PixelOf(after, PixelIndex(width, px, py)) ==
        if px == x && py == y then Paint(PixelOf(before, PixelIndex(width, px, py)), r, g, b)
        else PixelOf(before, PixelIndex(width, px, py))
  {
    forall px, py | InBounds(width, height, px, py)
      ensures PixelOf(after, PixelIndex(width, px, py)) ==
        if px == x && py == y then Paint(PixelOf(before, PixelIndex(width, px, py)), r, g, b)
        else PixelOf(before, PixelIndex(width, px, py))
    {
      PlottedPixel(before, width, height, x, y, r, g, b, px, py);
    }
  }

  /** Two buffers of n pixels that agree pixel by pixel are equal. */
  lemma {:induction false} PixelViewDeterminesBuffer(s: seq<byte>, t: seq<byte>, n: nat)
    requires |s| == 4 * n && |t| == 4 * n
    requires forall p :: 0 <= p < n ==> PixelOf(s, p) == PixelOf(t, p)
    ensures s == t
  {
    forall k | 0 <= k < |s|
      ensures s[k] == t[k]
    {
      var p := k / 4;
      assert PixelOf(s, p) == PixelOf(t, p);
    }
  }

  /** The buffer after plotting every point of `pts` in turn. */
  function PlotPath(buf: seq<byte>, width: int, height: int, pts: seq<Point>,
                    r: byte, g: byte, b: byte): (res: seq<byte>)
    requires width >= 0 && height >= 0 && |buf| == width * height * 4
    ensures |res| == |buf|
    decreases |pts|
  {
    if pts == [] then buf
    else PlotPath(Plotted(buf, width, height, pts[0].x, pts[0].y, r, g, b), width, height, pts[1..], r, g, b)
  }

  lemma PlotPathCons(buf: seq<byte>, width: int, height: int, p: Point, rest: seq<Point>,
                     r: byte, g: byte, b: byte)
    requires width >= 0 && height >= 0 && |buf| == width * height * 4
    ensures PlotPath(buf, width, height, [p] + rest, r, g, b) ==
            PlotPath(Plotted(buf, width, height, p.x, p.y, r, g, b), width, height, rest, r, g, b)
  {
    assert ([p] + rest)[1..] == rest;
  }

  /** Plotting a path paints exactly the in-bounds pixels that lie on it. */
  lemma {:induction false} PlotPathPixel(buf: seq<byte>, width: int, height: int, pts: seq<Point>,
                                         r: byte, g: byte, b: byte, px: int, py: int)
    requires width >= 0 && height >= 0 && |buf| == width * height * 4
    requires InBounds(width, height, px, py)
    ensures var q := PixelIndex(width, px, py);
      PixelOf(PlotPath(buf, width, height, pts, r, g, b), q) ==
        if Point(px, py) in pts then Paint(PixelOf(buf, q), r, g, b) else PixelOf(buf, q)
    decreases |pts|
  {
    if pts != [] {
      var next := Plotted(buf, width, height, pts[0].x, pts[0].y, r, g, b);
      PlottedPixel(buf, width, height, pts[0].x, pts[0].y, r, g, b, px, py);
      PlotPathPixel(next, width, height, pts[1..], r, g, b, px, py);
      assert pts == [pts[0]] + pts[1..];
    }
  }
}
