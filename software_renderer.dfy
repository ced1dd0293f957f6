/** SoftwareRenderer: a CPU framebuffer of width*height BGRA pixels backed by
    a GDI DIB section, drawn into by bounds-checked pixel writes. */
module Software {
  import opened Common
  import opened Framebuffer
  import Bresenham

  /** x clamped into [0, hi], as std::max(0, std::min(x, hi)). */
  function Clamp(x: int, hi: int): (r: int)
    requires hi >= 0
    ensures 0 <= r <= hi
    ensures 0 <= x <= hi ==> r == x
    ensures x < 0 ==> r == 0
    ensures x > hi ==> r == hi
  {
    Max(0, Min(x, hi))
  }

  predicate InBox(px: int, py: int, x1: int, y1: int, x2: int, y2: int) {
    x1 <= px < x2 && y1 <= py < y2
  }

  /** The integer disc test of DrawFilledCircle, over the loop's square of offsets. */
  predicate InDisc(dx: int, dy: int, radius: int) {
    -radius <= dx <= radius && -radius <= dy <= radius && dx * dx + dy * dy <= radius * radius
  }

  lemma SquareBounds(d: int, radius: int)
    requires radius >= 0 && d * d <= radius * radius
    ensures -radius <= d <= radius
  {
    if d > radius {
      MulMonotone(radius, d, d);
      MulMonotone(radius, d, radius);
    } else if d < -radius {
      MulMonotone(radius, -d, -d);
      MulMonotone(radius, -d, radius);
    }
  }

  /** A negative radius draws nothing; otherwise the square bounds of the loops
      never cut the disc, so the pixels drawn are exactly dx*dx + dy*dy <= r*r. */
  lemma InDiscIffSquareSum(dx: int, dy: int, radius: int)
    ensures radius < 0 ==> !InDisc(dx, dy, radius)
    ensures radius >= 0 ==> (InDisc(dx, dy, radius) <==> dx * dx + dy * dy <= radius * radius)
  {
    if radius >= 0 && dx * dx + dy * dy <= radius * radius {
      assert dx * dx >= 0 && dy * dy >= 0;
      SquareBounds(dx, radius);
      SquareBounds(dy, radius);
    }
  }

  /** The three conditional swaps at the start of DrawFilledTriangle. */
  method SortVerticesByY(x0: int, y0: int, x1: int, y1: int, x2: int, y2: int)
    returns (topX: int, topY: int, midX: int, midY: int, lowX: int, lowY: int)
    ensures topY <= midY <= lowY
    ensures multiset{Point(topX, topY), Point(midX, midY), Point(lowX, lowY)} ==
            multiset{Point(x0, y0), Point(x1, y1), Point(x2, y2)}
  {
    topX, topY, midX, midY, lowX, lowY := x0, y0, x1, y1, x2, y2;
    if midY > lowY { midX, lowX := lowX, midX; midY, lowY := lowY, midY; }
    if topY > midY { topX, midX := midX, topX; topY, midY := midY, topY; }
    if midY > lowY { midX, lowX := lowX, midX; midY, lowY := lowY, midY; }
  }

  class SoftwareRenderer {
    /** The DIB section's bits: null until a surface exists. */
    var pixelBuffer: array?<byte>
    var width: int
    var height: int
    /** Whether the DIB section that owns pixelBuffer has not been deleted. */
    var bitmapLive: bool
    var textures: map<nat, Handle>
    var nextTextureId: nat

    ghost predicate Valid()
      reads this
    {
      width >= 0 && height >= 0 &&
      (pixelBuffer != null ==> pixelBuffer.Length == width * height * 4 && bitmapLive) &&
      (pixelBuffer == null ==> width == 0 && height == 0) &&
      nextTextureId >= 1 &&
      (forall id :: id in textures ==> 1 <= id < nextTextureId && textures[id] != NULL)
    }

    /** The framebuffer's bytes; empty when there is no buffer. */
    ghost function Pixels(): seq<byte>
      reads this, pixelBuffer
    {
      if pixelBuffer == null then [] else pixelBuffer[..]
    }

    constructor ()
      ensures Valid()
      ensures pixelBuffer == null && width == 0 && height == 0 && !bitmapLive
      ensures textures == map[] && nextTextureId == 1
    {
      pixelBuffer := null;
      width, height := 0, 0;
      bitmapLive := false;
      textures := map[];
      nextTextureId := 1;
    }

    /** Sets every pixel to (b, g, r, 255); with no buffer it does nothing. */
    method ClearBuffer(r: byte, g: byte, b: byte)
      requires Valid()
      modifies pixelBuffer
      ensures Valid()
      ensures |Pixels()| == |old(Pixels())|
      ensures forall p :: 0 <= p < width * height ==> PixelOf(Pixels(), p) == Bgra(b, g, r, 255)
    {
      if pixelBuffer != null {
        var i := 0;
        while i < width * height
          invariant 0 <= i <= width * height
          invariant forall p :: 0 <= p < i ==> PixelOf(pixelBuffer[..], p) == Bgra(b, g, r, 255)
        {
          var idx := i * 4;
          ghost var before := pixelBuffer[..];
          pixelBuffer[idx + 0] := b;
          pixelBuffer[idx + 1] := g;
          pixelBuffer[idx + 2] := r;
          pixelBuffer[idx + 3] := 255;
          assert pixelBuffer[..] == Filled(before, i, Bgra(b, g, r, 255));
          forall p | 0 <= p <= i
            ensures PixelOf(pixelBuffer[..], p) == Bgra(b, g, r, 255)
          {
            FilledPixel(before, i, Bgra(b, g, r, 255), p);
          }
          i := i + 1;
        }
      }
    }

    /** Writes the colour bytes of pixel (x, y) when it is in bounds. */
    method PutPixel(x: int, y: int, r: byte, g: byte, b: byte)
      requires Valid()
      modifies pixelBuffer
      ensures Valid()
      ensures Pixels() == Plotted(old(Pixels()), width, height, x, y, r, g, b)
    {
      if x >= 0 && x < width && y >= 0 && y < height {
        PixelInBuffer(width, height, x, y);
        var idx := (y * width + x) * 4;
        pixelBuffer[idx + 0] := b;
        pixelBuffer[idx + 1] := g;
        pixelBuffer[idx + 2] := r;
      }
    }

    /** Bresenham's line from (x0, y0) to (x1, y1), one PutPixel per point. */
    method DrawLine(x0: int, y0: int, x1: int, y1: int, r: byte, g: byte, b: byte)
      requires Valid()
      modifies pixelBuffer
      ensures Valid()
      ensures Pixels() == PlotPath(old(Pixels()), width, height, Bresenham.Line(x0, y0, x1, y1), r, g, b)
    {
      var dx: int := Bresenham.Abs(x1 - x0);
      var dy: int := Bresenham.Abs(y1 - y0);
      var sx := if x0 < x1 then 1 else -1;
      var sy := if y0 < y1 then 1 else -1;
      var err := dx - dy;
      var x, y := x0, y0;
      Bresenham.InitialInv(x0, y0, x1, y1);
      ghost var goal := PlotPath(Pixels(), width, height, Bresenham.Line(x0, y0, x1, y1), r, g, b);
      while true
        invariant Valid()
        invariant Bresenham.Inv(x, y, err, x1, y1, dx, dy, sx, sy)
        invariant goal == PlotPath(Pixels(), width, height, Bresenham.LineFrom(x, y, err, x1, y1, dx, dy, sx, sy), r, g, b)
        decreases Bresenham.Remaining(x, x1, sx) + Bresenham.Remaining(y, y1, sy)
      {
        PlotLineStep(Pixels(), width, height, x, y, err, x1, y1, dx, dy, sx, sy, r, g, b);
        PutPixel(x, y, r, g, b);
        if x == x1 && y == y1 {
          break;
        }
        x, y, err := LineStep(x, y, err, dx, dy, sx, sy);
      }
    }

    /** Fills the box between two transformed corners, clamped into the screen. */
    method DrawQuad(qx1: int, qy1: int, qx2: int, qy2: int, r: byte, g: byte, b: byte)
      requires Valid()
      modifies pixelBuffer
      ensures Valid()
      ensures |Pixels()| == |old(Pixels())|
      ensures var x1, y1, x2, y2 := Clamp(qx1, width), Clamp(qy1, height), Clamp(qx2, width), Clamp(qy2, height);
        forall px, py :: InBounds(width, height, px, py) ==>
          PixelOf(Pixels(), PixelIndex(width, px, py)) ==
            if InBox(px, py, x1, y1, x2, y2) then Paint(PixelOf(old(Pixels()), PixelIndex(width, px, py)), r, g, b)
            else PixelOf(old(Pixels()), PixelIndex(width, px, py))
    {
      var x1 := Clamp(qx1, width);
      var y1 := Clamp(qy1, height);
      var x2 := Clamp(qx2, width);
      var y2 := Clamp(qy2, height);
      var py := y1;
      while py < y2
        invariant py == y1 || y1 <= py <= y2
        invariant Valid()
        invariant |Pixels()| == |old(Pixels())|
        invariant forall qx, qy :: InBounds(width, height, qx, qy) ==>
          PixelOf(Pixels(), PixelIndex(width, qx, qy)) ==
            if InBox(qx, qy, x1, y1, x2, py) then Paint(PixelOf(old(Pixels()), PixelIndex(width, qx, qy)), r, g, b)
            else PixelOf(old(Pixels()), PixelIndex(width, qx, qy))
      {
        var px := x1;
        while px < x2
          invariant px == x1 || x1 <= px <= x2
          invariant Valid()
          invariant |Pixels()| == |old(Pixels())|
          invariant forall qx, qy :: InBounds(width, height, qx, qy) ==>
            PixelOf(Pixels(), PixelIndex(width, qx, qy)) ==
              if InBox(qx, qy, x1, y1, x2, py) || (qy == py && x1 <= qx < px)
              then Paint(PixelOf(old(Pixels()), PixelIndex(width, qx, qy)), r, g, b)
              else PixelOf(old(Pixels()), PixelIndex(width, qx, qy))
        {
          var idx := (py * width + px) * 4;
          ghost var before := Pixels();
          PixelInBuffer(width, height, px, py);
          if idx >= 0 && idx + 3 < width * height * 4 {
            pixelBuffer[idx + 2] := r;
            pixelBuffer[idx + 1] := g;
            pixelBuffer[idx + 0] := b;
          }
          assert Pixels() == Plotted(before, width, height, px, py, r, g, b);
          PlottedPixels(before, Pixels(), width, height, px, py, r, g, b);
          px := px + 1;
        }
        py := py + 1;
      }
      assert forall qx, qy :: InBox(qx, qy, x1, y1, x2, py) == InBox(qx, qy, x1, y1, x2, y2);
    }

    /** Plots every in-bounds point within radius of the centre. */
    method DrawFilledCircle(centerX: int, centerY: int, radius: int, r: byte, g: byte, b: byte)
      requires Valid()
      modifies pixelBuffer
      ensures Valid()
      ensures |Pixels()| == |old(Pixels())|
      ensures forall px, py :: InBounds(width, height, px, py) ==>
        PixelOf(Pixels(), PixelIndex(width, px, py)) ==
          if InDisc(px - centerX, py - centerY, radius)
          then Paint(PixelOf(old(Pixels()), PixelIndex(width, px, py)), r, g, b)
          else PixelOf(old(Pixels()), PixelIndex(width, px, py))
    {
      var y := -radius;
      while y <= radius
        invariant -radius <= y && (radius >= 0 ==> y <= radius + 1)
        invariant Valid()
        invariant |Pixels()| == |old(Pixels())|
        invariant forall px, py :: InBounds(width, height, px, py) ==>
          PixelOf(Pixels(), PixelIndex(width, px, py)) ==
            if InDisc(px - centerX, py - centerY, radius) && py - centerY < y
            then Paint(PixelOf(old(Pixels()), PixelIndex(width, px, py)), r, g, b)
            else PixelOf(old(Pixels()), PixelIndex(width, px, py))
      {
        var x := -radius;
        while x <= radius
          invariant -radius <= x <= radius + 1
          invariant Valid()
          invariant |Pixels()| == |old(Pixels())|
          invariant forall px, py :: InBounds(width, height, px, py) ==>
            PixelOf(Pixels(), PixelIndex(width, px, py)) ==
              if InDisc(px - centerX, py - centerY, radius) &&
                 (py - centerY < y || (py - centerY == y && px - centerX < x))
              then Paint(PixelOf(old(Pixels()), PixelIndex(width, px, py)), r, g, b)
              else PixelOf(old(Pixels()), PixelIndex(width, px, py))
        {
          if x * x + y * y <= radius * radius {
            ghost var before := Pixels();
            PutPixel(centerX + x, centerY + y, r, g, b);
            PlottedPixels(before, Pixels(), width, height, centerX + x, centerY + y, r, g, b);
          }
          x := x + 1;
        }
        y := y + 1;
      }
    }

    /** Issues the next id whether or not the placeholder bitmap was created;
        only a created bitmap enters the table. */
    method LoadTexture(filename: string, bitmap: Handle) returns (id: nat)
      requires Valid()
      modifies this`textures, this`nextTextureId
      ensures Valid()
      ensures id == old(nextTextureId) && nextTextureId == old(nextTextureId) + 1
      ensures id >= 1 && id !in old(textures)
      ensures textures == if bitmap != NULL then old(textures)[id := bitmap] else old(textures)
    {
      id := nextTextureId;
      nextTextureId := nextTextureId + 1;
      if bitmap != NULL {
        textures := textures[id := bitmap];
      }
    }

    /** The software backend has no shaders: every load yields the invalid id 0. */
    method LoadShader(vertexShaderFile: string, fragmentShaderFile: string) returns (id: nat)
      ensures id == 0
    {
      id := 0;
    }

    /** Drops the surface and the texture table; the id counter keeps counting. */
    method Cleanup()
      requires Valid()
      modifies this
      ensures Valid()
      ensures pixelBuffer == null && width == 0 && height == 0 && !bitmapLive
      ensures textures == map[] && nextTextureId == old(nextTextureId)
    {
      bitmapLive := false;
      textures := map[];
      pixelBuffer := null;
      width := 0;
      height := 0;
    }

    /** SetSurface as the source writes it: the old bitmap is deleted and the
        dimensions updated first, so when the new bitmap or its memory DC cannot
        be created, pixelBuffer still points at a deleted bitmap. */
    method SetSurfaceAsWritten(w: nat, h: nat, bitmapOk: bool, dcOk: bool, r: byte, g: byte, b: byte)
      requires Valid()
      modifies this
      ensures width == w && height == h
      ensures textures == old(textures) && nextTextureId == old(nextTextureId)
      ensures !bitmapOk ==> pixelBuffer == old(pixelBuffer) && !bitmapLive
      ensures bitmapOk ==> fresh(pixelBuffer) && pixelBuffer.Length == w * h * 4
      ensures bitmapOk && !dcOk ==> !bitmapLive
      ensures bitmapOk && dcOk ==> Valid()
      ensures bitmapOk && dcOk ==> forall p :: 0 <= p < w * h ==> PixelOf(Pixels(), p) == Bgra(b, g, r, 255)
    {
      bitmapLive := false;
      width := w;
      height := h;
      if !bitmapOk {
        return;
      }
      pixelBuffer := new byte[w * h * 4];
      bitmapLive := true;
      if !dcOk {
        bitmapLive := false;
        return;
      }
      ClearBuffer(r, g, b);
    }

    /** SetSurface with failures disabling the surface: on either failure the
        buffer is dropped and the dimensions are zero, so every draw call is a
        no-op; on success the new w*h buffer is cleared. */
    method SetSurface(w: nat, h: nat, bitmapOk: bool, dcOk: bool, r: byte, g: byte, b: byte)
      requires Valid()
      modifies this
      ensures Valid()
      ensures textures == old(textures) && nextTextureId == old(nextTextureId)
      ensures bitmapOk && dcOk ==> width == w && height == h && fresh(pixelBuffer) && bitmapLive
      ensures bitmapOk && dcOk ==> forall p :: 0 <= p < w * h ==> PixelOf(Pixels(), p) == Bgra(b, g, r, 255)
      ensures !(bitmapOk && dcOk) ==> pixelBuffer == null && width == 0 && height == 0 && !bitmapLive
    {
      bitmapLive := false;
      pixelBuffer := null;
      width, height := 0, 0;
      if !bitmapOk {
        return;
      }
      var bits := new byte[w * h * 4];
      if !dcOk {
        return;
      }
      width, height := w, h;
      pixelBuffer := bits;
      bitmapLive := true;
      ClearBuffer(r, g, b);
    }
  }

  /** The two conditional updates of one DrawLine iteration, on e2 = 2 * err. */
  method LineStep(x: int, y: int, err: int, dx: int, dy: int, sx: int, sy: int)
    returns (nx: int, ny: int, ne: int)
    ensures nx == Bresenham.NextX(x, err, dy, sx)
    ensures ny == Bresenham.NextY(y, err, dx, sy)
    ensures ne == Bresenham.NextErr(err, dx, dy)
  {
    nx, ny, ne := x, y, err;
    var e2 := 2 * err;
    if e2 > -dy {
      ne := ne - dy;
      nx := nx + sx;
    }
    if e2 < dx {
      ne := ne + dx;
      ny := ny + sy;
    }
  }

  /** One iteration of DrawLine's loop: plotting the rest of the path from
      (x, y) is plotting (x, y) and then the rest from the next state, or just
      plotting (x, y) once the end point is reached. */
  lemma PlotLineStep(buf: seq<byte>, width: int, height: int, x: int, y: int, err: int,
                     x1: int, y1: int, dx: int, dy: int, sx: int, sy: int, r: byte, g: byte, b: byte)
    requires width >= 0 && height >= 0 && |buf| == width * height * 4
    requires Bresenham.Inv(x, y, err, x1, y1, dx, dy, sx, sy)
    ensures x == x1 && y == y1 ==>
      PlotPath(buf, width, height, Bresenham.LineFrom(x, y, err, x1, y1, dx, dy, sx, sy), r, g, b) ==
      Plotted(buf, width, height, x, y, r, g, b)
    ensures !(x == x1 && y == y1) ==>
      var nx, ny, ne := Bresenham.NextX(x, err, dy, sx), Bresenham.NextY(y, err, dx, sy), Bresenham.NextErr(err, dx, dy);
      Bresenham.Inv(nx, ny, ne, x1, y1, dx, dy, sx, sy) &&
      Bresenham.Remaining(nx, x1, sx) + Bresenham.Remaining(ny, y1, sy) <
        Bresenham.Remaining(x, x1, sx) + Bresenham.Remaining(y, y1, sy) &&
      PlotPath(buf, width, height, Bresenham.LineFrom(x, y, err, x1, y1, dx, dy, sx, sy), r, g, b) ==
      PlotPath(Plotted(buf, width, height, x, y, r, g, b), width, height,
               Bresenham.LineFrom(nx, ny, ne, x1, y1, dx, dy, sx, sy), r, g, b)
  {
    Bresenham.LineFromStep(x, y, err, x1, y1, dx, dy, sx, sy);
    if x == x1 && y == y1 {
      PlotPathCons(buf, width, height, Point(x, y), [], r, g, b);
      assert [Point(x, y)] + [] == [Point(x, y)];
    } else {
      Bresenham.StepKeepsInv(x, y, err, x1, y1, dx, dy, sx, sy);
      var nx, ny, ne := Bresenham.NextX(x, err, dy, sx), Bresenham.NextY(y, err, dx, sy), Bresenham.NextErr(err, dx, dy);
      PlotPathCons(buf, width, height, Point(x, y), Bresenham.LineFrom(nx, ny, ne, x1, y1, dx, dy, sx, sy), r, g, b);
    }
  }

  /** Both endpoints of a line, when on screen, are painted by DrawLine. */
  lemma DrawLinePaintsEndpoints(buf: seq<byte>, width: nat, height: nat,
                                x0: int, y0: int, x1: int, y1: int, r: byte, g: byte, b: byte)
    requires |buf| == width * height * 4
    ensures var after := PlotPath(buf, width, height, Bresenham.Line(x0, y0, x1, y1), r, g, b);
      (InBounds(width, height, x0, y0) ==>
         PixelOf(after, PixelIndex(width, x0, y0)) == Paint(PixelOf(buf, PixelIndex(width, x0, y0)), r, g, b)) &&
      (InBounds(width, height, x1, y1) ==>
         PixelOf(after, PixelIndex(width, x1, y1)) == Paint(PixelOf(buf, PixelIndex(width, x1, y1)), r, g, b))
  {
    var pts := Bresenham.Line(x0, y0, x1, y1);
    Bresenham.LineEnds(x0, y0, x1, y1);
    assert pts[0] == Point(x0, y0) && pts[|pts| - 1] == Point(x1, y1);
    if InBounds(width, height, x0, y0) {
      PlotPathPixel(buf, width, height, pts, r, g, b, x0, y0);
    }
    if InBounds(width, height, x1, y1) {
      PlotPathPixel(buf, width, height, pts, r, g, b, x1, y1);
    }
  }

  /** Texture ids start at 1 and advance on every call, failed ones included. */
  method TextureIdScenario(bitmap1: Handle, bitmap2: Handle) returns (id1: nat, id2: nat, count: nat)
    ensures id1 == 1 && id2 == 2
    ensures count == (if bitmap1 != NULL then 1 else 0) + (if bitmap2 != NULL then 1 else 0)
  {
    var sr := new SoftwareRenderer();
    id1 := sr.LoadTexture("a.bmp", bitmap1);
    id2 := sr.LoadTexture("b.bmp", bitmap2);
    count := |sr.textures|;
  }

  /** After a surface of 1x1, a failed resize to 2x2 as written leaves a
      buffer of 4 bytes whose bitmap is deleted, while the dimensions promise 16. */
  method StaleBufferAfterFailedResize() returns (dangling: bool, bufferBytes: int, neededBytes: int)
    ensures dangling && bufferBytes < neededBytes
  {
    var sr := new SoftwareRenderer();
    sr.SetSurface(1, 1, true, true, 0, 0, 0);
    sr.SetSurfaceAsWritten(2, 2, false, true, 0, 0, 0);
    dangling := sr.pixelBuffer != null && !sr.bitmapLive;
    bufferBytes := if sr.pixelBuffer == null then 0 else sr.pixelBuffer.Length;
    neededBytes := sr.width * sr.height * 4;
  }

  /** The same failure on a renderer that has no buffer yet: the new size is
      stored with a null buffer, so every draw call would write through null. */
  method NullBufferAfterFailedFirstSurface() returns (hasBuffer: bool, neededBytes: int)
    ensures !hasBuffer && neededBytes == 16
  {
    var sr := new SoftwareRenderer();
    sr.SetSurfaceAsWritten(2, 2, false, true, 0, 0, 0);
    hasBuffer := sr.pixelBuffer != null;
    neededBytes := sr.width * sr.height * 4;
  }

  /** With the corrected SetSurface the same failed resize disables the surface. */
  method FailedResizeDisablesSurface() returns (hasBuffer: bool, w: int, h: int)
    ensures !hasBuffer && w == 0 && h == 0
  {
    var sr := new SoftwareRenderer();
    sr.SetSurface(1, 1, true, true, 0, 0, 0);
    sr.SetSurface(2, 2, false, true, 0, 0, 0);
    hasBuffer := sr.pixelBuffer != null;
    w, h := sr.width, sr.height;
  }
}
