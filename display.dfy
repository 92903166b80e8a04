/**
 * The frame store: a colour buffer and a depth buffer of width * height
 * cells each, stored row by row, with bounds-guarded single-cell access,
 * whole-buffer clears, rectangle, grid and line drawing, and
 * the render-method and cull-method switches.
 *
 * Frame is the value view of the two buffers; Screen holds them as arrays
 * and each of its methods is proved against the matching operation on
 * Frame.
 */
module Display {

  /** A packed 32-bit colour. */
  newtype uint32 = x: int | 0 <= x < 0x1_0000_0000

  /** A pixel position (x, y). */
  type Pixel = (int, int)

  // The render and cull methods, as distinct integer codes.
  const RENDER_WIRE: int := 0
  const RENDER_WIRE_VERTEX: int := 1
  const RENDER_FILL_TRIANGLE: int := 2
  const RENDER_FILL_TRIANGLE_WIRE: int := 3
  const RENDER_TEXTURED: int := 4
  const RENDER_TEXTURED_WIRE: int := 5
  const CULL_NONE: int := 0
  const CULL_BACKFACE: int := 1

  /** The colour the background grid is drawn in. */
  const GRID_COLOR: uint32 := 0xFF444444

  /** The flat index of (x, y) lies inside a width * height buffer whenever (x, y) is in range. */
  lemma IndexInRange(width: int, height: int, x: int, y: int)
    requires 0 <= x < width && 0 <= y < height
    ensures 0 <= y * width + x < width * height
  {
    MulNonNegative(y, width);
    MulNonNegative(height - y - 1, width);
    assert width * height - (y * width + width) == (height - y - 1) * width;
  }

  lemma MulNonNegative(a: int, b: int)
    requires 0 <= a && 0 <= b
    ensures 0 <= a * b
  {
  }

  /** The C abs on ints. */
  function Abs(n: int): (m: int)
    ensures 0 <= m && (m == n || m == -n)
  {
    if n < 0 then -n else n
  }

  /** The C round: to the nearest integer, halfway cases away from zero. */
  function Round(r: real): (n: int)
    ensures r - 0.5 <= n as real <= r + 0.5
    ensures 0.0 <= r ==> r - 0.5 < n as real
    ensures r <= 0.0 ==> n as real < r + 0.5
  {
    if r >= 0.0 then (r + 0.5).Floor else -((-r + 0.5).Floor)
  }

  /** The colour and depth buffers as values. */
  datatype Frame = Frame(width: int, height: int, color: seq<uint32>, depth: seq<real>) {

    predicate Valid() {
      0 <= width && 0 <= height && |color| == width * height && |depth| == width * height
    }

    predicate InBounds(x: int, y: int) {
      0 <= x < width && 0 <= y < height
    }

    function Index(x: int, y: int): int {
      y * width + x
    }

    /** The stored depth at (x, y), and 1.0 (farthest) outside the buffer. */
    function ZAt(x: int, y: int): (z: real)
      requires Valid()
      ensures !InBounds(x, y) ==> z == 1.0
      ensures InBounds(x, y) ==> 0 <= Index(x, y) < |depth| && z == depth[Index(x, y)]
    {
      if InBounds(x, y) then
        IndexInRange(width, height, x, y);
        depth[Index(x, y)]
      else 1.0
    }

    /** Writing one colour cell: only an in-range (x, y) changes, and only its own cell. */
    function Plot(x: int, y: int, c: uint32): (f: Frame)
      requires Valid()
      ensures f.Valid() && f.width == width && f.height == height && f.depth == depth
      ensures !InBounds(x, y) ==> f == this
      ensures InBounds(x, y) ==> 0 <= Index(x, y) < |color| && f.color == color[Index(x, y) := c]
    {
      if InBounds(x, y) then
        IndexInRange(width, height, x, y);
        this.(color := color[Index(x, y) := c])
      else this
    }

    /** Writing one depth cell: only an in-range (x, y) changes, and only its own cell. */
    function SetZ(x: int, y: int, z: real): (f: Frame)
      requires Valid()
      ensures f.Valid() && f.width == width && f.height == height && f.color == color
      ensures !InBounds(x, y) ==> f == this
      ensures InBounds(x, y) ==> 0 <= Index(x, y) < |depth| && f.depth == depth[Index(x, y) := z]
    {
      if InBounds(x, y) then
        IndexInRange(width, height, x, y);
        this.(depth := depth[Index(x, y) := z])
      else this
    }

    function ClearColor(c: uint32): (f: Frame)
      requires Valid()
      ensures f.Valid() && f.depth == depth
      ensures forall i | 0 <= i < |f.color| :: f.color[i] == c
    {
      this.(color := seq(width * height, _ => c))
    }

    function ClearDepth(): (f: Frame)
      requires Valid()
      ensures f.Valid() && f.color == color
      ensures forall i | 0 <= i < |f.depth| :: f.depth[i] == 1.0
    {
      this.(depth := seq(width * height, _ => 1.0))
    }
  }

  /** Drawing the pixels of ps in order, all in colour c. */
  function PlotAll(f: Frame, ps: seq<Pixel>, c: uint32): (g: Frame)
    requires f.Valid()
    ensures g.Valid() && g.width == f.width && g.height == f.height && g.depth == f.depth
    decreases |ps|
  {
    if ps == [] then f else PlotAll(f.Plot(ps[0].0, ps[0].1, c), ps[1..], c)
  }

  /** After drawing ps in colour c, a cell holds c exactly when some in-range pixel of ps maps to it. */
  lemma {:induction false} PlotAllCell(f: Frame, ps: seq<Pixel>, c: uint32, i: int)
    requires f.Valid() && 0 <= i < |f.color|
    ensures PlotAll(f, ps, c).color[i]
            == if exists p :: p in ps && f.InBounds(p.0, p.1) && f.Index(p.0, p.1) == i then c else f.color[i]
    decreases |ps|
  {
    if ps != [] {
      var g := f.Plot(ps[0].0, ps[0].1, c);
      PlotAllCell(g, ps[1..], c, i);
      forall p | p in ps ensures p == ps[0] || p in ps[1..] {
        var k :| 0 <= k < |ps| && ps[k] == p;
        if k > 0 { assert ps[1..][k - 1] == p; }
      }
    }
  }

  lemma {:induction false} PlotAllAppend(f: Frame, ps: seq<Pixel>, qs: seq<Pixel>, c: uint32)
    requires f.Valid()
    ensures PlotAll(f, ps + qs, c) == PlotAll(PlotAll(f, ps, c), qs, c)
    decreases |ps|
  {
    if ps != [] {
      assert (ps + qs)[1..] == ps[1..] + qs;
      PlotAllAppend(f.Plot(ps[0].0, ps[0].1, c), ps[1..], qs, c);
    } else {
      assert ps + qs == qs;
    }
  }

  /** The pixels (lo, y), (lo + 1, y), ..., (hi, y), left to right. */
  function Span(lo: int, hi: int, y: int): (ps: seq<Pixel>)
    ensures |ps| == (if lo <= hi then hi - lo + 1 else 0)
    decreases hi - lo
  {
    if lo > hi then [] else [(lo, y)] + Span(lo + 1, hi, y)
  }

  lemma {:induction false} SpanMembers(lo: int, hi: int, y: int, p: Pixel)
    ensures p in Span(lo, hi, y) <==> p.1 == y && lo <= p.0 <= hi
    decreases hi - lo
  {
    if lo <= hi {
      SpanMembers(lo + 1, hi, y, p);
    }
  }

  /** The rows y .. yEnd of a rectangle spanning columns x .. xEnd, top to bottom. */
  function RectRows(x: int, xEnd: int, y: int, yEnd: int): seq<Pixel>
    decreases yEnd - y
  {
    if y > yEnd then [] else Span(x, xEnd, y) + RectRows(x, xEnd, y + 1, yEnd)
  }

  /** The positions draw_rect visits: x .. x + width by y .. y + height, both inclusive. */
  function RectPixels(x: int, y: int, width: int, height: int): seq<Pixel> {
    RectRows(x, x + width, y, y + height)
  }

  lemma {:induction false} RectRowsMembers(x: int, xEnd: int, y: int, yEnd: int, p: Pixel)
    ensures p in RectRows(x, xEnd, y, yEnd) <==> x <= p.0 <= xEnd && y <= p.1 <= yEnd
    decreases yEnd - y
  {
    if y <= yEnd {
      SpanMembers(x, xEnd, y, p);
      RectRowsMembers(x, xEnd, y + 1, yEnd, p);
    }
  }

  lemma {:induction false} RectRowsCount(x: int, xEnd: int, y: int, yEnd: int)
    requires x <= xEnd + 1 && y <= yEnd + 1
    ensures |RectRows(x, xEnd, y, yEnd)| == (xEnd - x + 1) * (yEnd - y + 1)
    decreases yEnd - y
  {
    if y <= yEnd {
      RectRowsCount(x, xEnd, y + 1, yEnd);
      assert (xEnd - x + 1) * (yEnd - y + 1) == (xEnd - x + 1) + (xEnd - x + 1) * (yEnd - (y + 1) + 1);
    }
  }

  /**
   * draw_rect visits exactly the positions with x <= px <= x + width and
   * y <= py <= y + height, (width + 1) * (height + 1) of them.
   */
  lemma RectPixelsShape(x: int, y: int, width: int, height: int)
    requires width >= 0 && height >= 0
    ensures |RectPixels(x, y, width, height)| == (width + 1) * (height + 1)
    ensures forall p :: p in RectPixels(x, y, width, height) <==> x <= p.0 <= x + width && y <= p.1 <= y + height
  {
    RectRowsCount(x, x + width, y, y + height);
    forall p ensures p in RectPixels(x, y, width, height) <==> x <= p.0 <= x + width && y <= p.1 <= y + height {
      RectRowsMembers(x, x + width, y, y + height, p);
    }
  }

  /** One grid row: (x, y), (x + 10, y), ... while the column is below width. */
  function GridRow(x: int, width: int, y: int): seq<Pixel>
    decreases width - x
  {
    if x >= width then [] else [(x, y)] + GridRow(x + 10, width, y)
  }

  /** The grid rows y, y + 10, ... while the row is below height. */
  function GridRows(y: int, width: int, height: int): seq<Pixel>
    decreases height - y
  {
    if y >= height then [] else GridRow(0, width, y) + GridRows(y + 10, width, height)
  }

  lemma {:induction false} GridRowMembers(x: int, width: int, y: int, p: Pixel)
    requires 0 <= x && x % 10 == 0
    ensures p in GridRow(x, width, y) <==> p.1 == y && x <= p.0 < width && p.0 % 10 == 0
    decreases width - x
  {
    if x < width {
      GridRowMembers(x + 10, width, y, p);
    }
  }

  lemma {:induction false} GridRowsMembers(y: int, width: int, height: int, p: Pixel)
    requires 0 <= y && y % 10 == 0
    ensures p in GridRows(y, width, height)
            <==> 0 <= p.0 < width && y <= p.1 < height && p.0 % 10 == 0 && p.1 % 10 == 0
    decreases height - y
  {
    if y < height {
      GridRowMembers(0, width, y, p);
      GridRowsMembers(y + 10, width, height, p);
    }
  }

  /**
   * The grid writes exactly the in-range cells whose x and y are both
   * multiples of 10.
   */
  lemma GridPixelsShape(width: int, height: int)
    ensures forall p :: (p in GridRows(0, width, height)
                         <==> 0 <= p.0 < width && 0 <= p.1 < height && p.0 % 10 == 0 && p.1 % 10 == 0)
  {
    forall p ensures p in GridRows(0, width, height)
            <==> 0 <= p.0 < width && 0 <= p.1 < height && p.0 % 10 == 0 && p.1 % 10 == 0 {
      GridRowsMembers(0, width, height, p);
    }
  }

  /** The pixels the horizontal case of draw_line visits on row y. */
  function HorizontalLine(x0: int, x1: int, y: int): seq<Pixel> {
    if x0 < x1 then Span(x0, x1, y) else Span(x1, x0, y)
  }

  /** Every x between min(x0, x1) and max(x0, x1) inclusive is drawn on row y, and nothing else. */
  lemma HorizontalLineMembers(x0: int, x1: int, y: int, p: Pixel)
    ensures p in HorizontalLine(x0, x1, y)
            <==> p.1 == y && (if x0 < x1 then x0 else x1) <= p.0 <= (if x0 < x1 then x1 else x0)
  {
    if x0 < x1 { SpanMembers(x0, x1, y, p); } else { SpanMembers(x1, x0, y, p); }
  }

  /** The number of steps of the general case of draw_line: the larger of |dx| and |dy|. */
  function SideLength(dx: int, dy: int): (n: int)
    ensures Abs(dx) <= n && Abs(dy) <= n && (n == Abs(dx) || n == Abs(dy))
  {
    if Abs(dx) >= Abs(dy) then Abs(dx) else Abs(dy)
  }

  /** The position after i increments of inc from a, with no rounding error. */
  function Advance(a: int, inc: real, i: int): real {
    a as real + i as real * inc
  }

  /**
   * The pixels draw_line visits, in order: the horizontal case from the
   * smaller x to the larger; otherwise side + 1 steps of (dx / side, dy / side)
   * from (x0, y0), with side the larger of |dx| and |dy|.
   */
  function LinePixels(x0: int, y0: int, x1: int, y1: int): seq<Pixel> {
    if y0 == y1 then HorizontalLine(x0, x1, y0)
    else
      var side := SideLength(x1 - x0, y1 - y0);
      StepsFrom(x0, y0, (x1 - x0) as real / side as real, (y1 - y0) as real / side as real, side + 1)
  }

  /** Steps 0 .. n - 1 from (x0, y0) by (xInc, yInc). */
  function StepsFrom(x0: int, y0: int, xInc: real, yInc: real, n: nat): (ps: seq<Pixel>)
    ensures |ps| == n
    ensures forall i | 0 <= i < n :: ps[i] == (Round(Advance(x0, xInc, i)), Round(Advance(y0, yInc, i)))
  {
    seq(n, i => (Round(Advance(x0, xInc, i)), Round(Advance(y0, yInc, i))))
  }

  /**
   * A line always draws both of its end points; in the general case it
   * starts exactly at (x0, y0), ends exactly at (x1, y1) and has one pixel
   * per step of the longer axis.
   */
  lemma LineEnds(x0: int, y0: int, x1: int, y1: int)
    ensures (x0, y0) in LinePixels(x0, y0, x1, y1) && (x1, y1) in LinePixels(x0, y0, x1, y1)
    ensures y0 != y1 ==> var ps := LinePixels(x0, y0, x1, y1);
              |ps| == SideLength(x1 - x0, y1 - y0) + 1 && ps[0] == (x0, y0) && ps[|ps| - 1] == (x1, y1)
  {
    if y0 == y1 {
      HorizontalLineMembers(x0, x1, y0, (x0, y0));
      HorizontalLineMembers(x0, x1, y0, (x1, y1));
    } else {
      GeneralLineEnds(x0, y0, x1, y1);
    }
  }

  lemma GeneralLineEnds(x0: int, y0: int, x1: int, y1: int)
    requires y0 != y1
    ensures var ps := LinePixels(x0, y0, x1, y1);
            |ps| == SideLength(x1 - x0, y1 - y0) + 1 && ps[0] == (x0, y0) && ps[|ps| - 1] == (x1, y1)
  {
    var side := SideLength(x1 - x0, y1 - y0);
    StepsEnds(x0, y0, x1 - x0, y1 - y0, side);
  }

  /** side steps of (dx / side, dy / side) from (x0, y0) start there and end at (x0 + dx, y0 + dy). */
  lemma StepsEnds(x0: int, y0: int, dx: int, dy: int, side: int)
    requires 0 < side
    ensures var ps := StepsFrom(x0, y0, dx as real / side as real, dy as real / side as real, side + 1);
            ps[0] == (x0, y0) && ps[side] == (x0 + dx, y0 + dy)
  {
    StepEnds(x0, dx, side);
    StepEnds(y0, dy, side);
  }

  /** Step 0 is the start and step side is the start plus d. */
  lemma StepEnds(a: int, d: int, side: int)
    requires side != 0
    ensures Round(Advance(a, d as real / side as real, 0)) == a
    ensures Round(Advance(a, d as real / side as real, side)) == a + d
  {
    DivTimes(d, side);
    assert Advance(a, d as real / side as real, side) == (a + d) as real;
    RoundOfInteger(a);
    RoundOfInteger(a + d);
  }

  /** One more increment adds inc to the position. */
  lemma AdvanceStep(a: int, inc: real, i: int)
    ensures Advance(a, inc, i + 1) == Advance(a, inc, i) + inc
  {
  }

  /** Dividing by side and multiplying back by side gives d again. */
  lemma DivTimes(d: int, side: int)
    requires side != 0
    ensures side as real * (d as real / side as real) == d as real
  {
  }

  lemma RoundOfInteger(k: int)
    ensures Round(k as real) == k
  {
  }

  /**
   * Consecutive pixels of a line touch: neither coordinate moves by more
   * than one, so the line has no gaps.
   */
  lemma LineConnected(x0: int, y0: int, x1: int, y1: int, i: int)
    requires 0 <= i && i + 1 < |LinePixels(x0, y0, x1, y1)|
    ensures var ps := LinePixels(x0, y0, x1, y1);
            Abs(ps[i + 1].0 - ps[i].0) <= 1 && Abs(ps[i + 1].1 - ps[i].1) <= 1
  {
    if y0 == y1 {
      if x0 < x1 {
        SpanAt(x0, x1, y0, i);
        SpanAt(x0, x1, y0, i + 1);
      } else {
        SpanAt(x1, x0, y0, i);
        SpanAt(x1, x0, y0, i + 1);
      }
    } else {
      GeneralLineConnected(x0, y0, x1, y1, i);
    }
  }

  lemma GeneralLineConnected(x0: int, y0: int, x1: int, y1: int, i: int)
    requires y0 != y1 && 0 <= i && i + 1 < |LinePixels(x0, y0, x1, y1)|
    ensures var ps := LinePixels(x0, y0, x1, y1);
            Abs(ps[i + 1].0 - ps[i].0) <= 1 && Abs(ps[i + 1].1 - ps[i].1) <= 1
  {
    var side := SideLength(x1 - x0, y1 - y0);
    var xInc, yInc := (x1 - x0) as real / side as real, (y1 - y0) as real / side as real;
    var ps := StepsFrom(x0, y0, xInc, yInc, side + 1);
    assert ps == LinePixels(x0, y0, x1, y1);
    IncrementBound(x1 - x0, side);
    IncrementBound(y1 - y0, side);
    StepBound(x0, i, xInc);
    StepBound(y0, i, yInc);
  }

  /** Entry k of a span is (lo + k, y). */
  lemma {:induction false} SpanAt(lo: int, hi: int, y: int, k: int)
    requires 0 <= k <= hi - lo
    ensures Span(lo, hi, y)[k] == (lo + k, y)
    decreases hi - lo
  {
    if k > 0 {
      SpanAt(lo + 1, hi, y, k - 1);
    }
  }

  /**
   * One coordinate of the general case moves by at most one per step:
   * the increment d / side is at most one in size, and exactly one only
   * when every position is a whole number.
   */
  lemma StepBound(a: int, i: int, inc: real)
    requires -1.0 <= inc <= 1.0
    ensures Abs(Round(Advance(a, inc, i + 1)) - Round(Advance(a, inc, i))) <= 1
  {
    if inc == 1.0 || inc == -1.0 {
      WholeSteps(a, i, inc);
    } else {
      var r, s := Advance(a, inc, i), Advance(a, inc, i + 1);
      assert s - r == inc;
      RoundStep(r, s);
    }
  }

  /** The increment d / side of the general case is at most one in size. */
  lemma IncrementBound(d: int, side: int)
    requires Abs(d) <= side && 0 < side
    ensures -1.0 <= d as real / side as real <= 1.0
  {
    DivTimes(d, side);
  }

  /** With a whole increment every position is a whole number, so rounding keeps it. */
  lemma WholeSteps(a: int, i: int, inc: real)
    requires inc == 1.0 || inc == -1.0
    ensures Abs(Round(Advance(a, inc, i + 1)) - Round(Advance(a, inc, i))) <= 1
  {
    if inc == 1.0 {
      assert Advance(a, inc, i) == (a + i) as real;
      assert Advance(a, inc, i + 1) == (a + i + 1) as real;
      RoundOfInteger(a + i);
      RoundOfInteger(a + i + 1);
    } else {
      assert Advance(a, inc, i) == (a - i) as real;
      assert Advance(a, inc, i + 1) == (a - i - 1) as real;
      RoundOfInteger(a - i);
      RoundOfInteger(a - i - 1);
    }
  }

  /** Two values less than one apart round to integers at most one apart. */
  lemma RoundStep(r: real, s: real)
    requires -1.0 < s - r < 1.0
    ensures Abs(Round(s) - Round(r)) <= 1
  {
    var m, n := Round(s), Round(r);
    assert (m - n) as real < 2.0 && (m - n) as real > -2.0;
  }

  /** A cleared depth buffer reads as 1.0 everywhere. */
  lemma ClearedDepthIsFar(f: Frame, x: int, y: int)
    requires f.Valid()
    ensures f.ClearDepth().ZAt(x, y) == 1.0
  {
  }

  /** A depth write is read back at its own position and leaves every other position as it was. */
  lemma DepthReadBack(f: Frame, x: int, y: int, z: real, qx: int, qy: int)
    requires f.Valid()
    ensures f.SetZ(x, y, z).ZAt(x, y) == if f.InBounds(x, y) then z else 1.0
    ensures (qx, qy) != (x, y) ==> f.SetZ(x, y, z).ZAt(qx, qy) == f.ZAt(qx, qy)
  {
    if f.InBounds(qx, qy) && f.InBounds(x, y) && f.Index(x, y) == f.Index(qx, qy) {
      IndexInjective(f.width, x, y, qx, qy);
    }
  }

  /** A whole multiple of a non-negative w is at least w above zero, or at least w below. */
  lemma MultipleBound(d: int, w: int)
    requires 0 <= w
    ensures d >= 1 ==> d * w >= w
    ensures d <= -1 ==> d * w <= -w
  {
    if d >= 1 {
      assert d * w - w == (d - 1) * w;
    } else if d <= -1 {
      assert d * w + w == (d + 1) * w;
    }
  }

  /** Distinct in-range positions have distinct flat indices. */
  lemma IndexInjective(width: int, x: int, y: int, qx: int, qy: int)
    requires 0 <= x < width && 0 <= qx < width
    requires y * width + x == qy * width + qx
    ensures x == qx && y == qy
  {
    MultipleBound(y - qy, width);
    assert (y - qy) * width == qx - x;
  }

  /** The window's buffers and render switches. */
  class Screen {
    const width: int
    const height: int
    const colorBuffer: array<uint32>
    const zBuffer: array<real>
    var renderMethod: int
    var cullMethod: int

    ghost predicate Valid()
      reads this
    {
      0 <= width && 0 <= height &&
      colorBuffer.Length == width * height && zBuffer.Length == width * height
    }

    /** The two buffers as a value. */
    function Model(): Frame
      reads this, colorBuffer, zBuffer
    {
      Frame(width, height, colorBuffer[..], zBuffer[..])
    }

    /** Allocation of both buffers at the window's size; both switches start at 0. */
    constructor (width: int, height: int)
      requires 0 <= width && 0 <= height
      ensures Valid() && fresh(colorBuffer) && fresh(zBuffer)
      ensures this.width == width && this.height == height
      ensures renderMethod == 0 && cullMethod == 0
    {
      this.width := width;
      this.height := height;
      colorBuffer := new uint32[width * height];
      zBuffer := new real[width * height];
      renderMethod := 0;
      cullMethod := 0;
    }

    method GetWindowWidth() returns (w: int)
      requires Valid()
      ensures w == width && w * height == colorBuffer.Length
    {
      w := width;
    }

    method GetWindowHeight() returns (h: int)
      requires Valid()
      ensures h == height && width * h == zBuffer.Length
    {
      h := height;
    }

    method SetRenderMethod(method_: int)
      modifies this`renderMethod
      ensures renderMethod == method_
    {
      renderMethod := method_;
    }

    method SetCullMethod(method_: int)
      modifies this`cullMethod
      ensures cullMethod == method_
    {
      cullMethod := method_;
    }

    predicate IsCullBackface()
      reads this
    {
      cullMethod == CULL_BACKFACE
    }

    predicate ShouldRenderFilledTriangles()
      reads this
    {
      renderMethod == RENDER_FILL_TRIANGLE || renderMethod == RENDER_FILL_TRIANGLE_WIRE
    }

    predicate ShouldRenderTexturedTriangles()
      reads this
    {
      renderMethod == RENDER_TEXTURED || renderMethod == RENDER_TEXTURED_WIRE
    }

    predicate ShouldRenderWireframe()
      reads this
    {
      renderMethod == RENDER_WIRE || renderMethod == RENDER_FILL_TRIANGLE_WIRE ||
      renderMethod == RENDER_WIRE_VERTEX || renderMethod == RENDER_TEXTURED_WIRE
    }

    predicate ShouldRenderVertices()
      reads this
    {
      renderMethod == RENDER_WIRE_VERTEX
    }

    /** draw_pixel: a guarded write of one colour cell. */
    method DrawPixel(x: int, y: int, c: uint32)
      requires Valid()
      modifies colorBuffer
      ensures Model() == old(Model()).Plot(x, y, c)
    {
      if x < 0 || x >= width || y < 0 || y >= height {
        return;
      }
      IndexInRange(width, height, x, y);
      colorBuffer[y * width + x] := c;
    }

    /** get_z_buffer_at: the stored depth, or 1.0 out of range. */
    method GetZBufferAt(x: int, y: int) returns (z: real)
      requires Valid()
      ensures z == Model().ZAt(x, y)
    {
      if x < 0 || x >= width || y < 0 || y >= height {
        return 1.0;
      }
      IndexInRange(width, height, x, y);
      z := zBuffer[y * width + x];
    }

    /** update_z_buffer_at: a guarded write of one depth cell. */
    method UpdateZBufferAt(x: int, y: int, value: real)
      requires Valid()
      modifies zBuffer
      ensures Model() == old(Model()).SetZ(x, y, value)
    {
      if x < 0 || x >= width || y < 0 || y >= height {
        return;
      }
      IndexInRange(width, height, x, y);
      zBuffer[y * width + x] := value;
    }

    method ClearColorBuffer(c: uint32)
      requires Valid()
      modifies colorBuffer
      ensures Model() == old(Model()).ClearColor(c)
    {
      var i := 0;
      while i < width * height
        invariant 0 <= i <= width * height
        invariant forall k | 0 <= k < i :: colorBuffer[k] == c
      {
        colorBuffer[i] := c;
        i := i + 1;
      }
      assert colorBuffer[..] == seq(width * height, _ => c);
    }

    method ClearZBuffer()
      requires Valid()
      modifies zBuffer
      ensures Model() == old(Model()).ClearDepth()
    {
      var i := 0;
      while i < width * height
        invariant 0 <= i <= width * height
        invariant forall k | 0 <= k < i :: zBuffer[k] == 1.0
      {
        zBuffer[i] := 1.0;
        i := i + 1;
      }
      assert zBuffer[..] == seq(width * height, _ => 1.0);
    }

    /**
     * draw_line: the horizontal case from the smaller x to the larger;
     * otherwise side + 1 pixels, the position advancing by (dx / side,
     * dy / side) after each and rounded when drawn.
     */
    method DrawLine(x0: int, y0: int, x1: int, y1: int, c: uint32)
      requires Valid()
      modifies colorBuffer
      ensures Model() == PlotAll(old(Model()), LinePixels(x0, y0, x1, y1), c)
    {
      if y0 == y1 {
        if x0 < x1 {
          DrawRun(x0, x1, y0, c);
        } else {
          DrawRun(x1, x0, y0, c);
        }
        return;
      }

      var deltaX := x1 - x0;
      var deltaY := y1 - y0;
      var sideLength := if Abs(deltaX) >= Abs(deltaY) then Abs(deltaX) else Abs(deltaY);
      var xInc := deltaX as real / sideLength as real;
      var yInc := deltaY as real / sideLength as real;
      assert StepsFrom(x0, y0, xInc, yInc, sideLength + 1) == LinePixels(x0, y0, x1, y1);
      DrawSteps(x0, y0, xInc, yInc, sideLength, c);
    }

    /** The loop of the general case: side + 1 pixels, the position advancing by (xInc, yInc) after each. */
    method DrawSteps(x0: int, y0: int, xInc: real, yInc: real, sideLength: nat, c: uint32)
      requires Valid()
      modifies colorBuffer
      ensures Model() == PlotAll(old(Model()), StepsFrom(x0, y0, xInc, yInc, sideLength + 1), c)
    {
      ghost var line := StepsFrom(x0, y0, xInc, yInc, sideLength + 1);
      var currentX := x0 as real;
      var currentY := y0 as real;
      var i := 0;
      while i <= sideLength
        invariant 0 <= i <= sideLength + 1
        invariant currentX == Advance(x0, xInc, i) && currentY == Advance(y0, yInc, i)
        invariant PlotAll(Model(), line[i..], c) == PlotAll(old(Model()), line, c)
        decreases sideLength - i
      {
        assert line[i..] == [line[i]] + line[i + 1..];
        DrawPixel(Round(currentX), Round(currentY), c);
        AdvanceStep(x0, xInc, i);
        AdvanceStep(y0, yInc, i);
        currentX := currentX + xInc;
        currentY := currentY + yInc;
        i := i + 1;
      }
    }

    /** draw_rect: every position of the inclusive rectangle, row by row. */
    method DrawRect(x: int, y: int, w: int, h: int, c: uint32)
      requires Valid()
      modifies colorBuffer
      ensures Model() == PlotAll(old(Model()), RectPixels(x, y, w, h), c)
    {
      var yPos := y;
      while yPos <= y + h
        invariant PlotAll(Model(), RectRows(x, x + w, yPos, y + h), c) == PlotAll(old(Model()), RectPixels(x, y, w, h), c)
        decreases y + h - yPos
      {
        PlotAllAppend(Model(), Span(x, x + w, yPos), RectRows(x, x + w, yPos + 1, y + h), c);
        DrawRun(x, x + w, yPos, c);
        yPos := yPos + 1;
      }
    }

    /** The inner loop of draw_rect and the horizontal case of draw_line: x from lo to hi inclusive on row y. */
    method DrawRun(lo: int, hi: int, y: int, c: uint32)
      requires Valid()
      modifies colorBuffer
      ensures Model() == PlotAll(old(Model()), Span(lo, hi, y), c)
    {
      var x := lo;
      while x <= hi
        invariant PlotAll(Model(), Span(x, hi, y), c) == PlotAll(old(Model()), Span(lo, hi, y), c)
        decreases hi - x
      {
        DrawPixel(x, y, c);
        x := x + 1;
      }
    }

    /** draw_grid: writes the grid colour straight into every tenth column of every tenth row. */
    method DrawGrid()
      requires Valid()
      modifies colorBuffer
      ensures Model() == PlotAll(old(Model()), GridRows(0, width, height), GRID_COLOR)
    {
      var y := 0;
      while y < height
        invariant 0 <= y
        invariant PlotAll(Model(), GridRows(y, width, height), GRID_COLOR)
                  == PlotAll(old(Model()), GridRows(0, width, height), GRID_COLOR)
        decreases height - y
      {
        PlotAllAppend(Model(), GridRow(0, width, y), GridRows(y + 10, width, height), GRID_COLOR);
        DrawGridRow(y);
        y := y + 10;
      }
    }

    /** One row of draw_grid: every tenth column of row y, written straight into the buffer. */
    method DrawGridRow(y: int)
      requires Valid() && 0 <= y < height
      modifies colorBuffer
      ensures Model() == PlotAll(old(Model()), GridRow(0, width, y), GRID_COLOR)
    {
      var x := 0;
      while x < width
        invariant 0 <= x
        invariant PlotAll(Model(), GridRow(x, width, y), GRID_COLOR)
                  == PlotAll(old(Model()), GridRow(0, width, y), GRID_COLOR)
        decreases width - x
      {
        ghost var before := Model();
        assert 0 <= width * y + x < colorBuffer.Length && width * y + x == before.Index(x, y) by {
          IndexInRange(width, height, x, y);
        }
        colorBuffer[width * y + x] := GRID_COLOR;
        assert Model() == before.Plot(x, y, GRID_COLOR) by {
          assert colorBuffer[..] == before.color[before.Index(x, y) := GRID_COLOR];
        }
        x := x + 10;
      }
    }
  }

  /**
   * The render-method predicates over the six recognised methods: filled
   * and textured never hold together, vertices imply wireframe, every
   * recognised method draws something and no other code draws anything.
   */
  lemma RenderMethodTable(s: Screen)
    ensures s.ShouldRenderFilledTriangles() <==> s.renderMethod in {RENDER_FILL_TRIANGLE, RENDER_FILL_TRIANGLE_WIRE}
    ensures s.ShouldRenderTexturedTriangles() <==> s.renderMethod in {RENDER_TEXTURED, RENDER_TEXTURED_WIRE}
    ensures s.ShouldRenderWireframe()
            <==> s.renderMethod in {RENDER_WIRE, RENDER_FILL_TRIANGLE_WIRE, RENDER_WIRE_VERTEX, RENDER_TEXTURED_WIRE}
    ensures s.ShouldRenderVertices() <==> s.renderMethod == RENDER_WIRE_VERTEX
    ensures !(s.ShouldRenderFilledTriangles() && s.ShouldRenderTexturedTriangles())
    ensures s.ShouldRenderVertices() ==> s.ShouldRenderWireframe()
    ensures (s.ShouldRenderFilledTriangles() || s.ShouldRenderTexturedTriangles() || s.ShouldRenderWireframe())
            <==> 0 <= s.renderMethod <= 5
    ensures s.IsCullBackface() <==> s.cullMethod == CULL_BACKFACE
  {
  }
}
