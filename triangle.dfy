/**
 * Scan conversion of screen-space triangles: the three-compare vertex sort
 * by y, the two scanline half-loops with inclusive x spans, barycentric
 * weights by signed-area ratios, perspective-correct 1/w, u and v, the
 * wrapped texel lookup and the strict-less depth test that alone decides
 * whether a colour and a depth cell are written.
 *
 * Coordinates are reals; the float-to-int conversions of the source are
 * the explicit truncation Trunc. Each per-pixel routine is a method on the
 * Screen, proved against ShadePixel on the Frame value; a whole triangle
 * is proved against Paint over the pixel sequence ScanVisits.
 */
module Raster {
  import opened Vector
  import opened Display

  /** A decoded texture bitmap: width * height packed colours, row by row. */
  datatype Texture = Texture(width: int, height: int, pixels: seq<uint32>) {
    predicate Valid() {
      0 < width && 0 < height && |pixels| == width * height
    }
  }

  /** A triangle ready for drawing: three homogeneous points, their texture coordinates, a colour and a texture. */
  datatype Triangle = Triangle(p0: Vec4, p1: Vec4, p2: Vec4, uv0: Tex2, uv1: Tex2, uv2: Tex2,
                               color: uint32, texture: Texture)

  // ------------------------------------------------------------ integers

  /** The C conversion (int)r: truncation toward zero. */
  function Trunc(r: real): (n: int)
    ensures 0.0 <= r ==> 0 <= n && n as real <= r < n as real + 1.0
    ensures r < 0.0 ==> n <= 0 && n as real - 1.0 < r <= n as real
  {
    if r >= 0.0 then r.Floor else -((-r).Floor)
  }

  lemma TruncOfInteger(k: int)
    ensures Trunc(k as real) == k
  {
  }

  // ---------------------------------------------------------- barycentric

  /** Twice the signed area of abc, as the source computes it: cross(c - a, b - a). */
  function Area2(a: Vec2, b: Vec2, c: Vec2): real {
    var ac := Vec2Sub(c, a);
    var ab := Vec2Sub(b, a);
    ac.x * ab.y - ac.y * ab.x
  }

  /**
   * The weights (alpha, beta, gamma) of p against a, b, c: alpha and beta
   * are signed-area ratios and gamma is what is left, so they sum to 1.
   * The source divides by the area without a guard.
   */
  function BarycentricWeights(a: Vec2, b: Vec2, c: Vec2, p: Vec2): (w: Vec3)
    requires Area2(a, b, c) != 0.0
    ensures w.x + w.y + w.z == 1.0
  {
    var ac := Vec2Sub(c, a);
    var ab := Vec2Sub(b, a);
    var ap := Vec2Sub(p, a);
    var pc := Vec2Sub(c, p);
    var pb := Vec2Sub(b, p);
    var area := ac.x * ab.y - ac.y * ab.x;
    var alpha := (pc.x * pb.y - pc.y * pb.x) / area;
    var beta := (ac.x * ap.y - ac.y * ap.x) / area;
    Vec3(alpha, beta, 1.0 - alpha - beta)
  }

  /** At the three corners the weights are the unit triples. */
  lemma BarycentricAtVertices(a: Vec2, b: Vec2, c: Vec2)
    requires Area2(a, b, c) != 0.0
    ensures BarycentricWeights(a, b, c, a) == Vec3(1.0, 0.0, 0.0)
    ensures BarycentricWeights(a, b, c, b) == Vec3(0.0, 1.0, 0.0)
    ensures BarycentricWeights(a, b, c, c) == Vec3(0.0, 0.0, 1.0)
  {
    var area := Area2(a, b, c);
    var ac, ab := Vec2Sub(c, a), Vec2Sub(b, a);
    assert (ac.x * ab.y - ac.y * ab.x) / area == 1.0;
    var wa := BarycentricWeights(a, b, c, a);
    assert wa.x == 1.0 && wa.y == 0.0;
    var wb := BarycentricWeights(a, b, c, b);
    assert wb.x == 0.0 && wb.y == 1.0;
    var wc := BarycentricWeights(a, b, c, c);
    assert wc.x == 0.0;
    assert (ac.x * ac.y - ac.y * ac.x) == 0.0;
    assert wc.y == 0.0;
  }

  /** The weights reproduce the point: alpha * a + beta * b + gamma * c == p. */
  lemma BarycentricReconstructs(a: Vec2, b: Vec2, c: Vec2, p: Vec2)
    requires Area2(a, b, c) != 0.0
    ensures var w := BarycentricWeights(a, b, c, p);
            w.x * a.x + w.y * b.x + w.z * c.x == p.x && w.x * a.y + w.y * b.y + w.z * c.y == p.y
  {
    var area := Area2(a, b, c);
    var w := BarycentricWeights(a, b, c, p);
    var na := (c.x - p.x) * (b.y - p.y) - (c.y - p.y) * (b.x - p.x);
    var nb := (c.x - a.x) * (p.y - a.y) - (c.y - a.y) * (p.x - a.x);
    assert w.x == na / area && w.y == nb / area;
    // gamma = 1 - alpha - beta, so the combination is c + alpha (a - c) + beta (b - c)
    assert w.x * a.x + w.y * b.x + w.z * c.x == c.x + w.x * (a.x - c.x) + w.y * (b.x - c.x);
    assert w.x * a.y + w.y * b.y + w.z * c.y == c.y + w.x * (a.y - c.y) + w.y * (b.y - c.y);
    assert na * (a.x - c.x) + nb * (b.x - c.x) == area * (p.x - c.x);
    assert na * (a.y - c.y) + nb * (b.y - c.y) == area * (p.y - c.y);
    assert w.x * (a.x - c.x) + w.y * (b.x - c.x) == (na * (a.x - c.x) + nb * (b.x - c.x)) / area;
    assert w.x * (a.y - c.y) + w.y * (b.y - c.y) == (na * (a.y - c.y) + nb * (b.y - c.y)) / area;
  }

  // ------------------------------------------------------ per-pixel values

  /** Corners a, b, c of a triangle with nonzero area and nonzero w. */
  predicate Proper(a: Vec4, b: Vec4, c: Vec4) {
    Area2(Vec2FromVec4(a), Vec2FromVec4(b), Vec2FromVec4(c)) != 0.0 && a.w != 0.0 && b.w != 0.0 && c.w != 0.0
  }

  /** The weights of the pixel (x, y) against the corners. */
  function PixelWeights(x: int, y: int, a: Vec4, b: Vec4, c: Vec4): Vec3
    requires Proper(a, b, c)
  {
    BarycentricWeights(Vec2FromVec4(a), Vec2FromVec4(b), Vec2FromVec4(c), Vec2(x as real, y as real))
  }

  /** 1/w interpolated with the weights. */
  function InvW(w: Vec3, a: Vec4, b: Vec4, c: Vec4): real
    requires a.w != 0.0 && b.w != 0.0 && c.w != 0.0
  {
    (1.0 / a.w) * w.x + (1.0 / b.w) * w.y + (1.0 / c.w) * w.z
  }

  /** The depth compared against the z-buffer: 1 - interpolated 1/w, so nearer is smaller. */
  function PixelDepth(x: int, y: int, a: Vec4, b: Vec4, c: Vec4): real
    requires Proper(a, b, c)
  {
    1.0 - InvW(PixelWeights(x, y, a, b, c), a, b, c)
  }

  /**
   * Perspective-correct texture coordinate: u/w and v/w interpolated, then
   * divided by interpolated 1/w. Where that is exactly zero the source's
   * result is an infinity whose conversion to int C leaves undefined; the
   * model picks (0, 0) there.
   */
  function InterpolatedUv(w: Vec3, a: Vec4, b: Vec4, c: Vec4, aUv: Tex2, bUv: Tex2, cUv: Tex2): Tex2
    requires a.w != 0.0 && b.w != 0.0 && c.w != 0.0
  {
    var u := (aUv.u * (1.0 / a.w)) * w.x + (bUv.u * (1.0 / b.w)) * w.y + (cUv.u * (1.0 / c.w)) * w.z;
    var v := (aUv.v * (1.0 / a.w)) * w.x + (bUv.v * (1.0 / b.w)) * w.y + (cUv.v * (1.0 / c.w)) * w.z;
    var invW := InvW(w, a, b, c);
    if invW == 0.0 then Tex2(0.0, 0.0) else Tex2(u / invW, v / invW)
  }

  /**
   * At a corner the weights are a unit triple, so the depth is 1 - 1/w of
   * that corner and the interpolated texture coordinate is the corner's own.
   */
  lemma CornerValues(a: Vec4, b: Vec4, c: Vec4, aUv: Tex2, bUv: Tex2, cUv: Tex2)
    requires Proper(a, b, c)
    ensures InvW(Vec3(1.0, 0.0, 0.0), a, b, c) == 1.0 / a.w
    ensures InterpolatedUv(Vec3(1.0, 0.0, 0.0), a, b, c, aUv, bUv, cUv) == aUv
    ensures InterpolatedUv(Vec3(0.0, 1.0, 0.0), a, b, c, aUv, bUv, cUv) == bUv
    ensures InterpolatedUv(Vec3(0.0, 0.0, 1.0), a, b, c, aUv, bUv, cUv) == cUv
  {
  }

  /**
   * The texel a texture coordinate selects: abs((int)(u * width)) % width
   * and the same for v; for a valid texture the index is inside its pixels.
   */
  function TexelIndex(uv: Tex2, t: Texture): (i: int)
    requires t.Valid()
    ensures 0 <= i < |t.pixels|
  {
    var texX := Abs(Trunc(uv.u * t.width as real)) % t.width;
    var texY := Abs(Trunc(uv.v * t.height as real)) % t.height;
    IndexInRange(t.width, t.height, texX, texY);
    texY * t.width + texX
  }

  // ------------------------------------------------------------ depth test

  /** The depth test: colour and depth are written together when z is strictly nearer, and nothing otherwise. */
  function DepthTestWrite(f: Frame, x: int, y: int, z: real, c: uint32): (g: Frame)
    requires f.Valid()
    ensures g.Valid() && g.width == f.width && g.height == f.height
  {
    if z < f.ZAt(x, y) then f.Plot(x, y, c).SetZ(x, y, z) else f
  }

  /**
   * The cell of (x, y) takes colour c and depth z exactly when (x, y) is in
   * range and z is strictly below the stored depth; every other cell, and
   * this one otherwise, keeps its colour and depth.
   */
  lemma DepthTestCell(f: Frame, x: int, y: int, z: real, c: uint32, i: int)
    requires f.Valid() && 0 <= i < f.width * f.height
    ensures var g := DepthTestWrite(f, x, y, z, c);
            if f.InBounds(x, y) && f.Index(x, y) == i && z < f.depth[i]
            then g.color[i] == c && g.depth[i] == z
            else g.color[i] == f.color[i] && g.depth[i] == f.depth[i]
  {
  }

  /** Two writes to one pixel at different depths give the same frame in either order: the nearer one wins. */
  lemma NearerWins(f: Frame, x: int, y: int, z1: real, c1: uint32, z2: real, c2: uint32)
    requires f.Valid() && z1 < z2
    ensures DepthTestWrite(DepthTestWrite(f, x, y, z1, c1), x, y, z2, c2)
            == DepthTestWrite(DepthTestWrite(f, x, y, z2, c2), x, y, z1, c1)
            == DepthTestWrite(f, x, y, z1, c1)
  {
    if f.InBounds(x, y) {
      var i := f.Index(x, y);
      var g2 := DepthTestWrite(f, x, y, z2, c2);
      if z2 < f.ZAt(x, y) {
        assert g2.ZAt(x, y) == z2;
        assert g2.Plot(x, y, c1).SetZ(x, y, z1) == f.Plot(x, y, c1).SetZ(x, y, z1);
      }
    }
  }

  // ------------------------------------------------------------- shading

  /** What a pixel is painted with: one colour, or a texture sampled at interpolated corner coordinates. */
  datatype Shader = Solid(color: uint32) | Textured(texture: Texture, aUv: Tex2, bUv: Tex2, cUv: Tex2)

  /** The conditions under which the source's per-pixel arithmetic is defined over the reals. */
  predicate Drawable(sh: Shader, a: Vec4, b: Vec4, c: Vec4) {
    Proper(a, b, c) && (sh.Textured? ==> sh.texture.Valid())
  }

  /** The colour pixel (x, y) would receive. */
  function PixelColor(x: int, y: int, sh: Shader, a: Vec4, b: Vec4, c: Vec4): uint32
    requires Drawable(sh, a, b, c)
  {
    match sh
    case Solid(color) => color
    case Textured(t, aUv, bUv, cUv) =>
      t.pixels[TexelIndex(InterpolatedUv(PixelWeights(x, y, a, b, c), a, b, c, aUv, bUv, cUv), t)]
  }

  /** draw_triangle_pixel and draw_texel on the frame value: the depth test at the pixel's depth. */
  function ShadePixel(f: Frame, x: int, y: int, sh: Shader, a: Vec4, b: Vec4, c: Vec4): Frame
    requires f.Valid() && Drawable(sh, a, b, c)
  {
    DepthTestWrite(f, x, y, PixelDepth(x, y, a, b, c), PixelColor(x, y, sh, a, b, c))
  }

  /** Shading the pixels of ps in order. */
  function Paint(f: Frame, ps: seq<Pixel>, sh: Shader, a: Vec4, b: Vec4, c: Vec4): (g: Frame)
    requires f.Valid() && (ps == [] || Drawable(sh, a, b, c))
    ensures g.Valid() && g.width == f.width && g.height == f.height
    decreases |ps|
  {
    if ps == [] then f else Paint(ShadePixel(f, ps[0].0, ps[0].1, sh, a, b, c), ps[1..], sh, a, b, c)
  }

  lemma {:induction false} PaintAppend(f: Frame, ps: seq<Pixel>, qs: seq<Pixel>, sh: Shader, a: Vec4, b: Vec4, c: Vec4)
    requires f.Valid() && Drawable(sh, a, b, c)
    ensures Paint(f, ps + qs, sh, a, b, c) == Paint(Paint(f, ps, sh, a, b, c), qs, sh, a, b, c)
    decreases |ps|
  {
    if ps != [] {
      assert (ps + qs)[1..] == ps[1..] + qs;
      PaintAppend(ShadePixel(f, ps[0].0, ps[0].1, sh, a, b, c), ps[1..], qs, sh, a, b, c);
    } else {
      assert ps + qs == qs;
    }
  }

  /**
   * Painting never moves a depth cell farther away, and a cell that no
   * in-range pixel of ps maps to keeps its colour and its depth.
   */
  lemma {:induction false} PaintCell(f: Frame, ps: seq<Pixel>, sh: Shader, a: Vec4, b: Vec4, c: Vec4, i: int)
    requires f.Valid() && Drawable(sh, a, b, c) && 0 <= i < f.width * f.height
    ensures Paint(f, ps, sh, a, b, c).depth[i] <= f.depth[i]
    ensures (forall p | p in ps && f.InBounds(p.0, p.1) :: f.Index(p.0, p.1) != i)
            ==> Paint(f, ps, sh, a, b, c).color[i] == f.color[i] && Paint(f, ps, sh, a, b, c).depth[i] == f.depth[i]
    decreases |ps|
  {
    if ps != [] {
      var g := ShadePixel(f, ps[0].0, ps[0].1, sh, a, b, c);
      DepthTestCell(f, ps[0].0, ps[0].1, PixelDepth(ps[0].0, ps[0].1, a, b, c), PixelColor(ps[0].0, ps[0].1, sh, a, b, c), i);
      forall p | p in ps[1..] && f.InBounds(p.0, p.1) ensures p in ps { }
      PaintCell(g, ps[1..], sh, a, b, c, i);
    }
  }

  // -------------------------------------------------------------- sorting

  /** A truncated screen vertex: integer x and y, real z and w, and a texture coordinate. */
  datatype ScreenVertex = ScreenVertex(x: int, y: int, z: real, w: real, uv: Tex2)

  /** The vertex the source reads from a point: x and y truncated to ints, z and w kept. */
  function Truncated(p: Vec4, uv: Tex2): ScreenVertex {
    ScreenVertex(Trunc(p.x), Trunc(p.y), p.z, p.w, uv)
  }

  /** The corner the per-pixel routines receive: the truncated x and y back as floats. */
  function Corner(s: ScreenVertex): Vec4 {
    Vec4(s.x as real, s.y as real, s.z, s.w)
  }

  /** The flip v := 1 - v applied after sorting in the textured path. */
  function FlipV(uv: Tex2): Tex2 {
    Tex2(uv.u, 1.0 - uv.v)
  }

  /**
   * The three compare-and-swap steps (0,1), (1,2), (0,1): the result is
   * ordered by y and is a rearrangement of the inputs, every vertex moving
   * with all its fields.
   */
  function SortByY(v0: ScreenVertex, v1: ScreenVertex, v2: ScreenVertex): (r: (ScreenVertex, ScreenVertex, ScreenVertex))
    ensures r.0.y <= r.1.y <= r.2.y
    ensures multiset{r.0, r.1, r.2} == multiset{v0, v1, v2}
  {
    var a := OrderPair(v0, v1);
    var b := OrderPair(a.1, v2);
    var c := OrderPair(a.0, b.0);
    assert multiset{c.0, c.1, b.1} == multiset{a.0, b.0, b.1} == multiset{a.0, a.1, v2};
    (c.0, c.1, b.1)
  }

  /** One compare-and-swap: the pair in y order. */
  function OrderPair(p: ScreenVertex, q: ScreenVertex): (r: (ScreenVertex, ScreenVertex))
    ensures r.0.y <= r.1.y
    ensures multiset{r.0, r.1} == multiset{p, q}
  {
    if p.y > q.y then (q, p) else (p, q)
  }

  /** The swaps on local variables, as the drawing routines perform them. */
  method SortVertices(v0: ScreenVertex, v1: ScreenVertex, v2: ScreenVertex)
    returns (s0: ScreenVertex, s1: ScreenVertex, s2: ScreenVertex)
    ensures (s0, s1, s2) == SortByY(v0, v1, v2)
  {
    s0, s1, s2 := v0, v1, v2;
    if s0.y > s1.y {
      s0, s1 := s1, s0;
    }
    ghost var a := (s0, s1);
    assert a == OrderPair(v0, v1);
    if s1.y > s2.y {
      s1, s2 := s2, s1;
    }
    ghost var b := (s1, s2);
    assert b == OrderPair(a.1, v2);
    if s0.y > s1.y {
      s0, s1 := s1, s0;
    }
    assert (s0, s1) == OrderPair(a.0, b.0);
  }

  // ------------------------------------------------------------ scanlines

  /**
   * One half of the scan: on row y the span runs between
   * (int)(x1 + (y - y1) * slope1) and (int)(x0 + (y - y0) * slope2).
   */
  datatype Scan = Scan(x0: int, y0: int, x1: int, y1: int, slope1: real, slope2: real) {
    function XStart(y: int): int {
      Trunc(x1 as real + (y - y1) as real * slope1)
    }
    function XEnd(y: int): int {
      Trunc(x0 as real + (y - y0) as real * slope2)
    }
  }

  /** Row y of a half: the span between the two edge crossings, swapped so that it runs left to right. */
  function RowSpan(y: int, s: Scan): seq<Pixel> {
    if s.XEnd(y) < s.XStart(y) then Span(s.XEnd(y), s.XStart(y), y) else Span(s.XStart(y), s.XEnd(y), y)
  }

  /** Rows y .. yEnd of a half, top to bottom. */
  function HalfRows(y: int, yEnd: int, s: Scan): seq<Pixel>
    decreases yEnd - y
  {
    if y > yEnd then [] else RowSpan(y, s) + HalfRows(y + 1, yEnd, s)
  }

  /** dx / |dy|, or 0 when dy is 0. */
  function InvSlope(dx: int, dy: int): real {
    if dy != 0 then dx as real / Abs(dy) as real else 0.0
  }

  /** The upper half's scan: from the edge v0 -> v1 to the edge v0 -> v2. */
  function TopScan(s0: ScreenVertex, s1: ScreenVertex, s2: ScreenVertex): Scan {
    Scan(s0.x, s0.y, s1.x, s1.y, InvSlope(s1.x - s0.x, s1.y - s0.y), InvSlope(s2.x - s0.x, s2.y - s0.y))
  }

  /** The lower half's scan: from the edge v1 -> v2 to the edge v0 -> v2. */
  function BottomScan(s0: ScreenVertex, s1: ScreenVertex, s2: ScreenVertex): Scan {
    Scan(s0.x, s0.y, s1.x, s1.y, InvSlope(s2.x - s1.x, s2.y - s1.y), InvSlope(s2.x - s0.x, s2.y - s0.y))
  }

  /** The upper half's rows y0 .. y1, scanned only when y1 != y0. */
  function UpperRows(s0: ScreenVertex, s1: ScreenVertex, s2: ScreenVertex): seq<Pixel> {
    if s1.y - s0.y != 0 then HalfRows(s0.y, s1.y, TopScan(s0, s1, s2)) else []
  }

  /** The lower half's rows y1 .. y2, scanned only when y2 != y1. */
  function LowerRows(s0: ScreenVertex, s1: ScreenVertex, s2: ScreenVertex): seq<Pixel> {
    if s2.y - s1.y != 0 then HalfRows(s1.y, s2.y, BottomScan(s0, s1, s2)) else []
  }

  /** The pixels visited, in order, for y-sorted vertices: the upper half, then the lower half. */
  function ScanVisits(s0: ScreenVertex, s1: ScreenVertex, s2: ScreenVertex): seq<Pixel> {
    UpperRows(s0, s1, s2) + LowerRows(s0, s1, s2)
  }

  /** A row's span is never empty: after the swap x_start <= x_end, and every x between them is visited. */
  lemma RowSpanMembers(y: int, s: Scan, p: Pixel)
    ensures |RowSpan(y, s)| >= 1
    ensures var lo := if s.XEnd(y) < s.XStart(y) then s.XEnd(y) else s.XStart(y);
            var hi := if s.XEnd(y) < s.XStart(y) then s.XStart(y) else s.XEnd(y);
            lo <= hi && (p in RowSpan(y, s) <==> p.1 == y && lo <= p.0 <= hi)
  {
    if s.XEnd(y) < s.XStart(y) {
      SpanMembers(s.XEnd(y), s.XStart(y), y, p);
    } else {
      SpanMembers(s.XStart(y), s.XEnd(y), y, p);
    }
  }

  /** A half visits exactly the rows y .. yEnd, each with its own span. */
  lemma {:induction false} HalfRowsMembers(y: int, yEnd: int, s: Scan, p: Pixel)
    ensures p in HalfRows(y, yEnd, s) <==> y <= p.1 <= yEnd && p in RowSpan(p.1, s)
    decreases yEnd - y
  {
    if y <= yEnd {
      RowSpanMembers(y, s, p);
      RowSpanMembers(p.1, s, p);
      HalfRowsMembers(y + 1, yEnd, s, p);
    }
  }

  /** A half with at least one row visits at least one pixel. */
  lemma HalfNonEmpty(y: int, yEnd: int, s: Scan)
    requires y <= yEnd
    ensures HalfRows(y, yEnd, s) != []
  {
    RowSpanMembers(y, s, (0, 0));
  }

  /** Splitting off the last row of a non-empty half. */
  lemma {:induction false} HalfRowsLast(y: int, yEnd: int, s: Scan)
    requires y <= yEnd
    ensures HalfRows(y, yEnd, s) == HalfRows(y, yEnd - 1, s) + RowSpan(yEnd, s)
    decreases yEnd - y
  {
    if y < yEnd {
      HalfRowsLast(y + 1, yEnd, s);
    }
  }

  /**
   * When y0 < y1 < y2, row y1 is drawn twice: the upper half ends with it,
   * the lower half starts with it, and both halves give it the same span
   * (from x1 to the long edge).
   */
  lemma SharedMiddleRow(s0: ScreenVertex, s1: ScreenVertex, s2: ScreenVertex)
    requires s0.y < s1.y < s2.y
    ensures RowSpan(s1.y, TopScan(s0, s1, s2)) == RowSpan(s1.y, BottomScan(s0, s1, s2))
    ensures ScanVisits(s0, s1, s2)
            == HalfRows(s0.y, s1.y - 1, TopScan(s0, s1, s2)) + RowSpan(s1.y, TopScan(s0, s1, s2))
               + RowSpan(s1.y, BottomScan(s0, s1, s2)) + HalfRows(s1.y + 1, s2.y, BottomScan(s0, s1, s2))
  {
    var top, bottom := TopScan(s0, s1, s2), BottomScan(s0, s1, s2);
    StartsAtAnchor(s1.y, top);
    StartsAtAnchor(s1.y, bottom);
    SameCrossings(s1.y, top, bottom);
    assert UpperRows(s0, s1, s2) == HalfRows(s0.y, s1.y - 1, top) + RowSpan(s1.y, top) by {
      HalfRowsLast(s0.y, s1.y, top);
    }
    assert LowerRows(s0, s1, s2) == RowSpan(s1.y, bottom) + HalfRows(s1.y + 1, s2.y, bottom);
  }

  /** Two scans with the same anchor x, the same long edge and the same first crossing on row y give row y the same span. */
  lemma SameCrossings(y: int, s: Scan, t: Scan)
    requires s.XStart(y) == t.XStart(y)
    requires s.x0 == t.x0 && s.y0 == t.y0 && s.slope2 == t.slope2
    ensures RowSpan(y, s) == RowSpan(y, t)
  {
    assert s.XEnd(y) == t.XEnd(y);
    SpanOfCrossings(y, s);
    SpanOfCrossings(y, t);
  }

  /** Row y's span is determined by the two crossings alone. */
  lemma SpanOfCrossings(y: int, s: Scan)
    ensures var a, b := s.XStart(y), s.XEnd(y);
            RowSpan(y, s) == if b < a then Span(b, a, y) else Span(a, b, y)
  {
  }

  /** On the anchor's own row the first edge crossing is the anchor's x. */
  lemma StartsAtAnchor(y: int, s: Scan)
    requires y == s.y1
    ensures s.XStart(y) == s.x1
  {
    assert (y - s.y1) as real * s.slope1 == 0.0;
    TruncOfInteger(s.x1);
  }

  /**
   * The rows visited for y-sorted vertices: every visited pixel lies on a
   * row from y0 to y2, every such row is visited when y0 < y2, and nothing
   * is visited when all three rows coincide.
   */
  lemma ScanVisitsRows(s0: ScreenVertex, s1: ScreenVertex, s2: ScreenVertex, p: Pixel, y: int)
    requires s0.y <= s1.y <= s2.y
    ensures p in ScanVisits(s0, s1, s2) ==> s0.y <= p.1 <= s2.y
    ensures s0.y < s2.y && s0.y <= y <= s2.y ==> exists q :: q in ScanVisits(s0, s1, s2) && q.1 == y
    ensures s0.y == s2.y ==> ScanVisits(s0, s1, s2) == []
  {
    var top, bottom := TopScan(s0, s1, s2), BottomScan(s0, s1, s2);
    HalfRowsMembers(s0.y, s1.y, top, p);
    HalfRowsMembers(s1.y, s2.y, bottom, p);
    if s0.y < s2.y && s0.y <= y <= s2.y {
      var sc := if y <= s1.y && s1.y != s0.y then top else bottom;
      var q := RowSpan(y, sc)[0];
      RowSpanMembers(y, sc, q);
      HalfRowsMembers(s0.y, s1.y, top, q);
      HalfRowsMembers(s1.y, s2.y, bottom, q);
      assert q in ScanVisits(s0, s1, s2) && q.1 == y;
    }
  }

  // ------------------------------------------------------------ triangles

  /** The triangle's vertices as read by the drawing routines, sorted by y. */
  function SortedVertices(t: Triangle): (ScreenVertex, ScreenVertex, ScreenVertex) {
    SortByY(Truncated(t.p0, t.uv0), Truncated(t.p1, t.uv1), Truncated(t.p2, t.uv2))
  }

  /** The pixels a triangle's scan visits. */
  function TrianglePixels(t: Triangle): seq<Pixel> {
    var s := SortedVertices(t);
    ScanVisits(s.0, s.1, s.2)
  }

  /** The shader of the textured path: the triangle's texture and the sorted corners' flipped coordinates. */
  function TextureShader(t: Triangle): Shader {
    var s := SortedVertices(t);
    Textured(t.texture, FlipV(s.0.uv), FlipV(s.1.uv), FlipV(s.2.uv))
  }

  /** The source's arithmetic is defined for every pixel the triangle's scan visits. */
  predicate CanDraw(t: Triangle, sh: Shader) {
    var s := SortedVertices(t);
    ScanVisits(s.0, s.1, s.2) == [] || Drawable(sh, Corner(s.0), Corner(s.1), Corner(s.2))
  }

  function DrawnFrame(f: Frame, t: Triangle, sh: Shader): Frame
    requires f.Valid() && CanDraw(t, sh)
  {
    var s := SortedVertices(t);
    Paint(f, ScanVisits(s.0, s.1, s.2), sh, Corner(s.0), Corner(s.1), Corner(s.2))
  }

  /**
   * The right triangle (0,0), (10,0), (0,10) visits exactly the positions
   * with x, y >= 0 and x + y <= 10, row by row: 11 + 10 + ... + 1 = 66 of them.
   */
  lemma RightTriangleScenario(t: Triangle, p: Pixel)
    requires t.p0 == Vec4(0.0, 0.0, 0.0, 1.0) && t.p1 == Vec4(10.0, 0.0, 0.0, 1.0) && t.p2 == Vec4(0.0, 10.0, 0.0, 1.0)
    ensures p in TrianglePixels(t) <==> 0 <= p.0 && 0 <= p.1 && p.0 + p.1 <= 10
    ensures |TrianglePixels(t)| == 66
  {
    TruncOfInteger(0);
    TruncOfInteger(10);
    var s := SortedVertices(t);
    assert s.0.x == 0 && s.0.y == 0 && s.1.x == 10 && s.1.y == 0 && s.2.x == 0 && s.2.y == 10;
    var bottom := BottomScan(s.0, s.1, s.2);
    assert bottom == RightTriangleScan(10);
    assert TrianglePixels(t) == HalfRows(0, 10, RightTriangleScan(10));
    RightTriangleMembers(10, p);
    RightTriangleRows(10, 0);
    TriangularClosed(11);
  }

  /**
   * The lower-half scan of the right triangle (0,0), (n,0), (0,n): it starts
   * from (n, 0) along the edge of slope -1 and from (0, 0) along the edge of slope 0.
   */
  function RightTriangleScan(n: int): Scan {
    Scan(0, 0, n, 0, -1.0, 0.0)
  }

  /** The right triangle's rows 0 .. n hold exactly the positions with x, y >= 0 and x + y <= n. */
  lemma RightTriangleMembers(n: int, p: Pixel)
    ensures p in HalfRows(0, n, RightTriangleScan(n)) <==> 0 <= p.0 && 0 <= p.1 && p.0 + p.1 <= n
  {
    HalfRowsMembers(0, n, RightTriangleScan(n), p);
    if 0 <= p.1 <= n {
      RightTriangleRow(n, p.1);
      SpanMembers(0, n - p.1, p.1, p);
    }
  }

  /** Row y of the right triangle's scan runs from x = 0 to x = n - y. */
  lemma RightTriangleRow(n: int, y: int)
    requires 0 <= y <= n
    ensures RowSpan(y, RightTriangleScan(n)) == Span(0, n - y, y)
  {
    TruncOfInteger(n - y);
    TruncOfInteger(0);
    assert n as real + y as real * -1.0 == (n - y) as real;
    assert RightTriangleScan(n).XStart(y) == n - y;
    assert RightTriangleScan(n).XEnd(y) == 0;
  }

  /** Rows y .. n of the right triangle's scan hold (n + 1 - y) + ... + 1 pixels. */
  lemma {:induction false} RightTriangleRows(n: int, y: int)
    requires 0 <= y <= n + 1
    ensures |HalfRows(y, n, RightTriangleScan(n))| == Triangular(n + 1 - y)
    decreases n + 1 - y
  {
    if y <= n {
      RightTriangleRow(n, y);
      RightTriangleRows(n, y + 1);
    }
  }

  /** 1 + 2 + ... + n. */
  function Triangular(n: nat): nat {
    if n == 0 then 0 else n + Triangular(n - 1)
  }

  lemma {:induction false} TriangularClosed(n: nat)
    ensures 2 * Triangular(n) == n * (n + 1)
  {
    if n > 0 {
      TriangularClosed(n - 1);
      assert n * (n + 1) == 2 * n + (n - 1) * n;
    }
  }

  // ----------------------------------------------------------- wireframe

  /** The pixels draw_triangle visits: the edges v0 -> v1, v1 -> v2 and v2 -> v0, each a draw_line. */
  function Outline(x0: int, y0: int, x1: int, y1: int, x2: int, y2: int): seq<Pixel> {
    LinePixels(x0, y0, x1, y1) + LinePixels(x1, y1, x2, y2) + LinePixels(x2, y2, x0, y0)
  }

  /** The outline passes through all three corners. */
  lemma OutlineCorners(x0: int, y0: int, x1: int, y1: int, x2: int, y2: int)
    ensures (x0, y0) in Outline(x0, y0, x1, y1, x2, y2)
    ensures (x1, y1) in Outline(x0, y0, x1, y1, x2, y2)
    ensures (x2, y2) in Outline(x0, y0, x1, y1, x2, y2)
  {
    LineEnds(x0, y0, x1, y1);
    LineEnds(x1, y1, x2, y2);
  }

  /** draw_triangle: the three edges in order, in one colour. */
  method DrawTriangle(d: Screen, x0: int, y0: int, x1: int, y1: int, x2: int, y2: int, color: uint32)
    requires d.Valid()
    modifies d.colorBuffer
    ensures d.Model() == PlotAll(old(d.Model()), Outline(x0, y0, x1, y1, x2, y2), color)
  {
    ghost var e0, e1, e2 := LinePixels(x0, y0, x1, y1), LinePixels(x1, y1, x2, y2), LinePixels(x2, y2, x0, y0);
    PlotAllAppend(d.Model(), e0 + e1, e2, color);
    PlotAllAppend(d.Model(), e0, e1, color);
    d.DrawLine(x0, y0, x1, y1, color);
    d.DrawLine(x1, y1, x2, y2, color);
    d.DrawLine(x2, y2, x0, y0, color);
  }

  // ------------------------------------------------------------- drawing

  /** draw_triangle_pixel: barycentric weights, interpolated 1/w, and the depth test against the z-buffer. */
  method DrawTrianglePixel(d: Screen, x: int, y: int, color: uint32, a: Vec4, b: Vec4, c: Vec4)
    requires d.Valid() && Drawable(Solid(color), a, b, c)
    modifies d.colorBuffer, d.zBuffer
    ensures d.Model() == ShadePixel(old(d.Model()), x, y, Solid(color), a, b, c)
  {
    var p := Vec2(x as real, y as real);
    var weights := BarycentricWeights(Vec2FromVec4(a), Vec2FromVec4(b), Vec2FromVec4(c), p);
    var alpha, beta, gamma := weights.x, weights.y, weights.z;
    var interpolatedInvW := (1.0 / a.w) * alpha + (1.0 / b.w) * beta + (1.0 / c.w) * gamma;
    interpolatedInvW := 1.0 - interpolatedInvW;
    assert weights == PixelWeights(x, y, a, b, c);
    assert interpolatedInvW == PixelDepth(x, y, a, b, c);
    ghost var f := d.Model();
    var stored := d.GetZBufferAt(x, y);
    if interpolatedInvW < stored {
      d.DrawPixel(x, y, color);
      d.UpdateZBufferAt(x, y, interpolatedInvW);
      assert d.Model() == f.Plot(x, y, color).SetZ(x, y, interpolatedInvW);
    }
  }

  /**
   * draw_texel: perspective-correct u and v, the wrapped texel, and the
   * same depth test; the texel colour is written only when the test passes.
   */
  method DrawTexel(d: Screen, x: int, y: int, texture: Texture, a: Vec4, b: Vec4, c: Vec4, aUv: Tex2, bUv: Tex2, cUv: Tex2)
    requires d.Valid() && Drawable(Textured(texture, aUv, bUv, cUv), a, b, c)
    modifies d.colorBuffer, d.zBuffer
    ensures d.Model() == ShadePixel(old(d.Model()), x, y, Textured(texture, aUv, bUv, cUv), a, b, c)
  {
    var p := Vec2(x as real, y as real);
    var weights := BarycentricWeights(Vec2FromVec4(a), Vec2FromVec4(b), Vec2FromVec4(c), p);
    var interpolatedInvW := InvW(weights, a, b, c);
    var uv := InterpolatedUv(weights, a, b, c, aUv, bUv, cUv);
    var texel := TexelIndex(uv, texture);
    interpolatedInvW := 1.0 - interpolatedInvW;
    ghost var f := d.Model();
    var stored := d.GetZBufferAt(x, y);
    if interpolatedInvW < stored {
      d.DrawPixel(x, y, texture.pixels[texel]);
      d.UpdateZBufferAt(x, y, interpolatedInvW);
      assert d.Model() == f.Plot(x, y, texture.pixels[texel]).SetZ(x, y, interpolatedInvW);
    }
  }

  /** One pixel with either routine, as the shader says. */
  method DrawShaded(d: Screen, x: int, y: int, sh: Shader, a: Vec4, b: Vec4, c: Vec4)
    requires d.Valid() && Drawable(sh, a, b, c)
    modifies d.colorBuffer, d.zBuffer
    ensures d.Model() == ShadePixel(old(d.Model()), x, y, sh, a, b, c)
  {
    match sh
    case Solid(color) =>
      DrawTrianglePixel(d, x, y, color, a, b, c);
    case Textured(texture, aUv, bUv, cUv) =>
      DrawTexel(d, x, y, texture, a, b, c, aUv, bUv, cUv);
  }

  /** Painting rows y .. yEnd is painting row y and then the rows below it. */
  lemma PaintRow(f: Frame, y: int, yEnd: int, s: Scan, sh: Shader, a: Vec4, b: Vec4, c: Vec4)
    requires f.Valid() && y <= yEnd && Drawable(sh, a, b, c)
    ensures Paint(f, HalfRows(y, yEnd, s), sh, a, b, c)
            == Paint(Paint(f, RowSpan(y, s), sh, a, b, c), HalfRows(y + 1, yEnd, s), sh, a, b, c)
  {
    PaintAppend(f, RowSpan(y, s), HalfRows(y + 1, yEnd, s), sh, a, b, c);
  }

  /** The inner loop of a half: every x from xStart to xEnd inclusive on row y. */
  method DrawSpan(d: Screen, xStart: int, xEnd: int, y: int, sh: Shader, a: Vec4, b: Vec4, c: Vec4)
    requires d.Valid() && Drawable(sh, a, b, c)
    modifies d.colorBuffer, d.zBuffer
    ensures d.Model() == Paint(old(d.Model()), Span(xStart, xEnd, y), sh, a, b, c)
  {
    ghost var target := Paint(d.Model(), Span(xStart, xEnd, y), sh, a, b, c);
    var x := xStart;
    while x <= xEnd
      invariant Paint(d.Model(), Span(x, xEnd, y), sh, a, b, c) == target
      decreases xEnd - x
    {
      assert Span(x, xEnd, y) == [(x, y)] + Span(x + 1, xEnd, y);
      DrawShaded(d, x, y, sh, a, b, c);
      x := x + 1;
    }
  }

  /** One scanline: x_start and x_end from the two edges, swapped if out of order, then the span between them. */
  method DrawScanline(d: Screen, y: int, s: Scan, sh: Shader, a: Vec4, b: Vec4, c: Vec4)
    requires d.Valid() && Drawable(sh, a, b, c)
    modifies d.colorBuffer, d.zBuffer
    ensures d.Model() == Paint(old(d.Model()), RowSpan(y, s), sh, a, b, c)
  {
    var xStart := s.XStart(y);
    var xEnd := s.XEnd(y);
    if xEnd < xStart {
      xStart, xEnd := xEnd, xStart;
    }
    DrawSpan(d, xStart, xEnd, y, sh, a, b, c);
  }

  /** One scanline half-loop: rows y .. yEnd, each from x_start to x_end inclusive after the swap. */
  method DrawRows(d: Screen, yStart: int, yEnd: int, s: Scan, sh: Shader, a: Vec4, b: Vec4, c: Vec4)
    requires d.Valid() && Drawable(sh, a, b, c)
    modifies d.colorBuffer, d.zBuffer
    ensures d.Model() == Paint(old(d.Model()), HalfRows(yStart, yEnd, s), sh, a, b, c)
  {
    ghost var target := Paint(d.Model(), HalfRows(yStart, yEnd, s), sh, a, b, c);
    var y := yStart;
    while y <= yEnd
      invariant Paint(d.Model(), HalfRows(y, yEnd, s), sh, a, b, c) == target
      decreases yEnd - y
    {
      PaintRow(d.Model(), y, yEnd, s, sh, a, b, c);
      DrawScanline(d, y, s, sh, a, b, c);
      y := y + 1;
    }
  }

  /** The flat-bottom upper half: rows y0 .. y1 between the edges v0 -> v1 and v0 -> v2. */
  method DrawUpperHalf(d: Screen, s0: ScreenVertex, s1: ScreenVertex, s2: ScreenVertex, sh: Shader)
    requires d.Valid() && s0.y <= s1.y
    requires UpperRows(s0, s1, s2) == [] || Drawable(sh, Corner(s0), Corner(s1), Corner(s2))
    modifies d.colorBuffer, d.zBuffer
    ensures d.Model() == Paint(old(d.Model()), UpperRows(s0, s1, s2), sh, Corner(s0), Corner(s1), Corner(s2))
  {
    var invSlope1 := 0.0;
    var invSlope2 := 0.0;
    if s1.y - s0.y != 0 { invSlope1 := (s1.x - s0.x) as real / Abs(s1.y - s0.y) as real; }
    if s2.y - s0.y != 0 { invSlope2 := (s2.x - s0.x) as real / Abs(s2.y - s0.y) as real; }
    if s1.y - s0.y != 0 {
      var scan := Scan(s0.x, s0.y, s1.x, s1.y, invSlope1, invSlope2);
      assert scan == TopScan(s0, s1, s2);
      HalfNonEmpty(s0.y, s1.y, scan);
      DrawRows(d, s0.y, s1.y, scan, sh, Corner(s0), Corner(s1), Corner(s2));
    }
  }

  /** The flat-top lower half: rows y1 .. y2 between the edges v1 -> v2 and v0 -> v2. */
  method DrawLowerHalf(d: Screen, s0: ScreenVertex, s1: ScreenVertex, s2: ScreenVertex, sh: Shader)
    requires d.Valid() && s1.y <= s2.y
    requires LowerRows(s0, s1, s2) == [] || Drawable(sh, Corner(s0), Corner(s1), Corner(s2))
    modifies d.colorBuffer, d.zBuffer
    ensures d.Model() == Paint(old(d.Model()), LowerRows(s0, s1, s2), sh, Corner(s0), Corner(s1), Corner(s2))
  {
    var invSlope1 := 0.0;
    var invSlope2 := 0.0;
    if s2.y - s1.y != 0 { invSlope1 := (s2.x - s1.x) as real / Abs(s2.y - s1.y) as real; }
    if s2.y - s0.y != 0 { invSlope2 := (s2.x - s0.x) as real / Abs(s2.y - s0.y) as real; }
    if s2.y - s1.y != 0 {
      var scan := Scan(s0.x, s0.y, s1.x, s1.y, invSlope1, invSlope2);
      assert scan == BottomScan(s0, s1, s2);
      HalfNonEmpty(s1.y, s2.y, scan);
      DrawRows(d, s1.y, s2.y, scan, sh, Corner(s0), Corner(s1), Corner(s2));
    }
  }

  /** Both halves of the scan for y-sorted vertices, upper first. */
  method DrawHalves(d: Screen, s0: ScreenVertex, s1: ScreenVertex, s2: ScreenVertex, sh: Shader)
    requires d.Valid() && s0.y <= s1.y <= s2.y
    requires ScanVisits(s0, s1, s2) == [] || Drawable(sh, Corner(s0), Corner(s1), Corner(s2))
    modifies d.colorBuffer, d.zBuffer
    ensures d.Model() == Paint(old(d.Model()), ScanVisits(s0, s1, s2), sh, Corner(s0), Corner(s1), Corner(s2))
  {
    ghost var upper, lower := UpperRows(s0, s1, s2), LowerRows(s0, s1, s2);
    if upper + lower != [] {
      PaintAppend(d.Model(), upper, lower, sh, Corner(s0), Corner(s1), Corner(s2));
    }
    DrawUpperHalf(d, s0, s1, s2, sh);
    DrawLowerHalf(d, s0, s1, s2, sh);
  }

  /** draw_filled_triangle: sort by y, then both halves with the solid colour. */
  method DrawFilledTriangle(d: Screen, t: Triangle, color: uint32)
    requires d.Valid() && CanDraw(t, Solid(color))
    modifies d.colorBuffer, d.zBuffer
    ensures d.Model() == DrawnFrame(old(d.Model()), t, Solid(color))
  {
    var s0, s1, s2 := SortVertices(Truncated(t.p0, t.uv0), Truncated(t.p1, t.uv1), Truncated(t.p2, t.uv2));
    DrawHalves(d, s0, s1, s2, Solid(color));
  }

  /** draw_textured_triangle: sort by y, flip each v to 1 - v, then both halves sampling the texture. */
  method DrawTexturedTriangle(d: Screen, t: Triangle)
    requires d.Valid() && CanDraw(t, TextureShader(t))
    modifies d.colorBuffer, d.zBuffer
    ensures d.Model() == DrawnFrame(old(d.Model()), t, TextureShader(t))
  {
    var s0, s1, s2 := SortVertices(Truncated(t.p0, t.uv0), Truncated(t.p1, t.uv1), Truncated(t.p2, t.uv2));
    var aUv, bUv, cUv := FlipV(s0.uv), FlipV(s1.uv), FlipV(s2.uv);
    DrawHalves(d, s0, s1, s2, Textured(t.texture, aUv, bUv, cUv));
  }
}
