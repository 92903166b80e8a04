/**
 * Frustum clipping of one triangle and its re-triangulation.
 *
 * A triangle becomes a polygon of (vertex, texture coordinate) pairs held
 * in a fixed-capacity array. Each frustum plane in turn clips it in place
 * with one Sutherland-Hodgman sweep: the sweep walks the closed vertex
 * loop starting with the edge from the last vertex to the first and, per
 * edge, emits the crossing point when the two signed distances have
 * strictly opposite signs and then the edge's end when that end lies
 * strictly inside. The clipped polygon is finally cut into a fan of
 * triangles around its first vertex.
 *
 * The sweep is specified by the function Clip; ClipAgainstPlane is the
 * in-place loop proved to compute it.
 */
module Clipping {
  import opened Vector
  import opened Raster

  /** One polygon corner: a camera-space point and its texture coordinate. */
  datatype PolyVertex = PolyVertex(pos: Vec3, uv: Tex2)

  /** A plane through point with inward normal: points with positive signed distance are inside. */
  datatype Plane = Plane(point: Vec3, normal: Vec3)

  // The frustum plane indices, in the order the clipper applies them.
  const LEFT_FRUSTUM_PLANE := 0
  const RIGHT_FRUSTUM_PLANE := 1
  const TOP_FRUSTUM_PLANE := 2
  const BOTTOM_FRUSTUM_PLANE := 3
  const NEAR_FRUSTUM_PLANE := 4
  const FAR_FRUSTUM_PLANE := 5
  const NUM_PLANES := 6

  function SignedDistance(v: Vec3, plane: Plane): real {
    Vec3Dot(Vec3Sub(v, plane.point), plane.normal)
  }

  /**
   * The six frustum planes for the half field-of-view angles (given by
   * their cosines and sines) and the near and far distances. The side
   * planes pass through the eye; the near plane faces +z at z = zNear and
   * the far plane faces -z at z = zFar.
   */
  function FrustumPlanes(cosHalfX: real, sinHalfX: real, cosHalfY: real, sinHalfY: real,
                         zNear: real, zFar: real): (planes: seq<Plane>)
    ensures |planes| == NUM_PLANES
    ensures forall v: Vec3 {:trigger SignedDistance(v, planes[NEAR_FRUSTUM_PLANE])} ::
              SignedDistance(v, planes[NEAR_FRUSTUM_PLANE]) == v.z - zNear
    ensures forall v: Vec3 {:trigger SignedDistance(v, planes[FAR_FRUSTUM_PLANE])} ::
              SignedDistance(v, planes[FAR_FRUSTUM_PLANE]) == zFar - v.z
    ensures forall v: Vec3 {:trigger SignedDistance(v, planes[LEFT_FRUSTUM_PLANE])} ::
              SignedDistance(v, planes[LEFT_FRUSTUM_PLANE]) == cosHalfX * v.x + sinHalfX * v.z
    ensures forall v: Vec3 {:trigger SignedDistance(v, planes[RIGHT_FRUSTUM_PLANE])} ::
              SignedDistance(v, planes[RIGHT_FRUSTUM_PLANE]) == -cosHalfX * v.x + sinHalfX * v.z
    ensures forall v: Vec3 {:trigger SignedDistance(v, planes[TOP_FRUSTUM_PLANE])} ::
              SignedDistance(v, planes[TOP_FRUSTUM_PLANE]) == -cosHalfY * v.y + sinHalfY * v.z
    ensures forall v: Vec3 {:trigger SignedDistance(v, planes[BOTTOM_FRUSTUM_PLANE])} ::
              SignedDistance(v, planes[BOTTOM_FRUSTUM_PLANE]) == cosHalfY * v.y + sinHalfY * v.z
  {
    var origin := Vec3(0.0, 0.0, 0.0);
    [ Plane(origin, Vec3(cosHalfX, 0.0, sinHalfX)),
      Plane(origin, Vec3(-cosHalfX, 0.0, sinHalfX)),
      Plane(origin, Vec3(0.0, -cosHalfY, sinHalfY)),
      Plane(origin, Vec3(0.0, cosHalfY, sinHalfY)),
      Plane(Vec3(0.0, 0.0, zNear), Vec3(0.0, 0.0, 1.0)),
      Plane(Vec3(0.0, 0.0, zFar), Vec3(0.0, 0.0, -1.0)) ]
  }

  /** a + t (b - a): a at t = 0, b at t = 1, and between the two for t in [0, 1]. */
  function FloatLerp(a: real, b: real, t: real): (r: real)
    ensures t == 0.0 ==> r == a
    ensures t == 1.0 ==> r == b
    ensures 0.0 <= t <= 1.0 && a <= b ==> a <= r <= b
    ensures 0.0 <= t <= 1.0 && b <= a ==> b <= r <= a
  {
    // The same value on both branches; the split only scopes the lemma.
    if 0.0 <= t <= 1.0 then
      LerpBetween(b - a, t);
      a + t * (b - a)
    else
      a + t * (b - a)
  }

  /** For t in [0, 1], t d lies between 0 and d. */
  lemma LerpBetween(d: real, t: real)
    requires 0.0 <= t <= 1.0
    ensures 0.0 <= d ==> 0.0 <= t * d <= d
    ensures d <= 0.0 ==> d <= t * d <= 0.0
  {
    assert d - t * d == (1.0 - t) * d;
    if 0.0 <= d {
      RealMulNonNegative(t, d);
      RealMulNonNegative(1.0 - t, d);
    } else {
      RealMulNonNegative(t, -d);
      RealMulNonNegative(1.0 - t, -d);
      assert t * (-d) == -(t * d);
      assert (1.0 - t) * (-d) == -((1.0 - t) * d);
    }
  }

  /**
   * The interpolation parameter prev / (prev - curr) of an edge whose end
   * distances have strictly opposite signs: strictly between 0 and 1, and
   * the point it selects has signed distance zero.
   */
  function CrossingParam(dPrev: real, dCurr: real): (t: real)
    requires dCurr * dPrev < 0.0
    ensures 0.0 < t < 1.0
    ensures dPrev + t * (dCurr - dPrev) == 0.0
  {
    assert dPrev - dCurr != 0.0;
    var t := dPrev / (dPrev - dCurr);
    assert t * (dPrev - dCurr) == dPrev;
    assert 0.0 < t < 1.0 by {
      if dPrev > 0.0 {
        assert dCurr < 0.0;
      } else {
        assert dPrev < 0.0 < dCurr;
        assert t == (-dPrev) / (dCurr - dPrev);
      }
    }
    t
  }

  /** The point at parameter t along prev -> curr, position and texture coordinate alike. */
  function Intersection(prev: PolyVertex, curr: PolyVertex, t: real): PolyVertex {
    PolyVertex(Vec3(FloatLerp(prev.pos.x, curr.pos.x, t),
                    FloatLerp(prev.pos.y, curr.pos.y, t),
                    FloatLerp(prev.pos.z, curr.pos.z, t)),
               Tex2(FloatLerp(prev.uv.u, curr.uv.u, t),
                    FloatLerp(prev.uv.v, curr.uv.v, t)))
  }

  /** Whether the edge prev -> curr crosses the plane: strictly opposite signed distances. */
  predicate Crosses(prev: PolyVertex, curr: PolyVertex, plane: Plane) {
    SignedDistance(curr.pos, plane) * SignedDistance(prev.pos, plane) < 0.0
  }

  /** The crossing point of an edge that crosses the plane. */
  function Crossing(prev: PolyVertex, curr: PolyVertex, plane: Plane): PolyVertex
    requires Crosses(prev, curr, plane)
  {
    Intersection(prev, curr, CrossingParam(SignedDistance(prev.pos, plane), SignedDistance(curr.pos, plane)))
  }

  /** What one edge prev -> curr contributes: its crossing point, if any, then curr if strictly inside. */
  function EdgeOutput(prev: PolyVertex, curr: PolyVertex, plane: Plane): seq<PolyVertex> {
    (if Crosses(prev, curr, plane) then [Crossing(prev, curr, plane)] else []) +
    (if SignedDistance(curr.pos, plane) > 0.0 then [curr] else [])
  }

  /** The vertex before index i on the closed loop: the last one for i = 0. */
  function Prev(vs: seq<PolyVertex>, i: int): PolyVertex
    requires 0 <= i < |vs|
  {
    if i == 0 then vs[|vs| - 1] else vs[i - 1]
  }

  /** The output of the first k steps of the sweep, step i handling the edge Prev(vs, i) -> vs[i]. */
  function ClipPrefix(vs: seq<PolyVertex>, k: int, plane: Plane): seq<PolyVertex>
    requires 0 <= k <= |vs|
  {
    if k == 0 then [] else ClipPrefix(vs, k - 1, plane) + EdgeOutput(Prev(vs, k - 1), vs[k - 1], plane)
  }

  /** The polygon clipped against one plane; the empty polygon stays empty. */
  function Clip(vs: seq<PolyVertex>, plane: Plane): seq<PolyVertex> {
    ClipPrefix(vs, |vs|, plane)
  }

  /** The polygon clipped against each plane in turn. */
  function ClipAll(vs: seq<PolyVertex>, planes: seq<Plane>): seq<PolyVertex>
    decreases |planes|
  {
    if planes == [] then vs else ClipAll(Clip(vs, planes[0]), planes[1..])
  }

  /**
   * Clipping against a non-empty list of planes is clipping against the
   * first, then against the rest; when every intermediate polygon fits,
   * the first result fits and so do the rest.
   */
  lemma Peel(vs: seq<PolyVertex>, planes: seq<Plane>, cap: int)
    requires 0 < |planes| && FitsCapacity(vs, planes, cap)
    ensures |Clip(vs, planes[0])| <= cap
    ensures FitsCapacity(Clip(vs, planes[0]), planes[1..], cap)
    ensures ClipAll(vs, planes) == ClipAll(Clip(vs, planes[0]), planes[1..])
  {
  }

  /** Every intermediate polygon of ClipAll fits in cap vertices. */
  predicate FitsCapacity(vs: seq<PolyVertex>, planes: seq<Plane>, cap: int)
    decreases |planes|
  {
    planes == [] || (|Clip(vs, planes[0])| <= cap && FitsCapacity(Clip(vs, planes[0]), planes[1..], cap))
  }

  /** The polygon made from a triangle: its three corners in argument order. */
  function TriangleLoop(v0: Vec3, v1: Vec3, v2: Vec3, t0: Tex2, t1: Tex2, t2: Tex2): (vs: seq<PolyVertex>)
    ensures |vs| == 3
    ensures vs[0].pos == v0 && vs[1].pos == v1 && vs[2].pos == v2
    ensures vs[0].uv == t0 && vs[1].uv == t1 && vs[2].uv == t2
  {
    [PolyVertex(v0, t0), PolyVertex(v1, t1), PolyVertex(v2, t2)]
  }

  /**
   * Triangle i of the fan over vs: corners 0, i + 1 and i + 2, promoted to
   * w = 1, with their texture coordinates; colour and texture are kept.
   */
  function FanTriangle(t: Triangle, vs: seq<PolyVertex>, i: int): (r: Triangle)
    requires 0 <= i && i + 2 < |vs|
    ensures Vec3FromVec4(r.p0) == vs[0].pos && Vec3FromVec4(r.p1) == vs[i + 1].pos && Vec3FromVec4(r.p2) == vs[i + 2].pos
    ensures r.p0.w == 1.0 && r.p1.w == 1.0 && r.p2.w == 1.0
    ensures r.uv0 == vs[0].uv && r.uv1 == vs[i + 1].uv && r.uv2 == vs[i + 2].uv
    ensures r.color == t.color && r.texture == t.texture
  {
    t.(p0 := Vec4FromVec3(vs[0].pos), p1 := Vec4FromVec3(vs[i + 1].pos), p2 := Vec4FromVec3(vs[i + 2].pos),
       uv0 := vs[0].uv, uv1 := vs[i + 1].uv, uv2 := vs[i + 2].uv)
  }

  /** The corner indices of the fan over an n-gon: (0, i + 1, i + 2) for i = 0 .. n - 3. */
  function FanIndices(n: int): (fan: seq<(int, int, int)>)
    ensures |fan| == if n < 2 then 0 else n - 2
  {
    if n < 2 then [] else seq(n - 2, i => (0, i + 1, i + 2))
  }

  // ------------------------------------------------------------ polygon

  /**
   * A polygon of at most vertices.Length corners (the fixed capacity),
   * the first numVertices of which are in use.
   */
  class Polygon {
    const vertices: array<PolyVertex>
    var numVertices: int

    ghost predicate Valid()
      reads this
    {
      0 <= numVertices <= vertices.Length
    }

    /** The corners in use, in loop order. */
    function Contents(): seq<PolyVertex>
      reads this, vertices
      requires Valid()
    {
      vertices[..numVertices]
    }

    /** polygon_from_triangle: the three corners in argument order, in a polygon of the given capacity. */
    constructor FromTriangle(capacity: int, v0: Vec3, v1: Vec3, v2: Vec3, t0: Tex2, t1: Tex2, t2: Tex2)
      requires capacity >= 3
      ensures Valid() && fresh(vertices) && vertices.Length == capacity
      ensures numVertices == 3
      ensures Contents() == TriangleLoop(v0, v1, v2, t0, t1, t2)
    {
      var a := new PolyVertex[capacity](_ => PolyVertex(v0, t0));
      a[1] := PolyVertex(v1, t1);
      a[2] := PolyVertex(v2, t2);
      vertices := a;
      numVertices := 3;
    }

    /**
     * clip_polygon_against_plane: one sweep over the closed loop into a
     * local array of the same capacity, then a copy back over the prefix.
     * The source has no bound check on the local array, so the clipped
     * polygon is required to fit.
     */
    method ClipAgainstPlane(plane: Plane)
      requires Valid() && |Clip(Contents(), plane)| <= vertices.Length
      modifies this, vertices
      ensures Valid() && Contents() == Clip(old(Contents()), plane)
    {
      var inside, numInside := Sweep(plane);
      var j := 0;
      while j < numInside
        modifies vertices
        invariant 0 <= j <= numInside <= inside.Length
        invariant vertices[..j] == inside[..j]
        decreases numInside - j
      {
        vertices[j] := inside[j];
        j := j + 1;
      }
      assert vertices[..numInside] == inside[..numInside];
      numVertices := numInside;
    }

    /**
     * The sweep of clip_polygon_against_plane: the closed loop walked from
     * the edge last -> first, each edge's output appended to a fresh array
     * of the polygon's capacity. The empty polygon gives nothing.
     */
    method Sweep(plane: Plane) returns (inside: array<PolyVertex>, numInside: int)
      requires Valid() && |Clip(Contents(), plane)| <= vertices.Length
      ensures fresh(inside) && inside.Length == vertices.Length
      ensures 0 <= numInside <= inside.Length && inside[..numInside] == Clip(Contents(), plane)
    {
      ghost var vs := Contents();
      inside := new PolyVertex[vertices.Length];
      numInside := 0;
      if numVertices > 0 {
        var previous := vertices[numVertices - 1];
        var previousDot := SignedDistance(previous.pos, plane);
        var i := 0;
        while i < numVertices
          modifies inside
          invariant 0 <= i <= numVertices
          invariant 0 <= numInside <= inside.Length
          invariant inside[..numInside] == ClipPrefix(vs, i, plane)
          invariant previous == if i == 0 then vs[|vs| - 1] else vs[i - 1]
          invariant previousDot == SignedDistance(previous.pos, plane)
          decreases numVertices - i
        {
          ghost var before := inside[..numInside];
          var current := vertices[i];
          var currentDot := SignedDistance(current.pos, plane);
          ghost var out := EdgeOutput(previous, current, plane);
          assert numInside + |out| <= inside.Length && ClipPrefix(vs, i + 1, plane) == before + out by {
            assert previous == Prev(vs, i) && current == vs[i];
            ClipPrefixGrows(vs, i + 1, |vs|, plane);
          }
          if currentDot * previousDot < 0.0 {
            var t := previousDot / (previousDot - currentDot);
            var intersection := Intersection(previous, current, t);
            assert out[0] == intersection by {
              assert t == CrossingParam(previousDot, currentDot);
            }
            inside[numInside] := intersection;
            numInside := numInside + 1;
          }
          if currentDot > 0.0 {
            assert out[|out| - 1] == current;
            inside[numInside] := current;
            numInside := numInside + 1;
          }
          assert inside[..numInside] == before + out;
          previous := current;
          previousDot := currentDot;
          i := i + 1;
        }
      }
    }

    /** clip_polygon: left, right, top, bottom, near and far, each applied to the previous result. */
    method ClipPolygon(planes: seq<Plane>)
      requires Valid() && |planes| == NUM_PLANES
      requires FitsCapacity(Contents(), planes, vertices.Length)
      modifies this, vertices
      ensures Valid() && Contents() == ClipAll(old(Contents()), planes)
    {
      ghost var target := ClipAll(Contents(), planes);
      Peel(Contents(), planes, vertices.Length);
      ClipAgainstPlane(planes[LEFT_FRUSTUM_PLANE]);
      Peel(Contents(), planes[1..], vertices.Length);
      ClipAgainstPlane(planes[RIGHT_FRUSTUM_PLANE]);
      Peel(Contents(), planes[2..], vertices.Length);
      ClipAgainstPlane(planes[TOP_FRUSTUM_PLANE]);
      Peel(Contents(), planes[3..], vertices.Length);
      ClipAgainstPlane(planes[BOTTOM_FRUSTUM_PLANE]);
      Peel(Contents(), planes[4..], vertices.Length);
      ClipAgainstPlane(planes[NEAR_FRUSTUM_PLANE]);
      Peel(Contents(), planes[5..], vertices.Length);
      ClipAgainstPlane(planes[FAR_FRUSTUM_PLANE]);
      assert Contents() == ClipAll(Contents(), planes[6..]);
    }

    /**
     * triangles_from_polygon: triangle i of the output array becomes the
     * fan triangle (0, i + 1, i + 2) for i < n - 2, and the count reported
     * is n - 2 even when that is negative. Entries from n - 2 on, and each
     * entry's colour and texture, are left as they were.
     */
    method TrianglesFromPolygon(triangles: array<Triangle>) returns (numTriangles: int)
      requires Valid() && triangles.Length >= numVertices - 2
      modifies triangles
      ensures numTriangles == numVertices - 2
      ensures forall i :: 0 <= i < numTriangles ==> triangles[i] == FanTriangle(old(triangles[i]), Contents(), i)
      ensures forall i :: 0 <= i < triangles.Length && i >= numTriangles ==> triangles[i] == old(triangles[i])
    {
      var i := 0;
      while i < numVertices - 2
        invariant 0 <= i <= if numVertices >= 2 then numVertices - 2 else 0
        invariant forall k :: 0 <= k < i ==> triangles[k] == FanTriangle(old(triangles[k]), Contents(), k)
        invariant forall k :: i <= k < triangles.Length ==> triangles[k] == old(triangles[k])
        decreases numVertices - 2 - i
      {
        var index0 := 0;
        var index1 := i + 1;
        var index2 := i + 2;
        var t := triangles[i];
        t := t.(p0 := Vec4FromVec3(vertices[index0].pos), p1 := Vec4FromVec3(vertices[index1].pos),
                p2 := Vec4FromVec3(vertices[index2].pos));
        t := t.(uv0 := vertices[index0].uv, uv1 := vertices[index1].uv, uv2 := vertices[index2].uv);
        triangles[i] := t;
        i := i + 1;
      }
      numTriangles := numVertices - 2;
    }
  }

  // ------------------------------------------------------------- lemmas

  /** Later prefixes of the sweep extend earlier ones, so their lengths grow. */
  lemma {:induction false} ClipPrefixGrows(vs: seq<PolyVertex>, j: int, k: int, plane: Plane)
    requires 0 <= j <= k <= |vs|
    ensures |ClipPrefix(vs, j, plane)| <= |ClipPrefix(vs, k, plane)|
    ensures ClipPrefix(vs, k, plane)[..|ClipPrefix(vs, j, plane)|] == ClipPrefix(vs, j, plane)
    decreases k - j
  {
    if j < k {
      ClipPrefixGrows(vs, j, k - 1, plane);
      var p := ClipPrefix(vs, k - 1, plane);
      assert ClipPrefix(vs, k, plane)[..|p|] == p;
    }
  }

  /** Number of vertices among the first k strictly inside the plane. */
  function InsideCount(vs: seq<PolyVertex>, k: int, plane: Plane): nat
    requires 0 <= k <= |vs|
  {
    if k == 0 then 0
    else InsideCount(vs, k - 1, plane) + (if SignedDistance(vs[k - 1].pos, plane) > 0.0 then 1 else 0)
  }

  /** Number of edges among the first k whose end distances have strictly opposite signs. */
  function CrossingCount(vs: seq<PolyVertex>, k: int, plane: Plane): nat
    requires 0 <= k <= |vs|
  {
    if k == 0 then 0
    else CrossingCount(vs, k - 1, plane) + (if Crosses(Prev(vs, k - 1), vs[k - 1], plane) then 1 else 0)
  }

  /**
   * The clipped polygon has one vertex per strictly inside vertex plus one
   * per crossing edge, so at most twice as many vertices as the input.
   */
  lemma {:induction false} ClipCount(vs: seq<PolyVertex>, k: int, plane: Plane)
    requires 0 <= k <= |vs|
    ensures |ClipPrefix(vs, k, plane)| == InsideCount(vs, k, plane) + CrossingCount(vs, k, plane)
    ensures InsideCount(vs, k, plane) <= k && CrossingCount(vs, k, plane) <= k
    ensures |ClipPrefix(vs, k, plane)| <= 2 * k
  {
    if k > 0 {
      ClipCount(vs, k - 1, plane);
    }
  }

  /** Products of two nonzero reals by sign: opposite signs give a negative product, equal signs a positive one. */
  lemma SignProducts(x: real, y: real)
    ensures x < 0.0 < y ==> x * y < 0.0 && y * x < 0.0
    ensures x > 0.0 && y > 0.0 ==> x * y > 0.0
    ensures x < 0.0 && y < 0.0 ==> x * y > 0.0
    ensures x == 0.0 || y == 0.0 ==> x * y == 0.0
  {
  }

  /** A triangle's clipped size is the sum of what its three edges contribute, counting from the last-to-first edge. */
  lemma TriangleClipSize(a: PolyVertex, b: PolyVertex, c: PolyVertex, plane: Plane)
    ensures |Clip([a, b, c], plane)|
            == (if Crosses(c, a, plane) then 1 else 0) + (if Crosses(a, b, plane) then 1 else 0)
               + (if Crosses(b, c, plane) then 1 else 0)
               + (if SignedDistance(a.pos, plane) > 0.0 then 1 else 0)
               + (if SignedDistance(b.pos, plane) > 0.0 then 1 else 0)
               + (if SignedDistance(c.pos, plane) > 0.0 then 1 else 0)
  {
    var vs := [a, b, c];
    ClipCount(vs, 3, plane);
    CountsOfTriangle(a, b, c, plane);
  }

  /** The inside and crossing counts of a triangle, edge by edge. */
  lemma CountsOfTriangle(a: PolyVertex, b: PolyVertex, c: PolyVertex, plane: Plane)
    ensures CrossingCount([a, b, c], 3, plane)
            == (if Crosses(c, a, plane) then 1 else 0) + (if Crosses(a, b, plane) then 1 else 0)
               + (if Crosses(b, c, plane) then 1 else 0)
    ensures InsideCount([a, b, c], 3, plane)
            == (if SignedDistance(a.pos, plane) > 0.0 then 1 else 0)
               + (if SignedDistance(b.pos, plane) > 0.0 then 1 else 0)
               + (if SignedDistance(c.pos, plane) > 0.0 then 1 else 0)
  {
    var vs := [a, b, c];
    assert Prev(vs, 0) == c && Prev(vs, 1) == a && Prev(vs, 2) == b;
    assert CrossingCount(vs, 1, plane) == (if Crosses(c, a, plane) then 1 else 0);
    assert InsideCount(vs, 1, plane) == (if SignedDistance(a.pos, plane) > 0.0 then 1 else 0);
    assert CrossingCount(vs, 2, plane) == CrossingCount(vs, 1, plane) + (if Crosses(a, b, plane) then 1 else 0);
    assert InsideCount(vs, 2, plane) == InsideCount(vs, 1, plane) + (if SignedDistance(b.pos, plane) > 0.0 then 1 else 0);
  }

  /**
   * A triangle with exactly one corner strictly outside, whichever it is,
   * and the other two strictly inside becomes a quadrilateral.
   */
  lemma OneOutsideMakesFour(a: PolyVertex, b: PolyVertex, c: PolyVertex, plane: Plane)
    requires var da, db, dc := SignedDistance(a.pos, plane), SignedDistance(b.pos, plane), SignedDistance(c.pos, plane);
             (da < 0.0 && db > 0.0 && dc > 0.0) || (db < 0.0 && da > 0.0 && dc > 0.0) || (dc < 0.0 && da > 0.0 && db > 0.0)
    ensures |Clip([a, b, c], plane)| == 4
  {
    var da, db, dc := SignedDistance(a.pos, plane), SignedDistance(b.pos, plane), SignedDistance(c.pos, plane);
    SignProducts(da, db);
    SignProducts(db, dc);
    SignProducts(dc, da);
    SignProducts(db, da);
    SignProducts(dc, db);
    SignProducts(da, dc);
    TriangleClipSize(a, b, c, plane);
  }

  /**
   * A triangle with exactly one corner strictly inside, whichever it is,
   * and the other two strictly outside stays a triangle.
   */
  lemma OneInsideMakesThree(a: PolyVertex, b: PolyVertex, c: PolyVertex, plane: Plane)
    requires var da, db, dc := SignedDistance(a.pos, plane), SignedDistance(b.pos, plane), SignedDistance(c.pos, plane);
             (da > 0.0 && db < 0.0 && dc < 0.0) || (db > 0.0 && da < 0.0 && dc < 0.0) || (dc > 0.0 && da < 0.0 && db < 0.0)
    ensures |Clip([a, b, c], plane)| == 3
  {
    var da, db, dc := SignedDistance(a.pos, plane), SignedDistance(b.pos, plane), SignedDistance(c.pos, plane);
    SignProducts(da, db);
    SignProducts(db, dc);
    SignProducts(dc, da);
    SignProducts(db, da);
    SignProducts(dc, db);
    SignProducts(da, dc);
    TriangleClipSize(a, b, c, plane);
  }

  /** At most two of a triangle's three edges cross a plane: the signs around a 3-cycle cannot alternate three times. */
  lemma TriangleCrossings(a: PolyVertex, b: PolyVertex, c: PolyVertex, plane: Plane)
    ensures CrossingCount([a, b, c], 3, plane) <= 2
  {
    CountsOfTriangle(a, b, c, plane);
    var da, db, dc := SignedDistance(a.pos, plane), SignedDistance(b.pos, plane), SignedDistance(c.pos, plane);
    SignProducts(da, db);
    SignProducts(db, dc);
    SignProducts(dc, da);
    SignProducts(db, da);
    SignProducts(dc, db);
    SignProducts(da, dc);
  }

  /** A crossing edge among the first k has an end strictly outside. */
  lemma {:induction false} CrossingHasOutside(vs: seq<PolyVertex>, k: int, plane: Plane)
    requires 0 <= k <= |vs| && CrossingCount(vs, k, plane) > 0
    ensures exists i :: 0 <= i < |vs| && SignedDistance(vs[i].pos, plane) < 0.0
  {
    if Crosses(Prev(vs, k - 1), vs[k - 1], plane) {
      var dp, dc := SignedDistance(Prev(vs, k - 1).pos, plane), SignedDistance(vs[k - 1].pos, plane);
      SignProducts(dp, dc);
      SignProducts(dc, dp);
      if dc < 0.0 {
        assert SignedDistance(vs[k - 1].pos, plane) < 0.0;
      } else if k - 1 == 0 {
        assert SignedDistance(vs[|vs| - 1].pos, plane) < 0.0;
      } else {
        assert SignedDistance(vs[k - 2].pos, plane) < 0.0;
      }
    } else {
      CrossingHasOutside(vs, k - 1, plane);
    }
  }

  /** A vertex that is not strictly inside leaves the inside count below k. */
  lemma {:induction false} InsideBelow(vs: seq<PolyVertex>, k: int, plane: Plane, i: int)
    requires 0 <= i < k <= |vs| && SignedDistance(vs[i].pos, plane) <= 0.0
    ensures InsideCount(vs, k, plane) <= k - 1
  {
    ClipCount(vs, k - 1, plane);
    if i < k - 1 {
      InsideBelow(vs, k - 1, plane, i);
    }
  }

  /**
   * When at most two edges cross the plane, as for a convex polygon,
   * clipping adds at most one vertex: a crossing edge has an end strictly
   * outside, and that end is dropped.
   */
  lemma ClipGrowsByOne(vs: seq<PolyVertex>, plane: Plane)
    requires CrossingCount(vs, |vs|, plane) <= 2
    ensures |Clip(vs, plane)| <= |vs| + 1
  {
    ClipCount(vs, |vs|, plane);
    if CrossingCount(vs, |vs|, plane) == 2 {
      CrossingHasOutside(vs, |vs|, plane);
      var i :| 0 <= i < |vs| && SignedDistance(vs[i].pos, plane) < 0.0;
      InsideBelow(vs, |vs|, plane, i);
    }
  }

  /** Every intermediate polygon of ClipAll crosses its plane along at most two edges. */
  predicate FewCrossings(vs: seq<PolyVertex>, planes: seq<Plane>)
    decreases |planes|
  {
    planes == [] || (CrossingCount(vs, |vs|, planes[0]) <= 2 && FewCrossings(Clip(vs, planes[0]), planes[1..]))
  }

  /**
   * A polygon that crosses each plane at most twice gains at most one
   * vertex per plane: a triangle through the six frustum planes needs
   * 3 + 6 = 9 slots.
   */
  lemma {:induction false} FitsWhenFewCrossings(vs: seq<PolyVertex>, planes: seq<Plane>, cap: int)
    requires FewCrossings(vs, planes) && |vs| + |planes| <= cap
    ensures FitsCapacity(vs, planes, cap)
    ensures |ClipAll(vs, planes)| <= |vs| + |planes|
    decreases |planes|
  {
    if planes != [] {
      ClipGrowsByOne(vs, planes[0]);
      FitsWhenFewCrossings(Clip(vs, planes[0]), planes[1..], cap);
    }
  }

  /** The first plane a triangle meets never needs more than four slots. */
  lemma TriangleFirstPlane(a: PolyVertex, b: PolyVertex, c: PolyVertex, plane: Plane)
    ensures |Clip([a, b, c], plane)| <= 4
  {
    TriangleCrossings(a, b, c, plane);
    ClipGrowsByOne([a, b, c], plane);
  }

  /** The crossing point lies exactly on the plane. */
  lemma CrossingOnPlane(prev: PolyVertex, curr: PolyVertex, plane: Plane)
    requires Crosses(prev, curr, plane)
    ensures SignedDistance(Crossing(prev, curr, plane).pos, plane) == 0.0
  {
    var t := CrossingParam(SignedDistance(prev.pos, plane), SignedDistance(curr.pos, plane));
    SignedDistanceAlongEdge(prev.pos, curr.pos, t, plane);
  }

  /** The signed distance of a point on an edge interpolates those of its ends. */
  lemma SignedDistanceAlongEdge(p: Vec3, c: Vec3, t: real, plane: Plane)
    ensures SignedDistance(Vec3(FloatLerp(p.x, c.x, t), FloatLerp(p.y, c.y, t), FloatLerp(p.z, c.z, t)), plane)
            == SignedDistance(p, plane) + t * (SignedDistance(c, plane) - SignedDistance(p, plane))
  {
    var q := Vec3(FloatLerp(p.x, c.x, t), FloatLerp(p.y, c.y, t), FloatLerp(p.z, c.z, t));
    assert Vec3Sub(q, plane.point)
           == Vec3Add(Vec3Sub(p, plane.point), Vec3Mul(Vec3Sub(Vec3Sub(c, plane.point), Vec3Sub(p, plane.point)), t));
    DotLinear(Vec3Sub(p, plane.point), Vec3Sub(c, plane.point), plane.normal, t);
  }

  /** The crossing point's texture coordinate lies between those of the edge's ends. */
  lemma CrossingTexBetween(prev: PolyVertex, curr: PolyVertex, plane: Plane)
    requires Crosses(prev, curr, plane)
    ensures var uv := Crossing(prev, curr, plane).uv;
            (prev.uv.u <= uv.u <= curr.uv.u || curr.uv.u <= uv.u <= prev.uv.u) &&
            (prev.uv.v <= uv.v <= curr.uv.v || curr.uv.v <= uv.v <= prev.uv.v)
  {
  }

  /**
   * Every vertex of the clipped polygon is inside or on the plane: a kept
   * vertex is an input vertex strictly inside, and any other is a crossing
   * point exactly on the plane.
   */
  lemma {:induction false} ClipOutputInside(vs: seq<PolyVertex>, k: int, plane: Plane, j: int)
    requires 0 <= k <= |vs| && 0 <= j < |ClipPrefix(vs, k, plane)|
    ensures var v := ClipPrefix(vs, k, plane)[j];
            (v in vs && SignedDistance(v.pos, plane) > 0.0) || SignedDistance(v.pos, plane) == 0.0
    ensures SignedDistance(ClipPrefix(vs, k, plane)[j].pos, plane) >= 0.0
  {
    var p := ClipPrefix(vs, k - 1, plane);
    if j < |p| {
      ClipOutputInside(vs, k - 1, plane, j);
    } else {
      var prev, curr := Prev(vs, k - 1), vs[k - 1];
      if Crosses(prev, curr, plane) {
        CrossingOnPlane(prev, curr, plane);
      }
    }
  }

  /** A polygon strictly inside the plane comes back unchanged. */
  lemma ClipAllInside(vs: seq<PolyVertex>, plane: Plane)
    requires forall i :: 0 <= i < |vs| ==> SignedDistance(vs[i].pos, plane) > 0.0
    ensures Clip(vs, plane) == vs
  {
    ClipPrefixInside(vs, |vs|, plane);
  }

  lemma {:induction false} ClipPrefixInside(vs: seq<PolyVertex>, k: int, plane: Plane)
    requires 0 <= k <= |vs|
    requires forall i :: 0 <= i < |vs| ==> SignedDistance(vs[i].pos, plane) > 0.0
    ensures ClipPrefix(vs, k, plane) == vs[..k]
  {
    if k > 0 {
      ClipPrefixInside(vs, k - 1, plane);
      var dp, dc := SignedDistance(Prev(vs, k - 1).pos, plane), SignedDistance(vs[k - 1].pos, plane);
      assert dc * dp > 0.0;
      assert vs[..k] == vs[..k - 1] + [vs[k - 1]];
    }
  }

  /** A polygon with no vertex strictly inside, vertices on the plane included, clips to nothing. */
  lemma ClipAllOutside(vs: seq<PolyVertex>, plane: Plane)
    requires forall i :: 0 <= i < |vs| ==> SignedDistance(vs[i].pos, plane) <= 0.0
    ensures Clip(vs, plane) == []
  {
    ClipPrefixOutside(vs, |vs|, plane);
  }

  lemma {:induction false} ClipPrefixOutside(vs: seq<PolyVertex>, k: int, plane: Plane)
    requires 0 <= k <= |vs|
    requires forall i :: 0 <= i < |vs| ==> SignedDistance(vs[i].pos, plane) <= 0.0
    ensures ClipPrefix(vs, k, plane) == []
  {
    if k > 0 {
      ClipPrefixOutside(vs, k - 1, plane);
      var dp, dc := SignedDistance(Prev(vs, k - 1).pos, plane), SignedDistance(vs[k - 1].pos, plane);
      assert dc * dp >= 0.0 by {
        assert (-dc) * (-dp) >= 0.0;
      }
    }
  }

  /**
   * A triangle with its first corner strictly outside and the other two
   * strictly inside becomes a quadrilateral: the crossing on the edge
   * from the last corner, the crossing on the first edge, then the two
   * inside corners.
   */
  lemma OneCornerOut(a: PolyVertex, b: PolyVertex, c: PolyVertex, plane: Plane)
    requires SignedDistance(a.pos, plane) < 0.0 < SignedDistance(b.pos, plane)
    requires 0.0 < SignedDistance(c.pos, plane)
    ensures Crosses(c, a, plane) && Crosses(a, b, plane)
    ensures Clip([a, b, c], plane) == [Crossing(c, a, plane), Crossing(a, b, plane), b, c]
  {
    var da, db, dc := SignedDistance(a.pos, plane), SignedDistance(b.pos, plane), SignedDistance(c.pos, plane);
    assert da * dc < 0.0 && db * da < 0.0 && dc * db > 0.0;
    var vs := [a, b, c];
    assert ClipPrefix(vs, 1, plane) == [Crossing(c, a, plane)];
    assert ClipPrefix(vs, 2, plane) == [Crossing(c, a, plane), Crossing(a, b, plane), b];
  }

  /**
   * A triangle with only its first corner strictly inside stays a
   * triangle: the crossing on the edge from the last corner, the inside
   * corner, and the crossing on the first edge.
   */
  lemma OneCornerIn(a: PolyVertex, b: PolyVertex, c: PolyVertex, plane: Plane)
    requires SignedDistance(b.pos, plane) < 0.0 < SignedDistance(a.pos, plane)
    requires SignedDistance(c.pos, plane) < 0.0
    ensures Crosses(c, a, plane) && Crosses(a, b, plane)
    ensures Clip([a, b, c], plane) == [Crossing(c, a, plane), a, Crossing(a, b, plane)]
  {
    var da, db, dc := SignedDistance(a.pos, plane), SignedDistance(b.pos, plane), SignedDistance(c.pos, plane);
    assert da * dc < 0.0 && db * da < 0.0 && dc * db > 0.0;
    var vs := [a, b, c];
    assert ClipPrefix(vs, 1, plane) == [Crossing(c, a, plane), a];
    assert ClipPrefix(vs, 2, plane) == [Crossing(c, a, plane), a, Crossing(a, b, plane)];
  }

  /**
   * A corner exactly on the plane is neither kept (the inside test is
   * strict) nor replaced by a crossing (its product with either neighbour
   * is zero): a triangle with one corner on the plane and two strictly
   * inside comes back as the two inside corners, which the fan turns into
   * no triangle at all.
   */
  lemma OneCornerOnPlane(a: PolyVertex, b: PolyVertex, c: PolyVertex, plane: Plane)
    requires SignedDistance(a.pos, plane) == 0.0
    requires 0.0 < SignedDistance(b.pos, plane) && 0.0 < SignedDistance(c.pos, plane)
    ensures Clip([a, b, c], plane) == [b, c]
    ensures |FanIndices(|Clip([a, b, c], plane)|)| == 0
  {
    var vs := [a, b, c];
    assert ClipPrefix(vs, 1, plane) == [];
    assert ClipPrefix(vs, 2, plane) == [b];
  }

  /**
   * Clipping keeps every half-space the polygon already lies in: a
   * crossing point sits between two vertices that are both inside or on
   * any other plane q, so it is inside or on q as well.
   */
  lemma {:induction false} ClipKeepsHalfspace(vs: seq<PolyVertex>, k: int, plane: Plane, q: Plane, j: int)
    requires 0 <= k <= |vs| && 0 <= j < |ClipPrefix(vs, k, plane)|
    requires forall i :: 0 <= i < |vs| ==> SignedDistance(vs[i].pos, q) >= 0.0
    ensures SignedDistance(ClipPrefix(vs, k, plane)[j].pos, q) >= 0.0
  {
    var p := ClipPrefix(vs, k - 1, plane);
    if j < |p| {
      ClipKeepsHalfspace(vs, k - 1, plane, q, j);
    } else {
      var prev, curr := Prev(vs, k - 1), vs[k - 1];
      var out := EdgeOutput(prev, curr, plane);
      assert ClipPrefix(vs, k, plane)[j] == out[j - |p|];
      assert SignedDistance(prev.pos, q) >= 0.0 && SignedDistance(curr.pos, q) >= 0.0;
      if out[j - |p|] != curr {
        CrossingKeepsHalfspace(prev, curr, plane, q);
      }
    }
  }

  /** A crossing point between two vertices inside or on plane q is inside or on q. */
  lemma CrossingKeepsHalfspace(prev: PolyVertex, curr: PolyVertex, plane: Plane, q: Plane)
    requires Crosses(prev, curr, plane)
    requires SignedDistance(prev.pos, q) >= 0.0 && SignedDistance(curr.pos, q) >= 0.0
    ensures SignedDistance(Crossing(prev, curr, plane).pos, q) >= 0.0
  {
    var t := CrossingParam(SignedDistance(prev.pos, plane), SignedDistance(curr.pos, plane));
    SignedDistanceAlongEdge(prev.pos, curr.pos, t, q);
    BetweenNonNegative(SignedDistance(prev.pos, q), SignedDistance(curr.pos, q), t);
  }

  /** A point between two non-negative values is non-negative. */
  lemma BetweenNonNegative(a: real, b: real, t: real)
    requires 0.0 <= a && 0.0 <= b && 0.0 <= t <= 1.0
    ensures a + t * (b - a) >= 0.0
  {
    assert a + t * (b - a) == (1.0 - t) * a + t * b;
    RealMulNonNegative(1.0 - t, a);
    RealMulNonNegative(t, b);
  }

  lemma RealMulNonNegative(x: real, y: real)
    requires 0.0 <= x && 0.0 <= y
    ensures 0.0 <= x * y
  {
  }

  /**
   * After ClipAll, every vertex is inside or on every plane applied, and
   * on any plane the input already lay inside or on.
   */
  lemma {:induction false} ClipAllInsideAll(vs: seq<PolyVertex>, planes: seq<Plane>, q: Plane, j: int)
    requires 0 <= j < |ClipAll(vs, planes)|
    requires q in planes || forall i :: 0 <= i < |vs| ==> SignedDistance(vs[i].pos, q) >= 0.0
    ensures SignedDistance(ClipAll(vs, planes)[j].pos, q) >= 0.0
    decreases |planes|
  {
    if planes != [] {
      var clipped := Clip(vs, planes[0]);
      if q == planes[0] {
        forall i | 0 <= i < |clipped|
          ensures SignedDistance(clipped[i].pos, q) >= 0.0
        {
          ClipOutputInside(vs, |vs|, q, i);
        }
      } else if q !in planes {
        forall i | 0 <= i < |clipped|
          ensures SignedDistance(clipped[i].pos, q) >= 0.0
        {
          ClipKeepsHalfspace(vs, |vs|, planes[0], q, i);
        }
      }
      assert q in planes[1..] || forall i :: 0 <= i < |clipped| ==> SignedDistance(clipped[i].pos, q) >= 0.0;
      ClipAllInsideAll(clipped, planes[1..], q, j);
    }
  }

  lemma MulMonotone(a: int, b: int, m: int)
    requires a <= b && 0 <= m
    ensures a * m <= b * m
  {
    assert b * m - a * m == (b - a) * m;
  }

  /** 2^n. */
  function Pow2(n: nat): (r: nat)
    ensures r >= 1
  {
    if n == 0 then 1 else 2 * Pow2(n - 1)
  }

  /** A polygon of n vertices fits through the planes when n doubled once per plane fits the capacity. */
  lemma {:induction false} FitsWhenSmall(vs: seq<PolyVertex>, planes: seq<Plane>, cap: int)
    requires |vs| * Pow2(|planes|) <= cap
    ensures FitsCapacity(vs, planes, cap)
    decreases |planes|
  {
    if planes != [] {
      var clipped := Clip(vs, planes[0]);
      ClipCount(vs, |vs|, planes[0]);
      var m := Pow2(|planes| - 1);
      MulMonotone(|clipped|, 2 * |vs|, m);
      assert (2 * |vs|) * m == |vs| * Pow2(|planes|);
      MulMonotone(1, m, |clipped|);
      FitsWhenSmall(clipped, planes[1..], cap);
    }
  }

  /** Triangle i written by triangles_from_polygon takes its corners from entry i of the fan. */
  lemma FanTriangleCorners(t: Triangle, vs: seq<PolyVertex>, i: int)
    requires 0 <= i < |vs| - 2
    ensures var (a, b, c) := FanIndices(|vs|)[i];
            var r := FanTriangle(t, vs, i);
            0 <= a < |vs| && 0 <= b < |vs| && 0 <= c < |vs| &&
            Vec3FromVec4(r.p0) == vs[a].pos && Vec3FromVec4(r.p1) == vs[b].pos && Vec3FromVec4(r.p2) == vs[c].pos &&
            r.uv0 == vs[a].uv && r.uv1 == vs[b].uv && r.uv2 == vs[c].uv
  {
    assert FanIndices(|vs|)[i] == (0, i + 1, i + 2);
  }

  /**
   * The fan over an n-gon (n >= 3) covers its boundary: each edge
   * (k, k + 1 mod n) of the loop is an edge of one of the n - 2 fan triangles.
   */
  lemma FanCoversBoundary(n: int, k: int)
    requires n >= 3 && 0 <= k < n
    ensures exists i :: 0 <= i < |FanIndices(n)| &&
              var (a, b, c) := FanIndices(n)[i];
              var e := (k, (k + 1) % n);
              e == (a, b) || e == (b, c) || e == (c, a) || e == (b, a) || e == (c, b) || e == (a, c)
  {
    var fan := FanIndices(n);
    if k == 0 {
      assert fan[0] == (0, 1, 2);
    } else if k == n - 1 {
      assert fan[n - 3] == (0, n - 2, n - 1);
      assert (k + 1) % n == 0;
    } else {
      assert fan[k - 1] == (0, k, k + 1);
      assert (k + 1) % n == k + 1;
    }
  }
}
