/**
 * The `Tetrahedron` class of the geometry library over struct points: four
 * vertices kept in a private array that nothing changes after construction,
 * an order-independent `==`, an XOR hash code, the centroid and the surface
 * area by Heron's formula.
 */
module Tetrahedra {
  import opened SysMath
  import opened VertexSets
  import opened Points

  /** The constructor's array always holds exactly four vertices. */
  type Quad = s: seq<Point3D> | |s| == 4 witness [Origin, Origin, Origin, Origin]

  class Tetrahedron {
    const vertices: Quad

    constructor (v1: Point3D, v2: Point3D, v3: Point3D, v4: Point3D)
      ensures vertices == [v1, v2, v3, v4]
    {
      vertices := [v1, v2, v3, v4];
    }

    /** `operator ==`: null only equals null; otherwise the same vertex set. */
    static function Equal(t1: Tetrahedron?, t2: Tetrahedron?): (r: bool)
      ensures t1 == null ==> (r <==> t2 == null)
      ensures t1 != null && t2 == null ==> !r
      ensures t1 != null && t2 != null ==> (r <==> Elements(t1.vertices) == Elements(t2.vertices))
    {
      if t1 == null then t2 == null
      else if t2 == null then false
      else SameVertices(t1.vertices, t2.vertices)
    }

    /** `operator !=`. */
    static function NotEqual(t1: Tetrahedron?, t2: Tetrahedron?): (r: bool)
      ensures r <==> ((t1 == null) != (t2 == null)
                      || (t1 != null && t2 != null && Elements(t1.vertices) != Elements(t2.vertices)))
    {
      !Equal(t1, t2)
    }

    /** The component-wise mean of the four vertices. */
    function Centroid(): (c: Point3D)
      ensures c == Mean(vertices)
    {
      var v := vertices;
      SumOfFour(v);
      Point3D((v[0].x + v[1].x + v[2].x + v[3].x) / 4.0,
              (v[0].y + v[1].y + v[2].y + v[3].y) / 4.0,
              (v[0].z + v[1].z + v[2].z + v[3].z) / 4.0)
    }

    /** Heron's formula on the three side lengths of a triangle. */
    ghost function Area(p1: Point3D, p2: Point3D, p3: Point3D): (r: real)
      ensures 0.0 <= r
    {
      Heron(Distance(p1, p2), Distance(p1, p3), Distance(p2, p3))
    }

    /** The Euclidean distance between two points. */
    ghost function Distance(p1: Point3D, p2: Point3D): (r: real)
      ensures 0.0 <= r
    {
      Sqrt(Square(p1.x - p2.x) + Square(p1.y - p2.y) + Square(p1.z - p2.z))
    }

    /** The areas of the four faces (v0,v1,v2), (v0,v1,v3), (v0,v2,v3), (v1,v2,v3). */
    ghost function SurfaceArea(): (r: real)
      ensures 0.0 <= r
    {
      var area1 := Area(vertices[0], vertices[1], vertices[2]);
      var area2 := Area(vertices[0], vertices[1], vertices[3]);
      var area3 := Area(vertices[0], vertices[2], vertices[3]);
      var area4 := Area(vertices[1], vertices[2], vertices[3]);
      area1 + area2 + area3 + area4
    }

    /** `Equals(object)`: false for null and for other types, else `==`. */
    function Equals(obj: object?): (r: bool)
      ensures r <==> obj is Tetrahedron && Elements(vertices) == Elements((obj as Tetrahedron).vertices)
    {
      if obj == null || !(obj is Tetrahedron) then false else Equal(this, obj as Tetrahedron)
    }

    /** The XOR of the four per-vertex hash codes; `h` is the runtime's struct hash. */
    function GetHashCode(h: Point3D -> bv32): (r: bv32)
      ensures r == XorAll(h, vertices)
    {
      var v := vertices;
      XorAllOfFour(h, v);
      h(v[0]) ^ h(v[1]) ^ h(v[2]) ^ h(v[3])
    }
  }

  /** Heron's formula: the area of a triangle with sides `a`, `b` and `c`. */
  ghost function Heron(a: real, b: real, c: real): (r: real)
    ensures 0.0 <= r
  {
    Sqrt(Radicand(a, b, c))
  }

  /** `s(s - a)(s - b)(s - c)` with `s` half the perimeter. */
  function Radicand(a: real, b: real, c: real): real
  {
    var s := (a + b + c) / 2.0;
    s * (s - a) * (s - b) * (s - c)
  }

  /** Heron's formula does not depend on the order of the sides. */
  lemma HeronSymmetric(a: real, b: real, c: real)
    ensures Heron(a, b, c) == Heron(b, a, c) == Heron(a, c, b)
  {
    RadicandSymmetric(a, b, c);
  }

  lemma RadicandSymmetric(a: real, b: real, c: real)
    ensures Radicand(a, b, c) == Radicand(b, a, c) == Radicand(a, c, b)
  {
    var s := (a + b + c) / 2.0;
    assert (b + a + c) / 2.0 == s && (a + c + b) / 2.0 == s;
    var x, y, z := s - a, s - b, s - c;
    assert s * x * y * z == s * y * x * z == s * x * z * y;
  }

  lemma {:induction false} SumOfFour(v: Quad)
    ensures Sum(v) == Point3D(v[0].x + v[1].x + v[2].x + v[3].x,
                              v[0].y + v[1].y + v[2].y + v[3].y,
                              v[0].z + v[1].z + v[2].z + v[3].z)
  {
    var a, b, c, d := v[0], v[1], v[2], v[3];
    assert [a] == [] + [a] && [a, b] == [a] + [b];
    assert [a, b, c] == [a, b] + [c] && v == [a, b, c] + [d];
    SumSnoc([], a);
    SumSnoc([a], b);
    SumSnoc([a, b], c);
    SumSnoc([a, b, c], d);
  }

  /** `==` is an equivalence relation on tetrahedra, null included. */
  lemma EqualIsEquivalence(t1: Tetrahedron?, t2: Tetrahedron?, t3: Tetrahedron?)
    ensures Tetrahedron.Equal(t1, t1)
    ensures Tetrahedron.Equal(t1, t2) == Tetrahedron.Equal(t2, t1)
    ensures Tetrahedron.Equal(t1, t2) && Tetrahedron.Equal(t2, t3) ==> Tetrahedron.Equal(t1, t3)
  {
  }

  /** Building from a rearrangement of the same four points gives an equal tetrahedron. */
  lemma EqualIgnoresOrder(t1: Tetrahedron, t2: Tetrahedron)
    requires multiset(t1.vertices) == multiset(t2.vertices)
    ensures Tetrahedron.Equal(t1, t2) && t1.Equals(t2)
  {
    PermutationKeepsSameVertices(t1.vertices, t2.vertices);
  }

  /** The hash code does not depend on the order of the vertices. */
  lemma HashIgnoresOrder(t1: Tetrahedron, t2: Tetrahedron, h: Point3D -> bv32)
    requires multiset(t1.vertices) == multiset(t2.vertices)
    ensures t1.GetHashCode(h) == t2.GetHashCode(h)
  {
    XorAllPermutation(h, t1.vertices, t2.vertices);
  }

  /** With four different vertices each, equal tetrahedra have equal hash codes. */
  lemma HashAgreesWithEqualOnDistinctVertices(t1: Tetrahedron, t2: Tetrahedron, h: Point3D -> bv32)
    requires Distinct(t1.vertices) && Distinct(t2.vertices)
    requires Tetrahedron.Equal(t1, t2)
    ensures t1.GetHashCode(h) == t2.GetHashCode(h)
  {
    XorAllRespectsSameDistinctVertices(h, t1.vertices, t2.vertices);
  }

  /**
   * With a repeated vertex the hash code breaks the contract with `==`:
   * {a, a, b, c} and {a, b, b, c} are equal, yet their hashes differ
   * whenever the runtime hashes `a` and `b` differently.
   */
  lemma RepeatedVertexHashMismatch(t1: Tetrahedron, t2: Tetrahedron, h: Point3D -> bv32,
                                   a: Point3D, b: Point3D, c: Point3D)
    requires t1.vertices == [a, a, b, c] && t2.vertices == [a, b, b, c]
    requires h(a) != h(b)
    ensures Tetrahedron.Equal(t1, t2)
    ensures t1.GetHashCode(h) != t2.GetHashCode(h)
  {
    assert Elements(t1.vertices) == {a, b, c} == Elements(t2.vertices);
    var ha, hb, hc := h(a), h(b), h(c);
    assert ha ^ ha ^ hb ^ hc == hb ^ hc;
    assert ha ^ hb ^ hb ^ hc == ha ^ hc;
  }

  /** Hashing each distinct vertex once agrees with `==` on every pair of tetrahedra. */
  lemma SetHashAgreesWithEqual(t1: Tetrahedron, t2: Tetrahedron, h: Point3D -> bv32)
    requires Tetrahedron.Equal(t1, t2)
    ensures SetXorHash(h, t1.vertices) == SetXorHash(h, t2.vertices)
  {
    SetXorHashRespectsSameVertices(h, t1.vertices, t2.vertices);
  }

  /** Rearranging the vertices leaves the centroid where it was. */
  lemma CentroidIgnoresOrder(t1: Tetrahedron, t2: Tetrahedron)
    requires multiset(t1.vertices) == multiset(t2.vertices)
    ensures t1.Centroid() == t2.Centroid()
  {
    MeanPermutation(t1.vertices, t2.vertices);
  }

  /** Distance is symmetric and zero from a point to itself. */
  lemma DistanceLaws(t: Tetrahedron, p: Point3D, q: Point3D)
    ensures t.Distance(p, q) == t.Distance(q, p)
    ensures t.Distance(p, p) == 0.0
  {
    assert Square(p.x - q.x) == Square(q.x - p.x);
    assert Square(p.y - q.y) == Square(q.y - p.y);
    assert Square(p.z - q.z) == Square(q.z - p.z);
    SqrtOfZero();
  }

  /** Heron's formula does not depend on which corner is named first. */
  lemma AreaSymmetric(t: Tetrahedron, p1: Point3D, p2: Point3D, p3: Point3D)
    ensures t.Area(p1, p2, p3) == t.Area(p2, p1, p3)
    ensures t.Area(p1, p2, p3) == t.Area(p1, p3, p2)
  {
    DistanceLaws(t, p1, p2);
    DistanceLaws(t, p1, p3);
    DistanceLaws(t, p2, p3);
    HeronSymmetric(t.Distance(p1, p2), t.Distance(p1, p3), t.Distance(p2, p3));
  }

  /** A triangle with two coincident corners has area zero. */
  lemma AreaOfRepeatedCorner(t: Tetrahedron, p: Point3D, q: Point3D)
    ensures t.Area(p, p, q) == 0.0
    ensures t.Area(p, q, p) == 0.0
  {
    DistanceLaws(t, p, q);
    var d := t.Distance(p, q);
    HeronOfFlatSides(d);
    HeronSymmetric(d, 0.0, d);
  }

  lemma HeronOfFlatSides(d: real)
    ensures Heron(0.0, d, d) == 0.0
  {
    assert Radicand(0.0, d, d) == d * d * 0.0 * 0.0 == 0.0;
    SqrtOfZero();
  }

  /**
   * Each vertex lies on three of the four faces: collapse v3 onto v0 and the
   * two faces holding both vanish, while the other two become the base.
   */
  lemma CollapsedSurfaceArea(t: Tetrahedron)
    requires t.vertices[3] == t.vertices[0]
    ensures t.SurfaceArea() == 2.0 * t.Area(t.vertices[0], t.vertices[1], t.vertices[2])
  {
    var v0, v1, v2 := t.vertices[0], t.vertices[1], t.vertices[2];
    AreaOfRepeatedCorner(t, v0, v1);
    AreaOfRepeatedCorner(t, v0, v2);
    AreaSymmetric(t, v1, v2, v0);
    AreaSymmetric(t, v1, v0, v2);
    AreaSymmetric(t, v0, v1, v2);
  }

  /** The unit tetrahedron printed by the library's demo. */
  method UnitTetrahedronExample() returns (t: Tetrahedron, centroid: Point3D)
    ensures t.vertices == [Origin, Point3D(1.0, 0.0, 0.0), Point3D(0.0, 1.0, 0.0), Point3D(0.0, 0.0, 1.0)]
    ensures centroid == Point3D(0.25, 0.25, 0.25)
  {
    t := new Tetrahedron(Point3D(0.0, 0.0, 0.0), Point3D(1.0, 0.0, 0.0),
                         Point3D(0.0, 1.0, 0.0), Point3D(0.0, 0.0, 1.0));
    centroid := t.Centroid();
  }
}
