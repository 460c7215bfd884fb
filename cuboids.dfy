/**
 * The `Cuboid` class of the geometry library: eight struct vertices in the
 * caller's own array, an order-independent `==`, a hash code and a centroid
 * accumulated in loops, and a volume and surface area read from the corners
 * at indices 0, 1, 3 and 4 of an axis-aligned box in canonical order.
 */
module Cuboids {
  import opened SysMath
  import opened VertexSets
  import opened Points

  /**
   * The outcome of `new Cuboid(vertices)`: the object, or the exception it
   * throws. Reading `Length` of a null array throws before the arity check.
   */
  datatype Construction =
    | Constructed(cuboid: Cuboid)
    | ArgumentException(message: string)
    | NullReferenceException

  const ArityMessage := "A cuboid must have 8 vertices"

  class Cuboid {
    /** The array the caller passed in: the cuboid keeps a reference, not a copy. */
    const vertices: array<Point3D>

    /** The assignment the constructor makes once the length check has passed. */
    constructor (vertices: array<Point3D>)
      requires vertices.Length == 8
      ensures this.vertices == vertices
      ensures Valid()
    {
      this.vertices := vertices;
    }

    predicate Valid()
    {
      vertices.Length == 8
    }

    /** The array a possibly-null cuboid reads. */
    static function Storage(c: Cuboid?): set<object>
    {
      if c == null then {} else {c.vertices}
    }

    /** `operator ==`: null only equals null; otherwise the same vertex set. */
    static function Equal(a: Cuboid?, b: Cuboid?): (r: bool)
      reads Storage(a), Storage(b)
      ensures a == null ==> (r <==> b == null)
      ensures a != null && b == null ==> !r
      ensures a != null && b != null ==> (r <==> Elements(a.vertices[..]) == Elements(b.vertices[..]))
    {
      if a == null then b == null
      else if b == null then false
      else SameVertices(a.vertices[..], b.vertices[..])
    }

    /** `operator !=`. */
    static function NotEqual(a: Cuboid?, b: Cuboid?): (r: bool)
      reads Storage(a), Storage(b)
      ensures r <==> ((a == null) != (b == null)
                      || (a != null && b != null && Elements(a.vertices[..]) != Elements(b.vertices[..])))
    {
      !Equal(a, b)
    }

    /** The mean of the eight vertices, summed one vertex at a time. */
    method Centroid() returns (c: Point3D)
      requires Valid()
      ensures c == Mean(vertices[..])
    {
      var x, y, z := 0.0, 0.0, 0.0;
      for i := 0 to 8
        invariant Point3D(x, y, z) == Sum(vertices[..i])
      {
        assert vertices[..i + 1] == vertices[..i] + [vertices[i]];
        SumSnoc(vertices[..i], vertices[i]);
        x := x + vertices[i].x;
        y := y + vertices[i].y;
        z := z + vertices[i].z;
      }
      assert vertices[..8] == vertices[..];
      c := Point3D(x / 8.0, y / 8.0, z / 8.0);
    }

    /** |x1 - x0|, the edge along the x axis. */
    function Width(): (r: real)
      reads vertices
      requires Valid()
    {
      Abs(vertices[1].x - vertices[0].x)
    }

    /** |y3 - y0|, the edge along the y axis. */
    function Height(): (r: real)
      reads vertices
      requires Valid()
    {
      Abs(vertices[3].y - vertices[0].y)
    }

    /** |z4 - z0|, the edge along the z axis. */
    function Depth(): (r: real)
      reads vertices
      requires Valid()
    {
      Abs(vertices[4].z - vertices[0].z)
    }

    function Volume(): (r: real)
      reads vertices
      requires Valid()
      ensures 0.0 <= r
      ensures r == 0.0 <==> Width() == 0.0 || Height() == 0.0 || Depth() == 0.0
    {
      var width, height, depth := Width(), Height(), Depth();
      width * depth * height
    }

    function SurfaceArea(): (r: real)
      reads vertices
      requires Valid()
      ensures 0.0 <= r
      ensures r == 0.0 <==> ((Width() == 0.0 && Height() == 0.0)
                             || (Width() == 0.0 && Depth() == 0.0)
                             || (Height() == 0.0 && Depth() == 0.0))
    {
      var width, height, depth := Width(), Height(), Depth();
      2.0 * (width * height + width * depth + height * depth)
    }

    /** `Equals(object)`: false for null and for other types, else `==`. */
    function Equals(obj: object?): (r: bool)
      reads vertices, if obj is Cuboid then {(obj as Cuboid).vertices} else {}
      ensures r <==> obj is Cuboid && Elements(vertices[..]) == Elements((obj as Cuboid).vertices[..])
    {
      if obj == null || !(obj is Cuboid) then false else Equal(this, obj as Cuboid)
    }

    /** XORs the eight per-vertex hash codes one at a time; `h` is the runtime's struct hash. */
    method GetHashCode(h: Point3D -> bv32) returns (hashCode: bv32)
      requires Valid()
      ensures hashCode == XorAll(h, vertices[..])
    {
      hashCode := 0;
      for i := 0 to 8
        invariant hashCode == XorAll(h, vertices[..i])
      {
        assert vertices[..i + 1] == vertices[..i] + [vertices[i]];
        XorAllSnoc(h, vertices[..i], vertices[i]);
        hashCode := hashCode ^ h(vertices[i]);
      }
      assert vertices[..8] == vertices[..];
    }
  }

  /**
   * `new Cuboid(vertices)`: a null array throws on `vertices.Length`; any
   * length but eight throws the arity exception; otherwise the cuboid keeps
   * the caller's array.
   */
  method New(vertices: array?<Point3D>) returns (r: Construction)
    ensures r.NullReferenceException? <==> vertices == null
    ensures r.ArgumentException? <==> vertices != null && vertices.Length != 8
    ensures r.ArgumentException? ==> r.message == ArityMessage
    ensures r.Constructed? ==> fresh(r.cuboid) && r.cuboid.vertices == vertices && r.cuboid.Valid()
  {
    if vertices == null {
      return NullReferenceException;
    }
    if vertices.Length != 8 {
      return ArgumentException(ArityMessage);
    }
    var c := new Cuboid(vertices);
    return Constructed(c);
  }

  /** `==` is an equivalence relation on cuboids, null included. */
  lemma EqualIsEquivalence(a: Cuboid?, b: Cuboid?, c: Cuboid?)
    ensures Cuboid.Equal(a, a)
    ensures Cuboid.Equal(a, b) == Cuboid.Equal(b, a)
    ensures Cuboid.Equal(a, b) && Cuboid.Equal(b, c) ==> Cuboid.Equal(a, c)
  {
  }

  /** Any rearrangement of the same eight vertices gives an equal cuboid. */
  lemma EqualIgnoresOrder(a: Cuboid, b: Cuboid)
    requires multiset(a.vertices[..]) == multiset(b.vertices[..])
    ensures Cuboid.Equal(a, b) && a.Equals(b)
  {
    PermutationKeepsSameVertices(a.vertices[..], b.vertices[..]);
  }

  /** The hash code GetHashCode returns does not depend on the order of the vertices. */
  lemma HashIgnoresOrder(a: Cuboid, b: Cuboid, h: Point3D -> bv32)
    requires multiset(a.vertices[..]) == multiset(b.vertices[..])
    ensures XorAll(h, a.vertices[..]) == XorAll(h, b.vertices[..])
  {
    XorAllPermutation(h, a.vertices[..], b.vertices[..]);
  }

  /** With eight different vertices each, equal cuboids have equal hash codes. */
  lemma HashAgreesWithEqualOnDistinctVertices(a: Cuboid, b: Cuboid, h: Point3D -> bv32)
    requires Distinct(a.vertices[..]) && Distinct(b.vertices[..])
    requires Cuboid.Equal(a, b)
    ensures XorAll(h, a.vertices[..]) == XorAll(h, b.vertices[..])
  {
    XorAllRespectsSameDistinctVertices(h, a.vertices[..], b.vertices[..]);
  }

  /** With a repeated vertex, equal cuboids can hash differently. */
  lemma RepeatedVertexHashMismatch(a: Cuboid, b: Cuboid, h: Point3D -> bv32,
                                   p: Point3D, q: Point3D, rest: seq<Point3D>)
    requires a.vertices[..] == [p, p, q] + rest && b.vertices[..] == [p, q, q] + rest
    requires h(p) != h(q)
    ensures Cuboid.Equal(a, b)
    ensures XorAll(h, a.vertices[..]) != XorAll(h, b.vertices[..])
  {
    RepeatedVertexBreaksXorHash(h, p, q, rest);
  }

  /** Hashing each distinct vertex once agrees with `==` on every pair of cuboids. */
  lemma SetHashAgreesWithEqual(a: Cuboid, b: Cuboid, h: Point3D -> bv32)
    requires Cuboid.Equal(a, b)
    ensures SetXorHash(h, a.vertices[..]) == SetXorHash(h, b.vertices[..])
  {
    SetXorHashRespectsSameVertices(h, a.vertices[..], b.vertices[..]);
  }

  /** Rearranging the vertices leaves the centroid where it was. */
  lemma CentroidIgnoresOrder(a: Cuboid, b: Cuboid)
    requires a.Valid()
    requires multiset(a.vertices[..]) == multiset(b.vertices[..])
    ensures b.Valid() && Mean(a.vertices[..]) == Mean(b.vertices[..])
  {
    assert |a.vertices[..]| == |multiset(a.vertices[..])| == |multiset(b.vertices[..])| == |b.vertices[..]|;
    MeanPermutation(a.vertices[..], b.vertices[..]);
  }

  /** Volume and surface area read only the corners at indices 0, 1, 3 and 4. */
  lemma FormulasReadFourCorners(a: Cuboid, b: Cuboid)
    requires a.Valid() && b.Valid()
    requires a.vertices[0] == b.vertices[0] && a.vertices[1] == b.vertices[1]
    requires a.vertices[3] == b.vertices[3] && a.vertices[4] == b.vertices[4]
    ensures a.Volume() == b.Volume() && a.SurfaceArea() == b.SurfaceArea()
  {
  }

  /** For a cube with edge e the formulas give e^3 and 6e^2. */
  lemma CubeFormulas(c: Cuboid, e: real)
    requires c.Valid()
    requires c.Width() == e && c.Height() == e && c.Depth() == e
    ensures c.Volume() == e * e * e
    ensures c.SurfaceArea() == 6.0 * e * e
  {
  }

  /** The corners of the unit cube in the canonical order of the library's demo. */
  const UnitCube: seq<Point3D> :=
    [Point3D(0.0, 0.0, 0.0), Point3D(1.0, 0.0, 0.0), Point3D(1.0, 1.0, 0.0), Point3D(0.0, 1.0, 0.0),
     Point3D(0.0, 0.0, 1.0), Point3D(1.0, 0.0, 1.0), Point3D(1.0, 1.0, 1.0), Point3D(0.0, 1.0, 1.0)]

  method NewArray(s: seq<Point3D>) returns (a: array<Point3D>)
    ensures fresh(a) && a[..] == s
  {
    a := new Point3D[|s|](i requires 0 <= i < |s| => s[i]);
  }

  /** The demo cube: centroid (0.5, 0.5, 0.5), volume 1, surface area 6. */
  method UnitCubeExample() returns (centroid: Point3D, volume: real, surfaceArea: real)
    ensures centroid == Point3D(0.5, 0.5, 0.5)
    ensures volume == 1.0 && surfaceArea == 6.0
  {
    var corners := NewArray(UnitCube);
    var cuboid := new Cuboid(corners);
    SumOfUnitCube();
    centroid := cuboid.Centroid();
    volume := cuboid.Volume();
    surfaceArea := cuboid.SurfaceArea();
  }

  lemma SumOfUnitCube()
    ensures Sum(UnitCube) == Point3D(4.0, 4.0, 4.0)
  {
    SumOfEight(UnitCube);
  }

  lemma {:induction false} SumOfEight(c: seq<Point3D>)
    requires |c| == 8
    ensures Sum(c) == Point3D(c[0].x + c[1].x + c[2].x + c[3].x + c[4].x + c[5].x + c[6].x + c[7].x,
                              c[0].y + c[1].y + c[2].y + c[3].y + c[4].y + c[5].y + c[6].y + c[7].y,
                              c[0].z + c[1].z + c[2].z + c[3].z + c[4].z + c[5].z + c[6].z + c[7].z)
  {
    var e: seq<Point3D> := [];
    var s1 := e + [c[0]];
    var s2 := s1 + [c[1]];
    var s3 := s2 + [c[2]];
    var s4 := s3 + [c[3]];
    var s5 := s4 + [c[4]];
    var s6 := s5 + [c[5]];
    var s7 := s6 + [c[6]];
    SumSnoc(e, c[0]);
    SumSnoc(s1, c[1]);
    SumSnoc(s2, c[2]);
    SumSnoc(s3, c[3]);
    SumSnoc(s4, c[4]);
    SumSnoc(s5, c[5]);
    SumSnoc(s6, c[6]);
    SumSnoc(s7, c[7]);
    assert s7 + [c[7]] == c;
  }

  /** The unit cube with the corners at indices 1 and 3 exchanged. */
  const SwappedCube: seq<Point3D> :=
    [Point3D(0.0, 0.0, 0.0), Point3D(0.0, 1.0, 0.0), Point3D(1.0, 1.0, 0.0), Point3D(1.0, 0.0, 0.0),
     Point3D(0.0, 0.0, 1.0), Point3D(1.0, 0.0, 1.0), Point3D(1.0, 1.0, 1.0), Point3D(0.0, 1.0, 1.0)]

  lemma SwappedCubeIsPermutation()
    ensures multiset(SwappedCube) == multiset(UnitCube)
  {
    var s := UnitCube;
    assert SwappedCube == s[..1] + [s[3]] + s[2..3] + [s[1]] + s[4..];
    assert s == s[..1] + [s[1]] + s[2..3] + [s[3]] + s[4..];
  }

  /**
   * Swapping the corners at indices 1 and 3 keeps the cuboids equal, but the
   * formulas, which read those indices, now see a flat box.
   */
  method ReorderedUnitCube() returns (a: Cuboid, b: Cuboid)
    ensures a.Valid() && b.Valid()
    ensures Cuboid.Equal(a, b)
    ensures a.Volume() == 1.0 && a.SurfaceArea() == 6.0
    ensures b.Volume() == 0.0 && b.SurfaceArea() == 0.0
  {
    var first := NewArray(UnitCube);
    var second := NewArray(SwappedCube);
    a := new Cuboid(first);
    b := new Cuboid(second);
    SwappedCubeIsPermutation();
    EqualIgnoresOrder(a, b);
    UnitCubeFormulas(a);
    SwappedCubeFormulas(b);
  }

  lemma UnitCubeFormulas(c: Cuboid)
    requires c.vertices[..] == UnitCube
    ensures c.Valid() && c.Volume() == 1.0 && c.SurfaceArea() == 6.0
  {
    assert c.vertices[0] == UnitCube[0] && c.vertices[1] == UnitCube[1];
    assert c.vertices[3] == UnitCube[3] && c.vertices[4] == UnitCube[4];
    CubeFormulas(c, 1.0);
  }

  lemma SwappedCubeFormulas(c: Cuboid)
    requires c.vertices[..] == SwappedCube
    ensures c.Valid() && c.Volume() == 0.0 && c.SurfaceArea() == 0.0
  {
    assert c.vertices[0] == SwappedCube[0] && c.vertices[1] == SwappedCube[1];
    assert c.vertices[3] == SwappedCube[3] && c.vertices[4] == SwappedCube[4];
    assert c.Width() == 0.0 && c.Height() == 0.0;
  }

  /**
   * Because the cuboid keeps the caller's array, a later write through that
   * array changes what the cuboid computes.
   */
  method WriteThroughCallerArray() returns (before: real, after: real)
    ensures before == 1.0 && after == 2.0
  {
    var corners := NewArray(UnitCube);
    var r := New(corners);
    var cuboid := r.cuboid;
    before := cuboid.Volume();
    corners[1] := Point3D(2.0, 0.0, 0.0);
    after := cuboid.Volume();
  }
}
