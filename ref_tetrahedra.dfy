/**
 * The single-shape tetrahedron of the geometry library, whose `Point3D` is a
 * mutable class rather than a struct. The tetrahedron keeps references to
 * the caller's points, so `==` compares vertices by identity, the hash code
 * is built from identity hashes, and moving a point after construction moves
 * the centroid and the faces with it.
 */
module RefTetrahedra {
  import opened SysMath
  import opened VertexSets
  import Points
  import Tetrahedra

  /** A point object with settable coordinates and no `Equals` override. */
  class Point3D {
    var x: real
    var y: real
    var z: real

    constructor (x: real, y: real, z: real)
      ensures this.x == x && this.y == y && this.z == z
    {
      this.x := x;
      this.y := y;
      this.z := z;
    }

    /** The coordinates the object holds right now, as a value. */
    function Position(): (p: Points.Point3D)
      reads this
      ensures p.x == x && p.y == y && p.z == z
    {
      Points.Point3D(x, y, z)
    }
  }

  /** The current coordinates of each point of `s`, in order. */
  function Positions(s: seq<Point3D>): (r: seq<Points.Point3D>)
    reads s
    ensures |r| == |s|
    ensures forall i | 0 <= i < |s| :: r[i] == s[i].Position()
  {
    if s == [] then [] else Positions(s[..|s| - 1]) + [s[|s| - 1].Position()]
  }

  class Tetrahedron {
    /** The private array built in the constructor; nothing writes to it afterwards. */
    const vertices: seq<Point3D>

    constructor (v1: Point3D, v2: Point3D, v3: Point3D, v4: Point3D)
      ensures vertices == [v1, v2, v3, v4]
      ensures Valid()
    {
      vertices := [v1, v2, v3, v4];
    }

    predicate Valid()
    {
      |vertices| == 4
    }

    /** `operator ==`: null only equals null; otherwise the same set of point objects. */
    static function Equal(t1: Tetrahedron?, t2: Tetrahedron?): (r: bool)
      ensures t1 == null ==> (r <==> t2 == null)
      ensures t1 != null && t2 == null ==> !r
      ensures t1 != null && t2 != null ==> (r <==> Elements(t1.vertices) == Elements(t2.vertices))
    {
      if t1 == null then t2 == null
      else if t2 == null then false
      else SameVertices(t1.vertices, t2.vertices)
    }

    /** `operator !=`. */
    static function NotEqual(t1: Tetrahedron?, t2: Tetrahedron?): (r: bool)
      ensures r <==> ((t1 == null) != (t2 == null)
                      || (t1 != null && t2 != null && Elements(t1.vertices) != Elements(t2.vertices)))
    {
      !Equal(t1, t2)
    }

    /** A new point at the mean of the four vertices' current coordinates. */
    method Centroid() returns (c: Point3D)
      requires Valid()
      ensures fresh(c)
      ensures c.Position() == Points.Mean(Positions(vertices))
      ensures c.x == (vertices[0].x + vertices[1].x + vertices[2].x + vertices[3].x) / 4.0
      ensures c.y == (vertices[0].y + vertices[1].y + vertices[2].y + vertices[3].y) / 4.0
      ensures c.z == (vertices[0].z + vertices[1].z + vertices[2].z + vertices[3].z) / 4.0
    {
      var v := vertices;
      var x := (v[0].x + v[1].x + v[2].x + v[3].x) / 4.0;
      var y := (v[0].y + v[1].y + v[2].y + v[3].y) / 4.0;
      var z := (v[0].z + v[1].z + v[2].z + v[3].z) / 4.0;
      Tetrahedra.SumOfFour(Positions(v));
      c := new Point3D(x, y, z);
    }

    /** Heron's formula on the three side lengths of a triangle. */
    ghost function Area(p1: Point3D, p2: Point3D, p3: Point3D): (r: real)
      reads p1, p2, p3
      ensures 0.0 <= r
    {
      var a := Distance(p1, p2);
      var b := Distance(p1, p3);
      var c := Distance(p2, p3);
      Tetrahedra.Heron(a, b, c)
    }

    /** The Euclidean distance between the points' current positions. */
    ghost function Distance(p1: Point3D, p2: Point3D): (r: real)
      reads p1, p2
      ensures 0.0 <= r
    {
      Sqrt(Square(p1.x - p2.x) + Square(p1.y - p2.y) + Square(p1.z - p2.z))
    }

    /** The areas of the four faces (v0,v1,v2), (v0,v1,v3), (v0,v2,v3), (v1,v2,v3). */
    ghost function SurfaceArea(): (r: real)
      reads vertices
      requires Valid()
      ensures 0.0 <= r
    {
      var area1 := Area(vertices[0], vertices[1], vertices[2]);
      var area2 := Area(vertices[0], vertices[1], vertices[3]);
      var area3 := Area(vertices[0], vertices[2], vertices[3]);
      var area4 := Area(vertices[1], vertices[2], vertices[3]);
      area1 + area2 + area3 + area4
    }

    /** `Equals(object)`: false for null and for other types, else `==`. */
    function Equals(obj: object?): (r: bool)
      ensures r <==> obj is Tetrahedron && Elements(vertices) == Elements((obj as Tetrahedron).vertices)
    {
      if obj == null || !(obj is Tetrahedron) then false else Equal(this, obj as Tetrahedron)
    }

    /**
     * The XOR of the four vertices' hash codes. A class without a
     * `GetHashCode` override hashes by identity, so `h` depends on the
     * reference alone and not on the coordinates.
     */
    function GetHashCode(h: Point3D -> bv32): (r: bv32)
      requires Valid()
      ensures r == XorAll(h, vertices)
    {
      var v := vertices;
      XorAllOfFour(h, v);
      h(v[0]) ^ h(v[1]) ^ h(v[2]) ^ h(v[3])
    }
  }

  /** `==` is an equivalence relation on tetrahedra, null included. */
  lemma EqualIsEquivalence(t1: Tetrahedron?, t2: Tetrahedron?, t3: Tetrahedron?)
    ensures Tetrahedron.Equal(t1, t1)
    ensures Tetrahedron.Equal(t1, t2) == Tetrahedron.Equal(t2, t1)
    ensures Tetrahedron.Equal(t1, t2) && Tetrahedron.Equal(t2, t3) ==> Tetrahedron.Equal(t1, t3)
  {
  }

  /** Building from a rearrangement of the same four point objects gives an equal tetrahedron. */
  lemma EqualIgnoresOrder(t1: Tetrahedron, t2: Tetrahedron)
    requires multiset(t1.vertices) == multiset(t2.vertices)
    ensures Tetrahedron.Equal(t1, t2) && t1.Equals(t2)
  {
    PermutationKeepsSameVertices(t1.vertices, t2.vertices);
  }

  /** The hash code does not depend on the order of the vertices. */
  lemma HashIgnoresOrder(t1: Tetrahedron, t2: Tetrahedron, h: Point3D -> bv32)
    requires t1.Valid() && t2.Valid()
    requires multiset(t1.vertices) == multiset(t2.vertices)
    ensures t1.GetHashCode(h) == t2.GetHashCode(h)
  {
    XorAllPermutation(h, t1.vertices, t2.vertices);
  }

  /**
   * The geometry agrees with the struct-point tetrahedron holding a snapshot
   * of the current coordinates.
   */
  lemma MatchesSnapshot(t: Tetrahedron, u: Tetrahedra.Tetrahedron)
    requires t.Valid()
    requires u.vertices == Positions(t.vertices)
    ensures t.SurfaceArea() == u.SurfaceArea()
    ensures forall i, j | 0 <= i < 4 && 0 <= j < 4 ::
      t.Distance(t.vertices[i], t.vertices[j]) == u.Distance(u.vertices[i], u.vertices[j])
  {
  }

  /** Distance is symmetric and zero from a point to itself. */
  lemma DistanceLaws(t: Tetrahedron, p: Point3D, q: Point3D)
    ensures t.Distance(p, q) == t.Distance(q, p)
    ensures t.Distance(p, p) == 0.0
  {
    assert Square(p.x - q.x) == Square(q.x - p.x);
    assert Square(p.y - q.y) == Square(q.y - p.y);
    assert Square(p.z - q.z) == Square(q.z - p.z);
    SqrtOfZero();
  }

  /** A point object held by one tetrahedron and not by the other makes them unequal. */
  lemma UnsharedPointBreaksEqual(t: Tetrahedron, u: Tetrahedron, p: Point3D)
    requires p in t.vertices && p !in u.vertices
    ensures !Tetrahedron.Equal(t, u) && !u.Equals(t)
  {
    assert p in Elements(t.vertices);
  }

  /**
   * Two tetrahedra over different point objects at the same coordinates are
   * not equal: the points compare by reference.
   */
  method DistinctPointsExample() returns (t: Tetrahedron, u: Tetrahedron)
    ensures t.Valid() && u.Valid()
    ensures forall i | 0 <= i < 4 :: t.vertices[i].Position() == u.vertices[i].Position()
    ensures !Tetrahedron.Equal(t, u)
  {
    var p1 := new Point3D(0.0, 0.0, 0.0);
    var p2 := new Point3D(1.0, 0.0, 0.0);
    var p3 := new Point3D(0.0, 1.0, 0.0);
    var p4 := new Point3D(0.0, 0.0, 1.0);
    var q1 := new Point3D(0.0, 0.0, 0.0);
    var q2 := new Point3D(1.0, 0.0, 0.0);
    var q3 := new Point3D(0.0, 1.0, 0.0);
    var q4 := new Point3D(0.0, 0.0, 1.0);
    t := new Tetrahedron(p1, p2, p3, p4);
    u := new Tetrahedron(q1, q2, q3, q4);
    UnsharedPointBreaksEqual(t, u, p1);
  }

  /**
   * The tetrahedron keeps the caller's point objects: moving one of them
   * after construction moves the centroid computed afterwards.
   */
  method MovedPointExample() returns (before: Point3D, after: Point3D)
    ensures before.Position() == Points.Point3D(0.25, 0.25, 0.25)
    ensures after.Position() == Points.Point3D(1.25, 0.25, 0.25)
  {
    var p1 := new Point3D(0.0, 0.0, 0.0);
    var p2 := new Point3D(1.0, 0.0, 0.0);
    var p3 := new Point3D(0.0, 1.0, 0.0);
    var p4 := new Point3D(0.0, 0.0, 1.0);
    var t := new Tetrahedron(p1, p2, p3, p4);
    before := t.Centroid();
    p1.x := 4.0;
    after := t.Centroid();
  }
}
