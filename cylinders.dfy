/**
 * The `Cylinder` class of the geometry library: a radius and the centres of
 * its two bases, all publicly settable, compared field by field in a fixed
 * role order, hashed by XOR of the three field hashes, and measured by the
 * usual height, base area, volume and surface area formulas.
 */
module Cylinders {
  import opened SysMath
  import opened Points

  class Cylinder {
    var radius: real
    var base1: Point3D
    var base2: Point3D

    constructor (radius: real, base1: Point3D, base2: Point3D)
      ensures this.radius == radius && this.base1 == base1 && this.base2 == base2
    {
      this.radius := radius;
      this.base1 := base1;
      this.base2 := base2;
    }

    /** `operator ==`: null only equals null; otherwise radius, first base and second base, each to its own. */
    static function Equal(a: Cylinder?, b: Cylinder?): (r: bool)
      reads a, b
      ensures a == null ==> (r <==> b == null)
      ensures a != null && b == null ==> !r
      ensures a != null && b != null ==> (r <==> a.radius == b.radius && a.base1 == b.base1 && a.base2 == b.base2)
    {
      if a == null then b == null
      else if b == null then false
      else a.radius == b.radius && a.base1 == b.base1 && a.base2 == b.base2
    }

    /** `operator !=`. */
    static function NotEqual(a: Cylinder?, b: Cylinder?): (r: bool)
      reads a, b
      ensures r <==> ((a == null) != (b == null)
                      || (a != null && b != null
                          && (a.radius != b.radius || a.base1 != b.base1 || a.base2 != b.base2)))
    {
      !Equal(a, b)
    }

    /** The distance between the centres of the two bases. */
    ghost function Height(): (r: real)
      reads this
      ensures 0.0 <= r
      ensures base1 == base2 ==> r == 0.0
    {
      var h := Sqrt(Square(base2.x - base1.x) + (Square(base2.y - base1.y) + Square(base2.z - base1.z)));
      if base1 == base2 then
        SqrtOfZero();
        h
      else
        h
    }

    /** pi r^2. */
    function BottomArea(): (r: real)
      reads this
      ensures 0.0 <= r
      ensures radius == 0.0 ==> r == 0.0
    {
      Pi * Square(radius)
    }

    ghost function Volume(): (r: real)
      reads this
      ensures 0.0 <= r
      ensures radius == 0.0 || base1 == base2 ==> r == 0.0
    {
      BottomArea() * Height()
    }

    /** 2 pi r (r + h): the two base disks plus the lateral surface. */
    ghost function SurfaceArea(): (r: real)
      reads this
      ensures r == 2.0 * BottomArea() + 2.0 * Pi * radius * Height()
      ensures 0.0 <= radius ==> 0.0 <= r
    {
      2.0 * Pi * radius * (radius + Height())
    }

    /** `Equals(object)`: false for null and for other types, else `==`. */
    function Equals(obj: object?): (r: bool)
      reads this, obj
      ensures r <==> obj is Cylinder && Equal(this, obj as Cylinder)
    {
      if obj == null || !(obj is Cylinder) then false else Equal(this, obj as Cylinder)
    }

    /**
     * The XOR of the runtime's hash of the radius (`hr`) and of each base
     * (`hp`). XOR forgets which base is which, and two coincident bases
     * cancel, leaving only the radius hash.
     */
    function GetHashCode(hr: real -> bv32, hp: Point3D -> bv32): (r: bv32)
      reads this
      ensures r == hr(radius) ^ hp(base2) ^ hp(base1)
      ensures base1 == base2 ==> r == hr(radius)
    {
      hr(radius) ^ hp(base1) ^ hp(base2)
    }
  }

  /** `==` is an equivalence relation on cylinders, null included. */
  lemma EqualIsEquivalence(a: Cylinder?, b: Cylinder?, c: Cylinder?)
    ensures Cylinder.Equal(a, a)
    ensures Cylinder.Equal(a, b) == Cylinder.Equal(b, a)
    ensures Cylinder.Equal(a, b) && Cylinder.Equal(b, c) ==> Cylinder.Equal(a, c)
  {
  }

  /** Equal cylinders have equal hash codes and equal measurements. */
  lemma EqualCylindersAgree(a: Cylinder, b: Cylinder, hr: real -> bv32, hp: Point3D -> bv32)
    requires Cylinder.Equal(a, b)
    ensures a.GetHashCode(hr, hp) == b.GetHashCode(hr, hp)
    ensures a.Height() == b.Height() && a.BottomArea() == b.BottomArea()
    ensures a.Volume() == b.Volume() && a.SurfaceArea() == b.SurfaceArea()
  {
  }

  /** The height does not depend on which base is called the first. */
  lemma {:induction false} HeightSymmetric(a: Cylinder, b: Cylinder)
    requires a.base1 == b.base2 && a.base2 == b.base1
    ensures a.Height() == b.Height()
  {
    var p, q := a.base1, a.base2;
    assert Square(q.x - p.x) == Square(p.x - q.x);
    assert Square(q.y - p.y) == Square(p.y - q.y);
    assert Square(q.z - p.z) == Square(p.z - q.z);
  }

  /**
   * Swapping the two bases describes the same solid with the same hash code
   * and the same measurements, yet `==` tells the two apart.
   */
  lemma SwappedBases(a: Cylinder, b: Cylinder, hr: real -> bv32, hp: Point3D -> bv32)
    requires a.radius == b.radius && a.base1 == b.base2 && a.base2 == b.base1
    requires a.base1 != a.base2
    ensures !Cylinder.Equal(a, b) && !a.Equals(b)
    ensures a.GetHashCode(hr, hp) == b.GetHashCode(hr, hp)
    ensures a.Volume() == b.Volume() && a.SurfaceArea() == b.SurfaceArea()
  {
    HeightSymmetric(a, b);
    var r, p, q := hr(a.radius), hp(a.base1), hp(a.base2);
    assert r ^ p ^ q == r ^ q ^ p;
  }

  /** A cylinder of radius 2 standing 5 high on the origin. */
  method CylinderExample() returns (c: Cylinder, bottomArea: real)
    ensures c.radius == 2.0 && c.base1 == Origin && c.base2 == Point3D(0.0, 0.0, 5.0)
    ensures bottomArea == 4.0 * Pi
    ensures c.Height() == 5.0
    ensures c.Volume() == 20.0 * Pi
    ensures c.SurfaceArea() == 28.0 * Pi
  {
    c := new Cylinder(2.0, Point3D(0.0, 0.0, 0.0), Point3D(0.0, 0.0, 5.0));
    bottomArea := c.BottomArea();
    assert Square(5.0 - 0.0) == 5.0 * 5.0;
    SqrtOfSquare(5.0);
    assert c.Height() == 5.0;
  }

  /**
   * `Base2`'s setter: the bases are settable properties, and moving one after
   * construction changes the height the cylinder reports.
   */
  method SetBase2(c: Cylinder, p: Point3D)
    modifies c
    ensures c.radius == old(c.radius) && c.base1 == old(c.base1) && c.base2 == p
    ensures p == c.base1 ==> c.Height() == 0.0 && c.Volume() == 0.0
  {
    c.base2 := p;
  }
}
