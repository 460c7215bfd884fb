/**
 * The `Point3D` struct shared by the tetrahedron, cuboid and cylinder of the
 * geometry library: three coordinates compared component by component, plus
 * the vector sum and mean that the centroids compute.
 */
module Points {

  /** A struct value: copies compare equal when their coordinates do. */
  datatype Point3D = Point3D(x: real, y: real, z: real)

  const Origin := Point3D(0.0, 0.0, 0.0)

  function Add(p: Point3D, q: Point3D): Point3D
  {
    Point3D(p.x + q.x, p.y + q.y, p.z + q.z)
  }

  /** The component-wise sum of `s`, accumulated from the first vertex on. */
  function Sum(s: seq<Point3D>): Point3D
  {
    if s == [] then Origin else Add(Sum(s[..|s| - 1]), s[|s| - 1])
  }

  /** The component-wise mean of a non-empty sequence of points. */
  function Mean(s: seq<Point3D>): Point3D
    requires s != []
  {
    var n := |s| as real;
    Point3D(Sum(s).x / n, Sum(s).y / n, Sum(s).z / n)
  }

  lemma SumSnoc(s: seq<Point3D>, p: Point3D)
    ensures Sum(s + [p]) == Add(Sum(s), p)
  {
    assert (s + [p])[..|s|] == s;
  }

  lemma {:induction false} SumAppend(s: seq<Point3D>, t: seq<Point3D>)
    ensures Sum(s + t) == Add(Sum(s), Sum(t))
  {
    if t == [] {
      assert s + t == s;
    } else {
      var n := |t| - 1;
      assert (s + t)[..|s + t| - 1] == s + t[..n];
      SumAppend(s, t[..n]);
    }
  }

  /** Taking one point out of the sum subtracts exactly that point. */
  lemma {:induction false} SumRemove(s: seq<Point3D>, j: nat)
    requires j < |s|
    ensures Sum(s) == Add(Sum(s[..j] + s[j + 1..]), s[j])
  {
    var p, x, q := s[..j], s[j], s[j + 1..];
    assert s == p + ([x] + q);
    SumAppend(p, [x] + q);
    SumAppend([x], q);
    assert [x][..0] == [];
    SumAppend(p, q);
  }

  /** The sum of the vertices does not depend on their order. */
  lemma {:induction false} SumPermutation(a: seq<Point3D>, b: seq<Point3D>)
    requires multiset(a) == multiset(b)
    ensures Sum(a) == Sum(b)
  {
    if a != [] {
      var n := |a| - 1;
      assert a == a[..n] + [a[n]];
      assert a[n] in multiset(b) by {
        assert a[n] in multiset(a);
      }
      var j :| 0 <= j < |b| && b[j] == a[n];
      assert b == b[..j] + [b[j]] + b[j + 1..];
      assert multiset(a[..n]) == multiset(b[..j] + b[j + 1..]) by {
        assert multiset(a[..n]) == multiset(a) - multiset{a[n]};
        assert multiset(b[..j] + b[j + 1..]) == multiset(b) - multiset{b[j]};
      }
      SumPermutation(a[..n], b[..j] + b[j + 1..]);
      SumRemove(b, j);
    } else {
      assert |b| == |multiset(b)| == 0;
    }
  }

  /** So neither does the mean. */
  lemma MeanPermutation(a: seq<Point3D>, b: seq<Point3D>)
    requires a != [] && multiset(a) == multiset(b)
    ensures b != [] && Mean(a) == Mean(b)
  {
    assert |a| == |multiset(a)| == |multiset(b)| == |b|;
    SumPermutation(a, b);
  }
}
