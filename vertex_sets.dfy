/**
 * Vertex arrays compared as sets, the way the solids' `==` operators do it
 * with `All`/`Any`, and the XOR combination of per-vertex hash codes that
 * their `GetHashCode` overrides compute. Generic in the vertex type: a
 * struct point compares by value, a class point by reference, and both are
 * Dafny's `==` on the element type.
 */
module VertexSets {

  /** The vertices of `s`, ignoring order and repetition. */
  function Elements<T>(s: seq<T>): set<T>
  {
    set x | x in s
  }

  /** `a.All(v1 => b.Any(v2 => v1.Equals(v2)))`. */
  function ContainsAll<T(==)>(a: seq<T>, b: seq<T>): (r: bool)
    ensures r <==> Elements(a) <= Elements(b)
  {
    var r := forall i | 0 <= i < |a| :: exists j | 0 <= j < |b| :: a[i] == b[j];
    if r then
      assert forall x | x in Elements(a) :: x in Elements(b) by {
        forall x | x in Elements(a) ensures x in Elements(b) {
          var i :| 0 <= i < |a| && a[i] == x;
          var j :| 0 <= j < |b| && a[i] == b[j];
        }
      }
      r
    else
      var i :| 0 <= i < |a| && forall j | 0 <= j < |b| :: a[i] != b[j];
      assert a[i] !in Elements(b);
      r
  }

  /** Mutual containment: every vertex of each is some vertex of the other. */
  function SameVertices<T(==)>(a: seq<T>, b: seq<T>): (r: bool)
    ensures r <==> Elements(a) == Elements(b)
  {
    ContainsAll(a, b) && ContainsAll(b, a)
  }

  /** Rearranging the vertices never breaks mutual containment. */
  lemma PermutationKeepsSameVertices<T>(a: seq<T>, b: seq<T>)
    requires multiset(a) == multiset(b)
    ensures SameVertices(a, b)
  {
    forall x | x in a ensures x in b {
      assert x in multiset(a);
    }
    forall x | x in b ensures x in a {
      assert x in multiset(b);
    }
  }

  /** `h(s[0]) ^ h(s[1]) ^ ... ^ h(s[|s| - 1])`, starting from 0. */
  function XorAll<T>(h: T -> bv32, s: seq<T>): bv32
  {
    if s == [] then 0 else XorAll(h, s[..|s| - 1]) ^ h(s[|s| - 1])
  }

  lemma XorAllSnoc<T>(h: T -> bv32, s: seq<T>, x: T)
    ensures XorAll(h, s + [x]) == XorAll(h, s) ^ h(x)
  {
    assert (s + [x])[..|s|] == s;
  }

  lemma {:induction false} XorAllAppend<T>(h: T -> bv32, s: seq<T>, t: seq<T>)
    ensures XorAll(h, s + t) == XorAll(h, s) ^ XorAll(h, t)
  {
    if t == [] {
      assert s + t == s;
    } else {
      var n := |t| - 1;
      assert (s + t)[..|s + t| - 1] == s + t[..n];
      XorAllAppend(h, s, t[..n]);
    }
  }

  /** The fold over four vertices, written out. */
  lemma {:induction false} XorAllOfFour<T>(h: T -> bv32, v: seq<T>)
    requires |v| == 4
    ensures XorAll(h, v) == h(v[0]) ^ h(v[1]) ^ h(v[2]) ^ h(v[3])
  {
    var a, b, c, d := v[0], v[1], v[2], v[3];
    assert [a] == [] + [a] && [a, b] == [a] + [b];
    assert [a, b, c] == [a, b] + [c] && v == [a, b, c] + [d];
    XorAllSnoc(h, [], a);
    XorAllSnoc(h, [a], b);
    XorAllSnoc(h, [a, b], c);
    XorAllSnoc(h, [a, b, c], d);
  }

  /** Taking one vertex out of the fold removes exactly its hash. */
  lemma {:induction false} XorAllRemove<T>(h: T -> bv32, s: seq<T>, j: nat)
    requires j < |s|
    ensures XorAll(h, s) == XorAll(h, s[..j] + s[j + 1..]) ^ h(s[j])
  {
    var p, x, q := s[..j], s[j], s[j + 1..];
    assert s == p + ([x] + q);
    XorAllAppend(h, p, [x] + q);
    XorAllAppend(h, [x], q);
    XorAllSingleton(h, x);
    XorAllAppend(h, p, q);
    XorRotate(XorAll(h, p), h(x), XorAll(h, q));
  }

  lemma XorAllSingleton<T>(h: T -> bv32, x: T)
    ensures XorAll(h, [x]) == h(x)
  {
    assert [x][..0] == [];
  }

  lemma XorRotate(a: bv32, b: bv32, c: bv32)
    ensures a ^ (b ^ c) == (a ^ c) ^ b
  {
  }

  /** The XOR hash does not depend on the order of the vertices. */
  lemma {:induction false} XorAllPermutation<T>(h: T -> bv32, a: seq<T>, b: seq<T>)
    requires multiset(a) == multiset(b)
    ensures XorAll(h, a) == XorAll(h, b)
  {
    if a != [] {
      var n := |a| - 1;
      MultisetRemove(a, n);
      assert a[n] in multiset(b);
      var j :| 0 <= j < |b| && b[j] == a[n];
      MultisetRemove(b, j);
      assert a[..n] + a[n + 1..] == a[..n];
      XorAllPermutation(h, a[..n], b[..j] + b[j + 1..]);
      XorAllRemove(h, b, j);
    } else {
      assert |b| == |multiset(b)| == 0;
    }
  }

  lemma MultisetRemove<T>(s: seq<T>, j: nat)
    requires j < |s|
    ensures s[j] in multiset(s)
    ensures multiset(s[..j] + s[j + 1..]) == multiset(s) - multiset{s[j]}
  {
    assert s == s[..j] + [s[j]] + s[j + 1..];
  }

  /**
   * Why the XOR hash cannot follow mutual containment: `[x, x, y] + rest`
   * and `[x, y, y] + rest` have the same vertices, but XOR cancels the pair
   * of `x` in one and the pair of `y` in the other.
   */
  lemma RepeatedVertexBreaksXorHash<T>(h: T -> bv32, x: T, y: T, rest: seq<T>)
    requires h(x) != h(y)
    ensures SameVertices([x, x, y] + rest, [x, y, y] + rest)
    ensures XorAll(h, [x, x, y] + rest) != XorAll(h, [x, y, y] + rest)
  {
    assert Elements([x, x, y] + rest) == {x, y} + Elements(rest) == Elements([x, y, y] + rest);
    XorAllOfPair(h, x, y);
    XorAllOfPair(h, y, x);
    XorAllAppend(h, [x, x, y], rest);
    XorAllAppend(h, [x, y, y], rest);
    XorDiffers(h(y), h(x), XorAll(h, rest));
  }

  /** A vertex listed twice cancels out of the XOR. */
  lemma XorAllOfPair<T>(h: T -> bv32, x: T, y: T)
    ensures XorAll(h, [x, x, y]) == h(y) && XorAll(h, [y, x, x]) == h(y)
  {
    XorAllOfThree(h, x, x, y);
    XorAllOfThree(h, y, x, x);
    XorSelfCancels(h(x), h(y));
  }

  lemma {:induction false} XorAllOfThree<T>(h: T -> bv32, a: T, b: T, c: T)
    ensures XorAll(h, [a, b, c]) == 0 ^ h(a) ^ h(b) ^ h(c)
  {
    var e: seq<T> := [];
    var s1, s2, s3 := e + [a], e + [a] + [b], e + [a] + [b] + [c];
    XorAllSnoc(h, e, a);
    XorAllSnoc(h, s1, b);
    XorAllSnoc(h, s2, c);
    assert XorAll(h, e) == 0;
    assert s3 == [a, b, c];
  }

  lemma XorSelfCancels(a: bv32, b: bv32)
    ensures 0 ^ a ^ a ^ b == b && 0 ^ b ^ a ^ a == b
  {
  }

  lemma XorDiffers(a: bv32, b: bv32, c: bv32)
    requires a != b
    ensures a ^ c != b ^ c
  {
  }

  /** No vertex occurs twice. */
  predicate Distinct<T(==)>(s: seq<T>)
  {
    forall i, j | 0 <= i < j < |s| :: s[i] != s[j]
  }

  lemma {:induction false} DistinctCountsOnce<T>(s: seq<T>, x: T)
    requires Distinct(s)
    ensures multiset(s)[x] == if x in s then 1 else 0
  {
    if s != [] {
      var n := |s| - 1;
      assert s == s[..n] + [s[n]];
      DistinctCountsOnce(s[..n], x);
    }
  }

  /** Without repetitions, having the same vertices means being a permutation. */
  lemma {:induction false} DistinctSameVerticesArePermutations<T>(a: seq<T>, b: seq<T>)
    requires Distinct(a) && Distinct(b)
    requires SameVertices(a, b)
    ensures multiset(a) == multiset(b)
  {
    forall x ensures multiset(a)[x] == multiset(b)[x] {
      DistinctCountsOnce(a, x);
      DistinctCountsOnce(b, x);
    }
  }

  /** The vertices of `s` in order of first occurrence, each once. */
  function Dedup<T(==)>(s: seq<T>): (r: seq<T>)
    ensures Distinct(r)
    ensures Elements(r) == Elements(s)
  {
    if s == [] then []
    else
      var d, x := Dedup(s[..|s| - 1]), s[|s| - 1];
      ElementsOfSnoc(s[..|s| - 1], x);
      ElementsOfSnoc(d, x);
      assert s == s[..|s| - 1] + [x];
      if x in d then d else d + [x]
  }

  lemma ElementsOfSnoc<T>(s: seq<T>, x: T)
    ensures Elements(s + [x]) == Elements(s) + {x}
  {
  }

  /** A hash that counts each distinct vertex once. */
  function SetXorHash<T(==)>(h: T -> bv32, s: seq<T>): bv32
  {
    XorAll(h, Dedup(s))
  }

  /** Unlike XorAll, SetXorHash agrees with mutual containment. */
  lemma SetXorHashRespectsSameVertices<T>(h: T -> bv32, a: seq<T>, b: seq<T>)
    requires SameVertices(a, b)
    ensures SetXorHash(h, a) == SetXorHash(h, b)
  {
    DistinctSameVerticesArePermutations(Dedup(a), Dedup(b));
    XorAllPermutation(h, Dedup(a), Dedup(b));
  }

  /** On vertices without repetition the XOR hash agrees with mutual containment. */
  lemma XorAllRespectsSameDistinctVertices<T>(h: T -> bv32, a: seq<T>, b: seq<T>)
    requires Distinct(a) && Distinct(b)
    requires SameVertices(a, b)
    ensures XorAll(h, a) == XorAll(h, b)
  {
    DistinctSameVerticesArePermutations(a, b);
    XorAllPermutation(h, a, b);
  }
}
