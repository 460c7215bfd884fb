/** The parts of System.Math that the solids use, over the reals. */
module SysMath {

  /**
   * Math.PI: the shortest decimal that rounds to the double nearest to pi.
   * The double's own binary value differs from it beyond the 16th digit.
   */
  const Pi: real := 3.141592653589793

  /** Math.Abs on a double. */
  function Abs(x: real): (r: real)
    ensures 0.0 <= r
    ensures r == x || r == -x
  {
    if x < 0.0 then -x else x
  }

  /** Math.Pow(x, 2). */
  function Square(x: real): (r: real)
    ensures 0.0 <= r
    ensures r == Abs(x) * Abs(x)
  {
    x * x
  }

  /** `r` is a non-negative square root of `x`. */
  predicate IsSquareRootOf(r: real, x: real)
  {
    0.0 <= r && r * r == x
  }

  ghost predicate HasSquareRoot(x: real)
  {
    exists r :: IsSquareRootOf(r, x)
  }

  /** Math.Sqrt: the non-negative square root, whenever one exists. */
  ghost function Sqrt(x: real): (r: real)
    ensures 0.0 <= r
    ensures HasSquareRoot(x) ==> r * r == x
  {
    if HasSquareRoot(x) then var r :| IsSquareRootOf(r, x); r else 0.0
  }

  /** The square root of a square is the original non-negative number. */
  lemma SqrtOfSquare(r: real)
    requires 0.0 <= r
    ensures Sqrt(r * r) == r
  {
    assert IsSquareRootOf(r, r * r);
    assert HasSquareRoot(r * r);
    var s := Sqrt(r * r);
    assert s * s == r * r;
    assert (s - r) * (s + r) == 0.0;
    if s + r == 0.0 {
      assert s == 0.0 && r == 0.0;
    } else {
      assert s - r == (s - r) * (s + r) / (s + r);
    }
  }

  lemma SqrtOfZero()
    ensures Sqrt(0.0) == 0.0
  {
    SqrtOfSquare(0.0);
  }
}
