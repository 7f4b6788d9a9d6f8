/** Scalar helpers shared by the matcher model, and the abstract math library
    (Python's math.exp, numpy.tanh and the square root inside numpy.linalg.norm). */
module Numerics {

  /** The transcendental functions the matcher borrows from its libraries. The
      model never computes them: every member that needs them takes a MathLib and
      relies only on the laws stated by Lawful. */
  datatype MathLib = MathLib(exp: real -> real, tanh: real -> real, sqrt: real -> real)

  /** The laws of exp, tanh and sqrt that the matcher's scores depend on. */
  ghost predicate Lawful(m: MathLib) {
    && m.exp(0.0) == 1.0
    && (forall x :: x < 0.0 ==> 0.0 < m.exp(x) < 1.0)
    && (forall x :: 0.0 <= x ==> 0.0 <= m.tanh(x) < 1.0)
    && (forall x :: 0.0 <= x ==> 0.0 <= m.sqrt(x))
  }

  /** exp of a non-positive argument lies in (0, 1], and is 1 exactly at 0. */
  lemma ExpOfNonPositive(m: MathLib, x: real)
    requires Lawful(m) && x <= 0.0
    ensures 0.0 < m.exp(x) <= 1.0
    ensures m.exp(x) == 1.0 <==> x == 0.0
  {
  }

  /** The 1e-9 the source adds to denominators that may be zero. */
  const Epsilon: real := 0.000000001

  function Abs(x: real): real {
    if x < 0.0 then -x else x
  }

  lemma AbsDiffSymmetric(x: real, y: real)
    ensures Abs(x - y) == Abs(y - x)
  {
  }

  function Min(x: real, y: real): real {
    if y < x then y else x
  }

  function Max(x: real, y: real): real {
    if y > x then y else x
  }

  function MinInt(x: int, y: int): int {
    if y < x then y else x
  }

  function MaxInt(x: int, y: int): int {
    if y > x then y else x
  }

  /** max(0.0, min(1.0, x)) */
  function Clamp01(x: real): (r: real)
    ensures 0.0 <= r <= 1.0
    ensures 0.0 <= x <= 1.0 ==> r == x
  {
    Max(0.0, Min(1.0, x))
  }

  /** Python's int() on a float: truncation toward zero. */
  function Trunc(x: real): (r: int)
    ensures 0.0 <= x ==> r as real <= x < r as real + 1.0
    ensures x < 0.0 ==> r as real - 1.0 < x <= r as real
  {
    if 0.0 <= x then x.Floor else -((-x).Floor)
  }

  /** sum() of a list of floats, added left to right. */
  function Sum(s: seq<real>): real {
    if s == [] then 0.0 else Sum(s[..|s| - 1]) + s[|s| - 1]
  }

  lemma {:induction false} SumAppend(s: seq<real>, t: seq<real>)
    ensures Sum(s + t) == Sum(s) + Sum(t)
    decreases |t|
  {
    if t == [] {
      assert s + t == s;
    } else {
      assert (s + t)[..|s + t| - 1] == s + t[..|t| - 1];
      SumAppend(s, t[..|t| - 1]);
    }
  }

  /** A sum of n terms each within [lo, hi] lies within [n * lo, n * hi]. */
  lemma {:induction false} SumBounds(s: seq<real>, lo: real, hi: real)
    requires forall k :: 0 <= k < |s| ==> lo <= s[k] <= hi
    ensures |s| as real * lo <= Sum(s) <= |s| as real * hi
  {
    if s != [] {
      var init := s[..|s| - 1];
      SumBounds(init, lo, hi);
      assert |s| as real * lo == |init| as real * lo + lo;
      assert |s| as real * hi == |init| as real * hi + hi;
    }
  }

  lemma {:induction false} SumNonNegative(s: seq<real>)
    requires forall k :: 0 <= k < |s| ==> 0.0 <= s[k]
    ensures 0.0 <= Sum(s)
  {
    if s != [] {
      SumNonNegative(s[..|s| - 1]);
    }
  }

  /** The arithmetic mean of values within [lo, hi] lies within [lo, hi]. */
  lemma MeanBounds(s: seq<real>, lo: real, hi: real)
    requires s != []
    requires forall k :: 0 <= k < |s| ==> lo <= s[k] <= hi
    ensures lo <= Sum(s) / |s| as real <= hi
  {
    SumBounds(s, lo, hi);
    DivBounds(Sum(s), |s| as real, lo, hi);
  }

  lemma DivBounds(x: real, n: real, lo: real, hi: real)
    requires 0.0 < n && n * lo <= x <= n * hi
    ensures lo <= x / n <= hi
  {
    assert x / n * n == x;
  }
}
