/** Elastic alignment: the pure-Python dynamic-time-warping fallback of
    dtw_distance, which fills an (n+1) x (m+1) table of accumulated costs. */
module Alignment {
  import opened Numerics

  /** A table entry: a finite accumulated cost, or numpy's +inf. */
  datatype Ext = Fin(v: real) | Inf

  /** Python's min on two table entries (inf is the largest value). */
  function MinExt(x: Ext, y: Ext): Ext {
    if x.Inf? then y
    else if y.Inf? then x
    else Fin(Min(x.v, y.v))
  }

  /** cost + entry, where inf absorbs any finite cost. */
  function AddCost(cost: real, x: Ext): Ext {
    if x.Inf? then Inf else Fin(cost + x.v)
  }

  /** One inner cell: cost + min(D[i-1, j], D[i, j-1], D[i-1, j-1]). */
  function Step(cost: real, up: Ext, left: Ext, diag: Ext): Ext {
    AddCost(cost, MinExt(MinExt(up, left), diag))
  }

  /** The recurrence of the table: D[0, 0] = 0, the rest of row 0 and column 0
      stays +inf, and every inner cell adds |a[i-1] - b[j-1]| to the cheapest of
      its upper, left and upper-left neighbours. */
  function Cell(a: seq<real>, b: seq<real>, i: nat, j: nat): (r: Ext)
    requires i <= |a| && j <= |b|
    decreases i + j
  {
    if i == 0 && j == 0 then Fin(0.0)
    else if i == 0 || j == 0 then Inf
    else
      Step(Abs(a[i - 1] - b[j - 1]), Cell(a, b, i - 1, j), Cell(a, b, i, j - 1), Cell(a, b, i - 1, j - 1))
  }

  /** dtw_distance(a, b): +inf when either sequence is empty, D[n, m] otherwise. */
  function Dtw(a: seq<real>, b: seq<real>): (r: Ext)
    ensures r.Inf? <==> a == [] || b == []
    ensures r.Fin? ==> 0.0 <= r.v
  {
    if |a| == 0 || |b| == 0 then Inf
    else
      CellShape(a, b, |a|, |b|);
      Cell(a, b, |a|, |b|)
  }

  /** Only the cells of row 0 and column 0 other than the origin are +inf, and
      every finite cell is a sum of absolute differences, so never negative. */
  lemma {:induction false} CellShape(a: seq<real>, b: seq<real>, i: nat, j: nat)
    requires i <= |a| && j <= |b|
    ensures Cell(a, b, i, j).Inf? <==> (i == 0) != (j == 0)
    ensures Cell(a, b, i, j).Fin? ==> 0.0 <= Cell(a, b, i, j).v
    decreases i + j
  {
    if i > 0 && j > 0 {
      CellShape(a, b, i - 1, j);
      CellShape(a, b, i, j - 1);
      CellShape(a, b, i - 1, j - 1);
    }
  }

  /** The fallback table filled row by row, exactly as dtw_distance does. */
  method DtwDistance(a: seq<real>, b: seq<real>) returns (d: Ext)
    ensures d == Dtw(a, b)
  {
    if |a| == 0 || |b| == 0 {
      return Inf;
    }
    var n, m := |a|, |b|;
    var D := new Ext[n + 1, m + 1]((_, _) => Inf);
    D[0, 0] := Fin(0.0);
    for i := 1 to n + 1
      invariant forall p, q {:trigger D[p, q]} :: 0 <= p < i && 0 <= q <= m ==> D[p, q] == Cell(a, b, p, q)
      invariant forall p, q :: i <= p <= n && 0 <= q <= m ==> D[p, q] == Inf
    {
      for j := 1 to m + 1
        invariant forall p, q {:trigger D[p, q]} :: 0 <= p < i && 0 <= q <= m ==> D[p, q] == Cell(a, b, p, q)
        invariant forall q {:trigger D[i, q]} :: 0 <= q < j ==> D[i, q] == Cell(a, b, i, q)
        invariant forall q :: j <= q <= m ==> D[i, q] == Inf
        invariant forall p, q :: i < p <= n && 0 <= q <= m ==> D[p, q] == Inf
      {
        var cost := Abs(a[i - 1] - b[j - 1]);
        var up, left, diag := D[i - 1, j], D[i, j - 1], D[i - 1, j - 1];
        assert up == Cell(a, b, i - 1, j) && left == Cell(a, b, i, j - 1) && diag == Cell(a, b, i - 1, j - 1);
        var next := Step(cost, up, left, diag);
        assert next == Cell(a, b, i, j);
        D[i, j] := next;
      }
    }
    d := D[n, m];
  }

  /** Aligning a non-empty sequence with itself costs nothing. */
  lemma DtwSelf(a: seq<real>)
    requires a != []
    ensures Dtw(a, a) == Fin(0.0)
  {
    DiagonalOfSelf(a, |a|);
  }

  lemma {:induction false} DiagonalOfSelf(a: seq<real>, i: nat)
    requires i <= |a|
    ensures Cell(a, a, i, i) == Fin(0.0)
  {
    if i > 0 {
      var i' := i - 1;
      DiagonalOfSelf(a, i');
      CellShape(a, a, i', i);
      CellShape(a, a, i, i');
    }
  }

  /** The distance does not depend on which sequence comes first. */
  lemma DtwSymmetric(a: seq<real>, b: seq<real>)
    ensures Dtw(a, b) == Dtw(b, a)
  {
    if a != [] && b != [] {
      CellSymmetric(a, b, |a|, |b|);
    }
  }

  lemma {:induction false} CellSymmetric(a: seq<real>, b: seq<real>, i: nat, j: nat)
    requires i <= |a| && j <= |b|
    ensures Cell(a, b, i, j) == Cell(b, a, j, i)
    decreases i + j
  {
    if i > 0 && j > 0 {
      CellSymmetric(a, b, i - 1, j);
      CellSymmetric(a, b, i, j - 1);
      CellSymmetric(a, b, i - 1, j - 1);
      AbsDiffSymmetric(a[i - 1], b[j - 1]);
      StepSymmetric(Abs(a[i - 1] - b[j - 1]), Cell(a, b, i - 1, j), Cell(a, b, i, j - 1), Cell(a, b, i - 1, j - 1));
    }
  }

  lemma StepSymmetric(cost: real, up: Ext, left: Ext, diag: Ext)
    ensures Step(cost, up, left, diag) == Step(cost, left, up, diag)
  {
  }

  /** |d[0]| + ... + |d[i-1]| */
  function AbsPrefixSum(d: seq<real>, i: nat): (r: real)
    requires i <= |d|
    ensures 0.0 <= r
  {
    if i == 0 then 0.0 else AbsPrefixSum(d, i - 1) + Abs(d[i - 1])
  }

  function Zeros(n: nat): (z: seq<real>)
    ensures |z| == n && forall k :: 0 <= k < n ==> z[k] == 0.0
  {
    seq(n, _ => 0.0)
  }

  /** Warping a sequence against an all-zero reference of the same length (as the
      harmony score does with its per-beat distances) costs exactly the sum of the
      absolute values: every row of the table must be visited, and the diagonal
      visits each once. */
  lemma DtwAgainstZeros(d: seq<real>)
    requires d != []
    ensures Dtw(d, Zeros(|d|)) == Fin(AbsPrefixSum(d, |d|))
  {
    ZeroDiagonal(d, |d|);
  }

  lemma {:induction false} ZeroDiagonal(d: seq<real>, i: nat)
    requires 1 <= i <= |d|
    ensures Cell(d, Zeros(|d|), i, i) == Fin(AbsPrefixSum(d, i))
  {
    var z := Zeros(|d|);
    if i > 1 {
      ZeroDiagonal(d, i - 1);
      ZeroLowerBound(d, i - 1, i);
      ZeroLowerBound(d, i, i - 1);
    }
    assert z[i - 1] == 0.0;
  }

  /** Every inner cell of the table against zeros costs at least the absolute
      sum of the rows it has consumed. */
  lemma {:induction false} ZeroLowerBound(d: seq<real>, i: nat, j: nat)
    requires 1 <= i <= |d| && 1 <= j <= |d|
    ensures Cell(d, Zeros(|d|), i, j).Fin?
    ensures AbsPrefixSum(d, i) <= Cell(d, Zeros(|d|), i, j).v
    decreases i + j
  {
    var z := Zeros(|d|);
    var i', j' := i - 1, j - 1;
    assert z[j'] == 0.0;
    if i' > 0 {
      ZeroLowerBound(d, i', j);
    }
    if j' > 0 {
      ZeroLowerBound(d, i, j');
    }
    if i' > 0 && j' > 0 {
      ZeroLowerBound(d, i', j');
    }
    CellShape(d, z, i', j);
    CellShape(d, z, i, j');
    CellShape(d, z, i', j');
  }
}
