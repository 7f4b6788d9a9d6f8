/** Chroma (CENS) helpers of the matcher: beat-synchronous pooling
    (beat_sync_matrix) and the key-invariant cosine between pitch-class profiles
    (best_rotated_cens_cosine), with the proof that transposing one side to
    another key leaves the cosine unchanged. */
module Chroma {
  import opened Numerics

  /** One chroma frame: an energy per pitch class, in the fixed cyclic order
      shared by every feature set. */
  type PitchVector = v: seq<real> | |v| == 12
    witness [0.0, 0.0, 0.0, 0.0, 0.0, 0.0, 0.0, 0.0, 0.0, 0.0, 0.0, 0.0]

  /** A chroma matrix stored frame by frame: frame t is column t of the (12, T)
      numpy array, so T == |M| and M == [] is the source's "size == 0". */
  type ChromaMatrix = seq<PitchVector>

  /** numpy.roll(v, r): the energy of pitch class p moves to (p + r) mod 12. */
  function Roll(v: PitchVector, r: int): PitchVector {
    seq(12, q => v[(q - r) % 12])
  }

  /** Relabels the pitch classes of every frame by r semitones: the same music
      played in another key. */
  function Transpose(M: ChromaMatrix, r: int): ChromaMatrix {
    seq(|M|, t requires 0 <= t < |M| => Roll(M[t], r))
  }

  function DotUpTo(u: PitchVector, v: PitchVector, k: nat): real
    requires k <= 12
  {
    if k == 0 then 0.0 else DotUpTo(u, v, k - 1) + u[k - 1] * v[k - 1]
  }

  /** numpy.dot of two pitch vectors. */
  function Dot(u: PitchVector, v: PitchVector): real {
    DotUpTo(u, v, 12)
  }

  function Squares(v: seq<real>): (s: seq<real>)
    ensures |s| == |v| && forall k :: 0 <= k < |v| ==> s[k] == v[k] * v[k] && 0.0 <= s[k]
  {
    seq(|v|, k requires 0 <= k < |v| => v[k] * v[k])
  }

  /** numpy.linalg.norm: the square root of the sum of squares. */
  function Norm(m: MathLib, v: PitchVector): (r: real)
    requires Lawful(m)
    ensures 0.0 <= r
  {
    SumNonNegative(Squares(v));
    m.sqrt(Sum(Squares(v)))
  }

  /** v / (norm(v) + 1e-9) */
  function Normalize(m: MathLib, v: PitchVector): PitchVector
    requires Lawful(m)
  {
    var d := Norm(m, v) + Epsilon;
    seq(12, p requires 0 <= p < 12 => v[p] / d)
  }

  /** The running value of `best = max(best, dot(a, roll(b, r)))`, started at
      -1.0, after rotations 0 .. r-1: at least -1, at least every dot product
      tried, and equal to -1 or to one of them. */
  function RotMax(a: PitchVector, b: PitchVector, r: nat): (best: real)
    requires r <= 12
    ensures -1.0 <= best
    ensures forall s :: 0 <= s < r ==> Dot(a, Roll(b, s)) <= best
    ensures best == -1.0 || exists s :: 0 <= s < r && best == Dot(a, Roll(b, s))
  {
    if r == 0 then -1.0 else Max(RotMax(a, b, r - 1), Dot(a, Roll(b, r - 1)))
  }

  /** The best dot product of a against any of the 12 rotations of b (never
      below -1.0, the loop's starting value). */
  function BestRotatedDot(a: PitchVector, b: PitchVector): real {
    RotMax(a, b, 12)
  }

  /** The sum of frames lo .. hi-1 in pitch class p. */
  function FrameSum(M: ChromaMatrix, lo: nat, hi: nat, p: nat): real
    requires lo <= hi <= |M| && p < 12
    decreases hi
  {
    if hi == lo then 0.0 else FrameSum(M, lo, hi - 1, p) + M[hi - 1][p]
  }

  /** M[:, lo:hi].mean(axis=1) */
  function MeanFrames(M: ChromaMatrix, lo: nat, hi: nat): PitchVector
    requires lo < hi <= |M|
  {
    seq(12, p requires 0 <= p < 12 => FrameSum(M, lo, hi, p) / (hi - lo) as real)
  }

  /** best_rotated_cens_cosine(A, B): 0.5 when either matrix is empty; otherwise
      both are cut to their common number of frames T, averaged over time,
      normalised, and the best rotated dot product is clamped to [0, 1]. (The
      source's second test, T == 0, cannot fire once neither matrix is empty.) */
  function BestRotatedCensCosine(m: MathLib, A: ChromaMatrix, B: ChromaMatrix): (r: real)
    requires Lawful(m)
    ensures A == [] || B == [] ==> r == 0.5
    ensures 0.0 <= r <= 1.0
  {
    if |A| == 0 || |B| == 0 then 0.5
    else
      var T := MinInt(|A|, |B|);
      var a := Normalize(m, MeanFrames(A, 0, T));
      var b := Normalize(m, MeanFrames(B, 0, T));
      Clamp01(BestRotatedDot(a, b))
  }

  // ---------------------------------------------------------------------------
  // Key-transposition invariance
  // ---------------------------------------------------------------------------

  lemma ModShift(x: int, k: int)
    ensures ((x % 12) - k) % 12 == (x - k) % 12
  {
    var c := x / 12;
    assert x % 12 - k == (x - k) - 12 * c;
  }

  /** Rotations compose by adding their amounts. */
  lemma RollRoll(v: PitchVector, k: int, r: int)
    ensures Roll(Roll(v, k), r) == Roll(v, k + r)
  {
    forall q | 0 <= q < 12
      ensures Roll(Roll(v, k), r)[q] == Roll(v, k + r)[q]
    {
      ModShift(q - r, k);
      assert q - (k + r) == (q - r) - k;
    }
  }

  /** Rotation amounts only matter modulo 12. */
  lemma RollCongruent(v: PitchVector, r: int, r': int)
    requires r % 12 == r' % 12
    ensures Roll(v, r) == Roll(v, r')
  {
    forall q | 0 <= q < 12
      ensures Roll(v, r)[q] == Roll(v, r')[q]
    {
      ModShift(q, r);
      ModShift(q, r');
      var c, c' := r / 12, r' / 12;
      assert q - r == (q - r % 12) - 12 * c;
      assert q - r' == (q - r' % 12) - 12 * c';
      ModMultiple(q - r % 12, c);
      ModMultiple(q - r' % 12, c');
    }
  }

  lemma ModMultiple(y: int, c: int)
    ensures (y - 12 * c) % 12 == y % 12
  {
  }

  /** A rotation of a vector has the same sum of squares, hence the same norm. */
  lemma SquaresRoll(v: PitchVector, k: int)
    ensures Sum(Squares(Roll(v, k))) == Sum(Squares(v))
  {
    var c := 12 - k % 12;
    var sq := Squares(v);
    var head, tail := sq[..c], sq[c..];
    RollSplitsSquares(v, k);
    assert sq == head + tail;
    SumAppend(tail, head);
    SumAppend(head, tail);
  }

  /** The squares of a rotation are the squares of the vector, cut at the
      rotation amount and the two pieces swapped. */
  lemma RollSplitsSquares(v: PitchVector, k: int)
    ensures var c := 12 - k % 12; Squares(Roll(v, k)) == Squares(v)[c..] + Squares(v)[..c]
  {
    var s := k % 12;
    var sq, sr := Squares(v), Squares(Roll(v, k));
    var rhs := sq[12 - s..] + sq[..12 - s];
    forall q | 0 <= q < 12
      ensures sr[q] == rhs[q]
    {
      var c := k / 12;
      assert q - k == (q - s) - 12 * c;
      ModMultiple(q - s, c);
    }
  }

  lemma NormalizeRoll(m: MathLib, v: PitchVector, k: int)
    requires Lawful(m)
    ensures Normalize(m, Roll(v, k)) == Roll(Normalize(m, v), k)
  {
    SquaresRoll(v, k);
  }

  /** Rotating b first does not change the best rotated dot product: the 12
      rotations of a rotation of b are the 12 rotations of b. */
  lemma BestRotatedDotRoll(a: PitchVector, b: PitchVector, k: int)
    ensures BestRotatedDot(a, Roll(b, k)) == BestRotatedDot(a, b)
  {
    var x, y := BestRotatedDot(a, Roll(b, k)), BestRotatedDot(a, b);
    if x != -1.0 {
      var s :| 0 <= s < 12 && x == Dot(a, Roll(Roll(b, k), s));
      RolledRotationBelowBest(a, b, k, s);
    }
    if y != -1.0 {
      var s :| 0 <= s < 12 && y == Dot(a, Roll(b, s));
      RotationBelowRolledBest(a, b, k, s);
    }
  }

  /** Every rotation of a rotation of b is a rotation of b. */
  lemma RolledRotationBelowBest(a: PitchVector, b: PitchVector, k: int, s: int)
    ensures Dot(a, Roll(Roll(b, k), s)) <= BestRotatedDot(a, b)
  {
    var t := (k + s) % 12;
    RollRoll(b, k, s);
    RollCongruent(b, k + s, t);
    assert Dot(a, Roll(b, t)) <= RotMax(a, b, 12);
  }

  /** Every rotation of b is a rotation of a rotation of b. */
  lemma RotationBelowRolledBest(a: PitchVector, b: PitchVector, k: int, s: int)
    ensures Dot(a, Roll(b, s)) <= BestRotatedDot(a, Roll(b, k))
  {
    var t := (s - k) % 12;
    RollRoll(b, k, t);
    ModShift(s - k, -k);
    RollCongruent(b, k + t, s);
    assert Dot(a, Roll(Roll(b, k), t)) <= RotMax(a, Roll(b, k), 12);
  }

  lemma {:induction false} FrameSumTranspose(M: ChromaMatrix, lo: nat, hi: nat, p: nat, k: int)
    requires lo <= hi <= |M| && p < 12
    ensures FrameSum(Transpose(M, k), lo, hi, p) == FrameSum(M, lo, hi, (p - k) % 12)
    decreases hi
  {
    if hi > lo {
      FrameSumTranspose(M, lo, hi - 1, p, k);
    }
  }

  /** Averaging frames commutes with transposition. */
  lemma MeanFramesTranspose(M: ChromaMatrix, lo: nat, hi: nat, k: int)
    requires lo < hi <= |M|
    ensures MeanFrames(Transpose(M, k), lo, hi) == Roll(MeanFrames(M, lo, hi), k)
  {
    forall p | 0 <= p < 12
      ensures MeanFrames(Transpose(M, k), lo, hi)[p] == Roll(MeanFrames(M, lo, hi), k)[p]
    {
      FrameSumTranspose(M, lo, hi, p, k);
    }
  }

  /** Key invariance of the global harmony term: transposing the second matrix
      to any key leaves best_rotated_cens_cosine unchanged. */
  lemma BestRotatedCensCosineTranspose(m: MathLib, A: ChromaMatrix, B: ChromaMatrix, k: int)
    requires Lawful(m)
    ensures BestRotatedCensCosine(m, A, Transpose(B, k)) == BestRotatedCensCosine(m, A, B)
  {
    if |A| > 0 && |B| > 0 {
      var T := MinInt(|A|, |B|);
      var b := MeanFrames(B, 0, T);
      MeanFramesTranspose(B, 0, T, k);
      NormalizeRoll(m, b, k);
      BestRotatedDotRoll(Normalize(m, MeanFrames(A, 0, T)), Normalize(m, b), k);
    }
  }

  // ---------------------------------------------------------------------------
  // Beat-synchronous pooling
  // ---------------------------------------------------------------------------

  /** How numpy reads a slice stop e against a length T (negative counts from
      the end; both ends clamp). */
  function SliceStop(e: int, T: nat): (r: nat)
    ensures r <= T
  {
    if e < 0 then (if e + T < 0 then 0 else e + T) else (if e < T then e else T)
  }

  /** The pooled frame for one beat interval: the mean of M[:, s:e], or of the
      single frame M[:, s:s+1] when that slice is empty. */
  function PoolSegment(M: ChromaMatrix, s: nat, e: int): PitchVector
    requires s < |M|
  {
    var stop := SliceStop(e, |M|);
    if s < stop then MeanFrames(M, s, stop) else MeanFrames(M, s, s + 1)
  }

  /** beat_sync_matrix: one pooled frame per pair of consecutive beats; the
      matrix itself when it is empty, when there are no beats, or when no pair
      of beats exists. */
  method BeatSyncMatrix(M: ChromaMatrix, beats: seq<int>) returns (R: ChromaMatrix)
    requires M != [] ==> forall i :: 0 <= i < |beats| - 1 ==> 0 <= beats[i] < |M|
    ensures M == [] || |beats| < 2 ==> R == M
    ensures M != [] && |beats| >= 2 ==>
      |R| == |beats| - 1 && forall i :: 0 <= i < |R| ==> R[i] == PoolSegment(M, beats[i], beats[i + 1])
  {
    if |M| == 0 || |beats| == 0 {
      return M;
    }
    var pooled: seq<PitchVector> := [];
    for i := 0 to |beats| - 1
      invariant |pooled| == i
      invariant forall j :: 0 <= j < i ==> pooled[j] == PoolSegment(M, beats[j], beats[j + 1])
    {
      var s, e := beats[i], beats[i + 1];
      var stop := SliceStop(e, |M|);
      if stop <= s {
        pooled := pooled + [MeanFrames(M, s, s + 1)];
      } else {
        pooled := pooled + [MeanFrames(M, s, stop)];
      }
    }
    if |pooled| == 0 {
      return M;
    }
    R := pooled;
  }

  /** Every entry of M lies within [lo, hi]. */
  ghost predicate EntriesWithin(M: ChromaMatrix, lo: real, hi: real) {
    forall t, p :: 0 <= t < |M| && 0 <= p < 12 ==> lo <= M[t][p] <= hi
  }

  lemma {:induction false} FrameSumWithin(M: ChromaMatrix, lo: nat, hi: nat, p: nat, a: real, b: real)
    requires lo <= hi <= |M| && p < 12 && EntriesWithin(M, a, b)
    ensures (hi - lo) as real * a <= FrameSum(M, lo, hi, p) <= (hi - lo) as real * b
    decreases hi
  {
    if hi > lo {
      FrameSumWithin(M, lo, hi - 1, p, a, b);
      assert (hi - lo) as real * a == (hi - 1 - lo) as real * a + a;
      assert (hi - lo) as real * b == (hi - 1 - lo) as real * b + b;
    }
  }

  /** Pooling keeps energies within the range of the frames pooled: a
      non-negative chroma matrix stays non-negative, a normalised one stays
      within [0, 1]. */
  lemma PoolSegmentWithin(M: ChromaMatrix, s: nat, e: int, a: real, b: real)
    requires s < |M| && EntriesWithin(M, a, b)
    ensures forall p :: 0 <= p < 12 ==> a <= PoolSegment(M, s, e)[p] <= b
  {
    var stop := SliceStop(e, |M|);
    var hi := if s < stop then stop else s + 1;
    var v := MeanFrames(M, s, hi);
    assert PoolSegment(M, s, e) == v;
    forall p | 0 <= p < 12
      ensures a <= v[p] <= b
    {
      var n := (hi - s) as real;
      FrameSumWithin(M, s, hi, p, a, b);
      DivBounds(FrameSum(M, s, hi, p), n, a, b);
    }
  }
}
