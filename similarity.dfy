/** The four per-feature similarities of the matcher and their weighted blend
    (multi_feature_similarity). Every score lies in [0, 1]; a signal too short
    to compare yields the neutral value of its feature. */
module Similarity {
  import opened Numerics
  import opened Alignment
  import opened Chroma
  import opened Features

  const WPitch: real := 0.45
  const WRhythm: real := 0.15
  const WTempo: real := 0.10
  const WCens: real := 0.30

  /** dtw_distance(a, b) / max(len(a), len(b)) for two non-empty sequences. */
  function NormalizedDtw(a: seq<real>, b: seq<real>): (r: real)
    requires a != [] && b != []
    ensures 0.0 <= r
  {
    Dtw(a, b).v / MaxInt(|a|, |b|) as real
  }

  /** _pitch_similarity: 0 when either side has fewer than four intervals,
      otherwise exp(-4 * normalised DTW distance of the interval sequences),
      which lies in (0, 1] and is 1 exactly when the intervals align at no
      cost. */
  function PitchSimilarity(m: MathLib, hum: FeatureSet, song: FeatureSet): (r: real)
    requires Lawful(m)
    ensures |hum.intervals| < 4 || |song.intervals| < 4 ==> r == 0.0
    ensures |hum.intervals| >= 4 && |song.intervals| >= 4 ==>
      0.0 < r <= 1.0 && (r == 1.0 <==> Dtw(hum.intervals, song.intervals) == Fin(0.0))
  {
    var a, b := hum.intervals, song.intervals;
    if |a| < 4 || |b| < 4 then 0.0
    else
      var norm := NormalizedDtw(a, b);
      ExpOfNonPositive(m, -4.0 * norm);
      m.exp(-4.0 * norm)
  }

  /** _rhythm_similarity: 0.5 when either side has fewer than two onset gaps,
      otherwise exp(-3 * normalised DTW distance of the rhythm patterns). */
  function RhythmSimilarity(m: MathLib, hum: FeatureSet, song: FeatureSet): (r: real)
    requires Lawful(m)
    ensures |hum.rhythmPattern| < 2 || |song.rhythmPattern| < 2 ==> r == 0.5
    ensures |hum.rhythmPattern| >= 2 && |song.rhythmPattern| >= 2 ==>
      0.0 < r <= 1.0 && (r == 1.0 <==> Dtw(hum.rhythmPattern, song.rhythmPattern) == Fin(0.0))
  {
    var a, b := hum.rhythmPattern, song.rhythmPattern;
    if |a| < 2 || |b| < 2 then 0.5
    else
      var norm := NormalizedDtw(a, b);
      ExpOfNonPositive(m, -3.0 * norm);
      m.exp(-3.0 * norm)
  }

  /** |t1 - t2*k| / ((t1 + t2*k) / 2 + 1e-9): the relative difference of t1 and
      the tempo t2 scaled by k. */
  function RelativeTempoDiff(t1: real, t2: real, k: real): (r: real)
    requires 0.0 < t1 && 0.0 < t2 && 0.0 < k
    ensures 0.0 <= r
    ensures r == 0.0 <==> t1 == t2 * k
  {
    var den := (t1 + t2 * k) / 2.0 + Epsilon;
    var num := Abs(t1 - t2 * k);
    assert num == 0.0 ==> num / den == 0.0;
    assert num / den == 0.0 ==> num == num / den * den == 0.0;
    num / den
  }

  /** t1 is t2 at half, equal or double speed. */
  predicate OctaveEquivalent(t1: real, t2: real) {
    t1 == t2 * 0.5 || t1 == t2 || t1 == t2 * 2.0
  }

  /** The octave-invariant tempo difference shared by the tempo similarity and
      the tempo tie-break: the running minimum, started at 1.0, of the relative
      differences at multipliers 0.5, 1 and 2. */
  function OctaveTempoDiff(t1: real, t2: real): (r: real)
    requires 0.0 < t1 && 0.0 < t2
    ensures 0.0 <= r <= 1.0
    ensures r <= RelativeTempoDiff(t1, t2, 0.5) && r <= RelativeTempoDiff(t1, t2, 1.0) && r <= RelativeTempoDiff(t1, t2, 2.0)
    ensures r == 0.0 <==> OctaveEquivalent(t1, t2)
    ensures r == 1.0 || r == RelativeTempoDiff(t1, t2, 0.5) || r == RelativeTempoDiff(t1, t2, 1.0) || r == RelativeTempoDiff(t1, t2, 2.0)
  {
    var best := Min(1.0, RelativeTempoDiff(t1, t2, 0.5));
    var best := Min(best, RelativeTempoDiff(t1, t2, 1.0));
    Min(best, RelativeTempoDiff(t1, t2, 2.0))
  }

  /** _tempo_similarity: 0.5 when either tempo is unknown (not positive),
      otherwise exp(-3 * octave-invariant tempo difference), which is 1 exactly
      when the tempi are equal up to a factor of 2 either way. */
  function TempoSimilarity(m: MathLib, hum: FeatureSet, song: FeatureSet): (r: real)
    requires Lawful(m)
    ensures hum.tempo <= 0.0 || song.tempo <= 0.0 ==> r == 0.5
    ensures 0.0 < r <= 1.0
    ensures 0.0 < hum.tempo && 0.0 < song.tempo ==> (r == 1.0 <==> OctaveEquivalent(hum.tempo, song.tempo))
  {
    var t1, t2 := hum.tempo, song.tempo;
    if t1 <= 0.0 || t2 <= 0.0 then 0.5
    else
      var best := OctaveTempoDiff(t1, t2);
      ExpOfNonPositive(m, -3.0 * best);
      m.exp(-3.0 * best)
  }

  /** The tempo tie-break's cost (tempo_cost in match_melody): 1.0 when either
      tempo is unknown, else the octave-invariant tempo difference. */
  function TempoCost(hum: FeatureSet, song: FeatureSet): (r: real)
    ensures 0.0 <= r <= 1.0
    ensures hum.tempo <= 0.0 || song.tempo <= 0.0 ==> r == 1.0
    ensures 0.0 < hum.tempo && 0.0 < song.tempo ==> (r == 0.0 <==> OctaveEquivalent(hum.tempo, song.tempo))
  {
    if song.tempo <= 0.0 || hum.tempo <= 0.0 then 1.0 else OctaveTempoDiff(hum.tempo, song.tempo)
  }

  /** per_beat_rotated_cos_dist: for each of the first T = min(|A|, |B|) beats,
      one minus the best rotated dot product of the two normalised frames. */
  function PerBeatDistances(m: MathLib, A: ChromaMatrix, B: ChromaMatrix): (d: seq<real>)
    requires Lawful(m)
    ensures |d| == MinInt(|A|, |B|)
  {
    var T := MinInt(|A|, |B|);
    seq(T, t requires 0 <= t < T => 1.0 - BestRotatedDot(Normalize(m, A[t]), Normalize(m, B[t])))
  }

  /** The beat-synchronous term of _cens_similarity (dtw_sim): 0.5 when either
      beat-pooled matrix is empty, else exp(-4 * DTW distance of the per-beat
      distances against zeros / (their count + 1e-9)). (The source's second
      test, an empty list of per-beat distances, cannot fire once neither
      matrix is empty.) */
  function BeatSyncSimilarity(m: MathLib, hum: FeatureSet, song: FeatureSet): (r: real)
    requires Lawful(m)
    ensures hum.censBeatSync == [] || song.censBeatSync == [] ==> r == 0.5
    ensures 0.0 < r <= 1.0
  {
    var Hb, Sb := hum.censBeatSync, song.censBeatSync;
    if |Hb| == 0 || |Sb| == 0 then 0.5
    else
      var d := PerBeatDistances(m, Hb, Sb);
      var norm := Dtw(d, Zeros(|d|)).v / (|d| as real + Epsilon);
      ExpOfNonPositive(m, -4.0 * norm);
      m.exp(-4.0 * norm)
  }

  /** _cens_similarity: the mean of the global key-invariant cosine and the
      beat-synchronous term. */
  function CensSimilarity(m: MathLib, hum: FeatureSet, song: FeatureSet): (r: real)
    requires Lawful(m)
    ensures 0.0 <= r <= 1.0
    ensures hum.cens == [] && hum.censBeatSync == [] ==> r == 0.5
  {
    0.5 * BestRotatedCensCosine(m, hum.cens, song.cens) + 0.5 * BeatSyncSimilarity(m, hum, song)
  }

  /** multi_feature_similarity: the weighted blend of the four scores, with
      weights summing to 1, so the blend stays in [0, 1]. */
  function MultiFeatureSimilarity(m: MathLib, hum: FeatureSet, song: FeatureSet): (r: real)
    requires Lawful(m)
    ensures 0.0 <= r <= 1.0
  {
    WPitch * PitchSimilarity(m, hum, song)
      + WRhythm * RhythmSimilarity(m, hum, song)
      + WTempo * TempoSimilarity(m, hum, song)
      + WCens * CensSimilarity(m, hum, song)
  }

  // ---------------------------------------------------------------------------
  // Properties
  // ---------------------------------------------------------------------------

  /** A recording compared with itself scores full pitch and rhythm marks once
      it has enough intervals and onset gaps. */
  lemma SelfSimilarity(m: MathLib, f: FeatureSet)
    requires Lawful(m)
    ensures |f.intervals| >= 4 ==> PitchSimilarity(m, f, f) == 1.0
    ensures |f.rhythmPattern| >= 2 ==> RhythmSimilarity(m, f, f) == 1.0
  {
    if |f.intervals| >= 4 {
      DtwSelf(f.intervals);
    }
    if |f.rhythmPattern| >= 2 {
      DtwSelf(f.rhythmPattern);
    }
  }

  /** The pitch and rhythm scores do not depend on which side is the query. */
  lemma PitchRhythmSymmetric(m: MathLib, f: FeatureSet, g: FeatureSet)
    requires Lawful(m)
    ensures PitchSimilarity(m, f, g) == PitchSimilarity(m, g, f)
    ensures RhythmSimilarity(m, f, g) == RhythmSimilarity(m, g, f)
  {
    DtwSymmetric(f.intervals, g.intervals);
    DtwSymmetric(f.rhythmPattern, g.rhythmPattern);
  }

  /** A fallback record built from fewer than five pitches has fewer than four
      intervals and so can only earn a pitch score of 0. */
  lemma ShortLegacyMelodyHasNoPitchScore(m: MathLib, hum: FeatureSet, pitches: seq<real>)
    requires Lawful(m) && |pitches| < 5
    ensures PitchSimilarity(m, hum, FromPitches(pitches)) == 0.0
  {
  }

  /** The beat-synchronous term is exp(-4 * mean absolute per-beat distance):
      warping the distances against zeros just adds them up. */
  lemma BeatSyncSimilarityIsMeanDistance(m: MathLib, hum: FeatureSet, song: FeatureSet)
    requires Lawful(m) && hum.censBeatSync != [] && song.censBeatSync != []
    ensures var d := PerBeatDistances(m, hum.censBeatSync, song.censBeatSync);
      BeatSyncSimilarity(m, hum, song) == m.exp(-4.0 * (AbsPrefixSum(d, |d|) / (|d| as real + Epsilon)))
  {
    DtwAgainstZeros(PerBeatDistances(m, hum.censBeatSync, song.censBeatSync));
  }

  /** The per-beat distances do not change when the second matrix is sung in
      another key. */
  lemma PerBeatDistancesTranspose(m: MathLib, A: ChromaMatrix, B: ChromaMatrix, k: int)
    requires Lawful(m)
    ensures PerBeatDistances(m, A, Transpose(B, k)) == PerBeatDistances(m, A, B)
  {
    var T := MinInt(|A|, |B|);
    forall t | 0 <= t < T
      ensures PerBeatDistances(m, A, Transpose(B, k))[t] == PerBeatDistances(m, A, B)[t]
    {
      NormalizeRoll(m, B[t], k);
      BestRotatedDotRoll(Normalize(m, A[t]), Normalize(m, B[t]), k);
    }
  }

  /** Key invariance of the harmony score: singing the song in any other key
      leaves _cens_similarity unchanged. */
  lemma CensSimilarityTranspose(m: MathLib, hum: FeatureSet, song: FeatureSet, k: int)
    requires Lawful(m)
    ensures CensSimilarity(m, hum, TransposeKey(song, k)) == CensSimilarity(m, hum, song)
  {
    BestRotatedCensCosineTranspose(m, hum.cens, song.cens, k);
    BeatSyncSimilarityTranspose(m, hum, song, k);
  }

  lemma BeatSyncSimilarityTranspose(m: MathLib, hum: FeatureSet, song: FeatureSet, k: int)
    requires Lawful(m)
    ensures BeatSyncSimilarity(m, hum, TransposeKey(song, k)) == BeatSyncSimilarity(m, hum, song)
  {
    var t := TransposeKey(song, k);
    assert t.censBeatSync == Transpose(song.censBeatSync, k);
    PerBeatDistancesTranspose(m, hum.censBeatSync, song.censBeatSync, k);
    BeatSyncSimilarityOfDistances(m, hum, t, song);
  }

  /** The beat-synchronous term sees a recording only through its per-beat
      distances to the query. */
  lemma BeatSyncSimilarityOfDistances(m: MathLib, hum: FeatureSet, f: FeatureSet, g: FeatureSet)
    requires Lawful(m)
    requires |f.censBeatSync| == |g.censBeatSync|
    requires PerBeatDistances(m, hum.censBeatSync, f.censBeatSync) == PerBeatDistances(m, hum.censBeatSync, g.censBeatSync)
    ensures BeatSyncSimilarity(m, hum, f) == BeatSyncSimilarity(m, hum, g)
  {
  }

  /** Key invariance of the whole score: pitch intervals, rhythm and tempo do
      not depend on the key, and the harmony score is key invariant. */
  lemma MultiFeatureSimilarityTranspose(m: MathLib, hum: FeatureSet, song: FeatureSet, k: int)
    requires Lawful(m)
    ensures MultiFeatureSimilarity(m, hum, TransposeKey(song, k)) == MultiFeatureSimilarity(m, hum, song)
  {
    var t := TransposeKey(song, k);
    assert t.intervals == song.intervals && t.rhythmPattern == song.rhythmPattern && t.tempo == song.tempo;
    assert PitchSimilarity(m, hum, t) == PitchSimilarity(m, hum, song);
    assert RhythmSimilarity(m, hum, t) == RhythmSimilarity(m, hum, song);
    assert TempoSimilarity(m, hum, t) == TempoSimilarity(m, hum, song);
    CensSimilarityTranspose(m, hum, song, k);
  }

  /** Without pitch evidence the blend cannot exceed 0.55, below the 0.65 the
      ranker asks of a confident winner. */
  lemma NoPitchEvidenceCapsScore(m: MathLib, hum: FeatureSet, song: FeatureSet)
    requires Lawful(m) && PitchSimilarity(m, hum, song) == 0.0
    ensures MultiFeatureSimilarity(m, hum, song) <= 0.55
  {
  }
}
