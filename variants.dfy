/** How a catalog entry with learned variants is scored: the variant scores
    are aggregated (_simple_average or _consensus), then a boost is allowed only
    with enough agreement and a clear harmony gain, is capped, shows
    diminishing returns with the number of variants, and must beat the
    original score by a margin. */
module VariantScoring {
  import opened Numerics
  import opened Features
  import opened Similarity

  const VariantGoodThreshold: real := 0.80
  const CensMinAdvantage: real := 0.08
  const MaxVariantBoost: real := 1.10
  const BoostNeedMargin: real := 0.02

  /** The two aggregation rules; the matcher is configured with Consensus. */
  datatype ScoringMethod = Simple | Consensus
  const VariantScoringMethod: ScoringMethod := Consensus

  /** The smallest element of a non-empty list. */
  function SeqMin(s: seq<real>): (r: real)
    requires s != []
    ensures forall k :: 0 <= k < |s| ==> r <= s[k]
    ensures r in s
  {
    if |s| == 1 then s[0] else Min(SeqMin(s[..|s| - 1]), s[|s| - 1])
  }

  /** The largest element of a non-empty list. */
  function SeqMax(s: seq<real>): (r: real)
    requires s != []
    ensures forall k :: 0 <= k < |s| ==> s[k] <= r
    ensures r in s
  {
    if |s| == 1 then s[0] else Max(SeqMax(s[..|s| - 1]), s[|s| - 1])
  }

  /** _simple_average: 0.0 for no scores, otherwise the arithmetic mean, which
      lies between the smallest and the largest score. */
  function SimpleAverage(sims: seq<real>): (r: real)
    ensures sims == [] ==> r == 0.0
    ensures sims != [] ==> SeqMin(sims) <= r <= SeqMax(sims)
  {
    if sims == [] then 0.0
    else
      MeanBounds(sims, SeqMin(sims), SeqMax(sims));
      Sum(sims) / |sims| as real
  }

  /** The number of good variants the consensus rule asks for among n: 1 for
      up to two variants, 2 for up to five, else the larger of 2 and
      int(n * 0.4). It is never more than n, so agreement is always
      reachable. */
  function MinRequiredGood(n: nat): (r: nat)
    ensures 1 <= r
    ensures 1 <= n ==> r <= n
  {
    if n <= 2 then 1
    else if n <= 5 then 2
    else MaxInt(2, Trunc(n as real * 0.4))
  }

  /** The scores at or above the good-variant threshold, in order. */
  function GoodScores(sims: seq<real>): (g: seq<real>)
    ensures |g| <= |sims|
    ensures forall k :: 0 <= k < |g| ==> VariantGoodThreshold <= g[k] && g[k] in sims
    ensures forall k :: 0 <= k < |sims| && VariantGoodThreshold <= sims[k] ==> sims[k] in g
    ensures forall x :: multiset(g)[x] == (if VariantGoodThreshold <= x then multiset(sims)[x] else 0)
  {
    if sims == [] then []
    else
      var last := sims[|sims| - 1];
      assert sims == sims[..|sims| - 1] + [last];
      GoodScores(sims[..|sims| - 1]) + (if VariantGoodThreshold <= last then [last] else [])
  }

  /** _consensus: 0.0 for no scores; the plain mean when fewer than
      MinRequiredGood variants are good; otherwise the mean of the good ones
      only, which is then itself good. Either way the result lies between the
      smallest and the largest score. */
  function ConsensusScore(sims: seq<real>): (r: real)
    ensures sims == [] ==> r == 0.0
    ensures sims != [] ==> SeqMin(sims) <= r <= SeqMax(sims)
    ensures sims != [] && |GoodScores(sims)| < MinRequiredGood(|sims|) ==> r == SimpleAverage(sims)
    ensures sims != [] && |GoodScores(sims)| >= MinRequiredGood(|sims|) ==>
      r == SimpleAverage(GoodScores(sims)) && VariantGoodThreshold <= r
  {
    if sims == [] then 0.0
    else
      var good := GoodScores(sims);
      if |good| < MinRequiredGood(|sims|) then SimpleAverage(sims)
      else
        MeanBounds(good, VariantGoodThreshold, SeqMax(sims));
        MeanBounds(good, SeqMin(sims), SeqMax(sims));
        SimpleAverage(good)
  }

  /** Two strong variants out of three carry the consensus and the weak one is
      ignored. */
  lemma ConsensusIgnoresOutlier()
    ensures ConsensusScore([0.9, 0.9, 0.1]) == 0.9
  {
    var s := [0.9, 0.9, 0.1];
    assert s[..2] == [0.9, 0.9] && s[..2][..1] == [0.9];
    assert GoodScores(s) == [0.9, 0.9];
    assert [0.9, 0.9][..1] == [0.9];
  }

  /** One strong variant out of three is not enough: the score falls back to
      the mean of all three. */
  lemma ConsensusFallsBackToMean()
    ensures ConsensusScore([0.9, 0.1, 0.1]) == 1.1 / 3.0
  {
    var s1, s2, s := [0.9], [0.9, 0.1], [0.9, 0.1, 0.1];
    assert s1[..0] == [] && s2[..1] == s1 && s[..2] == s2;
    assert GoodScores(s1) == [0.9];
    assert GoodScores(s2) == [0.9];
    assert GoodScores(s) == [0.9];
    assert Sum(s1) == 0.9;
    assert Sum(s2) == 1.0;
    assert Sum(s) == 1.1;
    assert SimpleAverage(s) == 1.1 / 3.0;
  }

  /** The aggregated variant score under the configured method. */
  function VariantScore(sims: seq<real>): (r: real)
    ensures sims == [] ==> r == 0.0
    ensures sims != [] ==> SeqMin(sims) <= r <= SeqMax(sims)
    ensures (forall k :: 0 <= k < |sims| ==> 0.0 <= sims[k] <= 1.0) ==> 0.0 <= r <= 1.0
  {
    if VariantScoringMethod == Simple then SimpleAverage(sims) else ConsensusScore(sims)
  }

  /** min(MAX_VARIANT_BOOST, 1.02 + 0.03 * tanh(n / 3)): at least 1.02 and
      below 1.05, so the 1.10 cap never binds. */
  function BoostMultiplier(m: MathLib, n: nat): (r: real)
    requires Lawful(m)
    ensures 1.02 <= r < 1.05
    ensures r <= MaxVariantBoost
  {
    Min(MaxVariantBoost, 1.02 + 0.03 * m.tanh(n as real / 3.0))
  }

  datatype MatchType = Original | Variants

  /** The score of a catalog entry and the path that produced it. */
  datatype Scored = Scored(best: real, matchType: MatchType)

  /** A boost is considered only with a good variant score and a clear harmony
      gain of the variants over the original. */
  predicate AllowBoost(vscore: real, censGain: real) {
    vscore >= VariantGoodThreshold && censGain >= CensMinAdvantage
  }

  /** The variant path's value (vboost): the boosted score, or the original
      score when the boost does not beat it by the margin; the unboosted
      variant score when no boost is allowed. */
  function VariantValue(m: MathLib, base: real, vscore: real, censGain: real, n: nat): (v: real)
    requires Lawful(m)
    ensures !AllowBoost(vscore, censGain) ==> v == vscore
    ensures AllowBoost(vscore, censGain) ==> base <= v
    ensures AllowBoost(vscore, censGain) ==>
      (v == base <==> vscore * BoostMultiplier(m, n) <= base + BoostNeedMargin)
    ensures AllowBoost(vscore, censGain) && v != base ==> v == vscore * BoostMultiplier(m, n)
  {
    if AllowBoost(vscore, censGain) then
      var vboost := vscore * BoostMultiplier(m, n);
      if vboost <= base + BoostNeedMargin then base else vboost
    else vscore
  }

  /** The decision between the original score and the variant path: the
      variant path wins only when its value is strictly higher. */
  function Decide(m: MathLib, base: real, vscore: real, censGain: real, n: nat): (s: Scored)
    requires Lawful(m)
    ensures base <= s.best
    ensures s.matchType == Variants <==> base < s.best
    ensures s.best <= Max(base, Max(vscore, vscore * BoostMultiplier(m, n)))
    ensures Max(base, vscore) < s.best ==>
      AllowBoost(vscore, censGain) && s.best == vscore * BoostMultiplier(m, n)
    ensures AllowBoost(vscore, censGain) && s.matchType == Variants ==>
      base + BoostNeedMargin < s.best && s.best == vscore * BoostMultiplier(m, n)
    ensures !AllowBoost(vscore, censGain) ==> s.best == Max(base, vscore)
    ensures AllowBoost(vscore, censGain) && base + BoostNeedMargin < vscore * BoostMultiplier(m, n) ==>
      s == Scored(vscore * BoostMultiplier(m, n), Variants)
    ensures AllowBoost(vscore, censGain) && vscore * BoostMultiplier(m, n) <= base + BoostNeedMargin ==>
      s == Scored(base, Original)
    ensures base <= 1.0 && 0.0 <= vscore <= 1.0 ==> s.best < 1.05
  {
    BoostedBelow(vscore, BoostMultiplier(m, n));
    var vboost := VariantValue(m, base, vscore, censGain, n);
    assert base <= 1.0 && 0.0 <= vscore <= 1.0 ==> vboost < 1.05 by {
      if base <= 1.0 && 0.0 <= vscore <= 1.0 {
        assert vboost == base || vboost == vscore || vboost == vscore * BoostMultiplier(m, n);
      }
    }
    if vboost > base then Scored(vboost, Variants) else Scored(base, Original)
  }

  /** The multi-feature score of every variant, in order. */
  function VariantSims(m: MathLib, hum: FeatureSet, vs: seq<Variant>): (sims: seq<real>)
    requires Lawful(m)
    ensures |sims| == |vs|
    ensures forall k :: 0 <= k < |vs| ==> sims[k] == MultiFeatureSimilarity(m, hum, VariantFeatures(vs[k]))
    ensures forall k :: 0 <= k < |vs| ==> 0.0 <= sims[k] <= 1.0
  {
    seq(|vs|, k requires 0 <= k < |vs| => MultiFeatureSimilarity(m, hum, VariantFeatures(vs[k])))
  }

  /** The harmony score of every variant, in order. */
  function VariantCensSims(m: MathLib, hum: FeatureSet, vs: seq<Variant>): (sims: seq<real>)
    requires Lawful(m)
    ensures |sims| == |vs|
    ensures forall k :: 0 <= k < |vs| ==> 0.0 <= sims[k] <= 1.0
  {
    seq(|vs|, k requires 0 <= k < |vs| => CensSimilarity(m, hum, VariantFeatures(vs[k])))
  }

  /** The score match_melody gives one catalog entry scored with features f and
      learned variants vs: the multi-feature score when there are no variants;
      otherwise never below it, and never 1.05 or more. */
  function SongScore(m: MathLib, hum: FeatureSet, f: FeatureSet, vs: seq<Variant>): (s: Scored)
    requires Lawful(m)
    ensures vs == [] ==> s == Scored(MultiFeatureSimilarity(m, hum, f), Original)
    ensures MultiFeatureSimilarity(m, hum, f) <= s.best < 1.05
  {
    var base := MultiFeatureSimilarity(m, hum, f);
    if vs == [] then Scored(base, Original)
    else
      var sims := VariantSims(m, hum, vs);
      var vscore := VariantScore(sims);
      var scBase := CensSimilarity(m, hum, f);
      var scVar := Sum(VariantCensSims(m, hum, vs)) / MaxInt(1, |vs|) as real;
      Decide(m, base, vscore, scVar - scBase, |sims|)
  }

  lemma BoostedBelow(vscore: real, boost: real)
    requires 0.0 < boost < 1.05
    ensures 0.0 <= vscore <= 1.0 ==> vscore * boost < 1.05
  {
    if 0.0 <= vscore <= 1.0 {
      assert vscore * boost <= 1.0 * boost;
    }
  }

  /** Without a boost, learned variants can at most bring an entry up to the
      better of its original score and its aggregated variant score. */
  lemma UnboostedScoreIsMax(m: MathLib, hum: FeatureSet, f: FeatureSet, vs: seq<Variant>)
    requires Lawful(m) && vs != []
    requires VariantScore(VariantSims(m, hum, vs)) < VariantGoodThreshold
    ensures SongScore(m, hum, f, vs).best ==
      Max(MultiFeatureSimilarity(m, hum, f), VariantScore(VariantSims(m, hum, vs)))
  {
  }
}
