/** The ranking half of match_melody, as functions of the catalog: score every
    usable entry, sort by raw score (stably, highest first), break a near-tie
    at the top by harmony and then by tempo, make sure the winner has some
    pitch evidence, flag a doubtful winner, and keep the first top_k. */
module Ranking {
  import opened Numerics
  import opened Features
  import opened Similarity
  import opened VariantScoring

  const MinAbsScore: real := 0.65
  const Top2Margin: real := 0.02
  const ShowTopK: int := 5
  const PitchGateTop1: real := 0.12

  /** The raw-score gap under which the top two are a near-tie. */
  const NearTieGap: real := 0.01
  /** How much better the runner-up's harmony score must be to take the lead. */
  const CensTieMargin: real := 0.01
  /** The raw-score gap under which the tempo decides. */
  const TempoTieGap: real := 0.005
  /** How much closer the runner-up's tempo must be to take the lead. */
  const TempoTieMargin: real := 0.01

  const LowConfidenceNote: string := "Low confidence — consider user confirm"

  /** One entry of the response's match list. */
  datatype MatchResult = MatchResult(
    songId: string,
    title: string,
    artist: string,
    similarity: real,     // the score capped at 1.0
    similarityRaw: real,  // the score as computed, which a boost may lift above 1.0
    confidence: int,      // int(min(score, 1.0) * 100)
    matchType: MatchType,
    variantCount: nat,
    note: Option<string>)

  /** The result record for one scored catalog entry: the displayed similarity
      is capped at 1, the confidence is the capped score as a truncated
      percentage, which reaches 100 exactly when the score reaches 1. */
  function ResultFor(id: string, rec: SongRecord, s: Scored): (r: MatchResult)
    ensures r.songId == id && r.title == rec.title && r.artist == rec.artist
    ensures r.similarityRaw == s.best && r.matchType == s.matchType
    ensures r.variantCount == |rec.variants| && r.note.None?
    ensures r.similarity <= 1.0 && (s.best <= 1.0 ==> r.similarity == s.best)
    ensures 1.0 <= s.best ==> r.similarity == 1.0
    ensures 0.0 <= s.best ==> 0 <= r.confidence <= 100
    ensures 0.0 <= s.best ==> r.confidence as real <= r.similarity * 100.0 < r.confidence as real + 1.0
    ensures r.confidence == 100 <==> 1.0 <= s.best
  {
    var capped := Min(s.best, 1.0);
    MatchResult(id, rec.title, rec.artist, capped, s.best, Trunc(capped * 100.0),
                s.matchType, |rec.variants|, None)
  }

  function SongIds(rs: seq<MatchResult>): seq<string> {
    seq(|rs|, k requires 0 <= k < |rs| => rs[k].songId)
  }

  /** The result for one catalog entry; None for an entry with neither
      features nor a melody, which match_melody skips. */
  function EntryResult(m: MathLib, hum: FeatureSet, id: string, rec: SongRecord): (r: Option<MatchResult>)
    requires Lawful(m)
    ensures r.Some? <==> ScoringFeatures(rec).Some?
    ensures r.Some? ==> r.value.songId == id && r.value.note.None?
    ensures r.Some? ==> 0.0 <= r.value.similarityRaw < 1.05 && 0 <= r.value.confidence <= 100
  {
    match ScoringFeatures(rec)
    case None => None
    case Some(f) => Some(ResultFor(id, rec, SongScore(m, hum, f, rec.variants)))
  }

  /** r is the result match_melody computes for its catalog entry. */
  predicate ScoredResult(m: MathLib, hum: FeatureSet, songs: map<string, SongRecord>, r: MatchResult)
    requires Lawful(m)
  {
    r.songId in songs && EntryResult(m, hum, r.songId, songs[r.songId]) == Some(r)
  }

  /** The per-entry results for the catalog entries ids, in catalog order. */
  function Entries(m: MathLib, hum: FeatureSet, songs: map<string, SongRecord>, ids: seq<string>): (es: seq<Option<MatchResult>>)
    requires Lawful(m)
    requires forall k :: 0 <= k < |ids| ==> ids[k] in songs
    ensures |es| == |ids|
    ensures forall k :: 0 <= k < |ids| ==> es[k] == EntryResult(m, hum, ids[k], songs[ids[k]])
  {
    seq(|ids|, k requires 0 <= k < |ids| => EntryResult(m, hum, ids[k], songs[ids[k]]))
  }

  /** The results present among the first n entries, in order. */
  function Present(es: seq<Option<MatchResult>>, n: nat): (rs: seq<MatchResult>)
    requires n <= |es|
    ensures |rs| <= n
  {
    if n == 0 then []
    else Present(es, n - 1) + (if es[n - 1].Some? then [es[n - 1].value] else [])
  }

  /** One more entry adds its result, if it has one, at the end. */
  lemma PresentSnoc(es: seq<Option<MatchResult>>, n: nat, e: Option<MatchResult>)
    requires n < |es| && es[n] == e
    ensures Present(es, n + 1) == Present(es, n) + (if e.Some? then [e.value] else [])
  {
  }

  /** Every result present comes from one of the first n entries, and every
      such entry's result is present. */
  lemma {:induction false} PresentExactly(es: seq<Option<MatchResult>>, n: nat)
    requires n <= |es|
    ensures forall r :: r in Present(es, n) ==> exists k :: 0 <= k < n && es[k] == Some(r)
    ensures forall k :: 0 <= k < n && es[k].Some? ==> es[k].value in Present(es, n)
  {
    if n > 0 {
      PresentExactly(es, n - 1);
    }
  }

  /** The unsorted result list of match_melody: one result per catalog entry
      that has features or a melody, in catalog order. */
  function Candidates(m: MathLib, hum: FeatureSet, songs: map<string, SongRecord>, ids: seq<string>): (rs: seq<MatchResult>)
    requires Lawful(m)
    requires forall k :: 0 <= k < |ids| ==> ids[k] in songs
    ensures |rs| <= |ids|
  {
    Present(Entries(m, hum, songs, ids), |ids|)
  }

  /** The entries that make it into the result list are exactly those with
      features or a melody to be scored with, and each carries its own entry's
      score. */
  lemma CandidatesAreTheUsableEntries(m: MathLib, hum: FeatureSet, songs: map<string, SongRecord>, ids: seq<string>)
    requires Lawful(m)
    requires forall k :: 0 <= k < |ids| ==> ids[k] in songs
    ensures var C := Candidates(m, hum, songs, ids);
      && (forall k :: 0 <= k < |ids| ==> (ScoringFeatures(songs[ids[k]]).Some? <==> ids[k] in SongIds(C)))
      && (forall r :: r in C ==> ScoredResult(m, hum, songs, r))
  {
    var es := Entries(m, hum, songs, ids);
    PresentExactly(es, |ids|);
    PresentAreScored(m, hum, songs, ids, es);
    UsableArePresent(m, hum, songs, ids, es);
  }

  /** Every candidate is the result of its own catalog entry. */
  lemma PresentAreScored(m: MathLib, hum: FeatureSet, songs: map<string, SongRecord>, ids: seq<string>, es: seq<Option<MatchResult>>)
    requires Lawful(m)
    requires forall k :: 0 <= k < |ids| ==> ids[k] in songs
    requires es == Entries(m, hum, songs, ids)
    requires forall r :: r in Present(es, |ids|) ==> exists k :: 0 <= k < |ids| && es[k] == Some(r)
    ensures forall r :: r in Present(es, |ids|) ==> ScoredResult(m, hum, songs, r)
  {
    forall r | r in Present(es, |ids|)
      ensures ScoredResult(m, hum, songs, r)
    {
      var k :| 0 <= k < |ids| && es[k] == Some(r);
      assert ids[k] == r.songId;
    }
  }

  /** An id has a candidate exactly when its entry can be scored. */
  lemma UsableArePresent(m: MathLib, hum: FeatureSet, songs: map<string, SongRecord>, ids: seq<string>, es: seq<Option<MatchResult>>)
    requires Lawful(m)
    requires forall k :: 0 <= k < |ids| ==> ids[k] in songs
    requires es == Entries(m, hum, songs, ids)
    requires forall r :: r in Present(es, |ids|) ==> exists k :: 0 <= k < |ids| && es[k] == Some(r)
    requires forall k :: 0 <= k < |ids| && es[k].Some? ==> es[k].value in Present(es, |ids|)
    ensures var C := Present(es, |ids|);
      forall k :: 0 <= k < |ids| ==> (ScoringFeatures(songs[ids[k]]).Some? <==> ids[k] in SongIds(C))
  {
    var C := Present(es, |ids|);
    forall k | 0 <= k < |ids|
      ensures ScoringFeatures(songs[ids[k]]).Some? <==> ids[k] in SongIds(C)
    {
      if ScoringFeatures(songs[ids[k]]).Some? {
        var j :| 0 <= j < |C| && C[j] == es[k].value;
        assert SongIds(C)[j] == ids[k];
      }
      if ids[k] in SongIds(C) {
        var j :| 0 <= j < |C| && SongIds(C)[j] == ids[k];
        var k' :| 0 <= k' < |ids| && es[k'] == Some(C[j]);
        assert ids[k'] == ids[k];
      }
    }
  }

  // ---------------------------------------------------------------------------
  // Sorting
  // ---------------------------------------------------------------------------

  predicate SortedDesc(rs: seq<MatchResult>) {
    forall i, j :: 0 <= i < j < |rs| ==> rs[j].similarityRaw <= rs[i].similarityRaw
  }

  /** Inserts x after every element whose raw score is at least its own. */
  function InsertDesc(x: MatchResult, rs: seq<MatchResult>): (r: seq<MatchResult>)
    ensures |r| == |rs| + 1
    ensures multiset(r) == multiset(rs) + multiset{x}
  {
    if rs == [] then [x]
    else if x.similarityRaw <= rs[0].similarityRaw then
      assert rs == [rs[0]] + rs[1..];
      [rs[0]] + InsertDesc(x, rs[1..])
    else [x] + rs
  }

  /** Insertion into a sorted list keeps it sorted, and nothing in the result
      is above both x and the old head. */
  lemma {:induction false} InsertDescSorted(x: MatchResult, rs: seq<MatchResult>)
    requires SortedDesc(rs)
    ensures SortedDesc(InsertDesc(x, rs))
    ensures rs != [] ==> forall k :: 0 <= k < |rs| + 1 ==>
      InsertDesc(x, rs)[k].similarityRaw <= Max(x.similarityRaw, rs[0].similarityRaw)
  {
    if rs != [] && x.similarityRaw <= rs[0].similarityRaw {
      var rest := rs[1..];
      InsertDescSorted(x, rest);
      var tail := InsertDesc(x, rest);
      assert InsertDesc(x, rs) == [rs[0]] + tail;
      if rest == [] {
        assert tail == [x];
      } else {
        assert rest[0].similarityRaw <= rs[0].similarityRaw;
      }
      SortedCons(rs[0], tail);
    }
  }

  /** A sorted list stays sorted under a head at least as high as its
      elements. */
  lemma SortedCons(h: MatchResult, t: seq<MatchResult>)
    requires SortedDesc(t)
    requires forall k :: 0 <= k < |t| ==> t[k].similarityRaw <= h.similarityRaw
    ensures SortedDesc([h] + t)
  {
  }

  /** results.sort(key=similarity_raw, reverse=True): a stable sort, highest
      raw score first, that keeps every result. */
  function SortByRawDesc(rs: seq<MatchResult>): (r: seq<MatchResult>)
    ensures multiset(r) == multiset(rs)
    ensures SortedDesc(r)
  {
    if rs == [] then []
    else
      var init := rs[..|rs| - 1];
      var last := rs[|rs| - 1];
      assert rs == init + [last];
      var sortedInit := SortByRawDesc(init);
      InsertDescSorted(last, sortedInit);
      InsertDesc(last, sortedInit)
  }

  /** results[i], results[j] = results[j], results[i] */
  function Swap(rs: seq<MatchResult>, i: nat, j: nat): (r: seq<MatchResult>)
    requires i < |rs| && j < |rs|
    ensures |r| == |rs| && r[i] == rs[j] && r[j] == rs[i]
    ensures forall k :: 0 <= k < |rs| && k != i && k != j ==> r[k] == rs[k]
    ensures multiset(r) == multiset(rs)
  {
    rs[i := rs[j]][j := rs[i]]
  }

  // ---------------------------------------------------------------------------
  // Near-tie break
  // ---------------------------------------------------------------------------

  /** The stored features of a catalog entry (the tie-break and the pitch gate
      do not use the melody fallback). */
  function FeaturesOf(songs: map<string, SongRecord>, id: string): Option<FeatureSet> {
    if id in songs then songs[id].features else None
  }

  /** The top two are within the near-tie gap and both have stored features. */
  predicate NearTie(songs: map<string, SongRecord>, rs: seq<MatchResult>) {
    && |rs| >= 2
    && rs[0].similarityRaw - rs[1].similarityRaw < NearTieGap
    && FeaturesOf(songs, rs[0].songId).Some?
    && FeaturesOf(songs, rs[1].songId).Some?
  }

  /** The runner-up's harmony score beats the leader's by the margin. */
  predicate HarmonyPrefersSecond(m: MathLib, hum: FeatureSet, songs: map<string, SongRecord>, rs: seq<MatchResult>)
    requires Lawful(m) && NearTie(songs, rs)
  {
    CensSimilarity(m, hum, FeaturesOf(songs, rs[1].songId).value)
      > CensSimilarity(m, hum, FeaturesOf(songs, rs[0].songId).value) + CensTieMargin
  }

  /** The raw scores are within the tempo window and the runner-up's tempo is
      closer by the margin. */
  predicate TempoPrefersSecond(hum: FeatureSet, songs: map<string, SongRecord>, rs: seq<MatchResult>)
    requires NearTie(songs, rs)
  {
    && Abs(rs[0].similarityRaw - rs[1].similarityRaw) < TempoTieGap
    && TempoCost(hum, FeaturesOf(songs, rs[1].songId).value) + TempoTieMargin
         < TempoCost(hum, FeaturesOf(songs, rs[0].songId).value)
  }

  /** The near-tie cascade: on a near-tie, swap the top two when the harmony
      prefers the runner-up, and otherwise when the tempo does. */
  function BreakNearTie(m: MathLib, hum: FeatureSet, songs: map<string, SongRecord>, rs: seq<MatchResult>): (r: seq<MatchResult>)
    requires Lawful(m)
    ensures multiset(r) == multiset(rs)
  {
    if NearTie(songs, rs) && (HarmonyPrefersSecond(m, hum, songs, rs) || TempoPrefersSecond(hum, songs, rs)) then
      Swap(rs, 0, 1)
    else rs
  }

  /** The tie-break changes nothing but the order of the top two, and only on a
      near-tie where the harmony or, failing that, the tempo prefers the
      runner-up; conversely each of those cases does swap them. */
  lemma NearTieSwapsExactly(m: MathLib, hum: FeatureSet, songs: map<string, SongRecord>, rs: seq<MatchResult>)
    requires Lawful(m)
    ensures var r := BreakNearTie(m, hum, songs, rs);
      |r| == |rs| && forall k :: 2 <= k < |rs| ==> r[k] == rs[k]
    ensures BreakNearTie(m, hum, songs, rs) != rs ==>
      NearTie(songs, rs) && (HarmonyPrefersSecond(m, hum, songs, rs) || TempoPrefersSecond(hum, songs, rs))
    ensures NearTie(songs, rs) && HarmonyPrefersSecond(m, hum, songs, rs) ==>
      BreakNearTie(m, hum, songs, rs) == Swap(rs, 0, 1)
    ensures NearTie(songs, rs) && !HarmonyPrefersSecond(m, hum, songs, rs) && TempoPrefersSecond(hum, songs, rs) ==>
      BreakNearTie(m, hum, songs, rs) == Swap(rs, 0, 1)
  {
  }

  /** A swap by the tie-break keeps a sorted list sorted from the third place
      on, and the new leader trails the old one by less than the near-tie gap. */
  lemma NearTieKeepsTail(m: MathLib, hum: FeatureSet, songs: map<string, SongRecord>, rs: seq<MatchResult>)
    requires Lawful(m) && SortedDesc(rs)
    ensures var r := BreakNearTie(m, hum, songs, rs);
      (|r| >= 2 ==> r[1].similarityRaw - r[0].similarityRaw < NearTieGap)
      && forall i, j :: 0 <= i < 2 <= j < |r| ==> r[j].similarityRaw <= r[i].similarityRaw
  {
  }

  // ---------------------------------------------------------------------------
  // Pitch gate
  // ---------------------------------------------------------------------------

  /** The result's entry has stored features and its pitch score reaches the
      gate. */
  predicate ClearsGate(m: MathLib, hum: FeatureSet, songs: map<string, SongRecord>, r: MatchResult)
    requires Lawful(m)
  {
    var f := FeaturesOf(songs, r.songId);
    f.Some? && PitchSimilarity(m, hum, f.value) >= PitchGateTop1
  }

  /** The first position from i on whose result clears the gate. */
  function FirstClearing(m: MathLib, hum: FeatureSet, songs: map<string, SongRecord>, rs: seq<MatchResult>, i: nat): (k: Option<nat>)
    requires Lawful(m)
    ensures k.Some? ==> i <= k.value < |rs| && ClearsGate(m, hum, songs, rs[k.value])
    ensures k.Some? ==> forall j :: i <= j < k.value ==> !ClearsGate(m, hum, songs, rs[j])
    ensures k.None? ==> forall j :: i <= j < |rs| ==> !ClearsGate(m, hum, songs, rs[j])
    decreases |rs| - i
  {
    if i >= |rs| then None
    else if ClearsGate(m, hum, songs, rs[i]) then Some(i)
    else FirstClearing(m, hum, songs, rs, i + 1)
  }

  /** The winner has stored features and fails the gate. */
  predicate TopFailsGate(m: MathLib, hum: FeatureSet, songs: map<string, SongRecord>, rs: seq<MatchResult>)
    requires Lawful(m)
  {
    && rs != []
    && var f := FeaturesOf(songs, rs[0].songId);
    && f.Some? && PitchSimilarity(m, hum, f.value) < PitchGateTop1
  }

  /** The top-1 pitch gate: a winner with stored features but too little pitch
      evidence trades places with the highest-ranked result that clears the
      gate, if any. */
  function PitchGate(m: MathLib, hum: FeatureSet, songs: map<string, SongRecord>, rs: seq<MatchResult>): (r: seq<MatchResult>)
    requires Lawful(m)
    ensures multiset(r) == multiset(rs)
  {
    if TopFailsGate(m, hum, songs, rs) then
      match FirstClearing(m, hum, songs, rs, 1)
      case Some(k) => Swap(rs, 0, k)
      case None => rs
    else rs
  }

  /** What the gate achieves: when the winner fails it and some later result
      clears it, the new winner clears it, it is the highest-ranked such result,
      and the old winner takes its place; otherwise nothing moves. */
  lemma PitchGatePromotesFirstClearing(m: MathLib, hum: FeatureSet, songs: map<string, SongRecord>, rs: seq<MatchResult>)
    requires Lawful(m)
    ensures var r := PitchGate(m, hum, songs, rs);
      TopFailsGate(m, hum, songs, rs) && (exists j :: 1 <= j < |rs| && ClearsGate(m, hum, songs, rs[j])) ==>
        ClearsGate(m, hum, songs, r[0])
        && (exists k :: 1 <= k < |rs| && r == Swap(rs, 0, k)
              && (forall j :: 1 <= j < k ==> !ClearsGate(m, hum, songs, rs[j])))
    ensures !TopFailsGate(m, hum, songs, rs) ==> PitchGate(m, hum, songs, rs) == rs
    ensures (forall j :: 1 <= j < |rs| ==> !ClearsGate(m, hum, songs, rs[j])) ==> PitchGate(m, hum, songs, rs) == rs
  {
    if TopFailsGate(m, hum, songs, rs) && (exists j :: 1 <= j < |rs| && ClearsGate(m, hum, songs, rs[j])) {
      var k := FirstClearing(m, hum, songs, rs, 1).value;
      assert PitchGate(m, hum, songs, rs) == Swap(rs, 0, k);
    }
  }

  // ---------------------------------------------------------------------------
  // Confidence note and truncation
  // ---------------------------------------------------------------------------

  /** The winner reaches MIN_ABS_SCORE and leads the runner-up (0.0 when there
      is none) by TOP2_MARGIN. */
  predicate Confident(rs: seq<MatchResult>)
    requires rs != []
  {
    var top1 := rs[0].similarityRaw;
    var top2 := if |rs| > 1 then rs[1].similarityRaw else 0.0;
    top1 >= MinAbsScore && top1 - top2 >= Top2Margin
  }

  /** Adds the low-confidence note to a doubtful winner and changes nothing
      else. */
  function AnnotateConfidence(rs: seq<MatchResult>): (r: seq<MatchResult>)
    ensures |r| == |rs|
    ensures forall k :: 0 < k < |rs| ==> r[k] == rs[k]
    ensures rs != [] ==> r[0] == rs[0].(note := r[0].note)
    ensures rs != [] && !Confident(rs) ==> r[0].note == Some(LowConfidenceNote)
    ensures rs == [] || Confident(rs) ==> r == rs
  {
    if rs != [] && !Confident(rs) then rs[0 := rs[0].(note := Some(LowConfidenceNote))] else rs
  }

  /** Python's results[:top_k], negative top_k counting from the end. */
  function TakeTop(rs: seq<MatchResult>, topK: int): (r: seq<MatchResult>)
    ensures |r| <= |rs| && r == rs[..|r|]
    ensures 0 <= topK ==> |r| == MinInt(topK, |rs|)
    ensures topK < 0 ==> |r| == MaxInt(0, |rs| + topK)
  {
    if 0 <= topK then rs[..MinInt(topK, |rs|)] else rs[..MaxInt(0, |rs| + topK)]
  }

  /** The ordered list before the note and the truncation. */
  function Ordered(m: MathLib, hum: FeatureSet, songs: map<string, SongRecord>, order: seq<string>): (r: seq<MatchResult>)
    requires Lawful(m)
    requires forall k :: 0 <= k < |order| ==> order[k] in songs
    ensures multiset(r) == multiset(Candidates(m, hum, songs, order))
    ensures |r| == |Candidates(m, hum, songs, order)|
  {
    PitchGate(m, hum, songs, BreakNearTie(m, hum, songs, SortByRawDesc(Candidates(m, hum, songs, order))))
  }

  /** The match list match_melody returns for a query with features hum over
      the catalog entries in order. */
  function Rank(m: MathLib, hum: FeatureSet, songs: map<string, SongRecord>, order: seq<string>, topK: int): (r: seq<MatchResult>)
    requires Lawful(m)
    requires forall k :: 0 <= k < |order| ==> order[k] in songs
    ensures 0 <= topK ==> |r| <= topK
    ensures |r| <= |order|
  {
    TakeTop(AnnotateConfidence(Ordered(m, hum, songs, order)), topK)
  }

  /** Every match in the list is the scored result of a catalog entry, up to the
      note, so its raw score lies in [0, 1.05) and its confidence in [0, 100];
      an empty catalog yields no matches. */
  lemma RankedResultsAreScored(m: MathLib, hum: FeatureSet, songs: map<string, SongRecord>, order: seq<string>, topK: int)
    requires Lawful(m)
    requires forall k :: 0 <= k < |order| ==> order[k] in songs
    ensures order == [] ==> Rank(m, hum, songs, order, topK) == []
    ensures var r := Rank(m, hum, songs, order, topK);
      forall k :: 0 <= k < |r| ==>
        ScoredResult(m, hum, songs, r[k].(note := None))
        && 0.0 <= r[k].similarityRaw < 1.05 && 0 <= r[k].confidence <= 100
  {
    var C := Candidates(m, hum, songs, order);
    var O := Ordered(m, hum, songs, order);
    var A := AnnotateConfidence(O);
    var r := Rank(m, hum, songs, order, topK);
    CandidatesAreTheUsableEntries(m, hum, songs, order);
    forall k | 0 <= k < |r|
      ensures ScoredResult(m, hum, songs, r[k].(note := None))
      ensures 0.0 <= r[k].similarityRaw < 1.05 && 0 <= r[k].confidence <= 100
    {
      assert r[k] == A[k];
      assert O[k] in multiset(C);
      assert ScoredResult(m, hum, songs, O[k]);
      assert A[k].(note := None) == O[k];
    }
  }

  /** The identify route asks for SHOW_TOP_K matches: it gets the five best
      scored entries, or every scored entry when fewer than five can be scored. */
  lemma IdentifyShowsTopFive(m: MathLib, hum: FeatureSet, songs: map<string, SongRecord>, order: seq<string>)
    requires Lawful(m)
    requires forall k :: 0 <= k < |order| ==> order[k] in songs
    ensures |Rank(m, hum, songs, order, ShowTopK)| == MinInt(5, |Candidates(m, hum, songs, order)|)
    ensures Rank(m, hum, songs, order, ShowTopK) ==
      AnnotateConfidence(Ordered(m, hum, songs, order))[..MinInt(5, |Candidates(m, hum, songs, order)|)]
  {
  }
}
