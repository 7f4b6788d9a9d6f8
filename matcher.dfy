/** The matcher object: an in-memory song catalog that grows by registration,
    learns variants from user feedback, and answers queries. Feature
    extraction from audio happens before these operations are called: each
    takes the extracted feature dictionary, or None when extraction failed. */
module Matcher {
  import opened Numerics
  import opened Features
  import opened Similarity
  import opened VariantScoring
  import opened Ranking

  /** The fewest pitch frames a song needs to be registered. */
  const MinSongPitches: nat := 10
  /** The fewest pitch frames a query needs to be matched. */
  const MinQueryPitches: nat := 5

  datatype AddResult = Added(songId: string) | CouldNotExtract

  datatype FeedbackResult = FeedbackRecorded(variantCount: nat) | FeedbackUnreadable | SongNotInDatabase

  datatype MatchResponse = TooShort | Matches(matches: seq<MatchResult>, melodyLength: nat)

  class MelodyMatcher {
    /** The catalog, by song id. */
    var songs: map<string, SongRecord>
    /** The catalog's ids in insertion order, the order in which a Python dict
        iterates (and so the order the stable sort keeps among equal scores). */
    var order: seq<string>

    ghost predicate Valid()
      reads this
    {
      && (forall id :: id in songs <==> id in order)
      && (forall i, j :: 0 <= i < j < |order| ==> order[i] != order[j])
    }

    /** An empty catalog. */
    constructor ()
      ensures Valid() && songs == map[] && order == []
    {
      songs := map[];
      order := [];
    }

    /** add_song: registration fails, leaving the catalog as it was, unless
        extraction produced at least ten pitch frames; otherwise the entry under
        id becomes a fresh record (replacing any earlier one, learned variants
        included) that keeps an existing id's place in the order and puts a new
        id last. */
    method AddSong(id: string, title: string, artist: string, extracted: Option<FeatureSet>) returns (r: AddResult)
      requires Valid()
      modifies this
      ensures Valid()
      ensures extracted.None? || |extracted.value.pitchMidi| < MinSongPitches ==>
        r == CouldNotExtract && songs == old(songs) && order == old(order)
      ensures extracted.Some? && |extracted.value.pitchMidi| >= MinSongPitches ==>
        && r == Added(id)
        && songs == old(songs)[id := SongRecord(title, artist, extracted, Some(extracted.value.pitchMidi), [])]
        && order == (if id in old(songs) then old(order) else old(order) + [id])
    {
      if extracted.None? || |extracted.value.pitchMidi| < MinSongPitches {
        return CouldNotExtract;
      }
      var F := extracted.value;
      if id !in songs {
        order := order + [id];
      }
      songs := songs[id := SongRecord(title, artist, Some(F), Some(F.pitchMidi), [])];
      r := Added(id);
    }

    /** The feedback route: an unreadable recording or an unknown id changes
        nothing; otherwise the recording's features join the song's variants and
        the new number of variants is returned. */
    method Feedback(id: string, extracted: Option<FeatureSet>) returns (r: FeedbackResult)
      requires Valid()
      modifies this
      ensures Valid() && order == old(order)
      ensures extracted.None? ==> r == FeedbackUnreadable && songs == old(songs)
      ensures extracted.Some? && id !in old(songs) ==> r == SongNotInDatabase && songs == old(songs)
      ensures extracted.Some? && id in old(songs) ==>
        var rec := old(songs)[id];
        && r == FeedbackRecorded(|rec.variants| + 1)
        && songs == old(songs)[id := rec.(variants := rec.variants + [Recorded(extracted.value)])]
    {
      if extracted.None? {
        return FeedbackUnreadable;
      }
      if id !in songs {
        return SongNotInDatabase;
      }
      var rec := songs[id];
      songs := songs[id := rec.(variants := rec.variants + [Recorded(extracted.value)])];
      r := FeedbackRecorded(|songs[id].variants|);
    }

    /** match_melody: a query without features or with fewer than five pitch
        frames is rejected; otherwise the response holds the ranked match list
        and the query's number of pitch frames. */
    method MatchMelody(m: MathLib, hum: Option<FeatureSet>, topK: int) returns (r: MatchResponse)
      requires Valid() && Lawful(m)
      ensures hum.None? || |hum.value.pitchMidi| < MinQueryPitches ==> r == TooShort
      ensures hum.Some? && |hum.value.pitchMidi| >= MinQueryPitches ==>
        r == Matches(Rank(m, hum.value, songs, order, topK), |hum.value.pitchMidi|)
    {
      if hum.None? || |hum.value.pitchMidi| < MinQueryPitches {
        return TooShort;
      }
      var humF := hum.value;
      var results := ScoreCatalog(m, humF);
      results := SortByRawDesc(results);
      results := BreakTopTie(m, humF, results);
      results := ApplyPitchGate(m, humF, results);
      results := NoteConfidence(results);
      r := Matches(TakeTop(results, topK), |humF.pitchMidi|);
    }

    /** The scoring loop of match_melody: one result per catalog entry that has
        features or a melody, in catalog order. */
    method ScoreCatalog(m: MathLib, humF: FeatureSet) returns (results: seq<MatchResult>)
      requires Valid() && Lawful(m)
      ensures results == Candidates(m, humF, songs, order)
    {
      results := ScoreIds(m, humF, songs, order);
    }

    /** The scoring loop over the ids in the given order. */
    static method ScoreIds(m: MathLib, humF: FeatureSet, songs: map<string, SongRecord>, ids: seq<string>)
      returns (results: seq<MatchResult>)
      requires Lawful(m)
      requires forall k :: 0 <= k < |ids| ==> ids[k] in songs
      ensures results == Present(Entries(m, humF, songs, ids), |ids|)
    {
      ghost var es := Entries(m, humF, songs, ids);
      results := [];
      for i := 0 to |ids|
        invariant results == Present(es, i)
      {
        var id := ids[i];
        var e := ScoreEntry(m, humF, id, songs[id]);
        PresentSnoc(es, i, e);
        results := results + (if e.Some? then [e.value] else []);
      }
    }

    /** One pass of the scoring loop: an entry with neither features nor a
        melody is skipped; otherwise it is scored with its features, or with the
        fallback built from its melody, together with its learned variants. */
    static method ScoreEntry(m: MathLib, humF: FeatureSet, id: string, sd: SongRecord) returns (e: Option<MatchResult>)
      requires Lawful(m)
      ensures e == EntryResult(m, humF, id, sd)
    {
      if sd.features.None? && sd.melody.None? {
        return None;
      }
      var songF := if sd.features.Some? then sd.features.value else FromPitches(sd.melody.value);
      var score := SongScore(m, humF, songF, sd.variants);
      e := Some(ResultFor(id, sd, score));
    }

    /** The near-tie break of match_melody on the sorted results: harmony first,
        then, only when the harmony did not swap, tempo. */
    method BreakTopTie(m: MathLib, humF: FeatureSet, sorted: seq<MatchResult>) returns (results: seq<MatchResult>)
      requires Lawful(m)
      ensures results == BreakNearTie(m, humF, songs, sorted)
    {
      results := sorted;
      if |results| >= 2 && results[0].similarityRaw - results[1].similarityRaw < NearTieGap {
        var s0 := FeaturesOf(songs, results[0].songId);
        var s1 := FeaturesOf(songs, results[1].songId);
        if s0.Some? && s1.Some? {
          assert NearTie(songs, sorted);
          var c0 := CensSimilarity(m, humF, s0.value);
          var c1 := CensSimilarity(m, humF, s1.value);
          var swapped := false;
          if c1 > c0 + CensTieMargin {
            assert HarmonyPrefersSecond(m, humF, songs, sorted);
            results := Swap(results, 0, 1);
            swapped := true;
          }
          if !swapped && Abs(results[0].similarityRaw - results[1].similarityRaw) < TempoTieGap {
            var tc0, tc1 := TempoCost(humF, s0.value), TempoCost(humF, s1.value);
            if tc1 + TempoTieMargin < tc0 {
              assert TempoPrefersSecond(humF, songs, sorted);
              results := Swap(results, 0, 1);
            }
          }
        }
      }
    }

    /** The top-1 pitch gate of match_melody: a scan from the second place for
        the first result that clears the gate, stopping at the first one. */
    method ApplyPitchGate(m: MathLib, humF: FeatureSet, tied: seq<MatchResult>) returns (results: seq<MatchResult>)
      requires Lawful(m)
      ensures results == PitchGate(m, humF, songs, tied)
    {
      results := tied;
      if |results| > 0 {
        var topFeat := FeaturesOf(songs, results[0].songId);
        if topFeat.Some? && PitchSimilarity(m, humF, topFeat.value) < PitchGateTop1 {
          for i := 1 to |results|
            invariant results == tied
            invariant FirstClearing(m, humF, songs, tied, 1) == FirstClearing(m, humF, songs, tied, i)
          {
            var fi := FeaturesOf(songs, results[i].songId);
            if fi.Some? && PitchSimilarity(m, humF, fi.value) >= PitchGateTop1 {
              results := Swap(results, 0, i);
              break;
            }
          }
        }
      }
    }
  }

  /** The confidence gating of match_melody: the winner gets the note unless it
      reaches MIN_ABS_SCORE and leads the runner-up by TOP2_MARGIN. */
  method NoteConfidence(ranked: seq<MatchResult>) returns (results: seq<MatchResult>)
    ensures results == AnnotateConfidence(ranked)
  {
    results := ranked;
    if |results| > 0 {
      var top1 := results[0].similarityRaw;
      var top2 := if |results| > 1 then results[1].similarityRaw else 0.0;
      var margin := top1 - top2;
      var confident := top1 >= MinAbsScore && margin >= Top2Margin;
      if !confident {
        results := results[0 := results[0].(note := Some(LowConfidenceNote))];
      }
    }
  }
}
