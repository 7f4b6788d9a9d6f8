# Melody matcher: scoring and ranking, modelled in Dafny

This project models the decision logic of the hum-to-search matcher in
`backend/python-service/melody_matcher.py`. A hummed query and every catalog
song arrive as feature dictionaries: smoothed MIDI pitches, their intervals, a
normalised rhythm pattern, a tempo, and chroma energy (CENS) frame by frame and
pooled per beat. From these the matcher decides which songs to return and in
what order. The model covers:

- the dynamic-time-warping table of the pure-Python `dtw_distance` (`dtw.dfy`);
- the chroma helpers `beat_sync_matrix` and `best_rotated_cens_cosine` (`chroma.dfy`);
- the four per-feature similarities and their weighted blend `multi_feature_similarity` (`similarity.dfy`);
- the variant aggregation, boost gate, boost cap and margin rule (`variants.dfy`);
- the ranker: scoring every catalog entry, the stable sort, the two-stage near-tie swap, the top-1 pitch gate, the low-confidence note and the top-k cut (`ranking.dfy`);
- the catalog object with `add_song`, the variant append of the feedback route, and `match_melody` (`matcher.dfy`).

`exp`, `tanh` and `sqrt` are not computed. Every member that needs them takes a
`MathLib` value holding the three functions. The predicate `Lawful` states the
only laws the scores rely on:

- `exp(0) = 1`;
- `exp` maps negative numbers into (0, 1);
- `tanh` maps non-negative numbers into [0, 1);
- `sqrt` of a non-negative number is non-negative.

Scores are exact `real`s. A chroma matrix is a sequence of 12-entry frames, so
frame t is column t of the source's (12, T) array. The catalog is a class with
two fields: a map from song id to record, and the ids in insertion order, which
is the order a Python dict iterates. `match_melody` is an imperative method. It
is proved equal to the functional specification `Ranking.Rank`, and the lemmas
state what that specification guarantees.

Where the code does something a reader might not expect, the model follows the
code:

- confidence is `int(min(best, 1.0) * 100)`, a truncation, not a rounding;
- the pitch gate swaps the winner with the first result that clears the gate; it does not move that result to the front;
- the tempo tie-break runs only when the harmony tie-break did not swap;
- both tie-breaks and the pitch gate look only at stored `features`, never at the melody fallback;
- the global chroma cosine averages only the first T = min(T_A, T_B) frames of each side;
- registering an existing id again replaces the whole record, learned variants included, and keeps the id's place in the iteration order.

## Model

| member | source | states |
|---|---|---|
| Alignment.Dtw | backend/python-service/melody_matcher.py:61-76 | the distance is +inf exactly when either sequence is empty, and any finite distance is non-negative |
| Alignment.CellShape | backend/python-service/melody_matcher.py:70-75 | the table is +inf exactly on row 0 and column 0 away from D[0,0], and every finite cell is non-negative |
| Alignment.DtwDistance | backend/python-service/melody_matcher.py:61-76 | the nested loops filling the (n+1)x(m+1) array return exactly the recurrence's D[n,m] (or +inf for an empty input) |
| Alignment.DtwSelf | backend/python-service/melody_matcher.py:61-76 | a non-empty sequence aligned with itself costs 0, because the diagonal adds only zero costs |
| Alignment.DtwSymmetric | backend/python-service/melody_matcher.py:61-76 | swapping the two sequences does not change the distance |
| Alignment.DtwAgainstZeros | backend/python-service/melody_matcher.py:306 | warping a sequence against zeros of the same length costs exactly the sum of its absolute values |
| Chroma.RotMax | backend/python-service/melody_matcher.py:120-123 | the running max started at -1.0 bounds every rotation tried and equals -1.0 or one of them |
| Chroma.BestRotatedCensCosine | backend/python-service/melody_matcher.py:103-124 | 0.5 when either matrix is empty; otherwise the clamped best rotated cosine, always in [0, 1] |
| Chroma.NormalizeRoll | backend/python-service/melody_matcher.py:118-119 | normalising commutes with rotating the pitch classes, since the norm is rotation invariant |
| Chroma.BestRotatedDotRoll | backend/python-service/melody_matcher.py:120-123 | rotating b first does not change the best dot product over the 12 rotations |
| Chroma.BestRotatedCensCosineTranspose | backend/python-service/melody_matcher.py:103-124 | transposing the second matrix to any key leaves the global key-invariant cosine unchanged |
| Chroma.BeatSyncMatrix | backend/python-service/melody_matcher.py:88-101 | the matrix itself when it or the beat list is empty or there is only one beat; otherwise one pooled frame per consecutive beat pair, from the slice or else the single start frame |
| Chroma.PoolSegmentWithin | backend/python-service/melody_matcher.py:94-98 | a pooled frame stays within the bounds of the frames it pools |
| Features.Diff | backend/python-service/melody_matcher.py:383 | numpy.diff: one fewer element, and each difference bridges consecutive pitches |
| Features.FromPitches | backend/python-service/melody_matcher.py:381-389 | the old-format fallback keeps the pitch list, has one interval fewer than pitches (none below two), each bridging consecutive pitches, and empty rhythm, chroma and beat chroma with tempo 0.0 |
| Features.VariantFeatures | backend/python-service/melody_matcher.py:405-413 | a recorded variant is scored with its own features; a bare pitch list with the same fallback: its pitches, their successive differences as intervals (one fewer), every other signal empty and tempo 0.0 |
| Features.ScoringFeatures | backend/python-service/melody_matcher.py:375-389 | an entry is skipped exactly when it has neither features nor melody; stored features are used when present, else exactly FromPitches of the melody |
| Similarity.PitchSimilarity | backend/python-service/melody_matcher.py:234-241 | 0 with fewer than four intervals on either side; otherwise in (0, 1], and 1 exactly when the interval sequences align at zero cost |
| Similarity.RhythmSimilarity | backend/python-service/melody_matcher.py:243-250 | 0.5 with fewer than two onset gaps on either side; otherwise in (0, 1], and 1 exactly when the patterns align at zero cost |
| Similarity.RelativeTempoDiff | backend/python-service/melody_matcher.py:260 | the relative difference is non-negative and 0 exactly when t1 equals t2 times k |
| Similarity.OctaveTempoDiff | backend/python-service/melody_matcher.py:258-261 | the running minimum starting at 1.0: it is 1.0 or one of the three relative differences, at most each of them, in [0, 1], and 0 exactly when the tempi are equal up to a factor 2 either way |
| Similarity.TempoSimilarity | backend/python-service/melody_matcher.py:252-262 | 0.5 when either tempo is not positive; always in (0, 1]; 1 exactly for octave-equivalent tempi |
| Similarity.TempoCost | backend/python-service/melody_matcher.py:494-503 | the tie-break cost is 1.0 for an unknown tempo, lies in [0, 1], and is 0 exactly for octave-equivalent tempi |
| Similarity.PerBeatDistances | backend/python-service/melody_matcher.py:284-297 | one rotated cosine distance per beat of the shorter beat-pooled matrix |
| Similarity.BeatSyncSimilarity | backend/python-service/melody_matcher.py:299-308 | 0.5 when either beat-pooled matrix is empty; otherwise in (0, 1] |
| Similarity.CensSimilarity | backend/python-service/melody_matcher.py:264-311 | the harmony score lies in [0, 1], and is 0.5 when the query has no chroma at all |
| Similarity.MultiFeatureSimilarity | backend/python-service/melody_matcher.py:313-321 | the weighted blend with weights summing to 1 lies in [0, 1] |
| Similarity.SelfSimilarity | backend/python-service/melody_matcher.py:234-250 | a recording compared with itself gets full pitch and rhythm marks once it has enough intervals and onset gaps |
| Similarity.PitchRhythmSymmetric | backend/python-service/melody_matcher.py:234-250 | the pitch and rhythm scores do not depend on which side is the query |
| Similarity.ShortLegacyMelodyHasNoPitchScore | backend/python-service/melody_matcher.py:381-383 | a fallback record built from fewer than five pitches can only earn a pitch score of 0 |
| Similarity.BeatSyncSimilarityIsMeanDistance | backend/python-service/melody_matcher.py:302-308 | the beat-synchronous term equals exp(-4 x mean absolute per-beat distance) |
| Similarity.PerBeatDistancesTranspose | backend/python-service/melody_matcher.py:284-297 | the per-beat distances do not change when the second matrix is transposed |
| Similarity.BeatSyncSimilarityTranspose | backend/python-service/melody_matcher.py:299-308 | transposing the song leaves the beat-synchronous term unchanged |
| Similarity.CensSimilarityTranspose | backend/python-service/melody_matcher.py:264-311 | singing the song in any other key leaves the harmony score unchanged |
| Similarity.MultiFeatureSimilarityTranspose | backend/python-service/melody_matcher.py:313-321 | transposing the song leaves the whole blended score unchanged |
| Similarity.NoPitchEvidenceCapsScore | backend/python-service/melody_matcher.py:313-321 | without pitch evidence the blend cannot exceed 0.55, below the 0.65 a confident winner needs |
| VariantScoring.SimpleAverage | backend/python-service/melody_matcher.py:324-329 | 0.0 for no scores; otherwise the mean, between the smallest and the largest score |
| VariantScoring.MinRequiredGood | backend/python-service/melody_matcher.py:337-342 | the required good count is at least 1 and never more than the number of variants |
| VariantScoring.GoodScores | backend/python-service/melody_matcher.py:335 | the scores at or above 0.80, in order, each kept exactly as often as it occurs, and no other score |
| VariantScoring.ConsensusScore | backend/python-service/melody_matcher.py:331-349 | 0.0 for no scores; always between the smallest and largest score; the plain mean when too few are good; otherwise the mean of the good scores only, which is itself good (at least 0.80) |
| VariantScoring.ConsensusIgnoresOutlier | backend/python-service/melody_matcher.py:331-349 | [0.9, 0.9, 0.1] scores 0.9 |
| VariantScoring.ConsensusFallsBackToMean | backend/python-service/melody_matcher.py:331-349 | [0.9, 0.1, 0.1] falls back to the full mean 1.1/3 |
| VariantScoring.VariantScore | backend/python-service/melody_matcher.py:416 | the configured (consensus) aggregate lies between the smallest and largest variant score, hence in [0, 1] |
| VariantScoring.BoostMultiplier | backend/python-service/melody_matcher.py:438-439 | the multiplier lies in [1.02, 1.05), so the 1.10 cap never binds |
| VariantScoring.Decide | backend/python-service/melody_matcher.py:434-462 | best is never below base; the variant path wins exactly when best exceeds base; an allowed boost that beats base + 0.02 wins with vscore·boost, and one that does not collapses to base as "original"; without a boost best is max(base, vscore); best stays below 1.05 |
| VariantScoring.VariantValue | backend/python-service/melody_matcher.py:436-451 | without a boost the variant path is vscore; with one it is vscore·boost when that beats base + 0.02, and exactly base otherwise |
| VariantScoring.VariantSims | backend/python-service/melody_matcher.py:403-414 | one blended score per variant, in order, each in [0, 1] |
| VariantScoring.VariantCensSims | backend/python-service/melody_matcher.py:419-430 | one harmony score per variant, each in [0, 1] |
| VariantScoring.SongScore | backend/python-service/melody_matcher.py:391-462 | without variants the entry scores its blended similarity as "original"; otherwise never below it and never 1.05 or more |
| VariantScoring.UnboostedScoreIsMax | backend/python-service/melody_matcher.py:450-462 | a weak variant score means no boost, and the entry scores max(base, vscore) |
| Ranking.ResultFor | backend/python-service/melody_matcher.py:465-474 | the displayed similarity is min(best, 1.0); confidence is that capped score times 100 truncated toward zero, so in [0, 100] and 100 exactly when the score reaches 1 |
| Ranking.EntryResult | backend/python-service/melody_matcher.py:374-474 | an entry yields a result exactly when it has features or a melody, under its own id, without a note, with raw score in [0, 1.05) |
| Ranking.PresentExactly | backend/python-service/melody_matcher.py:373-376 | the collected results are exactly the present entry outcomes |
| Ranking.Candidates | backend/python-service/melody_matcher.py:373-474 | the scoring loop yields at most one result per catalog entry, so never more results than entries |
| Ranking.CandidatesAreTheUsableEntries | backend/python-service/melody_matcher.py:373-474 | an id has a result exactly when its entry can be scored, and every result is its own entry's scored result |
| Ranking.InsertDescSorted | backend/python-service/melody_matcher.py:477 | inserting into a descending list keeps it descending |
| Ranking.SortByRawDesc | backend/python-service/melody_matcher.py:477 | the sort is a permutation and leaves raw scores non-increasing |
| Ranking.Swap | backend/python-service/melody_matcher.py:488 | exchanges two positions, keeps the rest, and is a permutation |
| Ranking.BreakNearTie | backend/python-service/melody_matcher.py:479-506 | the tie-break is a permutation of the results |
| Ranking.NearTieSwapsExactly | backend/python-service/melody_matcher.py:479-506 | only the top two can move; they swap when and only when there is a near-tie with stored features and the harmony, or failing that the tempo, prefers the runner-up |
| Ranking.NearTieKeepsTail | backend/python-service/melody_matcher.py:479-506 | on a sorted list the new leader trails by less than 0.01, and places 3 onward stay below both leaders |
| Ranking.FirstClearing | backend/python-service/melody_matcher.py:517-521 | the scan finds the first position that clears the gate, or reports that none does |
| Ranking.PitchGate | backend/python-service/melody_matcher.py:509-521 | the gate is a permutation of the results |
| Ranking.PitchGatePromotesFirstClearing | backend/python-service/melody_matcher.py:509-521 | a failing winner trades places with the highest-ranked result that clears the gate, which becomes the winner; otherwise nothing moves |
| Ranking.AnnotateConfidence | backend/python-service/melody_matcher.py:524-534 | the note is added to the winner exactly when it is below 0.65 or leads the runner-up (0.0 if none) by less than 0.02; nothing else changes |
| Ranking.TakeTop | backend/python-service/melody_matcher.py:536 | a prefix of length min(top_k, n), or n + top_k (at least 0) for a negative top_k |
| Ranking.Ordered | backend/python-service/melody_matcher.py:477-521 | sorting, tie-break and gate together are a permutation of the scored results |
| Ranking.Rank | backend/python-service/melody_matcher.py:368-536 | at most top_k matches, and never more than the catalog has songs |
| Ranking.IdentifyShowsTopFive | backend/python-service/melody_matcher.py:555 | the identify route, asking for SHOW_TOP_K = 5, gets the first min(5, scored entries) of the annotated ordered list |
| Ranking.RankedResultsAreScored | backend/python-service/melody_matcher.py:465-536 | every returned match is its entry's scored result up to the note, with raw score in [0, 1.05) and confidence in [0, 100]; an empty catalog gives no matches |
| Matcher.MelodyMatcher.constructor | backend/python-service/melody_matcher.py:130-132 | the matcher starts with an empty, consistent catalog |
| Matcher.MelodyMatcher.AddSong | backend/python-service/melody_matcher.py:352-366 | fewer than ten pitch frames (or no features) fails and changes nothing; otherwise the id maps to a fresh record with its features, its pitch list as melody and no variants, and a new id goes last in the order |
| Matcher.MelodyMatcher.Feedback | backend/python-service/melody_matcher.py:590-600 | unreadable audio or an unknown id changes nothing; otherwise exactly one variant is appended to that song, no other song changes, and the new count is returned |
| Matcher.MelodyMatcher.MatchMelody | backend/python-service/melody_matcher.py:368-536 | a query without features or with fewer than five pitches is rejected; otherwise the response is Rank's match list and the query's pitch count |
| Matcher.MelodyMatcher.ScoreCatalog | backend/python-service/melody_matcher.py:373-474 | scoring the catalog in its iteration order yields exactly the candidate list of the specification |
| Matcher.MelodyMatcher.ScoreIds | backend/python-service/melody_matcher.py:373-474 | the scoring loop collects exactly the present entry results, in catalog order |
| Matcher.MelodyMatcher.ScoreEntry | backend/python-service/melody_matcher.py:375-474 | one pass of the loop computes its entry's result, or skips it |
| Matcher.MelodyMatcher.BreakTopTie | backend/python-service/melody_matcher.py:479-506 | the in-place swaps with the swapped flag compute BreakNearTie |
| Matcher.MelodyMatcher.ApplyPitchGate | backend/python-service/melody_matcher.py:509-521 | the scan from place 2 with break computes PitchGate |
| Matcher.NoteConfidence | backend/python-service/melody_matcher.py:524-534 | writing the note into results[0] computes AnnotateConfidence |

## Left out

- Feature extraction (`extract_melody_features`, `hz_to_midi`): CREPE and librosa calls on audio. Feature sets are inputs, and `None` stands for a failed extraction.
- The `dtaidistance` branch of `dtw_distance`: a foreign C library. Only the Python fallback table is modelled.
- `cosine_sim`: nothing in the matcher calls it.
- JSON persistence (`load_database`, `save_database`) and loading the catalog at construction: the constructor starts empty. The Flask routes, temporary files and `print` logging are also left out.
- Floating point: NaN handling by `nan_to_num`, rounding, and the actual values of `exp`, `tanh` and `sqrt`. Scores are exact reals and these functions are abstract under `Lawful`.
- The stored-record shapes that JSON allows but registration never writes are not modelled:
  - a `features` or `melody` key holding null or an empty value (the model's `None` means absent);
  - records without a title or artist (`"Unknown"` defaults);
  - matrices stored flat that `as_2d` reshapes.
- A learned variant that is neither a dictionary nor a pitch list is not modelled; the source treats every non-dictionary as a pitch list.
- Chroma.BeatSyncMatrix: requires every beat start to index a frame of a non-empty matrix. A start at or past the last frame gives numpy an empty slice and a NaN mean. Negative starts would count from the end of the matrix; librosa's beat frames are never negative.
- Ranking.SortByRawDesc: does not state the stability of Python's sort. Equal raw scores are kept in insertion order by the definition, but no lemma states it.
- Matcher.MelodyMatcher.Feedback: the source prints the song's title after appending, which fails for a record without a title. Records always carry a title here.
