/** The records the matcher works on: the feature dictionary extraction
    produces for one recording, the learned variants of a song, and the stored
    catalog entry, together with the normalisation that turns the oldest storage
    format (a bare list of MIDI pitches) into a feature dictionary. */
module Features {
  import opened Numerics
  import opened Chroma

  datatype Option<+T> = None | Some(value: T)

  /** The feature dictionary of one recording. */
  datatype FeatureSet = FeatureSet(
    pitchMidi: seq<real>,        // smoothed MIDI pitch of every confident frame
    intervals: seq<real>,        // successive differences of pitchMidi
    rhythmPattern: seq<real>,    // onset gaps as fractions of their total
    tempo: real,                 // beats per minute, 0.0 when unknown
    cens: ChromaMatrix,          // chroma energy profile, frame by frame
    censBeatSync: ChromaMatrix)  // the same profile pooled per beat

  /** A learned rendition of a song: a full feature dictionary, or a bare pitch
      list in the oldest format. */
  datatype Variant = Recorded(features: FeatureSet) | LegacyPitches(pitches: seq<real>)

  /** One catalog entry. The oldest entries carry only a melody; entries made by
      registration carry both the features and the melody (its pitch list). */
  datatype SongRecord = SongRecord(
    title: string,
    artist: string,
    features: Option<FeatureSet>,
    melody: Option<seq<real>>,
    variants: seq<Variant>)

  /** numpy.diff on a list of at least two values. */
  function Diff(s: seq<real>): (d: seq<real>)
    requires |s| > 1
    ensures |d| == |s| - 1
    ensures forall k :: 0 <= k < |d| ==> s[k] + d[k] == s[k + 1]
  {
    seq(|s| - 1, k requires 0 <= k < |s| - 1 => s[k + 1] - s[k])
  }

  /** The feature dictionary the matcher builds from a bare pitch list: the
      intervals are its successive differences (none for fewer than two
      pitches), and every other signal is empty, with tempo 0. */
  function FromPitches(pitches: seq<real>): (f: FeatureSet)
    ensures f.pitchMidi == pitches && |f.intervals| == MaxInt(0, |pitches| - 1)
    ensures forall k :: 0 <= k < |f.intervals| ==> pitches[k] + f.intervals[k] == pitches[k + 1]
    ensures f.rhythmPattern == [] && f.tempo == 0.0 && f.cens == [] && f.censBeatSync == []
  {
    FeatureSet(pitches, if |pitches| > 1 then Diff(pitches) else [], [], 0.0, [], [])
  }

  /** The feature dictionary a variant is scored with. */
  function VariantFeatures(v: Variant): (f: FeatureSet)
    ensures v.Recorded? ==> f == v.features
    ensures v.LegacyPitches? ==> f.pitchMidi == v.pitches && |f.intervals| == MaxInt(0, |v.pitches| - 1)
    ensures v.LegacyPitches? ==> forall k :: 0 <= k < |f.intervals| ==> v.pitches[k] + f.intervals[k] == v.pitches[k + 1]
    ensures v.LegacyPitches? ==> f.rhythmPattern == [] && f.tempo == 0.0 && f.cens == [] && f.censBeatSync == []
  {
    match v
    case Recorded(f) => f
    case LegacyPitches(p) => FromPitches(p)
  }

  /** The feature dictionary a catalog entry is scored with: its features when
      present, else the fallback built from its melody; None for an entry that
      has neither, which the matcher skips. */
  function ScoringFeatures(rec: SongRecord): (f: Option<FeatureSet>)
    ensures f.None? <==> rec.features.None? && rec.melody.None?
    ensures rec.features.Some? ==> f == rec.features
    ensures rec.features.None? && rec.melody.Some? ==> f == Some(FromPitches(rec.melody.value))
  {
    if rec.features.Some? then rec.features
    else if rec.melody.Some? then Some(FromPitches(rec.melody.value))
    else None
  }

  /** The same recording sung r semitones higher: every pitch moves by r and
      every chroma frame is relabelled by r, while the intervals between
      pitches, the rhythm and the tempo stay as they are. */
  function TransposeKey(f: FeatureSet, r: int): FeatureSet {
    f.(pitchMidi := seq(|f.pitchMidi|, k requires 0 <= k < |f.pitchMidi| => f.pitchMidi[k] + r as real),
       cens := Transpose(f.cens, r),
       censBeatSync := Transpose(f.censBeatSync, r))
  }
}
