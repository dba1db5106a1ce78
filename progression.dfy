/** Chord progressions and bass lines: how a measure is split into chords,
    and the three bass styles that follow the chords. */
module Progression {
  import opened Draws
  import opened Music
  import opened Harmony
  import opened Scale

  /** The meters a piece draws from, in beats per measure. */
  const Meters: seq<int> := [2, 3, 4, 5, 6, 7]

  /** The split coin: the first face (weight 10) splits the measure. */
  const SplitWeights: seq<nat> := [10, 90]

  /** The volume of progression chords and bass notes. */
  const AccompanimentVolume: int := 80

  /** The ways a split measure of 5, 6 or 7 beats is divided; a split
      measure of 4 beats is always 2 + 2 and other meters are not split. */
  function SplitOptions(bpm: int): (options: seq<seq<int>>)
    ensures 5 <= bpm <= 7 <==> |options| > 0
  {
    if bpm == 5 then [[3, 2], [2, 3]]
    else if bpm == 6 then [[3, 3], [4, 2], [2, 4]]
    else if bpm == 7 then [[3, 4], [4, 3], [2, 2, 3], [3, 2, 2]]
    else []
  }

  /** The sum of a list of beat counts. */
  function Total(parts: seq<int>): int {
    if parts == [] then 0 else Total(parts[..|parts| - 1]) + parts[|parts| - 1]
  }

  /** Every split of the table adds up to its meter, in parts of at least
      two beats. */
  lemma SplitOptionsSum(bpm: int, k: nat)
    requires k < |SplitOptions(bpm)|
    ensures Total(SplitOptions(bpm)[k]) == bpm
    ensures forall i :: 0 <= i < |SplitOptions(bpm)[k]| ==> SplitOptions(bpm)[k][i] >= 2
  {
    var parts := SplitOptions(bpm)[k];
    if |parts| == 3 {
      TotalOfThree(parts[0], parts[1], parts[2]);
      assert parts == [parts[0], parts[1], parts[2]];
    } else {
      TotalOfTwo(parts[0], parts[1]);
      assert parts == [parts[0], parts[1]];
    }
  }

  lemma TotalOfTwo(a: int, b: int)
    ensures Total([a, b]) == a + b
  {
    assert [a, b][..1] == [a];
    assert [a][..0] == [];
    assert Total([a]) == a;
  }

  lemma TotalOfThree(a: int, b: int, c: int)
    ensures Total([a, b, c]) == a + b + c
  {
    assert [a, b, c][..2] == [a, b];
    TotalOfTwo(a, b);
  }

  /** The sub-measures of one measure: the whole measure, unless the coin
      split it and the meter has a split, `pick` choosing among the splits
      of 5, 6 and 7 beats. */
  function SubMeasures(bpm: int, split: bool, pick: nat): (parts: seq<int>)
    requires split && 5 <= bpm <= 7 ==> pick < |SplitOptions(bpm)|
    ensures Total(parts) == bpm && |parts| > 0
    ensures bpm > 0 ==> forall i :: 0 <= i < |parts| ==> parts[i] > 0
    ensures !split || bpm < 4 || bpm > 7 ==> parts == [bpm]
  {
    if split && bpm == 4 then
      assert [2, 2][..1] == [2];
      [2, 2]
    else if split && 5 <= bpm <= 7 then
      SplitOptionsSum(bpm, pick);
      SplitOptions(bpm)[pick]
    else
      assert [bpm][..0] == [];
      [bpm]
  }

  /** The sub-measures drawn for one measure: the split coin
      `source(at)` is drawn only for meters above three, and for 5, 6 and 7
      beats a split is chosen with `source(at + 1)`. */
  function MeasureSplit(bpm: int, source: nat -> nat, at: nat): (parts: seq<int>)
    ensures Total(parts) == bpm && |parts| > 0
    ensures bpm > 0 ==> forall i :: 0 <= i < |parts| ==> parts[i] > 0
  {
    var split := bpm > 3 && Choose(SplitWeights, source(at)) == 0;
    var options := SplitOptions(bpm);
    SubMeasures(bpm, split, if split && |options| > 0 then Uniform(|options|, source(at + 1)) else 0)
  }

  /** The summed beats of a list of chords. */
  function Beats(chords: seq<Chord>): int {
    if chords == [] then 0 else Beats(chords[..|chords| - 1]) + chords[|chords| - 1].beats
  }

  lemma {:induction false} BeatsAppend(a: seq<Chord>, b: seq<Chord>)
    ensures Beats(a + b) == Beats(a) + Beats(b)
    decreases |b|
  {
    if b == [] {
      assert a + b == a;
    } else {
      var last := |b| - 1;
      assert (a + b)[..|a + b| - 1] == a + b[..last];
      BeatsAppend(a, b[..last]);
    }
  }

  /** Chords placed on a track last their beats, four ticks each. */
  lemma {:induction false} ChordsLength(chords: seq<Chord>)
    ensures Length(ChordEvents(chords)) == TicksPerBeat * Beats(chords)
  {
    if chords != [] {
      var last := |chords| - 1;
      assert ChordEvents(chords)[..last] == ChordEvents(chords[..last]);
      ChordsLength(chords[..last]);
    }
  }

  /** A chord the progression can produce in the key of `keyRoot`: its
      root is a degree of the major scale above the key root, every tone
      is in the key, the inversion is 0, 1 or 2 and the volume is 80. */
  predicate FromKey(c: Chord, keyRoot: int) {
    var shift := c.root - keyRoot;
    && shift in MajorScale && InKey(shift, c.quality)
    && 0 <= c.inversion <= 2 && c.volume == AccompanimentVolume
  }

  /** Chords of a progression in the key of `keyRoot` in a meter of `bpm`
      beats: every chord is from the key, and lasts a positive number of
      beats when the meter is positive. */
  predicate Progressive(chords: seq<Chord>, keyRoot: int, bpm: int) {
    forall i :: 0 <= i < |chords| ==> FromKey(chords[i], keyRoot) && (bpm > 0 ==> chords[i].beats > 0)
  }

  lemma ProgressiveAppend(a: seq<Chord>, b: seq<Chord>, keyRoot: int, bpm: int)
    requires Progressive(a, keyRoot, bpm) && Progressive(b, keyRoot, bpm)
    ensures Progressive(a + b, keyRoot, bpm)
    ensures Beats(a + b) == Beats(a) + Beats(b)
  {
    BeatsAppend(a, b);
    forall i | 0 <= i < |a + b|
      ensures FromKey((a + b)[i], keyRoot) && (bpm > 0 ==> (a + b)[i].beats > 0)
    {
      if i >= |a| {
        assert (a + b)[i] == b[i - |a|];
      }
    }
  }

  /** The chord built from a pick of `get_chord` on the key root. */
  function ChordOf(keyRoot: int, p: ChordPick, beats: int): (c: Chord)
    requires p.shift in MajorScale && 0 <= p.inversion <= 2 && InKey(p.shift, p.quality)
    ensures FromKey(c, keyRoot) && c.beats == beats
  {
    Chord(keyRoot + p.shift, p.quality, p.inversion, beats, AccompanimentVolume)
  }

  // ---------------------------------------------------------------
  // Bass lines
  // ---------------------------------------------------------------

  /** The bass styles, in the order they are drawn. */
  datatype BassStyle = Simple | Marco | Marching

  const BassStyles: seq<BassStyle> := [Simple, Marco, Marching]

  /** The bass notes under one chord, an octave below its root: one note
      for the whole chord (simple); a note one beat shorter than the chord
      followed by a one-beat note (marco); one note per beat (marching). */
  function BassFor(style: BassStyle, c: Chord): (notes: seq<Note>)
    ensures forall i :: 0 <= i < |notes| ==>
      notes[i].pitch == NewNote(c.root - 12, 0, 0).pitch && notes[i].volume == AccompanimentVolume
  {
    var pitch := c.root - 12;
    match style
    case Simple => [NewNote(pitch, TicksPerBeat * c.beats, AccompanimentVolume)]
    case Marco => [NewNote(pitch, TicksPerBeat * (c.beats - 1), AccompanimentVolume),
                   NewNote(pitch, TicksPerBeat, AccompanimentVolume)]
    case Marching =>
      seq(if c.beats < 0 then 0 else c.beats, _ => NewNote(pitch, TicksPerBeat, AccompanimentVolume))
  }

  /** The bass notes under a list of chords, chord by chord. */
  function BassLine(style: BassStyle, chords: seq<Chord>): seq<Note> {
    if chords == [] then []
    else BassLine(style, chords[..|chords| - 1]) + BassFor(style, chords[|chords| - 1])
  }

  /** The beats a bass style actually plays under a chord: all of them,
      except that a marching bass plays nothing under a chord of negative
      length. */
  function Played(style: BassStyle, c: Chord): int {
    if style == Marching && c.beats < 0 then 0 else c.beats
  }

  lemma {:induction false} RepeatedLength(note: Note, count: nat)
    ensures Length(NoteEvents(seq(count, _ => note))) == count * note.ticks
  {
    if count > 0 {
      var s := seq(count, _ => note);
      assert NoteEvents(s)[..count - 1] == NoteEvents(seq(count - 1, _ => note));
      RepeatedLength(note, count - 1);
    }
  }

  /** Every bass style lasts exactly as long as the chord it plays under. */
  lemma {:induction false} BassForLength(style: BassStyle, c: Chord)
    ensures Length(NoteEvents(BassFor(style, c))) == TicksPerBeat * Played(style, c)
  {
    var pitch := c.root - 12;
    match style
    case Simple =>
      assert NoteEvents(BassFor(style, c))[..0] == [];
    case Marco =>
      var events := NoteEvents(BassFor(style, c));
      assert |events| == 2;
      assert events[..1][..0] == [];
      assert Length(events[..1]) == events[0].note.ticks;
      assert Length(events) == Length(events[..1]) + events[1].note.ticks;
    case Marching =>
      RepeatedLength(NewNote(pitch, TicksPerBeat, AccompanimentVolume), if c.beats < 0 then 0 else c.beats);
  }

  /** A bass line lasts as long as its chords; for the marching style this
      needs every chord to have a non-negative length. */
  lemma {:induction false} BassLineLength(style: BassStyle, chords: seq<Chord>)
    requires style == Marching ==> forall i :: 0 <= i < |chords| ==> chords[i].beats >= 0
    ensures Length(NoteEvents(BassLine(style, chords))) == TicksPerBeat * Beats(chords)
  {
    if chords != [] {
      var last := |chords| - 1;
      BassLineLength(style, chords[..last]);
      BassForLength(style, chords[last]);
      var before, here := BassLine(style, chords[..last]), BassFor(style, chords[last]);
      assert NoteEvents(before + here) == NoteEvents(before) + NoteEvents(here);
      LengthAppend(NoteEvents(before), NoteEvents(here));
    }
  }

  lemma {:induction false} BassLineAppend(style: BassStyle, a: seq<Chord>, b: seq<Chord>)
    ensures BassLine(style, a + b) == BassLine(style, a) + BassLine(style, b)
    decreases |b|
  {
    if b == [] {
      assert a + b == a;
    } else {
      var last := |b| - 1;
      assert (a + b)[..|a + b| - 1] == a + b[..last];
      BassLineAppend(style, a, b[..last]);
    }
  }

  /** Every bass note is within the MIDI range, and under chords of
      positive length none lasts a negative time. */
  lemma {:induction false} BassLineNotes(style: BassStyle, chords: seq<Chord>)
    ensures forall i :: 0 <= i < |BassLine(style, chords)| ==>
      MinPitch <= BassLine(style, chords)[i].pitch <= MaxPitch
    ensures (forall i :: 0 <= i < |chords| ==> chords[i].beats > 0) ==>
      forall i :: 0 <= i < |BassLine(style, chords)| ==> BassLine(style, chords)[i].ticks >= 0
  {
    if chords != [] {
      var last := |chords| - 1;
      var before: seq<Note>, here: seq<Note> := BassLine(style, chords[..last]), BassFor(style, chords[last]);
      BassLineNotes(style, chords[..last]);
      assert BassLine(style, chords) == before + here;
      var positive := forall k :: 0 <= k < |chords| ==> chords[k].beats > 0;
      forall i | 0 <= i < |before + here|
        ensures MinPitch <= (before + here)[i].pitch <= MaxPitch
        ensures positive ==> (before + here)[i].ticks >= 0
      {
        if i >= |before| {
          assert (before + here)[i] == here[i - |before|];
        } else {
          assert (before + here)[i] == before[i];
        }
      }
    }
  }

  /** A marching bass under a chord of `n` beats plays `n` one-beat notes;
      a marco bass under a one-beat chord plays a note of no length. */
  lemma BassExamples()
    ensures BassFor(Marching, Chord(60, Major, 0, 3, 80)) ==
      [Note(48, 4, 80), Note(48, 4, 80), Note(48, 4, 80)]
    ensures BassFor(Marco, Chord(60, Major, 0, 1, 80)) == [Note(48, 0, 80), Note(48, 4, 80)]
    ensures BassFor(Simple, Chord(5, Major, 0, 4, 80)) == [Note(0, 16, 80)]
  {
  }
}
