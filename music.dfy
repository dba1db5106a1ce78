/** The value types of the composition engine: notes, rests and chords, and
    the spreading of a chord into the notes that sound it.

    Durations are counted in sixteenth notes ("ticks"): the engine's
    fractional beat values 4, 2, 1.5, 1, 0.75, 0.5 and 0.25 become 16, 8, 6,
    4, 3, 2 and 1 ticks. Chords keep a whole number of beats. */
module Music {
  import opened Wrappers

  const TicksPerBeat: int := 4

  /** The MIDI pitch bounds of the `Note` constructor. */
  const MinPitch: int := 0
  const MaxPitch: int := 127

  /** A note; `pitch` is unbounded because chord spreading raises pitches
      after the constructor has clamped them. */
  datatype Note = Note(pitch: int, ticks: int, volume: int)

  /** The chord qualities, one per key of the quality table: M, m, d,
      sus2, sus4, M7, Mmaj7, m7, mmaj7, d7, dmin7dim5, M7dim5, 7sus2 and
      7sus4. */
  datatype Quality =
    | Major | Minor | Diminished | Sus2 | Sus4
    | Dominant7 | Major7 | Minor7 | MinorMajor7 | Diminished7
    | HalfDiminished7 | Dominant7Flat5 | Sus2Seventh | Sus4Seventh

  datatype Chord = Chord(root: int, quality: Quality, inversion: int, beats: int, volume: int)

  /** Anything placed on a track: a note, a rest, or a chord. */
  datatype Event = NoteEvent(note: Note) | RestEvent(ticks: int) | ChordEvent(chord: Chord)

  /** `Note(pitch, duration, volume)`: the constructor pins the pitch into
      the MIDI range and keeps the other fields. */
  function NewNote(pitch: int, ticks: int, volume: int): (n: Note)
    ensures MinPitch <= n.pitch <= MaxPitch
    ensures MinPitch <= pitch <= MaxPitch ==> n.pitch == pitch
    ensures pitch < MinPitch ==> n.pitch == MinPitch
    ensures pitch > MaxPitch ==> n.pitch == MaxPitch
    ensures n.ticks == ticks && n.volume == volume
  {
    var low := if pitch < MinPitch then MinPitch else pitch;
    Note(if low > MaxPitch then MaxPitch else low, ticks, volume)
  }

  /** How long an event lasts, in ticks. */
  function Ticks(e: Event): int {
    match e
    case NoteEvent(n) => n.ticks
    case RestEvent(t) => t
    case ChordEvent(c) => TicksPerBeat * c.beats
  }

  /** The summed duration of a list of events. */
  function Length(events: seq<Event>): int {
    if events == [] then 0 else Length(events[..|events| - 1]) + Ticks(events[|events| - 1])
  }

  lemma {:induction false} LengthAppend(a: seq<Event>, b: seq<Event>)
    ensures Length(a + b) == Length(a) + Length(b)
    decreases |b|
  {
    if b != [] {
      var last := |b| - 1;
      assert (a + b)[..|a + b| - 1] == a + b[..last];
      assert (a + b)[|a + b| - 1] == b[last];
      assert Length(a + b) == Length(a + b[..last]) + Ticks(b[last]);
      assert Length(b) == Length(b[..last]) + Ticks(b[last]);
      LengthAppend(a, b[..last]);
    } else {
      assert a + b == a;
    }
  }

  function NoteEvents(notes: seq<Note>): (events: seq<Event>)
    ensures |events| == |notes|
    ensures forall i :: 0 <= i < |notes| ==> events[i] == NoteEvent(notes[i])
  {
    seq(|notes|, i requires 0 <= i < |notes| => NoteEvent(notes[i]))
  }

  /** Notes one after another last as long as the two lists together. */
  lemma NoteLengthAppend(a: seq<Note>, b: seq<Note>)
    ensures NoteEvents(a + b) == NoteEvents(a) + NoteEvents(b)
    ensures Length(NoteEvents(a + b)) == Length(NoteEvents(a)) + Length(NoteEvents(b))
  {
    assert NoteEvents(a + b) == NoteEvents(a) + NoteEvents(b);
    LengthAppend(NoteEvents(a), NoteEvents(b));
  }

  function ChordEvents(chords: seq<Chord>): (events: seq<Event>)
    ensures |events| == |chords|
    ensures forall i :: 0 <= i < |chords| ==> events[i] == ChordEvent(chords[i])
  {
    seq(|chords|, i requires 0 <= i < |chords| => ChordEvent(chords[i]))
  }

  /** The semitone offsets above the root of each chord quality. */
  function Offsets(q: Quality): seq<int> {
    match q
    case Major => [0, 4, 7]
    case Minor => [0, 3, 7]
    case Diminished => [0, 3, 6]
    case Sus2 => [0, 2, 7]
    case Sus4 => [0, 5, 7]
    case Dominant7 => [0, 4, 7, 10]
    case Major7 => [0, 4, 7, 11]
    case Minor7 => [0, 3, 7, 10]
    case MinorMajor7 => [0, 3, 7, 11]
    case Diminished7 => [0, 3, 6, 9]
    case HalfDiminished7 => [0, 3, 6, 10]
    case Dominant7Flat5 => [0, 4, 6, 10]
    case Sus2Seventh => [0, 2, 7, 10]
    case Sus4Seventh => [0, 5, 7, 10]
  }

  /** Every quality has three or four tones, starting at the root and
      rising within the octave. */
  lemma OffsetsShape(q: Quality)
    ensures 3 <= |Offsets(q)| <= 4 && Offsets(q)[0] == 0
    ensures forall i, j :: 0 <= i < j < |Offsets(q)| ==> Offsets(q)[i] < Offsets(q)[j] < 12
  {
  }

  /** The clamp window used when none is given: A_1 through D_3. */
  const DefaultWindow: (int, int) := (45, 62)

  /** The clamp step of `spread`: up an octave when below the window, then
      down an octave when above it. */
  function ToWindow(p: int, lo: int, hi: int): int {
    var q := if p < lo then p + 12 else p;
    if q > hi then q - 12 else q
  }

  /** The window clamp moves a pitch by at most an octave and keeps its
      pitch class; a pitch in the window stays; a pitch within an octave of
      a window at least an octave wide lands inside it. */
  lemma ToWindowMoves(p: int, lo: int, hi: int)
    ensures ToWindow(p, lo, hi) in {p - 12, p, p + 12}
    ensures ToWindow(p, lo, hi) % 12 == p % 12
    ensures lo <= p <= hi ==> ToWindow(p, lo, hi) == p
    ensures hi - lo >= 11 && lo - 12 <= p <= hi + 12 ==> lo <= ToWindow(p, lo, hi) <= hi
  {
  }

  /** The window is not a guarantee: a pitch more than an octave above it
      is lowered once and stays above it. */
  lemma WindowNotGuaranteed()
    ensures ToWindow(84, DefaultWindow.0, DefaultWindow.1) == 72 > DefaultWindow.1
  {
  }

  /** Whether the inversion raises tone `i` by an octave. */
  predicate Raised(inversion: int, i: nat) {
    (inversion == 1 && i == 0) || (inversion == 2 && i < 2)
  }

  /** The notes built for a chord, before inversion and clamp. */
  function Built(c: Chord): (notes: seq<Note>)
    ensures |notes| == |Offsets(c.quality)|
    ensures forall i :: 0 <= i < |notes| ==>
      notes[i] == NewNote(c.root + Offsets(c.quality)[i], TicksPerBeat * c.beats, c.volume)
  {
    var offsets := Offsets(c.quality);
    seq(|offsets|, i requires 0 <= i < |offsets| => NewNote(c.root + offsets[i], TicksPerBeat * c.beats, c.volume))
  }

  /** Inversion 1 raises the first note an octave, inversion 2 the first two. */
  function Inverted(notes: seq<Note>, inversion: int): (r: seq<Note>)
    requires |notes| >= 2
    ensures |r| == |notes|
    ensures forall i :: 0 <= i < |notes| ==>
      r[i] == if Raised(inversion, i) then notes[i].(pitch := notes[i].pitch + 12) else notes[i]
  {
    seq(|notes|, i requires 0 <= i < |notes| =>
      if Raised(inversion, i) then notes[i].(pitch := notes[i].pitch + 12) else notes[i])
  }

  /** Every note moved toward the window. */
  function Clamped(notes: seq<Note>, lo: int, hi: int): (r: seq<Note>)
    ensures |r| == |notes|
    ensures forall i :: 0 <= i < |notes| ==> r[i] == notes[i].(pitch := ToWindow(notes[i].pitch, lo, hi))
  {
    seq(|notes|, i requires 0 <= i < |notes| => notes[i].(pitch := ToWindow(notes[i].pitch, lo, hi)))
  }

  /** `Chord.spread(clamp, clamp_range)`; a missing range means the default
      window. */
  function SpreadNotes(c: Chord, clamp: bool, window: Option<(int, int)>): (notes: seq<Note>)
  {
    OffsetsShape(c.quality);
    var (lo, hi) := if window.Some? then window.value else DefaultWindow;
    var raised := Inverted(Built(c), c.inversion);
    if clamp then Clamped(raised, lo, hi) else raised
  }

  /** `Chord.spread`: builds the notes, raises the inverted ones in place,
      then moves each one toward the window. */
  method Spread(c: Chord, clamp: bool, window: Option<(int, int)>) returns (notes: array<Note>)
    ensures fresh(notes)
    ensures notes[..] == SpreadNotes(c, clamp, window)
  {
    notes := Build(c);
    OffsetsShape(c.quality);
    if c.inversion == 1 {
      notes[0] := notes[0].(pitch := notes[0].pitch + 12);
    }
    if c.inversion == 2 {
      notes[0] := notes[0].(pitch := notes[0].pitch + 12);
      notes[1] := notes[1].(pitch := notes[1].pitch + 12);
    }
    assert notes[..] == Inverted(Built(c), c.inversion);
    if clamp {
      var (lo, hi) := if window.Some? then window.value else DefaultWindow;
      ClampInPlace(notes, lo, hi);
    }
  }

  /** The tuple of notes `spread` starts from. */
  method Build(c: Chord) returns (notes: array<Note>)
    ensures fresh(notes)
    ensures notes[..] == Built(c)
  {
    var offsets := Offsets(c.quality);
    notes := new Note[|offsets|];
    for i := 0 to notes.Length
      invariant forall k :: 0 <= k < i ==> notes[k] == NewNote(c.root + offsets[k], TicksPerBeat * c.beats, c.volume)
    {
      notes[i] := NewNote(c.root + offsets[i], TicksPerBeat * c.beats, c.volume);
    }
  }

  /** The clamp loop of `spread`, in place. */
  method ClampInPlace(notes: array<Note>, lo: int, hi: int)
    modifies notes
    ensures notes[..] == Clamped(old(notes[..]), lo, hi)
  {
    for i := 0 to notes.Length
      invariant forall k :: 0 <= k < i ==> notes[k] == old(notes[k]).(pitch := ToWindow(old(notes[k]).pitch, lo, hi))
      invariant forall k :: i <= k < notes.Length ==> notes[k] == old(notes[k])
    {
      if notes[i].pitch < lo {
        notes[i] := notes[i].(pitch := notes[i].pitch + 12);
      }
      if notes[i].pitch > hi {
        notes[i] := notes[i].(pitch := notes[i].pitch - 12);
      }
    }
  }

  /** What a spread promises: one note per offset of the quality, at the
      root plus the offset (pinned to the MIDI range), an octave higher for
      the inverted tones, then, when clamped, moved by at most an octave
      toward the window with its pitch class kept; every note lasts the
      chord's beats at the chord's volume. */
  lemma {:induction false} SpreadTones(c: Chord, clamp: bool, window: Option<(int, int)>, i: nat)
    requires i < |Offsets(c.quality)|
    ensures |SpreadNotes(c, clamp, window)| == |Offsets(c.quality)|
    ensures var n := SpreadNotes(c, clamp, window)[i];
      var base := NewNote(c.root + Offsets(c.quality)[i], 0, 0).pitch;
      var raised := if Raised(c.inversion, i) then base + 12 else base;
      && n.ticks == TicksPerBeat * c.beats && n.volume == c.volume
      && (!clamp ==> n.pitch == raised)
      && (clamp ==> n.pitch in {raised - 12, raised, raised + 12} && n.pitch % 12 == raised % 12)
  {
    OffsetsShape(c.quality);
    var (lo, hi) := if window.Some? then window.value else DefaultWindow;
    var built := Built(c)[i];
    var base := NewNote(c.root + Offsets(c.quality)[i], 0, 0).pitch;
    assert built.pitch == base;
    var raised := if Raised(c.inversion, i) then base + 12 else base;
    var r := Inverted(Built(c), c.inversion);
    assert r[i].pitch == raised && r[i].ticks == built.ticks && r[i].volume == built.volume;
    ToWindowMoves(raised, lo, hi);
  }

  /** With the default window, a clamped spread never leaves 12..127, so an
      octave above it is still at most 139. */
  lemma {:induction false} ClampedSpreadRange(c: Chord, i: nat)
    requires i < |Offsets(c.quality)|
    ensures |SpreadNotes(c, true, None)| == |Offsets(c.quality)|
    ensures 12 <= SpreadNotes(c, true, None)[i].pitch <= 127
  {
    OffsetsShape(c.quality);
  }

  /** The chords of the unit tests, spread without the clamp. */
  lemma SpreadExamples()
    ensures SpreadNotes(Chord(48, Major, 0, 4, 80), false, None) ==
      [Note(48, 16, 80), Note(52, 16, 80), Note(55, 16, 80)]
    ensures SpreadNotes(Chord(48, Minor, 0, 4, 80), false, None) ==
      [Note(48, 16, 80), Note(51, 16, 80), Note(55, 16, 80)]
  {
  }

  /** The chords of the unit tests, spread with the clamp. */
  lemma ClampExamples()
    ensures SpreadNotes(Chord(36, Major, 0, 4, 80), true, None) ==
      [Note(48, 16, 80), Note(52, 16, 80), Note(55, 16, 80)]
    ensures SpreadNotes(Chord(84, Major, 0, 4, 80), true, None) ==
      [Note(72, 16, 80), Note(76, 16, 80), Note(79, 16, 80)]
  {
  }

  /** The inverted chords of the unit tests. */
  lemma InversionExamples()
    ensures SpreadNotes(Chord(60, Major, 1, 4, 80), false, None) ==
      [Note(72, 16, 80), Note(64, 16, 80), Note(67, 16, 80)]
    ensures SpreadNotes(Chord(60, Major, 2, 4, 80), false, None) ==
      [Note(72, 16, 80), Note(76, 16, 80), Note(67, 16, 80)]
    ensures SpreadNotes(Chord(60, Major, 2, 4, 80), true, None) ==
      [Note(60, 16, 80), Note(64, 16, 80), Note(55, 16, 80)]
  {
  }

  /** Raising after construction bypasses the constructor's clamp: an
      inverted chord at the top of the range sounds above 127. */
  lemma InversionBypassesClamp()
    ensures SpreadNotes(Chord(127, Major, 1, 4, 80), false, None)[0].pitch == 139
  {
  }

  /** A note of the constructor keeps its pitch in the MIDI range (the
      unit tests' limits). */
  lemma NoteLimits()
    ensures NewNote(-1, 4, 100).pitch == 0
    ensures NewNote(128, 4, 100).pitch == 127
    ensures NewNote(60, 4, 100).pitch == 60
  {
  }
}
