/** A generated piece: its parameters, the chord progression, the bass, the
    melody of motives, the section pattern and the assembled structure. */
module Compose {
  import opened Wrappers
  import opened Lists
  import opened Draws
  import opened Music
  import opened Scale
  import opened Durations
  import opened Harmony
  import opened Progression
  import opened Motives
  import opened Track
  import Gm

  /** The keys a piece draws from when none is given: C_2 up to B_2,
      without F#_2. */
  const KeyChoices: seq<string> :=
    ["C_2", "C#_2", "D_2", "D#_2", "E_2", "F_2", "G_2", "G#_2", "A_2", "A#_2", "B_2"]

  /** The note numbers of `KeyChoices`. */
  const KeyNumbers: seq<nat> := [48, 49, 50, 51, 52, 53, 55, 56, 57, 58, 59]

  /** The tempo range in beats per minute. */
  const MinTempo: nat := 90
  const MaxTempo: nat := 124

  /** The section labels, and the section lengths in measures. */
  const Labels: string := "abc"
  const SectionMeasures: seq<int> := [2, 3, 4, 8]

  lemma KeyChoicesNamed(k: nat)
    requires k < |KeyChoices|
    ensures KeyNumbers[k] < Gm.NoteCount && KeyChoices[k] == Gm.NoteName(KeyNumbers[k])
  {
    if k < 4 {
      LowKeysNamed();
    } else if k < 8 {
      MiddleKeysNamed();
    } else {
      HighKeysNamed();
    }
  }

  lemma LowKeysNamed()
    ensures Gm.NoteName(48) == "C_2" && Gm.NoteName(49) == "C#_2"
    ensures Gm.NoteName(50) == "D_2" && Gm.NoteName(51) == "D#_2"
  {
  }

  lemma MiddleKeysNamed()
    ensures Gm.NoteName(52) == "E_2" && Gm.NoteName(53) == "F_2"
    ensures Gm.NoteName(55) == "G_2" && Gm.NoteName(56) == "G#_2"
  {
  }

  lemma HighKeysNamed()
    ensures Gm.NoteName(57) == "A_2" && Gm.NoteName(58) == "A#_2" && Gm.NoteName(59) == "B_2"
  {
  }

  /** A note name's number is below 132 and has that name. */
  lemma NumberNamed(name: string)
    requires name in Gm.NoteNumbers()
    ensures Gm.NoteNumbers()[name] < Gm.NoteCount && Gm.NoteName(Gm.NoteNumbers()[name]) == name
  {
    var n :| 0 <= n < Gm.NoteCount && Gm.NoteName(n) == name;
  }

  /** Whether a key was given: an empty name counts as none. */
  predicate KeyGiven(inKey: Option<string>) {
    inKey.Some? && inKey.value != ""
  }

  /** The key root: the number of the given key name, or of the drawn
      choice when none is given; a name that is not a note name falls back
      to C_2. */
  function KeyRoot(inKey: Option<string>, choice: nat): (root: nat)
    requires choice < |KeyChoices|
    ensures root < Gm.NoteCount
    ensures !KeyGiven(inKey) ==> root == KeyNumbers[choice]
    ensures KeyGiven(inKey) && inKey.value in Gm.NoteNumbers() ==> Gm.NoteName(root) == inKey.value
    ensures KeyGiven(inKey) && inKey.value !in Gm.NoteNumbers() ==> root == LowPitch
  {
    var key := if KeyGiven(inKey) then inKey.value else KeyChoices[choice];
    var nums := Gm.NoteNumbers();
    PitchBoundsNamed();
    KeyChoicesNamed(choice);
    if key in nums then
      NumberNamed(key);
      nums[key]
    else nums["C_2"]
  }

  /** The parameters a piece draws. */
  datatype Parameters = Parameters(keyRoot: int, beatsPerMeasure: int, tempo: int, bassStyle: BassStyle)

  /** The parameters drawn from `source(at)` (key), `source(at + 1)`
      (meter), `source(at + 2)` (tempo) and `source(at + 4)` (bass style);
      `source(at + 3)` selects the duration profile. A given key or meter
      replaces the drawn one, whose draw is still made. */
  function Drawn(inKey: Option<string>, inBeats: Option<int>, source: nat -> nat, at: nat): (p: Parameters)
    ensures 0 <= p.keyRoot < Gm.NoteCount
    ensures MinTempo <= p.tempo <= MaxTempo
    ensures inBeats.None? ==> 2 <= p.beatsPerMeasure <= 7
    ensures !KeyGiven(inKey) ==> 48 <= p.keyRoot <= 59 && p.keyRoot != 54
  {
    var key := KeyRoot(inKey, Uniform(|KeyChoices|, source(at)));
    var meter := if inBeats.Some? then inBeats.value else Meters[Uniform(|Meters|, source(at + 1))];
    var tempo := MinTempo + Uniform(MaxTempo - MinTempo + 1, source(at + 2));
    Parameters(key, meter, tempo, BassStyles[Uniform(|BassStyles|, source(at + 4))])
  }

  /** The five draws of `generate`, in their order; the duration profile
      is selected on the shared duration policy. */
  method DrawParameters(rng: Random, durations: DurationPolicy, inKey: Option<string>, inBeats: Option<int>)
    returns (p: Parameters)
    requires durations.Valid()
    modifies rng, durations`weights
    ensures p == Drawn(inKey, inBeats, rng.source, old(rng.drawn))
    ensures durations.Valid() && IsProfile(durations.weights)
    ensures durations.weights == ProfileWeights[Uniform(3, rng.source(old(rng.drawn) + 3))]
    ensures rng.drawn == old(rng.drawn) + 5
  {
    var choice := rng.Below(|KeyChoices|);
    var key := KeyRoot(inKey, choice);
    var meter := rng.Below(|Meters|);
    var beats := Meters[meter];
    if inBeats.Some? {
      beats := inBeats.value;
    }
    var tempo := rng.RandInt(MinTempo, MaxTempo);
    var profile := durations.SelectProfile(rng);
    var style := rng.Below(|BassStyles|);
    p := Parameters(key, beats, tempo, BassStyles[style]);
  }

  /** `get_pitches(self.key_root)` for a key in the table: the scale of
      the key's class, which rises strictly. */
  method KeyPitches(root: int) returns (pitches: seq<int>)
    requires 0 <= root < Gm.NoteCount
    ensures pitches == ScalePitches(KeyTemplates[root % 12])
    ensures StrictlyIncreasing(pitches)
  {
    var scale := GetPitches(Some(root));
    var k := root % 12;
    assert ClassIndex(root) == Ok(k);
    TemplateIsTransposedMajor(k, 0);
    ScaleIncreasing(KeyTemplates[k]);
    pitches := scale.value;
  }

  /** A section of the piece, or the whole structure: chords, bass notes
      and melody events. */
  datatype Section = Section(chords: seq<Chord>, bass: seq<Note>, melody: seq<Event>)

  /** The bass and the melody of a section last exactly as long as its
      chords. */
  predicate SectionFits(s: Section) {
    Length(NoteEvents(s.bass)) == TicksPerBeat * Beats(s.chords) == Length(s.melody)
  }

  /** Chords none of which lasts a negative number of beats. */
  predicate NonNegative(chords: seq<Chord>) {
    forall i :: 0 <= i < |chords| ==> chords[i].beats >= 0
  }

  /** What every generated section satisfies: it fits, its chords are from
      the key and do not run backwards, its bass is the bass line of the
      piece's style under its chords, and its melody is made of notes and
      rests of positive length within the MIDI range. */
  predicate Sound(s: Section, keyRoot: int, bpm: int, style: BassStyle) {
    && SectionFits(s) && Progressive(s.chords, keyRoot, bpm) && NonNegative(s.chords)
    && s.bass == BassLine(style, s.chords) && NotesAndRests(s.melody)
  }

  /** One section after another: each part extended by the other's. */
  function Join(a: Section, b: Section): (s: Section)
    ensures |s.chords| == |a.chords| + |b.chords| && |s.bass| == |a.bass| + |b.bass|
    ensures |s.melody| == |a.melody| + |b.melody|
  {
    Section(a.chords + b.chords, a.bass + b.bass, a.melody + b.melody)
  }

  lemma {:induction false} SoundJoin(a: Section, b: Section, keyRoot: int, bpm: int, style: BassStyle)
    requires Sound(a, keyRoot, bpm, style) && Sound(b, keyRoot, bpm, style)
    ensures Sound(Join(a, b), keyRoot, bpm, style)
  {
    var s := Join(a, b);
    BassLineAppend(style, a.chords, b.chords);
    ProgressiveAppend(a.chords, b.chords, keyRoot, bpm);
    NotesAndRestsAppend(a.melody, b.melody);
    NonNegativeAppend(a.chords, b.chords);
    NoteLengthAppend(a.bass, b.bass);
  }

  lemma NonNegativeAppend(a: seq<Chord>, b: seq<Chord>)
    requires NonNegative(a) && NonNegative(b)
    ensures NonNegative(a + b)
  {
    forall i | 0 <= i < |a + b|
      ensures (a + b)[i].beats >= 0
    {
      if i >= |a| {
        assert (a + b)[i] == b[i - |a|];
      }
    }
  }

  /** Where a label's section is kept. */
  function LabelIndex(tag: char): (k: nat)
    requires tag in Labels
    ensures k < |Labels| && Labels[k] == tag
  {
    if tag == 'a' then 0 else if tag == 'b' then 1 else 2
  }

  /** `list.insert(at, x)` at a position after the first. */
  function InsertAt(s: string, at: nat, x: char): (r: string)
    requires 1 <= at <= |s|
    ensures |r| == |s| + 1 && r[0] == s[0] && r[at] == x
    ensures forall y :: y in r <==> y in s || y == x
  {
    assert s == s[..at] + s[at..];
    s[..at] + [x] + s[at..]
  }

  /** The sections in the order of the pattern, one after another. */
  function Arranged(sections: seq<Section>, pattern: string): Section
    requires |sections| == |Labels| && forall i :: 0 <= i < |pattern| ==> pattern[i] in Labels
  {
    if pattern == [] then Section([], [], [])
    else
      var last := |pattern| - 1;
      Join(Arranged(sections, pattern[..last]), sections[LabelIndex(pattern[last])])
  }

  /** Sound sections arranged in any pattern make a sound whole. */
  lemma {:induction false} ArrangedSound(sections: seq<Section>, pattern: string, keyRoot: int, bpm: int, style: BassStyle)
    requires |sections| == |Labels| && forall i :: 0 <= i < |pattern| ==> pattern[i] in Labels
    requires forall k :: 0 <= k < |sections| ==> Sound(sections[k], keyRoot, bpm, style)
    ensures Sound(Arranged(sections, pattern), keyRoot, bpm, style)
  {
    if pattern == [] {
      assert NoteEvents([]) == [];
    } else {
      var last := |pattern| - 1;
      ArrangedSound(sections, pattern[..last], keyRoot, bpm, style);
      SoundJoin(Arranged(sections, pattern[..last]), sections[LabelIndex(pattern[last])], keyRoot, bpm, style);
    }
  }

  /** The ending: the key's major triad for a whole measure, the key root
      an octave down for one beat, and a melody note on `tone` for the
      whole measure. */
  function Ending(keyRoot: int, bpm: int, tone: int): (r: Section)
    ensures |r.chords| == 1 && Beats(r.chords) == bpm && Length(r.melody) == TicksPerBeat * Beats(r.chords)
    ensures |r.bass| == 1 && |r.melody| == 1 && Length(NoteEvents(r.bass)) == TicksPerBeat
    ensures r.chords[0].root == keyRoot && r.chords[0].quality == Major && r.chords[0].inversion == 0
    ensures r.bass[0].pitch == if keyRoot - 12 < MinPitch then MinPitch else if keyRoot - 12 > MaxPitch then MaxPitch else keyRoot - 12
    ensures r.melody[0].NoteEvent? && (MinPitch <= tone <= MaxPitch ==> r.melody[0].note.pitch == tone)
  {
    Section([Chord(keyRoot, Major, 0, bpm, AccompanimentVolume)],
      [NewNote(keyRoot - 12, TicksPerBeat, AccompanimentVolume)],
      [NoteEvent(NewNote(tone, TicksPerBeat * bpm, MelodyVolume))])
  }

  /** The end of a piece: the last chord is the key's major triad for a
      whole measure, the last bass note is the key root an octave down for
      one beat, the last melody note lasts the measure; everything before
      those endings is sound. */
  predicate Ends(s: Section, keyRoot: int, bpm: int, style: BassStyle) {
    && |s.chords| > 0 && |s.bass| > 0 && |s.melody| > 0
    && s.chords[|s.chords| - 1] == Chord(keyRoot, Major, 0, bpm, AccompanimentVolume)
    && s.bass[|s.bass| - 1] == NewNote(keyRoot - 12, TicksPerBeat, AccompanimentVolume)
    && s.melody[|s.melody| - 1].NoteEvent?
    && s.melody[|s.melody| - 1].note.ticks == TicksPerBeat * bpm
    && s.melody[|s.melody| - 1].note.volume == MelodyVolume
    && MinPitch <= s.melody[|s.melody| - 1].note.pitch <= MaxPitch
    && Sound(Section(s.chords[..|s.chords| - 1], s.bass[..|s.bass| - 1], s.melody[..|s.melody| - 1]), keyRoot, bpm, style)
  }

  /** A sound body followed by the ending ends the piece. */
  lemma EndingEnds(body: Section, keyRoot: int, bpm: int, style: BassStyle, tone: int)
    requires Sound(body, keyRoot, bpm, style)
    ensures Ends(Join(body, Ending(keyRoot, bpm, tone)), keyRoot, bpm, style)
  {
    var s := Join(body, Ending(keyRoot, bpm, tone));
    assert s.chords[..|s.chords| - 1] == body.chords;
    assert s.bass[..|s.bass| - 1] == body.bass;
    assert s.melody[..|s.melody| - 1] == body.melody;
  }

  /** The melody under the first `i` chords, extended by the melody under
      the next chord, is the melody under the first `i + 1` chords. */
  lemma MelodyGrows(melody: seq<Event>, part: seq<Event>, chords: seq<Chord>, i: nat)
    requires i < |chords| && NotesAndRests(melody) && NotesAndRests(part)
    requires NonNegative(chords[..i]) && chords[i].beats >= 0
    requires Length(melody) == TicksPerBeat * Beats(chords[..i]) && Length(part) == TicksPerBeat * chords[i].beats
    ensures NotesAndRests(melody + part) && Length(melody + part) == TicksPerBeat * Beats(chords[..i + 1])
    ensures NonNegative(chords[..i + 1])
  {
    NotesAndRestsAppend(melody, part);
    assert chords[..i + 1][..i] == chords[..i];
  }

  /** The tracks of a generated piece, as placed by `create_track`. */
  datatype Rendered = Rendered(structure: Section, chordTrack: seq<Placed>, bassTrack: seq<Placed>, melodyTrack: seq<Placed>)

  lemma {:induction false} BeatsNonNegative(chords: seq<Chord>)
    requires NonNegative(chords)
    ensures Beats(chords) >= 0
  {
    if chords != [] {
      BeatsNonNegative(chords[..|chords| - 1]);
    }
  }

  /** A meter whose positive multiple is the length of chords none of which
      runs backwards is not negative. */
  lemma MeterNonNegative(chords: seq<Chord>, measures: int, bpm: int)
    requires NonNegative(chords) && measures > 0 && Beats(chords) == measures * bpm
    ensures bpm >= 0
  {
    BeatsNonNegative(chords);
  }

  /** A pattern being drawn: it starts with "a" and holds only labels. */
  predicate Labelled(pattern: string) {
    && |pattern| > 0 && pattern[0] == 'a'
    && forall i :: 0 <= i < |pattern| ==> pattern[i] in Labels
  }

  /** One round of the pattern loop on the draws from `source(at)` on: a
      drawn label is appended, then a missing "b" and a missing "c" are
      each inserted at a drawn position after the first. The result is the
      pattern and the position of the next draw. */
  function PatternRound(pattern: string, source: nat -> nat, at: nat): (string, nat) {
    var appended := pattern + [Labels[Uniform(|Labels|, source(at))]];
    var withB := WithLabel(appended, 'b', source, at + 1);
    WithLabel(withB.0, 'c', source, withB.1)
  }

  /** A label missing from a non-empty pattern inserted at the position
      `source(at)` draws after the first; a present one needs no draw. */
  function WithLabel(pattern: string, tag: char, source: nat -> nat, at: nat): (string, nat) {
    if tag in pattern || pattern == [] then (pattern, at)
    else (InsertAt(pattern, 1 + Uniform(|pattern|, source(at)), tag), at + 1)
  }

  /** `rounds` rounds of the pattern loop. */
  function PatternRounds(pattern: string, rounds: nat, source: nat -> nat, at: nat): (string, nat)
    decreases rounds
  {
    if rounds == 0 then (pattern, at)
    else
      var next := PatternRound(pattern, source, at);
      PatternRounds(next.0, rounds - 1, source, next.1)
  }

  /** The pattern drawn from `source(at)` on, and the position of the next
      draw: the number of rounds, between two and six, then the rounds
      from "a"; with only one section the pattern is "a", the draws being
      made all the same. */
  function PatternFrom(onlyOne: bool, source: nat -> nat, at: nat): (string, nat) {
    var drawn := PatternRounds("a", 2 + Uniform(5, source(at)), source, at + 1);
    (if onlyOne then "a" else drawn.0, drawn.1)
  }

  lemma PatternFromRounds(onlyOne: bool, source: nat -> nat, at: nat, rounds: nat)
    requires rounds == 2 + Uniform(5, source(at))
    ensures var drawn := PatternRounds("a", rounds, source, at + 1);
      && PatternFrom(onlyOne, source, at).0 == (if onlyOne then "a" else drawn.0)
      && PatternFrom(onlyOne, source, at).1 == drawn.1
  {
  }

  /** What every drawn pattern looks like: it starts with "a" and holds
      only labels; unless there is only one section, it has between four
      and nine labels and holds "b" and "c", and otherwise it is "a". */
  predicate Shaped(pattern: string, onlyOne: bool) {
    && Labelled(pattern)
    && (onlyOne ==> pattern == "a")
    && (!onlyOne ==> 4 <= |pattern| <= 9 && 'b' in pattern && 'c' in pattern)
  }

  /** A round appends a label and leaves both "b" and "c" in the pattern;
      once both are there it grows by exactly one label. */
  lemma PatternRoundShape(pattern: string, source: nat -> nat, at: nat)
    requires Labelled(pattern)
    ensures var next := PatternRound(pattern, source, at).0;
      && Labelled(next) && 'b' in next && 'c' in next && |pattern| + 1 <= |next| <= |pattern| + 3
      && ('b' in pattern && 'c' in pattern ==> |next| == |pattern| + 1)
  {
  }

  lemma {:induction false} PatternRoundsShape(pattern: string, rounds: nat, source: nat -> nat, at: nat)
    requires Labelled(pattern) && 'b' in pattern && 'c' in pattern
    ensures var p := PatternRounds(pattern, rounds, source, at).0;
      Labelled(p) && 'b' in p && 'c' in p && |p| == |pattern| + rounds
    decreases rounds
  {
    if rounds > 0 {
      var next := PatternRound(pattern, source, at);
      PatternRoundShape(pattern, source, at);
      PatternRoundsShape(next.0, rounds - 1, source, next.1);
    }
  }

  /** Every drawn pattern is shaped. */
  lemma PatternShape(onlyOne: bool, source: nat -> nat, at: nat)
    ensures Shaped(PatternFrom(onlyOne, source, at).0, onlyOne)
  {
    var rounds := 2 + Uniform(5, source(at));
    var first := PatternRound("a", source, at + 1);
    PatternRoundShape("a", source, at + 1);
    PatternRoundsShape(first.0, rounds - 1, source, first.1);
  }

  /** The section pattern of `generate_structure`, drawn as `PatternFrom`
      describes. */
  method DrawPattern(rng: Random, onlyOne: bool) returns (pattern: string)
    modifies rng
    ensures pattern == PatternFrom(onlyOne, rng.source, old(rng.drawn)).0
    ensures rng.drawn == PatternFrom(onlyOne, rng.source, old(rng.drawn)).1
    ensures Shaped(pattern, onlyOne)
  {
    ghost var start := rng.drawn;
    // `random.randint(2, 6)`: two plus a uniform choice among five
    var k := rng.Below(5);
    var n := 2 + k;
    PatternFromRounds(onlyOne, rng.source, start, n);
    PatternShape(onlyOne, rng.source, start);
    pattern := DrawRounds(rng, n);
    if onlyOne {
      pattern := "a";
    }
  }

  /** The rounds of the pattern loop, from "a". */
  method DrawRounds(rng: Random, n: int) returns (pattern: string)
    requires n >= 0
    modifies rng
    ensures pattern == PatternRounds("a", n, rng.source, old(rng.drawn)).0
    ensures rng.drawn == PatternRounds("a", n, rng.source, old(rng.drawn)).1
  {
    pattern := "a";
    for i := 0 to n
      invariant |pattern| > 0
      invariant PatternRounds(pattern, n - i, rng.source, rng.drawn) == PatternRounds("a", n, rng.source, old(rng.drawn))
    {
      pattern := DrawRound(rng, pattern);
    }
  }

  /** One round of the pattern loop. */
  method DrawRound(rng: Random, pattern: string) returns (next: string)
    requires |pattern| > 0
    modifies rng
    ensures (next, rng.drawn) == PatternRound(pattern, rng.source, old(rng.drawn))
    ensures |next| > 0
  {
    var tag := rng.Below(|Labels|);
    next := pattern + [Labels[tag]];
    next := DrawLabel(rng, next, 'b');
    next := DrawLabel(rng, next, 'c');
  }

  /** A missing label inserted at a drawn position after the first. */
  method DrawLabel(rng: Random, pattern: string, tag: char) returns (next: string)
    requires |pattern| > 0
    modifies rng
    ensures (next, rng.drawn) == WithLabel(pattern, tag, rng.source, old(rng.drawn))
    ensures |next| > 0
  {
    next := pattern;
    if tag !in next {
      var at := rng.RandInt(1, |next|);
      next := InsertAt(next, at, tag);
    }
  }

  /** The loop that extends the structure by each section of the pattern. */
  method Arrange(sections: seq<Section>, pattern: string) returns (s: Section)
    requires |sections| == |Labels| && forall i :: 0 <= i < |pattern| ==> pattern[i] in Labels
    ensures s == Arranged(sections, pattern)
  {
    s := Section([], [], []);
    for i := 0 to |pattern|
      invariant s == Arranged(sections, pattern[..i])
    {
      var part := sections[LabelIndex(pattern[i])];
      assert pattern[..i + 1][..i] == pattern[..i];
      s := Section(s.chords + part.chords, s.bass + part.bass, s.melody + part.melody);
    }
    assert pattern[..|pattern|] == pattern;
  }

  /** A pattern that starts with "a" puts the first section's first chord
      first. */
  lemma {:induction false} ArrangedOpens(sections: seq<Section>, pattern: string)
    requires |sections| == |Labels| && forall i :: 0 <= i < |pattern| ==> pattern[i] in Labels
    requires |pattern| > 0 && pattern[0] == 'a' && sections[0].chords != []
    ensures Arranged(sections, pattern).chords != []
    ensures Arranged(sections, pattern).chords[0] == sections[0].chords[0]
  {
    var last := |pattern| - 1;
    if last > 0 {
      ArrangedOpens(sections, pattern[..last]);
    } else {
      assert pattern[..last] == [];
    }
  }

  /** The chord and melody tracks of a piece that ends, in a meter that is
      not negative, are in order and both end where the chords end; the
      bass, whose last note lasts one beat, ends `bpm - 1` beats earlier. */
  lemma {:induction false} TracksInOrder(s: Section, keyRoot: int, bpm: int, style: BassStyle)
    requires Ends(s, keyRoot, bpm, style) && bpm >= 0
    ensures Length(s.melody) == TicksPerBeat * Beats(s.chords)
    ensures Length(NoteEvents(s.bass)) == TicksPerBeat * (Beats(s.chords) - bpm + 1)
    ensures InOrder(Timeline(ChordEvents(s.chords)), Length(s.melody))
    ensures InOrder(Timeline(s.melody), Length(s.melody))
  {
    EndsLengths(s, keyRoot, bpm, style);
    ChordsLength(s.chords);
    ChordTrackOrdered(s.chords);
    MelodyTrackOrdered(s.melody);
  }

  /** The lengths of the tracks of a piece that ends: the melody lasts as
      long as the chords, the bass one beat longer than the chords before
      the last. */
  lemma {:induction false} EndsLengths(s: Section, keyRoot: int, bpm: int, style: BassStyle)
    requires Ends(s, keyRoot, bpm, style)
    ensures Length(s.melody) == TicksPerBeat * Beats(s.chords)
    ensures Length(NoteEvents(s.bass)) == TicksPerBeat * (Beats(s.chords) - bpm + 1)
  {
    var c, b, m := |s.chords| - 1, |s.bass| - 1, |s.melody| - 1;
    assert s.chords == s.chords[..c] + [s.chords[c]];
    assert s.melody == s.melody[..m] + [s.melody[m]];
    assert NoteEvents(s.bass) == NoteEvents(s.bass[..b]) + [NoteEvents(s.bass)[b]];
    BeatsAppend(s.chords[..c], [s.chords[c]]);
    assert Beats([s.chords[c]]) == bpm by {
      assert [s.chords[c]][..0] == [];
    }
    TimelineAppend(s.melody[..m], s.melody[m]);
    TimelineAppend(NoteEvents(s.bass[..b]), NoteEvents(s.bass)[b]);
  }

  /** Chords none of which runs backwards, the last one included, make a
      track in order. */
  lemma {:induction false} ChordTrackOrdered(chords: seq<Chord>)
    requires chords != [] && NonNegative(chords[..|chords| - 1]) && chords[|chords| - 1].beats >= 0
    ensures InOrder(Timeline(ChordEvents(chords)), TicksPerBeat * Beats(chords))
  {
    var c := |chords| - 1;
    ChordsLength(chords);
    var events := ChordEvents(chords);
    forall i | 0 <= i < |events|
      ensures Ticks(events[i]) >= 0
    {
      if i < c {
        assert chords[i] == chords[..c][i];
      }
    }
    TimelineOrdered(events);
  }

  /** Notes and rests followed by a last event of no negative length make
      a track in order. */
  lemma {:induction false} MelodyTrackOrdered(melody: seq<Event>)
    requires melody != [] && NotesAndRests(melody[..|melody| - 1]) && Ticks(melody[|melody| - 1]) >= 0
    ensures InOrder(Timeline(melody), Length(melody))
  {
    var m := |melody| - 1;
    forall i | 0 <= i < |melody|
      ensures Ticks(melody[i]) >= 0
    {
      if i < m {
        assert melody[i] == melody[..m][i];
      }
    }
    TimelineOrdered(melody);
  }

  /** In a positive meter the bass track of a piece that ends is in order
      as well: under chords of positive length no bass note lasts a
      negative time. */
  lemma {:induction false} BassInOrder(s: Section, keyRoot: int, bpm: int, style: BassStyle)
    requires Ends(s, keyRoot, bpm, style) && bpm > 0
    ensures InOrder(Timeline(NoteEvents(s.bass)), Length(NoteEvents(s.bass)))
  {
    var c, b := |s.chords| - 1, |s.bass| - 1;
    var body := s.chords[..c];
    assert forall k :: 0 <= k < |body| ==> FromKey(body[k], keyRoot) && body[k].beats > 0;
    BassLineNotes(style, body);
    var events := NoteEvents(s.bass);
    forall i | 0 <= i < |events|
      ensures Ticks(events[i]) >= 0
    {
      if i < b {
        assert s.bass[i] == s.bass[..b][i];
      }
    }
    TimelineOrdered(events);
  }

  /** Every note placed from a piece that ends is within the MIDI range. */
  lemma {:induction false} TracksPlayable(s: Section, keyRoot: int, bpm: int, style: BassStyle)
    requires Ends(s, keyRoot, bpm, style)
    ensures Playable(Timeline(ChordEvents(s.chords)))
    ensures Playable(Timeline(NoteEvents(s.bass)))
    ensures Playable(Timeline(s.melody))
  {
    var b, m := |s.bass| - 1, |s.melody| - 1;
    BassLineNotes(style, s.chords[..|s.chords| - 1]);
    var bass := NoteEvents(s.bass);
    forall i | 0 <= i < |bass|
      ensures MinPitch <= bass[i].note.pitch <= MaxPitch
    {
      if i < b {
        assert s.bass[i] == s.bass[..b][i];
      }
    }
    TimelinePlayable(bass);
    forall i | 0 <= i < |s.melody|
      ensures s.melody[i].NoteEvent? ==> MinPitch <= s.melody[i].note.pitch <= MaxPitch
    {
      if i < m {
        assert s.melody[i] == s.melody[..m][i];
      }
    }
    TimelinePlayable(s.melody);
    TimelinePlayable(ChordEvents(s.chords));
  }

  /** Tracks placed from a structure by `create_track`: the chord and
      melody tracks in order and ending together, the bass track in order
      in a positive meter, and every placed note within the MIDI range. */
  predicate Placing(r: Rendered, bpm: int) {
    var s := r.structure;
    && r.chordTrack == Timeline(ChordEvents(s.chords))
    && r.bassTrack == Timeline(NoteEvents(s.bass))
    && r.melodyTrack == Timeline(s.melody)
    && InOrder(r.chordTrack, Length(s.melody))
    && InOrder(r.melodyTrack, Length(s.melody))
    && (bpm > 0 ==> InOrder(r.bassTrack, Length(NoteEvents(s.bass))))
    && Playable(r.chordTrack) && Playable(r.bassTrack) && Playable(r.melodyTrack)
  }

  /** A generated piece: a structure that ends, and its tracks. */
  predicate Generated(r: Rendered, keyRoot: int, bpm: int, style: BassStyle) {
    Ends(r.structure, keyRoot, bpm, style) && Placing(r, bpm)
  }

  /** The three tracks of `generate`, each placed by `create_track`. */
  method Render(s: Section, keyRoot: int, bpm: int, style: BassStyle) returns (r: Rendered)
    requires Ends(s, keyRoot, bpm, style) && bpm >= 0
    ensures r.structure == s && Generated(r, keyRoot, bpm, style)
  {
    var chordTrack := CreateTrack(ChordEvents(s.chords));
    var bassTrack := CreateTrack(NoteEvents(s.bass));
    var melodyTrack := CreateTrack(s.melody);
    TracksInOrder(s, keyRoot, bpm, style);
    TracksPlayable(s, keyRoot, bpm, style);
    if bpm > 0 {
      BassInOrder(s, keyRoot, bpm, style);
    }
    r := Rendered(s, chordTrack, bassTrack, melodyTrack);
  }

  /** `Piece`: the parameters drawn by `generate` and the melodic state
      the motives share. The random stream, the duration policy and the
      chord strategy are shared by every piece and handed to it. */
  class Piece {
    const rng: Random
    const durations: DurationPolicy
    const harmony: ChordStrategy

    var keyRoot: int
    /** The scale's pitch list, which grows by accidentals. */
    var pitches: seq<int>
    var beatsPerMeasure: int
    var tempo: int
    var bassStyle: BassStyle
    var ivWeights: seq<nat>
    var contour: seq<nat>
    /** Intervals kept for reuse by later motives. */
    var ivStack: seq<int>

    /** What the motives need: a rising pitch list and a duration policy
        with a profile. */
    ghost predicate Melodic()
      reads this, durations
    {
      StrictlyIncreasing(pitches) && durations.Valid() && IsProfile(durations.weights)
    }

    /** What a motive needs besides: the melody's weight profiles. */
    ghost predicate Ready()
      reads this, durations
    {
      Melodic() && IsIntervalProfile(ivWeights) && IsContour(contour)
    }

    /** The attributes `generate` creates start out empty. */
    constructor (rng: Random, durations: DurationPolicy, harmony: ChordStrategy)
      ensures this.rng == rng && this.durations == durations && this.harmony == harmony
      ensures pitches == [] && ivStack == [] && ivWeights == [] && contour == []
    {
      this.rng := rng;
      this.durations := durations;
      this.harmony := harmony;
      keyRoot := 0;
      pitches := [];
      beatsPerMeasure := 0;
      tempo := 0;
      bassStyle := Simple;
      ivWeights := [];
      contour := [];
      ivStack := [];
    }

    /** The parameters `generate` draws after seeding (key, meter, tempo,
        duration profile, bass style, one draw each) and the pitch list of
        the key. */
    method ChooseParameters(inKey: Option<string>, inBeats: Option<int>)
      requires durations.Valid()
      modifies this, rng, durations
      ensures Melodic()
      ensures Setting() == Drawn(inKey, inBeats, rng.source, old(rng.drawn))
      ensures pitches == ScalePitches(KeyTemplates[keyRoot % 12])
      ensures durations.weights == ProfileWeights[Uniform(3, rng.source(old(rng.drawn) + 3))]
      ensures rng.drawn == old(rng.drawn) + 5
    {
      var p := DrawParameters(rng, durations, inKey, inBeats);
      var scale := KeyPitches(p.keyRoot);
      keyRoot, beatsPerMeasure, tempo, bassStyle := p.keyRoot, p.beatsPerMeasure, p.tempo, p.bassStyle;
      pitches := scale;
      assert Setting() == p;
    }

    /** The drawn parameters of the piece. */
    function Setting(): Parameters
      reads this
    {
      Parameters(keyRoot, beatsPerMeasure, tempo, bassStyle)
    }

    /** `generate_chords`: for each measure, its sub-measures, and for each
        sub-measure a chord from the strategy on the key root; the first
        chord of the first section is forced onto the tonic. */
    method GenerateChords(measures: int, firstSection: bool) returns (chords: seq<Chord>)
      requires IsChordProfile(harmony.weights)
      modifies rng
      ensures Beats(chords) == if measures > 0 then measures * beatsPerMeasure else 0
      ensures measures > 0 <==> chords != []
      ensures Progressive(chords, keyRoot, beatsPerMeasure)
      ensures firstSection && chords != [] ==>
        chords[0].root == keyRoot && chords[0].quality in {Major, Major7}
    {
      chords := [];
      var first := firstSection;
      var count := if measures > 0 then measures else 0;
      for m := 0 to count
        invariant Beats(chords) == m * beatsPerMeasure
        invariant m > 0 <==> chords != []
        invariant Progressive(chords, keyRoot, beatsPerMeasure)
        invariant first == (firstSection && m == 0)
        invariant firstSection && chords != [] ==>
          chords[0].root == keyRoot && chords[0].quality in {Major, Major7}
      {
        var more, stillFirst := MeasureChords(first);
        ProgressiveAppend(chords, more, keyRoot, beatsPerMeasure);
        BeatsAppend(chords, more);
        assert (m + 1) * beatsPerMeasure == m * beatsPerMeasure + beatsPerMeasure;
        chords, first := chords + more, stillFirst;
      }
    }

    /** The chords of one measure. */
    method MeasureChords(first: bool) returns (more: seq<Chord>, stillFirst: bool)
      requires IsChordProfile(harmony.weights)
      modifies rng
      ensures Beats(more) == beatsPerMeasure && more != [] && !stillFirst
      ensures Progressive(more, keyRoot, beatsPerMeasure)
      ensures first ==> more[0].root == keyRoot && more[0].quality in {Major, Major7}
    {
      var parts := SplitMeasure();
      more, stillFirst := ChordsFor(parts, first);
    }

    /** The sub-measures of one measure. */
    method SplitMeasure() returns (parts: seq<int>)
      modifies rng
      ensures parts == MeasureSplit(beatsPerMeasure, rng.source, old(rng.drawn))
    {
      var bpm := beatsPerMeasure;
      var split := false;
      if bpm > 3 {
        var coin := rng.Weighted(SplitWeights);
        split := coin == 0;
      }
      var pick := 0;
      var options := SplitOptions(bpm);
      if split && |options| > 0 {
        pick := rng.Below(|options|);
      }
      parts := SubMeasures(bpm, split, pick);
    }

    /** One chord per sub-measure, each lasting its sub-measure; only the
        first chord asked for as first is forced onto the tonic. */
    method ChordsFor(parts: seq<int>, first: bool) returns (more: seq<Chord>, stillFirst: bool)
      requires IsChordProfile(harmony.weights)
      modifies rng
      ensures |more| == |parts| && Beats(more) == Total(parts)
      ensures forall i :: 0 <= i < |more| ==> FromKey(more[i], keyRoot) && more[i].beats == parts[i]
      ensures stillFirst == (first && parts == [])
      ensures first && more != [] ==> more[0].root == keyRoot && more[0].quality in {Major, Major7}
    {
      more, stillFirst := [], first;
      for i := 0 to |parts|
        invariant |more| == i && Beats(more) == Total(parts[..i])
        invariant forall j :: 0 <= j < i ==> FromKey(more[j], keyRoot) && more[j].beats == parts[j]
        invariant stillFirst == (first && i == 0)
        invariant first && i > 0 ==> more[0].root == keyRoot && more[0].quality in {Major, Major7}
      {
        var pick := harmony.GetChord(rng, stillFirst);
        var c := ChordOf(keyRoot, pick, parts[i]);
        KeyedAppend(more, c, keyRoot, parts);
        LastsParts(more, c, parts);
        more, stillFirst := more + [c], false;
      }
      assert parts[..|parts|] == parts;
    }

    /** Appending a chord from the key that lasts its part keeps every
        chord from the key and lasting its part. */
    static lemma KeyedAppend(more: seq<Chord>, c: Chord, keyRoot: int, parts: seq<int>)
      requires |more| < |parts|
      requires forall j :: 0 <= j < |more| ==> FromKey(more[j], keyRoot) && more[j].beats == parts[j]
      requires FromKey(c, keyRoot) && c.beats == parts[|more|]
      ensures forall j :: 0 <= j < |more| + 1 ==> FromKey((more + [c])[j], keyRoot) && (more + [c])[j].beats == parts[j]
    {
      forall j | 0 <= j < |more| + 1
        ensures FromKey((more + [c])[j], keyRoot) && (more + [c])[j].beats == parts[j]
      {
        if j < |more| {
          assert (more + [c])[j] == more[j];
        }
      }
    }

    /** Appending a chord that lasts the next part keeps the chords as long
        as the parts so far. */
    static lemma LastsParts(more: seq<Chord>, c: Chord, parts: seq<int>)
      requires |more| < |parts| && Beats(more) == Total(parts[..|more|]) && c.beats == parts[|more|]
      ensures Beats(more + [c]) == Total(parts[..|more| + 1])
    {
      assert (more + [c])[..|more|] == more;
      assert parts[..|more| + 1][..|more|] == parts[..|more|];
    }

    /** `generate_bass`: under each chord, the notes of the piece's bass
        style, an octave below the chord's root. */
    method GenerateBass(chords: seq<Chord>) returns (notes: seq<Note>)
      ensures notes == BassLine(bassStyle, chords)
    {
      notes := [];
      for i := 0 to |chords|
        invariant notes == BassLine(bassStyle, chords[..i])
      {
        var chord := chords[i];
        var pitch := chord.root - 12;
        var here := [];
        if bassStyle == Marching {
          var count := if chord.beats > 0 then chord.beats else 0;
          for k := 0 to count
            invariant here == seq(k, _ => NewNote(pitch, TicksPerBeat, AccompanimentVolume))
          {
            here := here + [NewNote(pitch, TicksPerBeat, AccompanimentVolume)];
          }
        } else if bassStyle == Marco {
          here := [NewNote(pitch, TicksPerBeat * (chord.beats - 1), AccompanimentVolume),
                   NewNote(pitch, TicksPerBeat, AccompanimentVolume)];
        } else {
          here := [NewNote(pitch, TicksPerBeat * chord.beats, AccompanimentVolume)];
        }
        assert here == BassFor(bassStyle, chord);
        assert chords[..i + 1][..i] == chords[..i];
        notes := notes + here;
      }
      assert chords[..|chords|] == chords;
    }

    /** A tone of the chord, spread and clamped, drawn at random and taken
        an octave up. */
    method ChordTone(chord: Chord) returns (pitch: int)
      modifies rng
      ensures ChordToneOf(chord, pitch)
      ensures 24 <= pitch <= MaxPitch + 12
    {
      var spread := Spread(chord, true, None);
      OffsetsShape(chord.quality);
      SpreadTones(chord, true, None, 0);
      var j := rng.Below(spread.Length);
      ClampedSpreadRange(chord, j);
      pitch := spread[j].pitch + 12;
    }

    /** The start of a motive: a chord tone an octave up, located in the
        pitch list (added to it as an accidental if missing), and its name
        looked up for the log. */
    method StartWalk(chord: Chord, w: Walk) returns (r: Result<Walk>)
      requires StrictlyIncreasing(w.pitches)
      modifies rng
      ensures r.Ok? ==> StrictlyIncreasing(r.value.pitches) && OnScale(r.value)
      ensures r.Ok? ==> r.value.stack == w.stack && r.value.replay == w.replay
      ensures r.Ok? ==> ChordToneOf(chord, r.value.pitch)
      ensures r.Ok? ==> (r.value.pitches, r.value.index) == Locate(w.pitches, r.value.pitch)
    {
      var pitch := ChordTone(chord);
      var (pitches, index) := Locate(w.pitches, pitch);
      var name :- NameAt(pitch);
      r := Ok(Walk(pitches, w.stack, index, pitch, w.replay));
    }

    /** The pitch of the next note of a motive: an interval replayed from
        the front of the stack while the motive replays it, and otherwise a
        move by a drawn interval or a drawn chord tone, whose interval is
        pushed on the stack; a motive that finds the stack empty stops
        replaying. */
    method NextPitch(chord: Chord, w: Walk) returns (r: Result<Walk>)
      requires IsIntervalProfile(ivWeights) && IsContour(contour) && StrictlyIncreasing(w.pitches)
      modifies rng
      ensures r.Ok? ==> PitchStep(chord, w, r.value)
    {
      var replay := w.replay && w.stack != [];
      var byInterval := true;
      if !replay {
        var face := rng.Weighted(contour);
        byInterval := face == 0;
      }
      if byInterval {
        var interval: int := 0;
        if replay {
          interval := w.stack[0];
          var current :- At(w.pitches, w.index);
        } else {
          var k := rng.Weighted(ivWeights);
          var down := rng.Below(2);
          interval := if down == 1 then -(k as int) else k;
        }
        SteppedLands(w.pitches, w.index, interval);
        var step :- Stepped(w.pitches, w.index, interval);
        r := Ok(Walk(w.pitches, if replay then w.stack[1..] else w.stack + [interval], step.1, step.0, replay));
        assert w.pitches == r.value.pitches;
      } else {
        var pitch := ChordTone(chord);
        var name :- NameAt(pitch);
        var (pitches, index) := Locate(w.pitches, pitch);
        r := Ok(Walk(pitches, w.stack + [index - w.index], index, pitch, false));
      }
    }

    /** `generate_melody`: an interval profile and a contour are drawn and
        the stack is emptied; then every chord gets a motive as long as the
        chord, replaying the stack when it holds more than four intervals,
        and a motive that runs past its chord has its last event cut to end
        with the chord. The melody lasts exactly as long as the chords; it
        cannot be made for a chord of negative length. */
    method GenerateMelody(chords: seq<Chord>) returns (r: Result<seq<Event>>)
      requires Melodic()
      modifies this`ivWeights, this`contour, this`ivStack, this`pitches, rng, durations`buffer
      ensures Ready()
      ensures r.Ok? ==> forall i :: 0 <= i < |chords| ==> chords[i].beats >= 0
      ensures r.Ok? ==> NotesAndRests(r.value) && Length(r.value) == TicksPerBeat * Beats(chords)
    {
      ChooseMelodyProfiles();
      var melody: seq<Event> := [];
      for i := 0 to |chords|
        invariant Ready()
        invariant NonNegative(chords[..i])
        invariant NotesAndRests(melody) && Length(melody) == TicksPerBeat * Beats(chords[..i])
      {
        var under := ChordMelody(chords[i]);
        if under.Err? {
          r := Err(under.error);
          return;
        }
        MelodyGrows(melody, under.value, chords, i);
        melody := melody + under.value;
      }
      assert chords[..|chords|] == chords;
      r := Ok(melody);
    }

    /** The interval profile and the contour of a melody, one draw each,
        and an empty stack. */
    method ChooseMelodyProfiles()
      modifies this`ivWeights, this`contour, this`ivStack, rng
      ensures IsIntervalProfile(ivWeights) && IsContour(contour) && ivStack == []
      ensures ivWeights == IntervalProfiles[Uniform(|IntervalProfiles|, rng.source(old(rng.drawn)))]
      ensures contour == ContourProfiles[Uniform(|ContourProfiles|, rng.source(old(rng.drawn) + 1))]
      ensures rng.drawn == old(rng.drawn) + 2
    {
      var iv := rng.Below(|IntervalProfiles|);
      var shape := rng.Below(|ContourProfiles|);
      Motives.ProfilesShape(iv);
      Motives.ProfilesShape(shape);
      ivWeights, contour, ivStack := IntervalProfiles[iv], ContourProfiles[shape], [];
    }

    /** The melody under one chord: a motive as long as the chord, cut to
        end with it. */
    method ChordMelody(chord: Chord) returns (r: Result<seq<Event>>)
      requires Ready()
      modifies this`ivStack, this`pitches, rng, durations`buffer
      ensures Ready()
      ensures r.Ok? ==> chord.beats >= 0 && NotesAndRests(r.value) && Length(r.value) == TicksPerBeat * chord.beats
    {
      var useStack := |ivStack| > 4;
      var length := TicksPerBeat * chord.beats;
      var motive;
      ghost var popped, pushed;
      motive, popped, pushed := GenerateMotive(chord, length, useStack);
      if motive.Err? {
        r := Err(motive.error);
        return;
      }
      TrimFits(motive.value, length);
      r := Trim(motive.value, length);
    }

    /** `generate_motive`: a walk from a chord tone, drawing a duration for
        every event until the motive reaches `length` ticks; the first event
        is a note, every later one a note or a rest. The pitch list keeps
        every pitch it had; the stack loses intervals only from its front,
        only when replaying, and gains them only at its back once it has
        been emptied or was not replayed. */
    method GenerateMotive(chord: Chord, length: int, useStack: bool)
      returns (r: Result<seq<Event>>, ghost popped: nat, ghost pushed: seq<int>)
      requires Ready()
      modifies this`pitches, this`ivStack, rng, durations`buffer
      ensures Ready()
      ensures forall y :: y in old(pitches) ==> y in pitches
      ensures r.Ok? ==> Fills(r.value, length)
      ensures popped <= |old(ivStack)| && ivStack == old(ivStack)[popped..] + pushed
      ensures popped > 0 ==> useStack
      ensures pushed != [] && popped > 0 ==> popped == |old(ivStack)|
    {
      var start := StartWalk(chord, Walk(pitches, ivStack, 0, 0, useStack));
      if start.Err? {
        r, popped, pushed := Err(start.error), 0, [];
        return;
      }
      var walked;
      walked, popped, pushed := Walked(chord, start.value, length);
      if walked.Err? {
        r, popped, pushed := Err(walked.error), 0, [];
        return;
      }
      var (events, w) := walked.value;
      pitches, ivStack := w.pitches, w.stack;
      r := Ok(events);
    }

    /** The loop of `generate_motive` from the walk `start`: events are
        drawn until the motive reaches `length` ticks. */
    method Walked(chord: Chord, start: Walk, length: int)
      returns (r: Result<(seq<Event>, Walk)>, ghost popped: nat, ghost pushed: seq<int>)
      requires IsIntervalProfile(ivWeights) && IsContour(contour) && StrictlyIncreasing(start.pitches)
      requires durations.Valid() && IsProfile(durations.weights)
      modifies rng, durations`buffer
      ensures durations.Valid()
      ensures r.Ok? ==> var (events, w) := r.value;
        && Fills(events, length) && StrictlyIncreasing(w.pitches)
        && (forall y :: y in start.pitches ==> y in w.pitches)
        && Replayed(start.stack, w, popped, pushed, start.replay)
    {
      popped, pushed := 0, [];
      var w := start;
      var events: seq<Event> := [];
      var time := 0;
      var first := true;
      while time < length
        invariant StrictlyIncreasing(w.pitches) && forall y :: y in start.pitches ==> y in w.pitches
        invariant durations.Valid()
        invariant first == (events == []) && Growing(events, length)
        invariant time == Length(events) && (first ==> time == 0) && (length <= 0 ==> first)
        invariant Replayed(start.stack, w, popped, pushed, start.replay)
        decreases length - time
      {
        var step, moved := NextEvent(chord, w, first);
        if step.Err? {
          r, popped, pushed := Err(step.error), 0, [];
          return;
        }
        var (e, next) := step.value;
        EventStepKeeps(chord, w, first, e, next, moved);
        if moved {
          popped, pushed := ReplayStep(start.stack, w, next, popped, pushed, start.replay);
        }
        GrowingAppend(events, e, length);
        w, events, time, first := next, events + [e], time + Ticks(e), false;
      }
      r := Ok((events, w));
    }

    /** One event of a motive: a duration, then for the first event a note
        on the current pitch, and for any later one the rest coin and, for
        a note, the next pitch. */
    method NextEvent(chord: Chord, w: Walk, first: bool) returns (r: Result<(Event, Walk)>, moved: bool)
      requires IsIntervalProfile(ivWeights) && IsContour(contour) && StrictlyIncreasing(w.pitches)
      requires durations.Valid() && IsProfile(durations.weights)
      modifies rng, durations`buffer
      ensures durations.Valid()
      ensures r.Ok? ==> EventStep(chord, w, first, r.value.0, r.value.1, moved)
    {
      moved := false;
      var ticks := durations.Next(rng);
      if first {
        r := Ok((NoteEvent(NewNote(w.pitch, ticks, MelodyVolume)), w));
        return;
      }
      var coin := rng.Weighted(NoteWeights);
      if coin == 0 {
        var next :- NextPitch(chord, w);
        r, moved := Ok((NoteEvent(NewNote(next.pitch, ticks, MelodyVolume)), next)), true;
      } else {
        r := Ok((RestEvent(ticks), w));
      }
    }
      /** The progression of one section of `generate_structure`: a chord
        profile is selected, a length of 2, 3, 4 or 8 measures drawn and
        the progression generated (on the tonic for the first section),
        doubled when shorter than five measures; a section thus lasts 4, 6
        or 8 measures. */
    method SectionChords(first: bool) returns (chords: seq<Chord>, ghost measures: int)
      requires harmony.Valid()
      modifies harmony, rng
      ensures harmony.Valid()
      ensures chords != [] && measures in {4, 6, 8} && Beats(chords) == measures * beatsPerMeasure
      ensures Progressive(chords, keyRoot, beatsPerMeasure)
      ensures first ==> chords[0].root == keyRoot && chords[0].quality in {Major, Major7}
    {
      harmony.SelectProfile(rng);
      var k := rng.Below(|SectionMeasures|);
      var count := SectionMeasures[k];
      chords := GenerateChords(count, first);
      measures := count;
      if count < 5 {
        ProgressiveAppend(chords, chords, keyRoot, beatsPerMeasure);
        chords, measures := chords + chords, 2 * count;
      }
    }

    /** One section: its progression, and the bass and the melody made
        under it. */
    method GenerateSection(first: bool) returns (r: Result<Section>)
      requires Melodic() && harmony.Valid()
      modifies this`pitches, this`ivStack, this`ivWeights, this`contour, harmony, rng, durations`buffer
      ensures Melodic() && harmony.Valid()
      ensures r.Ok? ==> Sound(r.value, keyRoot, beatsPerMeasure, bassStyle) && r.value.chords != [] && beatsPerMeasure >= 0
      ensures r.Ok? ==> Beats(r.value.chords) in {4 * beatsPerMeasure, 6 * beatsPerMeasure, 8 * beatsPerMeasure}
      ensures r.Ok? && first ==> r.value.chords[0].root == keyRoot && r.value.chords[0].quality in {Major, Major7}
    {
      var chords, measures := SectionChords(first);
      var bass := GenerateBass(chords);
      var melody := GenerateMelody(chords);
      if melody.Err? {
        r := Err(melody.error);
        return;
      }
      BassLineLength(bassStyle, chords);
      MeterNonNegative(chords, measures, beatsPerMeasure);
      r := Ok(Section(chords, bass, melody.value));
    }

    /** The three sections, generated in the order of their labels. */
    method GenerateSections() returns (r: Result<seq<Section>>)
      requires Melodic() && harmony.Valid()
      modifies this`pitches, this`ivStack, this`ivWeights, this`contour, harmony, rng, durations`buffer
      ensures Melodic() && harmony.Valid()
      ensures r.Ok? ==> |r.value| == |Labels| && beatsPerMeasure >= 0
      ensures r.Ok? ==> forall k :: 0 <= k < |r.value| ==> Sound(r.value[k], keyRoot, beatsPerMeasure, bassStyle)
      ensures r.Ok? ==> (r.value[0].chords != [] &&
        r.value[0].chords[0].root == keyRoot && r.value[0].chords[0].quality in {Major, Major7})
    {
      var sections: seq<Section> := [];
      for k := 0 to |Labels|
        invariant Melodic() && harmony.Valid()
        invariant |sections| == k && (k > 0 ==> beatsPerMeasure >= 0)
        invariant forall j :: 0 <= j < k ==> Sound(sections[j], keyRoot, beatsPerMeasure, bassStyle)
        invariant k > 0 ==> sections[0].chords != []
        invariant k > 0 ==> sections[0].chords[0].root == keyRoot && sections[0].chords[0].quality in {Major, Major7}
      {
        var section := GenerateSection(Labels[k] == 'a');
        if section.Err? {
          r := Err(section.error);
          return;
        }
        sections := sections + [section.value];
      }
      r := Ok(sections);
    }

    /** `generate_structure`: the three sections, then the pattern, then the
        sections in the order of the pattern, then the ending, whose melody
        note is a drawn tone of the tonic chord an octave up. */
    method GenerateStructure(onlyOne: bool) returns (r: Result<Section>, ghost sections: seq<Section>, ghost pattern: string)
      requires Melodic() && harmony.Valid()
      modifies this`pitches, this`ivStack, this`ivWeights, this`contour, harmony, rng, durations`buffer
      ensures Melodic() && harmony.Valid()
      ensures r.Ok? ==> |sections| == |Labels| && beatsPerMeasure >= 0
      ensures r.Ok? ==> forall k :: 0 <= k < |sections| ==> Sound(sections[k], keyRoot, beatsPerMeasure, bassStyle)
      ensures r.Ok? ==> Shaped(pattern, onlyOne)
      ensures r.Ok? ==> Ends(r.value, keyRoot, beatsPerMeasure, bassStyle)
      ensures r.Ok? ==> exists tone :: && ChordToneOf(Chord(keyRoot, Major, 0, beatsPerMeasure, AccompanimentVolume), tone)
                                    && r.value == Join(Arranged(sections, pattern), Ending(keyRoot, beatsPerMeasure, tone))
      ensures r.Ok? ==> r.value.chords[0].root == keyRoot && r.value.chords[0].quality in {Major, Major7}
    {
      sections, pattern := [], "";
      var built := GenerateSections();
      if built.Err? {
        r := Err(built.error);
        return;
      }
      var whole;
      whole, pattern := ArrangeAndEnd(built.value, onlyOne);
      sections := built.value;
      r := Ok(whole);
    }

    /** The end of `generate_structure`: the sections arranged in a drawn
        pattern, followed by the ending on a drawn tone of the tonic. */
    method ArrangeAndEnd(sections: seq<Section>, onlyOne: bool) returns (s: Section, ghost pattern: string)
      requires |sections| == |Labels| && beatsPerMeasure >= 0
      requires forall k :: 0 <= k < |sections| ==> Sound(sections[k], keyRoot, beatsPerMeasure, bassStyle)
      requires sections[0].chords != [] && sections[0].chords[0].root == keyRoot && sections[0].chords[0].quality in {Major, Major7}
      modifies rng
      ensures Shaped(pattern, onlyOne)
      ensures Ends(s, keyRoot, beatsPerMeasure, bassStyle)
      ensures exists tone :: && ChordToneOf(Chord(keyRoot, Major, 0, beatsPerMeasure, AccompanimentVolume), tone)
                             && s == Join(Arranged(sections, pattern), Ending(keyRoot, beatsPerMeasure, tone))
      ensures s.chords[0].root == keyRoot && s.chords[0].quality in {Major, Major7}
    {
      var order := DrawPattern(rng, onlyOne);
      pattern := order;
      var body := Arrange(sections, order);
      ArrangedSound(sections, order, keyRoot, beatsPerMeasure, bassStyle);
      var tone := ChordTone(Chord(keyRoot, Major, 0, beatsPerMeasure, AccompanimentVolume));
      EndingEnds(body, keyRoot, beatsPerMeasure, bassStyle, tone);
      ArrangedOpens(sections, pattern);
      s := Join(body, Ending(keyRoot, beatsPerMeasure, tone));
    }

    /** `generate`: the parameters, the structure, and the chord, bass and
        melody tracks placed from it. */
    method Generate(inKey: Option<string>, inBeats: Option<int>, onlyOne: bool) returns (r: Result<Rendered>)
      requires durations.Valid() && harmony.Valid()
      modifies this, rng, durations, harmony
      ensures Setting() == Drawn(inKey, inBeats, rng.source, old(rng.drawn))
      ensures r.Ok? ==> Generated(r.value, keyRoot, beatsPerMeasure, bassStyle)
    {
      ChooseParameters(inKey, inBeats);
      r := Perform(onlyOne);
    }

    /** The structure of the piece and its tracks, once the parameters are
        drawn. */
    method Perform(onlyOne: bool) returns (r: Result<Rendered>)
      requires Melodic() && harmony.Valid()
      modifies this`pitches, this`ivStack, this`ivWeights, this`contour, harmony, rng, durations`buffer
      ensures r.Ok? ==> Generated(r.value, keyRoot, beatsPerMeasure, bassStyle)
    {
      var structure, sections, pattern := GenerateStructure(onlyOne);
      if structure.Err? {
        r := Err(structure.error);
        return;
      }
      var rendered := Render(structure.value, keyRoot, beatsPerMeasure, bassStyle);
      r := Ok(rendered);
    }
  }
}
