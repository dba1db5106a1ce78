/** The specification side of melody generation: the weight profiles, the
    pitch bounds of a motive, what a finished motive looks like, and the
    trimming that makes it fit its chord. */
module Motives {
  import opened Wrappers
  import opened Music
  import opened Lists
  import Gm
  import Draws

  /** The interval weight profiles (static, jumpy, balanced) over the
      interval sizes 0 to 5 scale steps. */
  const IntervalProfiles: seq<seq<nat>> := [
    [90, 80, 0, 0, 0, 0],
    [10, 10, 10, 10, 10, 10],
    [90, 50, 50, 5, 5, 10]
  ]

  /** The contour profiles: the first face moves by an interval, the
      second takes a tone of the chord. */
  const ContourProfiles: seq<seq<nat>> := [[100, 0], [50, 50], [20, 80]]

  /** The rest coin: the first face (weight 100) plays a note. */
  const NoteWeights: seq<nat> := [100, 10]

  const MelodyVolume: int := 100

  /** Melody pitches are kept between C_2 and C_5. */
  const LowPitch: int := 48
  const HighPitch: int := 84

  /** The bounds are the numbers of the note names C_2 and C_5. */
  lemma PitchBoundsNamed()
    ensures "C_2" in Gm.NoteNumbers() && Gm.NoteNumbers()["C_2"] == LowPitch
    ensures "C_5" in Gm.NoteNumbers() && Gm.NoteNumbers()["C_5"] == HighPitch
  {
    Gm.NamedNotes();
  }

  /** Weights `random.choices` accepts for the intervals and the contour. */
  predicate IsIntervalProfile(w: seq<nat>) {
    |w| == 6 && Draws.Sum(w) > 0
  }

  predicate IsContour(w: seq<nat>) {
    |w| == 2 && Draws.Sum(w) > 0
  }

  lemma ProfilesShape(k: nat)
    requires k < 3
    ensures IsIntervalProfile(IntervalProfiles[k]) && IsContour(ContourProfiles[k])
  {
    Draws.WeightBelowSum(IntervalProfiles[k], 0);
    Draws.WeightBelowSum(ContourProfiles[k], 0);
    Draws.WeightBelowSum(ContourProfiles[k], 1);
  }

  /** `NOTE_NAMES[p]` as the log lines evaluate it: Python indexing of the
      132 names, so a negative index counts from the end and anything
      else outside the table raises IndexError. */
  function NameAt(p: int): (r: Result<string>)
    ensures r.Ok? <==> -(Gm.NoteCount as int) <= p < Gm.NoteCount
    ensures r.Ok? && 0 <= p ==> r.value == Gm.NoteName(p)
    ensures r.Ok? && p < 0 ==> r.value == Gm.NoteName(Gm.NoteCount + p)
  {
    if 0 <= p < Gm.NoteCount then Ok(Gm.NoteName(p))
    else if -(Gm.NoteCount as int) <= p < 0 then Ok(Gm.NoteName(Gm.NoteCount + p))
    else Err(IndexError)
  }

  /** Notes and rests, each of positive length, the notes within the MIDI
      range. */
  predicate NotesAndRests(events: seq<Event>) {
    forall i :: 0 <= i < |events| ==>
      && Ticks(events[i]) > 0 && !events[i].ChordEvent?
      && (events[i].NoteEvent? ==> MinPitch <= events[i].note.pitch <= MaxPitch)
  }

  lemma NotesAndRestsAppend(a: seq<Event>, b: seq<Event>)
    requires NotesAndRests(a) && NotesAndRests(b)
    ensures NotesAndRests(a + b) && Length(a + b) == Length(a) + Length(b)
  {
    LengthAppend(a, b);
    forall i | 0 <= i < |a + b|
      ensures Ticks((a + b)[i]) > 0 && !(a + b)[i].ChordEvent?
      ensures (a + b)[i].NoteEvent? ==> MinPitch <= (a + b)[i].note.pitch <= MaxPitch
    {
      if i >= |a| {
        assert (a + b)[i] == b[i - |a|];
      }
    }
  }

  /** A motive being drawn for `length` ticks: notes and rests of
      positive length, a note first, and every event started before the
      length was reached. */
  predicate Growing(events: seq<Event>, length: int) {
    && NotesAndRests(events)
    && (events != [] ==> events[0].NoteEvent? && Length(events[..|events| - 1]) < length)
  }

  /** A finished motive for `length` ticks: drawn until the length is
      reached, so that everything but the last event starts inside the
      length. Nothing is drawn for a length that is not positive. */
  predicate Fills(events: seq<Event>, length: int) {
    && Growing(events, length)
    && (events == [] <==> length <= 0)
    && (events != [] ==> length <= Length(events))
  }

  /** An event drawn before the length is reached keeps the motive
      growing; the first event must be a note. */
  lemma GrowingAppend(events: seq<Event>, e: Event, length: int)
    requires Growing(events, length) && Length(events) < length
    requires NotesAndRests([e]) && (events == [] ==> e.NoteEvent?)
    ensures Growing(events + [e], length)
    ensures Length(events + [e]) == Length(events) + Ticks(e)
  {
    assert (events + [e])[..|events|] == events;
  }

  /** An event with its length replaced. */
  function Retimed(e: Event, ticks: int): (r: Event)
    requires !e.ChordEvent?
    ensures Ticks(r) == ticks && r.NoteEvent? == e.NoteEvent?
    ensures r.NoteEvent? ==> r.note == e.note.(ticks := ticks)
  {
    match e
    case NoteEvent(n) => NoteEvent(n.(ticks := ticks))
    case RestEvent(_) => RestEvent(ticks)
  }

  /** The trimming of `generate_melody`: when the motive runs past its
      chord, the last event is shortened to end with the chord; an empty
      motive that is still too long has no last event (IndexError). */
  function Trim(motive: seq<Event>, length: int): (r: Result<seq<Event>>)
    requires forall i :: 0 <= i < |motive| ==> !motive[i].ChordEvent?
    ensures r.Err? <==> motive == [] && length < 0
    ensures Length(motive) <= length ==> r == Ok(motive)
    ensures r.Ok? ==> |r.value| == |motive| && Length(r.value) <= length
  {
    if Length(motive) > length then
      if motive == [] then Err(IndexError)
      else
        var last := |motive| - 1;
        var t := motive[last := Retimed(motive[last], length - Length(motive[..last]))];
        assert t[..last] == motive[..last] && t == t[..last] + [t[last]];
        Ok(t)
    else Ok(motive)
  }

  /** Trimming a finished motive succeeds exactly when the length is not
      negative; the result lasts the length exactly, keeps every event but
      the last unchanged, keeps the last one positive and of the same kind,
      and still starts with a note. */
  lemma {:induction false} TrimFits(motive: seq<Event>, length: int)
    requires Fills(motive, length)
    ensures Trim(motive, length).Ok? <==> length >= 0
    ensures length >= 0 ==>
      var t := Trim(motive, length).value;
      && Length(t) == length && |t| == |motive| && NotesAndRests(t)
      && (forall i :: 0 <= i < |t| - 1 ==> t[i] == motive[i])
      && (t != [] ==> t[0].NoteEvent? && t[|t| - 1].NoteEvent? == motive[|t| - 1].NoteEvent?)
  {
    if motive != [] && Length(motive) > length {
      var last := |motive| - 1;
      var t := Trim(motive, length).value;
      assert t[..last] == motive[..last];
      assert Length(t) == Length(motive[..last]) + Ticks(t[last]);
    }
  }

  /** A note of 4 ticks and a note of 8 ticks under a chord of 2 beats: the
      second note is cut to 4 ticks. */
  lemma TrimExample()
    ensures Trim([NoteEvent(Note(60, 4, 100)), NoteEvent(Note(62, 8, 100))], 8) ==
      Ok([NoteEvent(Note(60, 4, 100)), NoteEvent(Note(62, 4, 100))])
  {
    var m := [NoteEvent(Note(60, 4, 100)), NoteEvent(Note(62, 8, 100))];
    assert m[..1] == [m[0]];
    assert [m[0]][..0] == [];
    assert Length(m[..1]) == 4;
    assert Length(m) == 12;
    assert Retimed(m[1], 8 - 4) == NoteEvent(Note(62, 4, 100));
    assert m[1 := NoteEvent(Note(62, 4, 100))] == [NoteEvent(Note(60, 4, 100)), NoteEvent(Note(62, 4, 100))];
  }

  // ---------------------------------------------------------------
  // The walk along the pitch list
  // ---------------------------------------------------------------

  /** The state a motive walks with: the pitch list (which grows by
      accidentals), the interval stack, the position in the pitch list and
      the current pitch, and whether the motive still replays the stack. */
  datatype Walk = Walk(pitches: seq<int>, stack: seq<int>, index: int, pitch: int, replay: bool)

  /** The current pitch is the one at the current position, read with
      Python indexing. */
  predicate OnScale(w: Walk) {
    At(w.pitches, w.index) == Ok(w.pitch)
  }

  /** `pitches.index(pitch)`, and when that raises ValueError, the pitch
      added as an accidental (appended and sorted) and then looked up. */
  function Locate(pitches: seq<int>, pitch: int): (r: (seq<int>, nat))
    requires StrictlyIncreasing(pitches)
    ensures StrictlyIncreasing(r.0) && r.1 < |r.0| && r.0[r.1] == pitch
    ensures pitch in pitches ==> r.0 == pitches
    ensures forall y :: y in r.0 <==> y in pitches || y == pitch
  {
    match IndexOf(pitches, pitch)
    case Ok(i) => (pitches, i)
    case Err(_) =>
      var grown := Insert(pitches, pitch);
      (grown, IndexOf(grown, pitch).value)
  }

  /** The octave discipline: a pitch above C_5 is taken an octave down, a
      pitch below C_2 an octave up, anything else is kept. */
  function Disciplined(raw: int): (p: int)
    ensures p in {raw - 12, raw, raw + 12}
    ensures LowPitch - 12 <= raw <= HighPitch + 12 ==> LowPitch <= p <= HighPitch
    ensures LowPitch <= raw <= HighPitch ==> p == raw
  {
    if raw > HighPitch then raw - 12 else if raw < LowPitch then raw + 12 else raw
  }

  /** A move by `interval` positions from `index`: the pitch at the new
      position, with the octave discipline applied; a moved pitch is looked
      up again. Reading outside the list and logging a pitch without a name
      raise IndexError; a moved pitch missing from the list raises
      ValueError. */
  function Stepped(pitches: seq<int>, index: int, interval: int): (r: Result<(int, int)>)
    ensures r.Ok? ==> At(pitches, index + interval).Ok?
    ensures r.Ok? ==> r.value.0 == Disciplined(At(pitches, index + interval).value)
    ensures r.Ok? ==> At(pitches, r.value.1) == Ok(r.value.0)
  {
    var raw :- At(pitches, index + interval);
    var _ :- NameAt(raw);
    var pitch := Disciplined(raw);
    if pitch == raw then Ok((raw, index + interval))
    else
      var moved :- IndexOf(pitches, pitch);
      var _ :- NameAt(pitch);
      Ok((pitch, moved))
  }

  /** A successful move lands on a pitch of the list at the returned
      position, which is the read pitch under the octave discipline; a
      read outside the list raises IndexError, and a moved pitch missing
      from the list raises ValueError. */
  lemma SteppedLands(pitches: seq<int>, index: int, interval: int)
    ensures var r := Stepped(pitches, index, interval);
      var read := At(pitches, index + interval);
      && (read.Err? ==> r == Err(IndexError))
      && (read.Ok? && NameAt(read.value).Ok? && Disciplined(read.value) !in pitches ==> r == Err(ValueError))
      && (r.Ok? && LowPitch <= read.value <= HighPitch ==> r.value == (read.value, index + interval))
      && (r.Ok? && r.value.0 != read.value ==> r.value.0 in pitches && r.value.0 - read.value in {12, -12})
  {
    var read := At(pitches, index + interval);
    if read.Ok? {
      var i := if index + interval < 0 then |pitches| + index + interval else index + interval;
      assert pitches[i] == read.value;
    }
  }

  /** One pitch step's effect on the walk's stack: while replaying a
      non-empty stack, its front interval is taken off; otherwise the
      replay ends and one interval is pushed at the back. */
  predicate StackStep(w: Walk, next: Walk) {
    if w.replay && w.stack != [] then next.replay && next.stack == w.stack[1..]
    else !next.replay && |next.stack| == |w.stack| + 1 && next.stack[..|w.stack|] == w.stack
  }

  /** A tone of the chord, spread and clamped, an octave up. */
  predicate ChordToneOf(chord: Chord, pitch: int) {
    exists j :: 0 <= j < |Offsets(chord.quality)| && pitch == SpreadNotes(chord, true, None)[j].pitch + 12
  }

  /** Where one pitch step of a motive takes the walk. Replaying, the
      front interval of the stack is taken off and the position moves by
      it (under the octave discipline). Otherwise either the position moves
      by a drawn interval of at most five scale steps, up or down, which is
      pushed; or the pitch becomes a tone of the chord an octave up, located
      in the pitch list (added as an accidental when missing), and the
      change of position is pushed. */
  predicate PitchStep(chord: Chord, w: Walk, next: Walk)
    requires StrictlyIncreasing(w.pitches)
  {
    if w.replay && w.stack != [] then
      && next.replay && next.stack == w.stack[1..] && next.pitches == w.pitches
      && Stepped(w.pitches, w.index, w.stack[0]) == Ok((next.pitch, next.index))
    else
      && !next.replay && |next.stack| == |w.stack| + 1 && next.stack[..|w.stack|] == w.stack
      && var pushed := next.stack[|w.stack|];
      || (&& -5 <= pushed <= 5 && next.pitches == w.pitches
          && Stepped(w.pitches, w.index, pushed) == Ok((next.pitch, next.index)))
      || (&& ChordToneOf(chord, next.pitch) && pushed == next.index - w.index
          && (next.pitches, next.index) == Locate(w.pitches, next.pitch))
  }

  /** One event of a motive on the walk `w`: a note or a rest of positive
      length. The first event is a note on the current pitch; a later note
      is on the pitch a pitch step moved to; a rest leaves the walk as it
      is. */
  predicate EventStep(chord: Chord, w: Walk, first: bool, e: Event, next: Walk, moved: bool)
    requires StrictlyIncreasing(w.pitches)
  {
    && NotesAndRests([e])
    && (first ==> !moved && e == NoteEvent(NewNote(w.pitch, Ticks(e), MelodyVolume)))
    && (e.NoteEvent? && !first ==> moved && e.note == NewNote(next.pitch, Ticks(e), MelodyVolume))
    && (e.RestEvent? ==> !moved)
    && (if moved then PitchStep(chord, w, next) else next == w)
  }

  /** Every event keeps the pitch list rising and every pitch on it, and a
      pitch step takes the stack one step. */
  lemma EventStepKeeps(chord: Chord, w: Walk, first: bool, e: Event, next: Walk, moved: bool)
    requires StrictlyIncreasing(w.pitches) && EventStep(chord, w, first, e, next, moved)
    ensures StrictlyIncreasing(next.pitches) && (forall y :: y in w.pitches ==> y in next.pitches)
    ensures moved ==> StackStep(w, next)
    ensures first ==> e.NoteEvent?
  {
  }

  /** The stack of a walk that started from `stack0`: `popped` intervals
      taken off its front and `pushed` appended at its back. Intervals are
      taken off only when the motive was asked to replay, nothing is
      pushed while it replays, and a replay ends only once the stack ran
      out. */
  predicate Replayed(stack0: seq<int>, w: Walk, popped: nat, pushed: seq<int>, useStack: bool) {
    && popped <= |stack0| && w.stack == stack0[popped..] + pushed
    && (popped > 0 ==> useStack)
    && (w.replay ==> pushed == [] && useStack)
    && (!w.replay ==> popped == 0 || popped == |stack0|)
  }

  /** Every pitch step keeps the bookkeeping of the stack. */
  lemma ReplayStep(stack0: seq<int>, w: Walk, next: Walk, popped: nat, pushed: seq<int>, useStack: bool)
    returns (popped': nat, pushed': seq<int>)
    requires Replayed(stack0, w, popped, pushed, useStack) && StackStep(w, next)
    ensures Replayed(stack0, next, popped', pushed', useStack)
  {
    if w.replay && w.stack != [] {
      popped', pushed' := popped + 1, pushed;
      assert w.stack[1..] == stack0[popped + 1..];
    } else {
      popped', pushed' := popped, pushed + [next.stack[|w.stack|]];
      assert next.stack == w.stack + [next.stack[|w.stack|]];
    }
  }
}
