/** The onset loop of track creation: every event starts where the events
    before it end; notes are placed at their onset, chords are spread into
    notes at their onset, rests only move time on. */
module Track {
  import opened Wrappers
  import opened Music

  /** A note placed on the track: what the MIDI writer receives. */
  datatype Placed = Placed(pitch: int, onset: int, ticks: int, volume: int)

  function Place(notes: seq<Note>, onset: int): (placed: seq<Placed>)
    ensures |placed| == |notes|
    ensures forall i :: 0 <= i < |notes| ==>
      placed[i] == Placed(notes[i].pitch, onset, notes[i].ticks, notes[i].volume)
  {
    seq(|notes|, i requires 0 <= i < |notes| => Placed(notes[i].pitch, onset, notes[i].ticks, notes[i].volume))
  }

  /** What one event puts on the track when it starts at `onset`. */
  function Emitted(e: Event, onset: int): seq<Placed> {
    match e
    case NoteEvent(n) => Place([n], onset)
    case RestEvent(_) => []
    case ChordEvent(c) => Place(SpreadNotes(c, true, None), onset)
  }

  /** The whole track: each event emitted at the summed length of the
      events before it. */
  function Timeline(events: seq<Event>): seq<Placed> {
    if events == [] then []
    else
      var last := |events| - 1;
      Timeline(events[..last]) + Emitted(events[last], Length(events[..last]))
  }

  /** Appending an event emits it at the length of the events before it. */
  lemma TimelineAppend(events: seq<Event>, e: Event)
    ensures Timeline(events + [e]) == Timeline(events) + Emitted(e, Length(events))
    ensures Length(events + [e]) == Length(events) + Ticks(e)
  {
    assert (events + [e])[..|events|] == events;
  }

  /** `create_track`'s loop over the items, with the onset accumulator. */
  method CreateTrack(events: seq<Event>) returns (placed: seq<Placed>)
    ensures placed == Timeline(events)
  {
    placed := [];
    var onset := 0;
    for i := 0 to |events|
      invariant onset == Length(events[..i])
      invariant placed == Timeline(events[..i])
    {
      var item := events[i];
      var emitted := Emit(item, onset);
      TimelineAppend(events[..i], item);
      assert events[..i + 1] == events[..i] + [item];
      placed := placed + emitted;
      onset := onset + Ticks(item);
    }
    assert events[..|events|] == events;
  }

  /** One pass of `create_track`'s loop: nothing for a rest, the note for
      a note, the spread for a chord, all at the onset. */
  method Emit(item: Event, onset: int) returns (emitted: seq<Placed>)
    ensures emitted == Emitted(item, onset)
  {
    match item {
      case RestEvent(_) =>
        emitted := [];
      case NoteEvent(n) =>
        emitted := [Placed(n.pitch, onset, n.ticks, n.volume)];
      case ChordEvent(c) =>
        emitted := PlaceChord(c, onset);
    }
  }

  /** The inner loop for a chord item: every spread note at the chord's
      onset. */
  method PlaceChord(c: Chord, onset: int) returns (placed: seq<Placed>)
    ensures placed == Place(SpreadNotes(c, true, None), onset)
  {
    var notes := Spread(c, true, None);
    placed := [];
    for k := 0 to notes.Length
      invariant placed == Place(notes[..k], onset)
    {
      placed := placed + [Placed(notes[k].pitch, onset, notes[k].ticks, notes[k].volume)];
    }
    assert notes[..] == notes[..notes.Length];
  }

  /** Everything an event emits lasts as long as the event. */
  lemma {:induction false} EmittedLasts(e: Event, onset: int, p: Placed)
    requires p in Emitted(e, onset)
    ensures p.onset == onset && p.ticks == Ticks(e)
  {
    match e
    case NoteEvent(n) =>
    case RestEvent(_) =>
    case ChordEvent(c) =>
      var notes := SpreadNotes(c, true, None);
      var i :| 0 <= i < |notes| && p == Place(notes, onset)[i];
      SpreadTones(c, true, None, i);
  }

  /** Onsets never decrease along `t`, and every placed note starts at or
      after 0, lasts a non-negative time and ends by `end`. */
  predicate InOrder(t: seq<Placed>, end: int) {
    && (forall i, j :: 0 <= i < j < |t| ==> t[i].onset <= t[j].onset)
    && (forall i :: 0 <= i < |t| ==> 0 <= t[i].onset && 0 <= t[i].ticks && t[i].onset + t[i].ticks <= end)
  }

  /** When no event has a negative duration, the track is in order and
      every note ends by the end of the last event. */
  lemma {:induction false} TimelineOrdered(events: seq<Event>)
    requires forall i :: 0 <= i < |events| ==> Ticks(events[i]) >= 0
    ensures InOrder(Timeline(events), Length(events))
  {
    if events != [] {
      var last := |events| - 1;
      var prefix := events[..last];
      var start := Length(prefix);
      TimelineOrdered(prefix);
      var before, here := Timeline(prefix), Emitted(events[last], start);
      assert InOrder(before, start);
      assert Length(events) == start + Ticks(events[last]);
      forall p | p in here
        ensures p.onset == start && 0 <= p.ticks && p.onset + p.ticks == Length(events)
      {
        EmittedLasts(events[last], start, p);
      }
      LengthNonNegative(prefix);
      AppendInOrder(before, here, start, Length(events));
      assert Timeline(events) == before + here;
    }
  }

  /** Notes that all start at the end of an ordered track, and last a
      non-negative time, extend it in order. */
  lemma AppendInOrder(before: seq<Placed>, here: seq<Placed>, start: int, end: int)
    requires InOrder(before, start) && 0 <= start <= end
    requires forall p | p in here :: p.onset == start && 0 <= p.ticks && p.onset + p.ticks == end
    ensures InOrder(before + here, end)
  {
    var t := before + here;
    forall i | 0 <= i < |t|
      ensures 0 <= t[i].onset && 0 <= t[i].ticks && t[i].onset + t[i].ticks <= end
    {
      if i >= |before| {
        assert t[i] == here[i - |before|];
      }
    }
    forall i, j | 0 <= i < j < |t|
      ensures t[i].onset <= t[j].onset
    {
      if j >= |before| {
        assert t[j] == here[j - |before|];
        if i >= |before| {
          assert t[i] == here[i - |before|];
        }
      }
    }
  }

  lemma {:induction false} LengthNonNegative(events: seq<Event>)
    requires forall i :: 0 <= i < |events| ==> Ticks(events[i]) >= 0
    ensures Length(events) >= 0
  {
    if events != [] {
      LengthNonNegative(events[..|events| - 1]);
    }
  }

  /** Every placed note is within the MIDI range. */
  predicate Playable(t: seq<Placed>) {
    forall i :: 0 <= i < |t| ==> MinPitch <= t[i].pitch <= MaxPitch
  }

  /** Notes within the MIDI range, rests and chords place only notes within
      the MIDI range: a chord is spread with clamping. */
  lemma {:induction false} TimelinePlayable(events: seq<Event>)
    requires forall i :: 0 <= i < |events| ==> events[i].NoteEvent? ==> MinPitch <= events[i].note.pitch <= MaxPitch
    ensures Playable(Timeline(events))
  {
    if events != [] {
      var last := |events| - 1;
      var e := events[last];
      TimelinePlayable(events[..last]);
      var before, here := Timeline(events[..last]), Emitted(e, Length(events[..last]));
      forall i | 0 <= i < |here|
        ensures MinPitch <= here[i].pitch <= MaxPitch
      {
        if e.ChordEvent? {
          ClampedSpreadRange(e.chord, i);
        }
      }
      assert Timeline(events) == before + here;
    }
  }

  /** A negative duration makes the next event start before the one that
      precedes it. */
  lemma NegativeDurationRewinds()
    ensures Timeline([NoteEvent(Note(45, -4, 80)), NoteEvent(Note(45, 4, 80))]) ==
      [Placed(45, 0, -4, 80), Placed(45, -4, 4, 80)]
  {
    var events := [NoteEvent(Note(45, -4, 80)), NoteEvent(Note(45, 4, 80))];
    assert events[..1] == [events[0]];
    assert [events[0]][..0] == [];
  }
}
