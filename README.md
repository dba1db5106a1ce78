# Ripples composition engine in Dafny

This project models the composition engine of *ripples*, a generator of
short pieces of music. It covers two parts of the engine.

- **Pieces** (`rippleslib/ripples.py`): drawing a piece's parameters, then
  for each of three sections a chord progression, a bass line and a
  melody of motives, then a pattern of sections and an ending, then the
  placement of each track on a timeline.
- **Note-name and instrument tables** (`rippleslib/gm.py`): the tables the
  engine reads.

The engine consumes a random stream. The model makes every call to
`random.choice`, `random.choices` and `random.randint` an explicit draw
from a `Draws.Random` object. That object wraps an arbitrary stream of
naturals and a counter of the draws consumed. Any stream is a possible run.

The modules are:

- `Wrappers`: `Option`, `Result` and the Python exceptions the engine can raise (`KeyError`, `IndexError`, `ValueError`).
- `Lists`: negative indexing, `list.index`, and append-then-sort on a sorted list.
- `Draws`: the random stream. A choice among `n` is the draw modulo `n`. A weighted choice is the cumulative-weight search over the draw modulo the total weight.
- `Gm`: `NOTE_NAMES`, `NOTE_CLASS` and `NOTE_NUMS`, together with the loops that build them, and the instrument family sets and pools.
- `Music`: notes, rests and chords, the chord-quality table, and `Chord.spread`.
  - Durations are counted in sixteenth notes ("ticks"). The engine's beat values 4, 2, 1.5, 1, 0.75, 0.5 and 0.25 become 16, 8, 6, 4, 3, 2 and 1.
  - A chord keeps whole beats.
- `Scale`: the key templates and `get_pitches`.
- `Durations`: the duration profiles and the run buffer of `gen_duration`.
- `Harmony`: `ChordStrategy`, which covers the profiles, `get_chord` and its seventh rules.
- `Progression`: measure splitting, chord lists and the three bass styles.
- `Motives`: the pure side of melody generation.
  - the weight profiles and the octave discipline;
  - the walk along the pitch list, including accidentals and moves by an interval;
  - the bookkeeping of the interval stack;
  - trimming a motive to its chord.
- `Track`: the onset loop of `create_track`.
- `Compose`: the `Piece` class.
  - its parameters, the progression, the bass, the melody and its motives;
  - the section pattern, the assembled structure and the rendered tracks.

## Model

| member | source | states |
|---|---|---|
| Lists.At | rippleslib/ripples.py:695-698 | Reading `pitches[i]` succeeds exactly when `-len <= i < len`, a negative index counting from the end; any other index raises IndexError |
| Lists.IndexOf | rippleslib/ripples.py:646-653 | `list.index` returns the first position holding the value, and raises ValueError exactly when the value is absent |
| Lists.Insert | rippleslib/ripples.py:649-653 | Appending a missing pitch and sorting keeps the list strictly increasing, adds exactly that pitch (the multiset grows by it) and nothing else |
| Draws.WeightIsFrequency | rippleslib/ripples.py:197-200 | In a weighted choice, exactly `w[k]` of the `sum(w)` equally likely draw values select entry `k`, so weights are frequencies and zero weights are never chosen |
| Draws.PickIsSlice | rippleslib/ripples.py:197-200 | A draw selects the entry whose cumulative-weight slice holds it |
| Draws.Random.Below | rippleslib/ripples.py:300 | `random.choice` over `n` items gives an index below `n` determined by the next draw, and consumes one draw |
| Draws.Random.Weighted | rippleslib/ripples.py:277 | `random.choices(...)[0]` gives an entry of positive weight, determined by the next draw, and consumes one draw |
| Draws.Random.RandInt | rippleslib/ripples.py:407 | `random.randint(lo, hi)` gives a value in `lo..hi` inclusive, and consumes one draw |
| Gm.BuildNoteNames | rippleslib/gm.py:11-15 | The octave loop over -2..8 builds 132 entries: `NOTE_CLASS[n]` is the template name of `n mod 12`, and `NOTE_NAMES[n]` is that name, `_`, then the octave `n div 12 - 2` |
| Gm.NoteNamesDistinct | rippleslib/gm.py:13-15 | No two note numbers share a name |
| Gm.NoteNamesInjective | rippleslib/gm.py:13-21 | Any two numbers in 0..131 with the same name are equal, so `NOTE_NUMS` can map each name back to one number |
| Gm.NoteNumbers | rippleslib/gm.py:19-21 | `NOTE_NUMS` maps the name of every number in 0..131 back to that number, and holds no other names |
| Gm.BuildNoteNumbers | rippleslib/gm.py:19-21 | The `enumerate` loop builds exactly `NOTE_NUMS`: it never overwrites an entry, because the names are distinct |
| Gm.TemplateShape | rippleslib/gm.py:10 | A class name is a letter, optionally followed by `#` |
| Gm.TemplateDistinct | rippleslib/gm.py:10 | The twelve class names are distinct |
| Gm.NamedNotes | rippleslib/gm.py:7-18 | The table examples: 60 is C_3 of class C, 0 is C_-2, 127 is G_8, 45 is A_1, 62 is D_3, 48 is C_2 and 84 is C_5 |
| Gm.ProgramRange | rippleslib/gm.py:40 | `list(range(first, last + 1))` holds exactly the programs `first..last`, in order |
| Gm.FamiliesTilePrograms | rippleslib/gm.py:40-247 | Each of the sixteen family sets is the eight consecutive programs `8k..8k+7` |
| Gm.BassSetIsThirtyTwoToThirtyNine | rippleslib/gm.py:88 | `BASS_SET` is programs 32 to 39 |
| Gm.PoolsAvoidBass | rippleslib/gm.py:249-262 | The lead-like pool (80 programs) and the accompaniment pool (24 programs) contain no bass program |
| Gm.OrgansAreShared | rippleslib/gm.py:249-262 | The organ family is in both the lead-like and the accompaniment pool |
| Music.NewNote | rippleslib/ripples.py:43-48 | The Note constructor pins the pitch into 0..127 (below becomes 0, above becomes 127, otherwise unchanged) and keeps the duration and volume |
| Music.NoteLimits | rippleslib/ripples.py:43-48 | The constructor examples: -1 becomes 0, 128 becomes 127, and 60 stays 60 |
| Music.OffsetsShape | rippleslib/ripples.py:104-119 | Every chord quality has three or four tones that start at the root and rise within the octave |
| Music.Built | rippleslib/ripples.py:135-138 | `spread` starts with one constructed note per offset, at root plus offset, lasting the chord's duration at its volume |
| Music.Build | rippleslib/ripples.py:135-138 | The array of notes `spread` starts from is `Built` |
| Music.Inverted | rippleslib/ripples.py:143-148 | Inversion 1 raises the first note an octave, and inversion 2 raises the first two |
| Music.Clamped | rippleslib/ripples.py:150-155 | With the clamp, each note moves up an octave if it is below the window, then down an octave if it is above it |
| Music.ClampInPlace | rippleslib/ripples.py:150-155 | The in-place clamp loop turns the array into `Clamped` of its old contents |
| Music.Spread | rippleslib/ripples.py:132-157 | `spread` builds, inverts in place and clamps in place, giving exactly `SpreadNotes` |
| Music.ToWindowMoves | rippleslib/ripples.py:150-155 | The clamp moves a pitch by at most an octave and keeps its pitch class; a pitch inside the window stays; a pitch within an octave of a window at least an octave wide lands inside it |
| Music.WindowNotGuaranteed | rippleslib/ripples.py:150-155 | The clamp is not a guarantee: 84 is lowered once, to 72, which is still above D_3 |
| Music.SpreadTones | rippleslib/ripples.py:132-157 | A spread has one note per offset, at root plus offset (pinned), raised an octave for inverted tones; when clamped, each note moves at most an octave with its pitch class kept; every note lasts the chord's duration at its volume |
| Music.ClampedSpreadRange | rippleslib/ripples.py:150-155 | A spread clamped to the default window never leaves 12..127 |
| Music.SpreadExamples | tests/test_ripples.py:82-97 | A C major and a C minor chord on C_2, spread without the clamp |
| Music.ClampExamples | tests/test_ripples.py:99-106 | C major on C_1 is clamped up to C_2 E_2 G_2, and C major on C_5 is clamped down to C_4 E_4 G_4 |
| Music.InversionExamples | tests/test_ripples.py:108-119 | Inversions 1 and 2 of C_3 major, with and without the clamp |
| Music.InversionBypassesClamp | rippleslib/ripples.py:143-148 | Raising after construction bypasses the constructor's clamp: an inverted chord on 127 sounds at 139 |
| Music.LengthAppend | rippleslib/ripples.py:619-621 | The summed duration of two event lists placed one after the other is the sum of their durations |
| Music.NoteLengthAppend | rippleslib/ripples.py:497-503 | Extending one note list by another extends its events the same way, and the durations add up |
| Scale.TemplateIsTransposedMajor | rippleslib/ripples.py:311-324 | Each key template lists seven rising pitch classes: exactly the classes whose distance above the key is a degree of the major scale |
| Scale.ScaleRises | rippleslib/ripples.py:331-335 | The 63 pitches of a key rise strictly, and the class of each pitch is its template entry |
| Scale.ScaleIncreasing | rippleslib/ripples.py:331-335 | The 63 pitches of a key rise strictly |
| Scale.ScaleClasses | rippleslib/ripples.py:331-335 | The class of each pitch of a key is its template entry |
| Scale.OctaveList | rippleslib/ripples.py:331-333 | The octave loop over offsets 0, 12, ..., 96 builds `ScalePitches` |
| Scale.ClassIndex | rippleslib/ripples.py:326-327 | The lookup of `NOTE_CLASS[root]` succeeds exactly for `-132 <= root < 132`, giving the class `root mod 12`; any other root raises IndexError |
| Scale.GetPitches | rippleslib/ripples.py:305-335 | `get_pitches` gives the pitch list of the root's class; a root that is not an integer falls back to C; an out-of-table root raises IndexError |
| Scale.CMajorPitches | rippleslib/ripples.py:331-335 | The key of C_2 gives the pitches 0, 2, 4, 5, 7, 9, 11, 12, ... up to 107, and holds 48 |
| Durations.ProfilesShape | rippleslib/ripples.py:178-182 | Each duration profile has one positive-total weight per duration |
| Durations.DurationPolicy.SelectProfile | rippleslib/ripples.py:184-191 | `select_duration_profile` draws one of the three profiles uniformly, stores its weights and returns its name |
| Durations.DurationPolicy.Next | rippleslib/ripples.py:206-222 | One `next(gen_duration())` yields a listed positive duration and keeps the buffer a run of one short duration; its value, buffer and draws are `Step` |
| Durations.StepKeepsRun | rippleslib/ripples.py:206-222 | Every step yields a listed positive duration, consumes at least one draw, and leaves at most three copies of one short duration in the buffer |
| Durations.BufferedIgnoresDraw | rippleslib/ripples.py:218-220 | While the buffer holds values, a call yields and drops its last value and discards the fresh draw, which is still consumed |
| Durations.DrainRun | rippleslib/ripples.py:218-220 | A buffer of copies is yielded in full, one copy per call, and left empty |
| Durations.ShortDrawRun | rippleslib/ripples.py:211-220 | A short duration drawn with an empty buffer yields a run of four (first coin face) or two equal values, after which the buffer is empty |
| Durations.LongDrawPassesThrough | rippleslib/ripples.py:221-222 | A long duration drawn with an empty buffer is yielded as it is |
| Harmony.ChordProfilesShape | rippleslib/ripples.py:256-266 | Each chord profile has one weight per candidate, with a positive total |
| Harmony.ChoiceFacts | rippleslib/ripples.py:237-254 | Every candidate is a triad whose tones, and the tones of its seventh extension, are in the key; the extension keeps the triad and adds at most one tone |
| Harmony.Extended | rippleslib/ripples.py:283-297 | The seventh extension keeps the triad as its first three tones. It stays the triad exactly for a sus2 chord off degrees 2, 7 and 9 and a sus4 chord off degrees 2, 4, 5 and 9; otherwise it adds a fourth tone, the major seventh (11) for a major chord off the fifth degree and the minor seventh (10) for every other chord |
| Harmony.ChordFromDraws | rippleslib/ripples.py:275-302 | `get_chord` gives a shift that is a major-scale degree and an inversion in 0..2; with the override, the shift is 0 and the quality is major or its seventh |
| Harmony.ChordStaysInKey | rippleslib/ripples.py:275-302 | Every chord `get_chord` can return keeps the candidate's shift and triad, and all its tones are in the key |
| Harmony.ChordStrategy.SelectProfile | rippleslib/ripples.py:268-272 | `select_chord_profile` stores one of the four profiles, drawn uniformly |
| Harmony.ChordStrategy.GetChord | rippleslib/ripples.py:274-302 | `get_chord` makes three draws and returns `ChordFromDraws`: in key, with a scale-degree shift and an inversion in 0..2, forced to the tonic when asked |
| Progression.SplitOptionsSum | rippleslib/ripples.py:537-544 | Every split in the table adds up to its meter, in parts of at least two beats |
| Progression.SubMeasures | rippleslib/ripples.py:530-544 | The sub-measures of a measure add up to the meter and are positive for a positive meter; an unsplit measure, or a meter below 4 or above 7, is the whole measure |
| Progression.MeasureSplit | rippleslib/ripples.py:530-544 | The drawn sub-measures add up to the meter, are never empty, and are positive for a positive meter |
| Progression.ChordOf | rippleslib/ripples.py:553-560 | A chord built from a pick of `get_chord` is in the key and lasts its sub-measure |
| Progression.ChordsLength | rippleslib/ripples.py:562 | Chords placed on a track last their summed beats |
| Progression.BassFor | rippleslib/ripples.py:570-587 | Every bass note is at volume 80 and has the pitch the Note constructor gives the chord's root an octave down, so a root below 12 gives pitch 0 and a root above 139 gives 127 |
| Progression.BassForLength | rippleslib/ripples.py:570-587 | Each bass style lasts exactly as long as its chord, except that a marching bass plays nothing under a chord of negative length |
| Progression.BassLineLength | rippleslib/ripples.py:566-589 | A bass line lasts as long as its chords; for the marching style this needs no chord of negative length |
| Progression.BassLineAppend | rippleslib/ripples.py:569-589 | The bass line of two chord lists placed one after the other is their bass lines placed one after the other |
| Progression.BassLineNotes | rippleslib/ripples.py:566-589 | Every bass note has a MIDI pitch in 0..127, and none lasts a negative time when every chord lasts at least a beat |
| Progression.BassExamples | rippleslib/ripples.py:572-587 | A marching bass plays one note per beat; a marco bass under a one-beat chord plays a note of no length |
| Motives.PitchBoundsNamed | rippleslib/ripples.py:639-641 | The melody bounds 48 and 84 are the numbers of C_2 and C_5 |
| Motives.ProfilesShape | rippleslib/ripples.py:597-608 | The interval and contour profiles have positive totals and the right number of weights |
| Motives.NameAt | rippleslib/ripples.py:658 | `NOTE_NAMES[p]` succeeds exactly for `-132 <= p < 132`. It gives the name of `p` for `p >= 0`, the name of `132 + p` for `p < 0`, and raises IndexError for any other pitch |
| Motives.GrowingAppend | rippleslib/ripples.py:659-735 | An event of positive length drawn before the length is reached keeps the motive growing, with a note first |
| Motives.Retimed | rippleslib/ripples.py:622-623 | Rewriting an event's duration keeps its kind and pitch |
| Motives.Trim | rippleslib/ripples.py:619-625 | The cut of the last event fails exactly when the motive is empty and the chord's length negative; a motive within the length is kept as it is; otherwise the result has as many events and lasts at most the length |
| Motives.TrimFits | rippleslib/ripples.py:616-627 | Trimming a finished motive succeeds exactly when the chord's length is not negative; the result lasts exactly that length, changes only the last event, keeps it positive and of its kind, and still starts with a note |
| Motives.TrimExample | rippleslib/ripples.py:619-623 | A 4-tick note followed by an 8-tick note under a 2-beat chord: the second note is cut to 4 ticks |
| Motives.Locate | rippleslib/ripples.py:646-653 | Looking up a pitch, adding it as an accidental when it is missing, gives a strictly increasing list holding it at the returned position, unchanged if it was there, with no other pitch added |
| Motives.Disciplined | rippleslib/ripples.py:700-707 | The octave discipline moves a pitch by at most an octave; it keeps a pitch inside C_2..C_5, and brings one within an octave of that range into it |
| Motives.Stepped | rippleslib/ripples.py:697-707 | A successful move by an interval reads a pitch at the moved position, and lands on the disciplined form of that pitch at the position the list holds it |
| Motives.SteppedLands | rippleslib/ripples.py:694-707 | A move reading outside the list raises IndexError; a successful move lands at the returned position on the disciplined read pitch; a moved pitch missing from the list raises ValueError |
| Motives.ReplayStep | rippleslib/ripples.py:674-712 | Each pitch step keeps the stack bookkeeping: intervals leave only from the front and only while replaying, join only at the back, and a replay ends only once the stack ran out |
| Motives.EventStepKeeps | rippleslib/ripples.py:660-735 | Every motive event keeps the pitch list strictly increasing and keeps all its pitches; a moved pitch keeps the stack bookkeeping; the first event is a note |
| Track.Place | rippleslib/ripples.py:765-773 | Each note is placed at the onset with its pitch, duration and volume |
| Track.TimelineAppend | rippleslib/ripples.py:775-789 | An appended event is emitted at the summed duration of the events before it |
| Track.CreateTrack | rippleslib/ripples.py:775-789 | The onset loop places each event at the running sum of the durations before it: rests emit nothing, notes emit themselves, chords emit their clamped spread |
| Track.Emit | rippleslib/ripples.py:777-786 | One pass of the loop emits what `Emitted` says: nothing for a rest, the note for a note, the clamped spread for a chord, all at the onset |
| Track.PlaceChord | rippleslib/ripples.py:782-785 | A chord emits every note of its clamped spread at its onset |
| Track.EmittedLasts | rippleslib/ripples.py:775-789 | Everything an event emits starts at its onset and lasts as long as the event |
| Track.TimelineOrdered | rippleslib/ripples.py:775-789 | With no negative duration, onsets never decrease, and every placed note starts at or after 0 and ends by the end of the last event |
| Track.TimelinePlayable | rippleslib/ripples.py:775-789 | When every note event has a MIDI pitch, so does every note placed on the track, chord notes included |
| Track.NegativeDurationRewinds | rippleslib/ripples.py:580-582 | A negative duration (a marco bass under a chord of no beats) makes the next note start before the previous one |
| Compose.KeyChoicesNamed | rippleslib/ripples.py:380-393 | Each key choice is the name of its note number |
| Compose.NumberNamed | rippleslib/gm.py:19-21 | A note name's number is in the table and has that name |
| Compose.KeyRoot | rippleslib/ripples.py:393-396 | The key root is the number of the given key name, or of the drawn choice when none is given (an empty name counts as none); an unknown name falls back to C_2 |
| Compose.Drawn | rippleslib/ripples.py:379-415 | The parameters: a key below 132, drawn from C_2..B_2 without F#_2 when none is given; a tempo in 90..124; a meter in 2..7 when none is given |
| Compose.DrawParameters | rippleslib/ripples.py:393-415 | The five draws of `generate` in order (key, meter, tempo, duration profile, bass style) give `Drawn`, and the drawn profile is stored |
| Compose.Piece.ChooseParameters | rippleslib/ripples.py:379-415 | The piece's key, meter, tempo and bass style are `Drawn` from the draws; its pitch list is the key's scale |
| Compose.KeyPitches | rippleslib/ripples.py:397 | The pitch list of a key in 0..127 is the scale of its pitch class, and it rises strictly |
| Compose.Piece.SplitMeasure | rippleslib/ripples.py:530-544 | The sub-measures of one measure are `MeasureSplit` of the draws |
| Compose.Piece.ChordsFor | rippleslib/ripples.py:546-562 | One in-key chord per sub-measure, lasting that sub-measure; only the first chord asked for as first is on the tonic |
| Compose.Piece.KeyedAppend | rippleslib/ripples.py:553-560 | A chord from the key lasting its sub-measure, appended, keeps every chord in key and lasting its sub-measure |
| Compose.Piece.MeasureChords | rippleslib/ripples.py:529-562 | A measure's chords are in key and last exactly one measure |
| Compose.Piece.GenerateChords | rippleslib/ripples.py:521-564 | A progression lasts measures times the meter, is empty exactly when there are no measures, is in key, and opens on the tonic in the first section |
| Compose.Piece.GenerateBass | rippleslib/ripples.py:566-589 | The bass is `BassLine` of the piece's style under the chords |
| Compose.Piece.ChordTone | rippleslib/ripples.py:644-645 | A drawn tone is one of the chord's clamped spread, an octave up, and lies in 24..139 |
| Compose.Piece.StartWalk | rippleslib/ripples.py:644-658 | A motive starts on a tone of the chord's clamped spread an octave up, located by `Locate`: found in the pitch list, or added to it as an accidental; the stack and the replay flag are unchanged |
| Compose.Piece.NextPitch | rippleslib/ripples.py:673-727 | While replaying, the next pitch is the move by the stack's front interval, which leaves the stack. Otherwise one interval joins the stack's back: either a drawn move in -5..5 along the unchanged list, or a chord tone located by `Locate`, with the interval the change of position |
| Compose.Piece.NextEvent | rippleslib/ripples.py:660-735 | The first event is a note on the starting pitch. Every later note is on the pitch `NextPitch` chose, and a rest leaves the walk as it was. Every event lasts a positive time and its pitch is in 0..127 |
| Compose.Piece.GenerateMotive | rippleslib/ripples.py:631-738 | The motive fills its length (a note first, drawn until the length is reached); pitches are never lost; the stack loses intervals only from its front and only when asked to replay, and gains them only at its back once emptied or when not replaying |
| Compose.Piece.Walked | rippleslib/ripples.py:660-736 | The loop of `generate_motive` fills the length with a note first, keeps the pitch list increasing and every pitch in it, and keeps the stack bookkeeping |
| Compose.Piece.ChooseMelodyProfiles | rippleslib/ripples.py:595-612 | One interval profile and one contour, one draw each, and an emptied stack |
| Compose.Piece.ChordMelody | rippleslib/ripples.py:616-627 | The melody under a chord is notes and rests lasting exactly the chord; it fails for a chord of negative length |
| Compose.Piece.GenerateMelody | rippleslib/ripples.py:591-629 | A melody is notes and rests lasting exactly as long as its chords; none of those chords has a negative length |
| Compose.Piece.SectionChords | rippleslib/ripples.py:466-473 | A section's progression is in key, non-empty, lasts 4, 6 or 8 measures, and opens on the tonic in the first section |
| Compose.Piece.GenerateSection | rippleslib/ripples.py:463-477 | A section's bass and melody last exactly as long as its chords; its chords are in key and never negative; its melody is notes and rests; the meter is not negative |
| Compose.Piece.GenerateSections | rippleslib/ripples.py:461-477 | The three sections are sound, and section "a" opens on the tonic |
| Compose.SoundJoin | rippleslib/ripples.py:497-503 | Two sound sections placed one after the other form a sound section: the parts still last as long as the chords, the chords stay in key and never negative, the bass is still the bass line of the chords, and the melody holds notes and rests |
| Compose.NonNegativeAppend | rippleslib/ripples.py:497-503 | Two chord lists with no negative length, one after the other, have none either |
| Compose.MelodyGrows | rippleslib/ripples.py:616-627 | Appending the melody under the next chord keeps the melody notes and rests, lasting as long as the chords so far |
| Compose.InsertAt | rippleslib/ripples.py:486-488 | `list.insert` at a position after the first keeps the first label, places the new one there, and adds nothing else |
| Compose.DrawPattern | rippleslib/ripples.py:481-491 | The pattern and the draws consumed are `PatternFrom` of the draws: the number of rounds from `randint(2, 6)`, then each round's appended label and inserted "b" and "c". The pattern is shaped: only labels a, b and c, starting with "a", containing "b" and "c", with 4 to 9 labels, and exactly "a" with only one section |
| Compose.DrawRounds | rippleslib/ripples.py:481-489 | The loop of the pattern gives the pattern and the draws of `PatternRounds` from "a" |
| Compose.DrawRound | rippleslib/ripples.py:483-489 | One round gives the pattern and the draws of `PatternRound`: a drawn label appended, then any missing "b" and "c" inserted at drawn positions after the first |
| Compose.DrawLabel | rippleslib/ripples.py:484-489 | A missing label is inserted at the position drawn by `randint(1, len(pattern))`; a present one costs no draw |
| Compose.PatternRoundShape | rippleslib/ripples.py:483-489 | After any round the pattern holds both "b" and "c", starts with "a", and grew by one to three labels; by exactly one once both were there |
| Compose.PatternRoundsShape | rippleslib/ripples.py:482-489 | Once "b" and "c" are in, each further round adds exactly one label and keeps both |
| Compose.PatternShape | rippleslib/ripples.py:481-491 | Every drawn pattern is shaped as `DrawPattern` states, whatever the draws |
| Compose.Arrange | rippleslib/ripples.py:496-503 | The assembly loop gives `Arranged`: the sections in pattern order, one after another |
| Compose.ArrangedSound | rippleslib/ripples.py:496-503 | Sound sections arranged in any pattern make a sound whole |
| Compose.ArrangedOpens | rippleslib/ripples.py:481-503 | A pattern starting with "a" puts section a's first chord first |
| Compose.Ending | rippleslib/ripples.py:505-515 | The ending is one chord, one bass note and one melody note: the uninverted major triad of the key for a measure, a bass note lasting one beat on the key root an octave down (clamped into 0..127), and a melody note lasting as long as the chord, on the drawn tone when it is in 0..127 |
| Compose.EndingEnds | rippleslib/ripples.py:505-515 | A sound body followed by the ending ends the piece: the tonic triad for a measure, the root an octave down for one beat, and a melody note of MIDI pitch for a measure |
| Compose.Piece.GenerateStructure | rippleslib/ripples.py:456-519 | The structure is the arranged sections followed by the ending, on a tone of the tonic triad's clamped spread an octave up. The pattern is shaped as `DrawPattern` states, every section is sound, the piece opens on the tonic and ends as `EndingEnds` states, and the meter is not negative |
| Compose.Piece.ArrangeAndEnd | rippleslib/ripples.py:479-515 | Sound sections arranged in a drawn pattern and followed by the ending on a drawn chord tone end the piece, and the piece opens on the tonic |
| Compose.TracksInOrder | rippleslib/ripples.py:505-515 | In a finished piece the melody lasts as long as the chords, and both tracks are in order and end together; the bass ends `meter - 1` beats earlier, because its last note lasts one beat |
| Compose.EndsLengths | rippleslib/ripples.py:505-515 | In a finished piece the melody lasts as long as the chords, and the bass one beat longer than the chords before the ending |
| Compose.ChordTrackOrdered | rippleslib/ripples.py:775-789 | Chords of no negative length give a chord track in order that ends with the chords |
| Compose.MelodyTrackOrdered | rippleslib/ripples.py:775-789 | Notes and rests followed by a last event of no negative length give a melody track in order that ends with the melody |
| Compose.BassInOrder | rippleslib/ripples.py:566-589 | For a positive meter the bass track is in order too: onsets never decrease and every note ends by the end of the bass line |
| Compose.TracksPlayable | rippleslib/ripples.py:418-448 | Every note placed on any of the three tracks of a finished piece has a MIDI pitch in 0..127 |
| Compose.Render | rippleslib/ripples.py:418-448 | The three tracks are the timelines of the chords, the bass and the melody; the chord and melody tracks are in order, the bass track too for a positive meter, and every placed pitch is in 0..127 |
| Compose.Piece.Generate | rippleslib/ripples.py:361-454 | `generate` draws `Drawn` parameters; a successful piece ends as `EndingEnds` states, and its tracks are placed as `Render` states |
| Compose.Piece.Perform | rippleslib/ripples.py:418-454 | Once the parameters are drawn, a successful structure ends the piece and its tracks are placed as `Render` states |

## Left out

- The random module and its seeding are left out (`random.seed` before and after generation). Draws are inputs, so nothing here says which Mersenne Twister output a seed produces.
- The instrument picks of `generate` are left out. They are drawn before seeding and use none of the seeded stream.
- The MIDI file calls are left out: tempo, track name, program change, time signature and the text of chord names. A track is the list of placed notes.
- The detach noise of `add_note` is left out: the 0, 0.01 or 0.02 beats subtracted from each note's length. It is float noise drawn after the structure is complete, so it changes no other draw.
- Logging is left out. Its `NOTE_NAMES[pitch]` lookups are kept, because an out-of-table pitch raises IndexError inside them.
- `main`, argument parsing, file writing and playback are left out. These are I/O.
- The string forms are left out: `__str__`, `__repr__`, the `name` properties and `chord_listing`. They are presentation.
- Chord qualities are a datatype, so the KeyError of `spread` on an unknown quality cannot arise in the model. Every quality `get_chord` forms is one of the table's keys, and that fact is what the datatype records.
- `Rest` has no class of its own. A rest is the `RestEvent` of an event list.
- Compose.Piece.Generate: the meter is an optional integer. The ValueError of `int(in_beats)` on text that is not a number is not modelled, and the render flags are taken as all set.
- Compose.Piece.GenerateMelody: calling it before a duration profile is selected raises AttributeError in the source. The model makes this a precondition (`Melodic`). The same holds for `GenerateChords`, which needs a chord profile.
- Compose.Piece.GenerateMotive: on an error, the source keeps its partial appends to `pitches` and `iv_stack`. The model leaves both fields unchanged, because an error ends the whole generation.
- Compose.Piece.GenerateMotive, GenerateMelody, GenerateStructure and Generate: these state what their results are, not which draw values produce them. The parameter draws, chord picks, measure splits, durations and the section pattern are tied to the draws; each step of a motive is tied to its pitch move (`NextPitch`, `NextEvent`) but not to the draw values that choose it.
- Compose.Piece.Walked and GenerateMotive: state the walk's bookkeeping over the whole motive, not the sequence of steps; each single step is stated by `NextEvent`.
- Compose.Piece.ChordTone, StartWalk and Compose.Piece.ArrangeAndEnd: state which tone can be drawn, not which draw selects it.

Where the code and its design notes differ, the model follows the code:

- The ending's bass note lasts one beat while the ending chord lasts a whole measure (`Compose.TracksInOrder`).
- The organ family is in both the lead-like and the accompaniment instrument pools, so those pools are not disjoint (`Gm.OrgansAreShared`).
- A major chord on the fifth degree is not kept plain when extended: it gains the minor seventh ("M7") (`Harmony.Extended`).
- The pitch list spans nine octave offsets (0 to 96), so it has 63 pitches.
- The duration buffer belongs to the function and is never reset between pieces (`Durations.DurationPolicy`).
- The window clamp of `spread` does not guarantee a pitch inside the window (`Music.WindowNotGuaranteed`).
- The inversion raises pitches after the constructor's clamp (`Music.InversionBypassesClamp`).
- A meter of `"0"` is accepted, because the text is truthy. A marco bass then plays a note of negative length (`Track.NegativeDurationRewinds`). A negative meter makes the melody's trim raise IndexError.
- A move by a negative interval past the bottom of the pitch list reads from its top (`Lists.At`).
