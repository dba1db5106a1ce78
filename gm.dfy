/** General MIDI reference tables: note names and pitch classes for the
    MIDI note numbers, their inverse, and the instrument (program) families. */
module Gm {

  /** Pitch-class names, C first (`note_template`). */
  const NoteTemplate: seq<string> :=
    ["C", "C#", "D", "D#", "E", "F", "F#", "G", "G#", "A", "A#", "B"]

  /** The tables cover the octaves -2 through 8. */
  const LowestOctave: int := -2
  const HighestOctave: int := 8
  const NoteCount: nat := 132

  function Digit(d: nat): char
    requires d < 10
  {
    ('0' as int + d) as char
  }

  function NatText(n: nat): string
    decreases n
  {
    if n < 10 then [Digit(n)] else NatText(n / 10) + [Digit(n % 10)]
  }

  /** An integer as an f-string renders it. */
  function IntText(o: int): string {
    if o < 0 then "-" + NatText(-o) else NatText(o)
  }

  /** `NOTE_CLASS[n]`. */
  function NoteClass(n: nat): string
    requires n < NoteCount
  {
    NoteTemplate[n % 12]
  }

  /** `NOTE_NAMES[n]`: pitch class, an underscore, then the octave `n / 12 - 2`. */
  function NoteName(n: nat): string
    requires n < NoteCount
  {
    NoteTemplate[n % 12] + "_" + IntText(n / 12 + LowestOctave)
  }

  lemma TemplateDistinct()
    ensures forall i, j :: 0 <= i < j < 12 ==> NoteTemplate[i] != NoteTemplate[j]
  {
  }

  /** A class name is one letter, or a letter and a sharp sign. */
  lemma TemplateShape(i: nat)
    requires i < 12
    ensures 1 <= |NoteTemplate[i]| <= 2
    ensures |NoteTemplate[i]| == 2 ==> NoteTemplate[i][1] == '#'
  {
  }

  lemma {:induction false} OctaveTextDistinct(o1: int, o2: int)
    requires LowestOctave <= o1 <= HighestOctave && LowestOctave <= o2 <= HighestOctave
    requires IntText(o1) == IntText(o2)
    ensures o1 == o2
  {
    var t := IntText(o1);
    assert |IntText(o1)| == (if o1 < 0 then 2 else 1);
    assert |IntText(o2)| == (if o2 < 0 then 2 else 1);
    assert t[|t| - 1] == Digit(if o1 < 0 then -o1 else o1);
    assert t[|t| - 1] == Digit(if o2 < 0 then -o2 else o2);
  }

  /** No two note numbers share a name. */
  lemma {:induction false} NoteNamesDistinct(n: nat, m: nat)
    requires n < NoteCount && m < NoteCount
    requires NoteName(n) == NoteName(m)
    ensures n == m
  {
    var a, b := NoteTemplate[n % 12], NoteTemplate[m % 12];
    var s := NoteName(n);
    TemplateShape(n % 12);
    TemplateShape(m % 12);
    assert s == a + "_" + IntText(n / 12 + LowestOctave);
    assert s == b + "_" + IntText(m / 12 + LowestOctave);
    assert s[1] == if |a| == 2 then '#' else '_';
    assert s[1] == if |b| == 2 then '#' else '_';
    assert a == s[..|a|] == b;
    TemplateDistinct();
    assert n % 12 == m % 12;
    assert IntText(n / 12 + LowestOctave) == s[|a| + 1..] == IntText(m / 12 + LowestOctave);
    OctaveTextDistinct(n / 12 + LowestOctave, m / 12 + LowestOctave);
  }

  /** Note names identify note numbers. */
  lemma NoteNamesInjective()
    ensures forall n: nat, m: nat :: n < NoteCount && m < NoteCount && NoteName(n) == NoteName(m) ==> n == m
  {
    forall n: nat, m: nat | n < NoteCount && m < NoteCount && NoteName(n) == NoteName(m)
      ensures n == m
    {
      NoteNamesDistinct(n, m);
    }
  }

  /** `NOTE_NUMS`: the name of each note number mapped back to the number. */
  function NoteNumbers(): (nums: map<string, nat>)
    ensures forall n :: 0 <= n < NoteCount ==> NoteName(n) in nums && nums[NoteName(n)] == n
    ensures forall name :: name in nums ==> exists n :: 0 <= n < NoteCount && NoteName(n) == name
  {
    NoteNamesInjective();
    var nums := map n: nat | n < NoteCount :: NoteName(n) := n;
    assert forall n :: 0 <= n < NoteCount ==> NoteName(n) in nums;
    forall name | name in nums
      ensures exists n :: 0 <= n < NoteCount && NoteName(n) == name
    {
      var n: nat :| n < NoteCount && NoteName(n) == name;
    }
    nums
  }

  lemma DivMod12(k: nat, j: nat)
    requires j < 12
    ensures (12 * k + j) / 12 == k && (12 * k + j) % 12 == j
  {
  }

  /** One octave of `NOTE_NAMES`: each class name followed by the octave. */
  function OctaveRow(octave: int): (row: seq<string>)
    ensures |row| == 12
  {
    seq(12, j requires 0 <= j < 12 => NoteTemplate[j] + "_" + IntText(octave))
  }

  /** The tables hold the first `count` note numbers. */
  ghost predicate TablesUpTo(names: seq<string>, classes: seq<string>, count: nat)
  {
    count <= NoteCount && |names| == |classes| == count &&
    forall n :: 0 <= n < count ==> classes[n] == NoteClass(n) && names[n] == NoteName(n)
  }

  lemma {:induction false} AppendOctave(names: seq<string>, classes: seq<string>, k: nat)
    requires k < 11 && TablesUpTo(names, classes, 12 * k)
    ensures TablesUpTo(names + OctaveRow(k + LowestOctave), classes + NoteTemplate, 12 * k + 12)
  {
    var row := OctaveRow(k + LowestOctave);
    var names', classes' := names + row, classes + NoteTemplate;
    forall n | 0 <= n < 12 * k + 12
      ensures classes'[n] == NoteClass(n) && names'[n] == NoteName(n)
    {
      if n < 12 * k {
        assert classes'[n] == classes[n] && names'[n] == names[n];
      } else {
        OctaveEntry(k, n);
        assert classes'[n] == NoteTemplate[n - 12 * k] && names'[n] == row[n - 12 * k];
      }
    }
  }

  /** Note number `n` of octave `k` is entry `n - 12 k` of that octave. */
  lemma OctaveEntry(k: nat, n: nat)
    requires k < 11 && 12 * k <= n < 12 * k + 12
    ensures OctaveRow(k + LowestOctave)[n - 12 * k] == NoteName(n)
    ensures NoteTemplate[n - 12 * k] == NoteClass(n)
  {
    DivMod12(k, n - 12 * k);
  }

  /** The module-level loop that fills `NOTE_CLASS` and `NOTE_NAMES` at
      import time, one octave per pass. */
  method BuildNoteNames() returns (names: seq<string>, classes: seq<string>)
    ensures |names| == NoteCount && |classes| == NoteCount
    ensures forall n :: 0 <= n < NoteCount ==> classes[n] == NoteClass(n) && names[n] == NoteName(n)
  {
    names, classes := [], [];
    for octave := LowestOctave to HighestOctave + 1
      invariant TablesUpTo(names, classes, 12 * (octave - LowestOctave))
    {
      AppendOctave(names, classes, octave - LowestOctave);
      classes := classes + NoteTemplate;
      names := names + OctaveRow(octave);
    }
  }

  /** The first `count` names of `names` are keys of `nums`, each mapped to
      its position, and nothing else is. */
  ghost predicate NumbersUpTo(names: seq<string>, nums: map<string, nat>, count: nat)
    requires count <= |names|
  {
    (forall n :: 0 <= n < count ==> names[n] in nums && nums[names[n]] == n) &&
    (forall name :: name in nums ==> exists n :: 0 <= n < count && names[n] == name)
  }

  lemma {:induction false} AddNumber(names: seq<string>, nums: map<string, nat>, value: nat)
    requires value < |names|
    requires forall n :: 0 <= n < value ==> names[n] != names[value]
    requires NumbersUpTo(names, nums, value)
    ensures NumbersUpTo(names, nums[names[value] := value], value + 1)
  {
    var nums' := nums[names[value] := value];
    forall name | name in nums'
      ensures exists n :: 0 <= n < value + 1 && names[n] == name
    {
      if name != names[value] {
        var n :| 0 <= n < value && names[n] == name;
      }
    }
  }

  /** The name at `value` is not among the names before it. */
  lemma {:induction false} NameIsNew(names: seq<string>, value: nat)
    requires |names| == NoteCount && value < NoteCount
    requires forall n :: 0 <= n < NoteCount ==> names[n] == NoteName(n)
    ensures forall n :: 0 <= n < value ==> names[n] != names[value]
  {
    forall n | 0 <= n < value
      ensures names[n] != names[value]
    {
      if names[n] == names[value] {
        NoteNamesDistinct(n, value);
      }
    }
  }

  /** The module-level loop that fills `NOTE_NUMS` from `NOTE_NAMES`: each
      name is mapped to its position. */
  method BuildNoteNumbers(names: seq<string>) returns (nums: map<string, nat>)
    requires |names| == NoteCount
    requires forall n :: 0 <= n < NoteCount ==> names[n] == NoteName(n)
    ensures nums == NoteNumbers()
  {
    nums := map[];
    for value := 0 to |names|
      invariant NumbersUpTo(names, nums, value)
    {
      NameIsNew(names, value);
      AddNumber(names, nums, value);
      nums := nums[names[value] := value];
    }
    TableIsNoteNumbers(names, nums);
  }

  lemma {:induction false} TableIsNoteNumbers(names: seq<string>, nums: map<string, nat>)
    requires |names| == NoteCount
    requires forall n :: 0 <= n < NoteCount ==> names[n] == NoteName(n)
    requires NumbersUpTo(names, nums, NoteCount)
    ensures nums == NoteNumbers()
  {
    NumbersInTable(names, nums);
    TableInNumbers(names, nums);
  }

  lemma {:induction false} NumbersInTable(names: seq<string>, nums: map<string, nat>)
    requires |names| == NoteCount
    requires forall n :: 0 <= n < NoteCount ==> names[n] == NoteName(n)
    requires NumbersUpTo(names, nums, NoteCount)
    ensures forall name :: name in nums ==> name in NoteNumbers() && NoteNumbers()[name] == nums[name]
  {
    forall name | name in nums
      ensures name in NoteNumbers() && NoteNumbers()[name] == nums[name]
    {
      var n :| 0 <= n < NoteCount && names[n] == name;
    }
  }

  lemma {:induction false} TableInNumbers(names: seq<string>, nums: map<string, nat>)
    requires |names| == NoteCount
    requires forall n :: 0 <= n < NoteCount ==> names[n] == NoteName(n)
    requires NumbersUpTo(names, nums, NoteCount)
    ensures forall name :: name in NoteNumbers() ==> name in nums
  {
    forall name | name in NoteNumbers()
      ensures name in nums
    {
      var n :| 0 <= n < NoteCount && NoteName(n) == name;
      assert names[n] == name;
    }
  }

  /** Examples from the note tables' own comments and the unit tests. */
  lemma NamedNotes()
    ensures NoteName(60) == "C_3" && NoteClass(60) == "C"
    ensures NoteName(0) == "C_-2" && NoteName(127) == "G_8"
    ensures NoteName(45) == "A_1" && NoteName(62) == "D_3"
    ensures NoteName(48) == "C_2" && NoteName(84) == "C_5"
  {
  }

  // ---------------------------------------------------------------
  // Instrument (program) families
  // ---------------------------------------------------------------

  const AcousticGrandPiano: nat := 0
  const Clavinet: nat := 7
  const Celesta: nat := 8
  const Dulcimer: nat := 15
  const DrawbarOrgan: nat := 16
  const TangoAccordion: nat := 23
  const AcousticGuitarNylon: nat := 24
  const ElectricGuitarHarmonics: nat := 31
  const AcousticBass: nat := 32
  const SynthBass2: nat := 39
  const Violin: nat := 40
  const Timpani: nat := 47
  const StringEnsemble1: nat := 48
  const OrchestraHit: nat := 55
  const Trumpet: nat := 56
  const SynthBrass2: nat := 63
  const SopranoSax: nat := 64
  const Clarinet: nat := 71
  const Piccolo: nat := 72
  const Ocarina: nat := 79
  const Lead1: nat := 80
  const Lead8: nat := 87
  const Pad1: nat := 88
  const Pad8: nat := 95
  const Fx1: nat := 96
  const Fx8: nat := 103
  const Sitar: nat := 104
  const Shanai: nat := 111
  const TinkleBell: nat := 112
  const ReverseCymbal: nat := 119
  const GuitarFretNoise: nat := 120
  const Gunshot: nat := 127

  /** `list(range(first, last + 1))`. */
  function ProgramRange(first: nat, last: nat): (s: seq<nat>)
    ensures |s| == if first <= last then last - first + 1 else 0
    ensures forall i :: 0 <= i < |s| ==> s[i] == first + i
    ensures forall p :: p in s <==> first <= p <= last
  {
    if last < first then []
    else
      var s := seq(last - first + 1, i requires 0 <= i <= last - first => first + i);
      forall p | first <= p <= last
        ensures p in s
      {
        assert s[p - first] == p;
      }
      s
  }

  const PianoSet := ProgramRange(AcousticGrandPiano, Clavinet)
  const ChromaticPercussionSet := ProgramRange(Celesta, Dulcimer)
  const OrganSet := ProgramRange(DrawbarOrgan, TangoAccordion)
  const GuitarSet := ProgramRange(AcousticGuitarNylon, ElectricGuitarHarmonics)
  const BassSet := ProgramRange(AcousticBass, SynthBass2)
  const StringsSet := ProgramRange(Violin, Timpani)
  const EnsembleSet := ProgramRange(StringEnsemble1, OrchestraHit)
  const BrassSet := ProgramRange(Trumpet, SynthBrass2)
  const ReedSet := ProgramRange(SopranoSax, Clarinet)
  const PipeSet := ProgramRange(Piccolo, Ocarina)
  const LeadSet := ProgramRange(Lead1, Lead8)
  const PadSet := ProgramRange(Pad1, Pad8)
  const FxSet := ProgramRange(Fx1, Fx8)
  const EthnicSet := ProgramRange(Sitar, Shanai)
  const PercussiveSet := ProgramRange(TinkleBell, ReverseCymbal)
  const SoundFxSet := ProgramRange(GuitarFretNoise, Gunshot)

  /** The sixteen families in program order. */
  const Families: seq<seq<nat>> :=
    [PianoSet, ChromaticPercussionSet, OrganSet, GuitarSet, BassSet, StringsSet,
     EnsembleSet, BrassSet, ReedSet, PipeSet, LeadSet, PadSet, FxSet, EthnicSet,
     PercussiveSet, SoundFxSet]

  const AllLeadLikeSet: seq<nat> :=
    PianoSet + ChromaticPercussionSet + OrganSet + GuitarSet + StringsSet
    + BrassSet + ReedSet + PipeSet + LeadSet + EthnicSet

  const AllAccompanimentSet: seq<nat> := OrganSet + EnsembleSet + PadSet

  /** Family `k` is the eight consecutive programs `8k .. 8k + 7`, so the
      families tile the 128 programs. */
  lemma FamiliesTilePrograms()
    ensures |Families| == 16
    ensures forall k, i :: 0 <= k < 16 && 0 <= i < 8 ==> |Families[k]| == 8 && Families[k][i] == 8 * k + i
  {
  }

  /** `BASS_SET` is programs 32 to 39. */
  lemma BassSetIsThirtyTwoToThirtyNine()
    ensures BassSet == [32, 33, 34, 35, 36, 37, 38, 39]
  {
  }

  /** The melody and accompaniment pools never offer a bass program. */
  lemma PoolsAvoidBass()
    ensures |AllLeadLikeSet| == 80 && |AllAccompanimentSet| == 24
    ensures forall p :: p in AllLeadLikeSet ==> p !in BassSet
    ensures forall p :: p in AllAccompanimentSet ==> p !in BassSet
  {
  }

  /** The organ family is in both the lead-like and the accompaniment pool,
      so those two pools are not disjoint. */
  lemma OrgansAreShared()
    ensures forall p :: p in OrganSet ==> p in AllLeadLikeSet && p in AllAccompanimentSet
    ensures DrawbarOrgan in AllLeadLikeSet && DrawbarOrgan in AllAccompanimentSet
  {
  }
}
