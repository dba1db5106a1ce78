/** Chord selection: weighted picks among the scale-degree chords of the
    key, the optional seventh extension, and the inversion. */
module Harmony {
  import opened Draws
  import opened Music
  import opened Scale

  /** The candidate chords as (semitones above the key root, quality). */
  const ChordChoices: seq<(int, Quality)> := [
    (0, Major), (0, Sus2), (0, Sus4),
    (2, Minor), (2, Sus2), (2, Sus4),
    (4, Minor),
    (5, Major), (5, Sus2),
    (7, Major), (7, Sus2), (7, Sus4),
    (9, Minor), (9, Sus2), (9, Sus4),
    (11, Diminished)
  ]

  /** The weight profiles over `ChordChoices`. */
  const ChordProfiles: seq<seq<nat>> := [
    [50, 0, 0, 30, 0, 0, 30, 50, 0, 50, 0, 0, 30, 0, 0, 1],
    [50, 5, 5, 30, 5, 5, 30, 50, 5, 50, 5, 5, 30, 5, 5, 1],
    [50, 10, 10, 40, 10, 10, 40, 30, 10, 30, 10, 10, 40, 10, 10, 1],
    [10, 5, 5, 10, 5, 5, 10, 10, 5, 10, 5, 5, 10, 5, 5, 2]
  ]

  /** The seventh coin: the first face (weight 20) extends the chord. */
  const SeventhWeights: seq<nat> := [20, 80]

  /** Weights `random.choices` accepts for the candidates: one per
      candidate, not all zero. */
  predicate IsChordProfile(weights: seq<nat>) {
    |weights| == |ChordChoices| && Sum(weights) > 0
  }

  lemma ChordProfilesShape(k: nat)
    requires k < |ChordProfiles|
    ensures IsChordProfile(ChordProfiles[k])
  {
    WeightBelowSum(ChordProfiles[k], 0);
  }

  /** The qualities the candidates start from. */
  predicate IsTriad(q: Quality) {
    q in {Major, Minor, Diminished, Sus2, Sus4}
  }

  /** The seventh extension of a chord on `shift`, which appends a suffix
      to the quality's name: major chords gain the major seventh ("maj7")
      except on the fifth degree, which gains the minor seventh ("7");
      the diminished chord becomes half-diminished ("min7dim5"); a
      suspended chord gains a seventh (the "7" prefix) only on the degrees
      where that seventh is in the key, and is otherwise unchanged; a minor
      chord gains the minor seventh ("7"). */
  function Extended(shift: int, quality: Quality): (r: Quality)
    requires IsTriad(quality)
    ensures |Offsets(r)| >= 3 && Offsets(r)[..3] == Offsets(quality)
    ensures r == quality <==> (quality == Sus2 && shift !in [2, 7, 9]) || (quality == Sus4 && shift !in [2, 4, 5, 9])
    ensures r != quality ==> |Offsets(r)| == 4 && Offsets(r)[3] == (if quality == Major && shift != 7 then 11 else 10)
  {
    if quality == Major && shift != 7 then Major7
    else if quality == Diminished then HalfDiminished7
    else if quality == Sus2 || quality == Sus4 then
      if quality == Sus2 && shift in [2, 7, 9] then Sus2Seventh
      else if quality == Sus4 && shift in [2, 4, 5, 9] then Sus4Seventh
      else quality
    else if quality == Major then Dominant7
    else Minor7
  }

  /** What `get_chord` returns. */
  datatype ChordPick = ChordPick(shift: int, quality: Quality, inversion: int)

  /** `get_chord` on the draws `source(at)` (the weighted choice, drawn even
      when overridden), `source(at + 1)` (the seventh coin) and
      `source(at + 2)` (the inversion). */
  function ChordFromDraws(weights: seq<nat>, overrideRoot: bool, source: nat -> nat, at: nat): (p: ChordPick)
    requires IsChordProfile(weights)
    ensures 0 <= p.inversion <= 2
    ensures overrideRoot ==> p.shift == 0 && p.quality in {Major, Major7}
    ensures p.shift in MajorScale
  {
    var pick := if overrideRoot then ChordChoices[0] else ChordChoices[Choose(weights, source(at))];
    var seventh := Choose(SeventhWeights, source(at + 1)) == 0;
    ChordPick(pick.0, if seventh then Extended(pick.0, pick.1) else pick.1, Uniform(3, source(at + 2)))
  }

  /** Every tone of a chord on `shift` of the given quality belongs to the
      key: its distance from the key root, reduced to an octave, is a
      degree of the major scale. */
  predicate InKey(shift: int, quality: Quality) {
    forall i :: 0 <= i < |Offsets(quality)| ==> (shift + Offsets(quality)[i]) % 12 in MajorScale
  }

  /** A candidate chord is a triad, its seventh extension keeps the triad
      and adds at most one tone, and both stay in the key. */
  predicate GoodChoice(shift: int, quality: Quality) {
    && IsTriad(quality) && |Offsets(quality)| == 3
    && Offsets(Extended(shift, quality))[..3] == Offsets(quality)
    && InKey(shift, quality) && InKey(shift, Extended(shift, quality))
  }

  lemma MajorFacts(shift: int)
    requires shift in {0, 5, 7}
    ensures GoodChoice(shift, Major)
  {
  }

  lemma MinorFacts(shift: int)
    requires shift in {2, 4, 9}
    ensures GoodChoice(shift, Minor)
  {
  }

  lemma DiminishedFacts()
    ensures GoodChoice(11, Diminished)
  {
  }

  lemma Sus2Facts(shift: int)
    requires shift in {0, 2, 5, 7, 9}
    ensures GoodChoice(shift, Sus2)
  {
    if shift in [2, 7, 9] {
      assert Extended(shift, Sus2) == Sus2Seventh;
    } else {
      assert Extended(shift, Sus2) == Sus2;
    }
  }

  lemma Sus4Facts(shift: int)
    requires shift in {0, 2, 7, 9}
    ensures GoodChoice(shift, Sus4)
  {
    if shift in [2, 9] {
      assert Extended(shift, Sus4) == Sus4Seventh;
    } else {
      assert Extended(shift, Sus4) == Sus4;
    }
  }

  /** Every candidate chord is a good choice. */
  lemma {:induction false} ChoiceFacts(k: nat)
    requires k < |ChordChoices|
    ensures GoodChoice(ChordChoices[k].0, ChordChoices[k].1)
  {
    if k == 0 {
      MajorFacts(0);
    } else if k == 1 {
      Sus2Facts(0);
    } else if k == 2 {
      Sus4Facts(0);
    } else if k == 3 {
      MinorFacts(2);
    } else if k == 4 {
      Sus2Facts(2);
    } else if k == 5 {
      Sus4Facts(2);
    } else if k == 6 {
      MinorFacts(4);
    } else if k == 7 {
      MajorFacts(5);
    } else if k == 8 {
      Sus2Facts(5);
    } else if k == 9 {
      MajorFacts(7);
    } else if k == 10 {
      Sus2Facts(7);
    } else if k == 11 {
      Sus4Facts(7);
    } else if k == 12 {
      MinorFacts(9);
    } else if k == 13 {
      Sus2Facts(9);
    } else if k == 14 {
      Sus4Facts(9);
    } else if k == 15 {
      DiminishedFacts();
    }
  }

  /** Every tone of every chord `get_chord` can return is in the key, and
      the chord holds the triad it was picked as. */
  lemma {:induction false} ChordStaysInKey(weights: seq<nat>, overrideRoot: bool, source: nat -> nat, at: nat)
    requires IsChordProfile(weights)
    ensures var p := ChordFromDraws(weights, overrideRoot, source, at);
      var k := if overrideRoot then 0 else Choose(weights, source(at));
      && InKey(p.shift, p.quality)
      && p.shift == ChordChoices[k].0
      && Offsets(p.quality)[..3] == Offsets(ChordChoices[k].1)
  {
    var k := if overrideRoot then 0 else Choose(weights, source(at));
    ChoiceFacts(k);
  }

  /** `ChordStrategy`: the class-level weight profile shared by every
      piece. */
  class ChordStrategy {
    /** `chord_weights`; empty until a profile is selected. */
    var weights: seq<nat>

    ghost predicate Valid()
      reads this
    {
      weights == [] || IsChordProfile(weights)
    }

    constructor ()
      ensures Valid() && weights == []
    {
      weights := [];
    }

    /** `select_chord_profile`: a uniform draw over the four profiles. */
    method SelectProfile(rng: Random)
      modifies this, rng
      ensures Valid() && IsChordProfile(weights)
      ensures weights == ChordProfiles[Uniform(4, rng.source(old(rng.drawn)))]
      ensures rng.drawn == old(rng.drawn) + 1
    {
      var k := rng.Below(4);
      ChordProfilesShape(k);
      weights := ChordProfiles[k];
    }

    /** `get_chord(override_use_root)`: three draws. */
    method GetChord(rng: Random, overrideRoot: bool) returns (p: ChordPick)
      requires IsChordProfile(weights)
      modifies rng
      ensures p == ChordFromDraws(weights, overrideRoot, rng.source, old(rng.drawn))
      ensures p.shift in MajorScale && InKey(p.shift, p.quality) && 0 <= p.inversion <= 2
      ensures overrideRoot ==> p.shift == 0 && p.quality in {Major, Major7}
      ensures rng.drawn == old(rng.drawn) + 3
    {
      ChordStaysInKey(weights, overrideRoot, rng.source, rng.drawn);
      ghost var at := rng.drawn;
      ghost var drawn := ChordFromDraws(weights, overrideRoot, rng.source, at);
      var k := rng.Weighted(weights);
      ChoiceFacts(if overrideRoot then 0 else k);
      var shift, quality := ChordChoices[k].0, ChordChoices[k].1;
      if overrideRoot {
        shift, quality := ChordChoices[0].0, ChordChoices[0].1;
      }
      var seventh := rng.Weighted(SeventhWeights);
      if seventh == 0 {
        quality := Extended(shift, quality);
      }
      var inversion := rng.Below(3);
      p := ChordPick(shift, quality, inversion);
      assert p.shift == drawn.shift && p.inversion == drawn.inversion;
    }
  }
}
