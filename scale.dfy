/** The pitches of a key: every pitch of its major scale from the bottom
    of the MIDI range up through nine octaves. */
module Scale {
  import opened Wrappers
  import opened Lists
  import Gm

  /** The pitch classes of the major scale, relative to its root. */
  const MajorScale: set<int> := {0, 2, 4, 5, 7, 9, 11}

  /** Seven pitch classes, one per degree of a scale. */
  type Degrees = t: seq<int> | |t| == 7 witness [0, 2, 4, 5, 7, 9, 11]

  /** The pitch classes of each key, listed in the order of the class
      names (C, C#, D, ..., B), so that the template of the key whose class
      name is `Gm.NoteTemplate[k]` is `KeyTemplates[k]`. */
  const KeyTemplates: seq<Degrees> := [
    [0, 2, 4, 5, 7, 9, 11],
    [0, 1, 3, 5, 6, 8, 10],
    [1, 2, 4, 6, 7, 9, 11],
    [0, 2, 3, 5, 7, 8, 10],
    [1, 3, 4, 6, 8, 9, 11],
    [0, 2, 4, 5, 7, 9, 10],
    [1, 3, 5, 6, 8, 10, 11],
    [0, 2, 4, 6, 7, 9, 11],
    [0, 1, 3, 5, 7, 8, 10],
    [1, 2, 4, 6, 8, 9, 11],
    [0, 2, 3, 5, 7, 9, 10],
    [1, 3, 4, 6, 8, 10, 11]
  ]

  /** A template lists seven pitch classes in rising order. */
  predicate IsTemplate(t: seq<int>) {
    |t| == 7 && 0 <= t[0] && t[6] < 12 && forall i :: 0 < i < 7 ==> t[i - 1] < t[i]
  }

  /** Each template is the major scale moved up to its key: a pitch class
      is in the template of key `k` exactly when its distance above `k` is
      a degree of the major scale. */
  lemma {:induction false} TemplateIsTransposedMajor(k: nat, x: int)
    requires k < 12 && 0 <= x < 12
    ensures IsTemplate(KeyTemplates[k])
    ensures x in KeyTemplates[k] <==> (x - k) % 12 in MajorScale
  {
    var d := if x >= k then x - k else x - k + 12;
    assert (x - k) % 12 == d;
    if k < 4 {
      TransposedLow(k, x, d);
    } else if k < 8 {
      TransposedMiddle(k, x, d);
    } else {
      TransposedHigh(k, x, d);
    }
  }

  lemma TransposedLow(k: nat, x: int, d: int)
    requires k < 4 && 0 <= x < 12 && d == if x >= k then x - k else x - k + 12
    ensures IsTemplate(KeyTemplates[k])
    ensures x in KeyTemplates[k] <==> d in MajorScale
  {
  }

  lemma TransposedMiddle(k: nat, x: int, d: int)
    requires 4 <= k < 8 && 0 <= x < 12 && d == if x >= k then x - k else x - k + 12
    ensures IsTemplate(KeyTemplates[k])
    ensures x in KeyTemplates[k] <==> d in MajorScale
  {
  }

  lemma TransposedHigh(k: nat, x: int, d: int)
    requires 8 <= k < 12 && 0 <= x < 12 && d == if x >= k then x - k else x - k + 12
    ensures IsTemplate(KeyTemplates[k])
    ensures x in KeyTemplates[k] <==> d in MajorScale
  {
  }

  /** The octaves the pitch list covers: offsets 0, 12, ..., 96. */
  const Octaves: nat := 9

  /** The pitch list of a template: each octave offset plus each template
      entry, octave by octave. */
  function ScalePitches(t: seq<int>): (pitches: seq<int>)
    requires |t| == 7
    ensures |pitches| == 7 * Octaves
  {
    seq(7 * Octaves, i requires 0 <= i < 7 * Octaves => 12 * (i / 7) + t[i % 7])
  }

  /** The pitch list rises strictly, so `list.index` finds each pitch at
      its own position, and every pitch's class is in the template. */
  lemma {:induction false} ScaleRises(t: seq<int>)
    requires IsTemplate(t)
    ensures StrictlyIncreasing(ScalePitches(t))
    ensures forall i :: 0 <= i < 7 * Octaves ==> ScalePitches(t)[i] % 12 == t[i % 7]
  {
    ScaleIncreasing(t);
    ScaleClasses(t);
  }

  lemma {:induction false} ScaleIncreasing(t: seq<int>)
    requires IsTemplate(t)
    ensures StrictlyIncreasing(ScalePitches(t))
  {
    var s := ScalePitches(t);
    forall i, j | 0 <= i < j < |s|
      ensures s[i] < s[j]
    {
      var a, b := i / 7, j / 7;
      assert s[i] == 12 * a + t[i % 7] && s[j] == 12 * b + t[j % 7];
      TemplateBounds(t, i % 7);
      TemplateBounds(t, j % 7);
      if a == b {
        TemplateRises(t, i % 7, j % 7);
      } else {
        assert a < b;
      }
    }
  }

  lemma {:induction false} ScaleClasses(t: seq<int>)
    requires IsTemplate(t)
    ensures forall i :: 0 <= i < 7 * Octaves ==> ScalePitches(t)[i] % 12 == t[i % 7]
  {
    var s := ScalePitches(t);
    forall i | 0 <= i < 7 * Octaves
      ensures s[i] % 12 == t[i % 7]
    {
      TemplateBounds(t, i % 7);
      assert s[i] == 12 * (i / 7) + t[i % 7];
    }
  }

  lemma {:induction false} TemplateRises(t: seq<int>, a: nat, b: nat)
    requires IsTemplate(t) && a < b < 7
    ensures t[a] < t[b]
    decreases b - a
  {
    if a + 1 < b {
      TemplateRises(t, a, b - 1);
    }
  }

  lemma {:induction false} TemplateBounds(t: seq<int>, a: nat)
    requires IsTemplate(t) && a < 7
    ensures 0 <= t[a] < 12
  {
    if 0 < a {
      TemplateRises(t, 0, a);
    }
    if a < 6 {
      TemplateRises(t, a, 6);
    }
  }

  /** The position of a class name in `NOTE_CLASS`: Python indexing of the
      132-entry class list, negative indices counting from the end. */
  function ClassIndex(root: int): (r: Result<nat>)
    ensures r.Ok? <==> -(Gm.NoteCount as int) <= root < Gm.NoteCount
    ensures r.Ok? ==> r.value < 12 && r.value == root % 12
  {
    if -(Gm.NoteCount as int) <= root < Gm.NoteCount then Ok(root % 12) else Err(IndexError)
  }

  /** `get_pitches(root)`: `None` stands for a root that is not an integer,
      whose lookup raises TypeError, which falls back to the key of C. */
  method GetPitches(root: Option<int>) returns (r: Result<seq<int>>)
    ensures root.None? ==> r == Ok(ScalePitches(KeyTemplates[0]))
    ensures root.Some? ==> match ClassIndex(root.value)
      case Ok(k) => r == Ok(ScalePitches(KeyTemplates[k]))
      case Err(e) => r == Err(e)
  {
    var template := KeyTemplates[0];
    if root.Some? {
      var k :- ClassIndex(root.value);
      template := KeyTemplates[k];
    }
    var pitches := OctaveList(template);
    r := Ok(pitches);
  }

  /** The loop of `get_pitches`: one octave of the template per offset. */
  method OctaveList(template: seq<int>) returns (pitches: seq<int>)
    requires |template| == 7
    ensures pitches == ScalePitches(template)
  {
    pitches := [];
    for octave := 0 to Octaves
      invariant |pitches| == 7 * octave
      invariant forall i :: 0 <= i < |pitches| ==> pitches[i] == 12 * (i / 7) + template[i % 7]
    {
      var octaveNote := 12 * octave;
      pitches := pitches + seq(7, n requires 0 <= n < 7 => octaveNote + template[n]);
    }
  }

  /** The key of C_2 (48) gives the C major pitch list from 0 to 107, and
      the pitch list holds C_2 itself. */
  lemma CMajorPitches()
    ensures ScalePitches(KeyTemplates[48 % 12])[..8] == [0, 2, 4, 5, 7, 9, 11, 12]
    ensures ScalePitches(KeyTemplates[0])[28] == 48
    ensures ScalePitches(KeyTemplates[0])[7 * Octaves - 1] == 107
  {
  }
}
