/** Note durations: the weighted duration profiles and the run buffer that
    turns a short draw into a group of two or four equal short notes. */
module Durations {
  import opened Draws

  /** The duration population in ticks: whole, half, dotted quarter,
      quarter, dotted eighth, eighth, sixteenth. */
  const DurationTicks: seq<int> := [16, 8, 6, 4, 3, 2, 1]

  /** The profile names in the order the profile is drawn from, and the
      weights each gives the duration population. */
  const ProfileNames: seq<string> := ["balanced", "long_leaning", "brisk_leaning"]
  const ProfileWeights: seq<seq<nat>> := [
    [5, 10, 5, 50, 10, 50, 20],
    [80, 80, 10, 10, 10, 10, 10],
    [5, 5, 10, 10, 10, 80, 80]
  ]

  /** Eighths and sixteenths are the durations that come in groups. */
  predicate Short(d: int) {
    d == 2 || d == 1
  }

  /** A buffer the generator can hold: fewer than four copies of one short
      duration. */
  predicate RunBuffer(buffer: seq<int>) {
    |buffer| <= 3 && forall i :: 0 <= i < |buffer| ==> Short(buffer[i]) && buffer[i] == buffer[0]
  }

  /** Weights `random.choices` accepts for the duration population: one
      per duration, not all zero. */
  predicate IsProfile(weights: seq<nat>) {
    |weights| == |DurationTicks| && Sum(weights) > 0
  }

  lemma ProfilesShape(k: nat)
    requires k < |ProfileWeights|
    ensures IsProfile(ProfileWeights[k])
  {
    WeightBelowSum(ProfileWeights[k], 0);
  }

  /** One call of the duration generator: the value it yields, the buffer
      it leaves, and the position of the next unused draw. */
  datatype Yield = Yield(value: int, buffer: seq<int>, next: nat)

  /** A call with an empty buffer: yield the drawn duration, unless it is
      short, in which case a coin fills the buffer with four (first face)
      or two copies and one of them is yielded. */
  function Fresh(weights: seq<nat>, source: nat -> nat, at: nat): Yield
    requires IsProfile(weights)
  {
    var d := DurationTicks[Choose(weights, source(at))];
    if Short(d) then
      var filled := if Uniform(2, source(at + 1)) == 0 then [d, d, d, d] else [d, d];
      Yield(d, filled[..|filled| - 1], at + 2)
    else Yield(d, [], at + 1)
  }

  /** The generator's step on the draws `source(at)`, `source(at + 1)`, ...:
      a duration is always drawn; a non-empty buffer yields its last value
      and the draw is discarded. */
  function Step(weights: seq<nat>, buffer: seq<int>, source: nat -> nat, at: nat): Yield
    requires IsProfile(weights)
  {
    if buffer != [] then Yield(buffer[|buffer| - 1], buffer[..|buffer| - 1], at + 1)
    else Fresh(weights, source, at)
  }

  /** Every step yields one of the listed durations and keeps the buffer a
      run of one short duration. */
  lemma StepKeepsRun(weights: seq<nat>, buffer: seq<int>, source: nat -> nat, at: nat)
    requires IsProfile(weights) && RunBuffer(buffer)
    ensures var y := Step(weights, buffer, source, at);
      y.value in DurationTicks && y.value > 0 && RunBuffer(y.buffer) && at < y.next
  {
  }

  /** While the buffer holds values, a call yields its last one and drops
      it, whatever the fresh draw was (the draw is still consumed). */
  lemma BufferedIgnoresDraw(weights: seq<nat>, buffer: seq<int>, source: nat -> nat, at: nat)
    requires IsProfile(weights) && buffer != []
    ensures var y := Step(weights, buffer, source, at);
      y.value == buffer[|buffer| - 1] && y.buffer == buffer[..|buffer| - 1] && y.next == at + 1
  {
  }

  /** `count` consecutive calls: their values, the final buffer, and the
      next unused draw. */
  datatype Calls = Calls(values: seq<int>, buffer: seq<int>, next: nat)

  function Run(weights: seq<nat>, buffer: seq<int>, source: nat -> nat, at: nat, count: nat): (c: Calls)
    requires IsProfile(weights)
    ensures |c.values| == count
    decreases count
  {
    if count == 0 then Calls([], buffer, at)
    else
      var y := Step(weights, buffer, source, at);
      var rest := Run(weights, y.buffer, source, y.next, count - 1);
      Calls([y.value] + rest.values, rest.buffer, rest.next)
  }

  /** A buffer of copies of `d` is yielded in full, one copy per call, and
      left empty. */
  lemma {:induction false} DrainRun(weights: seq<nat>, buffer: seq<int>, d: int, source: nat -> nat, at: nat)
    requires IsProfile(weights)
    requires forall i :: 0 <= i < |buffer| ==> buffer[i] == d
    ensures var c := Run(weights, buffer, source, at, |buffer|);
      c.buffer == [] && c.next == at + |buffer| && forall i :: 0 <= i < |buffer| ==> c.values[i] == d
    decreases |buffer|
  {
    if buffer != [] {
      BufferedIgnoresDraw(weights, buffer, source, at);
      DrainRun(weights, buffer[..|buffer| - 1], d, source, at + 1);
    }
  }

  /** A short duration drawn with an empty buffer starts a run: the next
      four calls (first coin face) or two calls all yield it, and the buffer
      is empty afterwards. */
  lemma {:induction false} ShortDrawRun(weights: seq<nat>, source: nat -> nat, at: nat)
    requires IsProfile(weights)
    requires Short(DurationTicks[Choose(weights, source(at))])
    ensures var d := DurationTicks[Choose(weights, source(at))];
      var count := if Uniform(2, source(at + 1)) == 0 then 4 else 2;
      var c := Run(weights, [], source, at, count);
      c.buffer == [] && c.values == seq(count, _ => d) && c.next == at + count + 1
  {
    var d := DurationTicks[Choose(weights, source(at))];
    var count := if Uniform(2, source(at + 1)) == 0 then 4 else 2;
    var y := Step(weights, [], source, at);
    assert y.value == d && |y.buffer| == count - 1 && y.next == at + 2;
    DrainRun(weights, y.buffer, d, source, at + 2);
    var c := Run(weights, [], source, at, count);
    assert c.values == seq(count, _ => d);
  }

  /** A long duration drawn with an empty buffer is yielded as it is and
      leaves the buffer empty. */
  lemma LongDrawPassesThrough(weights: seq<nat>, source: nat -> nat, at: nat)
    requires IsProfile(weights)
    requires !Short(DurationTicks[Choose(weights, source(at))])
    ensures Step(weights, [], source, at) == Yield(DurationTicks[Choose(weights, source(at))], [], at + 1)
  {
  }

  /** `NoteDurationStrategy` together with the buffer attached to
      `gen_duration`: both live as long as the program and are shared by
      every piece. */
  class DurationPolicy {
    /** `duration_weights`; empty until a profile is selected. */
    var weights: seq<nat>
    /** `gen_duration.buffer`. */
    var buffer: seq<int>

    ghost predicate Valid()
      reads this
    {
      (weights == [] || IsProfile(weights)) && RunBuffer(buffer)
    }

    constructor ()
      ensures Valid() && weights == [] && buffer == []
    {
      weights := [];
      buffer := [];
    }

    /** `select_duration_profile`: a uniform draw over the three profiles. */
    method SelectProfile(rng: Random) returns (name: string)
      requires Valid()
      modifies this`weights, rng
      ensures Valid() && IsProfile(weights)
      ensures var k := Uniform(3, rng.source(old(rng.drawn)));
        name == ProfileNames[k] && weights == ProfileWeights[k]
      ensures rng.drawn == old(rng.drawn) + 1
    {
      var k := rng.Below(3);
      ProfilesShape(k);
      weights := ProfileWeights[k];
      name := ProfileNames[k];
    }

    /** `next(gen_duration())`: one duration in ticks. */
    method Next(rng: Random) returns (d: int)
      requires Valid() && IsProfile(weights)
      modifies this`buffer, rng
      ensures Valid() && d > 0 && d in DurationTicks
      ensures Step(weights, old(buffer), rng.source, old(rng.drawn)) == Yield(d, buffer, rng.drawn)
    {
      StepKeepsRun(weights, buffer, rng.source, rng.drawn);
      var k := rng.Weighted(weights);
      var drawn := DurationTicks[k];
      if Short(drawn) && buffer == [] {
        var coin := rng.Below(2);
        if coin == 0 {
          buffer := [drawn, drawn, drawn, drawn];
        } else {
          buffer := [drawn, drawn];
        }
      }
      if buffer != [] {
        d := buffer[|buffer| - 1];
        buffer := buffer[..|buffer| - 1];
      } else {
        d := drawn;
      }
    }
  }
}
