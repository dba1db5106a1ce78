/** Random draws as explicit inputs.

    Python's module-level `random` stream becomes a `Random` object that
    hands out one natural number per call site (`random.choice`,
    `random.choices`, `random.randint`), in the order the engine makes the
    calls. How Python maps its generator's state to those numbers is not
    modelled: any stream of naturals is a possible run. */
module Draws {

  function Sum(w: seq<nat>): nat {
    if w == [] then 0 else Sum(w[..|w| - 1]) + w[|w| - 1]
  }

  lemma {:induction false} SumPrefixMonotone(w: seq<nat>, i: nat, j: nat)
    requires i <= j <= |w|
    ensures Sum(w[..i]) <= Sum(w[..j])
    decreases j - i
  {
    if i < j {
      SumPrefixMonotone(w, i, j - 1);
      assert w[..j][..j - 1] == w[..j - 1];
    }
  }

  /** Every weight is at most the total, so one positive weight makes the
      total positive. */
  lemma {:induction false} WeightBelowSum(w: seq<nat>, k: nat)
    requires k < |w|
    ensures w[k] <= Sum(w)
  {
    SumPrefixMonotone(w, k + 1, |w|);
    assert w[..k + 1][..k] == w[..k];
    assert w[..|w|] == w;
  }

  /** The cumulative-weight search `random.choices` performs: the first
      index whose running total exceeds `r`. */
  function PickFrom(w: seq<nat>, r: nat, i: nat): (k: nat)
    requires i <= |w| && Sum(w[..i]) <= r < Sum(w)
    ensures i <= k < |w|
    ensures Sum(w[..k]) <= r < Sum(w[..k + 1])
    decreases |w| - i
  {
    assert w[..|w|] == w;
    if r < Sum(w[..i + 1]) then i else PickFrom(w, r, i + 1)
  }

  function Pick(w: seq<nat>, r: nat): (k: nat)
    requires r < Sum(w)
    ensures k < |w| && w[k] > 0
    ensures Sum(w[..k]) <= r < Sum(w[..k + 1])
  {
    var k := PickFrom(w, r, 0);
    assert w[..k + 1][..k] == w[..k];
    k
  }

  /** `random.choices(population, weights)[0]`, as an index into the population. */
  function Choose(w: seq<nat>, v: nat): (k: nat)
    requires Sum(w) > 0
    ensures k < |w| && w[k] > 0
  {
    Pick(w, v % Sum(w))
  }

  /** `random.choice(population)` for a population of `n` elements, as an index. */
  function Uniform(n: nat, v: nat): (k: nat)
    requires n > 0
    ensures k < n
  {
    v % n
  }

  /** The index selected by a draw `r` is the one whose cumulative slice holds `r`. */
  lemma {:induction false} PickIsSlice(w: seq<nat>, r: nat, k: nat)
    requires k < |w| && Sum(w[..k]) <= r < Sum(w[..k + 1])
    ensures r < Sum(w) && Pick(w, r) == k
  {
    SumPrefixMonotone(w, k + 1, |w|);
    assert w[..|w|] == w;
    var p := Pick(w, r);
    if p < k {
      SumPrefixMonotone(w, p + 1, k);
    } else if k < p {
      SumPrefixMonotone(w, k + 1, p);
    }
  }

  /** The draws `a, a + 1, ..., b - 1`. */
  function Interval(a: nat, b: nat): (s: set<nat>)
    ensures forall r :: r in s <==> a <= r < b
    ensures |s| == if a <= b then b - a else 0
    decreases b - a
  {
    if b <= a then {} else {a} + Interval(a + 1, b)
  }

  /** Weights mean frequencies: of the `Sum(w)` equally likely values of a
      draw, exactly `w[k]` select index `k`. */
  lemma WeightIsFrequency(w: seq<nat>, k: nat)
    requires k < |w|
    ensures |set r: nat | r < Sum(w) && Pick(w, r) == k| == w[k]
  {
    var lo, hi := Sum(w[..k]), Sum(w[..k + 1]);
    assert w[..k + 1][..k] == w[..k];
    SumPrefixMonotone(w, k + 1, |w|);
    assert w[..|w|] == w;
    forall r: nat | r < Sum(w) && Pick(w, r) == k
      ensures lo <= r < hi
    {
    }
    forall r: nat | lo <= r < hi
      ensures r < Sum(w) && Pick(w, r) == k
    {
      PickIsSlice(w, r, k);
    }
    assert (set r: nat | r < Sum(w) && Pick(w, r) == k) == Interval(lo, hi);
  }

  /** The shared pseudorandom stream, owned by the caller. */
  class Random {
    const source: nat -> nat
    var drawn: nat

    constructor (source: nat -> nat)
      ensures this.source == source && drawn == 0
    {
      this.source := source;
      drawn := 0;
    }

    /** `random.choice` over `n` elements. */
    method Below(n: nat) returns (k: nat)
      requires n > 0
      modifies this
      ensures k < n && k == Uniform(n, source(old(drawn)))
      ensures drawn == old(drawn) + 1
    {
      k := Uniform(n, source(drawn));
      drawn := drawn + 1;
    }

    /** `random.choices(population, weights)[0]`, as an index. */
    method Weighted(w: seq<nat>) returns (k: nat)
      requires Sum(w) > 0
      modifies this
      ensures k < |w| && w[k] > 0 && k == Choose(w, source(old(drawn)))
      ensures drawn == old(drawn) + 1
    {
      k := Choose(w, source(drawn));
      drawn := drawn + 1;
    }

    /** `random.randint(lo, hi)`. */
    method RandInt(lo: int, hi: int) returns (x: int)
      requires lo <= hi
      modifies this
      ensures lo <= x <= hi && x == lo + Uniform(hi - lo + 1, source(old(drawn)))
      ensures drawn == old(drawn) + 1
    {
      x := lo + Uniform(hi - lo + 1, source(drawn));
      drawn := drawn + 1;
    }
  }
}
