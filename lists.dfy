/** Python list operations the engine relies on: indexing with negative
    indices, `list.index`, and `append` followed by `sort` on a list that
    is already sorted. */
module Lists {
  import opened Wrappers

  ghost predicate StrictlyIncreasing(s: seq<int>) {
    forall i, j :: 0 <= i < j < |s| ==> s[i] < s[j]
  }

  /** `s[i]`: a negative index counts from the end; anything else out of
      range raises IndexError. */
  function At(s: seq<int>, i: int): (r: Result<int>)
    ensures r.Ok? <==> -|s| <= i < |s|
    ensures r.Ok? && 0 <= i ==> r.value == s[i]
    ensures r.Ok? && i < 0 ==> r.value == s[|s| + i]
  {
    if 0 <= i < |s| then Ok(s[i])
    else if -|s| <= i < 0 then Ok(s[|s| + i])
    else Err(IndexError)
  }

  /** `s.index(x)`: the first position holding `x`, or ValueError. */
  function IndexOf(s: seq<int>, x: int): (r: Result<nat>)
    ensures r.Ok? <==> x in s
    ensures r.Err? ==> r.error == ValueError
    ensures r.Ok? ==> r.value < |s| && s[r.value] == x && x !in s[..r.value]
  {
    if s == [] then Err(ValueError)
    else if s[0] == x then Ok(0)
    else
      match IndexOf(s[1..], x)
      case Ok(k) =>
        assert s[1..][..k] == s[1..k + 1];
        assert s[..k + 1] == [s[0]] + s[1..k + 1];
        Ok(k + 1)
      case Err(e) => Err(e)
  }

  /** The number of elements of `s` below `x`: where `x` lands when it is
      appended and the list is sorted again. */
  function CountBelow(s: seq<int>, x: int): (k: nat)
    requires StrictlyIncreasing(s)
    ensures k <= |s|
    ensures forall i :: 0 <= i < k ==> s[i] < x
    ensures forall i :: k <= i < |s| ==> x <= s[i]
  {
    if s == [] || x <= s[0] then 0 else 1 + CountBelow(s[1..], x)
  }

  /** `s.append(x); s.sort()` for a strictly increasing `s` that lacks `x`. */
  function Insert(s: seq<int>, x: int): (r: seq<int>)
    requires StrictlyIncreasing(s) && x !in s
    ensures StrictlyIncreasing(r)
    ensures multiset(r) == multiset(s) + multiset{x}
    ensures |r| == |s| + 1 && x in r
    ensures forall y :: y in r <==> y in s || y == x
  {
    var k := CountBelow(s, x);
    assert s == s[..k] + s[k..];
    s[..k] + [x] + s[k..]
  }
}
