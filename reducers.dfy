/** The two reducers a product applies to the totals of its orders: their sum,
    and their maximum with zero as the starting value (so an empty or all
    non-positive list of totals yields 0). */
module Reducers {

  /** Sum of the amounts; 0 when there are none. */
  function Sum(s: seq<int>): (r: int)
  {
    if s == [] then 0 else s[0] + Sum(s[1..])
  }

  /** Sum distributes over concatenation; with `b == [x]` this is the step
      of a loop that adds one more amount to a running total. */
  lemma {:induction false} SumConcat(a: seq<int>, b: seq<int>)
    ensures Sum(a + b) == Sum(a) + Sum(b)
  {
    if a == [] {
      assert a + b == b;
    } else {
      assert (a + b)[1..] == a[1..] + b;
      SumConcat(a[1..], b);
    }
  }

  /** Maximum of the amounts, floored at 0. */
  function MaxFloor(s: seq<int>): (r: int)
  {
    if s == [] then 0
    else
      var rest := MaxFloor(s[1..]);
      if s[0] > rest then s[0] else rest
  }

  /** Adding one more amount at the end either raises the maximum to it or
      leaves the maximum as it was: the step of a running-maximum loop. */
  lemma {:induction false} MaxFloorAppend(s: seq<int>, x: int)
    ensures MaxFloor(s + [x]) == if x > MaxFloor(s) then x else MaxFloor(s)
  {
    if s != [] {
      assert (s + [x])[1..] == s[1..] + [x];
      MaxFloorAppend(s[1..], x);
    }
  }

  /** `m` is the maximum of `s` floored at zero: it is non-negative, no
      amount exceeds it, and it is one of the amounts unless it is 0. */
  ghost predicate IsFlooredMaximum(s: seq<int>, m: int)
  {
    && 0 <= m
    && (forall k :: 0 <= k < |s| ==> s[k] <= m)
    && (m == 0 || exists k :: 0 <= k < |s| && s[k] == m)
  }

  lemma {:induction false} MaxFloorIsFlooredMaximum(s: seq<int>)
    ensures IsFlooredMaximum(s, MaxFloor(s))
  {
    if s != [] {
      MaxFloorIsFlooredMaximum(s[1..]);
      var rest := MaxFloor(s[1..]);
      forall k | 0 <= k < |s|
        ensures s[k] <= MaxFloor(s)
      {
        if k > 0 { assert s[k] == s[1..][k - 1]; }
      }
      if MaxFloor(s) != 0 && MaxFloor(s) == rest {
        var j :| 0 <= j < |s[1..]| && s[1..][j] == rest;
        assert s[j + 1] == rest;
      }
    }
  }

  /** The characterisation determines the value: MaxFloor is the only
      floored maximum. */
  lemma FlooredMaximumIsUnique(s: seq<int>, m: int)
    requires IsFlooredMaximum(s, m)
    ensures m == MaxFloor(s)
  {
    MaxFloorIsFlooredMaximum(s);
  }

  /** The maximum is 0 exactly when no amount is positive. */
  lemma MaxFloorIsZeroIff(s: seq<int>)
    ensures MaxFloor(s) == 0 <==> forall k :: 0 <= k < |s| ==> s[k] <= 0
  {
    MaxFloorIsFlooredMaximum(s);
  }
}
