/** Increasing sequences and ranges of naturals. */
module Ranges {
  ghost predicate Increasing(xs: seq<nat>) {
    forall i, j :: 0 <= i < j < |xs| ==> xs[i] < xs[j]
  }

  lemma IncreasingSnoc(xs: seq<nat>, b: nat)
    requires Increasing(xs) && forall i :: 0 <= i < |xs| ==> xs[i] < b
    ensures Increasing(xs + [b])
  {
  }

  function Range(low: nat, high: nat): (r: seq<nat>)
    requires low <= high
  {
    seq(high - low, i requires 0 <= i => low + i)
  }

  /** Everything from low up to high occurs in xs. */
  ghost predicate Filled(xs: seq<nat>, low: nat, high: nat) {
    forall b: nat :: low <= b < high ==> b in xs
  }

  predicate Between(xs: seq<nat>, low: nat, high: nat) {
    forall i :: 0 <= i < |xs| ==> low <= xs[i] < high
  }

  lemma LastIsHighest(xs: seq<nat>, low: nat, high: nat)
    requires low < high && Increasing(xs) && Between(xs, low, high) && Filled(xs, low, high)
    ensures xs != [] && xs[|xs| - 1] == high - 1
  {
    assert high - 1 in xs;
    var k :| 0 <= k < |xs| && xs[k] == high - 1;
  }

  /** Everything below the last element is among the others. */
  lemma RangeInit(xs: seq<nat>, low: nat, high: nat)
    requires low < high && Increasing(xs) && Between(xs, low, high) && Filled(xs, low, high)
    requires xs != [] && xs[|xs| - 1] == high - 1
    ensures var init := xs[..|xs| - 1];
      Increasing(init) && Between(init, low, high - 1) && Filled(init, low, high - 1)
  {
    var n := |xs| - 1;
    forall b: nat | low <= b < high - 1
      ensures b in xs[..n]
    {
      assert b in xs;
      var i :| 0 <= i <= n && xs[i] == b;
      assert xs[..n][i] == b;
    }
  }

  lemma RangeSnoc(low: nat, high: nat)
    requires low < high
    ensures Range(low, high) == Range(low, high - 1) + [high - 1]
  {
  }

  lemma {:induction false} IncreasingRange(xs: seq<nat>, low: nat, high: nat)
    requires low <= high && Increasing(xs) && Between(xs, low, high) && Filled(xs, low, high)
    ensures xs == Range(low, high)
  {
    if low < high {
      LastIsHighest(xs, low, high);
      RangeInit(xs, low, high);
      IncreasingRange(xs[..|xs| - 1], low, high - 1);
      RangeSnoc(low, high);
    }
  }
}
