/**
 Latency histogram of the metrics collector.

 The HDR histogram is stood in for by the sequence of recorded microsecond
 values.  A percentile is the nearest-rank (ceiling) percentile: the least
 recorded value v such that at least p percent of the values are at most v.
 */
module Histogram {
  import opened Arithmetic

  /** Number of recorded values that are at most v. */
  function CountAtMost(h: seq<int>, v: int): (n: nat)
    ensures n <= |h|
  {
    if h == [] then 0 else (if h[0] <= v then 1 else 0) + CountAtMost(h[1..], v)
  }

  /** At least p percent of the values are at most v. */
  predicate Covers(h: seq<int>, p: nat, v: int) {
    CountAtMost(h, v) * 100 >= p * |h|
  }

  /** v is the nearest-rank p-percentile of the non-empty h. */
  ghost predicate IsPercentile(h: seq<int>, p: nat, v: int) {
    && v in h
    && Covers(h, p, v)
    && forall w :: w in h && Covers(h, p, w) ==> v <= w
  }

  /** The least covering value among `best` and the candidates. */
  function LeastCovering(candidates: seq<int>, h: seq<int>, p: nat, best: int): (v: int)
    requires Covers(h, p, best)
    ensures Covers(h, p, v) && (v == best || v in candidates) && v <= best
    ensures forall w :: w in candidates && Covers(h, p, w) ==> v <= w
  {
    if candidates == [] then best
    else if Covers(h, p, candidates[0]) && candidates[0] < best then
      LeastCovering(candidates[1..], h, p, candidates[0])
    else
      LeastCovering(candidates[1..], h, p, best)
  }

  function Greatest(h: seq<int>): (m: int)
    requires h != []
    ensures m in h && forall w :: w in h ==> w <= m
  {
    if |h| == 1 then h[0]
    else
      assert h == [h[0]] + h[1..];
      var m := Greatest(h[1..]);
      if h[0] < m then m else h[0]
  }

  lemma {:induction false} AllAtMost(h: seq<int>, v: int)
    requires forall w :: w in h ==> w <= v
    ensures CountAtMost(h, v) == |h|
  {
    if h != [] {
      assert forall w :: w in h[1..] ==> w in h;
      assert h[0] in h;
      AllAtMost(h[1..], v);
    }
  }

  lemma ShareAtMost(p: nat, n: nat)
    requires p <= 100
    ensures p * n <= 100 * n
  {
  }

  lemma GreatestCovers(h: seq<int>, p: nat)
    requires h != [] && p <= 100
    ensures Covers(h, p, Greatest(h))
  {
    AllAtMost(h, Greatest(h));
    ShareAtMost(p, |h|);
  }

  /** ValueAtPercentile; an empty histogram answers 0. */
  function Percentile(h: seq<int>, p: nat): (v: int)
    requires p <= 100
    ensures h != [] ==> IsPercentile(h, p, v)
    ensures h == [] ==> v == 0
  {
    if h == [] then 0
    else
      GreatestCovers(h, p);
      LeastCovering(h, h, p, Greatest(h))
  }

  function Sum(h: seq<int>): int {
    if h == [] then 0 else h[0] + Sum(h[1..])
  }

  /** Histogram mean in microseconds; an empty histogram answers 0. */
  function Mean(h: seq<int>): real {
    if h == [] then 0.0 else Sum(h) as real / |h| as real
  }

  /** Go's int64(x) conversion: truncation toward zero. */
  function Trunc(x: real): (n: int)
    ensures x >= 0.0 ==> n as real <= x < n as real + 1.0
    ensures x < 0.0 ==> n as real - 1.0 < x <= n as real
  {
    if x >= 0.0 then x.Floor else -((-x).Floor)
  }

  /** Whole milliseconds of a duration of us microseconds. */
  function Millis(us: int): int {
    if us >= 0 then us / 1000 else -((-us) / 1000)
  }

  lemma {:induction false} SumConcat(a: seq<int>, b: seq<int>)
    ensures Sum(a + b) == Sum(a) + Sum(b)
  {
    if a == [] {
      assert a + b == b;
    } else {
      assert (a + b)[1..] == a[1..] + b;
      SumConcat(a[1..], b);
    }
  }

  lemma {:induction false} SumBetween(h: seq<int>, low: int, high: int)
    requires forall i :: 0 <= i < |h| ==> low <= h[i] <= high
    ensures Times(|h|, low as real) <= Sum(h) as real <= Times(|h|, high as real)
  {
    if h != [] {
      SumBetween(h[1..], low, high);
    }
  }

  /** The mean times the number of samples is their sum, and it lies between any bounds on them. */
  lemma MeanMeans(h: seq<int>, low: int, high: int)
    requires h != [] && forall i :: 0 <= i < |h| ==> low <= h[i] <= high
    ensures Times(|h|, Mean(h)) == Sum(h) as real
    ensures low as real <= Mean(h) <= high as real
  {
    QuotientIsInverse(|h|, Sum(h) as real);
    SumBetween(h, low, high);
    QuotientWithin(|h|, Sum(h) as real, low as real, high as real);
  }

  lemma {:induction false} CountMonotone(h: seq<int>, v: int, w: int)
    requires v <= w
    ensures CountAtMost(h, v) <= CountAtMost(h, w)
  {
    if h != [] {
      CountMonotone(h[1..], v, w);
    }
  }

  lemma {:induction false} CountConcat(a: seq<int>, b: seq<int>, v: int)
    ensures CountAtMost(a + b, v) == CountAtMost(a, v) + CountAtMost(b, v)
  {
    if a == [] {
      assert a + b == b;
    } else {
      assert (a + b)[1..] == a[1..] + b;
      CountConcat(a[1..], b, v);
    }
  }

  lemma LowerRank(n: nat, p: nat, q: nat)
    requires p <= q
    ensures p * n <= q * n
  {
  }

  /** A value covering a higher percentile covers a lower one. */
  lemma CoversLower(h: seq<int>, p: nat, q: nat, v: int)
    requires p <= q && Covers(h, q, v)
    ensures Covers(h, p, v)
  {
    LowerRank(|h|, p, q);
  }

  /** A higher percentile of the same histogram is never smaller. */
  lemma PercentileMonotone(h: seq<int>, p: nat, q: nat)
    requires p <= q <= 100
    ensures Percentile(h, p) <= Percentile(h, q)
  {
    if h != [] {
      CoversLower(h, p, q, Percentile(h, q));
    }
  }

  /** The greatest recorded value at most v; it has the same count as v. */
  lemma {:induction false} GreatestAtMost(h: seq<int>, v: int) returns (w: int)
    requires CountAtMost(h, v) > 0
    ensures w in h && w <= v && CountAtMost(h, w) == CountAtMost(h, v)
    ensures forall i :: 0 <= i < |h| && h[i] <= v ==> h[i] <= w
  {
    if CountAtMost(h[1..], v) == 0 {
      w := h[0];
      CountMonotone(h[1..], w, v);
      NoneAtMost(h[1..], v);
    } else {
      var u := GreatestAtMost(h[1..], v);
      w := if u < h[0] <= v then h[0] else u;
      CountMonotone(h[1..], u, w);
      CountMonotone(h[1..], w, v);
      assert h == [h[0]] + h[1..];
    }
  }

  lemma {:induction false} NoneAtMost(h: seq<int>, v: int)
    requires CountAtMost(h, v) == 0
    ensures forall i :: 0 <= i < |h| ==> h[i] > v
  {
    if h != [] {
      NoneAtMost(h[1..], v);
    }
  }

  /** No value below a positive percentile covers, recorded or not. */
  lemma NothingBelowCovers(h: seq<int>, p: nat, v: int)
    requires h != [] && 0 < p <= 100 && v < Percentile(h, p)
    ensures !Covers(h, p, v)
  {
    if Covers(h, p, v) {
      assert p * |h| > 0;
      var w := GreatestAtMost(h, v);
    }
  }

  /** Everything from the percentile upwards covers. */
  lemma EverythingAboveCovers(h: seq<int>, p: nat, v: int)
    requires h != [] && p <= 100 && Percentile(h, p) <= v
    ensures Covers(h, p, v)
  {
    CountMonotone(h, Percentile(h, p), v);
  }

  lemma PooledCovers(a: seq<int>, b: seq<int>, p: nat, v: int)
    ensures Covers(a, p, v) && Covers(b, p, v) ==> Covers(a + b, p, v)
    ensures (a == [] || !Covers(a, p, v)) && (b == [] || !Covers(b, p, v)) && a + b != [] ==> !Covers(a + b, p, v)
  {
    CountConcat(a, b, v);
    assert p * |a + b| == p * |a| + p * |b|;
    if a == [] {
      assert a + b == b;
    }
    if b == [] {
      assert a + b == a;
    }
  }
}
