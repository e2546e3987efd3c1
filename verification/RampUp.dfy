/** Pool.Start with a ticker that fires exactly on time and no cancellation. */
module RampUp {

  /** Spawn times of the workers, in nanoseconds after the start; NewTicker panics on interval 0. */
  datatype Outcome = TickerPanic | Started(times: seq<int>)

  /** Without ramp-up everyone starts at once, otherwise one worker per interval. */
  function Schedule(vusers: nat, interval: int): (times: seq<int>)
    ensures |times| == vusers
  {
    seq(vusers, k => k * interval)
  }

  method Start(vusers: nat, rampUp: int) returns (r: Outcome)
    ensures r.TickerPanic? <==> 0 < rampUp < vusers && vusers > 1
    ensures r.Started? ==>
      r.times == Schedule(vusers, if rampUp <= 0 || vusers <= 1 then 0 else rampUp / vusers)
    ensures r.Started? && (rampUp <= 0 || vusers <= 1) ==>
      |r.times| == vusers && forall k :: 0 <= k < vusers ==> r.times[k] == 0
  {
    var times := [];
    if rampUp <= 0 || vusers <= 1 {
      for i := 0 to vusers
        invariant times == Schedule(i, 0)
      {
        times := times + [0];
      }
      return Started(times);
    }
    var interval := rampUp / vusers;
    IntervalPositive(rampUp, vusers);
    if interval <= 0 {
      return TickerPanic;
    }
    var clock := 0;
    for i := 0 to vusers
      invariant times == Schedule(i, interval)
      invariant clock == if i < vusers then i * interval else (vusers - 1) * interval
    {
      times := times + [clock];
      if i < vusers - 1 {
        clock := clock + interval;
      }
    }
    return Started(times);
  }

  lemma IntervalPositive(rampUp: int, vusers: int)
    requires rampUp > 0 && vusers > 0
    ensures rampUp / vusers > 0 <==> rampUp >= vusers
    ensures (rampUp / vusers) * vusers <= rampUp < (rampUp / vusers) * vusers + vusers
  {
  }

  /** Number of workers spawned by time t. */
  function SpawnedBy(times: seq<int>, t: int): (n: nat)
    ensures n <= |times|
  {
    if times == [] then 0
    else SpawnedBy(times[..|times| - 1], t) + (if times[|times| - 1] <= t then 1 else 0)
  }

  function Min(a: int, b: int): int {
    if a < b then a else b
  }

  lemma {:induction false} SpawnedCount(vusers: nat, interval: int, t: nat)
    requires interval > 0
    ensures SpawnedBy(Schedule(vusers, interval), t) == Min(vusers, t / interval + 1)
  {
    if vusers > 0 {
      var k := vusers - 1;
      assert Schedule(vusers, interval)[..k] == Schedule(k, interval);
      SpawnedCount(k, interval, t);
      TickBefore(k, interval, t);
    }
  }

  /** The k-th tick has fired by time t exactly when k intervals fit. */
  lemma TickBefore(k: nat, interval: int, t: nat)
    requires interval > 0
    ensures k * interval <= t <==> k <= t / interval
  {
    var q := t / interval;
    assert q * interval <= t < q * interval + interval;
    if k <= q {
      assert k * interval <= q * interval;
    } else {
      assert k * interval >= (q + 1) * interval;
    }
  }

  /**
   With V > 1 workers and a ramp-up R of at least V nanoseconds, min(V, t/i + 1) workers have
   been spawned by time t, where i = R/V; the count never lags the ideal line V*t/R until V is
   reached, and everyone is started strictly before R.
   */
  lemma RampUpLine(vusers: nat, rampUp: int, t: nat)
    requires vusers > 1 && rampUp >= vusers
    ensures var i := rampUp / vusers; var n := SpawnedBy(Schedule(vusers, i), t);
      && i > 0 && n == Min(vusers, t / i + 1)
      && (n < vusers ==> n * rampUp > vusers * t)
      && forall k :: 0 <= k < vusers ==> 0 <= Schedule(vusers, i)[k] < rampUp
  {
    var i := rampUp / vusers;
    IntervalPositive(rampUp, vusers);
    SpawnedCount(vusers, i, t);
    AboveLine(vusers, rampUp, i, t);
    forall k | 0 <= k < vusers
      ensures 0 <= k * i < rampUp
    {
      StartsBefore(vusers, rampUp, i, k);
    }
  }

  lemma AboveLine(vusers: nat, rampUp: int, i: int, t: nat)
    requires vusers > 0 && i > 0 && i * vusers <= rampUp
    ensures (t / i + 1) * rampUp > vusers * t
  {
    var n := t / i + 1;
    assert t < n * i;
    MulStrict(t, n * i, vusers);
    assert vusers * (n * i) == n * (i * vusers);
    MulWeak(i * vusers, rampUp, n);
  }

  lemma StartsBefore(vusers: nat, rampUp: int, i: int, k: nat)
    requires k < vusers && i > 0 && i * vusers <= rampUp
    ensures 0 <= k * i < rampUp
  {
    MulStrict(k, vusers, i);
  }

  lemma MulStrict(a: int, b: int, m: int)
    requires a < b && m > 0
    ensures m * a < m * b && a * m < b * m
  {
  }

  lemma MulWeak(a: int, b: int, m: int)
    requires a <= b && m >= 0
    ensures m * a <= m * b
  {
  }
}
