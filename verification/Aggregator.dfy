/** Merging the agents' metric reports into one view of a test run. */
module Aggregator {
  import opened Arithmetic
  import opened Wrappers
  import opened Histogram
  import C = Collector

  type AgentId = string
  type RunId = string

  datatype MetricReport = MetricReport(
    agentId: AgentId, testRunId: RunId, totalRequests: int, totalErrors: int, rps: real,
    avgMs: real, p50Ms: real, p95Ms: real, p99Ms: real, activeVUsers: int)

  /** The report an agent sends for a snapshot. */
  function ToReport(agent: AgentId, run: RunId, s: C.Snapshot): MetricReport {
    MetricReport(agent, run, s.total, s.errors, s.rps,
                 Millis(s.AvgUs()) as real, Millis(s.PercentileUs(50)) as real,
                 Millis(s.PercentileUs(95)) as real, Millis(s.PercentileUs(99)) as real, s.active)
  }

  datatype PerAgent = PerAgent(rps: real, activeVUsers: int, totalReqs: int, totalErrors: int)

  datatype Aggregated = Aggregated(
    totalRPS: real, avgMs: real, p50Ms: real, p95Ms: real, p99Ms: real,
    totalReqs: int, totalErrors: int, activeVUsers: int, perAgent: map<AgentId, PerAgent>)

  // ----- folding over the agents of a run -----

  /** Running totals; avg to p99 are weighted by requests, weight counts only positive requests. */
  datatype Tally = Tally(
    rps: real, reqs: int, errors: int, active: int,
    avg: real, p50: real, p95: real, p99: real, weight: int)

  const NO_TALLY := Tally(0.0, 0, 0, 0, 0.0, 0.0, 0.0, 0.0, 0)

  function Add(s: Tally, t: Tally): Tally {
    Tally(s.rps + t.rps, s.reqs + t.reqs, s.errors + t.errors, s.active + t.active,
          s.avg + t.avg, s.p50 + t.p50, s.p95 + t.p95, s.p99 + t.p99, s.weight + t.weight)
  }

  /** What one report contributes. */
  function Of(r: MetricReport): Tally {
    var n := r.totalRequests;
    Tally(r.rps, n, r.totalErrors, r.activeVUsers,
          Times(n, r.avgMs), Times(n, r.p50Ms), Times(n, r.p95Ms), Times(n, r.p99Ms), if n > 0 then n else 0)
  }

  ghost function Fold(m: map<AgentId, MetricReport>): Tally
    decreases m.Keys
  {
    if m == map[] then NO_TALLY
    else
      assert m.Keys != {};
      var a :| a in m;
      assert (m - {a}).Keys < m.Keys;
      Add(Of(m[a]), Fold(m - {a}))
  }

  /** The fold does not depend on which agent comes first. */
  lemma {:induction false} FoldRemove(m: map<AgentId, MetricReport>, a: AgentId)
    requires a in m
    ensures Fold(m) == Add(Of(m[a]), Fold(m - {a}))
    decreases m.Keys
  {
    assert m.Keys != {};
    var b :| b in m && Fold(m) == Add(Of(m[b]), Fold(m - {b}));
    if a != b {
      assert (m - {b}).Keys < m.Keys && (m - {a}).Keys < m.Keys;
      FoldRemove(m - {b}, a);
      FoldRemove(m - {a}, b);
      assert m - {a} - {b} == m - {b} - {a};
      AddSwap(Of(m[b]), Of(m[a]), Fold(m - {a} - {b}));
    }
  }

  lemma AddSwap(x: Tally, y: Tally, z: Tally)
    ensures Add(x, Add(y, z)) == Add(y, Add(x, z))
  {
  }

  /** Moving one agent from the rest to the running totals. */
  lemma FoldStep(t: Tally, rest: map<AgentId, MetricReport>, a: AgentId)
    requires a in rest
    ensures Add(t, Fold(rest)) == Add(Add(t, Of(rest[a])), Fold(rest - {a}))
  {
    FoldRemove(rest, a);
    AddShift(t, Of(rest[a]), Fold(rest - {a}));
  }

  lemma AddShift(x: Tally, y: Tally, z: Tally)
    ensures Add(x, Add(y, z)) == Add(Add(x, y), z)
  {
  }

  function WeightedMean(weighted: real, weight: int): real {
    if weight > 0 then weighted / weight as real else 0.0
  }

  function PerAgentOf(r: MetricReport): PerAgent {
    PerAgent(r.rps, r.activeVUsers, r.totalRequests, r.totalErrors)
  }

  function PerAgentView(m: map<AgentId, MetricReport>): map<AgentId, PerAgent> {
    map a | a in m :: PerAgentOf(m[a])
  }

  lemma PerAgentComplete(m: map<AgentId, MetricReport>, p: map<AgentId, PerAgent>)
    requires p.Keys == m.Keys && forall a :: a in p ==> p[a] == PerAgentOf(m[a])
    ensures p == PerAgentView(m)
  {
  }

  ghost function AggregateOf(m: map<AgentId, MetricReport>): Aggregated {
    var t := Fold(m);
    Aggregated(t.rps, WeightedMean(t.avg, t.weight), WeightedMean(t.p50, t.weight),
               WeightedMean(t.p95, t.weight), WeightedMean(t.p99, t.weight),
               t.reqs, t.errors, t.active, PerAgentView(m))
  }

  // ----- the object -----

  type Metrics = map<RunId, map<AgentId, MetricReport>>

  function Reported(m: Metrics, r: MetricReport): Metrics {
    m[r.testRunId := (if r.testRunId in m then m[r.testRunId] else map[])[r.agentId := r]]
  }

  class Aggregator {
    var metrics: Metrics

    constructor ()
      ensures metrics == map[]
    {
      metrics := map[];
    }

    /** Stores the report and returns the merged view that is broadcast. */
    method OnMetricReport(report: MetricReport) returns (agg: Option<Aggregated>)
      modifies this
      ensures metrics == Reported(old(metrics), report)
      ensures agg == Some(AggregateOf(metrics[report.testRunId]))
    {
      if report.testRunId !in metrics {
        metrics := metrics[report.testRunId := map[]];
      }
      metrics := metrics[report.testRunId := metrics[report.testRunId][report.agentId := report]];
      agg := Aggregate(report.testRunId);
    }

    /** Visits the agents in whatever order the map yields them. */
    method Aggregate(run: RunId) returns (agg: Option<Aggregated>)
      ensures agg == if run in metrics then Some(AggregateOf(metrics[run])) else None
    {
      if run !in metrics {
        return None;
      }
      var m := metrics[run];
      var t := NO_TALLY;
      var perAgent: map<AgentId, PerAgent> := map[];
      var todo := m.Keys;
      ghost var rest := m;
      while todo != {}
        invariant todo == rest.Keys <= m.Keys
        invariant forall a :: a in rest ==> rest[a] == m[a]
        invariant Add(t, Fold(rest)) == Fold(m)
        invariant perAgent.Keys == m.Keys - todo
        invariant forall a :: a in perAgent ==> perAgent[a] == PerAgentOf(m[a])
        decreases todo
      {
        var a :| a in todo;
        var r := m[a];
        FoldStep(t, rest, a);
        t := Accumulate(t, r);
        perAgent := perAgent[a := PerAgent(r.rps, r.activeVUsers, r.totalRequests, r.totalErrors)];
        todo, rest := todo - {a}, rest - {a};
      }
      assert rest == map[] && t == Fold(m);
      PerAgentComplete(m, perAgent);
      return Some(Aggregated(t.rps, WeightedMean(t.avg, t.weight), WeightedMean(t.p50, t.weight),
                             WeightedMean(t.p95, t.weight), WeightedMean(t.p99, t.weight),
                             t.reqs, t.errors, t.active, perAgent));
    }

    /** The loop body's updates: sums for everybody, weighted sums for agents with requests. */
    static method Accumulate(t: Tally, r: MetricReport) returns (u: Tally)
      ensures u == Add(t, Of(r))
    {
      u := t.(rps := t.rps + r.rps, reqs := t.reqs + r.totalRequests,
              errors := t.errors + r.totalErrors, active := t.active + r.activeVUsers);
      var reqs := r.totalRequests;
      if reqs > 0 {
        TimesIsProduct(reqs, r.avgMs);
        TimesIsProduct(reqs, r.p50Ms);
        TimesIsProduct(reqs, r.p95Ms);
        TimesIsProduct(reqs, r.p99Ms);
        u := u.(avg := u.avg + r.avgMs * reqs as real, p50 := u.p50 + r.p50Ms * reqs as real,
                p95 := u.p95 + r.p95Ms * reqs as real, p99 := u.p99 + r.p99Ms * reqs as real,
                weight := u.weight + reqs);
      }
    }

    method Cleanup(run: RunId)
      modifies this
      ensures metrics == old(metrics) - {run}
    {
      metrics := metrics - {run};
    }
  }

  // ----- the merged view is the latest report of each agent in the log -----

  datatype LogEntry = Report(r: MetricReport) | Cleaned(run: RunId)

  /** The map after a log of reports and cleanups. */
  function MetricsAfter(log: seq<LogEntry>): Metrics {
    if log == [] then map[]
    else
      var m := MetricsAfter(log[..|log| - 1]);
      match log[|log| - 1]
      case Report(r) => Reported(m, r)
      case Cleaned(run) => m - {run}
  }

  /** Entry e makes anything known before about the agent in the run obsolete. */
  predicate Supersedes(e: LogEntry, run: RunId, agent: AgentId) {
    match e
    case Report(r) => r.testRunId == run && r.agentId == agent
    case Cleaned(c) => c == run
  }

  /** Entry i is the agent's last report in the run, with no cleanup of the run after it. */
  ghost predicate IsLatest(log: seq<LogEntry>, i: int, run: RunId, agent: AgentId) {
    && 0 <= i < |log| && log[i].Report? && log[i].r.testRunId == run && log[i].r.agentId == agent
    && forall j :: i < j < |log| ==> !Supersedes(log[j], run, agent)
  }

  /** The incrementally maintained map holds exactly the latest report of every agent. */
  lemma {:induction false} LatestExactly(log: seq<LogEntry>, run: RunId, agent: AgentId, r: MetricReport)
    ensures var m := MetricsAfter(log);
      (run in m && agent in m[run] && m[run][agent] == r) <==> exists i :: IsLatest(log, i, run, agent) && log[i].r == r
  {
    if log != [] {
      var n := |log| - 1;
      var before, e := log[..n], log[n];
      LatestExactly(before, run, agent, r);
      if Supersedes(e, run, agent) {
        if e.Report? {
          assert IsLatest(log, n, run, agent);
        }
      } else {
        forall i | 0 <= i < n
          ensures IsLatest(before, i, run, agent) <==> IsLatest(log, i, run, agent)
        {
          assert before[i] == log[i];
        }
      }
    }
  }

  // ----- accuracy of the weighted mean -----

  type Snapshots = map<AgentId, C.Snapshot>

  /** m holds the report of every agent's snapshot. */
  ghost predicate ReportsOf(m: map<AgentId, MetricReport>, run: RunId, snaps: Snapshots) {
    m.Keys == snaps.Keys && forall a :: a in snaps ==> m[a] == ToReport(a, run, snaps[a])
  }

  /** Requests times the untruncated histogram mean, in milliseconds. */
  function ExactWeighted(s: C.Snapshot): real {
    Times(s.total, Histogram.Mean(s.hist) / 1000.0)
  }

  ghost function ExactSum(snaps: Snapshots): real
    decreases snaps.Keys
  {
    if snaps == map[] then 0.0
    else
      assert snaps.Keys != {};
      var a :| a in snaps;
      assert (snaps - {a}).Keys < snaps.Keys;
      ExactWeighted(snaps[a]) + ExactSum(snaps - {a})
  }

  // ----- sums over the agents' snapshots -----

  ghost function CountOf(snaps: Snapshots, f: C.Snapshot -> int): int
    decreases snaps.Keys
  {
    if snaps == map[] then 0
    else
      assert snaps.Keys != {};
      var a :| a in snaps;
      assert (snaps - {a}).Keys < snaps.Keys;
      f(snaps[a]) + CountOf(snaps - {a}, f)
  }

  ghost function SumOf(snaps: Snapshots, f: C.Snapshot -> real): real
    decreases snaps.Keys
  {
    if snaps == map[] then 0.0
    else
      assert snaps.Keys != {};
      var a :| a in snaps;
      assert (snaps - {a}).Keys < snaps.Keys;
      f(snaps[a]) + SumOf(snaps - {a}, f)
  }

  /** A count that adds up over tallies is, of the fold, the sum over the snapshots. */
  lemma {:induction false} FoldCounts(
    m: map<AgentId, MetricReport>, snaps: Snapshots, f: C.Snapshot -> int, g: Tally -> int)
    requires m.Keys == snaps.Keys && forall a :: a in snaps ==> g(Of(m[a])) == f(snaps[a])
    requires g(NO_TALLY) == 0 && forall s, t :: g(Add(s, t)) == g(s) + g(t)
    ensures g(Fold(m)) == CountOf(snaps, f)
    decreases snaps.Keys
  {
    if snaps == map[] {
      assert m == map[];
    } else {
      assert snaps.Keys != {};
      var a :| a in snaps && CountOf(snaps, f) == f(snaps[a]) + CountOf(snaps - {a}, f);
      assert (snaps - {a}).Keys < snaps.Keys;
      FoldCounts(m - {a}, snaps - {a}, f, g);
      FoldRemove(m, a);
    }
  }

  lemma {:induction false} FoldSums(
    m: map<AgentId, MetricReport>, snaps: Snapshots, f: C.Snapshot -> real, g: Tally -> real)
    requires m.Keys == snaps.Keys && forall a :: a in snaps ==> g(Of(m[a])) == f(snaps[a])
    requires g(NO_TALLY) == 0.0 && forall s, t :: g(Add(s, t)) == g(s) + g(t)
    ensures g(Fold(m)) == SumOf(snaps, f)
    decreases snaps.Keys
  {
    if snaps == map[] {
      assert m == map[];
    } else {
      assert snaps.Keys != {};
      var a :| a in snaps && SumOf(snaps, f) == f(snaps[a]) + SumOf(snaps - {a}, f);
      assert (snaps - {a}).Keys < snaps.Keys;
      FoldSums(m - {a}, snaps - {a}, f, g);
      FoldRemove(m, a);
    }
  }

  /** The requests the agents' snapshots count. */
  ghost function RequestsOf(snaps: Snapshots): int {
    CountOf(snaps, (s: C.Snapshot) => s.total)
  }

  /** The merged totals are the sums of what the agents' snapshots show. */
  lemma TotalsAreSums(m: map<AgentId, MetricReport>, run: RunId, snaps: Snapshots)
    requires ReportsOf(m, run, snaps)
    ensures var g := AggregateOf(m);
      && g.totalReqs == RequestsOf(snaps)
      && g.totalErrors == CountOf(snaps, (s: C.Snapshot) => s.errors)
      && g.activeVUsers == CountOf(snaps, (s: C.Snapshot) => s.active)
      && g.totalRPS == SumOf(snaps, (s: C.Snapshot) => s.rps)
  {
    FoldCounts(m, snaps, (s: C.Snapshot) => s.total, (t: Tally) => t.reqs);
    FoldCounts(m, snaps, (s: C.Snapshot) => s.errors, (t: Tally) => t.errors);
    FoldCounts(m, snaps, (s: C.Snapshot) => s.active, (t: Tally) => t.active);
    FoldSums(m, snaps, (s: C.Snapshot) => s.rps, (t: Tally) => t.rps);
  }

  /** Every agent's line in the merged view shows its own snapshot. */
  lemma LinesAreSnapshots(m: map<AgentId, MetricReport>, run: RunId, snaps: Snapshots, a: AgentId)
    requires ReportsOf(m, run, snaps)
    ensures var lines := AggregateOf(m).perAgent;
      && lines.Keys == snaps.Keys
      && (a in snaps ==>
            && lines[a].rps == snaps[a].rps && lines[a].activeVUsers == snaps[a].active
            && lines[a].totalReqs == snaps[a].total && lines[a].totalErrors == snaps[a].errors)
  {
  }

  /** The fold weighs every request once. */
  lemma WeightIsRequests(m: map<AgentId, MetricReport>, run: RunId, snaps: Snapshots)
    requires ReportsOf(m, run, snaps) && forall a :: a in snaps ==> snaps[a].total >= 0
    ensures Fold(m).weight == RequestsOf(snaps)
  {
    FoldCounts(m, snaps, (s: C.Snapshot) => s.total, (t: Tally) => t.weight);
  }

  predicate PositiveHistogram(h: seq<int>) {
    forall i :: 0 <= i < |h| ==> h[i] >= 0
  }

  lemma {:induction false} SumNonNegative(h: seq<int>)
    requires PositiveHistogram(h)
    ensures Histogram.Sum(h) >= 0
  {
    if h != [] {
      SumNonNegative(h[1..]);
    }
  }

  lemma MeanNonNegative(h: seq<int>)
    requires PositiveHistogram(h)
    ensures Histogram.Mean(h) >= 0.0
  {
    if h != [] {
      SumNonNegative(h);
      QuotientNonNegative(Histogram.Sum(h), |h|);
    }
  }

  lemma QuotientNonNegative(a: int, n: nat)
    requires a >= 0 && n > 0
    ensures a as real / n as real >= 0.0
  {
  }

  /** Truncating to whole microseconds and then to whole milliseconds loses less than a millisecond. */
  lemma TruncationLoss(x: real)
    requires x >= 0.0
    ensures Millis(Trunc(x)) as real <= x / 1000.0 < Millis(Trunc(x)) as real + 1.0
  {
    var us := Trunc(x);
    assert us >= 0;
    assert 1000 * (us / 1000) <= us <= 1000 * (us / 1000) + 999;
  }

  ghost predicate WithinOneMilli(t: Tally, exact: real) {
    t.weight >= 0 && t.avg <= exact && exact <= t.avg + t.weight as real
    && (t.weight > 0 ==> exact < t.avg + t.weight as real)
  }

  lemma OneAgentLoss(agent: AgentId, run: RunId, s: C.Snapshot)
    requires PositiveHistogram(s.hist)
    ensures WithinOneMilli(Of(ToReport(agent, run, s)), ExactWeighted(s))
  {
    MeanNonNegative(s.hist);
    TruncationLoss(Histogram.Mean(s.hist));
    var ms := Millis(s.AvgUs()) as real;
    TimesMonotone(s.total, ms, Histogram.Mean(s.hist) / 1000.0);
    TimesMonotone(s.total, Histogram.Mean(s.hist) / 1000.0, ms + 1.0);
    if s.total > 0 {
      TimesNext(s.total, ms);
    }
  }

  lemma AddWithin(s: Tally, t: Tally, x: real, y: real)
    requires WithinOneMilli(s, x) && WithinOneMilli(t, y)
    ensures WithinOneMilli(Add(s, t), x + y)
  {
  }

  lemma {:induction false} PooledLoss(m: map<AgentId, MetricReport>, snaps: Snapshots)
    requires m.Keys == snaps.Keys
    requires forall a :: a in snaps ==> WithinOneMilli(Of(m[a]), ExactWeighted(snaps[a]))
    ensures WithinOneMilli(Fold(m), ExactSum(snaps))
    decreases snaps.Keys
  {
    if snaps == map[] {
      assert m == map[];
    } else {
      assert snaps.Keys != {};
      var a :| a in snaps && ExactSum(snaps) == ExactWeighted(snaps[a]) + ExactSum(snaps - {a});
      assert (snaps - {a}).Keys < snaps.Keys;
      PooledLoss(m - {a}, snaps - {a});
      FoldRemove(m, a);
      AddWithin(Of(m[a]), Fold(m - {a}), ExactWeighted(snaps[a]), ExactSum(snaps - {a}));
    }
  }

  predicate Contributes(m: map<AgentId, MetricReport>, a: AgentId) {
    a in m && m[a].totalRequests > 0
  }

  lemma {:induction false} WeightNonNegative(m: map<AgentId, MetricReport>)
    ensures Fold(m).weight >= 0
    decreases m.Keys
  {
    if m != map[] {
      assert m.Keys != {};
      var a :| a in m;
      assert (m - {a}).Keys < m.Keys;
      FoldRemove(m, a);
      WeightNonNegative(m - {a});
    }
  }

  /** One agent with requests makes the weight positive. */
  lemma ContributorWeighs(m: map<AgentId, MetricReport>, a: AgentId)
    requires Contributes(m, a)
    ensures Fold(m).weight > 0
  {
    FoldRemove(m, a);
    WeightNonNegative(m - {a});
  }

  /** Every snapshot's total is at least 0, and no sample is negative. */
  ghost predicate Sound(snaps: Snapshots) {
    forall a :: a in snaps ==> snaps[a].total >= 0 && PositiveHistogram(snaps[a].hist)
  }

  lemma LossOfAll(m: map<AgentId, MetricReport>, run: RunId, snaps: Snapshots)
    requires ReportsOf(m, run, snaps) && Sound(snaps)
    ensures WithinOneMilli(Fold(m), ExactSum(snaps))
  {
    forall a | a in snaps
      ensures WithinOneMilli(Of(m[a]), ExactWeighted(snaps[a]))
    {
      OneAgentLoss(a, run, snaps[a]);
    }
    PooledLoss(m, snaps);
  }

  /**
   When some agent has requests, the aggregated average is at most the request-weighted mean
   of the agents' untruncated histogram means, and less than one millisecond below it.
   */
  lemma PooledMeanAccuracy(m: map<AgentId, MetricReport>, run: RunId, snaps: Snapshots, b: AgentId)
    requires ReportsOf(m, run, snaps) && Sound(snaps) && Contributes(m, b)
    ensures RequestsOf(snaps) > 0
    ensures var mean := ExactSum(snaps) / RequestsOf(snaps) as real;
      AggregateOf(m).avgMs <= mean < AggregateOf(m).avgMs + 1.0
  {
    ContributorWeighs(m, b);
    WeightIsRequests(m, run, snaps);
    LossOfAll(m, run, snaps);
    var t := Fold(m);
    var avg := t.avg / t.weight as real;
    QuotientIsInverse(t.weight, t.avg);
    TimesNext(t.weight, avg);
    QuotientWithin(t.weight, ExactSum(snaps), avg, avg + 1.0);
  }

  // ----- percentiles -----

  datatype Level = P50 | P95 | P99

  function Rank(l: Level): (p: nat)
    ensures p <= 100
  {
    match l case P50 => 50 case P95 => 95 case P99 => 99
  }

  function LevelOf(r: MetricReport, l: Level): real {
    match l case P50 => r.p50Ms case P95 => r.p95Ms case P99 => r.p99Ms
  }

  function WeightedLevel(t: Tally, l: Level): real {
    match l case P50 => t.p50 case P95 => t.p95 case P99 => t.p99
  }

  function AggregatedLevel(g: Aggregated, l: Level): real {
    match l case P50 => g.p50Ms case P95 => g.p95Ms case P99 => g.p99Ms
  }

  lemma OneLevelWithin(r: MetricReport, l: Level, low: real, high: real)
    requires r.totalRequests > 0 ==> low <= LevelOf(r, l) <= high
    ensures var t := Of(r); Times(t.weight, low) <= WeightedLevel(t, l) <= Times(t.weight, high)
  {
    if r.totalRequests > 0 {
      TimesMonotone(r.totalRequests, low, LevelOf(r, l));
      TimesMonotone(r.totalRequests, LevelOf(r, l), high);
    }
  }

  lemma {:induction false} WeightedWithin(m: map<AgentId, MetricReport>, l: Level, low: real, high: real)
    requires forall a :: Contributes(m, a) ==> low <= LevelOf(m[a], l) <= high
    ensures var t := Fold(m);
      t.weight >= 0 && Times(t.weight, low) <= WeightedLevel(t, l) <= Times(t.weight, high)
    decreases m.Keys
  {
    if m != map[] {
      assert m.Keys != {};
      var a :| a in m;
      assert (m - {a}).Keys < m.Keys;
      FoldRemove(m, a);
      forall b | Contributes(m - {a}, b)
        ensures low <= LevelOf((m - {a})[b], l) <= high
      {
        assert Contributes(m, b);
      }
      WeightedWithin(m - {a}, l, low, high);
      assert m[a].totalRequests > 0 ==> Contributes(m, a);
      OneLevelWithin(m[a], l, low, high);
      TimesSplit(Of(m[a]).weight, Fold(m - {a}).weight, low);
      TimesSplit(Of(m[a]).weight, Fold(m - {a}).weight, high);
    }
  }

  /** An aggregated percentile lies between any bounds on the contributing agents' percentiles. */
  lemma PercentileWithin(m: map<AgentId, MetricReport>, l: Level, low: real, high: real)
    requires Fold(m).weight > 0
    requires forall a :: Contributes(m, a) ==> low <= LevelOf(m[a], l) <= high
    ensures low <= AggregatedLevel(AggregateOf(m), l) <= high
  {
    WeightedWithin(m, l, low, high);
    QuotientWithin(Fold(m).weight, WeightedLevel(Fold(m), l), low, high);
  }

  /** The contributing agents with the least and the greatest percentile. */
  lemma {:induction false} Extremes(m: map<AgentId, MetricReport>, l: Level) returns (a: AgentId, b: AgentId)
    requires exists c :: Contributes(m, c)
    ensures Contributes(m, a) && Contributes(m, b)
    ensures forall c :: Contributes(m, c) ==> LevelOf(m[a], l) <= LevelOf(m[c], l) <= LevelOf(m[b], l)
    decreases m.Keys
  {
    var c :| Contributes(m, c);
    var rest := m - {c};
    if exists d :: Contributes(rest, d) {
      assert rest.Keys < m.Keys;
      a, b := Extremes(rest, l);
      if LevelOf(m[c], l) < LevelOf(m[a], l) {
        a := c;
      }
      if LevelOf(m[c], l) > LevelOf(m[b], l) {
        b := c;
      }
    } else {
      a, b := c, c;
    }
    forall d | Contributes(m, d)
      ensures LevelOf(m[a], l) <= LevelOf(m[d], l) <= LevelOf(m[b], l)
    {
      assert d == c || Contributes(rest, d);
    }
  }

  lemma {:induction false} WeightNeedsContributor(m: map<AgentId, MetricReport>)
    requires Fold(m).weight > 0
    ensures exists a :: Contributes(m, a)
    decreases m.Keys
  {
    assert m.Keys != {};
    var a :| a in m;
    FoldRemove(m, a);
    if m[a].totalRequests > 0 {
      assert Contributes(m, a);
    } else {
      assert (m - {a}).Keys < m.Keys;
      WeightNeedsContributor(m - {a});
      var b :| Contributes(m - {a}, b);
      assert Contributes(m, b);
    }
  }

  type Histograms = map<AgentId, seq<int>>

  /** All agents' samples together. */
  ghost function Pooled(hs: Histograms): seq<int>
    decreases hs.Keys
  {
    if hs == map[] then []
    else
      assert hs.Keys != {};
      var a :| a in hs;
      assert (hs - {a}).Keys < hs.Keys;
      hs[a] + Pooled(hs - {a})
  }

  lemma {:induction false} PoolCovers(hs: Histograms, p: nat, v: int)
    ensures (forall a :: a in hs && hs[a] != [] ==> Covers(hs[a], p, v)) ==> Covers(Pooled(hs), p, v)
    ensures (forall a :: a in hs && hs[a] != [] ==> !Covers(hs[a], p, v)) && Pooled(hs) != [] ==>
      !Covers(Pooled(hs), p, v)
    decreases hs.Keys
  {
    if hs != map[] {
      assert hs.Keys != {};
      var a :| a in hs && Pooled(hs) == hs[a] + Pooled(hs - {a});
      assert (hs - {a}).Keys < hs.Keys;
      PoolCovers(hs - {a}, p, v);
      PooledCovers(hs[a], Pooled(hs - {a}), p, v);
    }
  }

  lemma PooledPercentileAtMost(hs: Histograms, p: nat, high: int)
    requires 0 < p <= 100 && Pooled(hs) != []
    requires forall a :: a in hs && hs[a] != [] ==> Percentile(hs[a], p) <= high
    ensures Percentile(Pooled(hs), p) <= high
  {
    forall a | a in hs && hs[a] != []
      ensures Covers(hs[a], p, high)
    {
      EverythingAboveCovers(hs[a], p, high);
    }
    PoolCovers(hs, p, high);
    if Percentile(Pooled(hs), p) > high {
      NothingBelowCovers(Pooled(hs), p, high);
    }
  }

  lemma NobodyCoversBelow(hs: Histograms, p: nat, low: int)
    requires 0 < p <= 100
    requires forall a :: a in hs && hs[a] != [] ==> low <= Percentile(hs[a], p)
    ensures forall a :: a in hs && hs[a] != [] ==> !Covers(hs[a], p, low - 1)
  {
    forall a | a in hs && hs[a] != []
      ensures !Covers(hs[a], p, low - 1)
    {
      NothingBelowCovers(hs[a], p, low - 1);
    }
  }

  lemma PooledPercentileAtLeast(hs: Histograms, p: nat, low: int)
    requires 0 < p <= 100 && Pooled(hs) != []
    requires forall a :: a in hs && hs[a] != [] ==> low <= Percentile(hs[a], p)
    ensures low <= Percentile(Pooled(hs), p)
  {
    NobodyCoversBelow(hs, p, low);
    PoolCovers(hs, p, low - 1);
    if Percentile(Pooled(hs), p) < low {
      EverythingAboveCovers(Pooled(hs), p, low - 1);
    }
  }

  lemma {:induction false} PoolHasSample(hs: Histograms)
    requires Pooled(hs) != []
    ensures exists a :: a in hs && hs[a] != []
    decreases hs.Keys
  {
    assert hs.Keys != {};
    var b :| b in hs && Pooled(hs) == hs[b] + Pooled(hs - {b});
    if hs[b] == [] {
      assert (hs - {b}).Keys < hs.Keys;
      PoolHasSample(hs - {b});
      var a :| a in hs - {b} && (hs - {b})[a] != [];
      assert a in hs && hs[a] != [];
    }
  }

  /** The snapshot's total counts at least its samples, and no sample is negative. */
  predicate Measured(s: C.Snapshot) {
    |s.hist| <= s.total && PositiveHistogram(s.hist)
  }

  /** The snapshots of every collector run are measured, and so are those of every engine run. */
  lemma CredibleIsMeasured(s: C.Snapshot)
    requires C.Credible(s)
    ensures Measured(s)
  {
  }

  function HistogramsOf(snaps: Snapshots): Histograms {
    map a | a in snaps :: snaps[a].hist
  }

  /** The percentile a snapshot's report shows. */
  function LevelMs(s: C.Snapshot, l: Level): int {
    Millis(Percentile(s.hist, Rank(l)))
  }

  lemma ReportLevel(agent: AgentId, run: RunId, s: C.Snapshot, l: Level)
    ensures LevelOf(ToReport(agent, run, s), l) == LevelMs(s, l) as real
    ensures ToReport(agent, run, s).totalRequests == s.total
  {
  }

  /** Whole milliseconds within bounds leave the microseconds within a millisecond of them. */
  lemma MillisWithin(us: int, low: int, high: int)
    requires us >= 0 && low <= Millis(us) <= high
    ensures 1000 * low <= us <= 1000 * high + 999
  {
  }

  lemma MillisFits(us: int, low: int, high: int)
    requires us >= 0 && 1000 * low <= us <= 1000 * high + 999
    ensures low <= Millis(us) <= high
  {
  }

  lemma PercentileNonNegative(h: seq<int>, p: nat)
    requires PositiveHistogram(h) && p <= 100
    ensures Percentile(h, p) >= 0
  {
    if h != [] {
      assert Percentile(h, p) in h;
    }
  }

  /** If every agent with samples reports a level within bounds, the pooled level is within them. */
  lemma PooledWithin(snaps: Snapshots, l: Level, low: int, high: int)
    requires forall a :: a in snaps ==> Measured(snaps[a])
    requires forall a :: a in snaps && snaps[a].hist != [] ==> low <= LevelMs(snaps[a], l) <= high
    requires Pooled(HistogramsOf(snaps)) != []
    ensures low <= Millis(Percentile(Pooled(HistogramsOf(snaps)), Rank(l))) <= high
  {
    var hs, p := HistogramsOf(snaps), Rank(l);
    forall a | a in hs && hs[a] != []
      ensures 0 <= Percentile(hs[a], p) && 1000 * low <= Percentile(hs[a], p) <= 1000 * high + 999
    {
      assert Measured(snaps[a]);
      PercentileNonNegative(hs[a], p);
      MillisWithin(Percentile(hs[a], p), low, high);
    }
    PooledPercentileAtLeast(hs, p, 0);
    PooledPercentileAtLeast(hs, p, 1000 * low);
    PooledPercentileAtMost(hs, p, 1000 * high + 999);
    MillisFits(Percentile(Pooled(hs), p), low, high);
  }

  /** An agent with samples contributes, and reports its level. */
  lemma SamplesContribute(m: map<AgentId, MetricReport>, run: RunId, snaps: Snapshots, l: Level, a: AgentId)
    requires ReportsOf(m, run, snaps) && a in snaps && Measured(snaps[a]) && snaps[a].hist != []
    ensures Contributes(m, a) && LevelOf(m[a], l) == LevelMs(snaps[a], l) as real
  {
    ReportLevel(a, run, snaps[a], l);
  }

  /**
   Of any reports, merged: there are contributing agents a and b, with the least and the
   greatest percentile, between which the aggregated percentile lies.
   */
  lemma AggregatedBetween(m: map<AgentId, MetricReport>, l: Level) returns (a: AgentId, b: AgentId)
    requires Fold(m).weight > 0
    ensures Contributes(m, a) && Contributes(m, b)
    ensures forall c :: Contributes(m, c) ==> LevelOf(m[a], l) <= LevelOf(m[c], l) <= LevelOf(m[b], l)
    ensures LevelOf(m[a], l) <= AggregatedLevel(AggregateOf(m), l) <= LevelOf(m[b], l)
  {
    WeightNeedsContributor(m);
    a, b := Extremes(m, l);
    PercentileWithin(m, l, LevelOf(m[a], l), LevelOf(m[b], l));
  }

  lemma SampleWeighs(m: map<AgentId, MetricReport>, run: RunId, snaps: Snapshots, l: Level)
    requires ReportsOf(m, run, snaps) && forall a :: a in snaps ==> Measured(snaps[a])
    requires Pooled(HistogramsOf(snaps)) != []
    ensures Fold(m).weight > 0
  {
    PoolHasSample(HistogramsOf(snaps));
    var c :| c in HistogramsOf(snaps) && HistogramsOf(snaps)[c] != [];
    SamplesContribute(m, run, snaps, l, c);
    ContributorWeighs(m, c);
  }

  /**
   Percentile soundness of the reports agents send, with their totals and whole milliseconds:
   there are contributing agents a and b between whose reported percentiles the aggregated
   percentile lies, and so does the nearest-rank percentile of all their samples pooled, shown
   in the same whole milliseconds.
   */
  lemma PercentileSoundness(m: map<AgentId, MetricReport>, run: RunId, snaps: Snapshots, l: Level)
    returns (a: AgentId, b: AgentId)
    requires ReportsOf(m, run, snaps) && forall a :: a in snaps ==> Measured(snaps[a])
    requires Pooled(HistogramsOf(snaps)) != []
    ensures Contributes(m, a) && Contributes(m, b)
    ensures LevelOf(m[a], l) <= AggregatedLevel(AggregateOf(m), l) <= LevelOf(m[b], l)
    ensures var pooled := Millis(Percentile(Pooled(HistogramsOf(snaps)), Rank(l)));
      LevelOf(m[a], l) <= pooled as real <= LevelOf(m[b], l)
  {
    SampleWeighs(m, run, snaps, l);
    a, b := AggregatedBetween(m, l);
    ReportLevel(a, run, snaps[a], l);
    ReportLevel(b, run, snaps[b], l);
    forall c | c in snaps && snaps[c].hist != []
      ensures LevelMs(snaps[a], l) <= LevelMs(snaps[c], l) <= LevelMs(snaps[b], l)
    {
      SamplesContribute(m, run, snaps, l, c);
    }
    PooledWithin(snaps, l, LevelMs(snaps[a], l), LevelMs(snaps[b], l));
  }

  /** Times the requests, a merged percentile is the sum of the agents' own, each times its requests. */
  lemma LevelIsWeightedMean(m: map<AgentId, MetricReport>, run: RunId, snaps: Snapshots, l: Level)
    requires ReportsOf(m, run, snaps) && Sound(snaps) && RequestsOf(snaps) > 0
    ensures Times(RequestsOf(snaps), AggregatedLevel(AggregateOf(m), l))
         == SumOf(snaps, (s: C.Snapshot) => Times(s.total, LevelMs(s, l) as real))
  {
    WeightIsRequests(m, run, snaps);
    FoldSums(m, snaps, (s: C.Snapshot) => Times(s.total, LevelMs(s, l) as real), (t: Tally) => WeightedLevel(t, l));
    QuotientIsInverse(Fold(m).weight, WeightedLevel(Fold(m), l));
  }

  /** With no requests the merged average and percentiles are 0. */
  lemma NothingRequested(m: map<AgentId, MetricReport>, l: Level)
    requires forall a :: !Contributes(m, a)
    ensures AggregateOf(m).avgMs == 0.0 && AggregatedLevel(AggregateOf(m), l) == 0.0
  {
    if Fold(m).weight > 0 {
      WeightNeedsContributor(m);
    }
  }

  predicate OrderedLevels(r: MetricReport) {
    r.p50Ms <= r.p95Ms <= r.p99Ms
  }

  lemma MillisMonotone(us: int, vs: int)
    requires us <= vs
    ensures Millis(us) <= Millis(vs)
  {
  }

  /** A snapshot's report has P50 <= P95 <= P99. */
  lemma ReportOrdered(agent: AgentId, run: RunId, s: C.Snapshot)
    ensures OrderedLevels(ToReport(agent, run, s))
  {
    PercentileMonotone(s.hist, 50, 95);
    PercentileMonotone(s.hist, 95, 99);
    MillisMonotone(s.PercentileUs(50), s.PercentileUs(95));
    MillisMonotone(s.PercentileUs(95), s.PercentileUs(99));
  }

  lemma {:induction false} FoldOrdered(m: map<AgentId, MetricReport>)
    requires forall a :: a in m ==> OrderedLevels(m[a])
    ensures Fold(m).p50 <= Fold(m).p95 <= Fold(m).p99 && Fold(m).weight >= 0
    decreases m.Keys
  {
    if m != map[] {
      assert m.Keys != {};
      var a :| a in m;
      assert (m - {a}).Keys < m.Keys;
      FoldRemove(m, a);
      FoldOrdered(m - {a});
      TimesMonotone(m[a].totalRequests, m[a].p50Ms, m[a].p95Ms);
      TimesMonotone(m[a].totalRequests, m[a].p95Ms, m[a].p99Ms);
    }
  }

  lemma QuotientMonotone(n: nat, x: real, y: real)
    requires n > 0 && x <= y
    ensures x / n as real <= y / n as real
  {
    QuotientIsInverse(n, x);
    QuotientIsInverse(n, y);
    if y / n as real < x / n as real {
      TimesMonotone(n, y / n as real, x / n as real);
    }
  }

  /** Aggregation preserves P50 <= P95 <= P99. */
  lemma AggregationOrdered(m: map<AgentId, MetricReport>)
    requires forall a :: a in m ==> OrderedLevels(m[a])
    ensures var g := AggregateOf(m); g.p50Ms <= g.p95Ms <= g.p99Ms
  {
    FoldOrdered(m);
    var t := Fold(m);
    if t.weight > 0 {
      QuotientMonotone(t.weight, t.p50, t.p95);
      QuotientMonotone(t.weight, t.p95, t.p99);
    }
  }
}
