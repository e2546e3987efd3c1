/**
 Every merged view the controller can show comes from snapshots its engines took, so the
 accuracy of the aggregation holds in every reachable state of the whole system.
 */
module MergedView {
  import opened AgentManager
  import opened Deployment
  import opened Wrappers
  import A = Aggregator
  import C = Collector
  import E = Engine
  import H = Histogram

  /** Snapshot i of execution x, which executes run r on agent a. */
  predicate ShotAt(execs: seq<Execution>, x: int, i: int, a: AgentId, r: RunId) {
    && 0 <= x < |execs| && execs[x].agent == a && execs[x].run == r
    && 0 <= i < |execs[x].s.col.snapshots|
  }

  /** The report of a snapshot that an execution of the run on the agent took. */
  ghost predicate FromSnapshot(execs: seq<Execution>, a: AgentId, r: RunId, report: A.MetricReport) {
    exists x, i :: ShotAt(execs, x, i, a, r) && report == A.ToReport(a, r, execs[x].s.col.snapshots[i])
  }

  ghost predicate EnginesPositive(execs: seq<Execution>) {
    forall x :: 0 <= x < |execs| ==> C.SnapshotsPositive(execs[x].s.col)
  }

  ghost predicate Stored(execs: seq<Execution>, metrics: A.Metrics) {
    forall r, a :: r in metrics && a in metrics[r] ==> FromSnapshot(execs, a, r, metrics[r][a])
  }

  ghost predicate Genuine(s: State) {
    EnginesPositive(s.execs) && Stored(s.execs, s.metrics)
  }

  // ----- snapshots stay taken -----

  /** y is a later state of the same execution. */
  ghost predicate Follows(x: Execution, y: Execution) {
    y.agent == x.agent && y.run == x.run && x.s.col.snapshots <= y.s.col.snapshots
  }

  lemma FollowsStays(execs: seq<Execution>, x: nat, y: Execution, a: AgentId, r: RunId, report: A.MetricReport)
    requires x < |execs| && Follows(execs[x], y) && FromSnapshot(execs, a, r, report)
    ensures FromSnapshot(execs[x := y], a, r, report)
  {
    var z, i :| ShotAt(execs, z, i, a, r) && report == A.ToReport(a, r, execs[z].s.col.snapshots[i]);
    assert ShotAt(execs[x := y], z, i, a, r);
  }

  lemma StoredFollows(execs: seq<Execution>, x: nat, y: Execution, metrics: A.Metrics)
    requires x < |execs| && Follows(execs[x], y) && Stored(execs, metrics)
    ensures Stored(execs[x := y], metrics)
  {
    forall r, a | r in metrics && a in metrics[r]
      ensures FromSnapshot(execs[x := y], a, r, metrics[r][a])
    {
      FollowsStays(execs, x, y, a, r, metrics[r][a]);
    }
  }

  lemma StoredLaunched(execs: seq<Execution>, y: Execution, metrics: A.Metrics)
    requires Stored(execs, metrics)
    ensures Stored(execs + [y], metrics)
  {
    forall r, a | r in metrics && a in metrics[r]
      ensures FromSnapshot(execs + [y], a, r, metrics[r][a])
    {
      var x, i :| ShotAt(execs, x, i, a, r) && metrics[r][a] == A.ToReport(a, r, execs[x].s.col.snapshots[i]);
      assert ShotAt(execs + [y], x, i, a, r);
    }
  }

  lemma ExecReplaced(execs: seq<Execution>, x: nat, y: Execution)
    requires EnginesPositive(execs) && x < |execs| && C.SnapshotsPositive(y.s.col)
    ensures EnginesPositive(execs[x := y])
  {
  }

  // ----- every step stores genuine reports -----

  lemma EngineKeepsPositive(c: E.Config, s: E.State, e: E.Event)
    requires E.Inv(c, s) && C.SnapshotsPositive(s.col) && E.Enabled(c, s, e)
    ensures C.SnapshotsPositive(E.Apply(c, s, e).col) && s.col.snapshots <= E.Apply(c, s, e).col.snapshots
  {
    if E.IsCollectorEvent(e) {
      C.StepKeepsPositive(s.col, E.CollectorEvent(c, s, e));
    }
  }

  lemma EngineStepGenuine(s: State, x: nat, e: E.Event)
    requires Inv(s) && Genuine(s) && Enabled(s, EngineStep(x, e))
    ensures Genuine(Apply(s, EngineStep(x, e)))
  {
    assert ExecOk(s.q, s.execs[x]);
    var y := Apply(s, EngineStep(x, e)).execs[x];
    EngineKeepsPositive(s.execs[x].cfg, s.execs[x].s, e);
    ExecReplaced(s.execs, x, y);
    StoredFollows(s.execs, x, y, s.metrics);
  }

  /** Moving on to the next snapshot changes nothing that is stored. */
  lemma AfterReportGenuine(s: State, x: nat)
    requires Genuine(s) && ExecAt(s, x)
    ensures EnginesPositive(AfterReport(s.execs, x)) && Stored(AfterReport(s.execs, x), s.metrics)
  {
    var y := AfterReport(s.execs, x)[x];
    ExecReplaced(s.execs, x, y);
    StoredFollows(s.execs, x, y, s.metrics);
  }

  lemma ReportStored(execs: seq<Execution>, metrics: A.Metrics, report: A.MetricReport)
    requires Stored(execs, metrics) && FromSnapshot(execs, report.agentId, report.testRunId, report)
    ensures Stored(execs, A.Reported(metrics, report))
  {
  }

  lemma ReportGenuine(s: State, x: nat)
    requires Genuine(s) && ExecAt(s, x) && s.execs[x].reported < |s.execs[x].s.col.snapshots|
    ensures Stored(AfterReport(s.execs, x), A.Reported(s.metrics, NextReport(s.execs[x])))
  {
    AfterReportGenuine(s, x);
    var execs, report := AfterReport(s.execs, x), NextReport(s.execs[x]);
    assert ShotAt(execs, x, s.execs[x].reported, report.agentId, report.testRunId);
    ReportStored(execs, s.metrics, report);
  }

  lemma StepKeepsGenuine(s: State, e: Event)
    requires Inv(s) && Genuine(s) && Enabled(s, e)
    ensures Genuine(Apply(s, e))
  {
    match e
    case EngineStep(x, e) => EngineStepGenuine(s, x, e);
    case Launch(k, rampUp, requests) =>
      StoredLaunched(s.execs, Launched(k, s.q.calls[k].agent, s.q.calls[k].got.value, rampUp, requests), s.metrics);
    case Report(x) =>
      AfterReportGenuine(s, x);
      ReportGenuine(s, x);
    case LoseReport(x) => AfterReportGenuine(s, x);
    case _ =>
  }

  lemma {:induction false} RunKeepsGenuine(es: seq<Event>)
    requires Exec(INIT, es).Some?
    ensures Inv(Exec(INIT, es).value) && Genuine(Exec(INIT, es).value)
  {
    RunKeepsInv(es);
    if es != [] {
      RunKeepsGenuine(es[..|es| - 1]);
      StepKeepsGenuine(Exec(INIT, es[..|es| - 1]).value, es[|es| - 1]);
    }
  }

  lemma ReachableGenuine(s: State)
    requires Reachable(s)
    ensures Inv(s) && Genuine(s)
  {
    var es :| Exec(INIT, es) == Some(s);
    RunKeepsGenuine(es);
  }

  // ----- theorems -----

  /** d is a snapshot some execution of the run on the agent took. */
  ghost predicate Took(execs: seq<Execution>, a: AgentId, r: RunId, d: C.Snapshot) {
    exists x, i :: ShotAt(execs, x, i, a, r) && execs[x].s.col.snapshots[i] == d
  }

  lemma TookCredible(s: State, a: AgentId, r: RunId, d: C.Snapshot)
    requires Inv(s) && Genuine(s) && Took(s.execs, a, r, d)
    ensures C.Credible(d)
  {
    var x, i :| ShotAt(s.execs, x, i, a, r) && s.execs[x].s.col.snapshots[i] == d;
    assert ExecOk(s.q, s.execs[x]);
    assert C.Accurate(s.execs[x].s.col.snapshots[i]);
  }

  lemma TookReported(execs: seq<Execution>, a: AgentId, r: RunId, report: A.MetricReport)
    requires FromSnapshot(execs, a, r, report)
    ensures exists d :: Took(execs, a, r, d) && report == A.ToReport(a, r, d)
  {
    var x, i :| ShotAt(execs, x, i, a, r) && report == A.ToReport(a, r, execs[x].s.col.snapshots[i]);
    assert Took(execs, a, r, execs[x].s.col.snapshots[i]);
  }

  /** A snapshot behind the report. */
  ghost function Behind(execs: seq<Execution>, a: AgentId, r: RunId, report: A.MetricReport): (d: C.Snapshot)
    requires FromSnapshot(execs, a, r, report)
    ensures Took(execs, a, r, d) && report == A.ToReport(a, r, d)
  {
    TookReported(execs, a, r, report);
    var d :| Took(execs, a, r, d) && report == A.ToReport(a, r, d);
    d
  }

  lemma ChooseSnapshots(execs: seq<Execution>, m: map<AgentId, A.MetricReport>, r: RunId) returns (snaps: A.Snapshots)
    requires forall a :: a in m ==> FromSnapshot(execs, a, r, m[a])
    ensures A.ReportsOf(m, r, snaps) && forall a :: a in snaps ==> Took(execs, a, r, snaps[a])
  {
    snaps := map a | a in m :: Behind(execs, a, r, m[a]);
  }

  /** In every reachable state, the stored reports of a run are those of snapshots its executions took. */
  lemma SnapshotsBehind(s: State, r: RunId) returns (snaps: A.Snapshots)
    requires Reachable(s) && r in s.metrics
    ensures A.ReportsOf(s.metrics[r], r, snaps)
    ensures forall a :: a in snaps ==> Took(s.execs, a, r, snaps[a]) && C.Credible(snaps[a])
  {
    ReachableGenuine(s);
    snaps := ChooseSnapshots(s.execs, s.metrics[r], r);
    forall a | a in snaps
      ensures C.Credible(snaps[a])
    {
      TookCredible(s, a, r, snaps[a]);
    }
  }

  lemma MeanAccurate(m: map<AgentId, A.MetricReport>, r: RunId, snaps: A.Snapshots)
    requires A.ReportsOf(m, r, snaps) && forall a :: a in snaps ==> A.Measured(snaps[a])
    ensures (exists c :: A.Contributes(m, c)) ==>
      && A.RequestsOf(snaps) > 0
      && A.AggregateOf(m).avgMs <= A.ExactSum(snaps) / A.RequestsOf(snaps) as real < A.AggregateOf(m).avgMs + 1.0
  {
    if c :| A.Contributes(m, c) {
      A.PooledMeanAccuracy(m, r, snaps, c);
    }
  }

  /** The percentile lies between the bounds, and both are the reports of contributing agents. */
  ghost predicate Brackets(m: map<AgentId, A.MetricReport>, l: A.Level, low: real, high: real, v: real) {
    && low <= v <= high
    && (exists a :: A.Contributes(m, a) && A.LevelOf(m[a], l) == low)
    && (exists b :: A.Contributes(m, b) && A.LevelOf(m[b], l) == high)
  }

  /**
   So in every reachable state the merged view of a run is accurate for the snapshots behind
   it.  Its totals are the sums over those snapshots.  If some agent has requests, the average is
   at most the request-weighted mean of their histogram means and less than a millisecond below
   it.  If there are samples, each percentile lies between those two contributing agents report,
   and so does the true percentile of all samples pooled.
   */
  lemma MergedViewAccurate(s: State, r: RunId, l: A.Level) returns (snaps: A.Snapshots, low: real, high: real)
    requires Reachable(s) && r in s.metrics
    ensures A.ReportsOf(s.metrics[r], r, snaps) && forall a :: a in snaps ==> Took(s.execs, a, r, snaps[a])
    ensures var g := A.AggregateOf(s.metrics[r]);
      && g.totalReqs == A.RequestsOf(snaps)
      && g.totalErrors == A.CountOf(snaps, (d: C.Snapshot) => d.errors)
      && g.activeVUsers == A.CountOf(snaps, (d: C.Snapshot) => d.active)
      && g.totalRPS == A.SumOf(snaps, (d: C.Snapshot) => d.rps)
    ensures var m := s.metrics[r];
      (exists c :: A.Contributes(m, c)) ==>
        && A.RequestsOf(snaps) > 0
        && A.AggregateOf(m).avgMs <= A.ExactSum(snaps) / A.RequestsOf(snaps) as real < A.AggregateOf(m).avgMs + 1.0
    ensures var m, pool := s.metrics[r], A.Pooled(A.HistogramsOf(snaps));
      pool != [] ==>
        && Brackets(m, l, low, high, A.AggregatedLevel(A.AggregateOf(m), l))
        && Brackets(m, l, low, high, H.Millis(H.Percentile(pool, A.Rank(l))) as real)
  {
    snaps := SnapshotsBehind(s, r);
    low, high := 0.0, 0.0;
    forall a | a in snaps
      ensures A.Measured(snaps[a])
    {
      A.CredibleIsMeasured(snaps[a]);
    }
    A.TotalsAreSums(s.metrics[r], r, snaps);
    MeanAccurate(s.metrics[r], r, snaps);
    if A.Pooled(A.HistogramsOf(snaps)) != [] {
      var a, b := A.PercentileSoundness(s.metrics[r], r, snaps, l);
      low, high := A.LevelOf(s.metrics[r][a], l), A.LevelOf(s.metrics[r][b], l);
    }
  }
}
