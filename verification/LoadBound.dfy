/** A distributed run never exceeds the VUsers it asked for, wherever one looks. */
module LoadBound {
  import opened AgentManager
  import opened Deployment
  import opened Wrappers
  import A = Aggregator
  import E = Engine
  import O = StartOnce
  import Q = CommandQueues
  import S = Scheduler

  // ----- sums over agents -----

  /** VUsers ever spawned for the run on all agents, and those active now. */
  function SpawnedFor(execs: seq<Execution>, r: RunId): int {
    if execs == [] then 0
    else
      var x := execs[|execs| - 1];
      SpawnedFor(execs[..|execs| - 1], r) + (if x.run == r then |x.s.pool.workers| else 0)
  }

  function ActiveFor(execs: seq<Execution>, r: RunId): int {
    if execs == [] then 0
    else
      var x := execs[|execs| - 1];
      ActiveFor(execs[..|execs| - 1], r) + (if x.run == r then x.s.pool.active else 0)
  }

  /** Every execution of the run fits one of the assignments, no two the same. */
  ghost predicate Fits(execs: seq<Execution>, r: RunId, alloc: seq<S.Assignment>) {
    && (forall x :: 0 <= x < |execs| && execs[x].run == r ==>
          exists i :: AssignedAt(alloc, i, execs[x].agent) && |execs[x].s.pool.workers| <= alloc[i].vusers)
    && (forall x, y :: 0 <= x < y < |execs| && execs[x].run == r == execs[y].run ==> execs[x].agent != execs[y].agent)
  }

  lemma {:induction false} TotalWithout(alloc: seq<S.Assignment>, i: nat)
    requires i < |alloc|
    ensures Total(alloc[..i] + alloc[i + 1..]) == Total(alloc) - alloc[i].vusers
  {
    var n := |alloc| - 1;
    if i == n {
      assert alloc[..i] + alloc[i + 1..] == alloc[..n];
    } else {
      TotalWithout(alloc[..n], i);
      assert (alloc[..i] + alloc[i + 1..])[..n - 1] == alloc[..n][..i] + alloc[..n][i + 1..];
    }
  }

  lemma {:induction false} TotalNonNegative(alloc: seq<S.Assignment>)
    requires forall i :: 0 <= i < |alloc| ==> alloc[i].vusers >= 0
    ensures Total(alloc) >= 0
  {
    if alloc != [] {
      TotalNonNegative(alloc[..|alloc| - 1]);
    }
  }

  /** Without the assignment used by the last execution, the others still fit. */
  lemma FitsWithout(execs: seq<Execution>, r: RunId, alloc: seq<S.Assignment>, i: nat)
    requires execs != [] && Fits(execs, r, alloc) && execs[|execs| - 1].run == r
    requires AssignedAt(alloc, i, execs[|execs| - 1].agent)
    ensures Fits(execs[..|execs| - 1], r, alloc[..i] + alloc[i + 1..])
  {
    var before, rest := execs[..|execs| - 1], alloc[..i] + alloc[i + 1..];
    forall x | 0 <= x < |before| && before[x].run == r
      ensures exists j :: AssignedAt(rest, j, before[x].agent) && |before[x].s.pool.workers| <= rest[j].vusers
    {
      var j :| AssignedAt(alloc, j, execs[x].agent) && |execs[x].s.pool.workers| <= alloc[j].vusers;
      assert j != i;
      var j' := if j < i then j else j - 1;
      assert AssignedAt(rest, j', before[x].agent) && rest[j'] == alloc[j];
    }
  }

  lemma {:induction false} SpawnedWithin(execs: seq<Execution>, r: RunId, alloc: seq<S.Assignment>)
    requires Fits(execs, r, alloc) && forall i :: 0 <= i < |alloc| ==> alloc[i].vusers >= 0
    ensures SpawnedFor(execs, r) <= Total(alloc)
  {
    if execs == [] {
      TotalNonNegative(alloc);
    } else {
      var x := execs[|execs| - 1];
      if x.run == r {
        var i :| AssignedAt(alloc, i, x.agent) && |x.s.pool.workers| <= alloc[i].vusers;
        FitsWithout(execs, r, alloc, i);
        SpawnedWithin(execs[..|execs| - 1], r, alloc[..i] + alloc[i + 1..]);
        TotalWithout(alloc, i);
      } else {
        SpawnedWithin(execs[..|execs| - 1], r, alloc);
      }
    }
  }

  lemma {:induction false} ActiveWithin(execs: seq<Execution>, r: RunId)
    requires forall x :: 0 <= x < |execs| ==> E.Inv(execs[x].cfg, execs[x].s)
    ensures 0 <= ActiveFor(execs, r) <= SpawnedFor(execs, r)
  {
    if execs != [] {
      ActiveWithin(execs[..|execs| - 1], r);
      E.ActiveInRange(execs[|execs| - 1].cfg, execs[|execs| - 1].s);
    }
  }

  /** The reports of a run fit its assignments. */
  ghost predicate ReportsFit(m: map<AgentId, A.MetricReport>, alloc: seq<S.Assignment>) {
    forall a :: a in m ==> exists i :: AssignedAt(alloc, i, a) && 0 <= m[a].activeVUsers <= alloc[i].vusers
  }

  lemma ReportsFitWithout(m: map<AgentId, A.MetricReport>, alloc: seq<S.Assignment>, i: nat)
    requires ReportsFit(m, alloc) && i < |alloc|
    ensures ReportsFit(m - {alloc[i].agentId}, alloc[..i] + alloc[i + 1..])
  {
    var rest := alloc[..i] + alloc[i + 1..];
    forall b | b in m - {alloc[i].agentId}
      ensures exists j :: AssignedAt(rest, j, b) && 0 <= m[b].activeVUsers <= rest[j].vusers
    {
      var j :| AssignedAt(alloc, j, b) && 0 <= m[b].activeVUsers <= alloc[j].vusers;
      var j' := if j < i then j else j - 1;
      assert AssignedAt(rest, j', b) && rest[j'] == alloc[j];
    }
  }

  lemma {:induction false} FoldWithin(m: map<AgentId, A.MetricReport>, alloc: seq<S.Assignment>)
    requires ReportsFit(m, alloc) && forall i :: 0 <= i < |alloc| ==> alloc[i].vusers >= 0
    ensures 0 <= A.Fold(m).active <= Total(alloc)
    decreases m.Keys
  {
    if m == map[] {
      TotalNonNegative(alloc);
    } else {
      assert m.Keys != {};
      var a :| a in m;
      var i :| AssignedAt(alloc, i, a) && 0 <= m[a].activeVUsers <= alloc[i].vusers;
      assert (m - {a}).Keys < m.Keys;
      ReportsFitWithout(m, alloc, i);
      FoldWithin(m - {a}, alloc[..i] + alloc[i + 1..]);
      TotalWithout(alloc, i);
      A.FoldRemove(m, a);
    }
  }

  lemma MetricsFit(runs: map<RunId, Run>, metrics: A.Metrics, r: RunId)
    requires MetricsOk(runs, metrics) && r in metrics
    ensures r in runs && ReportsFit(metrics[r], runs[r].alloc)
  {
    assert metrics[r].Keys != {};
    var a :| a in metrics[r];
    assert Within(runs, r, a, metrics[r][a].activeVUsers);
    forall b | b in metrics[r]
      ensures exists i :: AssignedAt(runs[r].alloc, i, b) && 0 <= metrics[r][b].activeVUsers <= runs[r].alloc[i].vusers
    {
      assert Within(runs, r, b, metrics[r][b].activeVUsers);
    }
  }

  lemma ExecutionsDiffer(s: State, x: nat, y: nat)
    requires Inv(s) && x < y < |s.execs| && s.execs[x].run == s.execs[y].run
    ensures s.execs[x].agent != s.execs[y].agent
  {
    assert ExecOk(s.q, s.execs[x]) && ExecOk(s.q, s.execs[y]);
    assert O.StartGot(s.q, s.execs[x].call, s.execs[x].run, s.execs[x].agent);
    assert O.StartGot(s.q, s.execs[y].call, s.execs[y].run, s.execs[y].agent);
  }

  lemma ExecFits(s: State, x: nat)
    requires Inv(s) && x < |s.execs|
    ensures var r := s.execs[x].run;
      r in s.runs && exists i :: AssignedAt(s.runs[r].alloc, i, s.execs[x].agent)
                                 && |s.execs[x].s.pool.workers| <= s.runs[r].alloc[i].vusers
  {
    assert ExecOk(s.q, s.execs[x]);
    E.ActiveInRange(s.execs[x].cfg, s.execs[x].s);
    ExecWithin(s, x, |s.execs[x].s.pool.workers|);
  }

  lemma ExecsFit(s: State, r: RunId)
    requires Inv(s) && r in s.runs
    ensures Fits(s.execs, r, s.runs[r].alloc)
  {
    forall x | 0 <= x < |s.execs| && s.execs[x].run == r
      ensures exists i :: AssignedAt(s.runs[r].alloc, i, s.execs[x].agent)
                          && |s.execs[x].s.pool.workers| <= s.runs[r].alloc[i].vusers
    {
      ExecFits(s, x);
    }
    forall x, y | 0 <= x < y < |s.execs| && s.execs[x].run == r == s.execs[y].run
      ensures s.execs[x].agent != s.execs[y].agent
    {
      ExecutionsDiffer(s, x, y);
    }
  }

  // ----- theorems -----

  /** At any time the merged report of a run shows at most the VUsers the run asked for. */
  lemma ReportedLoadBound(s: State, r: RunId)
    requires Reachable(s) && r in s.metrics
    ensures r in s.runs && 0 <= A.AggregateOf(s.metrics[r]).activeVUsers <= s.runs[r].total
  {
    ReachableInv(s);
    MetricsFit(s.runs, s.metrics, r);
    assert RunOk(s.runs[r]);
    FoldWithin(s.metrics[r], s.runs[r].alloc);
  }

  /** No two executions of a run are on the same agent, and each runs a command of its own. */
  lemma OneExecutionPerAgent(s: State, x: nat, y: nat)
    requires Reachable(s) && x < y < |s.execs| && s.execs[x].run == s.execs[y].run
    ensures s.execs[x].agent != s.execs[y].agent && s.execs[x].call != s.execs[y].call
  {
    ReachableInv(s);
    ExecutionsDiffer(s, x, y);
  }

  /** The VUsers ever spawned for a run, on all agents together, are at most the run's total. */
  lemma SpawnedLoadBound(s: State, r: RunId)
    requires Reachable(s) && r in s.runs
    ensures 0 <= ActiveFor(s.execs, r) <= SpawnedFor(s.execs, r) <= s.runs[r].total
  {
    ReachableInv(s);
    assert RunOk(s.runs[r]);
    ExecsFit(s, r);
    SpawnedWithin(s.execs, r, s.runs[r].alloc);
    forall x | 0 <= x < |s.execs|
      ensures E.Inv(s.execs[x].cfg, s.execs[x].s)
    {
      assert ExecOk(s.q, s.execs[x]);
    }
    ActiveWithin(s.execs, r);
  }

  lemma ReachableStep(s: State, e: Event)
    requires Reachable(s) && Enabled(s, e)
    ensures Reachable(Apply(s, e))
  {
    var es :| Exec(INIT, es) == Some(s);
    assert (es + [e])[..|es|] == es;
    assert Exec(INIT, es + [e]) == Some(Apply(s, e));
  }

  /** A number of VUsers that fits a 32-bit integer. */
  predicate Fits32(total: int) {
    0 < total < 0x8000_0000
  }

  lemma OneShare(total: int, info: AgentInfo)
    requires total > 0
    ensures S.Assignments(total, [info]) == [S.Assignment(info.agentId, total)]
  {
    assert S.Share(total, 1, 0) == total;
  }

  /** A run assigned to the only agent. */
  lemma Scheduled(info: AgentInfo, run: RunId, total: int) returns (s: State)
    requires !info.status.Offline? && Fits32(total)
    ensures Reachable(s) && s.runs == map[run := Run(total, "", [S.Assignment(info.agentId, total)], 0)]
    ensures s.execs == [] && s.q.calls == []
    ensures s.q.t.chans == [Chan(info.agentId, [], [], [])] && Fetch(s.q.t, info.agentId) == Some(0)
  {
    assert Exec(INIT, []) == Some(INIT);
    ReachableStep(INIT, QueueStep(Q.Registering(info, 0)));
    var s1 := Apply(INIT, QueueStep(Q.Registering(info, 0)));
    var online := [s1.q.t.agents[info.agentId]];
    OneShare(total, online[0]);
    ReachableStep(s1, CreateRun(run, total, "", online));
    s := Apply(s1, CreateRun(run, total, "", online));
  }

  /** Its handler has looked up the agent's channel. */
  lemma Begun(info: AgentInfo, run: RunId, total: int) returns (s: State)
    requires !info.status.Offline? && Fits32(total)
    ensures Reachable(s) && s.execs == [] && run in s.runs && s.runs[run].total == total
    ensures s.q.calls == [Q.Call(info.agentId, Q.Put(Start(run, "", total)), Some(0), false, false, None)]
    ensures s.q.t.chans == [Chan(info.agentId, [], [], [])] && Fetch(s.q.t, info.agentId) == Some(0)
  {
    var s2 := Scheduled(info, run, total);
    ReachableStep(s2, BeginStart(run));
    s := Apply(s2, BeginStart(run));
  }

  /** Its start command has been accepted and then dequeued. */
  lemma Delivered(info: AgentInfo, run: RunId, total: int) returns (s: State)
    requires !info.status.Offline? && Fits32(total)
    ensures Reachable(s) && s.execs == [] && run in s.runs && s.runs[run].total == total
    ensures |s.q.calls| == 2 && s.q.calls[1].got == Some(Start(run, "", total))
  {
    var s3 := Begun(info, run, total);
    ReachableStep(s3, QueueStep(Q.Finishing(0)));
    var s4 := Apply(s3, QueueStep(Q.Finishing(0)));
    ReachableStep(s4, QueueStep(Q.Calling(info.agentId, Q.Take)));
    var s5 := Apply(s4, QueueStep(Q.Calling(info.agentId, Q.Take)));
    ReachableStep(s5, QueueStep(Q.Finishing(1)));
    s := Apply(s5, QueueStep(Q.Finishing(1)));
  }

  /** The only execution runs all the run's VUsers and has spawned i of them. */
  ghost predicate HasSpawned(s: State, run: RunId, total: int, i: nat) {
    && run in s.runs && s.runs[run].total == total
    && |s.execs| == 1 && s.execs[0].run == run && s.execs[0].cfg == E.ConfigFor(total, 0, 1)
    && s.execs[0].s.main == E.Spawning(i) && !s.execs[0].s.panicked && |s.execs[0].s.pool.workers| == i
  }

  lemma SpawnNext(s: State, run: RunId, total: int, i: nat) returns (t: State)
    requires Reachable(s) && HasSpawned(s, run, total, i) && i < total
    ensures Reachable(t) && HasSpawned(t, run, total, i + 1)
  {
    ReachableStep(s, EngineStep(0, E.MainStep));
    var u := Apply(s, EngineStep(0, E.MainStep));
    ReachableStep(u, EngineStep(0, E.MainStep));
    t := Apply(u, EngineStep(0, E.MainStep));
  }

  lemma {:induction false} SpawnAll(s: State, run: RunId, total: int, i: nat) returns (t: State)
    requires Reachable(s) && HasSpawned(s, run, total, i) && i <= total
    ensures Reachable(t) && HasSpawned(t, run, total, total)
    decreases total - i
  {
    t := s;
    if i < total {
      t := SpawnNext(s, run, total, i);
      t := SpawnAll(t, run, total, i + 1);
    }
  }

  /** The bound is attained for every total that fits 32 bits: some reachable state has spawned it all. */
  lemma BoundAttained(info: AgentInfo, run: RunId, total: int) returns (s: State)
    requires !info.status.Offline? && Fits32(total)
    ensures Reachable(s) && run in s.runs && SpawnedFor(s.execs, run) == s.runs[run].total == total
  {
    s := Delivered(info, run, total);
    ReachableStep(s, Launch(1, 0, 1));
    s := Apply(s, Launch(1, 0, 1));
    s := SpawnAll(s, run, total, 0);
    assert s.execs[..0] == [];
  }
}
