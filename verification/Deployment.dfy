/**
 The whole path of a distributed run: the VUsers are split over the online agents, one
 start command per agent goes through the command queues, each delivered command runs an
 engine on its agent, the engine's snapshots are reported, and the controller merges the
 reports.
 */
module Deployment {
  import opened Wrappers
  import opened AgentManager
  import S = Scheduler
  import Q = CommandQueues
  import O = StartOnce
  import E = Engine
  import A = Aggregator

  /** A test run; its handler has begun the first `next` enqueues of start commands. */
  datatype Run = Run(total: int, yaml: string, alloc: seq<S.Assignment>, next: nat)

  /**
   A start command being executed: `call` is the dequeue that delivered it, `reported` the
   number of snapshots already sent to the controller (or lost on the way).
   */
  datatype Execution = Execution(call: nat, run: RunId, agent: AgentId, cfg: E.Config, s: E.State, reported: nat)

  datatype State = State(q: Q.State, runs: map<RunId, Run>, execs: seq<Execution>, metrics: A.Metrics)

  const INIT := State(Q.INIT, map[], [], map[])

  /** The conversion to a 32-bit integer, which wraps around. */
  function Int32(n: int): (r: int)
    ensures n >= 0 ==> r <= n
    ensures -0x8000_0000 <= n < 0x8000_0000 ==> r == n
    ensures -0x8000_0000 <= r < 0x8000_0000 && (r - n) % 0x1_0000_0000 == 0
  {
    (n + 0x8000_0000) % 0x1_0000_0000 - 0x8000_0000
  }

  datatype Event =
    | QueueStep(qe: Q.Event)
    | CreateRun(run: RunId, total: int, yaml: string, online: seq<AgentInfo>)
    | BeginStart(run: RunId)                                  // the handler's loop calls EnqueueStartTest
    | Launch(k: nat, rampUp: int, requests: nat)              // the agent runs a delivered start command
    | EngineStep(x: nat, ee: E.Event)
    | Report(x: nat)                                          // the next snapshot reaches the controller
    | LoseReport(x: nat)
    | Cleanup(run: RunId)

  predicate ExecAt(s: State, x: nat) {
    x < |s.execs|
  }

  /** The next enqueue of the run's handler. */
  function NextStart(run: RunId, r: Run): Q.Event
    requires r.next < |r.alloc|
  {
    Q.Calling(r.alloc[r.next].agentId, Q.Put(Start(run, r.yaml, Int32(r.alloc[r.next].vusers))))
  }

  predicate IsStart(e: Q.Event) {
    e.Calling? && e.op.Put? && e.op.cmd.Start?
  }

  ghost predicate Enabled(s: State, e: Event) {
    match e
    case QueueStep(e) => Q.Enabled(s.q, e) && !IsStart(e)
    case CreateRun(run, total, _, online) =>
      run !in s.runs && total > 0 && online != [] && IsListing(s.q.t.agents, online)
    case BeginStart(run) => run in s.runs && s.runs[run].next < |s.runs[run].alloc|
    case Launch(k, _, _) =>
      && k < |s.q.calls| && s.q.calls[k].got.Some? && s.q.calls[k].got.value.Start?
      && forall x :: 0 <= x < |s.execs| ==> s.execs[x].call != k
    case EngineStep(x, e) => ExecAt(s, x) && E.Enabled(s.execs[x].cfg, s.execs[x].s, e)
    case Report(x) => ExecAt(s, x) && s.execs[x].reported < |s.execs[x].s.col.snapshots|
    case LoseReport(x) => ExecAt(s, x) && s.execs[x].reported < |s.execs[x].s.col.snapshots|
    case Cleanup(_) => true
  }

  /** runner.Run for an assignment of n VUsers; no VUser is spawned when n is negative. */
  function Launched(k: nat, agent: AgentId, cmd: Command, rampUp: int, requests: nat): (x: Execution)
    requires cmd.Start?
    ensures x.run == cmd.run && x.agent == agent && x.cfg.rampUp == rampUp && x.cfg.requests == requests
    ensures x.cfg.vusers == if cmd.vusers < 0 then 0 else cmd.vusers
  {
    Execution(k, cmd.run, agent, E.ConfigFor(cmd.vusers, rampUp, requests), E.INIT, 0)
  }

  function NextReport(x: Execution): A.MetricReport
    requires x.reported < |x.s.col.snapshots|
  {
    A.ToReport(x.agent, x.run, x.s.col.snapshots[x.reported])
  }

  /** The executions once x has reported, or lost, its next snapshot. */
  function AfterReport(execs: seq<Execution>, x: nat): seq<Execution>
    requires x < |execs|
  {
    execs[x := execs[x].(reported := execs[x].reported + 1)]
  }

  ghost function Apply(s: State, e: Event): State
    requires Enabled(s, e)
  {
    match e
    case QueueStep(e) => s.(q := Q.Apply(s.q, e))
    case CreateRun(run, total, yaml, online) =>
      s.(runs := s.runs[run := Run(total, yaml, S.Assignments(total, online), 0)])
    case BeginStart(run) =>
      s.(q := Q.Apply(s.q, NextStart(run, s.runs[run])),
         runs := s.runs[run := s.runs[run].(next := s.runs[run].next + 1)])
    case Launch(k, rampUp, requests) =>
      s.(execs := s.execs + [Launched(k, s.q.calls[k].agent, s.q.calls[k].got.value, rampUp, requests)])
    case EngineStep(x, e) => s.(execs := s.execs[x := s.execs[x].(s := E.Apply(s.execs[x].cfg, s.execs[x].s, e))])
    case Report(x) =>
      s.(metrics := A.Reported(s.metrics, NextReport(s.execs[x])),
         execs := AfterReport(s.execs, x))
    case LoseReport(x) => s.(execs := AfterReport(s.execs, x))
    case Cleanup(run) => s.(metrics := s.metrics - {run})
  }

  ghost function Exec(s: State, es: seq<Event>): Option<State> {
    if es == [] then Some(s)
    else
      match Exec(s, es[..|es| - 1])
      case None => None
      case Some(u) => if Enabled(u, es[|es| - 1]) then Some(Apply(u, es[|es| - 1])) else None
  }

  ghost predicate Reachable(s: State) {
    exists es :: Exec(INIT, es) == Some(s)
  }

  // ----- assignments -----

  function Total(xs: seq<S.Assignment>): int {
    if xs == [] then 0 else Total(xs[..|xs| - 1]) + xs[|xs| - 1].vusers
  }

  ghost predicate DistinctAgents(xs: seq<S.Assignment>) {
    forall i, j :: 0 <= i < j < |xs| ==> xs[i].agentId != xs[j].agentId
  }

  ghost predicate RunOk(r: Run) {
    && r.next <= |r.alloc| && DistinctAgents(r.alloc) && Total(r.alloc) == r.total
    && forall i :: 0 <= i < |r.alloc| ==> r.alloc[i].vusers >= 0
  }

  /** n VUsers fit what the run assigned to the agent. */
  ghost predicate Within(runs: map<RunId, Run>, r: RunId, a: AgentId, n: int) {
    r in runs && exists i :: AssignedAt(runs[r].alloc, i, a) && 0 <= n <= runs[r].alloc[i].vusers
  }

  predicate AssignedAt(alloc: seq<S.Assignment>, i: int, a: AgentId) {
    0 <= i < |alloc| && alloc[i].agentId == a
  }

  /** The run's handler has begun the enqueue of a start command with n VUsers for the agent. */
  ghost predicate Issued(runs: map<RunId, Run>, r: RunId, a: AgentId, n: int) {
    && r in runs
    && exists i :: AssignedAt(runs[r].alloc, i, a) && i < runs[r].next && n == Int32(runs[r].alloc[i].vusers)
  }

  lemma {:induction false} TotalIsSum(total: int, online: seq<AgentInfo>, k: nat)
    requires k <= |online| && online != []
    ensures Total(S.Assignments(total, online)[..k]) == S.Sum(S.Shares(total, |online|)[..k])
  {
    if k > 0 {
      TotalIsSum(total, online, k - 1);
      assert S.Assignments(total, online)[..k][..k - 1] == S.Assignments(total, online)[..k - 1];
      assert S.Shares(total, |online|)[..k][..k - 1] == S.Shares(total, |online|)[..k - 1];
    }
  }

  lemma AllocationOk(total: int, yaml: string, agents: map<AgentId, AgentInfo>, online: seq<AgentInfo>)
    requires total > 0 && online != [] && IsListing(agents, online)
    ensures RunOk(Run(total, yaml, S.Assignments(total, online), 0))
  {
    var alloc, n := S.Assignments(total, online), |online|;
    S.SharesSum(total, n);
    TotalIsSum(total, online, n);
    assert alloc[..n] == alloc && S.Shares(total, n)[..n] == S.Shares(total, n);
    forall i | 0 <= i < n
      ensures alloc[i].vusers >= 0
    {
      S.SharesBalanced(total, n, i, i);
    }
  }

  // ----- invariant -----

  ghost predicate RunsOk(runs: map<RunId, Run>) {
    forall r :: r in runs ==> RunOk(runs[r])
  }

  ghost predicate PutsIssued(q: Q.State, runs: map<RunId, Run>) {
    forall k, r, a :: O.StartPut(q, k, r, a) ==> Issued(runs, r, a, q.calls[k].op.cmd.vusers)
  }

  /** The execution runs a delivered command, with no more VUsers than the command says. */
  ghost predicate ExecOk(q: Q.State, x: Execution) {
    && O.StartGot(q, x.call, x.run, x.agent)
    && x.cfg.vusers == (if q.calls[x.call].got.value.vusers < 0 then 0 else q.calls[x.call].got.value.vusers)
    && E.Inv(x.cfg, x.s)
  }

  ghost predicate DistinctCalls(execs: seq<Execution>) {
    forall x, y :: 0 <= x < y < |execs| ==> execs[x].call != execs[y].call
  }

  ghost predicate ExecsOk(q: Q.State, execs: seq<Execution>) {
    && (forall x :: 0 <= x < |execs| ==> ExecOk(q, execs[x]))
    && DistinctCalls(execs)
  }

  ghost predicate MetricsOk(runs: map<RunId, Run>, metrics: A.Metrics) {
    && (forall r :: r in metrics ==> metrics[r] != map[])
    && (forall r, a :: r in metrics && a in metrics[r] ==> Within(runs, r, a, metrics[r][a].activeVUsers))
  }

  ghost predicate Inv(s: State) {
    O.Inv(s.q) && RunsOk(s.runs) && PutsIssued(s.q, s.runs) && ExecsOk(s.q, s.execs) && MetricsOk(s.runs, s.metrics)
  }

  // ----- the parts a step leaves alone -----

  /** Every run of runs is in more, with the same assignments and at least as many begun enqueues. */
  ghost predicate RunsGrow(runs: map<RunId, Run>, more: map<RunId, Run>) {
    forall r :: r in runs ==> r in more && more[r].alloc == runs[r].alloc && runs[r].next <= more[r].next
  }

  lemma IssuedStays(runs: map<RunId, Run>, more: map<RunId, Run>, r: RunId, a: AgentId, n: int)
    requires RunsGrow(runs, more) && Issued(runs, r, a, n)
    ensures Issued(more, r, a, n)
  {
    var i :| AssignedAt(runs[r].alloc, i, a) && i < runs[r].next && n == Int32(runs[r].alloc[i].vusers);
    assert AssignedAt(more[r].alloc, i, a);
  }

  lemma WithinStays(runs: map<RunId, Run>, more: map<RunId, Run>, r: RunId, a: AgentId, n: int)
    requires RunsGrow(runs, more) && Within(runs, r, a, n)
    ensures Within(more, r, a, n)
  {
    var i :| AssignedAt(runs[r].alloc, i, a) && 0 <= n <= runs[r].alloc[i].vusers;
    assert AssignedAt(more[r].alloc, i, a);
  }

  lemma MetricsStay(runs: map<RunId, Run>, more: map<RunId, Run>, metrics: A.Metrics)
    requires RunsGrow(runs, more) && MetricsOk(runs, metrics)
    ensures MetricsOk(more, metrics)
  {
    forall r, a | r in metrics && a in metrics[r]
      ensures Within(more, r, a, metrics[r][a].activeVUsers)
    {
      WithinStays(runs, more, r, a, metrics[r][a].activeVUsers);
    }
  }

  lemma PutsStay(q: Q.State, runs: map<RunId, Run>, more: map<RunId, Run>)
    requires RunsGrow(runs, more) && PutsIssued(q, runs)
    ensures PutsIssued(q, more)
  {
    forall k, r, a | O.StartPut(q, k, r, a)
      ensures Issued(more, r, a, q.calls[k].op.cmd.vusers)
    {
      IssuedStays(runs, more, r, a, q.calls[k].op.cmd.vusers);
    }
  }

  /** A delivered command stays delivered by the same call. */
  lemma GotStays(q: Q.State, e: Q.Event, k: int)
    requires O.Inv(q) && Q.Enabled(q, e) && 0 <= k < |q.calls| && q.calls[k].got.Some?
    ensures k < |Q.Apply(q, e).calls| && Q.Apply(q, e).calls[k] == q.calls[k]
  {
  }

  lemma ExecsStay(q: Q.State, e: Q.Event, execs: seq<Execution>)
    requires O.Inv(q) && Q.Enabled(q, e) && ExecsOk(q, execs)
    ensures ExecsOk(Q.Apply(q, e), execs)
  {
    forall x | 0 <= x < |execs|
      ensures ExecOk(Q.Apply(q, e), execs[x])
    {
      GotStays(q, e, execs[x].call);
    }
  }

  // ----- queue steps -----

  lemma OrdinaryKeepsPuts(q: Q.State, e: Q.Event, runs: map<RunId, Run>)
    requires Q.Enabled(q, e) && !IsStart(e) && PutsIssued(q, runs)
    ensures PutsIssued(Q.Apply(q, e), runs)
  {
    var v := Q.Apply(q, e);
    forall k, r, a | O.StartPut(v, k, r, a)
      ensures Issued(runs, r, a, v.calls[k].op.cmd.vusers)
    {
      assert O.StartPut(q, k, r, a) && v.calls[k].op == q.calls[k].op;
    }
  }

  lemma QueueKeeps(s: State, e: Q.Event)
    requires Inv(s) && Q.Enabled(s.q, e) && !IsStart(e)
    ensures Inv(Apply(s, QueueStep(e)))
  {
    O.StepKeepsInv(s.q, e);
    ExecsStay(s.q, e, s.execs);
    OrdinaryKeepsPuts(s.q, e, s.runs);
  }

  lemma PutIsEarlier(s: State, run: RunId, k: int, a: AgentId) returns (i: int)
    requires Inv(s) && run in s.runs && O.StartPut(s.q, k, run, a)
    ensures AssignedAt(s.runs[run].alloc, i, a) && i < s.runs[run].next
  {
    assert Issued(s.runs, run, a, s.q.calls[k].op.cmd.vusers);
    i :| AssignedAt(s.runs[run].alloc, i, a) && i < s.runs[run].next;
  }

  /** The handler never repeats an agent: no start command of the run was begun for the next one. */
  lemma NextIsNew(s: State, run: RunId, k: int)
    requires Inv(s) && Enabled(s, BeginStart(run))
    ensures !O.StartPut(s.q, k, run, s.runs[run].alloc[s.runs[run].next].agentId)
  {
    assert RunOk(s.runs[run]);
    if O.StartPut(s.q, k, run, s.runs[run].alloc[s.runs[run].next].agentId) {
      var i := PutIsEarlier(s, run, k, s.runs[run].alloc[s.runs[run].next].agentId);
    }
  }

  lemma StartKeepsPuts(q: Q.State, runs: map<RunId, Run>, run: RunId)
    requires PutsIssued(q, runs) && run in runs && runs[run].next < |runs[run].alloc|
    ensures PutsIssued(Q.Apply(q, NextStart(run, runs[run])), runs[run := runs[run].(next := runs[run].next + 1)])
  {
    var more := runs[run := runs[run].(next := runs[run].next + 1)];
    var e := NextStart(run, runs[run]);
    var v := Q.Apply(q, e);
    forall k, r, a | O.StartPut(v, k, r, a)
      ensures Issued(more, r, a, v.calls[k].op.cmd.vusers)
    {
      if k < |q.calls| {
        assert O.StartPut(q, k, r, a);
        IssuedStays(runs, more, r, a, q.calls[k].op.cmd.vusers);
      } else {
        assert AssignedAt(more[run].alloc, runs[run].next, a);
      }
    }
  }

  lemma StartKeeps(s: State, run: RunId)
    requires Inv(s) && Enabled(s, BeginStart(run))
    ensures Inv(Apply(s, BeginStart(run)))
  {
    var e := NextStart(run, s.runs[run]);
    forall r, a, k | O.Starts(e, r, a)
      ensures !O.StartPut(s.q, k, r, a)
    {
      NextIsNew(s, run, k);
    }
    O.StepKeepsInv(s.q, e);
    ExecsStay(s.q, e, s.execs);
    StartKeepsPuts(s.q, s.runs, run);
    MetricsStay(s.runs, Apply(s, BeginStart(run)).runs, s.metrics);
  }

  // ----- the other steps -----

  lemma CreateKeeps(s: State, e: Event)
    requires Inv(s) && Enabled(s, e) && e.CreateRun?
    ensures Inv(Apply(s, e))
  {
    var more := Apply(s, e).runs;
    AllocationOk(e.total, e.yaml, s.q.t.agents, e.online);
    PutsStay(s.q, s.runs, more);
    MetricsStay(s.runs, more, s.metrics);
  }

  lemma LaunchedOk(q: Q.State, k: nat, rampUp: int, requests: nat)
    requires k < |q.calls| && q.calls[k].got.Some? && q.calls[k].got.value.Start?
    ensures ExecOk(q, Launched(k, q.calls[k].agent, q.calls[k].got.value, rampUp, requests))
  {
    E.InitInv(Launched(k, q.calls[k].agent, q.calls[k].got.value, rampUp, requests).cfg);
  }

  lemma CallsAdded(execs: seq<Execution>, x: Execution)
    requires DistinctCalls(execs) && forall y :: 0 <= y < |execs| ==> execs[y].call != x.call
    ensures DistinctCalls(execs + [x])
  {
  }

  lemma ExecAdded(q: Q.State, execs: seq<Execution>, x: Execution)
    requires ExecsOk(q, execs) && ExecOk(q, x)
    requires forall y :: 0 <= y < |execs| ==> execs[y].call != x.call
    ensures ExecsOk(q, execs + [x])
  {
    CallsAdded(execs, x);
    forall i | 0 <= i < |execs| + 1
      ensures ExecOk(q, (execs + [x])[i])
    {
      if i < |execs| {
        assert (execs + [x])[i] == execs[i];
      }
    }
  }

  lemma LaunchKeeps(s: State, k: nat, rampUp: int, requests: nat)
    requires Inv(s) && Enabled(s, Launch(k, rampUp, requests))
    ensures Inv(Apply(s, Launch(k, rampUp, requests)))
  {
    LaunchedOk(s.q, k, rampUp, requests);
    ExecAdded(s.q, s.execs, Launched(k, s.q.calls[k].agent, s.q.calls[k].got.value, rampUp, requests));
  }

  /** Replacing an execution by a later state of itself. */
  lemma ProgressKeeps(q: Q.State, execs: seq<Execution>, x: nat, y: Execution)
    requires ExecsOk(q, execs) && x < |execs| && E.Inv(y.cfg, y.s)
    requires y.call == execs[x].call && y.run == execs[x].run && y.agent == execs[x].agent && y.cfg == execs[x].cfg
    ensures ExecsOk(q, execs[x := y])
  {
    assert ExecOk(q, execs[x]);
  }

  lemma ClampWithin(n: int)
    requires n >= 0
    ensures (if Int32(n) < 0 then 0 else Int32(n)) <= n
  {
  }

  /** An execution's VUsers fit the assignment of its agent. */
  lemma ExecWithin(s: State, x: nat, n: int)
    requires Inv(s) && x < |s.execs| && 0 <= n <= s.execs[x].cfg.vusers
    ensures Within(s.runs, s.execs[x].run, s.execs[x].agent, n)
  {
    var r, a, k := s.execs[x].run, s.execs[x].agent, s.execs[x].call;
    assert ExecOk(s.q, s.execs[x]);
    O.GotWasPut(s.q, k, r, a);
    var l :| O.StartPut(s.q, l, r, a) && s.q.calls[l].op.cmd == s.q.calls[k].got.value;
    var m := s.q.calls[l].op.cmd.vusers;
    assert Issued(s.runs, r, a, m);
    var i :| AssignedAt(s.runs[r].alloc, i, a) && i < s.runs[r].next && m == Int32(s.runs[r].alloc[i].vusers);
    assert RunOk(s.runs[r]);
    ClampWithin(s.runs[r].alloc[i].vusers);
  }

  lemma ReportedOk(runs: map<RunId, Run>, metrics: A.Metrics, r: A.MetricReport)
    requires MetricsOk(runs, metrics) && Within(runs, r.testRunId, r.agentId, r.activeVUsers)
    ensures MetricsOk(runs, A.Reported(metrics, r))
  {
    assert r.agentId in A.Reported(metrics, r)[r.testRunId];
  }

  lemma ReportedKeeps(q: Q.State, execs: seq<Execution>, x: nat)
    requires ExecsOk(q, execs) && x < |execs|
    ensures ExecsOk(q, AfterReport(execs, x))
  {
    assert ExecOk(q, execs[x]);
    ProgressKeeps(q, execs, x, execs[x].(reported := execs[x].reported + 1));
  }

  lemma ReportKeepsMetrics(s: State, x: nat)
    requires Inv(s) && Enabled(s, Report(x))
    ensures MetricsOk(s.runs, A.Reported(s.metrics, NextReport(s.execs[x])))
  {
    assert ExecOk(s.q, s.execs[x]);
    ExecWithin(s, x, NextReport(s.execs[x]).activeVUsers);
    ReportedOk(s.runs, s.metrics, NextReport(s.execs[x]));
  }

  lemma ReportKeeps(s: State, x: nat)
    requires Inv(s) && Enabled(s, Report(x))
    ensures Inv(Apply(s, Report(x)))
  {
    ReportKeepsMetrics(s, x);
    ReportedKeeps(s.q, s.execs, x);
  }

  lemma WithExecs(s: State, execs: seq<Execution>)
    requires Inv(s) && ExecsOk(s.q, execs)
    ensures Inv(s.(execs := execs))
  {
  }

  lemma LoseKeeps(s: State, x: nat)
    requires Inv(s) && ExecAt(s, x)
    ensures Inv(s.(execs := AfterReport(s.execs, x)))
  {
    ReportedKeeps(s.q, s.execs, x);
    WithExecs(s, AfterReport(s.execs, x));
  }

  lemma EngineKeeps(s: State, x: nat, e: E.Event)
    requires Inv(s) && Enabled(s, EngineStep(x, e))
    ensures Inv(Apply(s, EngineStep(x, e)))
  {
    assert ExecOk(s.q, s.execs[x]);
    E.StepKeepsInv(s.execs[x].cfg, s.execs[x].s, e);
    ProgressKeeps(s.q, s.execs, x, Apply(s, EngineStep(x, e)).execs[x]);
  }

  lemma CleanupKeeps(s: State, run: RunId)
    requires Inv(s)
    ensures Inv(Apply(s, Cleanup(run)))
  {
  }

  lemma StepKeepsInv(s: State, e: Event)
    requires Inv(s) && Enabled(s, e)
    ensures Inv(Apply(s, e))
  {
    match e
    case QueueStep(e) => QueueKeeps(s, e);
    case CreateRun(_, _, _, _) => CreateKeeps(s, e);
    case BeginStart(run) => StartKeeps(s, run);
    case Launch(k, rampUp, requests) => LaunchKeeps(s, k, rampUp, requests);
    case EngineStep(x, e) => EngineKeeps(s, x, e);
    case Report(x) => ReportKeeps(s, x);
    case LoseReport(x) => LoseKeeps(s, x);
    case Cleanup(run) => CleanupKeeps(s, run);
  }

  lemma InitInv()
    ensures Inv(INIT)
  {
    O.InitInv();
  }

  lemma {:induction false} RunKeepsInv(es: seq<Event>)
    requires Exec(INIT, es).Some?
    ensures Inv(Exec(INIT, es).value)
  {
    if es == [] {
      InitInv();
    } else {
      RunKeepsInv(es[..|es| - 1]);
      StepKeepsInv(Exec(INIT, es[..|es| - 1]).value, es[|es| - 1]);
    }
  }

  lemma ReachableInv(s: State)
    requires Reachable(s)
    ensures Inv(s)
  {
    var es :| Exec(INIT, es) == Some(s);
    RunKeepsInv(es);
  }
}
