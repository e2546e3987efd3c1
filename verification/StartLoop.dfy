/** The start loop of a run's handler: every assigned agent gets its start command, and nobody else. */
module StartLoop {
  import opened AgentManager
  import opened Deployment
  import opened Wrappers
  import O = StartOnce
  import Q = CommandQueues
  import S = Scheduler

  /** Call k is the enqueue of the run's start command for the assignment. */
  predicate StartsFor(q: Q.State, k: int, r: RunId, yaml: string, a: S.Assignment) {
    && 0 <= k < |q.calls| && q.calls[k].agent == a.agentId
    && q.calls[k].op == Q.Put(Start(r, yaml, Int32(a.vusers)))
  }

  ghost predicate Started(q: Q.State, r: RunId, yaml: string, a: S.Assignment) {
    exists k :: StartsFor(q, k, r, yaml, a)
  }

  /** Every assignment the handler has passed had its start command enqueued. */
  ghost predicate PassedStarted(q: Q.State, r: RunId, run: Run) {
    forall i :: 0 <= i < run.next && i < |run.alloc| ==> Started(q, r, run.yaml, run.alloc[i])
  }

  ghost predicate AllPassedStarted(q: Q.State, runs: map<RunId, Run>) {
    forall r :: r in runs ==> PassedStarted(q, r, runs[r])
  }

  lemma CallKept(q: Q.State, e: Q.Event, k: int)
    requires Q.Enabled(q, e) && 0 <= k < |q.calls|
    ensures var v := Q.Apply(q, e);
      k < |v.calls| && v.calls[k].agent == q.calls[k].agent && v.calls[k].op == q.calls[k].op
  {
  }

  lemma StartedKept(q: Q.State, e: Q.Event, r: RunId, yaml: string, a: S.Assignment)
    requires Q.Enabled(q, e) && Started(q, r, yaml, a)
    ensures Started(Q.Apply(q, e), r, yaml, a)
  {
    var k :| StartsFor(q, k, r, yaml, a);
    CallKept(q, e, k);
    assert StartsFor(Q.Apply(q, e), k, r, yaml, a);
  }

  lemma PassedKept(q: Q.State, e: Q.Event, r: RunId, run: Run)
    requires Q.Enabled(q, e) && PassedStarted(q, r, run)
    ensures PassedStarted(Q.Apply(q, e), r, run)
  {
    forall i | 0 <= i < run.next && i < |run.alloc|
      ensures Started(Q.Apply(q, e), r, run.yaml, run.alloc[i])
    {
      StartedKept(q, e, r, run.yaml, run.alloc[i]);
    }
  }

  lemma AllPassedKept(q: Q.State, e: Q.Event, runs: map<RunId, Run>)
    requires Q.Enabled(q, e) && AllPassedStarted(q, runs)
    ensures AllPassedStarted(Q.Apply(q, e), runs)
  {
    forall r | r in runs
      ensures PassedStarted(Q.Apply(q, e), r, runs[r])
    {
      PassedKept(q, e, r, runs[r]);
    }
  }

  /** One turn of the loop starts the next assignment. */
  lemma TurnStarts(q: Q.State, r: RunId, run: Run)
    requires run.next < |run.alloc| && PassedStarted(q, r, run)
    ensures PassedStarted(Q.Apply(q, NextStart(r, run)), r, run.(next := run.next + 1))
  {
    var e := NextStart(r, run);
    PassedKept(q, e, r, run);
    assert StartsFor(Q.Apply(q, e), |q.calls|, r, run.yaml, run.alloc[run.next]);
  }

  lemma BeginStartKeeps(s: State, r: RunId)
    requires AllPassedStarted(s.q, s.runs) && Enabled(s, BeginStart(r))
    ensures AllPassedStarted(Apply(s, BeginStart(r)).q, Apply(s, BeginStart(r)).runs)
  {
    AllPassedKept(s.q, NextStart(r, s.runs[r]), s.runs);
    TurnStarts(s.q, r, s.runs[r]);
  }

  lemma StepKeepsStarted(s: State, e: Event)
    requires AllPassedStarted(s.q, s.runs) && Enabled(s, e)
    ensures AllPassedStarted(Apply(s, e).q, Apply(s, e).runs)
  {
    match e
    case QueueStep(qe) => AllPassedKept(s.q, qe, s.runs);
    case BeginStart(r) => BeginStartKeeps(s, r);
    case _ =>
  }

  lemma {:induction false} RunKeepsStarted(es: seq<Event>)
    requires Exec(INIT, es).Some?
    ensures var s := Exec(INIT, es).value; AllPassedStarted(s.q, s.runs)
  {
    if es != [] {
      RunKeepsStarted(es[..|es| - 1]);
      StepKeepsStarted(Exec(INIT, es[..|es| - 1]).value, es[|es| - 1]);
    }
  }

  // ----- theorems -----

  /** Every assignment the loop has passed was started, with its own share and the run's scenario. */
  lemma PassedAreStarted(s: State, r: RunId, i: nat) returns (k: int)
    requires Reachable(s) && r in s.runs && i < s.runs[r].next
    ensures i < |s.runs[r].alloc| && StartsFor(s.q, k, r, s.runs[r].yaml, s.runs[r].alloc[i])
  {
    ReachableInv(s);
    assert RunOk(s.runs[r]);
    var es :| Exec(INIT, es) == Some(s);
    RunKeepsStarted(es);
    assert PassedStarted(s.q, r, s.runs[r]);
    assert Started(s.q, r, s.runs[r].yaml, s.runs[r].alloc[i]);
    k :| StartsFor(s.q, k, r, s.runs[r].yaml, s.runs[r].alloc[i]);
  }

  /** Every start command of a run is that of an assignment the loop has passed. */
  lemma StartsArePassed(s: State, r: RunId, a: AgentId, k: int) returns (i: nat)
    requires Reachable(s) && O.StartPut(s.q, k, r, a)
    ensures r in s.runs && i < s.runs[r].next <= |s.runs[r].alloc|
    ensures StartsFor(s.q, k, r, s.runs[r].yaml, s.runs[r].alloc[i])
  {
    ReachableInv(s);
    assert Issued(s.runs, r, a, s.q.calls[k].op.cmd.vusers);
    assert RunOk(s.runs[r]);
    i :| AssignedAt(s.runs[r].alloc, i, a) && i < s.runs[r].next;
    var l := PassedAreStarted(s, r, i);
    assert O.StartPut(s.q, l, r, a);
  }

  /**
   When the loop is done, the start commands of the run are exactly its assignments, one each:
   every assignment is started by one call and no other, and no other agent gets a start.
   */
  lemma StartsAreAssignments(s: State, r: RunId, i: nat)
    requires Reachable(s) && r in s.runs && s.runs[r].next == |s.runs[r].alloc| && i < |s.runs[r].alloc|
    ensures Started(s.q, r, s.runs[r].yaml, s.runs[r].alloc[i])
    ensures var a := s.runs[r].alloc[i].agentId;
      forall k, l :: O.StartPut(s.q, k, r, a) && O.StartPut(s.q, l, r, a) ==> k == l
    ensures forall k, a :: O.StartPut(s.q, k, r, a) ==>
      exists j :: 0 <= j < |s.runs[r].alloc| && StartsFor(s.q, k, r, s.runs[r].yaml, s.runs[r].alloc[j])
  {
    var k0 := PassedAreStarted(s, r, i);
    ReachableInv(s);
    forall k, a | O.StartPut(s.q, k, r, a)
      ensures exists j :: 0 <= j < |s.runs[r].alloc| && StartsFor(s.q, k, r, s.runs[r].yaml, s.runs[r].alloc[j])
    {
      var j := StartsArePassed(s, r, a, k);
    }
  }
}
