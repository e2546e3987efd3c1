/** Which snapshot of which execution the controller shows for an agent. */
module Reporting {
  import opened AgentManager
  import opened Deployment
  import opened Wrappers
  import A = Aggregator
  import C = Collector
  import E = Engine

  // ----- every snapshot is sent once, in order -----

  /** Execution x sends its next snapshot, which arrives or is lost. */
  predicate Sending(e: Event, x: nat) {
    e == Report(x) || e == LoseReport(x)
  }

  function Sends(es: seq<Event>, x: nat): nat {
    if es == [] then 0 else Sends(es[..|es| - 1], x) + (if Sending(es[|es| - 1], x) then 1 else 0)
  }

  lemma CollectorAppends(col: C.State, e: C.Event)
    requires C.Enabled(col, e)
    ensures col.snapshots <= C.Apply(col, e).snapshots
  {
  }

  lemma EngineAppends(c: E.Config, s: E.State, e: E.Event)
    requires E.Enabled(c, s, e)
    ensures s.col.snapshots <= E.Apply(c, s, e).col.snapshots
  {
    if E.IsCollectorEvent(e) {
      CollectorAppends(s.col, E.CollectorEvent(c, s, e));
    }
  }

  /** y is execution x later on, after n more sends. */
  predicate Continues(x: Execution, y: Execution, n: nat) {
    y.run == x.run && y.agent == x.agent && x.s.col.snapshots <= y.s.col.snapshots && y.reported == x.reported + n
  }

  lemma StepContinues(s: State, e: Event, x: nat)
    requires Enabled(s, e) && x < |s.execs|
    ensures x < |Apply(s, e).execs|
    ensures Continues(s.execs[x], Apply(s, e).execs[x], if Sending(e, x) then 1 else 0)
  {
    if e.EngineStep? {
      EngineAppends(s.execs[e.x].cfg, s.execs[e.x].s, e.ee);
    }
  }

  lemma StepLaunches(s: State, e: Event, x: nat)
    requires Enabled(s, e) && |s.execs| <= x
    ensures !Sending(e, x) && (x < |Apply(s, e).execs| ==> Apply(s, e).execs[x].reported == 0)
  {
  }

  /** An execution has sent, or lost, as many snapshots as it tried to send. */
  lemma {:induction false} SentInOrder(es: seq<Event>, x: nat)
    requires Exec(INIT, es).Some?
    ensures var s := Exec(INIT, es).value; Sends(es, x) == if x < |s.execs| then s.execs[x].reported else 0
  {
    if es != [] {
      var before, e := es[..|es| - 1], es[|es| - 1];
      var s := Exec(INIT, before).value;
      SentInOrder(before, x);
      if x < |s.execs| {
        StepContinues(s, e, x);
      } else {
        StepLaunches(s, e, x);
      }
    }
  }

  // ----- the last report of an agent -----

  /** The event is a report of the run that arrives from the agent. */
  ghost predicate Arrives(s: State, e: Event, r: RunId, a: AgentId) {
    e.Report? && e.x < |s.execs| && s.execs[e.x].run == r && s.execs[e.x].agent == a
  }

  /** The position of the last report that arrived from the agent for the run, unless a cleanup came after it. */
  ghost function LastReport(es: seq<Event>, r: RunId, a: AgentId): (i: Option<nat>)
    requires Exec(INIT, es).Some?
    ensures i.Some? ==> i.value < |es| && es[i.value].Report?
  {
    if es == [] then None
    else
      var before, e := es[..|es| - 1], es[|es| - 1];
      if Arrives(Exec(INIT, before).value, e, r, a) then Some(|before|)
      else if e == Cleanup(r) then None
      else LastReport(before, r, a)
  }

  /** The controller stores the report of snapshot n of execution x. */
  ghost predicate Shows(s: State, r: RunId, a: AgentId, x: nat, n: nat) {
    && r in s.metrics && a in s.metrics[r]
    && x < |s.execs| && s.execs[x].run == r && s.execs[x].agent == a && n < |s.execs[x].s.col.snapshots|
    && s.metrics[r][a] == A.ToReport(a, r, s.execs[x].s.col.snapshots[n])
  }

  predicate Known(m: A.Metrics, r: RunId, a: AgentId) {
    r in m && a in m[r]
  }

  lemma ArrivalShows(s: State, e: Event, r: RunId, a: AgentId)
    requires Enabled(s, e) && Arrives(s, e, r, a)
    ensures Shows(Apply(s, e), r, a, e.x, s.execs[e.x].reported)
  {
  }

  lemma CleanupForgets(s: State, r: RunId, a: AgentId)
    ensures !Known(Apply(s, Cleanup(r)).metrics, r, a)
  {
  }

  lemma OthersLeave(s: State, e: Event, r: RunId, a: AgentId)
    requires Enabled(s, e) && !Arrives(s, e, r, a) && e != Cleanup(r)
    ensures var m, n := s.metrics, Apply(s, e).metrics;
      (Known(n, r, a) <==> Known(m, r, a)) && (Known(m, r, a) ==> n[r][a] == m[r][a])
  {
  }

  lemma OthersShow(s: State, e: Event, r: RunId, a: AgentId, x: nat, n: nat)
    requires Enabled(s, e) && !Arrives(s, e, r, a) && e != Cleanup(r) && Shows(s, r, a, x, n)
    ensures Shows(Apply(s, e), r, a, x, n)
  {
    OthersLeave(s, e, r, a);
    StepContinues(s, e, x);
  }

  /**
   Of every agent the controller stores exactly the last report that arrived for the run since
   its last cleanup: if that was the n-th snapshot the execution sent or lost, snapshot n, counted from 0.
   */
  lemma {:induction false} LatestShown(es: seq<Event>, r: RunId, a: AgentId)
    requires Exec(INIT, es).Some?
    ensures var s, i := Exec(INIT, es).value, LastReport(es, r, a);
      && (Known(s.metrics, r, a) <==> i.Some?)
      && (i.Some? ==> Shows(s, r, a, es[i.value].x, Sends(es[..i.value], es[i.value].x)))
  {
    if es != [] {
      var before, e := es[..|es| - 1], es[|es| - 1];
      var s := Exec(INIT, before).value;
      LatestShown(before, r, a);
      if Arrives(s, e, r, a) {
        SentInOrder(before, e.x);
        ArrivalShows(s, e, r, a);
      } else if e == Cleanup(r) {
        CleanupForgets(s, r, a);
      } else {
        OthersLeave(s, e, r, a);
        KeepsShowing(es, before, e, s, r, a);
      }
    }
  }

  lemma KeepsShowing(es: seq<Event>, before: seq<Event>, e: Event, s: State, r: RunId, a: AgentId)
    requires es != [] && before == es[..|es| - 1] && e == es[|es| - 1] && Exec(INIT, before) == Some(s) && Enabled(s, e)
    requires !Arrives(s, e, r, a) && e != Cleanup(r)
    requires var i := LastReport(before, r, a);
      i.Some? ==> Shows(s, r, a, before[i.value].x, Sends(before[..i.value], before[i.value].x))
    ensures var i := LastReport(before, r, a);
      i.Some? ==> Shows(Apply(s, e), r, a, es[i.value].x, Sends(es[..i.value], es[i.value].x))
  {
    var i := LastReport(before, r, a);
    if i.Some? {
      assert es[..i.value] == before[..i.value] && es[i.value] == before[i.value];
      OthersShow(s, e, r, a, es[i.value].x, Sends(es[..i.value], es[i.value].x));
    }
  }
}
