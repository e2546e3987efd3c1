/** What whole runs of the engine say about spawning and about the VUsers its snapshots show. */
module EngineRuns {
  import opened Engine
  import opened Wrappers
  import C = Collector

  /** The result channel holds at least 1000 results and at least 100 per VUser, and no more than one of these. */
  lemma CapacityExact(c: Config)
    ensures Capacity(c) >= 1000 && Capacity(c) >= 100 * c.vusers
    ensures Capacity(c) == 1000 || Capacity(c) == 100 * c.vusers
  {
  }

  // ----- everybody is spawned -----

  /** Main has returned from Pool.Start. */
  predicate Started(main: MainPc) {
    main.AwaitCancel? || main.PastCancel()
  }

  ghost predicate SpawnsAll(c: Config, s: State) {
    && Spawned(c, s.main, |s.pool.workers|)
    && (s.main.Ticking? ==> Ramping(c))
    && (Started(s.main) && !(Ramping(c) && s.cancelled) ==> |s.pool.workers| == c.vusers)
  }

  lemma {:induction false} RunSpawnsAll(c: Config, es: seq<Event>)
    requires Exec(c, INIT, es).Some?
    ensures SpawnsAll(c, Exec(c, INIT, es).value)
  {
    if es != [] {
      var u, e := Exec(c, INIT, es[..|es| - 1]).value, es[|es| - 1];
      RunSpawnsAll(c, es[..|es| - 1]);
      if e.MainStep? {
        MainSpawnsAll(c, u);
      } else {
        OthersSpawnAll(c, u, e);
      }
    }
  }

  lemma MainSpawnsAll(c: Config, s: State)
    requires SpawnsAll(c, s) && Enabled(c, s, MainStep)
    ensures SpawnsAll(c, Apply(c, s, MainStep))
  {
    MainStepPool(c, s);
  }

  lemma OthersSpawnAll(c: Config, s: State, e: Event)
    requires SpawnsAll(c, s) && Enabled(c, s, e) && !e.MainStep?
    ensures SpawnsAll(c, Apply(c, s, e))
  {
    assert |Apply(c, s, e).pool.workers| == |s.pool.workers|;
  }

  /** Once Pool.Start has returned every VUser was spawned, unless a cancellation cut a ramp-up short. */
  lemma AllSpawned(c: Config, s: State)
    requires Reachable(c, s) && Started(s.main) && !(Ramping(c) && s.cancelled)
    ensures |s.pool.workers| == c.vusers
  {
    var es :| Exec(c, INIT, es) == Some(s);
    RunSpawnsAll(c, es);
  }

  // ----- a ramp-up waits -----

  /** How often the ramp-up has received a tick. */
  function TicksReceived(c: Config, es: seq<Event>): nat
    requires Exec(c, INIT, es).Some?
  {
    if es == [] then 0
    else
      var u := Exec(c, INIT, es[..|es| - 1]).value;
      TicksReceived(c, es[..|es| - 1]) + (if es[|es| - 1].MainStep? && u.main.Ticking? then 1 else 0)
  }

  ghost predicate Waited(c: Config, s: State, ticks: nat) {
    && Spawned(c, s.main, |s.pool.workers|)
    && |s.pool.workers| <= ticks + 1
    && (s.main.Launching? || (s.main.Spawning? && s.main.i < c.vusers) ==> |s.pool.workers| <= ticks)
  }

  lemma MainWaits(c: Config, s: State, ticks: nat)
    requires Ramping(c) && Waited(c, s, ticks) && Enabled(c, s, MainStep)
    ensures Waited(c, Apply(c, s, MainStep), ticks + (if s.main.Ticking? then 1 else 0))
  {
    MainStepPool(c, s);
  }

  lemma OthersWait(c: Config, s: State, e: Event, ticks: nat)
    requires Waited(c, s, ticks) && Enabled(c, s, e) && !e.MainStep?
    ensures Waited(c, Apply(c, s, e), ticks)
  {
    assert |Apply(c, s, e).pool.workers| == |s.pool.workers|;
  }

  /** In a ramp-up no VUser is spawned without a tick of its own, but for the first. */
  lemma {:induction false} RampUpWaits(c: Config, es: seq<Event>)
    requires Ramping(c) && Exec(c, INIT, es).Some?
    ensures Waited(c, Exec(c, INIT, es).value, TicksReceived(c, es))
    ensures |Exec(c, INIT, es).value.pool.workers| <= TicksReceived(c, es) + 1
  {
    if es != [] {
      var before, e := es[..|es| - 1], es[|es| - 1];
      var u := Exec(c, INIT, before).value;
      RampUpWaits(c, before);
      if e.MainStep? {
        MainWaits(c, u, TicksReceived(c, before));
      } else {
        OthersWait(c, u, e, TicksReceived(c, before));
      }
    }
  }

  // ----- what snapshots show of the pool -----

  /** The k-th event takes a snapshot tick while this many workers are active. */
  ghost predicate TakenAt(c: Config, es: seq<Event>, k: int, active: int) {
    && 0 <= k < |es| && es[k].TakeTick? && Exec(c, INIT, es[..k]).Some?
    && Exec(c, INIT, es[..k]).value.pool.active == active
  }

  ghost predicate ShowsPool(c: Config, es: seq<Event>, d: C.Snapshot) {
    d.totalVUsers == c.vusers && exists k :: TakenAt(c, es, k, d.active)
  }

  ghost predicate AllShowPool(c: Config, es: seq<Event>, col: C.State) {
    && (forall i :: 0 <= i < |col.snapshots| ==> ShowsPool(c, es, col.snapshots[i]))
    && (col.snap.Taking? ==> ShowsPool(c, es, col.snap.draft))
  }

  lemma ShowsLater(c: Config, es: seq<Event>, e: Event, d: C.Snapshot)
    requires ShowsPool(c, es, d)
    ensures ShowsPool(c, es + [e], d)
  {
    var k :| TakenAt(c, es, k, d.active);
    assert (es + [e])[..k] == es[..k];
    assert TakenAt(c, es + [e], k, d.active);
  }

  lemma AllShowLater(c: Config, es: seq<Event>, e: Event, col: C.State)
    requires AllShowPool(c, es, col)
    ensures AllShowPool(c, es + [e], col)
  {
    forall i | 0 <= i < |col.snapshots|
      ensures ShowsPool(c, es + [e], col.snapshots[i])
    {
      ShowsLater(c, es, e, col.snapshots[i]);
    }
    if col.snap.Taking? {
      ShowsLater(c, es, e, col.snap.draft);
    }
  }

  /** A snapshot in the making keeps the pool's numbers it was called with. */
  lemma CollectorKeepsNumbers(col: C.State, e: C.Event)
    requires C.Enabled(col, e) && !e.CallSnapshot?
    ensures var v := C.Apply(col, e);
      && (v.snap.Taking? ==>
            && col.snap.Taking? && v.snap.draft.active == col.snap.draft.active
            && v.snap.draft.totalVUsers == col.snap.draft.totalVUsers)
      && (v.snapshots == col.snapshots
          || (col.snap.Taking? && v.snapshots == col.snapshots + [col.snap.draft]))
  {
  }

  lemma TickShows(c: Config, es: seq<Event>, s: State)
    requires Exec(c, INIT, es) == Some(s) && Enabled(c, s, TakeTick) && AllShowPool(c, es + [TakeTick], s.col)
    ensures AllShowPool(c, es + [TakeTick], Apply(c, s, TakeTick).col)
  {
    assert (es + [TakeTick])[..|es|] == es;
    assert TakenAt(c, es + [TakeTick], |es|, s.pool.active);
  }

  lemma StepShowsPool(c: Config, es: seq<Event>, s: State, e: Event)
    requires Exec(c, INIT, es) == Some(s) && Enabled(c, s, e) && AllShowPool(c, es, s.col)
    ensures AllShowPool(c, es + [e], Apply(c, s, e).col)
  {
    AllShowLater(c, es, e, s.col);
    if e.TakeTick? {
      TickShows(c, es, s);
    } else if IsCollectorEvent(e) {
      CollectorKeepsNumbers(s.col, CollectorEvent(c, s, e));
    }
  }

  lemma {:induction false} RunShowsPool(c: Config, es: seq<Event>)
    requires Exec(c, INIT, es).Some?
    ensures AllShowPool(c, es, Exec(c, INIT, es).value.col)
  {
    if es != [] {
      var before, e := es[..|es| - 1], es[|es| - 1];
      RunShowsPool(c, before);
      StepShowsPool(c, before, Exec(c, INIT, before).value, e);
      assert before + [e] == es;
    }
  }

  /**
   Every snapshot shows the VUsers of the run and how many workers were between their increment
   and decrement at one moment of it, when the snapshot goroutine took its tick.
   */
  lemma SnapshotShowsActive(c: Config, es: seq<Event>, i: nat) returns (k: nat)
    requires Exec(c, INIT, es).Some? && i < |Exec(c, INIT, es).value.col.snapshots|
    ensures var d := Exec(c, INIT, es).value.col.snapshots[i];
      && d.totalVUsers == c.vusers
      && k < |es| && es[k].TakeTick? && Exec(c, INIT, es[..k]).Some?
      && d.active == Sum(Exec(c, INIT, es[..k]).value.pool.workers, Active)
  {
    RunShowsPool(c, es);
    var d := Exec(c, INIT, es).value.col.snapshots[i];
    assert ShowsPool(c, es, d);
    k :| TakenAt(c, es, k, d.active);
    assert Reachable(c, Exec(c, INIT, es[..k]).value);
    CloseSafety(c, Exec(c, INIT, es[..k]).value);
  }

  // ----- nobody waits without reason -----

  /** A worker with a result can send it exactly while the channel holds fewer than 1000 or than 100 per VUser. */
  lemma SendsExactly(c: Config, s: State, i: nat)
    requires Reachable(c, s) && WorkerAt(s, i) && PcOf(s, i).Offering?
    ensures Enabled(c, s, Send(i)) <==> |s.ch.items| < 1000 || |s.ch.items| < 100 * c.vusers
  {
    CloseSafety(c, s);
  }

  /** The event is one of worker i. */
  predicate IsOf(e: Event, i: nat) {
    IsWorkerEvent(e) && e.i == i
  }

  /**
   A worker that is not gone can go on.  It waits for others only with a result in hand and a
   full channel, and then the collector can go on.  Before cancellation it neither returns nor
   drops a result.
   */
  lemma WorkersGoOn(c: Config, s: State, i: nat) returns (e: Event)
    requires Reachable(c, s) && WorkerAt(s, i) && !PcOf(s, i).Gone?
    ensures Enabled(c, s, e)
    ensures IsOf(e, i) || (IsCollectorEvent(e) && PcOf(s, i).Offering? && |s.ch.items| == Capacity(c))
    ensures !s.cancelled ==> !PcOf(s, i).Finished() && forall f :: IsOf(f, i) && Enabled(c, s, f) ==> !f.Drop?
  {
    ReachableInv(c, s);
    CloseSafety(c, s);
    assert WorkerOk(s.pool.workers[i], s.cancelled);
    if PcOf(s, i).Internal() {
      e := WorkerStep(i);
    } else if PcOf(s, i).Requesting? {
      e := Respond(i, C.RequestResult(1000, 0, false));
    } else if |s.ch.items| < Capacity(c) {
      e := Send(i);
    } else {
      e := CollectorGoesOn(c, s);
    }
  }

  /** With results waiting, the collector takes one or finishes the one in hand, unless a snapshot holds the lock. */
  lemma CollectorGoesOn(c: Config, s: State) returns (e: Event)
    requires Inv(c, s) && !s.panicked && s.ch.items != []
    ensures Enabled(c, s, e) && IsCollectorEvent(e)
  {
    if s.col.rec.Idle? {
      e := Receive;
    } else if C.Enabled(s.col, C.RecordStep) {
      e := RecordStep;
    } else {
      e := SnapshotStep(0.0);
    }
  }
}
