/**
 The load-run engine: runner.Run's own goroutine (which also runs Pool.Start), the
 VUser goroutines, the collector goroutine and the snapshot goroutine, interleaved
 one channel, counter or lock operation at a time.
 */
module Engine {
  import opened Arithmetic
  import opened Wrappers
  import C = Collector

  type Response = C.RequestResult

  /** `requests` is the length of the scenario's request list. */
  datatype Config = Config(vusers: nat, rampUp: int, requests: nat)

  /** A negative number of VUsers spawns none, like zero. */
  function ConfigFor(vusers: int, rampUp: int, requests: nat): Config {
    Config(if vusers < 0 then 0 else vusers, rampUp, requests)
  }

  /** Buffer size of the result channel. */
  function Capacity(c: Config): nat {
    if c.vusers * 100 < 1000 then 1000 else c.vusers * 100
  }

  /** Pool.Start waits for the ticker between spawns. */
  predicate Ramping(c: Config) {
    c.rampUp > 0 && c.vusers > 1
  }

  /** The ramp-up interval rounds to zero and NewTicker panics (see RampUp.Start). */
  predicate TickerPanics(c: Config) {
    Ramping(c) && c.rampUp < c.vusers
  }

  /**
   Loop(j): about to take request j, or to start the list again when j is its length.
   Leaving: about to decrement the active counter.  Signing: about to call wg.Done.
   */
  datatype WorkerPc =
    | Born | Loop(j: nat) | Requesting(j: nat) | Offering(j: nat, r: Response) | Leaving | Signing | Gone
  {
    /** The worker has decided to return. */
    predicate Finished() { Leaving? || Signing? || Gone? }
    /** The next action waits for nobody. */
    predicate Internal() { Born? || Loop? || Leaving? || Signing? }
  }

  /**
   Besides its program counter, a worker carries the history of its results and of the
   positions in the request list it has issued.
   */
  datatype Worker = Worker(
    pc: WorkerPc, produced: nat, sent: nat, dropped: nat, sentLate: nat, bornLate: bool, issued: seq<nat>)

  /** Spawning(i)..Ticking(i) are inside Pool.Start, with i workers spawned. */
  datatype MainPc =
    | Spawning(i: nat) | Launching(i: nat) | Ticking(i: nat)
    | AwaitCancel | AwaitSnapshots | AwaitWorkers | Closing | AwaitCollector | Returned
  {
    predicate PastClose() { AwaitCollector? || Returned? }
    predicate PastWorkers() { Closing? || PastClose() }
    predicate PastSnapshots() { AwaitWorkers? || PastWorkers() }
    predicate PastCancel() { AwaitSnapshots? || PastSnapshots() }
  }

  /** worker.Pool: the WaitGroup counter, the active counter and the VUser goroutines. */
  datatype Pool = Pool(wg: int, active: int, workers: seq<Worker>)

  /** The result channel, with the history of everything ever sent on it. */
  datatype Channel = Channel(items: seq<Response>, closed: bool, log: seq<Response>)

  datatype State = State(
    main: MainPc, cancelled: bool, panicked: bool, pool: Pool, ch: Channel,
    col: C.State, drained: bool, snapDone: bool, tick: bool)

  const INIT := State(
    Spawning(0), false, false, Pool(0, 0, []), Channel([], false, []), C.INIT, false, false, false)

  datatype Event =
    // the environment: the context is cancelled or times out, the snapshot ticker fires
    | Cancel | Tick
    // the main goroutine; GiveUp takes the cancellation branch of the ramp-up select
    | MainStep | GiveUp
    // worker i; Respond is the return of its HTTP call, Send and Drop are the select's branches
    | WorkerStep(i: nat) | Respond(i: nat, r: Response) | Send(i: nat) | Drop(i: nat)
    // the collector goroutine
    | Receive | RecordStep | Drain
    // the snapshot goroutine
    | TakeTick | SnapshotStep(clock: real) | SnapshotQuit

  predicate MainEnabled(s: State) {
    match s.main
    case AwaitCancel => s.cancelled
    case AwaitSnapshots => s.snapDone
    case AwaitWorkers => s.pool.wg == 0
    case AwaitCollector => s.drained
    case Returned => false
    case _ => true
  }

  predicate WorkerAt(s: State, i: nat) {
    i < |s.pool.workers|
  }

  function PcOf(s: State, i: nat): WorkerPc
    requires WorkerAt(s, i)
  {
    s.pool.workers[i].pc
  }

  predicate Enabled(c: Config, s: State, e: Event) {
    && !s.panicked
    && match e
       case Cancel => !s.cancelled
       case Tick => !s.snapDone && !s.tick
       case MainStep => MainEnabled(s)
       case GiveUp => s.main.Ticking? && s.cancelled
       case WorkerStep(i) => WorkerAt(s, i) && PcOf(s, i).Internal()
       case Respond(i, r) => WorkerAt(s, i) && PcOf(s, i).Requesting? && C.Trackable(r)
       case Send(i) => WorkerAt(s, i) && PcOf(s, i).Offering? && (s.ch.closed || |s.ch.items| < Capacity(c))
       case Drop(i) => WorkerAt(s, i) && PcOf(s, i).Offering? && s.cancelled
       case Receive => !s.drained && s.ch.items != [] && C.Enabled(s.col, C.BeginRecord(s.ch.items[0]))
       case RecordStep => C.Enabled(s.col, C.RecordStep)
       case Drain => !s.drained && s.ch.closed && s.ch.items == [] && s.col.rec.Idle?
       case TakeTick => !s.snapDone && s.tick && s.col.snap.Resting?
       case SnapshotStep(clock) => C.Enabled(s.col, C.SnapshotStep(clock))
       case SnapshotQuit => !s.snapDone && s.cancelled && s.col.snap.Resting?
  }

  function Newborn(cancelled: bool): Worker {
    Worker(Born, 0, 0, 0, 0, cancelled, [])
  }

  function MainNext(c: Config, main: MainPc): MainPc {
    match main
    case Spawning(i) => if i < c.vusers then Launching(i) else AwaitCancel
    case Launching(i) => if Ramping(c) && i + 1 < c.vusers then Ticking(i + 1) else Spawning(i + 1)
    case Ticking(i) => Spawning(i)
    case AwaitCancel => AwaitSnapshots
    case AwaitSnapshots => AwaitWorkers
    case AwaitWorkers => Closing
    case Closing => AwaitCollector
    case AwaitCollector => Returned
    case Returned => Returned
  }

  /** wg.Add precedes the go statement that creates the worker. */
  function MainPool(c: Config, main: MainPc, cancelled: bool, p: Pool): Pool {
    match main
    case Spawning(i) => if i < c.vusers then p.(wg := p.wg + 1) else p
    case Launching(_) => p.(workers := p.workers + [Newborn(cancelled)])
    case _ => p
  }

  /** The next internal action of a worker: its loop, its two deferred calls. */
  function WorkerNext(c: Config, cancelled: bool, w: Worker): Worker {
    match w.pc
    case Born => w.(pc := Loop(0))
    case Loop(j) =>
      if j >= c.requests then w.(pc := Loop(0))
      else if cancelled then w.(pc := Leaving)
      else w.(pc := Requesting(j), issued := w.issued + [j])
    case Leaving => w.(pc := Signing)
    case Signing => w.(pc := Gone)
    case _ => w
  }

  function WorkerPool(c: Config, cancelled: bool, p: Pool, i: nat): Pool
    requires i < |p.workers|
  {
    var w := p.workers[i];
    Pool(if w.pc.Signing? then p.wg - 1 else p.wg,
         if w.pc.Born? then p.active + 1 else if w.pc.Leaving? then p.active - 1 else p.active,
         p.workers[i := WorkerNext(c, cancelled, w)])
  }

  function Responded(w: Worker, r: Response): Worker
    requires w.pc.Requesting?
  {
    w.(pc := Offering(w.pc.j, r), produced := w.produced + 1)
  }

  function AfterSend(w: Worker, cancelled: bool): Worker
    requires w.pc.Offering?
  {
    w.(pc := Loop(w.pc.j + 1), sent := w.sent + 1, sentLate := w.sentLate + (if cancelled then 1 else 0))
  }

  function AfterDrop(w: Worker): Worker {
    w.(pc := Leaving, dropped := w.dropped + 1)
  }

  function SetWorker(p: Pool, i: nat, w: Worker): Pool
    requires i < |p.workers|
  {
    p.(workers := p.workers[i := w])
  }

  /** A send on the closed channel panics, closing it twice does, and so does a ticker without interval. */
  function Apply(c: Config, s: State, e: Event): State
    requires Enabled(c, s, e)
  {
    match e
    case Cancel => s.(cancelled := true)
    case Tick => s.(tick := true)
    case MainStep =>
      if s.main == Spawning(0) && TickerPanics(c) then s.(panicked := true)
      else
        s.(main := MainNext(c, s.main), pool := MainPool(c, s.main, s.cancelled, s.pool),
           ch := if s.main.Closing? then s.ch.(closed := true) else s.ch,
           panicked := s.main.Closing? && s.ch.closed)
    case GiveUp => s.(main := AwaitCancel)
    case WorkerStep(i) => s.(pool := WorkerPool(c, s.cancelled, s.pool, i))
    case Respond(i, r) => s.(pool := SetWorker(s.pool, i, Responded(s.pool.workers[i], r)))
    case Send(i) =>
      if s.ch.closed then s.(panicked := true)
      else
        var r := s.pool.workers[i].pc.r;
        s.(pool := SetWorker(s.pool, i, AfterSend(s.pool.workers[i], s.cancelled)),
           ch := s.ch.(items := s.ch.items + [r], log := s.ch.log + [r]))
    case Drop(i) => s.(pool := SetWorker(s.pool, i, AfterDrop(s.pool.workers[i])))
    case Receive =>
      s.(ch := s.ch.(items := s.ch.items[1..]), col := C.Apply(s.col, C.BeginRecord(s.ch.items[0])))
    case RecordStep => s.(col := C.Apply(s.col, C.RecordStep))
    case Drain => s.(drained := true)
    case TakeTick => s.(tick := false, col := C.Apply(s.col, C.CallSnapshot(s.pool.active, c.vusers)))
    case SnapshotStep(clock) => s.(col := C.Apply(s.col, C.SnapshotStep(clock)))
    case SnapshotQuit => s.(snapDone := true)
  }

  /** The state after a run of events from s, None when one of them was not enabled. */
  function Exec(c: Config, s: State, es: seq<Event>): Option<State> {
    if es == [] then Some(s)
    else
      match Exec(c, s, es[..|es| - 1])
      case None => None
      case Some(u) => if Enabled(c, u, es[|es| - 1]) then Some(Apply(c, u, es[|es| - 1])) else None
  }

  ghost predicate Reachable(c: Config, s: State) {
    exists es :: Exec(c, INIT, es) == Some(s)
  }

  // ----- sums over workers -----

  function Sum(ws: seq<Worker>, f: Worker -> int): int {
    if ws == [] then 0 else Sum(ws[..|ws| - 1], f) + f(ws[|ws| - 1])
  }

  lemma SumSnoc(ws: seq<Worker>, w: Worker, f: Worker -> int)
    ensures Sum(ws + [w], f) == Sum(ws, f) + f(w)
  {
    assert (ws + [w])[..|ws|] == ws;
  }

  lemma {:induction false} SumUpdate(ws: seq<Worker>, i: nat, w: Worker, f: Worker -> int)
    requires i < |ws|
    ensures Sum(ws[i := w], f) == Sum(ws, f) - f(ws[i]) + f(w)
  {
    var n := |ws| - 1;
    if i == n {
      assert ws[i := w][..n] == ws[..n];
    } else {
      assert ws[i := w][..n] == ws[..n][i := w];
      SumUpdate(ws[..n], i, w, f);
    }
  }

  lemma {:induction false} SumLinear(ws: seq<Worker>, f: Worker -> int, low: int, high: int)
    requires forall i :: 0 <= i < |ws| ==> low <= f(ws[i]) <= high
    ensures low * |ws| <= Sum(ws, f) <= high * |ws|
  {
    if ws != [] {
      SumLinear(ws[..|ws| - 1], f, low, high);
    }
  }

  lemma {:induction false} SumZero(ws: seq<Worker>, f: Worker -> int, i: nat)
    requires forall k :: 0 <= k < |ws| ==> f(ws[k]) >= 0
    requires Sum(ws, f) == 0 && i < |ws|
    ensures f(ws[i]) == 0
  {
    var n := |ws| - 1;
    SumNonNegative(ws[..n], f);
    if i < n {
      SumZero(ws[..n], f, i);
    }
  }

  lemma {:induction false} SumNonNegative(ws: seq<Worker>, f: Worker -> int)
    requires forall k :: 0 <= k < |ws| ==> f(ws[k]) >= 0
    ensures Sum(ws, f) >= 0
  {
    if ws != [] {
      SumNonNegative(ws[..|ws| - 1], f);
    }
  }

  function Unsigned(w: Worker): int { if w.pc.Gone? then 0 else 1 }
  function Active(w: Worker): int { if w.pc.Born? || w.pc.Signing? || w.pc.Gone? then 0 else 1 }
  function Held(w: Worker): int { if w.pc.Offering? then 1 else 0 }
  function Produced(w: Worker): int { w.produced }
  function Sent(w: Worker): int { w.sent }
  function Dropped(w: Worker): int { w.dropped }

  // ----- invariants -----

  /** How many workers have been spawned, by main's position. */
  ghost predicate Spawned(c: Config, main: MainPc, n: nat) {
    && n <= c.vusers
    && match main
       case Spawning(i) => n == i
       case Launching(i) => n == i < c.vusers
       case Ticking(i) => n == i < c.vusers
       case _ => true
  }

  /** The WaitGroup and the active counter count what they should. */
  ghost predicate Counted(p: Pool, launching: bool) {
    && p.wg == Sum(p.workers, Unsigned) + (if launching then 1 else 0)
    && p.active == Sum(p.workers, Active)
  }

  ghost predicate WorkerOk(w: Worker, cancelled: bool) {
    && w.produced == w.sent + w.dropped + Held(w)
    && w.dropped <= 1 && w.sentLate <= 1
    && (w.dropped == 1 ==> w.pc.Finished())
    && (w.sentLate == 1 ==> cancelled && !w.pc.Requesting? && !w.pc.Offering?)
    && (w.bornLate ==> cancelled && w.produced == 0 && !w.pc.Requesting?)
    && (w.pc.Finished() ==> cancelled)
    && (w.pc.Offering? ==> C.Trackable(w.pc.r))
  }

  ghost predicate WorkersOk(ws: seq<Worker>, cancelled: bool) {
    forall i :: 0 <= i < |ws| ==> WorkerOk(ws[i], cancelled)
  }

  ghost predicate PoolOk(c: Config, s: State) {
    && Spawned(c, s.main, |s.pool.workers|)
    && Counted(s.pool, s.main.Launching?)
    && WorkersOk(s.pool.workers, s.cancelled)
  }

  ghost predicate EveryoneGone(ws: seq<Worker>) {
    forall i :: 0 <= i < |ws| ==> ws[i].pc.Gone?
  }

  /** The shutdown order of Run. */
  ghost predicate Lifecycle(s: State) {
    && (s.main.PastCancel() ==> s.cancelled)
    && (s.main.PastSnapshots() ==> s.snapDone)
    && (s.main.PastWorkers() ==> EveryoneGone(s.pool.workers))
    && (s.ch.closed <==> s.main.PastClose())
    && (s.main.Returned? ==> s.drained)
    && (s.drained ==> s.ch.closed && s.ch.items == [] && s.col.rec.Idle?)
    && (s.snapDone ==> s.cancelled && s.col.snap.Resting?)
  }

  /** Only the ticker can panic, and then no worker was ever spawned. */
  ghost predicate Panics(c: Config, s: State) {
    (s.panicked ==> TickerPanics(c)) && (TickerPanics(c) ==> s.main == Spawning(0))
  }

  function InHand(rec: C.Recorder): seq<Response> {
    if rec.At? && !rec.op.UnlockMu? then [rec.r] else []
  }

  ghost predicate AllTrackable(rs: seq<Response>) {
    forall i :: 0 <= i < |rs| ==> C.Trackable(rs[i])
  }

  /** What was sent is, in order, what the histogram holds, the collector holds and the channel holds. */
  ghost predicate Conserved(c: Config, ws: seq<Worker>, ch: Channel, col: C.State) {
    && ch.log == col.done + InHand(col.rec) + ch.items
    && |ch.log| == Sum(ws, Sent)
    && |ch.items| <= Capacity(c)
    && AllTrackable(ch.items)
  }

  /** No snapshot shows more active workers than the pool has. */
  ghost predicate ActiveBounded(c: Config, col: C.State) {
    && (forall i :: 0 <= i < |col.snapshots| ==> 0 <= col.snapshots[i].active <= c.vusers)
    && (col.snap.Taking? ==> 0 <= col.snap.draft.active <= c.vusers)
  }

  ghost predicate Inv(c: Config, s: State) {
    && PoolOk(c, s) && Lifecycle(s) && Conserved(c, s.pool.workers, s.ch, s.col)
    && ActiveBounded(c, s.col) && C.Inv(s.col) && Panics(c, s)
  }

  // ----- every step keeps the invariant: main -----

  lemma SumsAfterSpawn(ws: seq<Worker>, cancelled: bool)
    ensures var ws' := ws + [Newborn(cancelled)];
      && Sum(ws', Unsigned) == Sum(ws, Unsigned) + 1
      && Sum(ws', Active) == Sum(ws, Active) && Sum(ws', Sent) == Sum(ws, Sent)
  {
    SumSnoc(ws, Newborn(cancelled), Unsigned);
    SumSnoc(ws, Newborn(cancelled), Active);
    SumSnoc(ws, Newborn(cancelled), Sent);
  }

  /** When the WaitGroup is at zero, every worker is gone. */
  lemma WaitedForAll(p: Pool)
    requires Counted(p, false) && p.wg == 0
    ensures EveryoneGone(p.workers)
  {
    forall i | 0 <= i < |p.workers|
      ensures p.workers[i].pc.Gone?
    {
      SumZero(p.workers, Unsigned, i);
    }
  }

  lemma MainKeepsCounts(c: Config, main: MainPc, cancelled: bool, p: Pool)
    requires Counted(p, main.Launching?)
    ensures Counted(MainPool(c, main, cancelled, p), MainNext(c, main).Launching?)
  {
    var p' := MainPool(c, main, cancelled, p);
    if main.Launching? {
      SumsAfterSpawn(p.workers, cancelled);
      assert p'.workers == p.workers + [Newborn(cancelled)] && !MainNext(c, main).Launching?;
    } else {
      assert p'.workers == p.workers && p'.active == p.active;
    }
  }

  lemma MainKeepsWorkers(c: Config, main: MainPc, cancelled: bool, p: Pool)
    requires Spawned(c, main, |p.workers|) && WorkersOk(p.workers, cancelled)
    ensures var p' := MainPool(c, main, cancelled, p);
      Spawned(c, MainNext(c, main), |p'.workers|) && WorkersOk(p'.workers, cancelled)
  {
  }

  /** What main does to the pool, unless NewTicker panics. */
  lemma MainStepPool(c: Config, s: State)
    requires Enabled(c, s, MainStep)
    ensures var t := Apply(c, s, MainStep);
      && t.cancelled == s.cancelled
      && ((t.main == s.main && t.pool == s.pool)
          || (t.main == MainNext(c, s.main) && t.pool == MainPool(c, s.main, s.cancelled, s.pool)))
  {
  }

  lemma MainKeepsPool(c: Config, s: State)
    requires PoolOk(c, s) && Enabled(c, s, MainStep)
    ensures PoolOk(c, Apply(c, s, MainStep))
  {
    MainStepPool(c, s);
    MainKeepsCounts(c, s.main, s.cancelled, s.pool);
    MainKeepsWorkers(c, s.main, s.cancelled, s.pool);
  }

  lemma MainKeepsLifecycle(c: Config, s: State)
    requires PoolOk(c, s) && Lifecycle(s) && Enabled(c, s, MainStep)
    ensures Lifecycle(Apply(c, s, MainStep))
  {
    if s.main.AwaitWorkers? {
      WaitedForAll(s.pool);
    }
  }

  lemma MainKeepsPanics(c: Config, s: State)
    requires Lifecycle(s) && Panics(c, s) && Enabled(c, s, MainStep)
    ensures Panics(c, Apply(c, s, MainStep))
  {
  }

  lemma MainKeepsFlow(c: Config, s: State)
    requires Conserved(c, s.pool.workers, s.ch, s.col) && Enabled(c, s, MainStep)
    ensures var t := Apply(c, s, MainStep); Conserved(c, t.pool.workers, t.ch, t.col)
  {
    if s.main.Launching? {
      SumsAfterSpawn(s.pool.workers, s.cancelled);
    }
  }

  lemma MainKeepsInv(c: Config, s: State)
    requires Inv(c, s) && Enabled(c, s, MainStep)
    ensures Inv(c, Apply(c, s, MainStep))
  {
    MainKeepsPool(c, s);
    MainKeepsLifecycle(c, s);
    MainKeepsPanics(c, s);
    MainKeepsFlow(c, s);
    assert Apply(c, s, MainStep).col == s.col;
  }

  // ----- the workers -----

  predicate IsWorkerEvent(e: Event) {
    e.WorkerStep? || e.Respond? || e.Send? || e.Drop?
  }

  /** No worker is left to send once the channel is closed. */
  lemma WorkerRunsBeforeClose(c: Config, s: State, e: Event)
    requires Lifecycle(s) && Enabled(c, s, e) && IsWorkerEvent(e)
    ensures !s.ch.closed && !s.main.PastWorkers()
  {
  }

  lemma NextStaysOk(c: Config, cancelled: bool, w: Worker)
    requires WorkerOk(w, cancelled) && w.pc.Internal()
    ensures WorkerOk(WorkerNext(c, cancelled, w), cancelled)
  {
  }

  lemma OfferStaysOk(cancelled: bool, w: Worker)
    requires WorkerOk(w, cancelled) && w.pc.Offering?
    ensures WorkerOk(AfterSend(w, cancelled), cancelled) && (cancelled ==> WorkerOk(AfterDrop(w), cancelled))
  {
  }

  lemma WorkerStaysOk(c: Config, s: State, e: Event)
    requires WorkersOk(s.pool.workers, s.cancelled) && Enabled(c, s, e) && IsWorkerEvent(e) && !s.ch.closed
    ensures WorkerOk(Apply(c, s, e).pool.workers[e.i], s.cancelled)
  {
    var w := s.pool.workers[e.i];
    assert WorkerOk(w, s.cancelled);
    match e
    case WorkerStep(_) => NextStaysOk(c, s.cancelled, w);
    case Respond(_, _) =>
    case Send(_) => OfferStaysOk(s.cancelled, w);
    case Drop(_) => OfferStaysOk(s.cancelled, w);
  }

  lemma WorkerKeepsCounts(c: Config, s: State, e: Event)
    requires Counted(s.pool, s.main.Launching?) && Enabled(c, s, e) && IsWorkerEvent(e) && !s.ch.closed
    ensures Counted(Apply(c, s, e).pool, s.main.Launching?)
  {
    var w := Apply(c, s, e).pool.workers[e.i];
    SumUpdate(s.pool.workers, e.i, w, Unsigned);
    SumUpdate(s.pool.workers, e.i, w, Active);
  }

  lemma WorkerKeepsPool(c: Config, s: State, e: Event)
    requires PoolOk(c, s) && Enabled(c, s, e) && IsWorkerEvent(e) && !s.ch.closed
    ensures PoolOk(c, Apply(c, s, e))
  {
    WorkerStaysOk(c, s, e);
    WorkerKeepsCounts(c, s, e);
    var t := Apply(c, s, e);
    assert t.pool.workers == s.pool.workers[e.i := t.pool.workers[e.i]];
  }

  lemma SendKeepsFlow(c: Config, s: State, i: nat)
    requires Conserved(c, s.pool.workers, s.ch, s.col) && WorkersOk(s.pool.workers, s.cancelled)
    requires Enabled(c, s, Send(i)) && !s.ch.closed
    ensures var t := Apply(c, s, Send(i)); Conserved(c, t.pool.workers, t.ch, t.col)
  {
    var w := s.pool.workers[i];
    assert WorkerOk(w, s.cancelled);
    SumUpdate(s.pool.workers, i, AfterSend(w, s.cancelled), Sent);
  }

  lemma WorkerKeepsFlow(c: Config, s: State, e: Event)
    requires Conserved(c, s.pool.workers, s.ch, s.col) && WorkersOk(s.pool.workers, s.cancelled)
    requires Enabled(c, s, e) && IsWorkerEvent(e) && !s.ch.closed
    ensures var t := Apply(c, s, e); Conserved(c, t.pool.workers, t.ch, t.col)
  {
    if e.Send? {
      SendKeepsFlow(c, s, e.i);
    } else {
      var t := Apply(c, s, e);
      assert t.ch == s.ch && t.col == s.col;
      SumUpdate(s.pool.workers, e.i, t.pool.workers[e.i], Sent);
    }
  }

  lemma WorkerKeepsLifecycle(c: Config, s: State, e: Event)
    requires Lifecycle(s) && Enabled(c, s, e) && IsWorkerEvent(e)
    ensures Lifecycle(Apply(c, s, e)) && Apply(c, s, e).main == s.main && Apply(c, s, e).panicked == s.panicked
  {
    WorkerRunsBeforeClose(c, s, e);
  }

  lemma WorkerKeepsInv(c: Config, s: State, e: Event)
    requires Inv(c, s) && Enabled(c, s, e) && IsWorkerEvent(e)
    ensures Inv(c, Apply(c, s, e))
  {
    WorkerRunsBeforeClose(c, s, e);
    WorkerKeepsPool(c, s, e);
    WorkerKeepsFlow(c, s, e);
    WorkerKeepsLifecycle(c, s, e);
    assert Apply(c, s, e).col == s.col;
  }

  // ----- the collector and snapshot goroutines -----

  predicate IsCollectorEvent(e: Event) {
    e.Receive? || e.RecordStep? || e.TakeTick? || e.SnapshotStep?
  }

  lemma ActiveInRange(c: Config, s: State)
    requires PoolOk(c, s)
    ensures 0 <= s.pool.active <= |s.pool.workers| <= c.vusers
  {
    SumLinear(s.pool.workers, Active, 0, 1);
  }

  lemma ReceiveKeepsFlow(c: Config, s: State)
    requires Conserved(c, s.pool.workers, s.ch, s.col) && Enabled(c, s, Receive)
    ensures var t := Apply(c, s, Receive); Conserved(c, t.pool.workers, t.ch, t.col)
  {
    assert s.ch.items == [s.ch.items[0]] + Apply(c, s, Receive).ch.items;
  }

  lemma CollectorKeepsFlow(c: Config, s: State, e: Event)
    requires Conserved(c, s.pool.workers, s.ch, s.col) && Enabled(c, s, e) && IsCollectorEvent(e)
    ensures var t := Apply(c, s, e); Conserved(c, t.pool.workers, t.ch, t.col)
  {
    if e.Receive? {
      ReceiveKeepsFlow(c, s);
    } else {
      var t := Apply(c, s, e);
      assert t.col.done + InHand(t.col.rec) == s.col.done + InHand(s.col.rec);
    }
  }

  lemma CollectorKeepsLifecycle(c: Config, s: State, e: Event)
    requires Lifecycle(s) && Enabled(c, s, e) && IsCollectorEvent(e)
    ensures Lifecycle(Apply(c, s, e))
  {
  }

  lemma CollectorKeepsActive(c: Config, s: State, e: Event)
    requires PoolOk(c, s) && ActiveBounded(c, s.col) && Enabled(c, s, e) && IsCollectorEvent(e)
    ensures ActiveBounded(c, Apply(c, s, e).col)
  {
    ActiveInRange(c, s);
  }

  /** The collector operation an event performs. */
  function CollectorEvent(c: Config, s: State, e: Event): C.Event
    requires IsCollectorEvent(e) && Enabled(c, s, e)
  {
    match e
    case Receive => C.BeginRecord(s.ch.items[0])
    case RecordStep => C.RecordStep
    case TakeTick => C.CallSnapshot(s.pool.active, c.vusers)
    case SnapshotStep(clock) => C.SnapshotStep(clock)
  }

  lemma CollectorKeepsInv(c: Config, s: State, e: Event)
    requires Inv(c, s) && Enabled(c, s, e) && IsCollectorEvent(e)
    ensures Inv(c, Apply(c, s, e))
  {
    CollectorKeepsFlow(c, s, e);
    CollectorKeepsLifecycle(c, s, e);
    CollectorKeepsActive(c, s, e);
    C.StepKeepsInv(s.col, CollectorEvent(c, s, e));
    var t := Apply(c, s, e);
    assert t.pool == s.pool && t.main == s.main && t.cancelled == s.cancelled;
  }

  // ----- whole runs -----

  lemma StepKeepsInv(c: Config, s: State, e: Event)
    requires Inv(c, s) && Enabled(c, s, e)
    ensures Inv(c, Apply(c, s, e))
  {
    if IsWorkerEvent(e) {
      WorkerKeepsInv(c, s, e);
    } else if IsCollectorEvent(e) {
      CollectorKeepsInv(c, s, e);
    } else if e.MainStep? {
      MainKeepsInv(c, s);
    }
  }

  lemma {:induction false} RunKeepsInv(c: Config, s: State, es: seq<Event>)
    requires Inv(c, s) && Exec(c, s, es).Some?
    ensures Inv(c, Exec(c, s, es).value)
  {
    if es != [] {
      RunKeepsInv(c, s, es[..|es| - 1]);
      StepKeepsInv(c, Exec(c, s, es[..|es| - 1]).value, es[|es| - 1]);
    }
  }

  lemma InitInv(c: Config)
    ensures Inv(c, INIT)
  {
  }

  lemma ReachableInv(c: Config, s: State)
    requires Reachable(c, s)
    ensures Inv(c, s)
  {
    InitInv(c);
    var es :| Exec(c, INIT, es) == Some(s);
    RunKeepsInv(c, INIT, es);
  }

  // ----- the collector inside the engine -----

  lemma StepDrivesCollector(c: Config, s: State, e: Event)
    requires C.Reachable(s.col) && Enabled(c, s, e)
    ensures C.Reachable(Apply(c, s, e).col)
  {
    if IsCollectorEvent(e) {
      C.LeadsStep(C.INIT, s.col, CollectorEvent(c, s, e));
    }
  }

  lemma {:induction false} RunDrivesCollector(c: Config, es: seq<Event>)
    requires Exec(c, INIT, es).Some?
    ensures C.Reachable(Exec(c, INIT, es).value.col)
  {
    if es == [] {
      C.LeadsNowhere(C.INIT);
    } else {
      RunDrivesCollector(c, es[..|es| - 1]);
      StepDrivesCollector(c, Exec(c, INIT, es[..|es| - 1]).value, es[|es| - 1]);
    }
  }

  /** Everything said of reachable collectors holds of the collector of every engine run. */
  lemma DrivesCollector(c: Config, s: State)
    requires Reachable(c, s)
    ensures C.Reachable(s.col)
  {
    var es :| Exec(c, INIT, es) == Some(s);
    RunDrivesCollector(c, es);
  }

  /**
   So it is for the drift of the snapshots an engine takes: each shows its samples and at most
   one request more, at most one error more than requests, and their totals never decrease.
   */
  lemma EngineSnapshotDrift(c: Config, s: State, i: nat, j: nat)
    requires Reachable(c, s) && i <= j < |s.col.snapshots|
    ensures C.Credible(s.col.snapshots[i]) && 0 <= s.col.snapshots[i].errors <= s.col.snapshots[i].total + 1
    ensures s.col.snapshots[i].total <= s.col.snapshots[j].total
    ensures s.col.snapshots[i].errors <= s.col.snapshots[j].errors
  {
    DrivesCollector(c, s);
    C.SnapshotsCredible(s.col, i);
    C.SnapshotDrift(s.col);
  }

  // ----- theorems: safety -----

  lemma NobodyActive(ws: seq<Worker>)
    requires EveryoneGone(ws)
    ensures Sum(ws, Active) == 0
  {
    SumLinear(ws, Active, 0, 0);
  }

  lemma PanickedEmpty(c: Config, s: State)
    requires Panics(c, s) && Spawned(c, s.main, |s.pool.workers|)
    ensures s.panicked ==> TickerPanics(c) && s.pool.workers == []
  {
  }

  /**
   No send or close ever hits a closed channel, because every worker is gone by the time
   Run closes it: the only panic is NewTicker's, before any worker exists.  The active
   counter is the number of workers between their increment and decrement, never exceeds
   the number spawned, and is 0 once Wait has returned.
   */
  lemma CloseSafety(c: Config, s: State)
    requires Reachable(c, s)
    ensures s.panicked ==> TickerPanics(c) && s.pool.workers == []
    ensures s.ch.closed ==> EveryoneGone(s.pool.workers)
    ensures 0 <= s.pool.active == Sum(s.pool.workers, Active) <= |s.pool.workers| <= c.vusers
    ensures s.main.PastWorkers() ==> s.pool.active == 0 && |s.ch.items| <= Capacity(c)
  {
    ReachableInv(c, s);
    PanickedEmpty(c, s);
    ActiveInRange(c, s);
    if s.main.PastWorkers() {
      NobodyActive(s.pool.workers);
    }
  }

  lemma {:induction false} ProducedSplits(ws: seq<Worker>, cancelled: bool)
    requires WorkersOk(ws, cancelled)
    ensures Sum(ws, Produced) == Sum(ws, Sent) + Sum(ws, Dropped) + Sum(ws, Held)
    ensures 0 <= Sum(ws, Dropped) <= if cancelled then |ws| else 0
  {
    if ws != [] {
      var n := |ws| - 1;
      assert WorkersOk(ws[..n], cancelled) && WorkerOk(ws[n], cancelled);
      ProducedSplits(ws[..n], cancelled);
    }
  }

  /**
   Conservation in every interleaving: results produced are recorded, in the collector's
   hands, in the channel, held by a worker or dropped; a worker drops at most one, and only
   after cancellation.  What was sent reaches the histogram in the order of sending.
   */
  lemma ResultConservation(c: Config, s: State)
    requires Reachable(c, s)
    ensures Sum(s.pool.workers, Produced)
         == |s.col.done| + |InHand(s.col.rec)| + |s.ch.items| + Sum(s.pool.workers, Held) + Sum(s.pool.workers, Dropped)
    ensures s.ch.log == s.col.done + InHand(s.col.rec) + s.ch.items
    ensures forall i :: 0 <= i < |s.pool.workers| ==> s.pool.workers[i].dropped <= if s.cancelled then 1 else 0
  {
    ReachableInv(c, s);
    ProducedSplits(s.pool.workers, s.cancelled);
    forall i | 0 <= i < |s.pool.workers|
      ensures s.pool.workers[i].dropped <= if s.cancelled then 1 else 0
    {
      assert WorkerOk(s.pool.workers[i], s.cancelled);
    }
  }

  /** When Run returns, the collector's totals and its histogram are exactly those of the results sent. */
  lemma ReturnedCountersExact(c: Config, s: State)
    requires Reachable(c, s) && s.main.Returned?
    ensures s.col.c.histogram == C.AllMicros(s.ch.log) && s.col.c.totalReqs == |s.ch.log|
    ensures s.col.c.totalErrors == C.Failures(s.ch.log) <= s.col.c.totalReqs
  {
    ReachableInv(c, s);
    assert s.ch.log == s.col.done;
  }

  /** The result Run returns after `seconds`. */
  function Result(s: State, seconds: real): C.TestResult {
    C.ResultOf(s.col.c, seconds, s.col.snapshots)
  }

  /**
   The result Run returns counts exactly the results sent and the failed ones among them;
   successes and errors add up, the error rate is a rate and the percentiles are ordered.
   */
  lemma ReturnedTotalsExact(c: Config, s: State, seconds: real)
    requires Reachable(c, s) && s.main.Returned?
    ensures var r := Result(s, seconds);
      && r.totalRequests == |s.ch.log| && r.errorCount == C.Failures(s.ch.log) && C.Coherent(r)
  {
    ReturnedCountersExact(c, s);
    C.ResultCoherent(s.col.c, seconds, s.col.snapshots);
  }

  /**
   The latencies of the result Run returns are the nearest-rank percentiles and the truncated
   mean of the latencies of the results sent.
   */
  lemma ReturnedLatenciesExact(c: Config, s: State, seconds: real)
    requires Reachable(c, s) && s.main.Returned?
    ensures C.Describes(Result(s, seconds), C.AllMicros(s.ch.log))
  {
    ReturnedCountersExact(c, s);
    C.ResultDescribes(s.col.c, seconds, s.col.snapshots);
  }

  /**
   Its error rate times the results sent is the number of failures among them, its average rate
   is the results sent per second (see C.AverageMeans), its peak the maximum over its snapshots.
   */
  lemma ReturnedRatesExact(c: Config, s: State, seconds: real)
    requires Reachable(c, s) && s.main.Returned?
    ensures var r, n := Result(s, seconds), |s.ch.log|;
      && Times(n, r.errorRate) == C.Failures(s.ch.log) as real && (n == 0 ==> r.errorRate == 0.0)
      && r.avgRPS == C.Average(n, seconds) && r.snapshots == s.col.snapshots && r.maxRPS == C.Peak(s.col.snapshots)
  {
    ReturnedCountersExact(c, s);
    ReturnedPeakExact(c, s);
    C.ResultRates(s.col.c, seconds, s.col.snapshots);
  }

  /** Of the results produced, at most one per worker is missing from the totals. */
  lemma ReturnedMissesFew(c: Config, s: State)
    requires Reachable(c, s) && s.main.Returned?
    ensures s.col.c.totalReqs <= Sum(s.pool.workers, Produced) <= s.col.c.totalReqs + c.vusers
  {
    ReachableInv(c, s);
    ProducedSplits(s.pool.workers, s.cancelled);
    assert EveryoneGone(s.pool.workers);
    SumLinear(s.pool.workers, Held, 0, 0);
    assert s.ch.log == s.col.done;
  }

  /** When Run returns, the peak is that of its snapshots, whose windows and the leftover make the total. */
  lemma ReturnedPeakExact(c: Config, s: State)
    requires Reachable(c, s) && s.main.Returned?
    ensures s.col.c.maxRPS == C.Peak(s.col.snapshots)
    ensures C.Windows(s.col.snapshots) + s.col.c.windowReqs == s.col.c.totalReqs
  {
    ReachableInv(c, s);
    C.QuiescentWindow(s.col);
  }

  /** After cancellation a worker sends at most one more result, and one spawned then issues no request. */
  lemma LateWork(c: Config, s: State, i: nat)
    requires Reachable(c, s) && WorkerAt(s, i)
    ensures s.pool.workers[i].sentLate <= 1
    ensures s.pool.workers[i].bornLate ==> s.pool.workers[i].produced == 0 && !s.pool.workers[i].pc.Requesting?
  {
    ReachableInv(c, s);
    assert WorkerOk(s.pool.workers[i], s.cancelled);
  }

  // ----- theorems: shutdown -----

  /** Everything but the environment's own events. */
  predicate IsEngineStep(e: Event) {
    !e.Cancel? && !e.Tick?
  }

  predicate Final(s: State) {
    && s.main.Returned? && s.ch.closed && s.ch.items == []
    && s.drained && s.col.rec.Idle? && s.snapDone && s.col.snap.Resting?
    && forall i :: 0 <= i < |s.pool.workers| ==> s.pool.workers[i].pc.Gone?
  }

  function WorkerWeight(requests: nat, w: Worker): nat {
    match w.pc
    case Requesting(_) => 14 case Offering(_, _) => 13
    case Born => 5 case Loop(j) => if j >= requests then 4 else 3
    case Leaving => 2 case Signing => 1 case Gone => 0
  }

  function Weight(requests: nat): Worker -> int {
    w => WorkerWeight(requests, w)
  }

  function MainRank(c: Config, main: MainPc): int {
    match main
    case Ticking(i) => 10 * (c.vusers - i) + 12
    case Spawning(i) => 10 * (c.vusers - i) + 10
    case Launching(i) => 10 * (c.vusers - i) + 9
    case AwaitCancel => 9 case AwaitSnapshots => 8 case AwaitWorkers => 7
    case Closing => 6 case AwaitCollector => 5 case Returned => 0
  }

  function RecorderRank(rec: C.Recorder, drained: bool): nat {
    if rec.At? then 8 - C.Ord(rec.op) else if drained then 0 else 1
  }

  function SnapshotRank(snap: C.Snapshotter, done: bool): nat {
    if snap.Resting? then (if done then 0 else 1)
    else
      match snap.op
      case WantLock => 10 case ReadClock => 9 case LoadTotal => 8 case LoadErrors => 7 case SwapWindow => 6
      case ReadHist => 5 case LoadBytes => 4 case ReleaseLock => 3 case Append => 2
  }

  const TICK_COST: nat := 10

  function Rank(c: Config, s: State): int {
    MainRank(c, s.main) + Sum(s.pool.workers, Weight(c.requests)) + 8 * |s.ch.items|
    + RecorderRank(s.col.rec, s.drained) + (if s.panicked then 0 else 1)
    + SnapshotRank(s.col.snap, s.snapDone) + (if s.tick then TICK_COST else 0)
  }

  lemma RankNonNegative(c: Config, s: State)
    requires Spawned(c, s.main, |s.pool.workers|)
    ensures Rank(c, s) >= 0
  {
    SumNonNegative(s.pool.workers, Weight(c.requests));
  }

  /** Main's next position pays for a worker it spawns. */
  lemma MainRankFalls(c: Config, main: MainPc, n: nat)
    requires Spawned(c, main, n) && !main.Returned?
    ensures MainRank(c, MainNext(c, main)) + (if main.Launching? then 5 else 0) < MainRank(c, main)
  {
  }

  lemma SpawnRank(c: Config, main: MainPc, cancelled: bool, p: Pool)
    ensures Sum(MainPool(c, main, cancelled, p).workers, Weight(c.requests))
         <= Sum(p.workers, Weight(c.requests)) + (if main.Launching? then 5 else 0)
  {
    if main.Launching? {
      SumSnoc(p.workers, Newborn(cancelled), Weight(c.requests));
    }
  }

  lemma MainDescends(c: Config, s: State)
    requires Spawned(c, s.main, |s.pool.workers|) && Enabled(c, s, MainStep)
    ensures Rank(c, Apply(c, s, MainStep)) < Rank(c, s)
  {
    MainRankFalls(c, s.main, |s.pool.workers|);
    SpawnRank(c, s.main, s.cancelled, s.pool);
  }

  /** A worker's step lowers its weight, and a send pays for the result in the channel. */
  lemma WeightFalls(c: Config, s: State, e: Event)
    requires c.requests > 0 && s.cancelled && !s.ch.closed && Enabled(c, s, e) && IsWorkerEvent(e)
    ensures WorkerWeight(c.requests, Apply(c, s, e).pool.workers[e.i]) + (if e.Send? then 8 else 0)
          < WorkerWeight(c.requests, s.pool.workers[e.i])
  {
  }

  /** What a worker's step leaves alone. */
  lemma WorkerStepShape(c: Config, s: State, e: Event)
    requires !s.ch.closed && Enabled(c, s, e) && IsWorkerEvent(e)
    ensures var t := Apply(c, s, e);
      && t.main == s.main && t.col == s.col && t.drained == s.drained && t.snapDone == s.snapDone
      && t.tick == s.tick && t.panicked == s.panicked
      && |t.ch.items| == |s.ch.items| + (if e.Send? then 1 else 0)
      && e.i < |t.pool.workers| && t.pool.workers == s.pool.workers[e.i := t.pool.workers[e.i]]
  {
  }

  lemma WorkerDescends(c: Config, s: State, e: Event)
    requires c.requests > 0 && s.cancelled && !s.ch.closed && Enabled(c, s, e) && IsWorkerEvent(e)
    ensures Rank(c, Apply(c, s, e)) < Rank(c, s)
  {
    WeightFalls(c, s, e);
    WorkerStepShape(c, s, e);
    SumUpdate(s.pool.workers, e.i, Apply(c, s, e).pool.workers[e.i], Weight(c.requests));
  }

  lemma RecorderDescends(c: Config, s: State, e: Event)
    requires Enabled(c, s, e) && (e.Receive? || e.RecordStep? || e.Drain?)
    ensures Rank(c, Apply(c, s, e)) < Rank(c, s)
  {
  }

  lemma SnapshotDescends(c: Config, s: State, e: Event)
    requires Enabled(c, s, e) && (e.TakeTick? || e.SnapshotStep? || e.SnapshotQuit?)
    ensures Rank(c, Apply(c, s, e)) < Rank(c, s)
  {
  }

  /** No VUser is without requests. */
  predicate HasWork(c: Config) {
    c.requests > 0 || c.vusers == 0
  }

  /** After cancellation every engine step lowers the rank. */
  lemma RankDescends(c: Config, s: State, e: Event)
    requires Inv(c, s) && s.cancelled && HasWork(c) && Enabled(c, s, e) && IsEngineStep(e)
    ensures Rank(c, Apply(c, s, e)) < Rank(c, s) && Apply(c, s, e).cancelled
  {
    if IsWorkerEvent(e) {
      WorkerRunsBeforeClose(c, s, e);
      assert c.vusers > 0;
      WorkerDescends(c, s, e);
    } else if e.MainStep? {
      MainDescends(c, s);
    } else if e.Receive? || e.RecordStep? || e.Drain? {
      RecorderDescends(c, s, e);
    } else if !e.GiveUp? {
      SnapshotDescends(c, s, e);
    }
  }

  function EngineSteps(es: seq<Event>): nat {
    if es == [] then 0 else EngineSteps(es[..|es| - 1]) + (if IsEngineStep(es[|es| - 1]) then 1 else 0)
  }

  function Ticks(es: seq<Event>): nat {
    if es == [] then 0 else Ticks(es[..|es| - 1]) + (if es[|es| - 1].Tick? then 1 else 0)
  }

  lemma {:induction false} BoundedFrom(c: Config, s: State, es: seq<Event>)
    requires Inv(c, s) && s.cancelled && HasWork(c) && Exec(c, s, es).Some?
    ensures var t := Exec(c, s, es).value;
      t.cancelled && 0 <= Rank(c, t) && EngineSteps(es) + Rank(c, t) <= Rank(c, s) + TICK_COST * Ticks(es)
  {
    RunKeepsInv(c, s, es);
    RankNonNegative(c, Exec(c, s, es).value);
    if es != [] {
      var init, e := es[..|es| - 1], es[|es| - 1];
      BoundedFrom(c, s, init);
      RunKeepsInv(c, s, init);
      if IsEngineStep(e) {
        RankDescends(c, Exec(c, s, init).value, e);
      }
    }
  }

  /** A run after cancellation takes no more engine steps than its rank and its ticks pay for. */
  lemma ShutdownBounded(c: Config, s: State, es: seq<Event>)
    requires Reachable(c, s) && s.cancelled && HasWork(c) && Exec(c, s, es).Some?
    ensures EngineSteps(es) <= Rank(c, s) + TICK_COST * Ticks(es)
  {
    ReachableInv(c, s);
    BoundedFrom(c, s, es);
  }

  /** A worker that is not gone always has a step once the run is cancelled. */
  function WorkerOption(s: State, i: nat): Event
    requires WorkerAt(s, i)
  {
    if PcOf(s, i).Requesting? then Respond(i, C.RequestResult(0, 0, true))
    else if PcOf(s, i).Offering? then Drop(i)
    else WorkerStep(i)
  }

  lemma SomeoneAlive(p: Pool) returns (i: nat)
    requires Counted(p, false) && p.wg != 0
    ensures i < |p.workers| && !p.workers[i].pc.Gone?
  {
    if EveryoneGone(p.workers) {
      SumLinear(p.workers, Unsigned, 0, 0);
    }
    i :| 0 <= i < |p.workers| && !p.workers[i].pc.Gone?;
  }

  /** An engine step that is possible in s. */
  lemma Progress(c: Config, s: State) returns (e: Event)
    requires Inv(c, s) && s.cancelled && !Final(s) && !s.panicked
    ensures IsEngineStep(e) && Enabled(c, s, e)
  {
    if s.col.rec.At? && (s.col.rec.op.LockMu? ==> s.col.lock.Free?) {
      e := RecordStep;
    } else if s.col.snap.Taking? {
      e := SnapshotStep(0.0);
    } else if s.col.rec.Idle? && s.ch.items != [] {
      e := Receive;
    } else if !s.snapDone {
      e := SnapshotQuit;
    } else if MainEnabled(s) {
      e := MainStep;
    } else if s.main.AwaitWorkers? {
      var i := SomeoneAlive(s.pool);
      e := WorkerOption(s, i);
    } else {
      e := Drain;
    }
  }

  /** After cancellation, no engine step is possible exactly when the state is final or NewTicker panicked. */
  lemma DeadlockFree(c: Config, s: State)
    requires Reachable(c, s) && s.cancelled
    ensures (forall e :: IsEngineStep(e) ==> !Enabled(c, s, e)) <==> Final(s) || s.panicked
  {
    ReachableInv(c, s);
    if !Final(s) && !s.panicked {
      var e := Progress(c, s);
    }
  }

  lemma ExecOne(c: Config, s: State, e: Event)
    requires Enabled(c, s, e)
    ensures Exec(c, s, [e]) == Some(Apply(c, s, e))
  {
    assert [e][..0] == [];
    assert Exec(c, s, []) == Some(s);
  }

  lemma {:induction false} ExecPrepend(c: Config, s: State, e: Event, es: seq<Event>)
    requires Enabled(c, s, e)
    ensures Exec(c, s, [e] + es) == Exec(c, Apply(c, s, e), es)
  {
    if es == [] {
      ExecOne(c, s, e);
      assert [e] + es == [e];
    } else {
      var n, fs := |es| - 1, [e] + es;
      ExecPrepend(c, s, e, es[..n]);
      assert fs[..n + 1] == [e] + es[..n] && fs[n + 1] == es[n];
    }
  }

  lemma {:induction false} CompletesFrom(c: Config, s: State) returns (es: seq<Event>)
    requires Inv(c, s) && s.cancelled && HasWork(c) && !TickerPanics(c)
    ensures Exec(c, s, es).Some? && Final(Exec(c, s, es).value)
    ensures forall i :: 0 <= i < |es| ==> IsEngineStep(es[i])
    decreases Rank(c, s)
  {
    RankNonNegative(c, s);
    if Final(s) {
      es := [];
    } else {
      var e := Progress(c, s);
      RankDescends(c, s, e);
      StepKeepsInv(c, s, e);
      var rest := CompletesFrom(c, Apply(c, s, e));
      ExecPrepend(c, s, e, rest);
      es := [e] + rest;
    }
  }

  /** From every reachable cancelled state engine steps alone lead to the final state. */
  lemma ShutdownCompletes(c: Config, s: State) returns (es: seq<Event>)
    requires Reachable(c, s) && s.cancelled && HasWork(c) && !TickerPanics(c)
    ensures Exec(c, s, es).Some? && Final(Exec(c, s, es).value)
    ensures forall i :: 0 <= i < |es| ==> IsEngineStep(es[i])
  {
    ReachableInv(c, s);
    es := CompletesFrom(c, s);
  }

  /** Not yet leaving, and with an empty request list never will. */
  predicate Spinning(w: Worker) {
    w.pc.Born? || w.pc.Loop?
  }

  /** With VUsers but no requests, every worker spins, and there is one once main is past the first spawn. */
  ghost predicate Starving(c: Config, s: State) {
    && c.requests == 0 && c.vusers > 0
    && Spawned(c, s.main, |s.pool.workers|)
    && (s.main == Spawning(0) || s.main == Launching(0) || s.pool.workers != [])
    && forall i :: 0 <= i < |s.pool.workers| ==> Spinning(s.pool.workers[i])
  }

  lemma StarvingMain(c: Config, s: State)
    requires Starving(c, s) && Enabled(c, s, MainStep)
    ensures Starving(c, Apply(c, s, MainStep))
  {
    MainStepPool(c, s);
  }

  /** A spinning worker only ever starts its empty list again. */
  lemma StarvingWorker(c: Config, s: State, e: Event)
    requires Starving(c, s) && Enabled(c, s, e) && IsWorkerEvent(e)
    ensures var t := Apply(c, s, e);
      && t.main == s.main && |t.pool.workers| == |s.pool.workers|
      && forall i :: 0 <= i < |t.pool.workers| ==> Spinning(t.pool.workers[i])
  {
    assert Spinning(s.pool.workers[e.i]);
  }

  lemma StarvingStep(c: Config, s: State, e: Event)
    requires Starving(c, s) && Enabled(c, s, e)
    ensures Starving(c, Apply(c, s, e))
  {
    if e.MainStep? {
      StarvingMain(c, s);
    } else if IsWorkerEvent(e) {
      StarvingWorker(c, s, e);
    }
  }

  lemma StarvingNotFinal(c: Config, s: State)
    requires Starving(c, s)
    ensures !Final(s)
  {
    if s.main.Returned? {
      assert Spinning(s.pool.workers[0]);
    }
  }

  lemma {:induction false} StarvesForever(c: Config, s: State, es: seq<Event>)
    requires Starving(c, s) && Exec(c, s, es).Some?
    ensures Starving(c, Exec(c, s, es).value)
  {
    if es != [] {
      StarvesForever(c, s, es[..|es| - 1]);
      StarvingStep(c, Exec(c, s, es[..|es| - 1]).value, es[|es| - 1]);
    }
  }

  lemma ReachableStarving(c: Config, s: State)
    requires Reachable(c, s) && !HasWork(c)
    ensures Starving(c, s)
  {
    var es :| Exec(c, INIT, es) == Some(s);
    StarvesForever(c, INIT, es);
  }

  lemma NoShutdown(c: Config, s: State, es: seq<Event>)
    requires Reachable(c, s) && (TickerPanics(c) || !HasWork(c)) && Exec(c, s, es).Some?
    ensures !Final(Exec(c, s, es).value)
  {
    if TickerPanics(c) {
      ReachableInv(c, s);
      RunKeepsInv(c, s, es);
    } else {
      ReachableStarving(c, s);
      StarvesForever(c, s, es);
      StarvingNotFinal(c, Exec(c, s, es).value);
    }
  }

  /**
   A cancelled run can shut down exactly when its ramp-up interval does not round to zero and
   no VUser is without requests.
   */
  lemma ShutdownExactly(c: Config, s: State)
    requires Reachable(c, s) && s.cancelled
    ensures (exists es :: Exec(c, s, es).Some? && Final(Exec(c, s, es).value)) <==> !TickerPanics(c) && HasWork(c)
  {
    if !TickerPanics(c) && HasWork(c) {
      var es := ShutdownCompletes(c, s);
    } else {
      forall es | Exec(c, s, es).Some?
        ensures !Final(Exec(c, s, es).value)
      {
        NoShutdown(c, s, es);
      }
    }
  }
}
