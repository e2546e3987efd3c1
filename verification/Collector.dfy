/**
 The metrics collector: counters bumped atomically outside the mutex, a
 histogram and the peak rate guarded by it.

 `Record` and `Snapshot` are broken into their individual atomic operations;
 one recorder and one snapshot goroutine interleave freely.  The class at the
 end is the same object seen by a single caller.
 */
module Collector {
  import opened Arithmetic
  import opened Wrappers
  import opened Histogram

  const MAX_TRACKABLE_US: int := 3600000000

  datatype RequestResult = RequestResult(latencyNs: int, bytesIn: int, failed: bool)

  /** Latency in whole microseconds, at least 1. */
  function Micros(r: RequestResult): (us: int)
    ensures us >= 1 && (r.latencyNs >= 1000 ==> us * 1000 <= r.latencyNs < (us + 1) * 1000)
    ensures r.latencyNs < 1000 ==> us == 1
  {
    if r.latencyNs / 1000 < 1 then 1 else r.latencyNs / 1000
  }

  /** The histogram accepts the latency (at most one hour). */
  predicate Trackable(r: RequestResult)
    ensures Trackable(r) <==> r.latencyNs < 3600 * 1000000000 + 1000
  {
    Micros(r) <= MAX_TRACKABLE_US
  }

  datatype Counters = Counters(
    totalReqs: int, totalErrors: int, totalBytes: int, windowReqs: int,
    lastRPS: real, maxRPS: real, histogram: seq<int>)

  const ZEROED := Counters(0, 0, 0, 0, 0.0, 0.0, [])

  /** A metric snapshot; `hist` is the histogram its latency fields are computed from. */
  datatype Snapshot = Snapshot(
    active: int, totalVUsers: int, elapsed: real, window: int, rps: real,
    hist: seq<int>, errorRate: real, total: int, errors: int, bytes: int)
  {
    function AvgUs(): int { Trunc(Mean(hist)) }
    function PercentileUs(p: nat): int requires p <= 100 { Percentile(hist, p) }
  }

  // ----- atomic operations -----

  datatype RecordOp = BumpTotal | BumpWindow | BumpErrors | BumpBytes | LockMu | Store | UnlockMu
  datatype Recorder = Idle | At(op: RecordOp, r: RequestResult)

  datatype SnapshotOp =
    WantLock | ReadClock | LoadTotal | LoadErrors | SwapWindow | ReadHist | LoadBytes | ReleaseLock | Append
  datatype Snapshotter = Resting | Taking(op: SnapshotOp, draft: Snapshot)

  datatype Lock = Free | ByRecorder | BySnapshot

  datatype State = State(
    c: Counters, lock: Lock, rec: Recorder, snap: Snapshotter,
    snapshots: seq<Snapshot>,     // accumulated by the runner
    done: seq<RequestResult>)     // history: the results stored in the histogram, in order

  const INIT := State(ZEROED, Free, Idle, Resting, [], [])

  /** RecordStep and SnapshotStep are the next atomic operation of the respective goroutine. */
  datatype Event =
    | BeginRecord(r: RequestResult)
    | RecordStep
    | CallSnapshot(active: int, totalVUsers: int)
    | SnapshotStep(clock: real)

  function BlankDraft(active: int, totalVUsers: int): Snapshot {
    Snapshot(active, totalVUsers, 0.0, 0, 0.0, [], 0.0, 0, 0, 0)
  }

  predicate Enabled(s: State, e: Event) {
    match e
    case BeginRecord(r) => s.rec.Idle? && Trackable(r)
    case RecordStep => s.rec.At? && (s.rec.op.LockMu? ==> s.lock.Free?)
    case CallSnapshot(_, _) => s.snap.Resting?
    case SnapshotStep(clock) => s.snap.Taking? && (s.snap.op.WantLock? ==> s.lock.Free?) && clock >= 0.0
  }

  function RecordApply(s: State, op: RecordOp, r: RequestResult): State {
    var c := s.c;
    match op
    case BumpTotal => s.(c := c.(totalReqs := c.totalReqs + 1), rec := At(BumpWindow, r))
    case BumpWindow => s.(c := c.(windowReqs := c.windowReqs + 1), rec := At(BumpErrors, r))
    case BumpErrors =>
      s.(c := if r.failed then c.(totalErrors := c.totalErrors + 1) else c, rec := At(BumpBytes, r))
    case BumpBytes => s.(c := c.(totalBytes := c.totalBytes + r.bytesIn), rec := At(LockMu, r))
    case LockMu => s.(lock := ByRecorder, rec := At(Store, r))
    case Store =>
      s.(c := c.(histogram := c.histogram + [Micros(r)]), done := s.done + [r], rec := At(UnlockMu, r))
    case UnlockMu => s.(lock := Free, rec := Idle)
  }

  /** Requests in the window, or the running average when the window is empty. */
  function Rate(window: int, total: int, elapsed: real): real {
    if window as real == 0.0 && elapsed > 0.0 then total as real / elapsed else window as real
  }

  function Ratio(errors: int, total: int): real {
    if total > 0 then errors as real / total as real else 0.0
  }

  function SnapshotApply(s: State, op: SnapshotOp, d: Snapshot, clock: real): State {
    var c := s.c;
    match op
    case WantLock => s.(lock := BySnapshot, snap := Taking(ReadClock, d))
    case ReadClock => s.(snap := Taking(LoadTotal, d.(elapsed := clock)))
    case LoadTotal => s.(snap := Taking(LoadErrors, d.(total := c.totalReqs)))
    case LoadErrors => s.(snap := Taking(SwapWindow, d.(errors := c.totalErrors)))
    case SwapWindow =>
      var rps := Rate(c.windowReqs, d.total, d.elapsed);
      s.(c := c.(windowReqs := 0, lastRPS := rps, maxRPS := if rps > c.maxRPS then rps else c.maxRPS),
         snap := Taking(ReadHist, d.(window := c.windowReqs, rps := rps)))
    case ReadHist => s.(snap := Taking(LoadBytes, d.(hist := c.histogram)))
    case LoadBytes =>
      s.(snap := Taking(ReleaseLock, d.(bytes := c.totalBytes, errorRate := Ratio(d.errors, d.total))))
    case ReleaseLock => s.(lock := Free, snap := Taking(Append, d))
    case Append => s.(snapshots := s.snapshots + [d], snap := Resting)
  }

  function Apply(s: State, e: Event): State
    requires Enabled(s, e)
  {
    match e
    case BeginRecord(r) => s.(rec := At(BumpTotal, r))
    case RecordStep => RecordApply(s, s.rec.op, s.rec.r)
    case CallSnapshot(active, total) => s.(snap := Taking(WantLock, BlankDraft(active, total)))
    case SnapshotStep(clock) => SnapshotApply(s, s.snap.op, s.snap.draft, clock)
  }

  /** The state after a run of events, None when one of them was not enabled. */
  function Exec(s: State, es: seq<Event>): Option<State> {
    if es == [] then Some(s)
    else
      match Exec(s, es[..|es| - 1])
      case None => None
      case Some(u) => if Enabled(u, es[|es| - 1]) then Some(Apply(u, es[|es| - 1])) else None
  }

  /** Some run leads from s to t. */
  ghost predicate Leads(s: State, t: State) {
    exists es :: Exec(s, es) == Some(t)
  }

  ghost predicate Reachable(s: State) {
    Leads(INIT, s)
  }

  lemma LeadsNowhere(s: State)
    ensures Leads(s, s)
  {
    assert Exec(s, []) == Some(s);
  }

  lemma LeadsStep(s: State, t: State, e: Event)
    requires Leads(s, t) && Enabled(t, e)
    ensures Leads(s, Apply(t, e))
  {
    var es :| Exec(s, es) == Some(t);
    assert (es + [e])[..|es|] == es;
    assert Exec(s, es + [e]) == Some(Apply(t, e));
  }

  // ----- invariant -----

  function Ord(op: RecordOp): nat {
    match op
    case BumpTotal => 0 case BumpWindow => 1 case BumpErrors => 2 case BumpBytes => 3
    case LockMu => 4 case Store => 5 case UnlockMu => 6
  }

  /** 1 while the current record is past operation number k but not yet in the histogram. */
  function InFlight(rec: Recorder, k: nat): nat {
    if rec.At? && k < Ord(rec.op) <= 5 then 1 else 0
  }

  function Failures(rs: seq<RequestResult>): (n: nat)
    ensures n <= |rs|
  {
    if rs == [] then 0 else Failures(rs[..|rs| - 1]) + (if rs[|rs| - 1].failed then 1 else 0)
  }

  function Bytes(rs: seq<RequestResult>): int {
    if rs == [] then 0 else Bytes(rs[..|rs| - 1]) + rs[|rs| - 1].bytesIn
  }

  function AllMicros(rs: seq<RequestResult>): (h: seq<int>)
    ensures |h| == |rs|
  {
    seq(|rs|, i requires 0 <= i < |rs| => Micros(rs[i]))
  }

  function Windows(ss: seq<Snapshot>): int {
    if ss == [] then 0 else Windows(ss[..|ss| - 1]) + ss[|ss| - 1].window
  }

  /** The greatest rate among the snapshots, 0 if there is none. */
  function Peak(ss: seq<Snapshot>): (m: real)
    ensures m >= 0.0 && forall i :: 0 <= i < |ss| ==> ss[i].rps <= m
    ensures m == 0.0 || exists i :: 0 <= i < |ss| && ss[i].rps == m
  {
    if ss == [] then 0.0
    else
      var m := Peak(ss[..|ss| - 1]);
      if ss[|ss| - 1].rps > m then ss[|ss| - 1].rps else m
  }

  function Draft(s: State): Snapshot {
    if s.snap.Taking? then s.snap.draft else BlankDraft(0, 0)
  }

  /** Every counter equals what the stored results say, plus the record in flight. */
  ghost predicate Counted(s: State) {
    && s.c.totalReqs == |s.done| + InFlight(s.rec, 0)
    && s.c.totalErrors == Failures(s.done) + (if InFlight(s.rec, 2) == 1 && s.rec.r.failed then 1 else 0)
    && s.c.totalBytes == Bytes(s.done) + (if InFlight(s.rec, 3) == 1 then s.rec.r.bytesIn else 0)
    && s.c.histogram == AllMicros(s.done)
  }

  ghost predicate Windowed(s: State) {
    && s.c.windowReqs >= 0 && Draft(s).window >= 0
    && s.c.windowReqs + Windows(s.snapshots) + Draft(s).window == |s.done| + InFlight(s.rec, 1)
    && s.c.maxRPS == (if Draft(s).rps > Peak(s.snapshots) then Draft(s).rps else Peak(s.snapshots))
  }

  ghost predicate Locked(s: State) {
    && (s.lock.ByRecorder? <==> s.rec.At? && s.rec.op in {Store, UnlockMu})
    && (s.lock.BySnapshot? <==> s.snap.Taking? && s.snap.op !in {WantLock, Append})
  }

  /** The histogram behind a snapshot lags its total by at most one request. */
  ghost predicate Accurate(d: Snapshot) {
    && |d.hist| <= d.total <= |d.hist| + 1
    && 0 <= d.errors <= d.total + 1
    && 0 <= d.window && d.window as real <= d.rps
    && d.errorRate == Ratio(d.errors, d.total)
  }

  ghost predicate NoLater(d: Snapshot, total: int, errors: int) {
    d.total <= total && d.errors <= errors
  }

  /** Both totals are nondecreasing over successive snapshots. */
  ghost predicate Ordered(ss: seq<Snapshot>) {
    forall i, j :: 0 <= i < j < |ss| ==> NoLater(ss[i], ss[j].total, ss[j].errors)
  }

  /** What the snapshot in the making has read so far. */
  ghost predicate DraftOk(s: State) {
    s.snap.Taking? ==>
      var d, op, n := s.snap.draft, s.snap.op, |s.c.histogram|;
      && (op in {LoadErrors, SwapWindow, ReadHist} ==> n <= d.total <= n + 1)
      && (op in {SwapWindow, ReadHist} ==> 0 <= d.errors <= d.total + 1)
      && (op in {WantLock, ReadClock, LoadTotal, LoadErrors, SwapWindow} ==> d.window == 0 && d.rps == 0.0)
      && (op in {LoadTotal, LoadErrors, SwapWindow} ==> d.elapsed >= 0.0)
      && (op.LoadBytes? ==> |d.hist| <= d.total <= |d.hist| + 1 && 0 <= d.errors <= d.total + 1)
      && (op in {ReadHist, LoadBytes} ==> 0 <= d.window && d.window as real <= d.rps)
      && (op in {ReleaseLock, Append} ==> Accurate(d))
      && (op !in {WantLock, ReadClock, LoadTotal} ==>
            d.total <= s.c.totalReqs && forall i :: 0 <= i < |s.snapshots| ==> s.snapshots[i].total <= d.total)
      && (op !in {WantLock, ReadClock, LoadTotal, LoadErrors} ==>
            d.errors <= s.c.totalErrors && forall i :: 0 <= i < |s.snapshots| ==> s.snapshots[i].errors <= d.errors)
  }

  ghost predicate SnapshotsOk(s: State) {
    && (forall i :: 0 <= i < |s.snapshots| ==> Accurate(s.snapshots[i]))
    && (forall i :: 0 <= i < |s.snapshots| ==> NoLater(s.snapshots[i], s.c.totalReqs, s.c.totalErrors))
    && Ordered(s.snapshots)
  }

  ghost predicate Inv(s: State) {
    Counted(s) && Windowed(s) && Locked(s) && DraftOk(s) && SnapshotsOk(s)
  }

  lemma StoredCounts(rs: seq<RequestResult>, r: RequestResult)
    ensures Failures(rs + [r]) == Failures(rs) + (if r.failed then 1 else 0)
    ensures Bytes(rs + [r]) == Bytes(rs) + r.bytesIn
    ensures AllMicros(rs + [r]) == AllMicros(rs) + [Micros(r)]
  {
    assert (rs + [r])[..|rs|] == rs;
  }

  lemma AppendedSnapshot(ss: seq<Snapshot>, d: Snapshot)
    ensures Windows(ss + [d]) == Windows(ss) + d.window
    ensures Peak(ss + [d]) == if d.rps > Peak(ss) then d.rps else Peak(ss)
  {
    assert (ss + [d])[..|ss|] == ss;
  }

  lemma RateCoversWindow(window: int, total: int, elapsed: real)
    requires window >= 0 && total >= 0 && elapsed >= 0.0
    ensures window as real <= Rate(window, total, elapsed)
  {
  }

  lemma StoreKeepsCounts(s: State)
    requires Counted(s) && s.rec.At? && s.rec.op.Store?
    ensures Counted(RecordApply(s, Store, s.rec.r))
  {
    StoredCounts(s.done, s.rec.r);
  }

  lemma RecordStepKeepsCounts(s: State)
    requires Counted(s) && Enabled(s, RecordStep)
    ensures Counted(Apply(s, RecordStep))
  {
    if s.rec.op.Store? {
      StoreKeepsCounts(s);
    }
  }

  lemma RecordStepKeepsWindow(s: State)
    requires Windowed(s) && Enabled(s, RecordStep)
    ensures Windowed(Apply(s, RecordStep))
  {
  }

  lemma RecordStepKeepsLock(s: State)
    requires Locked(s) && Enabled(s, RecordStep)
    ensures Locked(Apply(s, RecordStep))
  {
  }

  /** The recorder cannot store while the snapshot goroutine reads. */
  lemma RecordStepKeepsDraft(s: State)
    requires Counted(s) && Locked(s) && DraftOk(s) && Enabled(s, RecordStep)
    ensures DraftOk(Apply(s, RecordStep))
  {
  }

  lemma RecordStepKeepsSnapshots(s: State)
    requires SnapshotsOk(s) && Enabled(s, RecordStep)
    ensures SnapshotsOk(Apply(s, RecordStep))
  {
    var t := Apply(s, RecordStep);
    assert t.c.totalReqs >= s.c.totalReqs && t.c.totalErrors >= s.c.totalErrors;
  }

  lemma RecordStepKeepsInv(s: State)
    requires Inv(s) && Enabled(s, RecordStep)
    ensures Inv(Apply(s, RecordStep))
  {
    RecordStepKeepsCounts(s);
    RecordStepKeepsWindow(s);
    RecordStepKeepsLock(s);
    RecordStepKeepsDraft(s);
    RecordStepKeepsSnapshots(s);
  }

  lemma SnapshotStepKeepsCounts(s: State, clock: real)
    requires Counted(s) && Enabled(s, SnapshotStep(clock))
    ensures Counted(Apply(s, SnapshotStep(clock)))
  {
  }

  lemma SnapshotStepKeepsLock(s: State, clock: real)
    requires Locked(s) && Enabled(s, SnapshotStep(clock))
    ensures Locked(Apply(s, SnapshotStep(clock)))
  {
  }

  lemma AppendKeepsWindow(s: State, clock: real)
    requires Windowed(s) && s.snap.Taking? && s.snap.op.Append?
    ensures Windowed(SnapshotApply(s, Append, s.snap.draft, clock))
  {
    AppendedSnapshot(s.snapshots, s.snap.draft);
  }

  lemma SwapKeepsWindow(s: State, clock: real)
    requires Inv(s) && s.snap.Taking? && s.snap.op.SwapWindow?
    ensures Windowed(SnapshotApply(s, SwapWindow, s.snap.draft, clock))
  {
    RateCoversWindow(s.c.windowReqs, s.snap.draft.total, s.snap.draft.elapsed);
  }

  lemma SnapshotStepKeepsWindow(s: State, clock: real)
    requires Inv(s) && Enabled(s, SnapshotStep(clock))
    ensures Windowed(Apply(s, SnapshotStep(clock)))
  {
    if s.snap.op.Append? {
      AppendKeepsWindow(s, clock);
    } else if s.snap.op.SwapWindow? {
      SwapKeepsWindow(s, clock);
    }
  }

  lemma SnapshotStepKeepsDraft(s: State, clock: real)
    requires Inv(s) && Enabled(s, SnapshotStep(clock))
    ensures DraftOk(Apply(s, SnapshotStep(clock)))
  {
    var t := Apply(s, SnapshotStep(clock));
    if s.snap.op.SwapWindow? {
      RateCoversWindow(s.c.windowReqs, s.snap.draft.total, s.snap.draft.elapsed);
    }
    if s.snap.op in {LoadTotal, LoadErrors} {
      assert forall i :: 0 <= i < |s.snapshots| ==> NoLater(s.snapshots[i], s.c.totalReqs, s.c.totalErrors);
    }
  }

  lemma SnapshotStepKeepsSnapshots(s: State, clock: real)
    requires Inv(s) && Enabled(s, SnapshotStep(clock))
    ensures SnapshotsOk(Apply(s, SnapshotStep(clock)))
  {
    if s.snap.op.Append? {
      var d := s.snap.draft;
      assert forall i :: 0 <= i < |s.snapshots| ==> NoLater(s.snapshots[i], d.total, d.errors);
    }
  }

  lemma SnapshotStepKeepsInv(s: State, clock: real)
    requires Inv(s) && Enabled(s, SnapshotStep(clock))
    ensures Inv(Apply(s, SnapshotStep(clock)))
  {
    SnapshotStepKeepsCounts(s, clock);
    SnapshotStepKeepsLock(s, clock);
    SnapshotStepKeepsWindow(s, clock);
    SnapshotStepKeepsDraft(s, clock);
    SnapshotStepKeepsSnapshots(s, clock);
  }

  lemma StepKeepsInv(s: State, e: Event)
    requires Inv(s) && Enabled(s, e)
    ensures Inv(Apply(s, e))
  {
    match e
    case BeginRecord(_) =>
    case RecordStep => RecordStepKeepsInv(s);
    case CallSnapshot(_, _) =>
    case SnapshotStep(clock) => SnapshotStepKeepsInv(s, clock);
  }

  lemma {:induction false} RunKeepsInv(es: seq<Event>)
    requires Exec(INIT, es).Some?
    ensures Inv(Exec(INIT, es).value)
  {
    if es != [] {
      RunKeepsInv(es[..|es| - 1]);
      StepKeepsInv(Exec(INIT, es[..|es| - 1]).value, es[|es| - 1]);
    }
  }

  lemma ReachableInv(s: State)
    requires Reachable(s)
    ensures Inv(s)
  {
    var es :| Exec(INIT, es) == Some(s);
    RunKeepsInv(es);
  }

  // ----- theorems -----

  /**
   In every interleaving, every snapshot's total is the number of results in the
   histogram it read or one more, its errors exceed its total by at most one, and
   both totals are nondecreasing from snapshot to snapshot.
   */
  lemma SnapshotDrift(s: State)
    requires Reachable(s)
    ensures forall i :: 0 <= i < |s.snapshots| ==> var d := s.snapshots[i];
      |d.hist| <= d.total <= |d.hist| + 1 && 0 <= d.errors <= d.total + 1
    ensures forall i, j :: 0 <= i < j < |s.snapshots| ==>
      s.snapshots[i].total <= s.snapshots[j].total && s.snapshots[i].errors <= s.snapshots[j].errors
  {
    ReachableInv(s);
    assert forall i :: 0 <= i < |s.snapshots| ==> Accurate(s.snapshots[i]);
    assert forall i, j :: 0 <= i < j < |s.snapshots| ==>
      NoLater(s.snapshots[i], s.snapshots[j].total, s.snapshots[j].errors);
  }

  /** Every recorded latency is at least one microsecond. */
  predicate Positive(h: seq<int>) {
    forall i :: 0 <= i < |h| ==> h[i] >= 1
  }

  ghost predicate SnapshotsPositive(s: State) {
    && (forall i :: 0 <= i < |s.snapshots| ==> Positive(s.snapshots[i].hist))
    && (s.snap.Taking? ==> Positive(s.snap.draft.hist))
  }

  lemma StepKeepsPositive(s: State, e: Event)
    requires Counted(s) && SnapshotsPositive(s) && Enabled(s, e)
    ensures SnapshotsPositive(Apply(s, e))
  {
    assert Positive(s.c.histogram);
  }

  lemma {:induction false} RunKeepsPositive(es: seq<Event>)
    requires Exec(INIT, es).Some?
    ensures SnapshotsPositive(Exec(INIT, es).value)
  {
    if es != [] {
      RunKeepsInv(es[..|es| - 1]);
      RunKeepsPositive(es[..|es| - 1]);
      StepKeepsPositive(Exec(INIT, es[..|es| - 1]).value, es[|es| - 1]);
    }
  }

  /** What a snapshot shows is its samples, all positive, and at most one request more. */
  predicate Credible(d: Snapshot) {
    |d.hist| <= d.total <= |d.hist| + 1 && Positive(d.hist)
  }

  lemma SnapshotsCredible(s: State, i: nat)
    requires Reachable(s) && i < |s.snapshots|
    ensures Credible(s.snapshots[i])
  {
    SnapshotDrift(s);
    var es :| Exec(INIT, es) == Some(s);
    RunKeepsPositive(es);
  }

  /** Once the recorder is done, every counter is exact. */
  lemma QuiescentCountersExact(s: State)
    requires Reachable(s) && s.rec.Idle?
    ensures s.c.totalReqs == |s.c.histogram| == |s.done| && s.c.histogram == AllMicros(s.done)
    ensures s.c.totalErrors == Failures(s.done) <= s.c.totalReqs
    ensures s.c.totalBytes == Bytes(s.done)
  {
    ReachableInv(s);
  }

  /** If every snapshot's window is at most m, n snapshots swap out at most n times m. */
  lemma {:induction false} WindowsBounded(ss: seq<Snapshot>, m: real)
    requires forall i :: 0 <= i < |ss| ==> ss[i].window as real <= m
    ensures Windows(ss) as real <= Times(|ss|, m)
  {
    if ss != [] {
      WindowsBounded(ss[..|ss| - 1], m);
    }
  }

  lemma QuiescentWindow(s: State)
    requires Windowed(s) && s.rec.Idle? && s.snap.Resting?
    ensures Windows(s.snapshots) + s.c.windowReqs == |s.done| && s.c.maxRPS == Peak(s.snapshots)
  {
  }

  lemma QuiescentPeak(s: State)
    requires SnapshotsOk(s) && s.c.maxRPS == Peak(s.snapshots)
    ensures Windows(s.snapshots) as real <= Times(|s.snapshots|, s.c.maxRPS)
  {
    forall i | 0 <= i < |s.snapshots|
      ensures s.snapshots[i].window as real <= s.c.maxRPS
    {
      assert Accurate(s.snapshots[i]);
    }
    WindowsBounded(s.snapshots, s.c.maxRPS);
  }

  /**
   When both goroutines rest, the windows swapped out by all snapshots and the
   leftover window add up to the total, and the peak rate is the exact maximum of
   the snapshot rates, so the total is at most snapshots times peak plus leftover.
   */
  lemma WindowConservation(s: State)
    requires Reachable(s) && s.rec.Idle? && s.snap.Resting?
    ensures Windows(s.snapshots) + s.c.windowReqs == s.c.totalReqs
    ensures s.c.maxRPS == Peak(s.snapshots)
    ensures s.c.totalReqs as real <= Times(|s.snapshots|, s.c.maxRPS) + s.c.windowReqs as real
  {
    ReachableInv(s);
    QuiescentWindow(s);
    QuiescentPeak(s);
  }

  // ----- a single caller -----

  /** The counters after one complete Record. */
  function Recorded(c: Counters, r: RequestResult): Counters {
    Counters(c.totalReqs + 1, c.totalErrors + (if r.failed then 1 else 0), c.totalBytes + r.bytesIn,
             c.windowReqs + 1, c.lastRPS, c.maxRPS, c.histogram + [Micros(r)])
  }

  /** The counters after one complete Snapshot taken `clock` seconds after the start. */
  function Snapped(c: Counters, clock: real): Counters {
    var rps := Rate(c.windowReqs, c.totalReqs, clock);
    c.(windowReqs := 0, lastRPS := rps, maxRPS := if rps > c.maxRPS then rps else c.maxRPS)
  }

  /** The snapshot a caller gets when nothing interferes. */
  function SnapshotOf(c: Counters, active: int, totalVUsers: int, clock: real): Snapshot {
    Snapshot(active, totalVUsers, clock, c.windowReqs, Rate(c.windowReqs, c.totalReqs, clock), c.histogram,
             Ratio(c.totalErrors, c.totalReqs), c.totalReqs, c.totalErrors, c.totalBytes)
  }

  /** n further steps of one goroutine. */
  function Steps(s: State, e: Event, n: nat): Option<State>
    decreases n
  {
    if n == 0 then Some(s)
    else if Enabled(s, e) then Steps(Apply(s, e), e, n - 1)
    else None
  }

  /** Record's eight atomic operations, run without interference, have its sequential effect. */
  lemma RecordAlone(s: State, r: RequestResult)
    requires s.rec.Idle? && s.lock.Free? && Trackable(r)
    ensures Steps(Apply(s, BeginRecord(r)), RecordStep, 7)
         == Some(s.(c := Recorded(s.c, r), done := s.done + [r]))
  {
    var s0 := Apply(s, BeginRecord(r));
    var s1 := Apply(s0, RecordStep);
    var s2 := Apply(s1, RecordStep);
    var s3 := Apply(s2, RecordStep);
    var s4 := Apply(s3, RecordStep);
    var s5 := Apply(s4, RecordStep);
    var s6 := Apply(s5, RecordStep);
    assert Steps(s6, RecordStep, 1) == Some(Apply(s6, RecordStep));
    assert Steps(s4, RecordStep, 3) == Steps(s6, RecordStep, 1);
    assert Steps(s2, RecordStep, 5) == Steps(s4, RecordStep, 3);
  }

  /** Snapshot's nine operations, run without interference, have its sequential effect. */
  lemma SnapshotAlone(s: State, active: int, totalVUsers: int, clock: real)
    requires s.snap.Resting? && s.lock.Free? && clock >= 0.0
    ensures Steps(Apply(s, CallSnapshot(active, totalVUsers)), SnapshotStep(clock), 9)
         == Some(s.(c := Snapped(s.c, clock),
                    snapshots := s.snapshots + [SnapshotOf(s.c, active, totalVUsers, clock)]))
  {
    var e := SnapshotStep(clock);
    var s0 := Apply(s, CallSnapshot(active, totalVUsers));
    var s1 := Apply(s0, e);
    var s2 := Apply(s1, e);
    var s3 := Apply(s2, e);
    var s4 := Apply(s3, e);
    var s5 := Apply(s4, e);
    var s6 := Apply(s5, e);
    var s7 := Apply(s6, e);
    var s8 := Apply(s7, e);
    assert Steps(s8, e, 1) == Some(Apply(s8, e));
    assert Steps(s6, e, 3) == Steps(s8, e, 1);
    assert Steps(s4, e, 5) == Steps(s6, e, 3);
    assert Steps(s2, e, 7) == Steps(s4, e, 5);
  }

  lemma {:induction false} LeadsSteps(s: State, t: State, e: Event, n: nat)
    requires Leads(s, t) && Steps(t, e, n).Some?
    ensures Leads(s, Steps(t, e, n).value)
    decreases n
  {
    if n > 0 {
      LeadsStep(s, t, e);
      LeadsSteps(s, Apply(t, e), e, n - 1);
    }
  }

  // ----- theorems: how far errors can run ahead -----

  /** A snapshot called in a quiet state, as far as the load of the total. */
  function TotalLoaded(t: State): State {
    t.(lock := BySnapshot, snap := Taking(LoadErrors, BlankDraft(1, 1).(total := t.c.totalReqs)))
  }

  lemma LoadTotalNext(s: State, t: State)
    requires Leads(s, t) && t.snap.Resting? && t.lock.Free?
    ensures Leads(s, TotalLoaded(t))
  {
    var e := SnapshotStep(0.0);
    LeadsStep(s, t, CallSnapshot(1, 1));
    var t1 := Apply(t, CallSnapshot(1, 1));
    assert Steps(t1, e, 3) == Some(TotalLoaded(t));
    LeadsSteps(s, t1, e, 3);
  }

  /** A record of r, as far as the bump of the errors. */
  function ErrorsBumped(t: State, r: RequestResult): State {
    t.(c := t.c.(totalReqs := t.c.totalReqs + 1, windowReqs := t.c.windowReqs + 1,
                 totalErrors := t.c.totalErrors + (if r.failed then 1 else 0)),
       rec := At(BumpBytes, r))
  }

  lemma BumpErrorsNext(s: State, t: State, r: RequestResult)
    requires Leads(s, t) && t.rec.Idle? && Trackable(r)
    ensures Leads(s, ErrorsBumped(t, r))
  {
    LeadsStep(s, t, BeginRecord(r));
    var t1 := Apply(t, BeginRecord(r));
    assert Steps(t1, RecordStep, 3) == Some(ErrorsBumped(t, r));
    LeadsSteps(s, t1, RecordStep, 3);
  }

  lemma LoadErrorsNext(s: State, t: State) returns (u: State)
    requires Leads(s, t) && t.snap.Taking? && t.snap.op.LoadErrors?
    ensures Leads(s, u) && u.snapshots == t.snapshots
    ensures u.snap.Taking? && u.snap.op.LoadBytes?
    ensures u.snap.draft.total == t.snap.draft.total && u.snap.draft.errors == t.c.totalErrors
  {
    var e := SnapshotStep(0.0);
    u := Apply(Apply(Apply(t, e), e), e);
    assert Steps(t, e, 3) == Some(u);
    LeadsSteps(s, t, e, 3);
  }

  lemma AppendNext(s: State, t: State) returns (u: State)
    requires Leads(s, t) && t.snap.Taking? && t.snap.op.LoadBytes?
    ensures Leads(s, u) && |u.snapshots| == |t.snapshots| + 1
    ensures var d, draft := u.snapshots[|t.snapshots|], t.snap.draft;
      d.total == draft.total && d.errors == draft.errors && d.errorRate == Ratio(draft.errors, draft.total)
  {
    var e := SnapshotStep(0.0);
    u := Apply(Apply(Apply(t, e), e), e);
    assert Steps(t, e, 3) == Some(u);
    LeadsSteps(s, t, e, 3);
  }

  /** From a quiet state, a failed request fits between the loads of total and errors. */
  lemma FailureBetweenLoads(s: State, t: State, r: RequestResult) returns (u: State)
    requires Leads(s, t) && t.rec.Idle? && t.snap.Resting? && t.lock.Free? && Trackable(r) && r.failed
    ensures Leads(s, u) && |u.snapshots| == |t.snapshots| + 1
    ensures var d := u.snapshots[|t.snapshots|];
      && d.total == t.c.totalReqs && d.errors == t.c.totalErrors + 1
      && d.errorRate == Ratio(t.c.totalErrors + 1, t.c.totalReqs)
  {
    LoadTotalNext(s, t);
    BumpErrorsNext(s, TotalLoaded(t), r);
    u := LoadErrorsNext(s, ErrorsBumped(TotalLoaded(t), r));
    u := AppendNext(s, u);
  }

  /** Some result has been a success, and no snapshot from the n-th on shows more errors than requests. */
  ghost predicate Covered(s: State, n: nat) {
    && Failures(s.done) < |s.done|
    && (forall i :: n <= i < |s.snapshots| ==> s.snapshots[i].errors <= s.snapshots[i].total)
    && (s.snap.Taking? && s.snap.op !in {WantLock, ReadClock, LoadTotal, LoadErrors} ==>
          s.snap.draft.errors <= s.snap.draft.total)
  }

  lemma RecordKeepsCovered(s: State, n: nat)
    requires Covered(s, n) && Enabled(s, RecordStep)
    ensures Covered(Apply(s, RecordStep), n)
  {
    StoredCounts(s.done, s.rec.r);
  }

  /** A stored success makes up for the record in flight. */
  lemma SnapshotKeepsCovered(s: State, clock: real, n: nat)
    requires Counted(s) && DraftOk(s) && Covered(s, n) && Enabled(s, SnapshotStep(clock))
    ensures Covered(Apply(s, SnapshotStep(clock)), n)
  {
  }

  lemma {:induction false} RunKeepsCovered(s: State, es: seq<Event>, n: nat)
    requires Inv(s) && Covered(s, n) && Exec(s, es).Some?
    ensures Inv(Exec(s, es).value) && Covered(Exec(s, es).value, n)
  {
    if es != [] {
      var u, e := Exec(s, es[..|es| - 1]).value, es[|es| - 1];
      RunKeepsCovered(s, es[..|es| - 1], n);
      StepKeepsInv(u, e);
      match e
      case BeginRecord(_) =>
      case RecordStep => RecordKeepsCovered(u, n);
      case CallSnapshot(_, _) =>
      case SnapshotStep(clock) => SnapshotKeepsCovered(u, clock, n);
    }
  }

  /** Snapshot i shows more errors than requests. */
  predicate Overshoots(s: State, i: nat) {
    i < |s.snapshots| && s.snapshots[i].errors > s.snapshots[i].total
  }

  lemma NeverOvershoots(s: State, t: State, i: nat)
    requires Inv(s) && s.snap.Resting? && Failures(s.done) < |s.done| && Leads(s, t) && |s.snapshots| <= i
    ensures !Overshoots(t, i)
  {
    var es :| Exec(s, es) == Some(t);
    RunKeepsCovered(s, es, |s.snapshots|);
  }

  /**
   With both goroutines at rest, some later snapshot can show more errors than requests exactly
   when every request so far has failed (or there was none), and then the very next one can.
   Requests recorded before or during that snapshot do not matter: one success rules an
   overshoot out for good, and without any success one failure at the right time is enough.
   */
  lemma OvershootExactly(s: State)
    requires Reachable(s) && s.rec.Idle? && s.snap.Resting?
    ensures (exists t :: Leads(s, t) && Overshoots(t, |s.snapshots|)) <==> s.c.totalErrors == s.c.totalReqs
    ensures (exists t, i :: Leads(s, t) && |s.snapshots| <= i && Overshoots(t, i)) <==> s.c.totalErrors == s.c.totalReqs
  {
    ReachableInv(s);
    if s.c.totalErrors == s.c.totalReqs {
      LeadsNowhere(s);
      var t := FailureBetweenLoads(s, s, RequestResult(1000, 0, true));
      assert Leads(s, t) && Overshoots(t, |s.snapshots|);
    } else {
      forall t, i | Leads(s, t) && |s.snapshots| <= i
        ensures !Overshoots(t, i)
      {
        NeverOvershoots(s, t, i);
      }
    }
  }

  lemma OneFailureReachable(r: RequestResult)
    requires Trackable(r)
    ensures Reachable(INIT.(c := Recorded(ZEROED, r), done := [r]))
  {
    LeadsNowhere(INIT);
    LeadsStep(INIT, INIT, BeginRecord(r));
    RecordAlone(INIT, r);
    assert INIT.done + [r] == [r];
    LeadsSteps(INIT, Apply(INIT, BeginRecord(r)), RecordStep, 7);
  }

  /**
   The drift bounds are tight: one stored failure and a second one between the loads of
   total and errors give two errors out of one request, an error rate of 200 percent.
   */
  lemma ErrorRateCanExceedOne() returns (s: State)
    ensures Reachable(s) && |s.snapshots| == 1
    ensures s.snapshots[0].total == 1 && s.snapshots[0].errors == 2 && s.snapshots[0].errorRate == 2.0
  {
    var r := RequestResult(1000, 0, true);
    OneFailureReachable(r);
    s := FailureBetweenLoads(INIT, INIT.(c := Recorded(ZEROED, r), done := [r]), r);
  }

  datatype TestResult = TestResult(
    totalRequests: int, successCount: int, errorCount: int, errorRate: real,
    avgUs: int, p50Us: int, p95Us: int, p99Us: int, maxUs: int, minUs: int,
    avgRPS: real, maxRPS: real, snapshots: seq<Snapshot>)

  /** Requests per second of the whole run. */
  function Average(total: int, seconds: real): real {
    if seconds > 0.0 then total as real / seconds else 0.0
  }

  function ResultOf(c: Counters, seconds: real, snapshots: seq<Snapshot>): TestResult {
    TestResult(
      c.totalReqs, c.totalReqs - c.totalErrors, c.totalErrors, Ratio(c.totalErrors, c.totalReqs),
      Trunc(Mean(c.histogram)), Percentile(c.histogram, 50), Percentile(c.histogram, 95),
      Percentile(c.histogram, 99), Percentile(c.histogram, 100), Percentile(c.histogram, 0),
      Average(c.totalReqs, seconds), c.maxRPS, snapshots)
  }

  lemma RatioMeans(errors: int, total: nat)
    requires total == 0 ==> errors == 0
    ensures Times(total, Ratio(errors, total)) == errors as real
  {
    if total > 0 {
      QuotientIsInverse(total, errors as real);
    }
  }

  /** The average rate times the seconds is the total. */
  lemma AverageMeans(total: int, seconds: real)
    ensures if seconds > 0.0 then Average(total, seconds) * seconds == total as real else Average(total, seconds) == 0.0
  {
  }

  /** Field by field, what a result says about the latencies h. */
  ghost predicate Describes(r: TestResult, h: seq<int>) {
    && r.avgUs == Trunc(Mean(h))
    && (h != [] ==>
          && IsPercentile(h, 50, r.p50Us) && IsPercentile(h, 95, r.p95Us) && IsPercentile(h, 99, r.p99Us)
          && IsPercentile(h, 100, r.maxUs) && IsPercentile(h, 0, r.minUs))
    && (h == [] ==> r.p50Us == r.p95Us == r.p99Us == r.maxUs == r.minUs == 0)
  }

  /** The latencies of a result are those of the histogram. */
  lemma ResultDescribes(c: Counters, seconds: real, snapshots: seq<Snapshot>)
    ensures Describes(ResultOf(c, seconds, snapshots), c.histogram)
  {
  }

  /** A result's error rate times its requests is its errors. */
  lemma ResultRates(c: Counters, seconds: real, snapshots: seq<Snapshot>)
    requires 0 <= c.totalErrors <= c.totalReqs
    ensures var r := ResultOf(c, seconds, snapshots);
      && r.totalRequests == c.totalReqs && r.errorCount == c.totalErrors
      && Times(r.totalRequests, r.errorRate) == r.errorCount as real && (r.totalRequests == 0 ==> r.errorRate == 0.0)
      && r.avgRPS == Average(c.totalReqs, seconds) && r.maxRPS == c.maxRPS && r.snapshots == snapshots
  {
    RatioMeans(c.totalErrors, c.totalReqs);
  }

  /** The outcomes of a result add up to its requests, and its latencies are ordered. */
  predicate Coherent(r: TestResult) {
    && r.successCount >= 0 && r.errorCount >= 0 && r.successCount + r.errorCount == r.totalRequests
    && r.minUs <= r.p50Us <= r.p95Us <= r.p99Us <= r.maxUs
    && 0.0 <= r.errorRate <= 1.0
  }

  lemma RatioWithin(errors: int, total: int)
    requires 0 <= errors <= total
    ensures 0.0 <= Ratio(errors, total) <= 1.0
  {
  }

  /** With at most as many errors as requests, as after every run, the result is coherent. */
  lemma ResultCoherent(c: Counters, seconds: real, snapshots: seq<Snapshot>)
    requires 0 <= c.totalErrors <= c.totalReqs
    ensures Coherent(ResultOf(c, seconds, snapshots))
  {
    RatioWithin(c.totalErrors, c.totalReqs);
    PercentileMonotone(c.histogram, 0, 50);
    PercentileMonotone(c.histogram, 50, 95);
    PercentileMonotone(c.histogram, 95, 99);
    PercentileMonotone(c.histogram, 99, 100);
  }

  class Collector {
    var histogram: seq<int>
    var totalReqs: int
    var totalErrors: int
    var totalBytes: int
    var windowReqs: int
    var lastRPS: real
    var maxRPS: real

    ghost function View(): Counters
      reads this
    {
      Counters(totalReqs, totalErrors, totalBytes, windowReqs, lastRPS, maxRPS, histogram)
    }

    constructor ()
      ensures View() == ZEROED
    {
      histogram := [];
      totalReqs, totalErrors, totalBytes, windowReqs := 0, 0, 0, 0;
      lastRPS, maxRPS := 0.0, 0.0;
    }

    method Record(r: RequestResult)
      modifies this
      ensures View() == if Trackable(r) then Recorded(old(View()), r)
                        else Recorded(old(View()), r).(histogram := old(histogram))
    {
      totalReqs := totalReqs + 1;
      windowReqs := windowReqs + 1;
      if r.failed {
        totalErrors := totalErrors + 1;
      }
      totalBytes := totalBytes + r.bytesIn;
      var latencyUs := r.latencyNs / 1000;
      if latencyUs < 1 {
        latencyUs := 1;
      }
      if latencyUs <= MAX_TRACKABLE_US {
        histogram := histogram + [latencyUs];
      }
    }

    /** `clock` is the number of seconds since the collector was created. */
    method TakeSnapshot(active: int, totalVUsers: int, clock: real) returns (snap: Snapshot)
      modifies this
      ensures View() == Snapped(old(View()), clock)
      ensures snap == SnapshotOf(old(View()), active, totalVUsers, clock)
    {
      var total, errors := totalReqs, totalErrors;
      var window := windowReqs;
      windowReqs := 0;
      var rps := window as real;
      if rps == 0.0 && clock > 0.0 {
        rps := total as real / clock;
      }
      lastRPS := rps;
      if rps > maxRPS {
        maxRPS := rps;
      }
      var errorRate := 0.0;
      if total > 0 {
        errorRate := errors as real / total as real;
      }
      snap := Snapshot(active, totalVUsers, clock, window, rps, histogram, errorRate, total, errors, totalBytes);
    }

    method Result(seconds: real, snapshots: seq<Snapshot>) returns (res: TestResult)
      ensures res == ResultOf(View(), seconds, snapshots)
      ensures 0 <= totalErrors <= totalReqs ==> Coherent(res)
    {
      if 0 <= totalErrors <= totalReqs {
        ResultCoherent(View(), seconds, snapshots);
      }
      var errorRate, avgRPS := 0.0, 0.0;
      if totalReqs > 0 {
        errorRate := totalErrors as real / totalReqs as real;
      }
      if seconds > 0.0 {
        avgRPS := totalReqs as real / seconds;
      }
      res := TestResult(
        totalReqs, totalReqs - totalErrors, totalErrors, errorRate,
        Trunc(Mean(histogram)), Percentile(histogram, 50), Percentile(histogram, 95),
        Percentile(histogram, 99), Percentile(histogram, 100), Percentile(histogram, 0),
        avgRPS, maxRPS, snapshots);
    }
  }
}
