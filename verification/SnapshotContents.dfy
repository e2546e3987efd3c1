/**
 What a snapshot taken in the middle of recording shows: each of its fields is exact for some
 prefix of the results, the same one or one result longer.
 */
module SnapshotContents {
  import Arithmetic
  import opened Collector
  import opened Histogram
  import opened Wrappers

  /** The results whose recording has begun, in order. */
  function Begun(s: State): seq<RequestResult> {
    s.done + (if s.rec.At? && !s.rec.op.UnlockMu? then [s.rec.r] else [])
  }

  /** How many of the results failed. */
  function Fails(rs: seq<RequestResult>): int {
    Failures(rs)
  }

  /** x is the measure of the first n results begun, or of one more. */
  ghost predicate At(x: int, rs: seq<RequestResult>, n: nat, f: seq<RequestResult> -> int) {
    && n <= |rs|
    && (x == f(rs[..n]) || (n < |rs| && x == f(rs[..n + 1])))
  }

  /** The rate is the window, or the average since the start when the window is empty. */
  predicate RateMeans(d: Snapshot) {
    && (d.window > 0 ==> d.rps == d.window as real)
    && (d.window == 0 && d.elapsed > 0.0 ==> d.rps * d.elapsed == d.total as real)
    && (d.window == 0 && d.elapsed <= 0.0 ==> d.rps == 0.0)
  }

  ghost predicate Shows(d: Snapshot, rs: seq<RequestResult>) {
    && |d.hist| <= |rs| && d.hist == AllMicros(rs[..|d.hist|])
    && At(d.errors, rs, |d.hist|, Fails) && At(d.bytes, rs, |d.hist|, Bytes)
    && d.rps == Rate(d.window, d.total, d.elapsed)
  }

  ghost predicate DraftShows(s: State) {
    s.snap.Taking? ==>
      var d, op, rs := s.snap.draft, s.snap.op, Begun(s);
      && (op in {SwapWindow, ReadHist} ==> At(d.errors, rs, |s.done|, Fails))
      && (op.ReadHist? ==> d.rps == Rate(d.window, d.total, d.elapsed))
      && (op.LoadBytes? ==>
            && |d.hist| == |s.done| && d.hist == AllMicros(rs[..|s.done|])
            && At(d.errors, rs, |s.done|, Fails)
            && d.rps == Rate(d.window, d.total, d.elapsed))
      && (op in {ReleaseLock, Append} ==> Shows(d, rs))
  }

  ghost predicate AllShow(s: State) {
    && DraftShows(s)
    && forall i :: 0 <= i < |s.snapshots| ==> Shows(s.snapshots[i], Begun(s))
  }

  // ----- results only accumulate -----

  lemma AtGrows(x: int, rs: seq<RequestResult>, r: RequestResult, n: nat, f: seq<RequestResult> -> int)
    requires At(x, rs, n, f)
    ensures At(x, rs + [r], n, f)
  {
    assert (rs + [r])[..n] == rs[..n];
    if n < |rs| {
      assert (rs + [r])[..n + 1] == rs[..n + 1];
    }
  }

  lemma ShowsGrows(d: Snapshot, rs: seq<RequestResult>, r: RequestResult)
    requires Shows(d, rs)
    ensures Shows(d, rs + [r])
  {
    assert (rs + [r])[..|d.hist|] == rs[..|d.hist|];
    AtGrows(d.errors, rs, r, |d.hist|, Fails);
    AtGrows(d.bytes, rs, r, |d.hist|, Bytes);
  }

  lemma BeginShows(s: State, r: RequestResult)
    requires AllShow(s) && Enabled(s, BeginRecord(r))
    ensures AllShow(Apply(s, BeginRecord(r)))
  {
    var t := Apply(s, BeginRecord(r));
    assert Begun(t) == Begun(s) + [r] && Begun(s) == s.done;
    forall i | 0 <= i < |s.snapshots|
      ensures Shows(t.snapshots[i], Begun(t))
    {
      ShowsGrows(s.snapshots[i], Begun(s), r);
    }
    if s.snap.Taking? {
      var d, op := s.snap.draft, s.snap.op;
      if op in {SwapWindow, ReadHist, LoadBytes} {
        AtGrows(d.errors, Begun(s), r, |s.done|, Fails);
        assert Begun(t)[..|s.done|] == Begun(s)[..|s.done|];
      } else if op in {ReleaseLock, Append} {
        ShowsGrows(d, Begun(s), r);
      }
    }
  }

  /** Storing happens while no snapshot reads; the other operations change no result. */
  lemma RecordShows(s: State)
    requires Locked(s) && AllShow(s) && Enabled(s, RecordStep)
    ensures AllShow(Apply(s, RecordStep))
  {
    var t := Apply(s, RecordStep);
    assert Begun(t) == Begun(s);
  }

  // ----- the loads -----

  lemma BegunErrors(s: State)
    requires Counted(s)
    ensures At(s.c.totalErrors, Begun(s), |s.done|, Fails)
  {
    var rs := Begun(s);
    assert rs[..|s.done|] == s.done;
    if InFlight(s.rec, 2) == 1 {
      StoredCounts(s.done, s.rec.r);
      assert rs[..|s.done| + 1] == s.done + [s.rec.r];
    }
  }

  lemma BegunBytes(s: State)
    requires Counted(s)
    ensures At(s.c.totalBytes, Begun(s), |s.done|, Bytes)
  {
    var rs := Begun(s);
    assert rs[..|s.done|] == s.done;
    if InFlight(s.rec, 3) == 1 {
      StoredCounts(s.done, s.rec.r);
      assert rs[..|s.done| + 1] == s.done + [s.rec.r];
    }
  }

  lemma LoadShows(s: State, clock: real)
    requires Counted(s) && DraftShows(s) && Enabled(s, SnapshotStep(clock)) && !s.snap.op.Append?
    ensures DraftShows(Apply(s, SnapshotStep(clock)))
  {
    BegunErrors(s);
    BegunBytes(s);
    assert Begun(s)[..|s.done|] == s.done;
    assert Begun(Apply(s, SnapshotStep(clock))) == Begun(s);
  }

  lemma AppendShows(s: State, clock: real)
    requires AllShow(s) && Enabled(s, SnapshotStep(clock)) && s.snap.op.Append?
    ensures AllShow(Apply(s, SnapshotStep(clock)))
  {
    var t := Apply(s, SnapshotStep(clock));
    assert Begun(t) == Begun(s) && t.snapshots == s.snapshots + [s.snap.draft];
  }

  lemma SnapshotShows(s: State, clock: real)
    requires Counted(s) && AllShow(s) && Enabled(s, SnapshotStep(clock))
    ensures AllShow(Apply(s, SnapshotStep(clock)))
  {
    if s.snap.op.Append? {
      AppendShows(s, clock);
    } else {
      var t := Apply(s, SnapshotStep(clock));
      assert Begun(t) == Begun(s) && t.snapshots == s.snapshots;
      LoadShows(s, clock);
    }
  }

  lemma StepShows(s: State, e: Event)
    requires Counted(s) && Locked(s) && AllShow(s) && Enabled(s, e)
    ensures AllShow(Apply(s, e))
  {
    match e
    case BeginRecord(r) => BeginShows(s, r);
    case RecordStep => RecordShows(s);
    case CallSnapshot(_, _) => assert Begun(Apply(s, e)) == Begun(s);
    case SnapshotStep(clock) => SnapshotShows(s, clock);
  }

  lemma {:induction false} RunShows(es: seq<Event>)
    requires Exec(INIT, es).Some?
    ensures AllShow(Exec(INIT, es).value)
  {
    if es != [] {
      RunKeepsInv(es[..|es| - 1]);
      RunShows(es[..|es| - 1]);
      StepShows(Exec(INIT, es[..|es| - 1]).value, es[|es| - 1]);
    }
  }

  // ----- theorems -----

  /**
   In every interleaving, a snapshot's histogram holds exactly the latencies of some first n
   results in the order of recording, and its errors and bytes are those of the first n or n + 1.
   */
  lemma ContentsExact(s: State, i: nat)
    requires Reachable(s) && i < |s.snapshots|
    ensures var d, rs := s.snapshots[i], Begun(s); var n := |d.hist|;
      && n <= |rs| && d.hist == AllMicros(rs[..n])
      && At(d.errors, rs, n, Fails) && At(d.bytes, rs, n, Bytes)
  {
    var es :| Exec(INIT, es) == Some(s);
    RunShows(es);
    assert Shows(s.snapshots[i], Begun(s));
  }

  lemma RateIsMeant(d: Snapshot)
    requires d.window >= 0 && d.rps == Rate(d.window, d.total, d.elapsed)
    ensures RateMeans(d)
  {
  }

  /** Its rate is its window, or the average since the start when the window is empty. */
  lemma RateExact(s: State, i: nat)
    requires Reachable(s) && i < |s.snapshots|
    ensures s.snapshots[i].window >= 0 && RateMeans(s.snapshots[i])
  {
    var es :| Exec(INIT, es) == Some(s);
    RunShows(es);
    RunKeepsInv(es);
    assert Shows(s.snapshots[i], Begun(s)) && Accurate(s.snapshots[i]);
    RateIsMeant(s.snapshots[i]);
  }

  /** Its error rate times its total is its errors. */
  lemma ErrorRateExact(s: State, i: nat)
    requires Reachable(s) && i < |s.snapshots| && s.snapshots[i].total > 0
    ensures Arithmetic.Times(s.snapshots[i].total, s.snapshots[i].errorRate) == s.snapshots[i].errors as real
  {
    ReachableInv(s);
    assert Accurate(s.snapshots[i]);
    RatioMeans(s.snapshots[i].errors, s.snapshots[i].total);
  }

  // ----- the rate shown last -----

  function LastShown(ss: seq<Snapshot>): real {
    if ss == [] then 0.0 else ss[|ss| - 1].rps
  }

  ghost predicate LastKept(s: State) {
    s.c.lastRPS ==
      if s.snap.Taking? && s.snap.op in {ReadHist, LoadBytes, ReleaseLock, Append} then s.snap.draft.rps
      else LastShown(s.snapshots)
  }

  lemma StepKeepsLast(s: State, e: Event)
    requires LastKept(s) && Enabled(s, e)
    ensures LastKept(Apply(s, e))
  {
  }

  lemma {:induction false} RunKeepsLast(es: seq<Event>)
    requires Exec(INIT, es).Some?
    ensures LastKept(Exec(INIT, es).value)
  {
    if es != [] {
      RunKeepsLast(es[..|es| - 1]);
      StepKeepsLast(Exec(INIT, es[..|es| - 1]).value, es[|es| - 1]);
    }
  }

  /** Between snapshots, the last rate the collector keeps is that of its last snapshot. */
  lemma LastRateExact(s: State)
    requires Reachable(s) && s.snap.Resting?
    ensures s.c.lastRPS == LastShown(s.snapshots)
  {
    var es :| Exec(INIT, es) == Some(s);
    RunKeepsLast(es);
  }
}
