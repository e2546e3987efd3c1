/**
 The agent's execution bookkeeping.  Every start command runs ExecuteTest in its own
 goroutine, so executions may overlap; a single activeCancel and activeRunID are set when
 one begins and cleared when one ends.
 */
module Agent {
  import opened Wrappers

  type RunId = string

  /** Parsing: the scenario is being parsed.  Ended: the deferred cleanup has run under the lock. */
  datatype Phase = Parsing | Executing | Ended | Finished

  /** One call of ExecuteTest and whether its context has been cancelled. */
  datatype Execution = Execution(run: RunId, phase: Phase, cancelled: bool)

  /** activeCancel is the execution whose context the stored cancel function cancels. */
  datatype Fields = Fields(status: string, activeRunID: RunId, activeCancel: Option<nat>)

  datatype State = State(f: Fields, execs: seq<Execution>)

  const INIT := State(Fields("idle", "", None), [])

  datatype Event =
    | Receive(run: RunId)        // a start command is polled
    | FailParse(k: nat)
    | Begin(k: nat)              // ExecuteTest sets the fields
    | End(k: nat)                // its deferred function clears them
    | CancelOwn(k: nat)          // ... and then cancels its own context
    | StopTest(run: RunId)
    | Shutdown                   // the agent's main loop ends

  predicate At(s: State, k: nat, phase: Phase) {
    k < |s.execs| && s.execs[k].phase == phase
  }

  predicate Enabled(s: State, e: Event) {
    match e
    case Receive(_) => true
    case FailParse(k) => At(s, k, Parsing)
    case Begin(k) => At(s, k, Parsing)
    case End(k) => At(s, k, Executing)
    case CancelOwn(k) => At(s, k, Ended)
    case StopTest(_) => true
    case Shutdown => true
  }

  function SetPhase(s: State, k: nat, phase: Phase): State
    requires k < |s.execs|
  {
    s.(execs := s.execs[k := s.execs[k].(phase := phase)])
  }

  function Cancelled(execs: seq<Execution>, k: Option<nat>): seq<Execution> {
    if k.Some? && k.value < |execs| then execs[k.value := execs[k.value].(cancelled := true)] else execs
  }

  /** StopTest's answer. */
  function Stops(f: Fields, run: RunId): bool {
    f.activeRunID == run && f.activeCancel.Some?
  }

  function Apply(s: State, e: Event): State
    requires Enabled(s, e)
  {
    match e
    case Receive(run) => s.(execs := s.execs + [Execution(run, Parsing, false)])
    case FailParse(k) => SetPhase(s, k, Finished)
    case Begin(k) => SetPhase(s, k, Executing).(f := Fields("running", s.execs[k].run, Some(k)))
    case End(k) => SetPhase(s, k, Ended).(f := Fields("idle", "", None))
    case CancelOwn(k) => s.(execs := s.execs[k := s.execs[k].(phase := Finished, cancelled := true)])
    case StopTest(run) => if Stops(s.f, run) then s.(execs := Cancelled(s.execs, s.f.activeCancel)) else s
    case Shutdown => s.(execs := Cancelled(s.execs, s.f.activeCancel))
  }

  function Exec(s: State, es: seq<Event>): Option<State> {
    if es == [] then Some(s)
    else
      match Exec(s, es[..|es| - 1])
      case None => None
      case Some(u) => if Enabled(u, es[|es| - 1]) then Some(Apply(u, es[|es| - 1])) else None
  }

  ghost predicate Reachable(s: State) {
    exists es :: Exec(INIT, es) == Some(s)
  }

  /** activeCancel, when set, belongs to a running execution of activeRunID; status mirrors it. */
  ghost predicate Inv(s: State) {
    match s.f.activeCancel
    case None => s.f.activeRunID == "" && s.f.status == "idle"
    case Some(k) => At(s, k, Executing) && s.execs[k].run == s.f.activeRunID && s.f.status == "running"
  }

  lemma {:induction false} RunKeepsInv(es: seq<Event>)
    requires Exec(INIT, es).Some?
    ensures Inv(Exec(INIT, es).value)
  {
    if es != [] {
      RunKeepsInv(es[..|es| - 1]);
    }
  }

  // ----- what the history of begins and ends says -----

  /** The execution begun last, unless some execution ended after it. */
  function Owner(es: seq<Event>): Option<nat> {
    if es == [] then None
    else
      match es[|es| - 1]
      case Begin(k) => Some(k)
      case End(_) => None
      case _ => Owner(es[..|es| - 1])
  }

  lemma {:induction false} ActiveIsOwner(es: seq<Event>)
    requires Exec(INIT, es).Some?
    ensures Exec(INIT, es).value.f.activeCancel == Owner(es)
  {
    if es != [] {
      ActiveIsOwner(es[..|es| - 1]);
    }
  }

  // ----- theorems -----

  /**
   For any number of overlapping executions: StopTest(run) answers true exactly when the
   execution begun last, with no end after it, is one of that run; it then cancels that one,
   which is still executing, and touches no other execution.
   */
  lemma StopTargets(es: seq<Event>, run: RunId)
    requires Exec(INIT, es).Some?
    ensures var s := Exec(INIT, es).value; var t := Apply(s, StopTest(run));
      && (Stops(s.f, run) <==> Owner(es).Some? && Owner(es).value < |s.execs| && s.execs[Owner(es).value].run == run)
      && (Stops(s.f, run) ==> At(t, Owner(es).value, Executing) && t.execs[Owner(es).value].cancelled)
      && |t.execs| == |s.execs|
      && forall k :: 0 <= k < |s.execs| && t.execs[k] != s.execs[k] ==> Stops(s.f, run) && Owner(es) == Some(k)
  {
    RunKeepsInv(es);
    ActiveIsOwner(es);
  }

  /**
   An executing test is cancelled after a stop of its run exactly when it was cancelled already
   or is the one begun last with no end after it; every other one is out of reach.
   */
  lemma HiddenExactly(es: seq<Event>, k: nat)
    requires Exec(INIT, es).Some? && At(Exec(INIT, es).value, k, Executing)
    ensures var s := Exec(INIT, es).value; var t := Apply(s, StopTest(s.execs[k].run));
      k < |t.execs| && (t.execs[k].cancelled <==> s.execs[k].cancelled || Owner(es) == Some(k))
  {
    RunKeepsInv(es);
    ActiveIsOwner(es);
    StopTargets(es, Exec(INIT, es).value.execs[k].run);
  }

  /** Event i cancels execution k of the run: its own cleanup, or a stop or shutdown that finds it active. */
  predicate Cancels(es: seq<Event>, i: int, k: nat, run: RunId) {
    && 0 <= i < |es|
    && match es[i]
       case CancelOwn(j) => j == k
       case StopTest(r) => r == run && Owner(es[..i]) == Some(k)
       case Shutdown => Owner(es[..i]) == Some(k)
       case _ => false
  }

  lemma CancelsSnoc(es: seq<Event>, before: seq<Event>, k: nat, run: RunId)
    requires es != [] && before == es[..|es| - 1]
    ensures (exists i :: Cancels(es, i, k, run))
       <==> (exists i :: Cancels(before, i, k, run)) || Cancels(es, |es| - 1, k, run)
  {
    forall i | 0 <= i < |before|
      ensures Cancels(es, i, k, run) <==> Cancels(before, i, k, run)
    {
      assert es[..i] == before[..i];
    }
  }

  lemma StopCancels(s: State, e: Event, k: nat)
    requires Inv(s) && k < |s.execs| && (e.StopTest? || e.Shutdown?)
    ensures var t := Apply(s, e);
      && k < |t.execs| && t.execs[k].run == s.execs[k].run
      && (t.execs[k].cancelled <==>
            s.execs[k].cancelled || (s.f.activeCancel == Some(k) && (e.StopTest? ==> e.run == s.execs[k].run)))
  {
  }

  lemma OthersCancel(s: State, e: Event, k: nat)
    requires Enabled(s, e) && k < |s.execs| && !e.StopTest? && !e.Shutdown?
    ensures var t := Apply(s, e);
      && k < |t.execs| && t.execs[k].run == s.execs[k].run
      && (t.execs[k].cancelled <==> s.execs[k].cancelled || e == CancelOwn(k))
  {
  }

  /** What one event does to the contexts that exist. */
  lemma StepCancels(es: seq<Event>, s: State, e: Event, k: nat)
    requires Exec(INIT, es) == Some(s) && Enabled(s, e) && k < |s.execs|
    ensures var t := Apply(s, e);
      && k < |t.execs| && t.execs[k].run == s.execs[k].run
      && (t.execs[k].cancelled <==> s.execs[k].cancelled || Cancels(es + [e], |es|, k, s.execs[k].run))
  {
    assert (es + [e])[..|es|] == es;
    if e.StopTest? || e.Shutdown? {
      RunKeepsInv(es);
      ActiveIsOwner(es);
      StopCancels(s, e, k);
    } else {
      OthersCancel(s, e, k);
    }
  }

  /** Nothing has cancelled an execution before it is received. */
  lemma {:induction false} NotYetCancelled(es: seq<Event>, i: int, k: nat, run: RunId)
    requires Exec(INIT, es).Some? && |Exec(INIT, es).value.execs| <= k
    ensures !Cancels(es, i, k, run)
  {
    if es != [] {
      var before, e := es[..|es| - 1], es[|es| - 1];
      NotYetCancelled(before, i, k, run);
      RunKeepsInv(before);
      ActiveIsOwner(before);
      assert 0 <= i < |before| ==> before[..i] == es[..i];
    }
  }

  /**
   An execution's context is cancelled exactly when its own cleanup ran, or a stop of its run or
   the agent's shutdown came while it was the one begun last with no end after it.
   */
  lemma {:induction false} CancelledExactly(es: seq<Event>, k: nat)
    requires Exec(INIT, es).Some? && k < |Exec(INIT, es).value.execs|
    ensures var x := Exec(INIT, es).value.execs[k];
      x.cancelled <==> exists i :: Cancels(es, i, k, x.run)
  {
    var before, e := es[..|es| - 1], es[|es| - 1];
    var s := Exec(INIT, before).value;
    var run := Exec(INIT, es).value.execs[k].run;
    assert before + [e] == es;
    CancelsSnoc(es, before, k, run);
    if k < |s.execs| {
      CancelledExactly(before, k);
      StepCancels(before, s, e, k);
    } else {
      forall i
        ensures !Cancels(before, i, k, run)
      {
        NotYetCancelled(before, i, k, run);
      }
    }
  }

  /** The status is "running" exactly while the last begin has no end after it. */
  lemma StatusExactly(es: seq<Event>)
    requires Exec(INIT, es).Some?
    ensures Exec(INIT, es).value.f.status == if Owner(es).Some? then "running" else "idle"
  {
    RunKeepsInv(es);
    ActiveIsOwner(es);
  }

  /** No execution is cancelled, or the one stops cancel, while its scenario is being parsed. */
  ghost predicate ParsingUntouched(s: State) {
    && Inv(s)
    && forall k :: 0 <= k < |s.execs| && s.execs[k].phase.Parsing? ==> !s.execs[k].cancelled
  }

  lemma {:induction false} RunKeepsParsing(es: seq<Event>)
    requires Exec(INIT, es).Some?
    ensures ParsingUntouched(Exec(INIT, es).value)
  {
    RunKeepsInv(es);
    if es != [] {
      RunKeepsParsing(es[..|es| - 1]);
    }
  }

  /** A scenario that does not parse: its execution never begins, ends or gets cancelled, whatever follows. */
  lemma {:induction false} FailedParseIsFinal(s: State, k: nat, es: seq<Event>)
    requires Reachable(s) && Enabled(s, FailParse(k)) && Exec(Apply(s, FailParse(k)), es).Some?
    ensures var t := Exec(Apply(s, FailParse(k)), es).value;
      && Inv(t) && k < |t.execs| && t.execs[k] == Execution(s.execs[k].run, Finished, false)
  {
    if es == [] {
      var fs :| Exec(INIT, fs) == Some(s);
      RunKeepsParsing(fs);
    } else {
      FailedParseIsFinal(s, k, es[..|es| - 1]);
      FinishedStays(Exec(Apply(s, FailParse(k)), es[..|es| - 1]).value, es[|es| - 1], k);
    }
  }

  lemma FinishedStays(s: State, e: Event, k: nat)
    requires Inv(s) && Enabled(s, e) && At(s, k, Finished)
    ensures Inv(Apply(s, e)) && k < |Apply(s, e).execs| && Apply(s, e).execs[k] == s.execs[k]
  {
  }

  lemma Extend(es: seq<Event>, s: State, e: Event) returns (fs: seq<Event>, t: State)
    requires Exec(INIT, es) == Some(s) && Enabled(s, e)
    ensures fs == es + [e] && t == Apply(s, e) && Exec(INIT, fs) == Some(t)
  {
    fs, t := es + [e], Apply(s, e);
    assert fs[..|es|] == es;
  }

  /** Two executions begun one after the other. */
  lemma TwoBegun(run: RunId, other: RunId) returns (es: seq<Event>, s: State)
    ensures Exec(INIT, es) == Some(s)
    ensures s.execs == [Execution(run, Executing, false), Execution(other, Executing, false)]
  {
    es, s := [], INIT;
    assert Exec(INIT, es) == Some(s);
    es, s := Extend(es, s, Receive(run));
    es, s := Extend(es, s, Receive(other));
    es, s := Extend(es, s, Begin(0));
    es, s := Extend(es, s, Begin(1));
  }

  /**
   The price of one slot: two overlapping executions of different runs, the second ended;
   the first is executing while the status is idle and no stop can reach it.
   */
  lemma OverlapHidesExecution(run: RunId, other: RunId) returns (es: seq<Event>)
    ensures Exec(INIT, es).Some?
    ensures var s := Exec(INIT, es).value;
      && At(s, 0, Executing) && s.execs[0].run == run && s.f.status == "idle" && !Stops(s.f, run)
  {
    var s;
    es, s := TwoBegun(run, other);
    es, s := Extend(es, s, End(1));
  }

  // ----- the object -----

  class Agent {
    var status: string
    var activeRunID: RunId
    var activeCancel: Option<nat>
    var execs: seq<Execution>   // the contexts of the executions

    ghost function View(): State
      reads this
    {
      State(Fields(status, activeRunID, activeCancel), execs)
    }

    constructor ()
      ensures View() == INIT
    {
      status, activeRunID, activeCancel, execs := "idle", "", None, [];
    }

    method BeginExecution(k: nat)
      requires Enabled(View(), Begin(k))
      modifies this
      ensures View() == Apply(old(View()), Begin(k))
    {
      status := "running";
      activeRunID := execs[k].run;
      activeCancel := Some(k);
      execs := execs[k := execs[k].(phase := Executing)];
    }

    method EndExecution(k: nat)
      requires Enabled(View(), End(k))
      modifies this
      ensures View() == Apply(old(View()), End(k))
    {
      status := "idle";
      activeCancel := None;
      activeRunID := "";
      execs := execs[k := execs[k].(phase := Ended)];
    }

    method Stop(run: RunId) returns (stopped: bool)
      modifies this
      ensures View() == Apply(old(View()), StopTest(run)) && stopped == Stops(old(View()).f, run)
    {
      if activeRunID == run && activeCancel.Some? {
        if activeCancel.value < |execs| {
          execs := execs[activeCancel.value := execs[activeCancel.value].(cancelled := true)];
        }
        return true;
      }
      return false;
    }
  }
}
