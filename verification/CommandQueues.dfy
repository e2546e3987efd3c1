/**
 The agent table under concurrent callers.  Registration, removal, heartbeats and health
 checks are critical sections; an enqueue or dequeue is two steps, the channel lookup under
 the read lock and the channel operation after releasing it.
 */
module CommandQueues {
  import opened Wrappers
  import opened AgentManager

  datatype Op = Put(cmd: Command) | Take

  /** A call in progress or finished; ch is None when the agent was unknown. */
  datatype Call = Call(agent: AgentId, op: Op, ch: Option<nat>, done: bool, ok: bool, got: Option<Command>)

  /** A finished channel operation. */
  datatype Entry = Entry(ch: nat, op: Op, ok: bool, got: Option<Command>)

  /** log is the history of channel operations in the order they took effect. */
  datatype State = State(t: Table, calls: seq<Call>, log: seq<Entry>)

  const INIT := State(EMPTY_TABLE, [], [])

  datatype Event =
    | Registering(info: AgentInfo, now: Time)
    | Removing(id: AgentId)
    | Beating(id: AgentId, status: Status, cpu: real, memory: real, active: int, now: Time)
    | SettingStatus(id: AgentId, status: Status)
    | HealthCheck(now: Time)
    | Calling(id: AgentId, op: Op)
    | Finishing(k: nat)

  predicate Enabled(s: State, e: Event) {
    e.Finishing? ==> e.k < |s.calls| && !s.calls[e.k].done && s.calls[e.k].ch.Some?
                     && s.calls[e.k].ch.value < |s.t.chans|
  }

  function NewCall(t: Table, id: AgentId, op: Op): Call {
    var ch := Fetch(t, id);
    Call(id, op, ch, ch.None?, false, None)
  }

  /** Table and outcome of a channel operation. */
  function Perform(t: Table, ch: nat, op: Op): (Table, bool, Option<Command>)
    requires ch < |t.chans|
  {
    match op
    case Put(cmd) => var (u, ok) := Offer(t, ch, cmd); (u, ok, None)
    case Take => var (u, got) := Poll(t, ch); (u, got.Some?, got)
  }

  function Apply(s: State, e: Event): State
    requires Enabled(s, e)
  {
    match e
    case Registering(info, now) => s.(t := Register(s.t, info, now))
    case Removing(id) => s.(t := Remove(s.t, id))
    case Beating(id, status, cpu, memory, active, now) =>
      s.(t := Heartbeat(s.t, id, status, cpu, memory, active, now))
    case SettingStatus(id, status) => s.(t := SetStatus(s.t, id, status))
    case HealthCheck(now) => s.(t := MarkOffline(s.t, now))
    case Calling(id, op) => s.(calls := s.calls + [NewCall(s.t, id, op)])
    case Finishing(k) =>
      var call := s.calls[k];
      var (u, ok, got) := Perform(s.t, call.ch.value, call.op);
      State(u, s.calls[k := call.(done := true, ok := ok, got := got)],
            s.log + [Entry(call.ch.value, call.op, ok, got)])
  }

  function Exec(s: State, es: seq<Event>): Option<State> {
    if es == [] then Some(s)
    else
      match Exec(s, es[..|es| - 1])
      case None => None
      case Some(u) => if Enabled(u, es[|es| - 1]) then Some(Apply(u, es[|es| - 1])) else None
  }

  ghost predicate Reachable(s: State) {
    exists es :: Exec(INIT, es) == Some(s)
  }

  // ----- the queue each channel implements -----

  /** The commands successfully put on channel ch, in order. */
  function Accepted(log: seq<Entry>, ch: nat): seq<Command> {
    if log == [] then []
    else
      var e := log[|log| - 1];
      Accepted(log[..|log| - 1], ch) + (if e.ch == ch && e.op.Put? && e.ok then [e.op.cmd] else [])
  }

  /** The commands received from channel ch, in order. */
  function Delivered(log: seq<Entry>, ch: nat): seq<Command> {
    if log == [] then []
    else
      var e := log[|log| - 1];
      Delivered(log[..|log| - 1], ch) + (if e.ch == ch && e.op.Take? && e.got.Some? then [e.got.value] else [])
  }

  ghost predicate Logged(s: State) {
    && (forall h: nat :: h < |s.t.chans| ==>
          s.t.chans[h].accepted == Accepted(s.log, h) && s.t.chans[h].dequeued == Delivered(s.log, h))
    && (forall i :: 0 <= i < |s.log| ==> s.log[i].ch < |s.t.chans|)
  }

  ghost predicate CallsOk(s: State) {
    forall k :: 0 <= k < |s.calls| && s.calls[k].ch.Some? ==>
      var ch := s.calls[k].ch.value;
      ch < |s.t.chans| && s.t.chans[ch].owner == s.calls[k].agent
  }

  ghost predicate Inv(s: State) {
    TableOk(s.t) && Logged(s) && CallsOk(s)
  }

  lemma {:induction false} UnusedChannel(log: seq<Entry>, ch: nat)
    requires forall i :: 0 <= i < |log| ==> log[i].ch != ch
    ensures Accepted(log, ch) == [] && Delivered(log, ch) == []
  {
    if log != [] {
      UnusedChannel(log[..|log| - 1], ch);
    }
  }

  lemma LogSnoc(log: seq<Entry>, e: Entry, ch: nat)
    ensures Accepted(log + [e], ch) == Accepted(log, ch) + (if e.ch == ch && e.op.Put? && e.ok then [e.op.cmd] else [])
    ensures Delivered(log + [e], ch)
         == Delivered(log, ch) + (if e.ch == ch && e.op.Take? && e.got.Some? then [e.got.value] else [])
  {
    assert (log + [e])[..|log|] == log;
  }

  lemma PerformKeepsTable(t: Table, ch: nat, op: Op)
    requires TableOk(t) && ch < |t.chans|
    ensures TableOk(Perform(t, ch, op).0) && |Perform(t, ch, op).0.chans| == |t.chans|
  {
    assert ChanOk(t.chans[ch]);
    var c := t.chans[ch];
    if op.Take? && c.pending != [] {
      assert c.pending == [c.pending[0]] + c.pending[1..];
      assert c.accepted == (c.dequeued + [c.pending[0]]) + c.pending[1..];
    }
  }

  lemma FinishKeepsLog(s: State, k: nat)
    requires Logged(s) && Enabled(s, Finishing(k))
    ensures Logged(Apply(s, Finishing(k)))
  {
    var t := Apply(s, Finishing(k));
    forall h: nat | h < |t.t.chans|
      ensures t.t.chans[h].accepted == Accepted(t.log, h) && t.t.chans[h].dequeued == Delivered(t.log, h)
    {
      LogSnoc(s.log, t.log[|s.log|], h);
    }
  }

  lemma FinishKeepsCalls(s: State, k: nat)
    requires CallsOk(s) && Enabled(s, Finishing(k))
    ensures CallsOk(Apply(s, Finishing(k)))
  {
  }

  /** A critical section leaves the operations performed on the channels as they were. */
  lemma SectionKeepsLog(s: State, u: Table)
    requires Logged(s) && CallsOk(s) && SameChans(s.t, u)
    ensures Logged(s.(t := u)) && CallsOk(s.(t := u))
  {
    UnusedChannel(s.log, |s.t.chans|);
  }

  lemma StepKeepsInv(s: State, e: Event)
    requires Inv(s) && Enabled(s, e)
    ensures Inv(Apply(s, e))
  {
    match e
    case Registering(info, now) =>
      RegisterKeepsTable(s.t, info, now);
      SectionKeepsLog(s, Register(s.t, info, now));
    case Removing(id) => RemoveKeepsTable(s.t, id);
    case Beating(id, status, cpu, memory, active, now) =>
      HeartbeatKeepsTable(s.t, id, status, cpu, memory, active, now);
    case SettingStatus(id, status) => HeartbeatKeepsTable(s.t, id, status, 0.0, 0.0, 0, 0);
    case HealthCheck(now) => CheckKeepsTable(s.t, now);
    case Calling(_, _) =>
    case Finishing(k) =>
      FinishKeepsLog(s, k);
      FinishKeepsCalls(s, k);
      PerformKeepsTable(s.t, s.calls[k].ch.value, s.calls[k].op);
  }

  lemma {:induction false} RunKeepsInv(es: seq<Event>)
    requires Exec(INIT, es).Some?
    ensures Inv(Exec(INIT, es).value)
  {
    if es != [] {
      RunKeepsInv(es[..|es| - 1]);
      StepKeepsInv(Exec(INIT, es[..|es| - 1]).value, es[|es| - 1]);
    }
  }

  lemma ReachableInv(s: State)
    requires Reachable(s)
    ensures Inv(s)
  {
    var es :| Exec(INIT, es) == Some(s);
    RunKeepsInv(es);
  }

  // ----- theorems -----

  /**
   Across every interleaving the two maps have the same keys, no channel holds more than ten
   commands, and each channel is a FIFO queue of the operations performed on it: what was
   accepted is what was delivered followed by what is pending.
   */
  lemma QueueRefinement(s: State)
    requires Reachable(s)
    ensures s.t.agents.Keys == s.t.commands.Keys
    ensures forall h: nat :: h < |s.t.chans| ==>
      && |s.t.chans[h].pending| <= 10
      && Accepted(s.log, h) == Delivered(s.log, h) + s.t.chans[h].pending
  {
    ReachableInv(s);
    forall h: nat | h < |s.t.chans|
      ensures |s.t.chans[h].pending| <= QUEUE_CAPACITY
      ensures Accepted(s.log, h) == Delivered(s.log, h) + s.t.chans[h].pending
    {
      assert ChanOk(s.t.chans[h]);
    }
  }

  /** An enqueue returns true exactly when it appended its command; otherwise nothing changed. */
  lemma EnqueueTruth(s: State, k: nat)
    requires Reachable(s) && Enabled(s, Finishing(k)) && s.calls[k].op.Put?
    ensures var t, ch := Apply(s, Finishing(k)), s.calls[k].ch.value;
      && t.calls[k].done
      && (t.calls[k].ok <==> |s.t.chans[ch].pending| < 10)
      && t.t.chans[ch].pending == s.t.chans[ch].pending + (if t.calls[k].ok then [s.calls[k].op.cmd] else [])
      && (!t.calls[k].ok ==> t.t == s.t)
      && forall h :: 0 <= h < |s.t.chans| && h != ch ==> t.t.chans[h] == s.t.chans[h]
  {
    ReachableInv(s);
  }

  /** A call for an agent that was unknown when it looked. */
  predicate Refused(s: State, k: nat) {
    && k < |s.calls| && s.calls[k].done && s.calls[k].ch.None? && !s.calls[k].ok && s.calls[k].got.None?
  }

  lemma {:induction false} StaysRefused(s: State, es: seq<Event>, k: nat)
    requires Refused(s, k) && Exec(s, es).Some?
    ensures Refused(Exec(s, es).value, k)
  {
    if es != [] {
      StaysRefused(s, es[..|es| - 1], k);
    }
  }

  /** A call for an unknown agent answers false or nothing at once, for good, and touches no queue. */
  lemma UnknownAgentRefused(s: State, id: AgentId, op: Op, es: seq<Event>)
    requires id !in s.t.commands
    requires var u := Apply(s, Calling(id, op)); Exec(u, es).Some?
    ensures var u := Apply(s, Calling(id, op));
      && u.t == s.t && u.log == s.log
      && Refused(u, |s.calls|) && Refused(Exec(u, es).value, |s.calls|)
  {
    StaysRefused(Apply(s, Calling(id, op)), es, |s.calls|);
  }

  /** Registering a present agent again keeps its channel, pending commands and every other agent. */
  lemma ReRegisterLosesNothing(s: State, info: AgentInfo, now: Time)
    requires Reachable(s) && info.agentId in s.t.agents
    ensures var t := Apply(s, Registering(info, now));
      && t.t.commands == s.t.commands && t.t.chans == s.t.chans && t.t.agents.Keys == s.t.agents.Keys
      && t.t.agents[info.agentId] == info.(lastHeartbeat := now)
      && forall id :: id in s.t.agents && id != info.agentId ==> t.t.agents[id] == s.t.agents[id]
  {
    ReachableInv(s);
  }

  /** The channel a later lookup for its owner would find. */
  predicate Current(t: Table, ch: nat)
    requires ch < |t.chans|
  {
    t.chans[ch].owner in t.commands && t.commands[t.chans[ch].owner] == ch
  }

  lemma RegisterKeepsCurrent(t: Table, info: AgentInfo, now: Time, ch: nat)
    requires TableOk(t) && ch < |t.chans|
    ensures var u := Register(t, info, now);
      ch < |u.chans| && u.chans[ch] == t.chans[ch] && (Current(u, ch) <==> Current(t, ch))
  {
  }

  lemma RemoveKeepsCurrent(t: Table, id: AgentId, ch: nat)
    requires ch < |t.chans|
    ensures var u := Remove(t, id);
      u.chans == t.chans && (Current(u, ch) <==> Current(t, ch) && id != t.chans[ch].owner)
  {
  }

  /** The other events leave the lookups and the owners as they were. */
  lemma OthersKeepCurrent(s: State, e: Event, ch: nat)
    requires Enabled(s, e) && !e.Registering? && !e.Removing? && ch < |s.t.chans|
    ensures var u := Apply(s, e).t;
      ch < |u.chans| && u.chans[ch].owner == s.t.chans[ch].owner && (Current(u, ch) <==> Current(s.t, ch))
  {
  }

  /** Only the removal of its owner takes a channel out of the lookups, and nothing brings it back. */
  lemma StepKeepsCurrent(s: State, e: Event, ch: nat)
    requires Inv(s) && Enabled(s, e) && ch < |s.t.chans|
    ensures ch < |Apply(s, e).t.chans| && Apply(s, e).t.chans[ch].owner == s.t.chans[ch].owner
    ensures Current(Apply(s, e).t, ch) <==> Current(s.t, ch) && e != Removing(s.t.chans[ch].owner)
  {
    match e
    case Registering(info, now) => RegisterKeepsCurrent(s.t, info, now, ch);
    case Removing(id) => RemoveKeepsCurrent(s.t, id, ch);
    case _ => OthersKeepCurrent(s, e, ch);
  }

  /** A channel orphaned by Remove is never looked up again: what is left in it is lost to new dequeues. */
  lemma {:induction false} OrphanedForever(s: State, es: seq<Event>, ch: nat)
    requires Inv(s) && Exec(s, es).Some? && ch < |s.t.chans| && !Current(s.t, ch)
    ensures Inv(Exec(s, es).value) && ch < |Exec(s, es).value.t.chans| && !Current(Exec(s, es).value.t, ch)
  {
    if es != [] {
      var u := Exec(s, es[..|es| - 1]).value;
      OrphanedForever(s, es[..|es| - 1], ch);
      StepKeepsInv(u, es[|es| - 1]);
      StepKeepsCurrent(u, es[|es| - 1], ch);
    }
  }

  lemma ReachableStep(s: State, e: Event)
    requires Reachable(s) && Enabled(s, e)
    ensures Reachable(Apply(s, e))
  {
    var es :| Exec(INIT, es) == Some(s);
    assert (es + [e])[..|es|] == es;
    assert Exec(INIT, es + [e]) == Some(Apply(s, e));
  }

  // ----- what becomes of an accepted command -----

  /** No event of the run removes the agent. */
  predicate NeverRemoved(es: seq<Event>, id: AgentId) {
    forall i :: 0 <= i < |es| ==> es[i] != Removing(id)
  }

  /** Along any run, a current channel is still current exactly when its owner was never removed. */
  lemma {:induction false} CurrentExactly(s: State, es: seq<Event>, ch: nat)
    requires Inv(s) && Exec(s, es).Some? && ch < |s.t.chans| && Current(s.t, ch)
    ensures var t := Exec(s, es).value;
      && Inv(t) && ch < |t.t.chans| && t.t.chans[ch].owner == s.t.chans[ch].owner
      && (Current(t.t, ch) <==> NeverRemoved(es, s.t.chans[ch].owner))
  {
    if es != [] {
      var before, e := es[..|es| - 1], es[|es| - 1];
      var u := Exec(s, before).value;
      CurrentExactly(s, before, ch);
      StepKeepsInv(u, e);
      StepKeepsCurrent(u, e, ch);
      RemovedSnoc(es, s.t.chans[ch].owner);
    }
  }

  lemma RemovedSnoc(es: seq<Event>, id: AgentId)
    requires es != []
    ensures NeverRemoved(es, id) <==> NeverRemoved(es[..|es| - 1], id) && es[|es| - 1] != Removing(id)
  {
    assert forall i :: 0 <= i < |es| - 1 ==> es[..|es| - 1][i] == es[i];
  }

  /** Call k puts cmd on channel ch; once it has answered true, the channel has accepted cmd. */
  ghost predicate Puts(s: State, k: nat, ch: nat, cmd: Command) {
    && k < |s.calls| && ch < |s.t.chans| && s.calls[k].op == Put(cmd) && s.calls[k].ch == Some(ch)
    && (s.calls[k].ok ==> cmd in s.t.chans[ch].accepted)
  }

  lemma StepKeepsAccepted(s: State, e: Event, ch: nat, cmd: Command)
    requires Enabled(s, e) && ch < |s.t.chans| && cmd in s.t.chans[ch].accepted
    ensures ch < |Apply(s, e).t.chans| && cmd in Apply(s, e).t.chans[ch].accepted
  {
  }

  lemma StepKeepsPuts(s: State, e: Event, k: nat, ch: nat, cmd: Command)
    requires Puts(s, k, ch, cmd) && Enabled(s, e)
    ensures Puts(Apply(s, e), k, ch, cmd)
  {
    if s.calls[k].ok {
      StepKeepsAccepted(s, e, ch, cmd);
    }
  }

  lemma {:induction false} RunKeepsPuts(s: State, es: seq<Event>, k: nat, ch: nat, cmd: Command)
    requires Puts(s, k, ch, cmd) && Exec(s, es).Some?
    ensures Puts(Exec(s, es).value, k, ch, cmd)
  {
    if es != [] {
      RunKeepsPuts(s, es[..|es| - 1], k, ch, cmd);
      StepKeepsPuts(Exec(s, es[..|es| - 1]).value, es[|es| - 1], k, ch, cmd);
    }
  }

  /**
   Follow an enqueue from the moment it has looked up its channel, through any run in which it
   answered true.  The channel has accepted the command, and it is still the one that lookups
   for the agent find exactly when the agent was never removed since the enqueue's lookup,
   neither before nor after the send.
   */
  lemma AcceptedButOrphaned(s: State, id: AgentId, cmd: Command, es: seq<Event>)
    requires Reachable(s) && id in s.t.commands
    requires var u := Apply(s, Calling(id, Put(cmd))); Exec(u, es).Some?
    ensures var u, k, ch := Apply(s, Calling(id, Put(cmd))), |s.calls|, s.t.commands[id];
      var t := Exec(u, es).value;
      && Puts(t, k, ch, cmd)
      && (t.calls[k].ok ==> cmd in t.t.chans[ch].accepted)
      && (Fetch(t.t, id) == Some(ch) <==> NeverRemoved(es, id))
  {
    ReachableInv(s);
    var u, ch := Apply(s, Calling(id, Put(cmd))), s.t.commands[id];
    StepKeepsInv(s, Calling(id, Put(cmd)));
    assert Puts(u, |s.calls|, ch, cmd);
    RunKeepsPuts(u, es, |s.calls|, ch, cmd);
    CurrentExactly(u, es, ch);
  }

  /** Such a lost command is reachable: look up, remove, send. */
  lemma RemoveCanOrphan(info: AgentInfo, cmd: Command) returns (s: State)
    ensures Reachable(s) && |s.calls| == 1 && s.calls[0].ok && s.calls[0].op == Put(cmd)
    ensures |s.t.chans| == 1 && s.t.chans[0].pending == [cmd] && !Current(s.t, 0)
  {
    assert Exec(INIT, []) == Some(INIT);
    ReachableStep(INIT, Registering(info, 0));
    var s1 := Apply(INIT, Registering(info, 0));
    ReachableStep(s1, Calling(info.agentId, Put(cmd)));
    var s2 := Apply(s1, Calling(info.agentId, Put(cmd)));
    ReachableStep(s2, Removing(info.agentId));
    var s3 := Apply(s2, Removing(info.agentId));
    ReachableStep(s3, Finishing(0));
    s := Apply(s3, Finishing(0));
  }
}
