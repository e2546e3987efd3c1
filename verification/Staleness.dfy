/**
 Heartbeats and the health check in time.  The clock may not pass the next health tick
 before the check has run, and ticks are exactly ten seconds apart; how events at the same
 instant are ordered is left open.  SetStatus, which no handler calls, is not an event here.
 */
module Staleness {
  import opened Wrappers
  import opened AgentManager

  const TICK: int := 10 * SECOND

  datatype State = State(t: Table, now: Time, nextTick: Time)

  const INIT := State(EMPTY_TABLE, 0, TICK)

  /** Registrations arrive with status idle, heartbeats with any status but offline. */
  datatype Event =
    | Advance(to: Time)
    | HealthTick
    | Registering(info: AgentInfo)
    | Removing(id: AgentId)
    | Beating(id: AgentId, status: Status, cpu: real, memory: real, active: int)

  predicate Enabled(s: State, e: Event) {
    match e
    case Advance(to) => s.now <= to <= s.nextTick
    case HealthTick => s.now == s.nextTick
    case Registering(info) => info.status.Idle?
    case Removing(_) => true
    case Beating(_, status, _, _, _) => !status.Offline?
  }

  function Apply(s: State, e: Event): State
    requires Enabled(s, e)
  {
    match e
    case Advance(to) => s.(now := to)
    case HealthTick => State(MarkOffline(s.t, s.now), s.now, s.nextTick + TICK)
    case Registering(info) => s.(t := Register(s.t, info, s.now))
    case Removing(id) => s.(t := Remove(s.t, id))
    case Beating(id, status, cpu, memory, active) =>
      s.(t := Heartbeat(s.t, id, status, cpu, memory, active, s.now))
  }

  function Exec(s: State, es: seq<Event>): Option<State> {
    if es == [] then Some(s)
    else
      match Exec(s, es[..|es| - 1])
      case None => None
      case Some(u) => if Enabled(u, es[|es| - 1]) then Some(Apply(u, es[|es| - 1])) else None
  }

  ghost predicate Reachable(s: State) {
    exists es :: Exec(INIT, es) == Some(s)
  }

  // ----- what the trace alone says -----

  /** The time after a run. */
  function Clock(es: seq<Event>): Time {
    if es == [] then 0
    else if es[|es| - 1].Advance? then es[|es| - 1].to
    else Clock(es[..|es| - 1])
  }

  /** When the agent last registered or sent a heartbeat, None while it is not registered. */
  function Contact(es: seq<Event>, id: AgentId): Option<Time> {
    if es == [] then None
    else
      var before := es[..|es| - 1];
      match es[|es| - 1]
      case Registering(info) => if info.agentId == id then Some(Clock(before)) else Contact(before, id)
      case Beating(b, _, _, _, _) =>
        if b == id && Contact(before, id).Some? then Some(Clock(before)) else Contact(before, id)
      case Removing(r) => if r == id then None else Contact(before, id)
      case _ => Contact(before, id)
  }

  /** The time of the last health check, 0 before the first. */
  function LastCheck(es: seq<Event>): Time {
    if es == [] then 0
    else if es[|es| - 1].HealthTick? then Clock(es[..|es| - 1])
    else LastCheck(es[..|es| - 1])
  }

  ghost predicate Tracks(s: State, es: seq<Event>, id: AgentId) {
    && s.now == Clock(es) && s.nextTick == LastCheck(es) + TICK
    && LastCheck(es) <= s.now <= s.nextTick
    && (id in s.t.agents <==> Contact(es, id).Some?)
    && (id in s.t.agents ==>
          var a := s.t.agents[id];
          && a.lastHeartbeat == Contact(es, id).value <= s.now
          && (a.status.Offline? <==> a.lastHeartbeat < LastCheck(es) - OFFLINE_AFTER))
  }

  lemma {:induction false} RunTracks(es: seq<Event>, id: AgentId)
    requires Exec(INIT, es).Some?
    ensures Tracks(Exec(INIT, es).value, es, id)
  {
    if es != [] {
      RunTracks(es[..|es| - 1], id);
    }
  }

  // ----- theorems -----

  /**
   An agent is offline exactly when, at the last health check, its last registration or
   heartbeat in the trace was more than thirty seconds old.
   */
  lemma OfflineExactly(es: seq<Event>, id: AgentId)
    requires Exec(INIT, es).Some?
    ensures var agents := Exec(INIT, es).value.t.agents;
      && (id in agents <==> Contact(es, id).Some?)
      && (id in agents ==>
            (agents[id].status.Offline? <==> Contact(es, id).value < LastCheck(es) - 30 * SECOND))
  {
    RunTracks(es, id);
  }

  /** What an agent last said of itself. */
  datatype Load = Load(status: Status, cpu: real, memory: real, active: int, maxVUsers: int)

  /** A heartbeat reports everything but the maximum, which only a registration states. */
  function LastLoad(es: seq<Event>, id: AgentId): Option<Load> {
    if es == [] then None
    else
      var before := LastLoad(es[..|es| - 1], id);
      match es[|es| - 1]
      case Registering(info) =>
        if info.agentId != id then before
        else Some(Load(info.status, info.cpuUsage, info.memoryUsage, info.activeVUsers, info.maxVUsers))
      case Beating(b, status, cpu, memory, active) =>
        if b == id && before.Some? then Some(Load(status, cpu, memory, active, before.value.maxVUsers)) else before
      case Removing(r) => if r == id then None else before
      case _ => before
  }

  /**
   The table shows of every agent what its last registration or heartbeat said; only a health
   check changes that, from whatever status to offline.
   */
  lemma {:induction false} LoadExactly(es: seq<Event>, id: AgentId)
    requires Exec(INIT, es).Some?
    ensures var agents := Exec(INIT, es).value.t.agents;
      && (id in agents <==> LastLoad(es, id).Some?)
      && (id in agents ==>
            var a, load := agents[id], LastLoad(es, id).value;
            && (a.status == load.status || a.status.Offline?) && a.cpuUsage == load.cpu
            && a.memoryUsage == load.memory && a.activeVUsers == load.active && a.maxVUsers == load.maxVUsers)
  {
    if es != [] {
      LoadExactly(es[..|es| - 1], id);
    }
  }

  /** Every agent OnlineAgents returns has a heartbeat at most forty seconds old. */
  lemma OnlineAreFresh(s: State, online: seq<AgentInfo>, i: nat)
    requires Reachable(s) && IsListing(s.t.agents, online) && i < |online|
    ensures s.now - 40 * SECOND <= online[i].lastHeartbeat <= s.now
  {
    var es :| Exec(INIT, es) == Some(s);
    RunTracks(es, online[i].agentId);
  }

  /** The agent was heard from within thirty seconds at every point of the run. */
  ghost predicate SteadyContact(es: seq<Event>, id: AgentId) {
    forall n: nat :: n <= |es| && Contact(es[..n], id).Some? ==>
      Clock(es[..n]) - Contact(es[..n], id).value <= 30 * SECOND
  }

  /** The last check happened at the end of some prefix with the same last contact, or before it. */
  lemma {:induction false} CheckedSinceContact(es: seq<Event>, id: AgentId)
    requires Exec(INIT, es).Some? && Contact(es, id).Some? && SteadyContact(es, id)
    ensures LastCheck(es) - Contact(es, id).value <= 30 * SECOND
  {
    var before, e := es[..|es| - 1], es[|es| - 1];
    RunTracks(before, id);
    if e.HealthTick? {
      assert es[..|es| - 1] == before;
    } else if Contact(before, id).Some? && Contact(es, id) == Contact(before, id) {
      forall n: nat | n <= |before| && Contact(before[..n], id).Some?
        ensures Clock(before[..n]) - Contact(before[..n], id).value <= 30 * SECOND
      {
        assert before[..n] == es[..n];
      }
      CheckedSinceContact(before, id);
    }
  }

  /** An agent that is never silent for more than thirty seconds is never marked offline. */
  lemma SteadyStaysOnline(es: seq<Event>, id: AgentId)
    requires Exec(INIT, es).Some? && SteadyContact(es, id)
    ensures var agents := Exec(INIT, es).value.t.agents; id in agents ==> !agents[id].status.Offline?
  {
    RunTracks(es, id);
    if Contact(es, id).Some? {
      CheckedSinceContact(es, id);
    }
  }

  /** The forty-second bound is reached: register, then stay silent for four ticks. */
  lemma FortySecondsReached(info: AgentInfo) returns (es: seq<Event>)
    requires info.status.Idle?
    ensures Exec(INIT, es).Some?
    ensures var s := Exec(INIT, es).value;
      && s.now == 40 * SECOND && info.agentId in s.t.agents
      && !s.t.agents[info.agentId].status.Offline? && s.t.agents[info.agentId].lastHeartbeat == 0
  {
    var s0 := Apply(INIT, Registering(info));
    es := [Registering(info)];
    assert es[..0] == [];
    assert Exec(INIT, []) == Some(INIT);
    assert Exec(INIT, es) == Some(s0);
    var k := 0;
    while k < 3
      invariant 0 <= k <= 3 && Exec(INIT, es).Some?
      invariant var s := Exec(INIT, es).value;
        && s.now == k * TICK && s.nextTick == (k + 1) * TICK && info.agentId in s.t.agents
        && s.t.agents[info.agentId].status.Idle? && s.t.agents[info.agentId].lastHeartbeat == 0
    {
      k := k + 1;
      assert (es + [Advance(k * TICK)])[..|es|] == es;
      es := es + [Advance(k * TICK)];
      assert (es + [HealthTick])[..|es|] == es;
      es := es + [HealthTick];
    }
    assert (es + [Advance(4 * TICK)])[..|es|] == es;
    es := es + [Advance(4 * TICK)];
  }
}
