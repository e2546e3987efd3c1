/**
 The controller's agent table and its bounded per-agent command channels.

 Channels are reached through references, so a call that fetched a channel may use it
 after the agent was removed.  They are numbered in order of creation; `commands` maps an
 agent to the number of its current channel.
 */
module AgentManager {
  import opened Wrappers

  type AgentId = string
  type RunId = string
  type Time = int

  const SECOND: int := 1000000000
  const QUEUE_CAPACITY: nat := 10
  const OFFLINE_AFTER: int := 30 * SECOND

  datatype Status = Idle | Running | Error | Offline

  datatype AgentInfo = AgentInfo(
    agentId: AgentId, maxVUsers: int, status: Status, activeVUsers: int,
    cpuUsage: real, memoryUsage: real, lastHeartbeat: Time)

  datatype Command = Start(run: RunId, yaml: string, vusers: int) | Stop(run: RunId)

  /** A command channel with the history of what went in and what came out. */
  datatype Chan = Chan(owner: AgentId, pending: seq<Command>, accepted: seq<Command>, dequeued: seq<Command>)

  datatype Table = Table(agents: map<AgentId, AgentInfo>, commands: map<AgentId, nat>, chans: seq<Chan>)

  const EMPTY_TABLE := Table(map[], map[], [])

  // ----- the critical sections -----

  function Register(t: Table, info: AgentInfo, now: Time): Table {
    var agents := t.agents[info.agentId := info.(lastHeartbeat := now)];
    if info.agentId in t.commands then t.(agents := agents)
    else Table(agents, t.commands[info.agentId := |t.chans|], t.chans + [Chan(info.agentId, [], [], [])])
  }

  function Remove(t: Table, id: AgentId): Table {
    t.(agents := t.agents - {id}, commands := t.commands - {id})
  }

  function Heartbeat(t: Table, id: AgentId, status: Status, cpu: real, memory: real, active: int, now: Time): Table {
    if id in t.agents then
      var info := t.agents[id].(status := status, cpuUsage := cpu, memoryUsage := memory,
                                activeVUsers := active, lastHeartbeat := now);
      t.(agents := t.agents[id := info])
    else t
  }

  function SetStatus(t: Table, id: AgentId, status: Status): Table {
    if id in t.agents then t.(agents := t.agents[id := t.agents[id].(status := status)]) else t
  }

  /** The agent after a health check at time now. */
  function Checked(a: AgentInfo, now: Time): AgentInfo {
    if a.status != Offline && a.lastHeartbeat < now - OFFLINE_AFTER then a.(status := Offline) else a
  }

  function MarkOffline(t: Table, now: Time): Table {
    t.(agents := map id | id in t.agents :: Checked(t.agents[id], now))
  }

  function Fetch(t: Table, id: AgentId): Option<nat> {
    if id in t.commands then Some(t.commands[id]) else None
  }

  /** The non-blocking send of a fetched channel; false when the queue is full. */
  function Offer(t: Table, ch: nat, cmd: Command): (Table, bool)
    requires ch < |t.chans|
  {
    var c := t.chans[ch];
    if |c.pending| < QUEUE_CAPACITY then
      (t.(chans := t.chans[ch := c.(pending := c.pending + [cmd], accepted := c.accepted + [cmd])]), true)
    else (t, false)
  }

  /** The non-blocking receive of a fetched channel. */
  function Poll(t: Table, ch: nat): (Table, Option<Command>)
    requires ch < |t.chans|
  {
    var c := t.chans[ch];
    if c.pending != [] then
      (t.(chans := t.chans[ch := c.(pending := c.pending[1..], dequeued := c.dequeued + [c.pending[0]])]),
       Some(c.pending[0]))
    else (t, None)
  }

  // ----- invariant of the table -----

  ghost predicate ChanOk(c: Chan) {
    c.accepted == c.dequeued + c.pending && |c.pending| <= QUEUE_CAPACITY
  }

  ghost predicate TableOk(t: Table) {
    && t.agents.Keys == t.commands.Keys
    && (forall id :: id in t.agents ==> t.agents[id].agentId == id)
    && (forall id :: id in t.commands ==> t.commands[id] < |t.chans| && t.chans[t.commands[id]].owner == id)
    && (forall i :: 0 <= i < |t.chans| ==> ChanOk(t.chans[i]))
  }

  /** u has the channels of t, and possibly a new empty one. */
  ghost predicate SameChans(t: Table, u: Table) {
    u.chans == t.chans || exists id :: u.chans == t.chans + [Chan(id, [], [], [])]
  }

  lemma RegisterKeepsTable(t: Table, info: AgentInfo, now: Time)
    requires TableOk(t)
    ensures TableOk(Register(t, info, now)) && SameChans(t, Register(t, info, now))
  {
  }

  lemma RemoveKeepsTable(t: Table, id: AgentId)
    requires TableOk(t)
    ensures TableOk(Remove(t, id))
  {
  }

  lemma HeartbeatKeepsTable(t: Table, id: AgentId, status: Status, cpu: real, memory: real, active: int, now: Time)
    requires TableOk(t)
    ensures TableOk(SetStatus(t, id, status)) && TableOk(Heartbeat(t, id, status, cpu, memory, active, now))
  {
  }

  lemma CheckKeepsTable(t: Table, now: Time)
    requires TableOk(t)
    ensures TableOk(MarkOffline(t, now))
  {
  }

  // ----- the object -----

  class AgentManager {
    var agents: map<AgentId, AgentInfo>
    var commands: map<AgentId, nat>
    var chans: seq<Chan>

    ghost function View(): Table
      reads this
    {
      Table(agents, commands, chans)
    }

    ghost predicate Valid()
      reads this
    {
      TableOk(View())
    }

    constructor ()
      ensures View() == EMPTY_TABLE && Valid()
    {
      agents, commands, chans := map[], map[], [];
    }

    method RegisterAgent(info: AgentInfo, now: Time)
      requires Valid()
      modifies this
      ensures Valid() && View() == Register(old(View()), info, now)
    {
      agents := agents[info.agentId := info.(lastHeartbeat := now)];
      if info.agentId !in commands {
        commands := commands[info.agentId := |chans|];
        chans := chans + [Chan(info.agentId, [], [], [])];
      }
    }

    method HeartbeatFrom(id: AgentId, status: Status, cpu: real, memory: real, active: int, now: Time)
      requires Valid()
      modifies this
      ensures Valid() && View() == Heartbeat(old(View()), id, status, cpu, memory, active, now)
    {
      if id in agents {
        agents := agents[id := agents[id].(status := status, cpuUsage := cpu, memoryUsage := memory,
                                           activeVUsers := active, lastHeartbeat := now)];
      }
    }

    method RemoveAgent(id: AgentId)
      requires Valid()
      modifies this
      ensures Valid() && View() == Remove(old(View()), id)
    {
      agents := agents - {id};
      commands := commands - {id};
    }

    /** Enqueues without interference: true exactly when the command was appended. */
    method Enqueue(id: AgentId, cmd: Command) returns (ok: bool)
      requires Valid()
      modifies this
      ensures Valid()
      ensures match Fetch(old(View()), id)
        case None => !ok && View() == old(View())
        case Some(ch) => (View(), ok) == Offer(old(View()), ch, cmd)
    {
      if id !in commands {
        return false;
      }
      var ch := commands[id];
      var c := chans[ch];
      assert ChanOk(c);
      if |c.pending| < QUEUE_CAPACITY {
        chans := chans[ch := c.(pending := c.pending + [cmd], accepted := c.accepted + [cmd])];
        return true;
      }
      return false;
    }

    method DequeueCommand(id: AgentId) returns (cmd: Option<Command>)
      requires Valid()
      modifies this
      ensures Valid()
      ensures match Fetch(old(View()), id)
        case None => cmd == None && View() == old(View())
        case Some(ch) => (View(), cmd) == Poll(old(View()), ch)
    {
      if id !in commands {
        return None;
      }
      var ch := commands[id];
      var c := chans[ch];
      assert ChanOk(c);
      if c.pending != [] {
        chans := chans[ch := c.(pending := c.pending[1..], dequeued := c.dequeued + [c.pending[0]])];
        return Some(c.pending[0]);
      }
      return None;
    }

    /** Lists the agents that are not offline, each once, in the order the map yields them. */
    method OnlineAgents() returns (online: seq<AgentInfo>)
      requires Valid()
      ensures IsListing(agents, online)
    {
      online := [];
      var todo := agents.Keys;
      while todo != {}
        invariant todo <= agents.Keys
        invariant forall i :: 0 <= i < |online| ==>
          var id := online[i].agentId;
          id in agents && id !in todo && online[i] == agents[id] && online[i].status != Offline
        invariant forall i, j :: 0 <= i < j < |online| ==> online[i].agentId != online[j].agentId
        invariant forall id :: id in agents && id !in todo && agents[id].status != Offline ==> agents[id] in online
        decreases todo
      {
        var id :| id in todo;
        todo := todo - {id};
        if agents[id].status != Offline {
          online := online + [agents[id]];
        }
      }
    }

    /** The health check, agent by agent. */
    method MarkStaleOffline(now: Time)
      requires Valid()
      modifies this
      ensures Valid() && View() == MarkOffline(old(View()), now)
    {
      var todo := agents.Keys;
      while todo != {}
        invariant todo <= agents.Keys == old(agents.Keys)
        invariant commands == old(commands) && chans == old(chans)
        invariant forall id :: id in agents ==>
          agents[id] == if id in todo then old(agents)[id] else Checked(old(agents)[id], now)
        decreases todo
      {
        var id :| id in todo;
        todo := todo - {id};
        var a := agents[id];
        if a.status != Offline && a.lastHeartbeat < now - OFFLINE_AFTER {
          agents := agents[id := a.(status := Offline)];
        }
      }
    }
  }

  /** online lists exactly the agents that are not offline, without repetition. */
  ghost predicate IsListing(agents: map<AgentId, AgentInfo>, online: seq<AgentInfo>) {
    && (forall i :: 0 <= i < |online| ==>
          online[i].agentId in agents && online[i] == agents[online[i].agentId] && online[i].status != Offline)
    && (forall i, j :: 0 <= i < j < |online| ==> online[i].agentId != online[j].agentId)
    && (forall id :: id in agents && agents[id].status != Offline ==> agents[id] in online)
  }
}
