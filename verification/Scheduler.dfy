/** Even split of the VUsers over the online agents. */
module Scheduler {
  import opened Wrappers
  import opened AgentManager

  datatype Assignment = Assignment(agentId: AgentId, vusers: int)

  /** Go's integer division, truncating toward zero, for a positive divisor. */
  function Quot(a: int, b: int): int
    requires b > 0
  {
    if a >= 0 then a / b else -((-a) / b)
  }

  function Rem(a: int, b: int): int
    requires b > 0
  {
    a - Quot(a, b) * b
  }

  /** The share of the i-th of n agents. */
  function Share(total: int, n: nat, i: nat): int
    requires i < n
  {
    Quot(total, n) + (if i < Rem(total, n) then 1 else 0)
  }

  function Shares(total: int, n: nat): (xs: seq<int>)
    ensures |xs| == n
  {
    seq(n, i requires 0 <= i < n => Share(total, n, i))
  }

  function Assignments(total: int, online: seq<AgentInfo>): (r: seq<Assignment>)
    ensures |r| == |online|
  {
    seq(|online|, i requires 0 <= i < |online| => Assignment(online[i].agentId, Share(total, |online|, i)))
  }

  class Scheduler {
    const agentManager: AgentManager

    constructor (agentManager: AgentManager)
      ensures this.agentManager == agentManager
    {
      this.agentManager := agentManager;
    }

    /**
     Fails exactly when no agent is online; otherwise assigns every online agent, each once,
     its share in the order OnlineAgents listed them.
     */
    method Allocate(total: int) returns (r: Option<seq<Assignment>>)
      requires agentManager.Valid()
      ensures r.None? <==> forall id :: id in agentManager.agents ==> agentManager.agents[id].status.Offline?
      ensures r.Some? ==> exists online ::
        IsListing(agentManager.agents, online) && r.value == Assignments(total, online)
    {
      var agents := agentManager.OnlineAgents();
      if |agents| == 0 {
        return None;
      }
      assert agents[0].agentId in agentManager.agents;
      var perAgent := Quot(total, |agents|);
      var remainder := Rem(total, |agents|);
      var assignments := new Assignment[|agents|](_ => Assignment("", 0));
      for i := 0 to |agents|
        invariant forall k :: 0 <= k < i ==> assignments[k] == Assignments(total, agents)[k]
      {
        var share := perAgent;
        if i < remainder {
          share := share + 1;
        }
        assignments[i] := Assignment(agents[i].agentId, share);
      }
      assert assignments[..] == Assignments(total, agents);
      return Some(assignments[..]);
    }
  }

  // ----- what the split promises -----

  function Sum(xs: seq<int>): int {
    if xs == [] then 0 else Sum(xs[..|xs| - 1]) + xs[|xs| - 1]
  }

  lemma {:induction false} SumOfPrefix(total: int, n: nat, k: nat)
    requires 0 < n && k <= n
    ensures Sum(Shares(total, n)[..k])
         == Quot(total, n) * k + (if Rem(total, n) <= 0 then 0 else if k < Rem(total, n) then k else Rem(total, n))
  {
    if k > 0 {
      var xs := Shares(total, n);
      assert xs[..k][..k - 1] == xs[..k - 1];
      SumOfPrefix(total, n, k - 1);
      assert Quot(total, n) * k == Quot(total, n) * (k - 1) + Quot(total, n);
    }
  }

  lemma DivMod(m: int, n: int)
    requires n > 0 && m >= 0
    ensures m == (m / n) * n + m % n && 0 <= m % n < n && m / n >= 0
  {
  }

  lemma RemNonNegative(total: int, n: int)
    requires n > 0 && total >= 0
    ensures Rem(total, n) == total % n && Quot(total, n) == total / n
  {
    DivMod(total, n);
  }

  lemma RemNegative(m: int, n: int)
    requires n > 0 && m > 0
    ensures Rem(-m, n) == -(m % n) && Quot(-m, n) == -(m / n)
  {
    DivMod(m, n);
    var d := m / n;
    assert Quot(-m, n) == -d;
    assert (-d) * n == -(d * n);
  }

  lemma RemRange(total: int, n: int)
    requires n > 0
    ensures total >= 0 ==> 0 <= Rem(total, n) < n && Quot(total, n) >= 0
    ensures total < 0 ==> -n < Rem(total, n) <= 0
    ensures Quot(total, n) * n == total - Rem(total, n)
  {
    if total >= 0 {
      RemNonNegative(total, n);
      DivMod(total, n);
    } else {
      RemNegative(-total, n);
      DivMod(-total, n);
    }
  }

  /** The shares add up to the total exactly when it is not negative, or divides evenly. */
  lemma SharesSum(total: int, n: nat)
    requires n > 0
    ensures Sum(Shares(total, n)) == total <==> total >= 0 || Rem(total, n) == 0
  {
    RemRange(total, n);
    SumOfPrefix(total, n, n);
    assert Shares(total, n)[..n] == Shares(total, n);
  }

  lemma MultipleAtLeast(q: int, n: int)
    requires q >= 0 && n > 0
    ensures q * n >= q
  {
  }

  /** Any two shares differ by at most one, and none is negative for a non-negative total. */
  lemma SharesBalanced(total: int, n: nat, i: nat, j: nat)
    requires i < n && j < n
    ensures -1 <= Share(total, n, i) - Share(total, n, j) <= 1
    ensures total >= 0 ==> 0 <= Share(total, n, i) <= total
  {
    if total >= 0 {
      RemRange(total, n);
      MultipleAtLeast(Quot(total, n), n);
    }
  }

  lemma MultipleBelow(q: int, n: int, i: int, r: int)
    requires n > 0 && 0 <= i < n && 0 <= r < n && q >= 0
    ensures q + (if i < r then 1 else 0) == 0 <==> q * n + r <= i
  {
    if q >= 1 {
      MultipleAtLeast(n, q);
    }
  }

  /** An agent gets no VUser exactly when the total does not reach its position. */
  lemma ShareZeroExactly(total: int, n: nat, i: nat)
    requires total >= 0 && i < n
    ensures Share(total, n, i) == 0 <==> total <= i
  {
    RemRange(total, n);
    MultipleBelow(Quot(total, n), n, i, Rem(total, n));
  }

  lemma {:induction false} SumBelow(xs: seq<int>, m: int)
    requires forall i :: 0 <= i < |xs| ==> xs[i] <= m
    ensures Sum(xs) <= m * |xs|
  {
    if xs != [] {
      SumBelow(xs[..|xs| - 1], m);
      assert m * |xs| == m * (|xs| - 1) + m;
    }
  }

  lemma {:induction false} SumAbove(xs: seq<int>, m: int)
    requires forall i :: 0 <= i < |xs| ==> m <= xs[i]
    ensures m * |xs| <= Sum(xs)
  {
    if xs != [] {
      SumAbove(xs[..|xs| - 1], m);
      assert m * |xs| == m * (|xs| - 1) + m;
    }
  }

  lemma SomeAtLeast(xs: seq<int>, s: int)
    requires Sum(xs) > (s - 1) * |xs|
    ensures exists j :: 0 <= j < |xs| && xs[j] >= s
  {
    if forall j :: 0 <= j < |xs| ==> xs[j] <= s - 1 {
      SumBelow(xs, s - 1);
    }
  }

  lemma SomeAtMost(xs: seq<int>, s: int)
    requires Sum(xs) < (s + 1) * |xs|
    ensures exists j :: 0 <= j < |xs| && xs[j] <= s
  {
    if forall j :: 0 <= j < |xs| ==> s + 1 <= xs[j] {
      SumAbove(xs, s + 1);
    }
  }

  lemma ShareBrackets(total: nat, n: nat, i: nat)
    requires i < n
    ensures (Share(total, n, i) - 1) * n < total < (Share(total, n, i) + 1) * n
  {
    RemRange(total, n);
    var q := Quot(total, n);
    assert (q - 1) * n == q * n - n;
    assert (q + 1) * n == q * n + n;
    assert (q + 2) * n == q * n + n + n;
  }

  /**
   Every other split of the same total over the same number of agents has an entry at least
   as large as any share and an entry at most as small as any share: no smaller maximum, no
   larger minimum.
   */
  lemma SharesOptimal(total: int, xs: seq<int>, i: nat)
    requires total >= 0 && i < |xs| && Sum(xs) == total
    ensures exists j :: 0 <= j < |xs| && xs[j] >= Share(total, |xs|, i)
    ensures exists j :: 0 <= j < |xs| && xs[j] <= Share(total, |xs|, i)
  {
    ShareBrackets(total, |xs|, i);
    SomeAtLeast(xs, Share(total, |xs|, i));
    SomeAtMost(xs, Share(total, |xs|, i));
  }

  // ----- independence of the listing order -----

  ghost function OnlineIds(agents: map<AgentId, AgentInfo>): set<AgentId> {
    set id | id in agents && !agents[id].status.Offline?
  }

  function Ids(online: seq<AgentInfo>): set<AgentId> {
    set i | 0 <= i < |online| :: online[i].agentId
  }

  lemma {:induction false} DistinctIds(online: seq<AgentInfo>)
    requires forall i, j :: 0 <= i < j < |online| ==> online[i].agentId != online[j].agentId
    ensures |Ids(online)| == |online|
  {
    if online != [] {
      var n := |online| - 1;
      DistinctIds(online[..n]);
      assert Ids(online) == Ids(online[..n]) + {online[n].agentId};
    }
  }

  lemma ListingSize(agents: map<AgentId, AgentInfo>, online: seq<AgentInfo>)
    requires IsListing(agents, online) && forall id :: id in agents ==> agents[id].agentId == id
    ensures Ids(online) == OnlineIds(agents) && |online| == |OnlineIds(agents)|
  {
    DistinctIds(online);
    forall id | id in OnlineIds(agents)
      ensures id in Ids(online)
    {
      assert agents[id] in online;
      var i :| 0 <= i < |online| && online[i] == agents[id];
      assert online[i].agentId == id;
    }
  }

  /** The agents a run is assigned to. */
  function AssignedIds(xs: seq<Assignment>): set<AgentId> {
    set i | 0 <= i < |xs| :: xs[i].agentId
  }

  /** An allocation names exactly the online agents, each once, in the order of the listing. */
  lemma AssignsOnline(agents: map<AgentId, AgentInfo>, online: seq<AgentInfo>, total: int)
    requires IsListing(agents, online) && forall id :: id in agents ==> agents[id].agentId == id
    ensures var xs := Assignments(total, online);
      && |xs| == |online| == |OnlineIds(agents)| && AssignedIds(xs) == OnlineIds(agents)
      && (forall i, j :: 0 <= i < j < |xs| ==> xs[i].agentId != xs[j].agentId)
      && (forall i :: 0 <= i < |xs| ==> xs[i].agentId == online[i].agentId)
  {
    ListingSize(agents, online);
    var xs := Assignments(total, online);
    forall i | 0 <= i < |xs|
      ensures xs[i].agentId == online[i].agentId
    {
    }
    assert AssignedIds(xs) == Ids(online);
  }

  /** The larger shares come first. */
  lemma SharesDescend(total: int, n: nat, i: nat, j: nat)
    requires i <= j < n
    ensures Share(total, n, i) >= Share(total, n, j)
  {
  }

  lemma ShareByPosition(total: int, online: seq<AgentInfo>, i: nat)
    requires i < |online|
    ensures Assignments(total, online)[i].vusers == Shares(total, |online|)[i]
  {
  }

  /** Two listings of the same table get the same shares, whatever order the map yields. */
  lemma SharesIgnoreOrder(agents: map<AgentId, AgentInfo>, one: seq<AgentInfo>, other: seq<AgentInfo>, total: int)
    requires IsListing(agents, one) && IsListing(agents, other)
    requires forall id :: id in agents ==> agents[id].agentId == id
    ensures |one| == |other|
    ensures forall i :: 0 <= i < |one| ==>
      Assignments(total, one)[i].vusers == Assignments(total, other)[i].vusers == Shares(total, |one|)[i]
    ensures Ids(one) == Ids(other) == OnlineIds(agents)
  {
    ListingSize(agents, one);
    ListingSize(agents, other);
    forall i | 0 <= i < |one|
      ensures Assignments(total, one)[i].vusers == Assignments(total, other)[i].vusers == Shares(total, |one|)[i]
    {
      ShareByPosition(total, one, i);
      ShareByPosition(total, other, i);
    }
  }
}
