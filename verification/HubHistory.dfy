/** What the hub's bookkeeping records of a run: overlapping broadcasts and scheduled evictions. */
module HubHistory {
  import opened Wrappers
  import opened H = Hub

  /** Event i begins a broadcast while another is in progress. */
  ghost predicate Overlaps(es: seq<Event>, i: int) {
    && 0 <= i < |es| && es[i].BeginBroadcast?
    && Exec(INIT, es[..i]).Some? && Exec(INIT, es[..i]).value.todo != map[]
  }

  lemma OverlapsSnoc(es: seq<Event>, before: seq<Event>)
    requires es != [] && before == es[..|es| - 1]
    ensures (exists i :: Overlaps(es, i)) <==> (exists i :: Overlaps(before, i)) || Overlaps(es, |es| - 1)
  {
    forall i | 0 <= i < |before|
      ensures Overlaps(es, i) <==> Overlaps(before, i)
    {
      assert es[..i] == before[..i];
    }
  }

  lemma StepOverlap(s: State, e: Event)
    requires Enabled(s, e)
    ensures Apply(s, e).overlapped <==> s.overlapped || (e.BeginBroadcast? && s.todo != map[])
  {
  }

  /** Broadcasts count as overlapped exactly when one began while another was in progress. */
  lemma {:induction false} OverlappedExactly(es: seq<Event>)
    requires Exec(INIT, es).Some?
    ensures Exec(INIT, es).value.overlapped <==> exists i :: Overlaps(es, i)
  {
    if es != [] {
      OverlappedExactly(es[..|es| - 1]);
      OverlapsSnoc(es, es[..|es| - 1]);
      StepOverlap(Exec(INIT, es[..|es| - 1]).value, es[|es| - 1]);
    }
  }

  /** How many visits have found client c with 256 messages waiting. */
  function FullVisits(es: seq<Event>, c: nat): nat
    requires Exec(INIT, es).Some?
  {
    if es == [] then 0
    else
      var u, e := Exec(INIT, es[..|es| - 1]).value, es[|es| - 1];
      FullVisits(es[..|es| - 1], c)
      + (if e.Visit? && e.c == c && !Apply(u, e).sendPanic && |u.conns[c].buffer| >= 256 then 1 else 0)
  }

  lemma StepEvictions(s: State, e: Event, c: nat)
    requires Enabled(s, e) && c < |s.conns|
    ensures var t := Apply(s, e);
      && c < |t.conns|
      && |t.conns[c].evictions| == |s.conns[c].evictions|
         + (if e.Visit? && e.c == c && !t.sendPanic && |s.conns[c].buffer| >= 256 then 1 else 0)
  {
  }

  lemma {:induction false} NoVisitYet(es: seq<Event>, c: nat)
    requires Exec(INIT, es).Some? && |Exec(INIT, es).value.conns| <= c
    ensures FullVisits(es, c) == 0
  {
    if es != [] {
      assert |Exec(INIT, es[..|es| - 1]).value.conns| <= |Exec(INIT, es).value.conns|;
      NoVisitYet(es[..|es| - 1], c);
    }
  }

  /** Every visit that finds a client's buffer full schedules one eviction, and nothing else does. */
  lemma {:induction false} EvictionsExactly(es: seq<Event>, c: nat)
    requires Exec(INIT, es).Some? && c < |Exec(INIT, es).value.conns|
    ensures |Exec(INIT, es).value.conns[c].evictions| == FullVisits(es, c)
  {
    var before, e := es[..|es| - 1], es[|es| - 1];
    var s := Exec(INIT, before).value;
    if c < |s.conns| {
      EvictionsExactly(before, c);
      StepEvictions(s, e, c);
    } else {
      NoVisitYet(before, c);
    }
  }

  // ----- who is registered -----

  /** Event i takes client c out of the map: its reader's teardown or one of its evictions. */
  predicate Deletes(es: seq<Event>, i: int, c: nat) {
    0 <= i < |es| && IsDelete(es[i]) && es[i].c == c
  }

  function Connects(es: seq<Event>): nat {
    if es == [] then 0 else Connects(es[..|es| - 1]) + (if es[|es| - 1].Connect? then 1 else 0)
  }

  function Begins(es: seq<Event>): nat {
    if es == [] then 0 else Begins(es[..|es| - 1]) + (if es[|es| - 1].BeginBroadcast? then 1 else 0)
  }

  lemma DeletesSnoc(es: seq<Event>, before: seq<Event>, c: nat)
    requires es != [] && before == es[..|es| - 1]
    ensures (exists i :: Deletes(es, i, c)) <==> (exists i :: Deletes(before, i, c)) || Deletes(es, |es| - 1, c)
  {
    forall i | 0 <= i < |before|
      ensures Deletes(es, i, c) <==> Deletes(before, i, c)
    {
      assert es[i] == before[i];
    }
  }

  lemma StepRegisters(s: State, e: Event, c: nat)
    requires Safe(s) && Enabled(s, e)
    ensures var t := Apply(s, e);
      && |t.conns| == |s.conns| + (if e.Connect? then 1 else 0)
      && t.begun == s.begun + (if e.BeginBroadcast? then 1 else 0)
      && (c in t.clients <==> (c in s.clients && !(IsDelete(e) && e.c == c)) || (e.Connect? && c == |s.conns|))
      && (c < |s.conns| ==> t.conns[c].joined == s.conns[c].joined)
      && (e.Connect? ==> t.conns[|s.conns|].joined == s.begun)
  {
  }

  lemma DeletesKnown(s: State, e: Event)
    requires Enabled(s, e)
    ensures IsDelete(e) ==> e.c < |s.conns|
    ensures |s.conns| <= |Apply(s, e).conns|
  {
  }

  lemma {:induction false} NotYetDeleted(es: seq<Event>, i: int, c: nat)
    requires Exec(INIT, es).Some? && |Exec(INIT, es).value.conns| <= c
    ensures !Deletes(es, i, c)
  {
    if es != [] {
      var before := es[..|es| - 1];
      DeletesKnown(Exec(INIT, before).value, es[|es| - 1]);
      NotYetDeleted(before, i, c);
      assert 0 <= i < |before| ==> before[i] == es[i];
    }
  }

  /**
   A client is in the map exactly when its connection was accepted and neither its reader's
   teardown nor an eviction has deleted it since.
   */
  lemma {:induction false} RegisteredExactly(es: seq<Event>, c: nat)
    requires Exec(INIT, es).Some?
    ensures |Exec(INIT, es).value.conns| == Connects(es)
    ensures c in Exec(INIT, es).value.clients <==> c < Connects(es) && !exists i :: Deletes(es, i, c)
  {
    if es != [] {
      var before, e := es[..|es| - 1], es[|es| - 1];
      RunKeepsInv(INIT, before);
      RegisteredExactly(before, c);
      StepRegisters(Exec(INIT, before).value, e, c);
      DeletesSnoc(es, before, c);
      if c >= Connects(before) {
        forall i
          ensures !Deletes(before, i, c)
        {
          NotYetDeleted(before, i, c);
        }
      }
    }
  }

  /** Event i accepts connection c, after n broadcasts. */
  predicate JoinsAt(es: seq<Event>, i: int, c: nat, n: nat) {
    0 <= i < |es| && es[i].Connect? && Connects(es[..i]) == c && Begins(es[..i]) == n
  }

  /** What a client has missed is counted right: the broadcasts begun before its connection was accepted. */
  lemma {:induction false} JoinedExactly(es: seq<Event>, c: nat) returns (i: int)
    requires Exec(INIT, es).Some? && c < |Exec(INIT, es).value.conns|
    ensures Exec(INIT, es).value.begun == Begins(es)
    ensures JoinsAt(es, i, c, Exec(INIT, es).value.conns[c].joined)
  {
    var before, e := es[..|es| - 1], es[|es| - 1];
    var s := Exec(INIT, before).value;
    RunKeepsInv(INIT, before);
    StepRegisters(s, e, c);
    RegisteredExactly(before, c);
    BegunCounts(before);
    if c < |s.conns| {
      i := JoinedExactly(before, c);
      assert es[..i] == before[..i];
    } else {
      i := |before|;
      assert es[..i] == before;
    }
  }

  lemma {:induction false} BegunCounts(es: seq<Event>)
    requires Exec(INIT, es).Some?
    ensures Exec(INIT, es).value.begun == Begins(es)
  {
    if es != [] {
      var before := es[..|es| - 1];
      RunKeepsInv(INIT, before);
      BegunCounts(before);
      StepRegisters(Exec(INIT, before).value, es[|es| - 1], 0);
    }
  }
}
