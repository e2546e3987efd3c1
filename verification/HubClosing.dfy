/**
 When the WebSocket hub closes a client's channel a second time.  The reader's teardown and
 every eviction close it, and neither looks whether it is closed already.
 */
module HubClosing {
  import opened Wrappers
  import opened H = Hub

  lemma ManyClosed(es: seq<Closer>)
    requires ClosedEvictions(es) > 0
    ensures es != []
  {
  }

  /** A step that closes c's channel a second time finds an eviction scheduled for c. */
  lemma SecondCloseStep(s: State, e: Event, c: nat)
    requires Inv(s) && Enabled(s, e) && Apply(s, e).closePanic == Some(c)
    ensures c < |s.conns| && s.conns[c].evictions != [] && Apply(s, e).conns == s.conns
  {
    assert (e.EvictClose? || e.TearClose?) && e.c == c;
    assert ConnOk(s, c);
    if e.TearClose? {
      ManyClosed(s.conns[c].evictions);
    }
  }

  /**
   In every run, broadcasts in progress or not: a channel is only closed a second time after
   some broadcast found its buffer full and scheduled an eviction.
   */
  lemma SecondCloseNeedsEviction(s: State, c: nat)
    requires Reachable(s) && s.closePanic == Some(c)
    ensures c < |s.conns| && s.conns[c].evictions != []
  {
    var es :| Exec(INIT, es) == Some(s);
    assert es != [];
    var u := Exec(INIT, es[..|es| - 1]).value;
    RunKeepsInv(INIT, es[..|es| - 1]);
    SecondCloseStep(u, es[|es| - 1], c);
  }

  /** Client c has left the map without an eviction. */
  ghost predicate LeftQuietly(s: State, c: nat) {
    c < |s.conns| && c !in s.clients && s.conns[c].evictions == []
  }

  lemma LeftStep(s: State, e: Event, c: nat)
    requires Inv(s) && Enabled(s, e) && LeftQuietly(s, c)
    ensures LeftQuietly(Apply(s, e), c)
  {
    if e.Visit? {
      assert s.todo[e.b] <= s.clients;
    }
  }

  lemma {:induction false} StaysLeft(s: State, es: seq<Event>, c: nat)
    requires Inv(s) && s.closePanic != Some(c) && LeftQuietly(s, c) && Exec(s, es).Some?
    ensures var t := Exec(s, es).value; Inv(t) && LeftQuietly(t, c) && t.closePanic != Some(c)
  {
    if es != [] {
      var u, e := Exec(s, es[..|es| - 1]).value, es[|es| - 1];
      StaysLeft(s, es[..|es| - 1], c);
      StepKeepsInv(u, e);
      LeftStep(u, e, c);
      if Apply(u, e).closePanic == Some(c) {
        SecondCloseStep(u, e, c);
      }
    }
  }

  lemma Extend(s: State, es: seq<Event>, u: State, e: Event) returns (fs: seq<Event>, t: State)
    requires Exec(s, es) == Some(u) && Enabled(u, e)
    ensures fs == es + [e] && t == Apply(u, e) && Exec(s, fs) == Some(t)
  {
    fs, t := es + [e], Apply(u, e);
    assert fs[..|es|] == es;
  }

  lemma {:induction false} SomeClosed(es: seq<Closer>, k: nat)
    requires k < |es| && es[k].Closed?
    ensures ClosedEvictions(es) >= 1
  {
    if k < |es| - 1 {
      SomeClosed(es[..|es| - 1], k);
    }
  }

  lemma {:induction false} TwoClosed(es: seq<Closer>, k: nat, l: nat)
    requires k < l < |es| && es[k].Closed? && es[l].Closed?
    ensures ClosedEvictions(es) >= 2
  {
    if l < |es| - 1 {
      TwoClosed(es[..|es| - 1], k, l);
    } else {
      SomeClosed(es[..|es| - 1], k);
    }
  }

  /**
   At most one of the goroutines that close a client's channel, its reader and its evictions,
   ever gets past its close: a run in which a second one does has panicked.
   */
  lemma OneCloserFinishes(s: State, c: nat, k: nat, l: nat)
    requires Reachable(s) && k < l
    ensures !(EvictionAt(s, c, k, Closed) && ReaderAt(s, c, Tearing(Closed)))
    ensures !(EvictionAt(s, c, k, Closed) && EvictionAt(s, c, l, Closed))
  {
    ReachableInv(s);
    if EvictionAt(s, c, k, Closed) {
      assert ConnOk(s, c);
      SomeClosed(s.conns[c].evictions, k);
      if EvictionAt(s, c, l, Closed) {
        TwoClosed(s.conns[c].evictions, k, l);
      }
    }
  }

  predicate NoBroadcast(es: seq<Event>) {
    forall i :: 0 <= i < |es| ==> !es[i].BeginBroadcast?
  }

  /** The first scheduled eviction deletes its client from the map. */
  lemma DriveDelete(s: State, c: nat) returns (es: seq<Event>, t: State)
    requires Inv(s) && s.closePanic.None? && s.todo == map[] && c < |s.conns| && s.conns[c].evictions != []
    ensures Exec(s, es) == Some(t) && NoBroadcast(es) && Inv(t) && t.todo == map[] && t.closePanic.None?
    ensures EvictionAt(t, c, 0, Deleted) || EvictionAt(t, c, 0, Closed)
  {
    es, t := [], s;
    if EvictionAt(s, c, 0, Waiting) {
      StepKeepsInv(s, EvictDelete(c, 0));
      es, t := Extend(s, es, t, EvictDelete(c, 0));
    }
  }

  /** ... and closes its channel. */
  lemma DriveClose(s: State, c: nat) returns (es: seq<Event>, t: State)
    requires Inv(s) && s.closePanic.None? && s.todo == map[]
    requires EvictionAt(s, c, 0, Deleted) || EvictionAt(s, c, 0, Closed)
    ensures Exec(s, es) == Some(t) && NoBroadcast(es)
    ensures t.closePanic != Some(c) ==>
      Inv(t) && t.todo == map[] && t.closePanic.None? && EvictionAt(t, c, 0, Closed) && t.conns[c].closes == 1
  {
    es, t := [], s;
    assert ConnOk(s, c);
    if EvictionAt(s, c, 0, Deleted) {
      StepKeepsInv(s, EvictClose(c, 0));
      es, t := Extend(s, es, t, EvictClose(c, 0));
    } else {
      SomeClosed(s.conns[c].evictions, 0);
    }
  }

  /** A channel closed once by an eviction has not been closed by the reader. */
  lemma ReaderStillDue(s: State, c: nat)
    requires c < |s.conns| && ConnOk(s, c) && s.conns[c].closes == 1 && EvictionAt(s, c, 0, Closed)
    ensures s.conns[c].reader != Tearing(Closed)
  {
    SomeClosed(s.conns[c].evictions, 0);
  }

  /** The channel is closed once, and the reader's teardown has not closed it yet. */
  predicate ReaderDue(s: State, c: nat) {
    && !s.sendPanic && s.closePanic.None? && s.todo == map[]
    && c < |s.conns| && s.conns[c].closes == 1 && s.conns[c].reader != Tearing(Closed)
  }

  lemma DriveTear(s: State, c: nat) returns (es: seq<Event>, t: State)
    requires ReaderDue(s, c)
    ensures Exec(s, es) == Some(t) && NoBroadcast(es) && ReaderDue(t, c) && t.conns[c].reader.Tearing?
  {
    es, t := [], s;
    if s.conns[c].reader.Reading? {
      es, t := Extend(s, es, t, ReadFail(c));
    }
  }

  lemma DriveTearDelete(s: State, c: nat) returns (es: seq<Event>, t: State)
    requires ReaderDue(s, c) && s.conns[c].reader.Tearing?
    ensures Exec(s, es) == Some(t) && NoBroadcast(es) && ReaderDue(t, c) && t.conns[c].reader == Tearing(Deleted)
  {
    es, t := [], s;
    if s.conns[c].reader.closer.Waiting? {
      es, t := Extend(s, es, t, TearDelete(c));
    }
  }

  /** The reader's teardown runs to its close. */
  lemma DriveReader(s: State, c: nat) returns (es: seq<Event>, t: State)
    requires ReaderDue(s, c)
    ensures Exec(s, es) == Some(t) && NoBroadcast(es) && t.closePanic == Some(c)
  {
    var fs, u := DriveTear(s, c);
    var gs, v := DriveTearDelete(u, c);
    ExecConcat(s, fs, gs);
    NoBroadcastConcat(fs, gs);
    es, t := Extend(s, fs + gs, v, TearClose(c));
  }

  lemma {:induction false} ExecConcat(s: State, es: seq<Event>, fs: seq<Event>)
    requires Exec(s, es).Some?
    ensures Exec(s, es + fs) == Exec(Exec(s, es).value, fs)
  {
    if fs == [] {
      assert es + fs == es;
    } else {
      assert (es + fs)[..|es + fs| - 1] == es + fs[..|fs| - 1];
      ExecConcat(s, es, fs[..|fs| - 1]);
    }
  }

  // ----- driving the hub to a second close -----

  lemma NoBroadcastConcat(es: seq<Event>, fs: seq<Event>)
    requires NoBroadcast(es) && NoBroadcast(fs)
    ensures NoBroadcast(es + fs)
  {
  }

  /** Events that are visits of broadcast b. */
  predicate VisitsOf(es: seq<Event>, b: nat) {
    forall i :: 0 <= i < |es| ==> es[i].Visit? && es[i].b == b
  }

  lemma OneVisit(s: State, b: nat, c: nat) returns (u: State)
    requires Inv(s) && Enabled(s, Visit(b, c))
    ensures Exec(s, [Visit(b, c)]) == Some(u) && Inv(u) && u.closePanic.None?
    ensures b in u.todo && u.todo[b] == s.todo[b] - {c} && u.todo[b := {}] == s.todo[b := {}]
    ensures u.clients == s.clients && |u.conns| == |s.conns|
    ensures forall d :: 0 <= d < |s.conns| && s.conns[d].evictions != [] ==> u.conns[d].evictions != []
  {
    VisitKeepsSafe(s, b, c);
    StepKeepsInv(s, Visit(b, c));
    u := Apply(s, Visit(b, c));
    assert Exec(s, []) == Some(s) && [Visit(b, c)][..0] == [];
  }

  /** Broadcast b can visit everybody it still owes a visit. */
  lemma {:induction false} DriveVisits(s: State, b: nat) returns (es: seq<Event>, t: State)
    requires Inv(s) && s.closePanic.None? && b in s.todo
    ensures Exec(s, es) == Some(t) && VisitsOf(es, b) && Inv(t) && t.closePanic.None?
    ensures t.todo == s.todo[b := {}] && t.clients == s.clients && |t.conns| == |s.conns|
    ensures forall c :: 0 <= c < |s.conns| && s.conns[c].evictions != [] ==> t.conns[c].evictions != []
    decreases s.todo[b]
  {
    if s.todo[b] == {} {
      es, t := [], s;
      assert s.todo == s.todo[b := {}];
    } else {
      var c :| c in s.todo[b];
      assert s.todo[b] <= s.clients;
      var u := OneVisit(s, b, c);
      var fs;
      fs, t := DriveVisits(u, b);
      ExecConcat(s, [Visit(b, c)], fs);
      es := [Visit(b, c)] + fs;
    }
  }

  /** Every broadcast in progress can finish. */
  lemma {:induction false} DriveBroadcasts(s: State) returns (es: seq<Event>, t: State)
    requires Inv(s) && s.closePanic.None?
    ensures Exec(s, es) == Some(t) && NoBroadcast(es) && Inv(t) && t.closePanic.None?
    ensures t.todo == map[] && t.clients == s.clients && |t.conns| == |s.conns|
    ensures forall c :: 0 <= c < |s.conns| && s.conns[c].evictions != [] ==> t.conns[c].evictions != []
    decreases s.todo.Keys
  {
    if s.todo == map[] {
      es, t := [], s;
    } else {
      assert s.todo.Keys != {};
      var b :| b in s.todo;
      var fs, u := DriveVisits(s, b);
      StepKeepsInv(u, EndBroadcast(b));
      fs, u := Extend(s, fs, u, EndBroadcast(b));
      assert u.todo.Keys == s.todo.Keys - {b} < s.todo.Keys;
      var gs;
      gs, t := DriveBroadcasts(u);
      ExecConcat(s, fs, gs);
      NoBroadcastConcat(fs, gs);
      es := fs + gs;
    }
  }

  /** With the lock free, a scheduled eviction and the reader's teardown close the channel twice. */
  lemma DriveTwoCloses(s: State, c: nat) returns (es: seq<Event>)
    requires Inv(s) && s.closePanic.None? && s.todo == map[] && c < |s.conns| && s.conns[c].evictions != []
    ensures NoBroadcast(es) && Exec(s, es).Some? && Exec(s, es).value.closePanic == Some(c)
  {
    var fs, t := DriveDelete(s, c);
    var gs, u := DriveClose(t, c);
    ExecConcat(s, fs, gs);
    NoBroadcastConcat(fs, gs);
    es := fs + gs;
    if u.closePanic != Some(c) {
      assert ConnOk(u, c);
      ReaderStillDue(u, c);
      var hs, v := DriveReader(u, c);
      ExecConcat(s, es, hs);
      NoBroadcastConcat(es, hs);
      es := es + hs;
    }
  }

  /**
   Once an eviction is scheduled, a second close is reachable without any further broadcast,
   from every reachable state, broadcasts in progress or not: the reader's own teardown closes
   the channel as well.
   */
  lemma EvictionLeadsToSecondClose(s: State, c: nat) returns (es: seq<Event>)
    requires Reachable(s) && s.closePanic.None? && c < |s.conns| && s.conns[c].evictions != []
    ensures NoBroadcast(es) && Exec(s, es).Some? && Exec(s, es).value.closePanic == Some(c)
  {
    ReachableInv(s);
    var fs, t := DriveBroadcasts(s);
    var gs := DriveTwoCloses(t, c);
    ExecConcat(s, fs, gs);
    NoBroadcastConcat(fs, gs);
    es := fs + gs;
  }

  /** One more broadcast, to every client, with nothing in between. */
  lemma DriveBroadcast(s: State) returns (es: seq<Event>, t: State)
    requires Inv(s) && s.closePanic.None? && s.todo == map[]
    ensures Exec(s, es) == Some(t) && Inv(t) && t.closePanic.None? && t.todo == map[] && t.clients == s.clients
    ensures t.conns == OfferedAll(s.conns, s.clients, s.begun)
  {
    var b := s.begun;
    StepKeepsInv(s, BeginBroadcast);
    assert Exec(s, []) == Some(s);
    var fs, u := Extend(s, [], s, BeginBroadcast);
    var gs, v := DriveVisits(u, b);
    VisitOrderIrrelevant(u, b, gs);
    assert u.todo[b] - v.todo[b] == s.clients;
    ExecConcat(s, fs, gs);
    StepKeepsInv(v, EndBroadcast(b));
    es, t := Extend(s, fs + gs, v, EndBroadcast(b));
    assert t.todo == map[];
  }

  /** Broadcasts nobody reads fill a registered client's buffer until its eviction is scheduled. */
  lemma {:induction false} DriveToEviction(s: State, c: nat) returns (es: seq<Event>, t: State)
    requires Inv(s) && s.closePanic.None? && s.todo == map[] && c in s.clients && c < |s.conns|
    ensures Exec(s, es) == Some(t) && Inv(t) && t.closePanic.None? && t.todo == map[]
    ensures c < |t.conns| && t.conns[c].evictions != []
    decreases SEND_BUFFER - |s.conns[c].buffer|
  {
    assert ConnOk(s, c);
    var fs, u := DriveBroadcast(s);
    if |s.conns[c].buffer| < SEND_BUFFER {
      assert u.conns[c] == Offered(s.conns[c], s.begun);
      var gs;
      gs, t := DriveToEviction(u, c);
      ExecConcat(s, fs, gs);
      es := fs + gs;
    } else {
      es, t := fs, u;
    }
  }

  lemma RegisteredLeadsToSecondClose(s: State, c: nat) returns (es: seq<Event>)
    requires Reachable(s) && s.closePanic.None? && c in s.clients && c < |s.conns|
    ensures Exec(s, es).Some? && Exec(s, es).value.closePanic == Some(c)
  {
    ReachableInv(s);
    var fs, t := DriveBroadcasts(s);
    var gs, u := DriveToEviction(t, c);
    ExecConcat(s, fs, gs);
    var hs := DriveTwoCloses(u, c);
    ExecConcat(s, fs + gs, hs);
    es := fs + gs + hs;
  }

  /**
   Where a second close of a client's channel is still possible: exactly while the client is
   registered, since further broadcasts can overflow it, or has an eviction scheduled.
   */
  lemma SecondCloseExactly(s: State, c: nat)
    requires Reachable(s) && s.closePanic.None? && c < |s.conns|
    ensures (exists es :: Exec(s, es).Some? && Exec(s, es).value.closePanic == Some(c))
       <==> c in s.clients || s.conns[c].evictions != []
  {
    if c in s.clients {
      var es := RegisteredLeadsToSecondClose(s, c);
    } else if s.conns[c].evictions != [] {
      var es := EvictionLeadsToSecondClose(s, c);
    } else {
      ReachableInv(s);
      forall es | Exec(s, es).Some?
        ensures Exec(s, es).value.closePanic != Some(c)
      {
        StaysLeft(s, es, c);
      }
    }
  }

  lemma ReachableStep(s: State, e: Event) returns (t: State)
    requires Reachable(s) && Enabled(s, e)
    ensures t == Apply(s, e) && Reachable(t)
  {
    var es :| Exec(INIT, es) == Some(s);
    var fs;
    fs, t := Extend(INIT, es, s, e);
  }

  /** One more broadcast to a single client nobody reads for. */
  lemma UnreadBroadcast(s: State) returns (t: State)
    requires Reachable(s) && !s.sendPanic && s.closePanic.None? && s.todo == map[]
    requires s.clients == {0} && |s.conns| == 1 && s.conns[0].closes == 0
    ensures Reachable(t) && t == s.(begun := s.begun + 1, conns := [Offered(s.conns[0], s.begun)])
  {
    var b := s.begun;
    t := ReachableStep(s, BeginBroadcast);
    assert t.todo == map[b := {0}];
    t := ReachableStep(t, Visit(b, 0));
    t := ReachableStep(t, EndBroadcast(b));
    assert t.todo == map[];
  }

  /** A client that does not read overflows after 256 broadcasts: evictions, and so second closes, do happen. */
  lemma OverflowReachable() returns (s: State)
    ensures Reachable(s) && s.closePanic.None? && s.todo == map[] && |s.conns| == 1 && s.conns[0].evictions == [Waiting]
  {
    assert Exec(INIT, []) == Some(INIT);
    s := ReachableStep(INIT, Connect);
    while |s.conns[0].buffer| < SEND_BUFFER
      invariant Reachable(s) && !s.sendPanic && s.closePanic.None? && s.todo == map[]
      invariant s.clients == {0} && |s.conns| == 1 && s.conns[0].closes == 0 && s.conns[0].evictions == []
      decreases SEND_BUFFER - |s.conns[0].buffer|
    {
      s := UnreadBroadcast(s);
    }
    s := UnreadBroadcast(s);
  }
}
