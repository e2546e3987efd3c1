/**
 The WebSocket hub.  Broadcasts hold the read lock while they offer the message to the
 clients one by one, in any order, and may overlap; registration and removal are critical
 sections of the write lock, so they happen only while no broadcast is in progress; channels
 are closed after the lock is released, by the reader's teardown and by evictions alike.

 Clients and broadcasts are numbered in the order they join and begin.
 */
module Hub {
  import opened Ranges
  import opened Wrappers

  const SEND_BUFFER: nat := 256

  /** The stages of the two kinds of goroutine that remove a client and close its channel. */
  datatype Closer = Waiting | Deleted | Closed
  datatype Reader = Reading | Tearing(closer: Closer)
  datatype Pump = Ready | Writing | Stopped

  /**
   A connection: its channel's buffer, what writePump has taken from it and written to the
   socket, how often the channel has been closed, and the number of broadcasts begun before
   it joined.
   */
  datatype Conn = Conn(
    buffer: seq<nat>, taken: seq<nat>, written: seq<nat>, closes: nat, joined: nat,
    reader: Reader, pump: Pump, evictions: seq<Closer>)

  /** todo maps each broadcast in progress to the clients it has not visited yet. */
  datatype State = State(
    clients: set<nat>, conns: seq<Conn>, begun: nat, todo: map<nat, set<nat>>,
    overlapped: bool, sendPanic: bool, closePanic: Option<nat>)

  const INIT := State({}, [], 0, map[], false, false, None)

  datatype Event =
    | Connect
    | BeginBroadcast | Visit(b: nat, c: nat) | EndBroadcast(b: nat)
    | EvictDelete(c: nat, k: nat) | EvictClose(c: nat, k: nat)
    | ReadFail(c: nat) | TearDelete(c: nat) | TearClose(c: nat)
    | PumpTake(c: nat) | PumpWrote(c: nat, ok: bool) | PumpQuit(c: nat)

  predicate EvictionAt(s: State, c: nat, k: nat, stage: Closer) {
    c < |s.conns| && k < |s.conns[c].evictions| && s.conns[c].evictions[k] == stage
  }

  predicate ReaderAt(s: State, c: nat, reader: Reader) {
    c < |s.conns| && s.conns[c].reader == reader
  }

  /** A ping or write error, or a closed and empty channel, ends writePump. */
  predicate Enabled(s: State, e: Event) {
    && !s.sendPanic && s.closePanic.None?
    && match e
       case Connect => s.todo == map[]
       case BeginBroadcast => true
       case Visit(b, c) => b in s.todo && c in s.todo[b] && c < |s.conns|
       case EndBroadcast(b) => b in s.todo && s.todo[b] == {}
       case EvictDelete(c, k) => EvictionAt(s, c, k, Waiting) && s.todo == map[]
       case EvictClose(c, k) => EvictionAt(s, c, k, Deleted)
       case ReadFail(c) => ReaderAt(s, c, Reading)
       case TearDelete(c) => ReaderAt(s, c, Tearing(Waiting)) && s.todo == map[]
       case TearClose(c) => ReaderAt(s, c, Tearing(Deleted))
       case PumpTake(c) => c < |s.conns| && s.conns[c].pump.Ready? && s.conns[c].buffer != []
       case PumpWrote(c, _) => c < |s.conns| && s.conns[c].pump.Writing?
       case PumpQuit(c) => c < |s.conns| && s.conns[c].pump.Ready?
  }

  function NewConn(joined: nat): Conn {
    Conn([], [], [], 0, joined, Reading, Ready, [])
  }

  /** The non-blocking send: append, or schedule an eviction when the buffer is full. */
  function Offered(conn: Conn, b: nat): Conn {
    if |conn.buffer| < SEND_BUFFER then conn.(buffer := conn.buffer + [b])
    else conn.(evictions := conn.evictions + [Waiting])
  }

  function SetConn(s: State, c: nat, conn: Conn): State
    requires c < |s.conns|
  {
    s.(conns := s.conns[c := conn])
  }

  function SetEviction(conn: Conn, k: nat, stage: Closer): Conn
    requires k < |conn.evictions|
  {
    conn.(evictions := conn.evictions[k := stage])
  }

  /** Closing a closed channel panics. */
  function Close(s: State, c: nat, conn: Conn): State
    requires c < |s.conns|
  {
    if conn.closes > 0 then s.(closePanic := Some(c)) else SetConn(s, c, conn.(closes := 1))
  }

  function Apply(s: State, e: Event): State
    requires Enabled(s, e)
  {
    match e
    case Connect => s.(clients := s.clients + {|s.conns|}, conns := s.conns + [NewConn(s.begun)])
    case BeginBroadcast =>
      s.(begun := s.begun + 1, todo := s.todo[s.begun := s.clients], overlapped := s.overlapped || s.todo != map[])
    case Visit(b, c) =>
      if s.conns[c].closes > 0 then s.(sendPanic := true)
      else SetConn(s, c, Offered(s.conns[c], b)).(todo := s.todo[b := s.todo[b] - {c}])
    case EndBroadcast(b) => s.(todo := s.todo - {b})
    case EvictDelete(c, k) =>
      SetConn(s, c, SetEviction(s.conns[c], k, Deleted)).(clients := s.clients - {c})
    case EvictClose(c, k) => Close(s, c, SetEviction(s.conns[c], k, Closed))
    case ReadFail(c) => SetConn(s, c, s.conns[c].(reader := Tearing(Waiting)))
    case TearDelete(c) => SetConn(s, c, s.conns[c].(reader := Tearing(Deleted))).(clients := s.clients - {c})
    case TearClose(c) => Close(s, c, s.conns[c].(reader := Tearing(Closed)))
    case PumpTake(c) =>
      var conn := s.conns[c];
      SetConn(s, c, conn.(buffer := conn.buffer[1..], taken := conn.taken + [conn.buffer[0]], pump := Writing))
    case PumpWrote(c, ok) =>
      var conn := s.conns[c];
      if ok && conn.taken != [] then
        SetConn(s, c, conn.(written := conn.written + [conn.taken[|conn.taken| - 1]], pump := Ready))
      else SetConn(s, c, conn.(pump := Stopped))
    case PumpQuit(c) => SetConn(s, c, s.conns[c].(pump := Stopped))
  }

  function Exec(s: State, es: seq<Event>): Option<State> {
    if es == [] then Some(s)
    else
      match Exec(s, es[..|es| - 1])
      case None => None
      case Some(u) => if Enabled(u, es[|es| - 1]) then Some(Apply(u, es[|es| - 1])) else None
  }

  ghost predicate Reachable(s: State) {
    exists es :: Exec(INIT, es) == Some(s)
  }

  // ----- invariants -----

  /** Everything the client has received or will receive from its buffer, in order. */
  function Stream(conn: Conn): seq<nat> {
    conn.taken + conn.buffer
  }

  predicate Untouched(conn: Conn) {
    && conn.closes == 0 && (conn.reader.Reading? || conn.reader.closer.Waiting?)
    && forall k :: 0 <= k < |conn.evictions| ==> conn.evictions[k].Waiting?
  }

  function ClosedEvictions(es: seq<Closer>): nat {
    if es == [] then 0
    else ClosedEvictions(es[..|es| - 1]) + (if es[|es| - 1].Closed? then 1 else 0)
  }

  /** How many closers have closed the channel. */
  function ClosersDone(conn: Conn): nat {
    (if conn.reader == Tearing(Closed) then 1 else 0) + ClosedEvictions(conn.evictions)
  }

  ghost predicate Distinct(xs: seq<nat>) {
    forall i, j :: 0 <= i < j < |xs| ==> xs[i] != xs[j]
  }

  /** Broadcast b is still going to visit client c. */
  predicate Owed(s: State, b: nat, c: nat) {
    b in s.todo && c in s.todo[b]
  }

  /** A client in the map has an open channel, and broadcasts in progress visit only such clients. */
  ghost predicate Safe(s: State) {
    && !s.sendPanic
    && (forall c :: c in s.clients ==> c < |s.conns| && Untouched(s.conns[c]))
    && (forall b :: b in s.todo ==> b < s.begun && s.todo[b] <= s.clients)
    && (forall b :: b in s.todo ==> JoinedBefore(s, s.todo[b], b))
  }

  ghost predicate JoinedBefore(s: State, cs: set<nat>, b: nat) {
    forall c :: c in cs ==> c < |s.conns| && s.conns[c].joined <= b
  }

  ghost predicate ConnOk(s: State, c: nat)
    requires c < |s.conns|
  {
    var conn := s.conns[c];
    && |conn.buffer| <= SEND_BUFFER
    && conn.joined <= s.begun
    && Distinct(Stream(conn))
    && (forall b :: b in Stream(conn) ==> conn.joined <= b < s.begun && !Owed(s, b, c))
    && ClosersDone(conn) == conn.closes <= 1
    && match conn.pump
       case Ready => conn.written == conn.taken
       case Writing => conn.taken != [] && conn.written == conn.taken[..|conn.taken| - 1]
       case Stopped =>
         conn.written == conn.taken || (conn.taken != [] && conn.written == conn.taken[..|conn.taken| - 1])
  }

  ghost predicate ConnsOk(s: State) {
    forall c :: 0 <= c < |s.conns| ==> ConnOk(s, c)
  }

  /** A registered client with no scheduled eviction has every broadcast begun since it joined. */
  ghost predicate Complete(s: State) {
    forall c, b: nat ::
      (c in s.clients && c < |s.conns| && s.conns[c].evictions == []
       && s.conns[c].joined <= b < s.begun && !Owed(s, b, c))
      ==> b in Stream(s.conns[c])
  }

  /** As long as broadcasts do not overlap, at most the latest is in progress and streams are in order. */
  ghost predicate Serial(s: State) {
    !s.overlapped ==>
      && (forall b :: b in s.todo ==> b == s.begun - 1)
      && (forall c :: 0 <= c < |s.conns| ==> Increasing(Stream(s.conns[c])))
  }

  ghost predicate Inv(s: State) {
    Safe(s) && ConnsOk(s) && Complete(s) && Serial(s)
  }

  // ----- every step keeps the invariant -----

  lemma {:induction false} ClosedUpdate(es: seq<Closer>, k: nat, stage: Closer)
    requires k < |es|
    ensures ClosedEvictions(es[k := stage])
         == ClosedEvictions(es) - (if es[k].Closed? then 1 else 0) + (if stage.Closed? then 1 else 0)
  {
    var n := |es| - 1;
    if k == n {
      assert es[k := stage][..n] == es[..n];
    } else {
      assert es[k := stage][..n] == es[..n][k := stage];
      ClosedUpdate(es[..n], k, stage);
    }
  }

  lemma ClosedSnoc(es: seq<Closer>)
    ensures ClosedEvictions(es + [Waiting]) == ClosedEvictions(es)
  {
    assert (es + [Waiting])[..|es|] == es;
  }

  lemma StreamAfterOffer(conn: Conn, b: nat)
    ensures var off := Offered(conn, b);
      Stream(off) == if |conn.buffer| < SEND_BUFFER then Stream(conn) + [b] else Stream(conn)
  {
    if |conn.buffer| < SEND_BUFFER {
      assert conn.taken + (conn.buffer + [b]) == (conn.taken + conn.buffer) + [b];
    }
  }

  lemma StreamAfterTake(conn: Conn)
    requires conn.buffer != []
    ensures conn.taken + [conn.buffer[0]] + conn.buffer[1..] == Stream(conn)
  {
  }

  /** Events that concern one connection and neither the lock nor its stream. */
  predicate IsLocal(e: Event) {
    e.EvictClose? || e.ReadFail? || e.TearClose? || e.PumpTake? || e.PumpWrote? || e.PumpQuit?
  }

  predicate IsDelete(e: Event) {
    e.EvictDelete? || e.TearDelete?
  }

  lemma LocalStream(s: State, e: Event)
    requires Enabled(s, e) && (IsLocal(e) || IsDelete(e))
    ensures var t := Apply(s, e);
      && |t.conns| == |s.conns| && t.begun == s.begun && t.todo == s.todo && t.overlapped == s.overlapped
      && t.sendPanic == s.sendPanic && t.clients == (if IsDelete(e) then s.clients - {e.c} else s.clients)
      && (forall c :: 0 <= c < |s.conns| && c != e.c ==> t.conns[c] == s.conns[c])
      && Stream(t.conns[e.c]) == Stream(s.conns[e.c])
      && t.conns[e.c].joined == s.conns[e.c].joined && |t.conns[e.c].evictions| == |s.conns[e.c].evictions|
  {
    if e.PumpTake? {
      StreamAfterTake(s.conns[e.c]);
    }
  }

  lemma LocalKeepsSafe(s: State, e: Event)
    requires Safe(s) && Enabled(s, e) && (IsLocal(e) || IsDelete(e))
    ensures Safe(Apply(s, e))
  {
    LocalStream(s, e);
  }

  lemma LocalKeepsComplete(s: State, e: Event)
    requires Complete(s) && Serial(s) && Enabled(s, e) && (IsLocal(e) || IsDelete(e))
    ensures Complete(Apply(s, e)) && Serial(Apply(s, e))
  {
    LocalStream(s, e);
  }

  lemma LocalClosers(s: State, e: Event)
    requires ConnsOk(s) && Enabled(s, e) && (IsLocal(e) || IsDelete(e))
    ensures var conn := Apply(s, e).conns[e.c]; ClosersDone(conn) == conn.closes <= 1
  {
    assert ConnOk(s, e.c);
    if e.EvictClose? {
      ClosedUpdate(s.conns[e.c].evictions, e.k, Closed);
    } else if e.EvictDelete? {
      ClosedUpdate(s.conns[e.c].evictions, e.k, Deleted);
    }
  }

  /** What ConnOk says of a connection depends on it, the broadcasts begun and those owed. */
  lemma SameConnOk(s: State, t: State, c: nat)
    requires c < |s.conns| && c < |t.conns| && t.conns[c] == s.conns[c]
    requires t.begun == s.begun && t.todo == s.todo && ConnOk(s, c)
    ensures ConnOk(t, c)
  {
  }

  lemma LocalKeepsConn(s: State, e: Event)
    requires ConnsOk(s) && Enabled(s, e) && (IsLocal(e) || IsDelete(e))
    ensures e.c < |Apply(s, e).conns| && ConnOk(Apply(s, e), e.c)
  {
    assert ConnOk(s, e.c);
    LocalStream(s, e);
    LocalClosers(s, e);
  }

  lemma LocalKeepsConns(s: State, e: Event)
    requires ConnsOk(s) && Enabled(s, e) && (IsLocal(e) || IsDelete(e))
    ensures ConnsOk(Apply(s, e))
  {
    var t := Apply(s, e);
    LocalStream(s, e);
    LocalKeepsConn(s, e);
    forall c | 0 <= c < |t.conns| && c != e.c
      ensures ConnOk(t, c)
    {
      assert ConnOk(s, c);
      SameConnOk(s, t, c);
    }
  }

  lemma VisitKeepsSafe(s: State, b: nat, c: nat)
    requires Safe(s) && Enabled(s, Visit(b, c))
    ensures Safe(Apply(s, Visit(b, c))) && s.conns[c].closes == 0
  {
  }

  lemma VisitKeepsVisited(s: State, b: nat, c: nat)
    requires Safe(s) && c < |s.conns| && ConnOk(s, c) && Enabled(s, Visit(b, c))
    ensures ConnOk(Apply(s, Visit(b, c)), c)
  {
    StreamAfterOffer(s.conns[c], b);
    ClosedSnoc(s.conns[c].evictions);
    assert Owed(s, b, c);
  }

  lemma VisitKeepsOther(s: State, b: nat, c: nat, d: nat)
    requires Safe(s) && d < |s.conns| && ConnOk(s, d) && Enabled(s, Visit(b, c)) && d != c
    ensures ConnOk(Apply(s, Visit(b, c)), d)
  {
    var t := Apply(s, Visit(b, c));
    assert t.conns[d] == s.conns[d] && t.begun == s.begun;
  }

  lemma VisitKeepsConns(s: State, b: nat, c: nat)
    requires Safe(s) && ConnsOk(s) && Enabled(s, Visit(b, c))
    ensures ConnsOk(Apply(s, Visit(b, c)))
  {
    forall d | 0 <= d < |Apply(s, Visit(b, c)).conns|
      ensures ConnOk(Apply(s, Visit(b, c)), d)
    {
      assert ConnOk(s, d);
      if d == c {
        VisitKeepsVisited(s, b, c);
      } else {
        VisitKeepsOther(s, b, c, d);
      }
    }
  }

  lemma VisitKeepsComplete(s: State, b: nat, c: nat)
    requires Safe(s) && Complete(s) && Enabled(s, Visit(b, c))
    ensures Complete(Apply(s, Visit(b, c)))
  {
    StreamAfterOffer(s.conns[c], b);
  }

  /** Without overlap the visiting broadcast is the latest, so it is larger than everything in the stream. */
  lemma StreamBelow(s: State, b: nat, c: nat, i: nat)
    requires Serial(s) && !s.overlapped && c < |s.conns| && ConnOk(s, c) && Owed(s, b, c) && i < |Stream(s.conns[c])|
    ensures Stream(s.conns[c])[i] < b
  {
    assert Stream(s.conns[c])[i] in Stream(s.conns[c]);
    assert b in s.todo && b == s.begun - 1;
  }

  lemma VisitKeepsIncreasing(s: State, b: nat, c: nat)
    requires Serial(s) && !s.overlapped && c < |s.conns| && ConnOk(s, c) && Owed(s, b, c)
    ensures Increasing(Stream(Offered(s.conns[c], b)))
  {
    StreamAfterOffer(s.conns[c], b);
    forall i | 0 <= i < |Stream(s.conns[c])|
      ensures Stream(s.conns[c])[i] < b
    {
      StreamBelow(s, b, c, i);
    }
    IncreasingSnoc(Stream(s.conns[c]), b);
  }

  lemma VisitKeepsSerial(s: State, b: nat, c: nat)
    requires Safe(s) && ConnsOk(s) && Serial(s) && Enabled(s, Visit(b, c))
    ensures Serial(Apply(s, Visit(b, c)))
  {
    if !s.overlapped {
      assert ConnOk(s, c);
      VisitKeepsIncreasing(s, b, c);
    }
  }

  /** The lock events: joining, and beginning and ending a broadcast. */
  lemma LockKeepsSafe(s: State, e: Event)
    requires Inv(s) && Enabled(s, e) && (e.Connect? || e.BeginBroadcast? || e.EndBroadcast?)
    ensures Safe(Apply(s, e))
  {
    if e.BeginBroadcast? {
      forall c | c in s.clients
        ensures s.conns[c].joined <= s.begun
      {
        assert ConnOk(s, c);
      }
    }
  }

  lemma LockKeepsInv(s: State, e: Event)
    requires Inv(s) && Enabled(s, e) && (e.Connect? || e.BeginBroadcast? || e.EndBroadcast?)
    ensures Inv(Apply(s, e))
  {
    var t := Apply(s, e);
    LockKeepsSafe(s, e);
    forall c | 0 <= c < |t.conns|
      ensures ConnOk(t, c)
    {
      if c < |s.conns| {
        assert ConnOk(s, c);
      }
    }
  }

  lemma StepKeepsInv(s: State, e: Event)
    requires Inv(s) && Enabled(s, e)
    ensures Inv(Apply(s, e))
  {
    if IsLocal(e) || IsDelete(e) {
      LocalKeepsSafe(s, e);
      LocalKeepsConns(s, e);
      LocalKeepsComplete(s, e);
    } else if e.Visit? {
      VisitKeepsSafe(s, e.b, e.c);
      VisitKeepsConns(s, e.b, e.c);
      VisitKeepsComplete(s, e.b, e.c);
      VisitKeepsSerial(s, e.b, e.c);
    } else {
      LockKeepsInv(s, e);
    }
  }

  lemma {:induction false} RunKeepsInv(s: State, es: seq<Event>)
    requires Inv(s) && Exec(s, es).Some?
    ensures Inv(Exec(s, es).value)
  {
    if es != [] {
      RunKeepsInv(s, es[..|es| - 1]);
      StepKeepsInv(Exec(s, es[..|es| - 1]).value, es[|es| - 1]);
    }
  }

  lemma ReachableInv(s: State)
    requires Reachable(s)
    ensures Inv(s)
  {
    var es :| Exec(INIT, es) == Some(s);
    RunKeepsInv(INIT, es);
  }

  // ----- one broadcast with nothing in between -----

  /** Every client in cs is offered broadcast b. */
  function OfferedAll(conns: seq<Conn>, cs: set<nat>, b: nat): (r: seq<Conn>)
    ensures |r| == |conns|
  {
    seq(|conns|, c requires 0 <= c < |conns| => if c in cs then Offered(conns[c], b) else conns[c])
  }

  /** Whatever order the clients are visited in, the outcome is the same. */
  lemma {:induction false} VisitOrderIrrelevant(s: State, b: nat, es: seq<Event>)
    requires Safe(s) && b in s.todo && Exec(s, es).Some?
    requires forall i :: 0 <= i < |es| ==> es[i].Visit? && es[i].b == b
    ensures var t := Exec(s, es).value;
      && Safe(t) && b in t.todo && t.todo[b] <= s.todo[b] && t.clients == s.clients
      && t.conns == OfferedAll(s.conns, s.todo[b] - t.todo[b], b)
  {
    if es == [] {
      assert OfferedAll(s.conns, {}, b) == s.conns;
    } else {
      var u, e := Exec(s, es[..|es| - 1]).value, es[|es| - 1];
      VisitOrderIrrelevant(s, b, es[..|es| - 1]);
      VisitKeepsSafe(u, b, e.c);
      assert u.conns[e.c] == s.conns[e.c];
      assert s.todo[b] - (u.todo[b] - {e.c}) == (s.todo[b] - u.todo[b]) + {e.c};
    }
  }

  class Hub {
    var clients: set<nat>
    var conns: seq<Conn>

    ghost predicate Valid()
      reads this
    {
      forall c :: c in clients ==> c < |conns| && conns[c].closes == 0
    }

    constructor ()
      ensures Valid() && clients == {} && conns == []
    {
      clients, conns := {}, [];
    }

    /** A new connection joins the map. */
    method HandleWebSocket(begun: nat) returns (c: nat)
      requires Valid()
      modifies this
      ensures Valid() && c == old(|conns|)
      ensures clients == old(clients) + {c} && conns == old(conns) + [NewConn(begun)]
    {
      c := |conns|;
      conns := conns + [NewConn(begun)];
      clients := clients + {c};
    }

    /** Offers broadcast b to every client, in the order the map yields them. */
    method Broadcast(b: nat)
      requires Valid()
      modifies this
      ensures Valid() && clients == old(clients) && conns == OfferedAll(old(conns), clients, b)
    {
      var todo := clients;
      while todo != {}
        invariant todo <= clients == old(clients) && |conns| == |old(conns)|
        invariant forall c :: 0 <= c < |conns| ==>
          conns[c] == if c in clients && c !in todo then Offered(old(conns)[c], b) else old(conns)[c]
        decreases todo
      {
        var c :| c in todo;
        todo := todo - {c};
        var conn := conns[c];
        if |conn.buffer| < SEND_BUFFER {
          conns := conns[c := conn.(buffer := conn.buffer + [b])];
        } else {
          conns := conns[c := conn.(evictions := conn.evictions + [Waiting])];
        }
      }
    }

    /** The delete of a teardown or an eviction; closing is left to its caller. */
    method Forget(c: nat)
      requires Valid()
      modifies this
      ensures Valid() && clients == old(clients) - {c} && conns == old(conns)
    {
      clients := clients - {c};
    }
  }
}
