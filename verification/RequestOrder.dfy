/** Which requests a worker issues: its list over and over, in order, none skipped or repeated. */
module RequestOrder {
  import opened Engine
  import opened Wrappers

  /** The position in a list of n after k steps round it. */
  function Turn(k: nat, n: nat): nat {
    if k == 0 || Turn(k - 1, n) + 1 == n then 0 else Turn(k - 1, n) + 1
  }

  /** Complete rounds after k steps. */
  function Rounds(k: nat, n: nat): nat {
    if k == 0 then 0 else Rounds(k - 1, n) + (if Turn(k, n) == 0 then 1 else 0)
  }

  lemma {:induction false} TurnBelow(k: nat, n: nat)
    requires n > 0
    ensures Turn(k, n) < n
  {
    if k > 0 {
      TurnBelow(k - 1, n);
    }
  }

  lemma OneMoreRound(q: nat, n: nat)
    ensures (q + 1) * n == q * n + n
  {
  }

  lemma {:induction false} TurnsSplit(k: nat, n: nat)
    requires n > 0
    ensures k == Rounds(k, n) * n + Turn(k, n)
  {
    if k > 0 {
      TurnsSplit(k - 1, n);
      OneMoreRound(Rounds(k - 1, n), n);
    }
  }

  lemma {:induction false} MultiplesApart(p: nat, q: nat, n: nat)
    ensures p < q ==> p * n + n <= q * n
    decreases q
  {
    if p < q {
      MultiplesApart(p, q - 1, n);
      OneMoreRound(q - 1, n);
    }
  }

  lemma Remainder(k: nat, n: nat, q: nat, r: nat)
    requires k == q * n + r && r < n
    ensures k / n == q && k % n == r
  {
    MultiplesApart(k / n, q, n);
    MultiplesApart(q, k / n, n);
  }

  lemma TurnIsRemainder(k: nat, n: nat)
    requires n > 0
    ensures Turn(k, n) == k % n && Rounds(k, n) == k / n
  {
    TurnBelow(k, n);
    TurnsSplit(k, n);
    Remainder(k, n, Rounds(k, n), Turn(k, n));
  }

  // ----- every worker keeps to its list -----

  ghost predicate InTurn(issued: seq<nat>, n: nat) {
    forall k :: 0 <= k < |issued| ==> issued[k] == Turn(k, n)
  }

  ghost predicate KeepsTurn(w: Worker, n: nat) {
    && InTurn(w.issued, n)
    && |w.issued| == w.produced + (if w.pc.Requesting? then 1 else 0)
    && (n == 0 ==> w.issued == [] && !w.pc.Requesting? && !w.pc.Offering?)
    && match w.pc
       case Born => w.issued == []
       case Loop(j) => (if n == 0 then j == 0 else Turn(|w.issued|, n) == if j == n then 0 else j)
       case Requesting(j) => w.issued != [] && j == Turn(|w.issued| - 1, n)
       case Offering(j, _) => w.issued != [] && j == Turn(|w.issued| - 1, n)
       case _ => true
  }

  lemma NextKeepsTurn(c: Config, cancelled: bool, w: Worker)
    requires KeepsTurn(w, c.requests) && w.pc.Internal()
    ensures KeepsTurn(WorkerNext(c, cancelled, w), c.requests)
  {
    if c.requests > 0 {
      TurnBelow(|w.issued|, c.requests);
    }
  }

  lemma OfferKeepsTurn(c: Config, cancelled: bool, w: Worker)
    requires KeepsTurn(w, c.requests) && w.pc.Offering?
    ensures KeepsTurn(AfterSend(w, cancelled), c.requests) && KeepsTurn(AfterDrop(w), c.requests)
  {
  }

  ghost predicate AllKeepTurn(c: Config, ws: seq<Worker>) {
    forall i :: 0 <= i < |ws| ==> KeepsTurn(ws[i], c.requests)
  }

  lemma WorkerEventKeepsTurn(c: Config, s: State, e: Event)
    requires AllKeepTurn(c, s.pool.workers) && Enabled(c, s, e) && IsWorkerEvent(e)
    ensures AllKeepTurn(c, Apply(c, s, e).pool.workers)
  {
    var w := s.pool.workers[e.i];
    assert KeepsTurn(w, c.requests);
    match e
    case WorkerStep(_) => NextKeepsTurn(c, s.cancelled, w);
    case Respond(_, _) =>
    case Send(_) => OfferKeepsTurn(c, s.cancelled, w);
    case Drop(_) => OfferKeepsTurn(c, s.cancelled, w);
  }

  lemma StepKeepsTurn(c: Config, s: State, e: Event)
    requires AllKeepTurn(c, s.pool.workers) && Enabled(c, s, e)
    ensures AllKeepTurn(c, Apply(c, s, e).pool.workers)
  {
    if IsWorkerEvent(e) {
      WorkerEventKeepsTurn(c, s, e);
    }
  }

  lemma {:induction false} RunKeepsTurn(c: Config, es: seq<Event>)
    requires Exec(c, INIT, es).Some?
    ensures AllKeepTurn(c, Exec(c, INIT, es).value.pool.workers)
  {
    if es != [] {
      RunKeepsTurn(c, es[..|es| - 1]);
      StepKeepsTurn(c, Exec(c, INIT, es[..|es| - 1]).value, es[|es| - 1]);
    }
  }

  // ----- how often each request is issued -----

  function CountOf(issued: seq<nat>, p: nat): nat {
    if issued == [] then 0 else CountOf(issued[..|issued| - 1], p) + (if issued[|issued| - 1] == p then 1 else 0)
  }

  lemma {:induction false} TimesIssued(issued: seq<nat>, n: nat, p: nat)
    requires n > 0 && p < n && InTurn(issued, n)
    ensures CountOf(issued, p) == Rounds(|issued|, n) + (if p < Turn(|issued|, n) then 1 else 0)
  {
    if issued != [] {
      TimesIssued(issued[..|issued| - 1], n, p);
      TurnBelow(|issued| - 1, n);
    }
  }

  // ----- theorems -----

  /**
   The k-th request a worker issues is number k modulo the length of the list, and it has
   issued as many as it has produced results, plus the one in flight.
   */
  lemma IssuesInOrder(c: Config, s: State, i: nat, k: nat)
    requires Reachable(c, s) && WorkerAt(s, i)
    ensures var w := s.pool.workers[i];
      && |w.issued| == w.produced + (if w.pc.Requesting? then 1 else 0)
      && (k < |w.issued| ==> c.requests > 0 && w.issued[k] == k % c.requests)
  {
    var es :| Exec(c, INIT, es) == Some(s);
    RunKeepsTurn(c, es);
    assert KeepsTurn(s.pool.workers[i], c.requests);
    if k < |s.pool.workers[i].issued| {
      TurnIsRemainder(k, c.requests);
    }
  }

  /**
   So a worker with m results and none in flight has issued every request of the list m divided
   by its length times, those before the remainder once more.  With n complete rounds of results
   it has issued every one exactly n times.
   */
  lemma IssuesEvenly(c: Config, s: State, i: nat, p: nat, n: nat)
    requires Reachable(c, s) && WorkerAt(s, i) && !s.pool.workers[i].pc.Requesting? && p < c.requests
    ensures var w := s.pool.workers[i];
      && CountOf(w.issued, p) == w.produced / c.requests + (if p < w.produced % c.requests then 1 else 0)
      && (w.produced == n * c.requests ==> CountOf(w.issued, p) == n)
  {
    var es :| Exec(c, INIT, es) == Some(s);
    RunKeepsTurn(c, es);
    var w := s.pool.workers[i];
    assert KeepsTurn(w, c.requests);
    TimesIssued(w.issued, c.requests, p);
    TurnIsRemainder(w.produced, c.requests);
    if w.produced == n * c.requests {
      Remainder(w.produced, c.requests, n, 0);
    }
  }
}
