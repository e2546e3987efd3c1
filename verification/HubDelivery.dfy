/**
 What the WebSocket hub delivers: to whom a broadcast is sent, how often, and in which order.
 */
module HubDelivery {
  import opened Ranges
  import opened H = Hub

  /** A client in the map has an open channel, so no broadcast sends on a closed one; buffers are bounded. */
  lemma DeliverySafety(s: State)
    requires Reachable(s)
    ensures !s.sendPanic
    ensures forall c :: c in s.clients ==> c < |s.conns| && s.conns[c].closes == 0
    ensures forall c :: 0 <= c < |s.conns| ==> |s.conns[c].buffer| <= 256
  {
    ReachableInv(s);
    forall c | 0 <= c < |s.conns|
      ensures |s.conns[c].buffer| <= SEND_BUFFER
    {
      assert ConnOk(s, c);
    }
  }

  /**
   A registered client with no scheduled eviction has received or buffered every broadcast
   begun since it joined exactly once, except those in progress that have not visited it;
   everything it received was written to the socket, but for a last write under way or failed.
   */
  lemma ExactlyOnce(s: State, c: nat)
    requires Reachable(s) && c in s.clients && c < |s.conns| && s.conns[c].evictions == []
    ensures var conn := s.conns[c];
      && Distinct(Stream(conn))
      && (forall b: nat :: b in Stream(conn) <==> conn.joined <= b < s.begun && !Owed(s, b, c))
      && conn.written <= conn.taken && |conn.taken| <= |conn.written| + 1
  {
    ReachableInv(s);
    assert ConnOk(s, c);
  }

  lemma SerialShape(s: State, c: nat)
    requires Reachable(s) && !s.overlapped && c < |s.conns|
    ensures Increasing(Stream(s.conns[c])) && s.conns[c].joined <= s.begun
    ensures forall b: nat :: Owed(s, b, c) ==> b == s.begun - 1 && s.conns[c].joined <= b
  {
    ReachableInv(s);
    assert ConnOk(s, c);
    forall b: nat | Owed(s, b, c)
      ensures b == s.begun - 1 && s.conns[c].joined <= b
    {
      assert b in s.todo && JoinedBefore(s, s.todo[b], b);
    }
  }

  /** Broadcasts that have visited client c, when they do not overlap. */
  function Upto(s: State, c: nat): nat {
    if s.begun > 0 && Owed(s, s.begun - 1, c) then s.begun - 1 else s.begun
  }

  lemma SerialElements(s: State, c: nat)
    requires Reachable(s) && !s.overlapped && c in s.clients && c < |s.conns| && s.conns[c].evictions == []
    ensures var conn := s.conns[c];
      && conn.joined <= Upto(s, c)
      && (forall b: nat :: b in Stream(conn) <==> conn.joined <= b < Upto(s, c))
  {
    ExactlyOnce(s, c);
    SerialShape(s, c);
  }

  /** If broadcasts never overlapped, the stream is exactly the broadcasts since joining, in order. */
  lemma SerialInOrder(s: State, c: nat)
    requires Reachable(s) && !s.overlapped && c in s.clients && c < |s.conns| && s.conns[c].evictions == []
    ensures s.conns[c].joined <= Upto(s, c) && Stream(s.conns[c]) == Range(s.conns[c].joined, Upto(s, c))
  {
    SerialElements(s, c);
    SerialShape(s, c);
    var stream := Stream(s.conns[c]);
    assert forall i :: 0 <= i < |stream| ==> stream[i] in stream;
    IncreasingRange(stream, s.conns[c].joined, Upto(s, c));
  }
}
