/**
 At most one start command per run and agent, delivered at most once: what the command
 queues guarantee as long as each start command is enqueued by a single call.
 */
module StartOnce {
  import opened Wrappers
  import opened AgentManager
  import Q = CommandQueues

  /** Call k is the enqueue of a start command of run r for agent a. */
  predicate StartPut(q: Q.State, k: int, r: RunId, a: AgentId) {
    && 0 <= k < |q.calls| && q.calls[k].op.Put? && q.calls[k].op.cmd.Start?
    && q.calls[k].op.cmd.run == r && q.calls[k].agent == a
  }

  /** The p-th command accepted by channel h is a start command of run r for agent a. */
  predicate StartAt(q: Q.State, h: int, p: int, r: RunId, a: AgentId) {
    && 0 <= h < |q.t.chans| && 0 <= p < |q.t.chans[h].accepted| && q.t.chans[h].accepted[p].Start?
    && q.t.chans[h].accepted[p].run == r && q.t.chans[h].owner == a
  }

  /** Call k delivered a start command of run r to agent a. */
  predicate StartGot(q: Q.State, k: int, r: RunId, a: AgentId) {
    && 0 <= k < |q.calls| && q.calls[k].got.Some? && q.calls[k].got.value.Start?
    && q.calls[k].got.value.run == r && q.calls[k].agent == a
  }

  ghost predicate PutsUnique(q: Q.State) {
    forall k, l, r, a :: StartPut(q, k, r, a) && StartPut(q, l, r, a) ==> k == l
  }

  ghost predicate AcceptedUnique(q: Q.State) {
    forall h, p, i, j, r, a :: StartAt(q, h, p, r, a) && StartAt(q, i, j, r, a) ==> h == i && p == j
  }

  ghost predicate GotsUnique(q: Q.State) {
    forall k, l, r, a :: StartGot(q, k, r, a) && StartGot(q, l, r, a) ==> k == l
  }

  /** Call k finished putting this very command. */
  ghost predicate PutBy(q: Q.State, k: int, r: RunId, a: AgentId, cmd: Command) {
    StartPut(q, k, r, a) && q.calls[k].done && q.calls[k].op.cmd == cmd
  }

  ghost predicate AcceptedWasPut(q: Q.State) {
    forall h, p, r, a :: StartAt(q, h, p, r, a) ==> exists k :: PutBy(q, k, r, a, q.t.chans[h].accepted[p])
  }

  /** This very command was accepted at position p of channel h and has been dequeued. */
  ghost predicate TakenFrom(q: Q.State, h: int, p: int, r: RunId, a: AgentId, cmd: Command) {
    StartAt(q, h, p, r, a) && p < |q.t.chans[h].dequeued| && q.t.chans[h].accepted[p] == cmd
  }

  ghost predicate GotWasTaken(q: Q.State) {
    forall k, r, a :: StartGot(q, k, r, a) ==> exists h, p :: TakenFrom(q, h, p, r, a, q.calls[k].got.value)
  }

  /** Only finished dequeues deliver. */
  ghost predicate TakesDeliver(q: Q.State) {
    forall k :: 0 <= k < |q.calls| && q.calls[k].got.Some? ==> q.calls[k].op.Take? && q.calls[k].done
  }

  ghost predicate Inv(q: Q.State) {
    && Q.Inv(q) && PutsUnique(q) && AcceptedUnique(q) && GotsUnique(q)
    && AcceptedWasPut(q) && GotWasTaken(q) && TakesDeliver(q)
  }

  /** e begins the enqueue of a start command of run r for agent a. */
  predicate Starts(e: Q.Event, r: RunId, a: AgentId) {
    e.Calling? && e.op.Put? && e.op.cmd.Start? && e.op.cmd.run == r && e.id == a
  }

  // ----- transporting the existential parts -----

  /** v has every finished put of q. */
  lemma PutsTransport(q: Q.State, v: Q.State)
    requires AcceptedWasPut(q) && |q.calls| <= |v.calls|
    requires forall k :: 0 <= k < |q.calls| && q.calls[k].op.Put? && q.calls[k].done ==> v.calls[k] == q.calls[k]
    requires forall h, p, r, a :: StartAt(v, h, p, r, a) ==>
      StartAt(q, h, p, r, a) && v.t.chans[h].accepted[p] == q.t.chans[h].accepted[p]
    ensures AcceptedWasPut(v)
  {
    forall h, p, r, a | StartAt(v, h, p, r, a)
      ensures exists k :: PutBy(v, k, r, a, v.t.chans[h].accepted[p])
    {
      assert StartAt(q, h, p, r, a);
      var k :| PutBy(q, k, r, a, q.t.chans[h].accepted[p]);
      assert PutBy(v, k, r, a, v.t.chans[h].accepted[p]);
    }
  }

  /** v has every dequeued command of q, and delivered no others. */
  lemma GotsTransport(q: Q.State, v: Q.State)
    requires GotWasTaken(q) && |q.t.chans| <= |v.t.chans|
    requires forall h :: 0 <= h < |q.t.chans| ==>
      && v.t.chans[h].owner == q.t.chans[h].owner && q.t.chans[h].accepted <= v.t.chans[h].accepted
      && |q.t.chans[h].dequeued| <= |v.t.chans[h].dequeued|
    requires forall k, r, a :: StartGot(v, k, r, a) ==>
      StartGot(q, k, r, a) && v.calls[k].got == q.calls[k].got
    ensures GotWasTaken(v)
  {
    forall k, r, a | StartGot(v, k, r, a)
      ensures exists h, p :: TakenFrom(v, h, p, r, a, v.calls[k].got.value)
    {
      assert StartGot(q, k, r, a);
      var h, p :| TakenFrom(q, h, p, r, a, q.calls[k].got.value);
      assert TakenFrom(v, h, p, r, a, v.calls[k].got.value);
    }
  }

  // ----- critical sections -----

  lemma SectionKeeps(q: Q.State, u: Table)
    requires Inv(q) && SameChans(q.t, u) && Q.Inv(q.(t := u))
    ensures Inv(q.(t := u))
  {
    var v := q.(t := u);
    assert forall h, p, r, a :: StartAt(v, h, p, r, a) ==>
      StartAt(q, h, p, r, a) && v.t.chans[h].accepted[p] == q.t.chans[h].accepted[p];
    assert forall k, r, a :: StartGot(v, k, r, a) ==> StartGot(q, k, r, a) && v.calls[k].got == q.calls[k].got;
    assert forall k, r, a :: StartPut(v, k, r, a) ==> StartPut(q, k, r, a);
    PutsTransport(q, v);
    GotsTransport(q, v);
  }

  // ----- calls -----

  /** v is q with one more call, not finished or finished without effect. */
  predicate CallAdded(q: Q.State, v: Q.State, id: AgentId, op: Q.Op) {
    && v.t == q.t && |v.calls| == |q.calls| + 1 && v.calls[..|q.calls|] == q.calls
    && v.calls[|q.calls|].agent == id && v.calls[|q.calls|].op == op && v.calls[|q.calls|].got == None
  }

  lemma CallAt(q: Q.State, v: Q.State, id: AgentId, op: Q.Op, k: int)
    requires CallAdded(q, v, id, op) && 0 <= k < |q.calls|
    ensures v.calls[k] == q.calls[k]
  {
    assert v.calls[k] == v.calls[..|q.calls|][k];
  }

  lemma CallKeepsPuts(q: Q.State, v: Q.State, id: AgentId, op: Q.Op)
    requires PutsUnique(q) && CallAdded(q, v, id, op)
    requires op.Put? && op.cmd.Start? ==> forall k :: !StartPut(q, k, op.cmd.run, id)
    ensures PutsUnique(v)
  {
    forall k, r, a | StartPut(v, k, r, a)
      ensures StartPut(q, k, r, a) || (k == |q.calls| && op.Put? && op.cmd.Start? && op.cmd.run == r && id == a)
    {
      if k < |q.calls| {
        CallAt(q, v, id, op, k);
      }
    }
  }

  lemma CallKeepsRest(q: Q.State, v: Q.State, id: AgentId, op: Q.Op)
    requires Inv(q) && CallAdded(q, v, id, op)
    ensures AcceptedUnique(v) && GotsUnique(v) && AcceptedWasPut(v) && GotWasTaken(v) && TakesDeliver(v)
  {
    forall k | 0 <= k < |q.calls|
      ensures v.calls[k] == q.calls[k]
    {
      CallAt(q, v, id, op, k);
    }
    assert forall h, p, r, a :: StartAt(v, h, p, r, a) ==>
      StartAt(q, h, p, r, a) && v.t.chans[h].accepted[p] == q.t.chans[h].accepted[p];
    assert forall k, r, a :: StartGot(v, k, r, a) ==> StartGot(q, k, r, a) && v.calls[k].got == q.calls[k].got;
    PutsTransport(q, v);
    GotsTransport(q, v);
  }

  // ----- channel operations -----

  /** Call k is about to put its command on its channel. */
  predicate Putting(q: Q.State, k: nat) {
    Q.Enabled(q, Q.Finishing(k)) && q.calls[k].op.Put?
  }

  /** v is q after call k put its command on channel ch, or found it full. */
  predicate PutDone(q: Q.State, v: Q.State, k: nat, ch: nat) {
    && k < |q.calls| && ch < |q.t.chans| && q.calls[k].op.Put? && q.t.chans[ch].owner == q.calls[k].agent
    && |v.t.chans| == |q.t.chans| && |v.calls| == |q.calls|
    && (forall h :: 0 <= h < |q.t.chans| && h != ch ==> v.t.chans[h] == q.t.chans[h])
    && v.t.chans[ch].owner == q.t.chans[ch].owner && v.t.chans[ch].dequeued == q.t.chans[ch].dequeued
    && (v.t.chans[ch].accepted == q.t.chans[ch].accepted
        || v.t.chans[ch].accepted == q.t.chans[ch].accepted + [q.calls[k].op.cmd])
    && (forall l :: 0 <= l < |q.calls| && l != k ==> v.calls[l] == q.calls[l])
    && v.calls[k].done && v.calls[k].op == q.calls[k].op && v.calls[k].agent == q.calls[k].agent
    && v.calls[k].got == None
  }

  lemma PutShape(q: Q.State, k: nat)
    requires Q.Inv(q) && Putting(q, k)
    ensures PutDone(q, Q.Apply(q, Q.Finishing(k)), k, q.calls[k].ch.value)
  {
  }

  /** An accepted start command belongs to a finished enqueue. */
  lemma AcceptedIsDone(q: Q.State, k: int, h: int, p: int, r: RunId, a: AgentId)
    requires Inv(q) && StartPut(q, k, r, a) && StartAt(q, h, p, r, a)
    ensures q.calls[k].done
  {
    var l :| PutBy(q, l, r, a, q.t.chans[h].accepted[p]);
    assert k == l;
  }

  /** What channel positions hold a start command after a put. */
  lemma PutPositions(q: Q.State, v: Q.State, k: nat, ch: nat, h: int, p: int, r: RunId, a: AgentId)
    requires PutDone(q, v, k, ch) && StartAt(v, h, p, r, a)
    ensures || (StartAt(q, h, p, r, a) && v.t.chans[h].accepted[p] == q.t.chans[h].accepted[p])
            || (h == ch && p == |q.t.chans[ch].accepted| && StartPut(q, k, r, a)
                && v.t.chans[h].accepted[p] == q.calls[k].op.cmd)
  {
  }

  lemma PutKeepsAccepted(q: Q.State, v: Q.State, k: nat, ch: nat)
    requires Inv(q) && PutDone(q, v, k, ch) && !q.calls[k].done
    ensures AcceptedUnique(v)
  {
    forall h, p, i, j, r, a | StartAt(v, h, p, r, a) && StartAt(v, i, j, r, a)
      ensures h == i && p == j
    {
      PutPositions(q, v, k, ch, h, p, r, a);
      PutPositions(q, v, k, ch, i, j, r, a);
      if StartPut(q, k, r, a) && StartAt(q, h, p, r, a) {
        AcceptedIsDone(q, k, h, p, r, a);
      } else if StartPut(q, k, r, a) && StartAt(q, i, j, r, a) {
        AcceptedIsDone(q, k, i, j, r, a);
      }
    }
  }

  lemma PutKeepsWasPut(q: Q.State, v: Q.State, k: nat, ch: nat)
    requires Inv(q) && PutDone(q, v, k, ch) && !q.calls[k].done
    ensures AcceptedWasPut(v)
  {
    forall h, p, r, a | StartAt(v, h, p, r, a)
      ensures exists l :: PutBy(v, l, r, a, v.t.chans[h].accepted[p])
    {
      PutPositions(q, v, k, ch, h, p, r, a);
      if StartAt(q, h, p, r, a) && v.t.chans[h].accepted[p] == q.t.chans[h].accepted[p] {
        var l :| PutBy(q, l, r, a, q.t.chans[h].accepted[p]);
        assert PutBy(v, l, r, a, v.t.chans[h].accepted[p]);
      } else {
        assert PutBy(v, k, r, a, v.t.chans[h].accepted[p]);
      }
    }
  }

  lemma PutKeepsGots(q: Q.State, v: Q.State, k: nat, ch: nat)
    requires Inv(q) && PutDone(q, v, k, ch)
    ensures PutsUnique(v) && GotsUnique(v) && GotWasTaken(v) && TakesDeliver(v)
  {
    assert forall l, r, a :: StartPut(v, l, r, a) ==> StartPut(q, l, r, a);
    assert forall l, r, a :: StartGot(v, l, r, a) ==> StartGot(q, l, r, a) && v.calls[l].got == q.calls[l].got;
    GotsTransport(q, v);
  }

  predicate Taking(q: Q.State, k: nat) {
    Q.Enabled(q, Q.Finishing(k)) && q.calls[k].op.Take?
  }

  /** v is q after call k took the first command of channel ch, or found it empty. */
  predicate TakeDone(q: Q.State, v: Q.State, k: nat, ch: nat) {
    && k < |q.calls| && ch < |q.t.chans| && q.calls[k].op.Take? && q.t.chans[ch].owner == q.calls[k].agent
    && |v.t.chans| == |q.t.chans| && |v.calls| == |q.calls|
    && (forall h :: 0 <= h < |q.t.chans| ==>
          && v.t.chans[h].owner == q.t.chans[h].owner && v.t.chans[h].accepted == q.t.chans[h].accepted
          && |q.t.chans[h].dequeued| <= |v.t.chans[h].dequeued|)
    && (forall l :: 0 <= l < |q.calls| && l != k ==> v.calls[l] == q.calls[l])
    && v.calls[k].done && v.calls[k].op == q.calls[k].op && v.calls[k].agent == q.calls[k].agent
    && (v.calls[k].got.Some? ==>
          && |q.t.chans[ch].dequeued| < |q.t.chans[ch].accepted|
          && v.calls[k].got.value == q.t.chans[ch].accepted[|q.t.chans[ch].dequeued|]
          && |v.t.chans[ch].dequeued| == |q.t.chans[ch].dequeued| + 1)
  }

  lemma TakeShape(q: Q.State, k: nat)
    requires Q.Inv(q) && Taking(q, k)
    ensures TakeDone(q, Q.Apply(q, Q.Finishing(k)), k, q.calls[k].ch.value)
  {
    assert ChanOk(q.t.chans[q.calls[k].ch.value]);
  }

  /** A delivered start command has been dequeued wherever it was accepted. */
  lemma GotPosition(q: Q.State, m: int, h: int, p: int, r: RunId, a: AgentId)
    requires Inv(q) && StartGot(q, m, r, a) && StartAt(q, h, p, r, a)
    ensures p < |q.t.chans[h].dequeued|
  {
    var i, j :| TakenFrom(q, i, j, r, a, q.calls[m].got.value);
    assert StartAt(q, i, j, r, a);
  }

  /** The command call k takes is one that no other call has delivered. */
  lemma TakeFresh(q: Q.State, v: Q.State, k: nat, ch: nat, m: int, r: RunId, a: AgentId)
    requires Inv(q) && TakeDone(q, v, k, ch) && StartGot(v, k, r, a) && StartGot(v, m, r, a)
    ensures m == k
  {
    assert StartAt(q, ch, |q.t.chans[ch].dequeued|, r, a);
    if m != k {
      GotPosition(q, m, ch, |q.t.chans[ch].dequeued|, r, a);
    }
  }

  lemma TakeKeepsUnique(q: Q.State, v: Q.State, k: nat, ch: nat)
    requires Inv(q) && TakeDone(q, v, k, ch)
    ensures GotsUnique(v)
  {
    forall l, m, r, a | StartGot(v, l, r, a) && StartGot(v, m, r, a)
      ensures l == m
    {
      if l == k {
        TakeFresh(q, v, k, ch, m, r, a);
      } else if m == k {
        TakeFresh(q, v, k, ch, l, r, a);
      } else {
        assert StartGot(q, l, r, a) && StartGot(q, m, r, a);
      }
    }
  }

  lemma TakeKeepsTaken(q: Q.State, v: Q.State, k: nat, ch: nat)
    requires Inv(q) && TakeDone(q, v, k, ch)
    ensures GotWasTaken(v)
  {
    forall l, r, a | StartGot(v, l, r, a)
      ensures exists h, p :: TakenFrom(v, h, p, r, a, v.calls[l].got.value)
    {
      if l == k {
        assert TakenFrom(v, ch, |q.t.chans[ch].dequeued|, r, a, v.calls[k].got.value);
      } else {
        assert StartGot(q, l, r, a);
        var h, p :| TakenFrom(q, h, p, r, a, q.calls[l].got.value);
        assert TakenFrom(v, h, p, r, a, v.calls[l].got.value);
      }
    }
  }

  lemma TakeKeepsPuts(q: Q.State, v: Q.State, k: nat, ch: nat)
    requires Inv(q) && TakeDone(q, v, k, ch)
    ensures PutsUnique(v) && AcceptedUnique(v) && AcceptedWasPut(v) && TakesDeliver(v)
  {
    assert forall l, r, a :: StartPut(v, l, r, a) ==> StartPut(q, l, r, a);
    assert forall h, p, r, a :: StartAt(v, h, p, r, a) ==>
      StartAt(q, h, p, r, a) && v.t.chans[h].accepted[p] == q.t.chans[h].accepted[p];
    PutsTransport(q, v);
  }

  // ----- every step -----

  lemma FinishKeeps(q: Q.State, k: nat)
    requires Inv(q) && Q.Enabled(q, Q.Finishing(k))
    ensures Inv(Q.Apply(q, Q.Finishing(k)))
  {
    var v, ch := Q.Apply(q, Q.Finishing(k)), q.calls[k].ch.value;
    Q.StepKeepsInv(q, Q.Finishing(k));
    if q.calls[k].op.Put? {
      PutShape(q, k);
      PutKeepsAccepted(q, v, k, ch);
      PutKeepsWasPut(q, v, k, ch);
      PutKeepsGots(q, v, k, ch);
    } else {
      TakeShape(q, k);
      TakeKeepsUnique(q, v, k, ch);
      TakeKeepsTaken(q, v, k, ch);
      TakeKeepsPuts(q, v, k, ch);
    }
  }

  /** The table after a critical section. */
  predicate IsSection(e: Q.Event) {
    !e.Calling? && !e.Finishing?
  }

  lemma SectionShape(q: Q.State, e: Q.Event)
    requires Q.Inv(q) && Q.Enabled(q, e) && IsSection(e)
    ensures Q.Apply(q, e) == q.(t := Q.Apply(q, e).t) && SameChans(q.t, Q.Apply(q, e).t)
  {
  }

  /** Every step keeps the invariant, when a start command is only enqueued once per run and agent. */
  lemma StepKeepsInv(q: Q.State, e: Q.Event)
    requires Inv(q) && Q.Enabled(q, e)
    requires forall r, a :: Starts(e, r, a) ==> forall k :: !StartPut(q, k, r, a)
    ensures Inv(Q.Apply(q, e))
  {
    if e.Finishing? {
      FinishKeeps(q, e.k);
    } else if e.Calling? {
      var v := Q.Apply(q, e);
      Q.StepKeepsInv(q, e);
      assert CallAdded(q, v, e.id, e.op);
      assert e.op.Put? && e.op.cmd.Start? ==> Starts(e, e.op.cmd.run, e.id);
      CallKeepsPuts(q, v, e.id, e.op);
      CallKeepsRest(q, v, e.id, e.op);
    } else {
      Q.StepKeepsInv(q, e);
      SectionShape(q, e);
      SectionKeeps(q, Q.Apply(q, e).t);
    }
  }

  lemma InitInv()
    ensures Inv(Q.INIT)
  {
  }

  // ----- theorems -----

  /** No two events begin the enqueue of a start command of the same run for the same agent. */
  ghost predicate SingleStarts(es: seq<Q.Event>) {
    forall i, j, r, a :: 0 <= i < j < |es| && Starts(es[i], r, a) ==> !Starts(es[j], r, a)
  }

  /** Every enqueue of a start command was begun by one of the events. */
  ghost predicate PutsBegun(es: seq<Q.Event>, q: Q.State) {
    forall k, r, a :: StartPut(q, k, r, a) ==> exists i :: 0 <= i < |es| && Starts(es[i], r, a)
  }

  /** The enqueues of start commands after one step. */
  lemma StepPuts(q: Q.State, e: Q.Event, k: int, r: RunId, a: AgentId)
    requires Q.Enabled(q, e) && StartPut(Q.Apply(q, e), k, r, a)
    ensures StartPut(q, k, r, a) || Starts(e, r, a)
  {
  }

  lemma PutsBegunSnoc(es: seq<Q.Event>, e: Q.Event, q: Q.State)
    requires PutsBegun(es, q) && Q.Enabled(q, e)
    ensures PutsBegun(es + [e], Q.Apply(q, e))
  {
    forall k, r, a | StartPut(Q.Apply(q, e), k, r, a)
      ensures exists i :: 0 <= i < |es + [e]| && Starts((es + [e])[i], r, a)
    {
      StepPuts(q, e, k, r, a);
      if StartPut(q, k, r, a) {
        var i :| 0 <= i < |es| && Starts(es[i], r, a);
        assert (es + [e])[i] == es[i];
      } else {
        assert (es + [e])[|es|] == e;
      }
    }
  }

  /** The last event does not repeat a start begun earlier. */
  lemma StartsAgree(es: seq<Q.Event>, i: int, r: RunId, a: AgentId)
    requires SingleStarts(es) && 0 <= i < |es| - 1 && Starts(es[..|es| - 1][i], r, a)
    ensures !Starts(es[|es| - 1], r, a)
  {
    assert es[..|es| - 1][i] == es[i];
  }

  lemma BegunBefore(es: seq<Q.Event>, q: Q.State, r: RunId, a: AgentId, k: int)
    requires es != [] && SingleStarts(es) && PutsBegun(es[..|es| - 1], q) && StartPut(q, k, r, a)
    ensures !Starts(es[|es| - 1], r, a)
  {
    var i :| 0 <= i < |es| - 1 && Starts(es[..|es| - 1][i], r, a);
    StartsAgree(es, i, r, a);
  }

  lemma RunStep(es: seq<Q.Event>, q: Q.State)
    requires es != [] && SingleStarts(es) && Q.Enabled(q, es[|es| - 1])
    requires Inv(q) && PutsBegun(es[..|es| - 1], q)
    ensures Inv(Q.Apply(q, es[|es| - 1])) && PutsBegun(es, Q.Apply(q, es[|es| - 1]))
  {
    var before, e := es[..|es| - 1], es[|es| - 1];
    forall r, a, k | Starts(e, r, a)
      ensures !StartPut(q, k, r, a)
    {
      if StartPut(q, k, r, a) {
        BegunBefore(es, q, r, a, k);
      }
    }
    StepKeepsInv(q, e);
    PutsBegunSnoc(before, e, q);
    assert before + [e] == es;
  }

  lemma PrefixSingle(es: seq<Q.Event>)
    requires es != [] && SingleStarts(es)
    ensures SingleStarts(es[..|es| - 1])
  {
  }

  lemma {:induction false} RunKeepsInv(es: seq<Q.Event>)
    requires Q.Exec(Q.INIT, es).Some? && SingleStarts(es)
    ensures Inv(Q.Exec(Q.INIT, es).value) && PutsBegun(es, Q.Exec(Q.INIT, es).value)
  {
    if es == [] {
      InitInv();
    } else {
      PrefixSingle(es);
      RunKeepsInv(es[..|es| - 1]);
      RunStep(es, Q.Exec(Q.INIT, es[..|es| - 1]).value);
    }
  }

  /**
   Through any interleaving of registrations, removals, enqueues and dequeues in which each
   (run, agent) start is enqueued by at most one call: no channel and no pair of channels ever
   accepts that start twice, at most one dequeue delivers it, only to that agent, and what is
   delivered is the very command that was enqueued.
   */
  lemma StartDeliveredOnce(es: seq<Q.Event>, k: int, r: RunId, a: AgentId)
    requires Q.Exec(Q.INIT, es).Some? && SingleStarts(es)
    requires StartGot(Q.Exec(Q.INIT, es).value, k, r, a)
    ensures var q := Q.Exec(Q.INIT, es).value;
      && (forall l :: StartGot(q, l, r, a) ==> l == k)
      && (exists h, p :: StartAt(q, h, p, r, a) && p < |q.t.chans[h].dequeued|)
      && (forall h, p, i, j :: StartAt(q, h, p, r, a) && StartAt(q, i, j, r, a) ==> h == i && p == j)
      && (exists l :: StartPut(q, l, r, a) && q.calls[l].op.cmd == q.calls[k].got.value)
  {
    RunKeepsInv(es);
    GotWasPut(Q.Exec(Q.INIT, es).value, k, r, a);
  }

  lemma GotWasPut(q: Q.State, k: int, r: RunId, a: AgentId)
    requires Inv(q) && StartGot(q, k, r, a)
    ensures exists l :: StartPut(q, l, r, a) && q.calls[l].op.cmd == q.calls[k].got.value
    ensures exists h, p :: StartAt(q, h, p, r, a) && p < |q.t.chans[h].dequeued|
  {
    var h, p :| TakenFrom(q, h, p, r, a, q.calls[k].got.value);
    assert StartAt(q, h, p, r, a);
    var l :| PutBy(q, l, r, a, q.t.chans[h].accepted[p]);
  }
}
