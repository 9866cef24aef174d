/** Runs from the initial state of the line-transfer protocol into each of the situations that
    `SpiTheorems` says it does not recover from. */
module SpiFailures {
  import opened SpiTypes
  import opened SpiLink
  import opened SpiTheorems
  import M = SpiMaster
  import S = SpiSlave

  ghost predicate Leads(es: seq<Event>, z: Link) {
    CanRun(INITIAL, es) && RunOk(INITIAL, es) && Run(INITIAL, es) == z
  }

  /** Reached from the start without any violation of the link assumptions. */
  ghost predicate Reached(z: Link) {
    exists es :: Leads(es, z)
  }

  lemma {:induction false} OneMore(y: Link, es: seq<Event>, e: Event)
    requires CanRun(y, es) && RunOk(y, es) && Enabled(Run(y, es), e) && LinkOk(Run(y, es), e)
    ensures CanRun(y, es + [e]) && RunOk(y, es + [e]) && Run(y, es + [e]) == Step(Run(y, es), e)
    decreases |es|
  {
    if es == [] {
      assert [] + [e] == [e] && [e][1..] == [] && CanRun(Step(y, e), []);
    } else {
      assert (es + [e])[0] == es[0] && (es + [e])[1..] == es[1..] + [e];
      OneMore(Step(y, es[0]), es[1..], e);
    }
  }

  lemma ReachedVia(z: Link, e: Event)
    requires Reached(z) && Enabled(z, e) && LinkOk(z, e)
    ensures Reached(Step(z, e))
  {
    var es :| Leads(es, z);
    OneMore(INITIAL, es, e);
    assert Leads(es + [e], Step(z, e));
  }

  lemma ReachedInv(z: Link)
    requires Reached(z)
    ensures Inv(z)
  {
    var es :| Leads(es, z);
    InitialInv();
    RunInv(INITIAL, es);
  }

  /** The slave has sampled its reply and waits for the transfer. */
  function Armed(y: Link): Link
    requires y.s.phase.Top? && y.s.free != []
  {
    Step(Step(y, Sample), Acquire)
  }

  lemma ArmedReached(y: Link) returns (z: Link)
    requires Reached(y) && y.s.phase.Top? && y.s.free != []
    ensures z == Armed(y) && Reached(z) && Inv(z)
    ensures z.s.phase.Armed? && z.s.phase.buf < |z.s.pool|
  {
    ReachedVia(y, Sample);
    ReachedVia(Step(y, Sample), Acquire);
    z := Armed(y);
    ReachedInv(z);
    S.InFlightIsPrivate(z.s);
  }

  /** Nothing has gone wrong, the consumer is idle, and `k` lines are in the work queue. */
  ghost predicate Filling(y: Link, k: nat) {
    && Reached(y) && y.s.phase.Top? && !y.log.owed
    && y.s.held == [] && |y.s.work| == k && y.s.lastReceived == k
    && y.m.expected == k + 1 && y.m.fetch && y.m.cursor == k && |y.log.fetched| == k
    && y.m.slots == (if k == 0 then 0 else QUEUE_CAPACITY - k)
  }

  lemma FreeBuffers(y: Link, k: nat)
    requires Filling(y, k) && k <= QUEUE_CAPACITY
    ensures Inv(y) && |y.s.free| == BUFFER_POOL_SIZE - k
  {
    ReachedInv(y);
    S.PartitionCounts(y.s);
  }

  /** The first transmission of the next line: the slave takes it, the master does not know yet. */
  lemma FirstTransmission(y: Link, k: nat) returns (z: Link)
    requires Filling(y, k) && k < QUEUE_CAPACITY
    ensures Reached(z) && z.s.phase.Top? && !z.log.owed
    ensures z.s.held == [] && |z.s.work| == k + 1 == z.s.lastReceived && |z.s.free| == BUFFER_POOL_SIZE - k - 1
    ensures z.m == M.Master(k + 1, QUEUE_CAPACITY - k, false, Payload(k + 1, Packet, Line(k + 1)), k + 1)
    ensures |z.log.fetched| == k + 1
    ensures z.log.taken == y.log.taken && z.log.accepted == y.log.accepted + [Payload(k + 1, Packet, Line(k + 1))]
  {
    FreeBuffers(y, k);
    var a := ArmedReached(y);
    var e := Transfer(false, true, true);
    ReachedVia(a, e);
    z := Step(a, e);
  }

  /** Its repetition, which brings the acknowledgement. */
  lemma Repetition(y: Link, k: nat) returns (z: Link)
    requires Filling(y, k) && k < QUEUE_CAPACITY
    ensures Filling(z, k + 1)
  {
    var b := FirstTransmission(y, k);
    var a := ArmedReached(b);
    var e := Transfer(false, true, true);
    ReachedVia(a, e);
    z := Step(a, e);
  }

  lemma {:induction false} Fill(k: nat) returns (y: Link)
    requires k <= QUEUE_CAPACITY
    ensures Filling(y, k)
  {
    if k == 0 {
      y := INITIAL;
      assert CanRun(y, []) && RunOk(y, []) && Leads([], y);
    } else {
      var x := Fill(k - 1);
      y := Repetition(x, k - 1);
    }
  }

  // ---------------------------------------------------------------- the failures

  /** A full work queue, of which the consumer takes one packet: the keep-alive that notices has read line 11. */
  lemma KeepAliveTurn() returns (z: Link)
    ensures Reached(z) && z.s.phase.Top? && !z.log.owed && z.s.free != []
    ensures z.m.slots == 1 && z.m.fetch && z.m.expected == 11 && z.m.cursor == 11
    ensures |z.log.fetched| == 11 && z.log.fetched[10] == Fetch(11, true)
    ensures |z.s.work| == 9 && z.s.lastReceived == 10 == |z.log.accepted|
  {
    var y := Fill(QUEUE_CAPACITY);
    FreeBuffers(y, QUEUE_CAPACITY);
    ReachedVia(y, Take);
    var a := ArmedReached(Step(y, Take));
    var e := Transfer(false, true, true);
    ReachedVia(a, e);
    z := Step(a, e);
  }

  /** Twenty error-free transfers fill the work queue of an idle consumer. It takes one packet, and the next
      one, number 11, carries line 12: line 11 was read on the keep-alive turn in between. */
  lemma LineElevenIsLost() returns (z: Link)
    ensures Reached(z)
    ensures |z.log.fetched| > 10 && z.log.fetched[10] == Fetch(11, true)
    ensures |z.log.accepted| == 11 && z.log.accepted[10] == Payload(11, Packet, Line(12))
  {
    var b := KeepAliveTurn();
    var c := ArmedReached(b);
    var e := Transfer(false, true, true);
    ReachedVia(c, e);
    z := Step(c, e);
  }

  /** If a keep-alive then fails at the master, the master is stranded. */
  lemma MasterGetsStranded(slaveOk: bool) returns (y: Link)
    ensures Reached(y) && Enabled(y, Transfer(false, false, slaveOk))
    ensures Stranded(AfterTransfer(y, false, false, slaveOk).m)
  {
    var x := Fill(QUEUE_CAPACITY);
    FreeBuffers(x, QUEUE_CAPACITY);
    y := ArmedReached(x);
    StrandedIffKeepAliveFailed(y, false, slaveOk);
  }

  /** One packet is accepted, then a flush reaches the master only: line 2, the first of the new epoch, is
      acknowledged by the old packet's id and never accepted. */
  lemma MissedFlushLosesLineTwo(slaveOk: bool) returns (y: Link, z: Link)
    ensures Reached(y) && Enabled(y, Transfer(true, true, false))
    ensures var c := AfterTransfer(y, true, true, false);
      && c.s.phase.Top? && c.s.free != []
      && Enabled(Armed(c), Transfer(false, true, slaveOk))
      && z == AfterTransfer(Armed(c), false, true, slaveOk)
    ensures z.m.expected == 2 && z.log.fetched == [Fetch(2, false)] && z.log.accepted == y.log.accepted
  {
    var x := Fill(0);
    var b := FirstTransmission(x, 0);
    y := ArmedReached(b);
    var c := AfterTransfer(y, true, true, false);
    TransferKeepsSlave(y, true, true, false);
    S.PartitionCounts(c.s);
    SampleKeepsPool(c.s);
    AcquireKeepsPool(S.Sample(c.s));
    S.InFlightIsPrivate(Armed(c).s);
    z := AfterTransfer(Armed(c), false, true, slaveOk);
  }

  /** After two packets such a flush leaves the two sides out of step for good. */
  lemma MissedFlushStopsTheLink() returns (y: Link)
    ensures Reached(y) && Enabled(y, Transfer(true, true, false))
    ensures OutOfStep(AfterTransfer(y, true, true, false))
  {
    var x := Fill(2);
    FreeBuffers(x, 2);
    y := ArmedReached(x);
    MissedFlush(y);
  }

  /** And so does a flush that only the slave saw, after one packet, if it is not asked for again. */
  lemma ForgottenFlushStopsTheLink() returns (y: Link)
    ensures Reached(y) && Enabled(y, Transfer(true, false, true))
    ensures var z := AfterTransfer(y, true, false, true);
      z.s.phase.Draining? && OutOfStep(z.(s := S.Drained(z.s)))
  {
    var x := Fill(1);
    FreeBuffers(x, 1);
    y := ArmedReached(x);
    ForgottenFlush(y, true);
  }

  /** The first packet is on its way to being acknowledged when a flush fails on both sides and is not asked for again.
      The next turn, an ordinary one, flushes the slave: packet 1 is acknowledged and discarded, and the two sides are
      out of step. */
  lemma StaleFlushDiscardsAPacket() returns (y: Link, z: Link)
    ensures Reached(y) && Enabled(y, Transfer(true, false, false)) && !y.m.fetch
    ensures y.log.accepted == [Payload(1, Packet, Line(1))] && y.log.taken == []
    ensures var c := AfterTransfer(y, true, false, false);
      && c.s.phase.Top? && c.s.free != []
      && Enabled(Armed(c), Transfer(false, true, true))
      && z == AfterTransfer(Armed(c), false, true, true)
    ensures z.s.phase.Draining? && z.log.accepted == [] && z.m.expected == 2 && OutOfStep(z.(s := S.Drained(z.s)))
  {
    var x := Fill(0);
    var b := FirstTransmission(x, 0);
    y := ArmedReached(b);
    var c := AfterTransfer(y, true, false, false);
    TransferKeepsSlave(y, true, false, false);
    S.PartitionCounts(c.s);
    SampleKeepsPool(c.s);
    AcquireKeepsPool(S.Sample(c.s));
    S.InFlightIsPrivate(Armed(c).s);
    FailedFlushLeavesItsType(y, false);
    StaleFlushTurn(Armed(c), true, true);
    z := AfterTransfer(Armed(c), false, true, true);
  }

  /** A flush leaves the consumer what it holds: when it returns such a packet, its id counts as completed in an epoch
      in which nothing was taken. */
  lemma StaleCompletion() returns (z: Link)
    ensures Reached(z) && !z.log.owed && z.s.phase.Top?
    ensures z.log.accepted == [] && z.log.taken == [] && z.s.lastReceived == 0 && z.s.lastCompleted == 1
  {
    var x := Fill(0);
    ReachedInv(x);
    var b := FirstTransmission(x, 0);
    ReachedInv(b);
    assert x.log.accepted == [] && b.s.pool[b.s.work[0]] == b.log.accepted[0];
    ReachedVia(b, Take);
    var a := ArmedReached(Step(b, Take));
    S.InFlightIsPrivate(a.s);
    assert a.s.held == [b.s.work[0]];
    z := FlushedAndReturned(a);
  }

  lemma FlushedAndReturned(a: Link) returns (z: Link)
    requires Reached(a) && a.s.phase.Armed? && |a.s.held| == 1 && a.s.work == [] && |a.s.free| < BUFFER_POOL_SIZE
    requires a.s.held[0] < |a.s.pool| && a.s.phase.buf < |a.s.pool| && a.s.phase.buf != a.s.held[0]
    requires a.s.pool[a.s.held[0]].id == 1
    ensures Reached(z) && !z.log.owed && z.s.phase.Top?
    ensures z.log.accepted == [] && z.log.taken == [] && z.s.lastReceived == 0 && z.s.lastCompleted == 1
  {
    var e := Transfer(true, true, true);
    ReachedVia(a, e);
    var f := Step(a, e);
    ReachedVia(f, DrainEnd);
    var g := Step(f, DrainEnd);
    ReachedVia(g, Done(0));
    z := Step(g, Done(0));
  }
}
