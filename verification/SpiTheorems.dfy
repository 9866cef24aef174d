/** What every run of the line-transfer protocol guarantees, and what breaks it. */
module SpiTheorems {
  import opened SpiTypes
  import opened SpiLink
  import M = SpiMaster
  import S = SpiSlave

  predicate IsFlush(e: Event) {
    e.Transfer? && e.flush
  }

  /** Some schedule of enabled steps. */
  predicate CanRun(y: Link, es: seq<Event>)
    decreases |es|
  {
    es == [] || (Enabled(y, es[0]) && CanRun(Step(y, es[0]), es[1..]))
  }

  function Run(y: Link, es: seq<Event>): Link
    requires CanRun(y, es)
    decreases |es|
  {
    if es == [] then y else Run(Step(y, es[0]), es[1..])
  }

  /** Every step of the schedule meets the link assumptions. */
  predicate RunOk(y: Link, es: seq<Event>)
    requires CanRun(y, es)
    decreases |es|
  {
    es == [] || (LinkOk(y, es[0]) && RunOk(Step(y, es[0]), es[1..]))
  }

  lemma {:induction false} RunInv(y: Link, es: seq<Event>)
    requires Inv(y) && CanRun(y, es) && RunOk(y, es)
    ensures Inv(Run(y, es))
    decreases |es|
  {
    if es != [] {
      StepInv(y, es[0]);
      RunInv(Step(y, es[0]), es[1..]);
    }
  }

  // ---------------------------------------------------------------- delivery

  /** Between flushes: the accepted packets are numbered 1..`lastReceived` and carry, in order, the lines
      of the turns that sent them; the consumer got a prefix of them, the work queue holds the rest, and
      the master's counter is at most one ahead. */
  lemma ExactlyOnceInOrder(es: seq<Event>)
    requires CanRun(INITIAL, es) && RunOk(INITIAL, es)
    ensures var z := Run(INITIAL, es); !z.log.owed && !z.s.phase.Draining? ==>
      && z.s.lastReceived == |z.log.accepted| && z.m.expected - 1 <= z.s.lastReceived <= z.m.expected
      && InOrder(z.log.accepted, Kept(z.log.fetched))
      && (forall i :: 0 <= i < |z.log.fetched| ==> z.log.fetched[i].line == z.m.cursor - |z.log.fetched| + 1 + i)
      && (forall k :: 0 <= k < |z.s.work| ==> z.s.work[k] < |z.s.pool|)
      && z.log.accepted ==
         z.log.taken + seq(|z.s.work|,
                           k requires 0 <= k < |z.s.work| && z.s.work[k] < |z.s.pool| => z.s.pool[z.s.work[k]])
  {
    InitialInv();
    RunInv(INITIAL, es);
  }

  lemma {:induction false} KeptCount(fetched: seq<Fetch>, k: nat)
    requires k <= |fetched| && forall i :: 0 <= i < k ==> !fetched[i].wasted
    ensures |Kept(fetched)| >= k
    ensures forall i :: 0 <= i < k ==> Kept(fetched)[i] == fetched[i].line
  {
    if 0 < |fetched| {
      var front := fetched[..|fetched| - 1];
      KeptCount(front, if k == |fetched| then k - 1 else k);
    }
  }

  lemma {:induction false} KeptAreFetched(fetched: seq<Fetch>, k: nat)
    requires k < |Kept(fetched)|
    requires forall i, j :: 0 <= i < j < |fetched| ==> fetched[i].line < fetched[j].line
    requires Kept(fetched)[k] == fetched[k].line
    ensures forall i :: 0 <= i <= k ==> !fetched[i].wasted
  {
    var front := fetched[..|fetched| - 1];
    if k < |Kept(front)| {
      KeptAreFetched(front, k);
    } else {
      // the last fetch was kept as number k, so it is fetch number k and nothing before it was wasted
      AllKept(fetched);
    }
  }

  lemma {:induction false} AllKept(fetched: seq<Fetch>)
    requires |Kept(fetched)| == |fetched|
    ensures forall i :: 0 <= i < |fetched| ==> !fetched[i].wasted
  {
    if 0 < |fetched| {
      AllKept(fetched[..|fetched| - 1]);
    }
  }

  /** The accepted lines are a contiguous piece of the source, starting with the epoch's first line, if
      and only if none of the fetches they could stem from fell on a keep-alive turn. */
  lemma SourcePrefixIffNoKeepAliveFetch(y: Link)
    requires Inv(y) && !y.log.owed && !y.s.phase.Draining?
    ensures var base := y.m.cursor - |y.log.fetched|; var k := |y.log.accepted|;
      && k <= |y.log.fetched|
      && ((forall i :: 0 <= i < k ==> y.log.accepted[i].data == Line(base + 1 + i))
          <==> (forall i :: 0 <= i < k ==> !y.log.fetched[i].wasted))
  {
    var f, k := y.log.fetched, |y.log.accepted|;
    assert forall i :: 0 <= i < k ==> y.log.accepted[i].data == Line(Kept(f)[i]);
    if forall i :: 0 <= i < k ==> !f[i].wasted {
      KeptCount(f, k);
    } else if k > 0 && y.log.accepted[k - 1].data == Line(y.m.cursor - |f| + k) {
      KeptAreFetched(f, k - 1);
    }
  }

  // ---------------------------------------------------------------- flow control

  /** In every run: whoever retransmits still has the packet of its counter in hand and cannot fall into the
      keep-alive branch, because the last reported room is still there; and the slave's work queue never turns
      the expected packet away. */
  lemma NeverStrandsAPacket(es: seq<Event>)
    requires CanRun(INITIAL, es) && RunOk(INITIAL, es)
    ensures var z := Run(INITIAL, es); !z.log.owed && !z.s.phase.Draining? ==>
      && (!z.m.fetch ==> z.m.tx.kind.Packet? && z.m.tx.id == z.m.expected && !M.WantsKeepAlive(z.m))
      && (z.s.phase.Armed? && M.Compose(z.m, false).tx.kind.Packet? && z.s.lastReceived + 1 == z.m.expected ==>
            |z.s.work| < QUEUE_CAPACITY)
  {
    InitialInv();
    RunInv(INITIAL, es);
  }

  /** A keep-alive turn always consumes a source line without sending it. */
  lemma KeepAliveWastesALine(y: Link, masterOk: bool, slaveOk: bool)
    requires Inv(y) && !y.log.owed && y.s.phase.Armed? && y.s.phase.buf < |y.s.pool|
    ensures var z := AfterTransfer(y, false, masterOk, slaveOk);
      M.WantsKeepAlive(y.m) <==> z.log.fetched == y.log.fetched + [Fetch(y.m.cursor + 1, true)]
  {
    var z, n := AfterTransfer(y, false, masterOk, slaveOk), |y.log.fetched|;
    if !M.WantsKeepAlive(y.m) {
      assert |z.log.fetched| == n || !z.log.fetched[n].wasted;
    }
  }

  /** No packet is acknowledged by the reply to its own first transmission. */
  lemma FirstTransmissionIsNeverAcknowledged(y: Link, masterOk: bool, slaveOk: bool)
    requires Inv(y) && !y.log.owed && y.s.phase.Armed? && y.s.phase.buf < |y.s.pool| && y.m.fetch
    ensures AfterTransfer(y, false, masterOk, slaveOk).m.expected == y.m.expected
  {
  }

  lemma {:induction false} QuietRun(y: Link, es: seq<Event>)
    requires Inv(y) && !y.log.owed && !y.s.phase.Draining? && CanRun(y, es)
    requires forall e :: e in es ==> !e.Transfer?
    ensures var z := Run(y, es); Inv(z) && !z.log.owed && z.m == y.m && z.s.lastReceived == y.s.lastReceived
    decreases |es|
  {
    if es != [] {
      StepInv(y, es[0]);
      QuietRun(Step(y, es[0]), es[1..]);
    }
  }

  /** An error-free packet is either acknowledged or, if there is room, accepted. */
  lemma PacketAdvancesOneSide(y: Link)
    requires Inv(y) && !y.log.owed && Enabled(y, Transfer(false, true, true))
    requires y.m.slots >= 1 || y.m.expected == 1
    ensures var z := AfterTransfer(y, false, true, true);
      && (y.s.lastReceived == y.m.expected ==> z.m.expected == y.m.expected + 1)
      && (y.s.lastReceived != y.m.expected ==> z.m.expected == y.m.expected == z.s.lastReceived && !z.m.fetch)
  {
    Composed(y);
  }

  /** With room reported (or for the first packet) two error-free transfers advance the counter,
      whatever the slave and the consumer do in between. */
  lemma TwoTransfersAdvance(y: Link, es: seq<Event>)
    requires Inv(y) && !y.log.owed && Enabled(y, Transfer(false, true, true))
    requires y.m.slots >= 1 || y.m.expected == 1
    requires var y1 := AfterTransfer(y, false, true, true);
             CanRun(y1, es) && Enabled(Run(y1, es), Transfer(false, true, true))
    requires forall e :: e in es ==> !e.Transfer?
    ensures var y1 := AfterTransfer(y, false, true, true); var y3 := AfterTransfer(Run(y1, es), false, true, true);
            y1.m.expected == y.m.expected + 1 || y3.m.expected == y.m.expected + 1
  {
    var y1 := AfterTransfer(y, false, true, true);
    StepInv(y, Transfer(false, true, true));
    PacketAdvancesOneSide(y);
    QuietRun(y1, es);
    if y1.m.expected == y.m.expected {
      PacketAdvancesOneSide(Run(y1, es));
    }
  }

  /** After a keep-alive turn that reported room the next packet goes out; a consumer that empties the
      work queue is always noticed by the next keep-alive. */
  lemma KeepAliveNoticesRoom(y: Link, slaveOk: bool)
    requires Inv(y) && !y.log.owed && Enabled(y, Transfer(false, true, slaveOk)) && M.WantsKeepAlive(y.m)
    ensures AfterTransfer(y, false, true, slaveOk).m == y.m.(slots := y.s.phase.reply.free, cursor := y.m.cursor + 1,
              tx := Payload(y.m.expected, KeepAlive, Zeros))
  {
  }

  // ---------------------------------------------------------------- the buffer pool

  lemma {:induction false} RunPool(y: Link, es: seq<Event>)
    requires PoolInv(y.s) && CanRun(y, es)
    ensures PoolInv(Run(y, es).s)
    decreases |es|
  {
    if es != [] {
      if es[0].Transfer? {
        CompleteKeepsPool(y.s, M.Compose(y.m, es[0].flush).tx, es[0].slaveOk);
      } else {
        QueueStepKeepsPool(y, es[0]);
      }
      RunPool(Step(y, es[0]), es[1..]);
    }
  }

  /** In every run, with any link failures whatsoever, the 12 buffers are split between free queue, work
      queue, consumer and the receive task; a return finds room; and the task finds a free buffer whenever the
      consumer holds at most one. */
  lemma PoolStaysPartitioned(es: seq<Event>)
    requires CanRun(INITIAL, es)
    ensures var s := Run(INITIAL, es).s;
      && S.Partition(s) && |s.pool| == BUFFER_POOL_SIZE
      && (|s.held| > 0 || |S.InFlight(s.phase)| > 0 ==> |s.free| < BUFFER_POOL_SIZE)
      && (s.phase.Sampled? && |s.held| <= 1 ==> |s.free| > 0)
  {
    InitialInv();
    RunPool(INITIAL, es);
    var s := Run(INITIAL, es).s;
    ReturnsFindRoom(s);
    S.PartitionCounts(s);
  }

  /** Nor does a received packet ever overwrite one that is queued or with the consumer. */
  lemma TransferWritesAPrivateBuffer(es: seq<Event>, flush: bool, masterOk: bool, slaveOk: bool)
    requires CanRun(INITIAL, es) && Enabled(Run(INITIAL, es), Transfer(flush, masterOk, slaveOk))
    ensures var y := Run(INITIAL, es); var z := AfterTransfer(y, flush, masterOk, slaveOk);
      && |z.s.pool| == |y.s.pool|
      && forall b :: 0 <= b < |y.s.pool| && (b in y.s.work || b in y.s.held) ==> z.s.pool[b] == y.s.pool[b]
  {
    InitialInv();
    RunPool(INITIAL, es);
    S.InFlightIsPrivate(Run(INITIAL, es).s);
  }

  /** Uninterrupted, the microsteps of a flush amount to one step. */
  lemma {:induction false} DrainRunsToCompletion(y: Link)
    returns (es: seq<Event>)
    requires PoolInv(y.s) && y.s.phase.Draining? && y.s.phase.popped == []
    ensures CanRun(y, es) && Run(y, es) == y.(s := S.Drained(y.s))
    decreases |y.s.work|
  {
    ReturnsFindRoom(y.s);
    if y.s.work == [] {
      es := [DrainEnd];
      assert es[1..] == [] && CanRun(Step(y, DrainEnd), []);
      assert Run(y, es) == Step(y, DrainEnd);
    } else {
      var z := DrainOne(y);
      var rest := DrainRunsToCompletion(z);
      es := [DrainPop, DrainPut] + rest;
      assert es[1..] == [DrainPut] + rest && es[1..][1..] == rest;
    }
  }

  lemma DrainOne(y: Link) returns (z: Link)
    requires PoolInv(y.s) && y.s.phase.Draining? && y.s.phase.popped == [] && y.s.work != []
    ensures Enabled(y, DrainPop) && Enabled(Step(y, DrainPop), DrainPut)
    ensures z == Step(Step(y, DrainPop), DrainPut)
    ensures PoolInv(z.s) && z.s.phase == y.s.phase && |z.s.work| < |y.s.work|
    ensures z.(s := S.Drained(z.s)) == y.(s := S.Drained(y.s))
  {
    ReturnsFindRoom(y.s);
    var s1 := S.DrainPop(y.s);
    DrainPopKeepsPool(y.s);
    DrainPutKeepsPool(s1);
    z := y.(s := S.DrainPut(s1));
    assert y.s.work == [y.s.work[0]] + y.s.work[1..];
  }

  // ---------------------------------------------------------------- what the assumptions are for

  /** Waiting for an acknowledgement with a keep-alive in hand. */
  predicate Stranded(m: M.Master) {
    !m.fetch && m.tx.kind.KeepAlive?
  }

  /** The master gets there exactly when the master side of a keep-alive fails. */
  lemma StrandedIffKeepAliveFailed(y: Link, masterOk: bool, slaveOk: bool)
    requires Inv(y) && !y.log.owed && Enabled(y, Transfer(false, masterOk, slaveOk))
    ensures Stranded(AfterTransfer(y, false, masterOk, slaveOk).m) <==> M.WantsKeepAlive(y.m) && !masterOk
  {
  }

  /** And then nothing but a flush ever gets a packet through again. */
  lemma {:induction false} StrandedForever(y: Link, es: seq<Event>)
    requires Stranded(y.m) && !y.s.phase.Draining? && CanRun(y, es)
    requires forall e :: e in es ==> !IsFlush(e)
    ensures var z := Run(y, es); z.log.accepted == y.log.accepted && z.m.expected == y.m.expected && Stranded(z.m)
    decreases |es|
  {
    if es != [] {
      assert !IsFlush(es[0]) && forall e :: e in es[1..] ==> e in es;
      StrandedForever(Step(y, es[0]), es[1..]);
    }
  }

  /** The counters of the two sides do not meet: neither the next packet nor its acknowledgement fits. */
  predicate OutOfStep(y: Link) {
    && !y.s.phase.Draining?
    && y.s.lastReceived != y.m.expected && y.s.lastReceived + 1 != y.m.expected
    && (y.s.phase.Sampled? || y.s.phase.Armed? ==> y.s.phase.reply.ack == y.s.lastReceived)
    && (!y.m.fetch ==> !y.m.tx.kind.Flush? && (y.m.tx.kind.Packet? ==> y.m.tx.id == y.m.expected))
  }

  lemma OutOfStepOnce(y: Link, e: Event)
    requires OutOfStep(y) && Enabled(y, e) && !IsFlush(e)
    ensures var z := Step(y, e); OutOfStep(z) && z.log.accepted == y.log.accepted && z.m.expected == y.m.expected
  {
  }

  lemma {:induction false} OutOfStepForever(y: Link, es: seq<Event>)
    requires OutOfStep(y) && CanRun(y, es)
    requires forall e :: e in es ==> !IsFlush(e)
    ensures var z := Run(y, es); OutOfStep(z) && z.log.accepted == y.log.accepted && z.m.expected == y.m.expected
    decreases |es|
  {
    if es != [] {
      assert !IsFlush(es[0]) && forall e :: e in es[1..] ==> e in es;
      OutOfStepOnce(y, es[0]);
      OutOfStepForever(Step(y, es[0]), es[1..]);
    }
  }

  /** A flush that only the master saw loses the protocol if and only if the slave had accepted
      something: with one packet the next line is acknowledged unseen, with more nothing moves any more. */
  lemma MissedFlush(y: Link)
    requires Inv(y) && !y.log.owed && Enabled(y, Transfer(true, true, false))
    ensures var z := AfterTransfer(y, true, true, false);
      && (Inv(z) <==> y.s.lastReceived == 0)
      && (y.s.lastReceived >= 2 ==> OutOfStep(z))
  {
    if y.s.lastReceived == 0 {
      StepInv(y, Transfer(true, true, false));
    }
  }

  lemma MissedFlushLosesALine(y: Link, slaveOk: bool)
    requires !y.m.fetch ==> y.m.tx.kind.Packet?
    requires y.m.expected == 1 && y.s.lastReceived == 1 && Enabled(y, Transfer(false, true, slaveOk))
    requires y.s.phase.reply.ack == 1
    requires y.m.fetch || y.m.tx.id == 1
    ensures var z := AfterTransfer(y, false, true, slaveOk); z.m.expected == 2 && z.log.accepted == y.log.accepted
  {
  }

  /** What is left when the drain has run out and a flush that failed at the master is not asked for again. */
  function Forgotten(z: Link): Link {
    z.(s := if z.s.phase.Draining? then S.Drained(z.s) else z.s, log := z.log.(owed := false))
  }

  lemma DrainedPool(s: S.Slave)
    requires PoolInv(s) && s.phase.Draining? && s.phase.popped == []
    ensures PoolInv(S.Drained(s))
  {
    var t := S.Drained(s);
    assert S.Places(t) == S.Places(s);
    Moved(s, t);
  }

  lemma FailedFlushWhileRetransmitting(y: Link, slaveOk: bool)
    requires Inv(y) && !y.log.owed && !y.m.fetch && Enabled(y, Transfer(true, false, slaveOk))
    ensures !Inv(Forgotten(AfterTransfer(y, true, false, slaveOk)))
  {
    assert !InHand(Forgotten(AfterTransfer(y, true, false, slaveOk)).m);
  }

  lemma FailedFlushUnseen(y: Link)
    requires Inv(y) && !y.log.owed && y.m.fetch && Enabled(y, Transfer(true, false, false))
    ensures Inv(Forgotten(AfterTransfer(y, true, false, false)))
  {
    TransferKeepsSlave(y, true, false, false);
  }

  lemma FailedFlushSeen(y: Link)
    requires Inv(y) && !y.log.owed && y.m.fetch && Enabled(y, Transfer(true, false, true))
    ensures Inv(Forgotten(AfterTransfer(y, true, false, true))) <==> y.m.expected == 1
  {
    var z := AfterTransfer(y, true, false, true);
    var w := Forgotten(z);
    TransferKeepsSlave(y, true, false, true);
    DrainedPool(z.s);
    assert w.s.lastReceived == 0 && w.m.expected == y.m.expected && w.log.fetched == y.log.fetched;
    if y.m.expected != 1 {
      assert !Counters(w.m, w.s);
    }
  }

  /** A flush that failed at the master may be forgotten if and only if the master was not retransmitting and, should
      the flush have reached the slave, no packet had been acknowledged in the epoch. */
  lemma ForgottenFlushIff(y: Link, slaveOk: bool)
    requires Inv(y) && !y.log.owed && Enabled(y, Transfer(true, false, slaveOk))
    ensures var z := AfterTransfer(y, true, false, slaveOk);
      Inv(Forgotten(z)) <==> y.m.fetch && (slaveOk ==> y.m.expected == 1)
  {
    if !y.m.fetch {
      FailedFlushWhileRetransmitting(y, slaveOk);
    } else if slaveOk {
      FailedFlushSeen(y);
    } else {
      FailedFlushUnseen(y);
    }
  }

  /** The master's last packet is overwritten by the flush that failed, and it goes on retransmitting that. */
  predicate Flushing(m: M.Master) {
    !m.fetch && m.tx.kind.Flush? && !M.WantsKeepAlive(m)
  }

  lemma FailedFlushLeavesItsType(y: Link, slaveOk: bool)
    requires Inv(y) && !y.log.owed && !y.m.fetch && Enabled(y, Transfer(true, false, slaveOk))
    ensures Flushing(AfterTransfer(y, true, false, slaveOk).m)
  {
  }

  /** Every turn of such a master that reaches the slave flushes it, although nobody asks for it, and the master goes
      on like that until a reply that was sampled earlier happens to acknowledge its packet. */
  lemma StaleFlushTurn(y: Link, masterOk: bool, slaveOk: bool)
    requires Flushing(y.m) && Enabled(y, Transfer(false, masterOk, slaveOk))
    ensures var z := AfterTransfer(y, false, masterOk, slaveOk);
      && (slaveOk ==> z.s.phase.Draining? && z.log.accepted == [])
      && (z.m.fetch <==> masterOk && y.s.phase.reply.ack == y.m.expected)
      && (!z.m.fetch ==> z.m.tx.kind.Flush? && z.m.expected == y.m.expected)
  {
  }

  /** In particular, when that flush reached the slave, too, a master past its first packet never gets another one
      accepted. */
  lemma ForgottenFlush(y: Link, slaveOk: bool)
    requires Inv(y) && !y.log.owed && Enabled(y, Transfer(true, false, true)) && y.m.fetch && y.m.expected >= 2
    ensures var z := AfterTransfer(y, true, false, true);
      z.s.phase.Draining? && OutOfStep(z.(s := S.Drained(z.s)))
  {
  }

  // ---------------------------------------------------------------- what the slave reports

  /** A reply tells the room exactly as it is at that moment, and the two ids. */
  lemma SampledReply(y: Link)
    requires Inv(y) && Enabled(y, Sample)
    ensures var r := Step(y, Sample).s.phase.reply;
      r.free + |y.s.work| == QUEUE_CAPACITY && r.ack == y.s.lastReceived && r.done == y.s.lastCompleted
  {
  }

  /** What the consumer holds was taken in this epoch, and so was what the slave reports as completed, if anything. */
  ghost predicate Honest(y: Link) {
    && !y.log.owed && !y.s.phase.Draining?
    && (forall k :: 0 <= k < |y.s.held| ==> y.s.held[k] < |y.s.pool| && y.s.pool[y.s.held[k]] in y.log.taken)
    && y.s.lastCompleted <= |y.log.taken|
  }

  /** The consumer holds the last packets it took, and the slave reports those before as completed. */
  ghost predicate InTurn(y: Link) {
    && Honest(y) && |y.s.held| <= |y.log.taken| && y.s.lastCompleted == |y.log.taken| - |y.s.held|
    && forall k :: 0 <= k < |y.s.held| ==> y.s.pool[y.s.held[k]] == y.log.taken[y.s.lastCompleted + k]
  }

  /** What the consumer holds, has taken and has returned is the same. */
  ghost predicate SameHeld(y: Link, z: Link) {
    && z.s.held == y.s.held && z.log.taken == y.log.taken && z.s.lastCompleted == y.s.lastCompleted
    && |z.s.pool| == |y.s.pool|
    && forall b :: b in y.s.held && b < |y.s.pool| ==> z.s.pool[b] == y.s.pool[b]
  }

  lemma StaysHonest(y: Link, z: Link)
    requires Honest(y) && SameHeld(y, z) && !z.log.owed && !z.s.phase.Draining?
    ensures Honest(z) && (InTurn(y) ==> InTurn(z))
  {
  }

  lemma TransferLeavesHeld(y: Link, masterOk: bool, slaveOk: bool)
    requires y.s.phase.Armed? && y.s.phase.buf < |y.s.pool| && y.s.phase.buf !in y.s.held
    ensures var z := AfterTransfer(y, false, masterOk, slaveOk); !z.s.phase.Draining? ==> SameHeld(y, z)
  {
  }

  lemma TransferIsHonest(y: Link, e: Event)
    requires Inv(y) && Honest(y) && Enabled(y, e) && LinkOk(y, e) && e.Transfer? && !e.flush
    ensures Honest(Step(y, e)) && (InTurn(y) ==> InTurn(Step(y, e)))
  {
    S.InFlightIsPrivate(y.s);
    TransferKeepsSync(y, e.masterOk, e.slaveOk);
    TransferLeavesHeld(y, e.masterOk, e.slaveOk);
    StaysHonest(y, Step(y, e));
  }

  lemma TakenAreNumbered(y: Link, p: Payload)
    requires Inv(y) && Honest(y)
    ensures p in y.log.taken ==> 1 <= p.id <= |y.log.taken|
    ensures forall i :: 0 <= i < |y.log.taken| ==> y.log.taken[i].id == i + 1
  {
  }

  lemma TakeIsHonest(y: Link)
    requires Inv(y) && Honest(y) && Enabled(y, Take)
    ensures Honest(Step(y, Take)) && (InTurn(y) ==> InTurn(Step(y, Take)))
  {
    var z := Step(y, Take);
    assert forall k :: 0 <= k < |y.s.held| ==> z.s.held[k] == y.s.held[k];
  }

  lemma DoneIsHonest(y: Link, i: nat)
    requires Inv(y) && Honest(y) && Enabled(y, Done(i))
    ensures Honest(Step(y, Done(i))) && (InTurn(y) && i == 0 ==> InTurn(Step(y, Done(i))))
  {
    var z := Step(y, Done(i));
    TakenAreNumbered(y, y.s.pool[y.s.held[i]]);
    assert forall k :: 0 <= k < |z.s.held| ==> z.s.held[k] == y.s.held[if k < i then k else k + 1];
  }

  lemma StepIsHonest(y: Link, e: Event)
    requires Inv(y) && Honest(y) && Enabled(y, e) && LinkOk(y, e) && !IsFlush(e)
    ensures Honest(Step(y, e)) && (InTurn(y) && (e.Done? ==> e.i == 0) ==> InTurn(Step(y, e)))
  {
    match e
    case Transfer(_, _, _) => TransferIsHonest(y, e);
    case Take => TakeIsHonest(y);
    case Done(i) => DoneIsHonest(y, i);
    case Sample => StaysHonest(y, Step(y, Sample));
    case Acquire => StaysHonest(y, Step(y, Acquire));
    case _ =>
  }

  lemma {:induction false} RunIsHonest(y: Link, es: seq<Event>)
    requires Inv(y) && Honest(y) && CanRun(y, es) && RunOk(y, es) && forall e :: e in es ==> !IsFlush(e)
    ensures Honest(Run(y, es))
    ensures InTurn(y) && (forall e :: e in es ==> e.Done? ==> e.i == 0) ==> InTurn(Run(y, es))
    decreases |es|
  {
    if es != [] {
      var e := es[0];
      assert e in es && forall f :: f in es[1..] ==> f in es;
      StepInv(y, e);
      StepIsHonest(y, e);
      RunIsHonest(Step(y, e), es[1..]);
    }
  }

  /** The end of a drain begins such an epoch, unless the consumer still holds packets of the last one. */
  lemma DrainIsHonest(y: Link)
    requires Inv(y) && Enabled(y, DrainEnd) && !y.log.owed
    ensures InTurn(Step(y, DrainEnd)) <==> y.s.held == []
  {
    assert y.log.taken == [];
  }

  /** Without a flush the slave never reports a packet as completed that the consumer was not given. If the consumer
      returns its packets in turn, the reported id is exactly the number of packets it has returned. */
  lemma CompletedWasTaken(es: seq<Event>)
    requires CanRun(INITIAL, es) && RunOk(INITIAL, es) && forall e :: e in es ==> !IsFlush(e)
    ensures var z := Run(INITIAL, es);
      && z.s.lastCompleted <= |z.log.taken|
      && ((forall e :: e in es ==> e.Done? ==> e.i == 0) ==> z.s.lastCompleted + |z.s.held| == |z.log.taken|)
  {
    InitialInv();
    RunIsHonest(INITIAL, es);
  }

  // ---------------------------------------------------------------- recovery

  /** What holds in every run, whatever has failed. */
  ghost predicate SlaveInv(y: Link) {
    PoolInv(y.s) && FlowInv(y.s, y.log) && ReplyInv(y.s) && y.m.slots <= QUEUE_CAPACITY
  }

  lemma {:induction false} RunSlave(y: Link, es: seq<Event>)
    requires SlaveInv(y) && CanRun(y, es)
    ensures SlaveInv(Run(y, es))
    decreases |es|
  {
    if es != [] {
      var e := es[0];
      if e.Transfer? {
        TransferKeepsSlave(y, e.flush, e.masterOk, e.slaveOk);
      } else {
        QueueStepKeepsPool(y, e);
        QueueStepKeepsFlow(y, e);
      }
      RunSlave(Step(y, e), es[1..]);
    }
  }

  /** A flush that both sides complete restores everything, after any run with any failures. */
  lemma FlushRecovers(es: seq<Event>)
    requires CanRun(INITIAL, es) && Enabled(Run(INITIAL, es), Transfer(true, true, true))
    ensures Inv(AfterTransfer(Run(INITIAL, es), true, true, true))
  {
    InitialInv();
    RunSlave(INITIAL, es);
    TransferKeepsSlave(Run(INITIAL, es), true, true, true);
  }
}
