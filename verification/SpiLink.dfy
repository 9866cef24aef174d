/** Master, slave and consumer together: every interleaving of their atomic steps, with transfers that
    may fail on either side independently. */
module SpiLink {
  import opened SpiTypes
  import M = SpiMaster
  import S = SpiSlave

  datatype Event =
    | Sample
    | Acquire
    | Transfer(flush: bool, masterOk: bool, slaveOk: bool)
    | DrainPop
    | DrainPut
    | DrainEnd
    | Take
    | Done(i: nat)

  /** A call of `nextLine`; `wasted` when the same turn then sent a keep-alive instead. */
  datatype Fetch = Fetch(line: nat, wasted: bool)

  /** History of the current flush epoch. `owed`: a flush transfer failed at the master and was not repeated yet. */
  datatype Log = Log(fetched: seq<Fetch>, accepted: seq<Payload>, taken: seq<Payload>, owed: bool)

  datatype Link = Link(m: M.Master, s: S.Slave, log: Log)

  const INITIAL := Link(M.INITIAL, S.INITIAL, Log([], [], [], false))

  predicate Enabled(y: Link, e: Event) {
    match e
    case Sample => y.s.phase.Top?
    case Acquire => y.s.phase.Sampled? && |y.s.free| > 0
    case Transfer(_, _, _) => y.s.phase.Armed? && y.s.phase.buf < |y.s.pool|
    case DrainPop => y.s.phase.Draining? && y.s.phase.popped == [] && |y.s.work| > 0
    case DrainPut => y.s.phase.Draining? && |y.s.phase.popped| == 1
    case DrainEnd => y.s.phase.Draining? && y.s.phase.popped == [] && y.s.work == []
    case Take => |y.s.work| > 0 && y.s.work[0] < |y.s.pool|
    case Done(i) => i < |y.s.held| && y.s.held[i] < |y.s.pool|
  }

  function AfterTransfer(y: Link, flush: bool, masterOk: bool, slaveOk: bool): Link
    requires y.s.phase.Armed? && y.s.phase.buf < |y.s.pool|
  {
    var m := M.Compose(y.m, flush);
    var s := S.Complete(y.s, m.tx, slaveOk);
    var fetched := if flush then (if masterOk then [] else y.log.fetched)
                   else if y.m.fetch then y.log.fetched + [Fetch(m.cursor, m.tx.kind.KeepAlive?)]
                   else y.log.fetched;
    var accepted := if s.phase.Draining? then []
                    else if |s.work| > |y.s.work| then y.log.accepted + [m.tx]
                    else y.log.accepted;
    var taken := if s.phase.Draining? then [] else y.log.taken;
    Link(M.Finish(m, flush, masterOk, y.s.phase.reply), s, Log(fetched, accepted, taken, flush && !masterOk))
  }

  function Step(y: Link, e: Event): Link
    requires Enabled(y, e)
  {
    match e
    case Sample => y.(s := S.Sample(y.s))
    case Acquire => y.(s := S.Acquire(y.s))
    case Transfer(flush, masterOk, slaveOk) => AfterTransfer(y, flush, masterOk, slaveOk)
    case DrainPop => y.(s := S.DrainPop(y.s))
    case DrainPut => y.(s := S.DrainPut(y.s))
    case DrainEnd => y.(s := S.DrainEnd(y.s))
    case Take =>
      y.(s := S.Take(y.s),
         log := if y.s.phase.Draining? then y.log else y.log.(taken := y.log.taken + [y.s.pool[y.s.work[0]]]))
    case Done(i) => y.(s := S.Done(y.s, i))
  }

  /** What the code needs from the link and from `check_flush_condition`: a flush that failed at the
      master is asked for again, a flush the master believes in reached a slave that had something to
      forget, and the master side of a keep-alive succeeds. Data transfers may fail in any way. */
  predicate LinkOk(y: Link, e: Event) {
    e.Transfer? ==>
      && (y.log.owed ==> e.flush)
      && (e.flush && e.masterOk ==> e.slaveOk || y.s.lastReceived == 0)
      && (!e.flush && M.WantsKeepAlive(y.m) ==> e.masterOk)
  }

  /** The lines whose turn really sent a packet, in order. */
  function Kept(fetched: seq<Fetch>): (lines: seq<nat>)
    ensures |lines| <= |fetched|
  {
    if fetched == [] then []
    else
      var f := fetched[|fetched| - 1];
      Kept(fetched[..|fetched| - 1]) + if f.wasted then [] else [f.line]
  }

  /** Packets 1, 2, ..., each with the line that its own fetch read. */
  ghost predicate InOrder(accepted: seq<Payload>, lines: seq<nat>) {
    && |accepted| <= |lines|
    && forall i :: 0 <= i < |accepted| ==> accepted[i] == Payload(i + 1, Packet, Line(lines[i]))
  }

  /** The buffer pool is partitioned and no queue overflows. */
  ghost predicate PoolInv(s: S.Slave) {
    && |s.pool| == BUFFER_POOL_SIZE
    && S.Partition(s)
    && |s.work| <= QUEUE_CAPACITY
    && (forall k :: 0 <= k < |s.work| ==> s.work[k] < BUFFER_POOL_SIZE)
    && (s.phase.Draining? ==> |s.phase.popped| <= 1)
  }

  /** Outside a drain the consumer has been given, or will be given, exactly the accepted packets in order. */
  ghost predicate FlowInv(s: S.Slave, log: Log) {
    && |s.pool| == BUFFER_POOL_SIZE
    && (forall k :: 0 <= k < |s.work| ==> s.work[k] < BUFFER_POOL_SIZE)
    && (if s.phase.Draining? then log.accepted == [] && log.taken == []
        else
          && s.lastReceived == |log.accepted| == |log.taken| + |s.work|
          && log.taken == log.accepted[..|log.taken|]
          && forall k :: 0 <= k < |s.work| ==> s.pool[s.work[k]] == log.accepted[|log.taken| + k])
  }

  /** A sampled reply is current in its ack and a lower bound in its room. */
  ghost predicate ReplyInv(s: S.Slave) {
    s.phase.Sampled? || s.phase.Armed? ==>
      && s.phase.reply.ack == s.lastReceived
      && s.phase.reply.free <= QUEUE_CAPACITY - |s.work|
  }

  /** The fetches of the epoch are the last lines the master has read, in order. */
  ghost predicate FetchedLines(m: M.Master, fetched: seq<Fetch>) {
    && |fetched| <= m.cursor
    && forall i :: 0 <= i < |fetched| ==> fetched[i].line == m.cursor - |fetched| + 1 + i
  }

  /** The master's bookkeeping of its own fetches. */
  ghost predicate FetchInv(m: M.Master, fetched: seq<Fetch>) {
    && m.expected >= 1
    && FetchedLines(m, fetched)
    && |Kept(fetched)| == (if m.fetch then m.expected - 1 else m.expected)
    && (!m.fetch ==> !fetched[|fetched| - 1].wasted)
  }

  /** The counters of the two sides. */
  predicate Counters(m: M.Master, s: S.Slave) {
    m.expected - 1 <= s.lastReceived <= m.expected && (m.fetch ==> s.lastReceived == m.expected - 1)
  }

  /** A master that retransmits has its packet in hand. */
  predicate InHand(m: M.Master) {
    !m.fetch ==> m.tx.kind.Packet? && m.tx.id == m.expected && (m.slots >= 1 || m.expected == 1)
  }

  /** The reported room is still there while a packet is on its way. */
  predicate Room(m: M.Master, s: S.Slave) {
    s.lastReceived == m.expected - 1 ==>
      && m.slots <= QUEUE_CAPACITY - |s.work|
      && (s.phase.Sampled? || s.phase.Armed? ==> m.slots <= s.phase.reply.free)
  }

  /** The two sides together, when no flush is in progress. */
  ghost predicate SyncInv(m: M.Master, s: S.Slave, log: Log) {
    && FetchInv(m, log.fetched) && Counters(m, s) && InOrder(log.accepted, Kept(log.fetched)) && InHand(m) && Room(m, s)
  }

  ghost predicate Inv(y: Link) {
    && PoolInv(y.s)
    && FlowInv(y.s, y.log)
    && ReplyInv(y.s)
    && y.m.slots <= QUEUE_CAPACITY
    && (if y.log.owed then true
        else if y.s.phase.Draining? then y.m.expected == 1 && y.m.fetch && y.log.fetched == []
        else SyncInv(y.m, y.s, y.log))
  }

  // ---------------------------------------------------------------- every step keeps the invariant

  lemma InitialInv()
    ensures Inv(INITIAL)
  {
    forall b: nat
      ensures S.Places(INITIAL.s)[b] == if b < BUFFER_POOL_SIZE then 1 else 0
    {
      S.IndicesOnce(BUFFER_POOL_SIZE, b);
    }
  }

  /** Whoever is about to return a buffer finds room for it. */
  lemma ReturnsFindRoom(s: S.Slave)
    requires PoolInv(s)
    ensures |s.held| > 0 || |S.InFlight(s.phase)| > 0 ==> |s.free| < BUFFER_POOL_SIZE
  {
    S.PartitionCounts(s);
  }

  lemma PopFront(q: seq<nat>)
    requires q != []
    ensures multiset(q) == multiset{q[0]} + multiset(q[1..])
  {
    assert q == [q[0]] + q[1..];
  }

  lemma PushBack(q: seq<nat>, b: nat)
    ensures multiset(q + [b]) == multiset(q) + multiset{b}
  {
  }

  lemma Without(q: seq<nat>, i: nat)
    requires i < |q|
    ensures multiset(q) == multiset(q[..i] + q[i + 1..]) + multiset{q[i]}
  {
    assert q == q[..i] + [q[i]] + q[i + 1..];
  }

  /** A step that moves buffers about but loses and invents none. */
  lemma Moved(s: S.Slave, t: S.Slave)
    requires S.Partition(s) && S.Places(t) == S.Places(s) && |t.pool| == |s.pool|
    ensures S.Partition(t)
  {
  }

  lemma SampleKeepsPool(s: S.Slave)
    requires PoolInv(s) && s.phase.Top?
    ensures PoolInv(S.Sample(s))
  {
    Moved(s, S.Sample(s));
  }

  lemma AcquireKeepsPool(s: S.Slave)
    requires PoolInv(s) && s.phase.Sampled? && |s.free| > 0
    ensures PoolInv(S.Acquire(s))
  {
    PopFront(s.free);
    Moved(s, S.Acquire(s));
  }

  lemma CompletePlaces(s: S.Slave, p: Payload, ok: bool)
    requires s.phase.Armed? && s.phase.buf < |s.pool| && |s.free| < BUFFER_POOL_SIZE
    ensures S.Places(S.Complete(s, p, ok)) == S.Places(s)
  {
    PushBack(s.free, s.phase.buf);
    PushBack(s.work, s.phase.buf);
  }

  lemma CompleteKeepsPool(s: S.Slave, p: Payload, ok: bool)
    requires PoolInv(s) && s.phase.Armed? && s.phase.buf < |s.pool|
    ensures PoolInv(S.Complete(s, p, ok))
  {
    ReturnsFindRoom(s);
    CompletePlaces(s, p, ok);
    Moved(s, S.Complete(s, p, ok));
  }

  lemma DrainPopKeepsPool(s: S.Slave)
    requires PoolInv(s) && s.phase.Draining? && s.phase.popped == [] && |s.work| > 0
    ensures PoolInv(S.DrainPop(s))
  {
    var t := S.DrainPop(s);
    PopFront(s.work);
    assert multiset(S.InFlight(t.phase)) == multiset(S.InFlight(s.phase)) + multiset{s.work[0]};
    assert t.free == s.free && t.held == s.held && t.work == s.work[1..];
    Moved(s, t);
  }

  lemma DrainPutKeepsPool(s: S.Slave)
    requires PoolInv(s) && s.phase.Draining? && |s.phase.popped| == 1
    ensures PoolInv(S.DrainPut(s))
  {
    ReturnsFindRoom(s);
    var b, t := s.phase.popped[0], S.DrainPut(s);
    assert s.phase.popped == [b];
    PushBack(s.free, b);
    assert multiset(S.InFlight(s.phase)) == multiset(S.InFlight(t.phase)) + multiset{b};
    assert t.free == s.free + [b] && t.held == s.held && t.work == s.work;
    Moved(s, t);
  }

  lemma DrainEndKeepsPool(s: S.Slave)
    requires PoolInv(s) && s.phase.Draining? && s.phase.popped == []
    ensures PoolInv(S.DrainEnd(s))
  {
    ReturnsFindRoom(s);
    PushBack(s.free, s.phase.buf);
    Moved(s, S.DrainEnd(s));
  }

  lemma TakeKeepsPool(s: S.Slave)
    requires PoolInv(s) && |s.work| > 0
    ensures PoolInv(S.Take(s))
  {
    PopFront(s.work);
    PushBack(s.held, s.work[0]);
    Moved(s, S.Take(s));
  }

  lemma DoneKeepsPool(s: S.Slave, i: nat)
    requires PoolInv(s) && i < |s.held| && s.held[i] < |s.pool|
    ensures PoolInv(S.Done(s, i))
  {
    ReturnsFindRoom(s);
    Without(s.held, i);
    PushBack(s.free, s.held[i]);
    Moved(s, S.Done(s, i));
  }

  lemma QueueStepKeepsPool(y: Link, e: Event)
    requires PoolInv(y.s) && Enabled(y, e) && !e.Transfer?
    ensures PoolInv(Step(y, e).s)
  {
    match e
    case Sample => SampleKeepsPool(y.s);
    case Acquire => AcquireKeepsPool(y.s);
    case DrainPop => DrainPopKeepsPool(y.s);
    case DrainPut => DrainPutKeepsPool(y.s);
    case DrainEnd => DrainEndKeepsPool(y.s);
    case Take => TakeKeepsPool(y.s);
    case Done(i) => DoneKeepsPool(y.s, i);
  }

  /** The packet being written touches no packet that is queued. */
  lemma TransferKeepsFlow(y: Link, flush: bool, masterOk: bool, slaveOk: bool)
    requires FlowInv(y.s, y.log) && y.s.phase.Armed? && y.s.phase.buf < |y.s.pool| && y.s.phase.buf !in y.s.work
    ensures var z := AfterTransfer(y, flush, masterOk, slaveOk); FlowInv(z.s, z.log)
  {
  }

  lemma QueueStepKeepsFlow(y: Link, e: Event)
    requires FlowInv(y.s, y.log) && ReplyInv(y.s) && |y.s.work| <= QUEUE_CAPACITY && Enabled(y, e) && !e.Transfer?
    ensures var z := Step(y, e); FlowInv(z.s, z.log) && ReplyInv(z.s)
  {
    if e.Take? && !y.s.phase.Draining? {
      var n := |y.log.taken|;
      assert y.log.accepted[..n + 1] == y.log.accepted[..n] + [y.log.accepted[n]];
    }
  }

  lemma KeptStep(fetched: seq<Fetch>, f: Fetch)
    ensures Kept(fetched + [f]) == Kept(fetched) + if f.wasted then [] else [f.line]
  {
    assert (fetched + [f])[..|fetched|] == fetched;
  }

  lemma KeptLast(fetched: seq<Fetch>)
    requires |fetched| > 0 && !fetched[|fetched| - 1].wasted
    ensures |Kept(fetched)| > 0 && Kept(fetched)[|Kept(fetched)| - 1] == fetched[|fetched| - 1].line
  {
  }

  lemma ComposedFetching(y: Link)
    requires FetchInv(y.m, y.log.fetched) && y.m.fetch
    ensures var m := M.Compose(y.m, false); var fetched := FetchedAfter(y, m);
            if M.WantsKeepAlive(y.m) then m.tx.kind.KeepAlive? && Kept(fetched) == Kept(y.log.fetched)
            else
              && m.tx == Payload(y.m.expected, Packet, Line(m.cursor))
              && Kept(fetched) == Kept(y.log.fetched) + [m.cursor]
  {
    var m := M.Compose(y.m, false);
    KeptStep(y.log.fetched, Fetch(m.cursor, m.tx.kind.KeepAlive?));
  }

  lemma ComposedAgain(y: Link)
    requires FetchInv(y.m, y.log.fetched) && InHand(y.m) && !y.m.fetch
    ensures var m := M.Compose(y.m, false);
      && !M.WantsKeepAlive(y.m) && FetchedAfter(y, m) == y.log.fetched
      && m.tx == Payload(y.m.expected, Packet, Line(Kept(y.log.fetched)[y.m.expected - 1]))
  {
    KeptLast(y.log.fetched);
  }

  /** What a turn without flush puts on the wire: packet number `expected` with the line of its own
      fetch, or a keep-alive, and the latter only on a turn that fetched. */
  lemma Composed(y: Link)
    requires FetchInv(y.m, y.log.fetched) && InHand(y.m)
    ensures var m := M.Compose(y.m, false); var fetched := FetchedAfter(y, m);
            if M.WantsKeepAlive(y.m) then
              && y.m.fetch && m.tx.kind.KeepAlive? && Kept(fetched) == Kept(y.log.fetched)
            else
              && |Kept(fetched)| == y.m.expected && Kept(y.log.fetched) <= Kept(fetched)
              && m.tx == Payload(y.m.expected, Packet, Line(Kept(fetched)[y.m.expected - 1]))
  {
    if y.m.fetch {
      ComposedFetching(y);
    } else {
      ComposedAgain(y);
    }
  }

  /** The fetch log after the turn whose composed state is `m`. */
  function FetchedAfter(y: Link, m: M.Master): seq<Fetch> {
    if y.m.fetch then y.log.fetched + [Fetch(m.cursor, m.tx.kind.KeepAlive?)] else y.log.fetched
  }

  lemma TurnKeepsLines(y: Link)
    requires FetchedLines(y.m, y.log.fetched)
    ensures var m := M.Compose(y.m, false); FetchedLines(m, FetchedAfter(y, m))
  {
  }

  lemma FinishKeepsFetch(m: M.Master, fetched: seq<Fetch>, ok: bool, reply: Reply)
    requires m.expected >= 1 && FetchedLines(m, fetched)
    requires if m.tx.kind.KeepAlive? then ok && m.fetch && |Kept(fetched)| == m.expected - 1
             else |Kept(fetched)| == m.expected && !fetched[|fetched| - 1].wasted
    ensures FetchInv(M.Finish(m, false, ok, reply), fetched)
  {
  }

  lemma TransferKeepsFetch(y: Link, masterOk: bool, slaveOk: bool)
    requires SyncInv(y.m, y.s, y.log) && y.s.phase.Armed? && y.s.phase.buf < |y.s.pool|
    requires M.WantsKeepAlive(y.m) ==> masterOk
    ensures var z := AfterTransfer(y, false, masterOk, slaveOk); FetchInv(z.m, z.log.fetched)
  {
    var m := M.Compose(y.m, false);
    Composed(y);
    TurnKeepsLines(y);
    FinishKeepsFetch(m, FetchedAfter(y, m), masterOk, y.s.phase.reply);
  }

  lemma KeepAliveKeepsSync(y: Link, slaveOk: bool)
    requires SyncInv(y.m, y.s, y.log) && ReplyInv(y.s) && y.s.phase.Armed? && y.s.phase.buf < |y.s.pool|
    requires M.WantsKeepAlive(y.m)
    ensures var z := AfterTransfer(y, false, true, slaveOk); SyncInv(z.m, z.s, z.log)
  {
    Composed(y);
    TransferKeepsFetch(y, true, slaveOk);
  }

  lemma PacketKeepsCounters(y: Link, masterOk: bool, slaveOk: bool)
    requires SyncInv(y.m, y.s, y.log) && ReplyInv(y.s) && y.s.phase.Armed? && y.s.phase.buf < |y.s.pool|
    requires |y.s.work| <= y.s.lastReceived && !M.WantsKeepAlive(y.m)
    ensures var z := AfterTransfer(y, false, masterOk, slaveOk);
      Counters(z.m, z.s) && InHand(z.m) && Room(z.m, z.s)
  {
    var m := M.Compose(y.m, false);
    assert m.expected == y.m.expected && m.slots == y.m.slots && m.tx.kind.Packet? && m.tx.id == y.m.expected;
  }

  lemma PacketKeepsOrder(y: Link, masterOk: bool, slaveOk: bool)
    requires SyncInv(y.m, y.s, y.log) && y.s.phase.Armed? && y.s.phase.buf < |y.s.pool|
    requires y.s.lastReceived == |y.log.accepted| && !M.WantsKeepAlive(y.m)
    ensures var z := AfterTransfer(y, false, masterOk, slaveOk); InOrder(z.log.accepted, Kept(z.log.fetched))
  {
    Composed(y);
    var z, m := AfterTransfer(y, false, masterOk, slaveOk), M.Compose(y.m, false);
    assert z.log.fetched == FetchedAfter(y, m);
    assert z.log.accepted == y.log.accepted
        || (z.log.accepted == y.log.accepted + [m.tx] && m.tx.id == y.s.lastReceived + 1);
  }

  lemma PacketKeepsSync(y: Link, masterOk: bool, slaveOk: bool)
    requires SyncInv(y.m, y.s, y.log) && ReplyInv(y.s) && y.s.phase.Armed? && y.s.phase.buf < |y.s.pool|
    requires |y.s.work| <= y.s.lastReceived == |y.log.accepted|
    requires !M.WantsKeepAlive(y.m)
    ensures var z := AfterTransfer(y, false, masterOk, slaveOk); SyncInv(z.m, z.s, z.log)
  {
    TransferKeepsFetch(y, masterOk, slaveOk);
    PacketKeepsCounters(y, masterOk, slaveOk);
    PacketKeepsOrder(y, masterOk, slaveOk);
  }

  lemma QueueStepKeepsSync(y: Link, e: Event)
    requires SyncInv(y.m, y.s, y.log) && ReplyInv(y.s) && !y.s.phase.Draining? && Enabled(y, e) && !e.Transfer?
    ensures var z := Step(y, e); SyncInv(z.m, z.s, z.log) && !z.s.phase.Draining?
  {
  }

  lemma TransferKeepsSync(y: Link, masterOk: bool, slaveOk: bool)
    requires Inv(y) && !y.log.owed && y.s.phase.Armed? && y.s.phase.buf < |y.s.pool|
    requires M.WantsKeepAlive(y.m) ==> masterOk
    ensures var z := AfterTransfer(y, false, masterOk, slaveOk);
      SyncInv(z.m, z.s, z.log) && !z.s.phase.Draining? && !z.log.owed
  {
    if M.WantsKeepAlive(y.m) {
      KeepAliveKeepsSync(y, slaveOk);
    } else {
      PacketKeepsSync(y, masterOk, slaveOk);
    }
  }

  /** The parts of the invariant that hold whatever the link does. */
  lemma TransferKeepsSlave(y: Link, flush: bool, masterOk: bool, slaveOk: bool)
    requires PoolInv(y.s) && FlowInv(y.s, y.log) && y.s.phase.Armed? && y.s.phase.buf < |y.s.pool|
    ensures var z := AfterTransfer(y, flush, masterOk, slaveOk); PoolInv(z.s) && FlowInv(z.s, z.log) && ReplyInv(z.s)
  {
    CompleteKeepsPool(y.s, M.Compose(y.m, flush).tx, slaveOk);
    S.InFlightIsPrivate(y.s);
    TransferKeepsFlow(y, flush, masterOk, slaveOk);
  }

  lemma FlushInv(y: Link, masterOk: bool, slaveOk: bool)
    requires var e := Transfer(true, masterOk, slaveOk); Inv(y) && Enabled(y, e) && LinkOk(y, e)
    ensures Inv(AfterTransfer(y, true, masterOk, slaveOk))
  {
    TransferKeepsSlave(y, true, masterOk, slaveOk);
  }

  lemma TransferInv(y: Link, flush: bool, masterOk: bool, slaveOk: bool)
    requires var e := Transfer(flush, masterOk, slaveOk); Inv(y) && Enabled(y, e) && LinkOk(y, e)
    ensures Inv(AfterTransfer(y, flush, masterOk, slaveOk))
  {
    if flush {
      FlushInv(y, masterOk, slaveOk);
    } else {
      TransferKeepsSlave(y, false, masterOk, slaveOk);
      TransferKeepsSync(y, masterOk, slaveOk);
      assert M.Compose(y.m, false).slots == y.m.slots;
    }
  }

  lemma StepInv(y: Link, e: Event)
    requires Inv(y) && Enabled(y, e) && LinkOk(y, e)
    ensures Inv(Step(y, e))
  {
    if e.Transfer? {
      TransferInv(y, e.flush, e.masterOk, e.slaveOk);
    } else {
      QueueStepKeepsPool(y, e);
      QueueStepKeepsFlow(y, e);
      if !y.log.owed && !y.s.phase.Draining? {
        QueueStepKeepsSync(y, e);
      }
    }
  }

  /** The two tasks really take the transfer step of the model. */
  method Exchange(master: M.SpiMasterTask, slave: S.SpiSlaveTask, flush: bool, masterOk: bool, slaveOk: bool)
    requires slave.phase.Armed? && slave.phase.buf < slave.rxPool.Length
    modifies master, slave, slave.rxPool
    ensures forall log ::
      var z := AfterTransfer(Link(old(master.State()), old(slave.State()), log), flush, masterOk, slaveOk);
      master.State() == z.m && slave.State() == z.s
  {
    var reply := slave.phase.reply;
    master.PrepareTransfer(flush);
    slave.CompleteTransfer(master.txMsg, slaveOk);
    master.FinishTransfer(flush, masterOk, reply);
  }
}
