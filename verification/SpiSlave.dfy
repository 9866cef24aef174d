/** The receive task, the buffer pool and the consumer calls of main/rahman/spi/spi_s.c, one atomic
    queue operation at a time. */
module SpiSlave {
  import opened SpiTypes

  /** Where `spi_slave_task` stands. `Draining` is the loop of `flush_work_queue`; `popped` is the
      pointer it holds between its receive and its send. */
  datatype Phase =
    | Top
    | Sampled(reply: Reply)
    | Armed(reply: Reply, buf: nat)
    | Draining(buf: nat, popped: seq<nat>)

  /** Queues hold indices into `pool`; `held` are the buffers the consumer has taken and not yet returned. */
  datatype Slave = Slave(pool: seq<Payload>, free: seq<nat>, work: seq<nat>, held: seq<nat>,
                         lastReceived: nat, lastCompleted: nat, phase: Phase)

  const EMPTY := Payload(0, KeepAlive, Zeros)

  /** The order in which the task first fills the free queue. */
  function Indices(n: nat): (q: seq<nat>)
    ensures |q| == n
  {
    if n == 0 then [] else Indices(n - 1) + [n - 1]
  }

  function EmptyPool(n: nat): (pool: seq<Payload>)
    ensures |pool| == n
  {
    seq(n, i => EMPTY)
  }

  const INITIAL: Slave := Slave(EmptyPool(BUFFER_POOL_SIZE), Indices(BUFFER_POOL_SIZE), [], [], 0, 0, Top)

  /** `xQueueSend` on the free queue: a full queue loses the pointer. */
  function SendFree(free: seq<nat>, b: nat): seq<nat> {
    if |free| < BUFFER_POOL_SIZE then free + [b] else free
  }

  function Sample(s: Slave): Slave {
    var room := if |s.work| >= QUEUE_CAPACITY then 0 else QUEUE_CAPACITY - |s.work|;
    s.(phase := Sampled(Reply(room, s.lastReceived, s.lastCompleted)))
  }

  function Acquire(s: Slave): Slave
    requires s.phase.Sampled? && |s.free| > 0
  {
    s.(phase := Armed(s.phase.reply, s.free[0]), free := s.free[1..])
  }

  /** The code after `spi_slave_transmit`. A failed transfer may still have written into the buffer. */
  function Complete(s: Slave, received: Payload, ok: bool): Slave
    requires s.phase.Armed? && s.phase.buf < |s.pool|
  {
    var b := s.phase.buf;
    var t := s.(pool := s.pool[b := received], phase := Top);
    if ok && received.kind.Flush? then
      t.(phase := Draining(b, []))
    else if ok && received.kind.Packet? && received.id == s.lastReceived + 1 && |s.work| < QUEUE_CAPACITY then
      t.(work := s.work + [b], lastReceived := received.id)
    else
      t.(free := SendFree(s.free, b))
  }

  function DrainPop(s: Slave): Slave
    requires s.phase.Draining? && |s.work| > 0
  {
    s.(phase := Draining(s.phase.buf, [s.work[0]]), work := s.work[1..])
  }

  function DrainPut(s: Slave): Slave
    requires s.phase.Draining? && |s.phase.popped| == 1
  {
    s.(phase := Draining(s.phase.buf, []), free := SendFree(s.free, s.phase.popped[0]))
  }

  function DrainEnd(s: Slave): Slave
    requires s.phase.Draining?
  {
    s.(phase := Top, free := SendFree(s.free, s.phase.buf), lastReceived := 0, lastCompleted := 0)
  }

  /** What `flush_work_queue` and the return of the flush packet's own buffer amount to when nothing
      interrupts them: the queued buffers go back in order and the consumer keeps its own. */
  function Drained(s: Slave): Slave
    requires s.phase.Draining?
  {
    s.(phase := Top, free := s.free + s.work + [s.phase.buf], work := [], lastReceived := 0, lastCompleted := 0)
  }

  /** `spi_slave_receive_command` */
  function Take(s: Slave): Slave
    requires |s.work| > 0
  {
    s.(held := s.held + [s.work[0]], work := s.work[1..])
  }

  /** `spi_slave_acknowledge_done` */
  function Done(s: Slave, i: nat): Slave
    requires i < |s.held| && s.held[i] < |s.pool|
  {
    s.(lastCompleted := s.pool[s.held[i]].id, free := SendFree(s.free, s.held[i]),
       held := s.held[..i] + s.held[i + 1..])
  }

  function InFlight(p: Phase): seq<nat> {
    match p
    case Top => []
    case Sampled(_) => []
    case Armed(_, b) => [b]
    case Draining(b, popped) => [b] + popped
  }

  /** Where the buffers are, all places together. */
  ghost function Places(s: Slave): multiset<nat> {
    multiset(s.free) + multiset(s.work) + multiset(s.held) + multiset(InFlight(s.phase))
  }

  /** Every buffer is in exactly one place. */
  ghost predicate Partition(s: Slave) {
    forall b: nat :: Places(s)[b] == if b < |s.pool| then 1 else 0
  }

  lemma {:induction false} IndicesOnce(n: nat, b: nat)
    ensures multiset(Indices(n))[b] == if b < n then 1 else 0
  {
    if n > 0 {
      IndicesOnce(n - 1, b);
    }
  }

  lemma PartitionCounts(s: Slave)
    requires Partition(s)
    ensures |s.free| + |s.work| + |s.held| + |InFlight(s.phase)| == |s.pool|
  {
    forall b: nat
      ensures Places(s)[b] == multiset(Indices(|s.pool|))[b]
    {
      IndicesOnce(|s.pool|, b);
    }
    assert Places(s) == multiset(Indices(|s.pool|));
    assert |multiset(Indices(|s.pool|))| == |s.pool|;
  }

  /** The buffer of the transfer in progress is in no queue and not with the consumer. */
  lemma InFlightIsPrivate(s: Slave)
    requires Partition(s) && s.phase.Armed?
    ensures s.phase.buf < |s.pool|
    ensures s.phase.buf !in s.free && s.phase.buf !in s.work && s.phase.buf !in s.held
  {
    var b := s.phase.buf;
    assert Places(s)[b] <= 1 && multiset(InFlight(s.phase))[b] == 1;
    assert b in s.free <==> b in multiset(s.free);
    assert b in s.work <==> b in multiset(s.work);
    assert b in s.held <==> b in multiset(s.held);
  }

  /** The statics of spi_s.c, with the current receive buffer and the position of the task. */
  class SpiSlaveTask {
    var workQueue: seq<nat>
    var freeQueue: seq<nat>
    const rxPool: array<Payload>
    var lastReceivedId: nat
    var lastCompletedId: nat
    var held: seq<nat>
    var phase: Phase

    function State(): Slave
      reads this, rxPool
    {
      Slave(rxPool[..], freeQueue, workQueue, held, lastReceivedId, lastCompletedId, phase)
    }

    constructor ()
      ensures fresh(rxPool) && State() == INITIAL
    {
      var pool := new Payload[BUFFER_POOL_SIZE](i => EMPTY);
      rxPool := pool;
      workQueue, held, lastReceivedId, lastCompletedId, phase := [], [], 0, 0, Top;
      var q: seq<nat> := [];
      for i := 0 to BUFFER_POOL_SIZE
        invariant q == Indices(i)
      {
        q := SendFree(q, i);
      }
      freeQueue := q;
    }

    method SampleReply()
      modifies this
      ensures State() == Sample(old(State()))
    {
      var items := |workQueue|;
      phase := Sampled(Reply(if items >= QUEUE_CAPACITY then 0 else QUEUE_CAPACITY - items,
                             lastReceivedId, lastCompletedId));
    }

    method AcquireBuffer()
      requires phase.Sampled? && |freeQueue| > 0
      modifies this
      ensures State() == Acquire(old(State()))
    {
      phase := Armed(phase.reply, freeQueue[0]);
      freeQueue := freeQueue[1..];
    }

    method CompleteTransfer(received: Payload, ok: bool)
      requires phase.Armed? && phase.buf < rxPool.Length
      modifies this, rxPool
      ensures State() == Complete(old(State()), received, ok)
    {
      var current := phase.buf;
      rxPool[current] := received;
      phase := Top;
      if ok {
        if rxPool[current].kind.Flush? {
          phase := Draining(current, []);
        } else if rxPool[current].kind.Packet? && rxPool[current].id == lastReceivedId + 1 {
          if |workQueue| < QUEUE_CAPACITY {
            workQueue := workQueue + [current];
            lastReceivedId := rxPool[current].id;
          } else {
            freeQueue := SendFree(freeQueue, current);
          }
        } else {
          freeQueue := SendFree(freeQueue, current);
        }
      } else {
        freeQueue := SendFree(freeQueue, current);
      }
    }

    method FlushWorkQueue()
      requires phase.Draining? && phase.popped == []
      requires |freeQueue| + |workQueue| < BUFFER_POOL_SIZE
      modifies this
      ensures State() == Drained(old(State()))
      ensures workQueue == [] && lastReceivedId == 0 && lastCompletedId == 0 && held == old(held)
    {
      ghost var all := freeQueue + workQueue;
      while workQueue != []
        invariant freeQueue + workQueue == all
        invariant phase == old(phase) && held == old(held)
        decreases |workQueue|
      {
        var p := workQueue[0];
        assert workQueue == [p] + workQueue[1..];
        workQueue := workQueue[1..];
        freeQueue := SendFree(freeQueue, p);
      }
      lastReceivedId, lastCompletedId := 0, 0;
      freeQueue := SendFree(freeQueue, phase.buf);
      phase := Top;
    }

    method ReceiveCommand() returns (payload: Payload, ok: bool)
      requires forall k :: 0 <= k < |workQueue| ==> workQueue[k] < rxPool.Length
      modifies this
      ensures ok == (old(workQueue) != [])
      ensures ok ==> State() == Take(old(State())) && payload == rxPool[old(workQueue)[0]]
      ensures !ok ==> State() == old(State())
    {
      ok, payload := workQueue != [], EMPTY;
      if ok {
        payload := rxPool[workQueue[0]];
        held := held + [workQueue[0]];
        workQueue := workQueue[1..];
      }
    }

    method AcknowledgeDone(i: nat)
      requires i < |held| && held[i] < rxPool.Length
      modifies this
      ensures State() == Done(old(State()), i)
    {
      lastCompletedId := rxPool[held[i]].id;
      freeQueue := SendFree(freeQueue, held[i]);
      held := held[..i] + held[i + 1..];
    }
  }
}
