/** Transmission over Bluetooth serial (main/bluetooth.c): characters are collected into chunks, chunks are
    queued, and a polling task merges queued chunks into writes. The writer, the polling task and the events
    of the Bluetooth stack run concurrently; an `Event` is one of their indivisible steps. */
module BtTx {

  const SIZE: nat := 250
  const ENTRIES: nat := 32
  const BUFFER: nat := 256

  type Byte = n: nat | n < 256
  type Bytes = seq<Byte>

  const LF: Byte := 10

  datatype Next = Return | Then(c: Byte)

  /** Where `btStreamPutC` is: `Sending` owns a filled chunk and waits for room in the queue, `Clearing` is
      about to reset `txbuffer.head`, `Closing` has stored a line feed. */
  datatype Writer = Ready | Sending(chunk: Bytes, next: Next) | Clearing(next: Next) | Storing(c: Byte) | Closing

  /** Where `pollTX` is. */
  datatype Poll = Waiting | Fetching | Direct | Coalescing | Refilling

  datatype Held = NoChunk | Chunk(bytes: Bytes)

  /** `filled` is `txbuffer.data[..head]`, `held` the local `chunk` of the polling task and `buffer` the filled
      part of its local buffer. `outstanding`, `sent`, `written` and `lost` record what happened. */
  datatype Tx = Tx(
    writer: Writer, filled: Bytes, queue: seq<Bytes>,
    poll: Poll, held: Held, buffer: Bytes,
    busy: bool, clear: bool, connected: bool,
    outstanding: nat, sent: Bytes, written: Bytes, lost: nat)

  datatype WriterStep = Put(c: Byte, memory: bool) | Send | Clear | Store | Close(memory: bool)
  datatype PollStep = Begin | Fetch | WriteChunk(accepted: bool) | Copy | Refill | Write(accepted: bool)
  datatype StackStep = Complete(congested: bool) | Congestion(congested: bool) | Disconnect | Flush | Open

  datatype Event = ByWriter(w: WriterStep) | ByPoll(p: PollStep) | ByStack(s: StackStep)

  function Flat(chunks: seq<Bytes>): Bytes {
    if chunks == [] then [] else chunks[0] + Flat(chunks[1..])
  }

  function HeldBytes(h: Held): Bytes {
    if h.Chunk? then h.bytes else []
  }

  predicate Fits(t: Tx) {
    t.held.Chunk? && |t.held.bytes| < BUFFER - |t.buffer|
  }

  predicate WriterEnabled(t: Tx, e: WriterStep) {
    match e
    case Put(_, _) => t.writer == Ready
    case Send => t.writer.Sending? && |t.queue| < ENTRIES
    case Clear => t.writer.Clearing?
    case Store => t.writer.Storing?
    case Close(_) => t.writer == Closing
  }

  predicate PollEnabled(t: Tx, e: PollStep) {
    match e
    case Begin => t.poll == Waiting && t.connected && t.clear && t.queue != [] && !t.busy
    case Fetch => t.poll == Fetching
    case WriteChunk(_) => t.poll == Direct && t.held.Chunk?
    case Copy => t.poll == Coalescing && Fits(t)
    case Refill => t.poll == Refilling
    case Write(_) => t.poll == Coalescing && !Fits(t)
  }

  predicate StackEnabled(t: Tx, e: StackStep) {
    match e
    case Complete(_) => t.outstanding > 0
    case Congestion(_) => true
    case Disconnect => t.connected
    case Flush => !t.connected
    case Open => !t.connected
  }

  predicate Enabled(t: Tx, e: Event) {
    match e
    case ByWriter(w) => WriterEnabled(t, w)
    case ByPoll(p) => PollEnabled(t, p)
    case ByStack(s) => StackEnabled(t, s)
  }

  /** `enqueue_tx_chunk` up to the wait for the queue. */
  function Allocated(t: Tx, memory: bool, next: Next): Tx {
    if memory then t.(writer := Sending(t.filled, next))
    else t.(writer := Clearing(next), lost := t.lost + |t.filled|)
  }

  /** `xQueueReceive` without waiting */
  function Received(t: Tx): Tx {
    if t.queue == [] then t.(held := NoChunk) else t.(held := Chunk(t.queue[0]), queue := t.queue[1..])
  }

  function Written(t: Tx, data: Bytes, accepted: bool): Tx {
    if accepted then t.(sent := t.sent + data, outstanding := t.outstanding + 1)
    else t.(lost := t.lost + |data|, busy := false)
  }

  function AfterWriter(t: Tx, e: WriterStep): Tx
    requires WriterEnabled(t, e)
  {
    match e
    case Put(c, memory) => if |t.filled| == SIZE then Allocated(t, memory, Then(c)) else t.(writer := Storing(c))
    case Send => t.(queue := t.queue + [t.writer.chunk], writer := Clearing(t.writer.next))
    case Clear =>
      t.(filled := [], writer := if t.writer.next.Then? then Storing(t.writer.next.c) else Ready)
    case Store =>
      var c := t.writer.c;
      t.(filled := t.filled + [c], written := t.written + [c], writer := if c == LF then Closing else Ready)
    case Close(memory) => Allocated(t, memory, Return)
  }

  function AfterPoll(t: Tx, e: PollStep): Tx
    requires PollEnabled(t, e)
  {
    match e
    case Begin => t.(busy := true, poll := Fetching)
    case Fetch =>
      var r := if t.held.Chunk? then t else Received(t);
      if r.held == NoChunk then r.(busy := false, poll := Waiting)
      else r.(poll := if |r.held.bytes| >= BUFFER then Direct else Coalescing)
    case WriteChunk(accepted) => Written(t.(held := NoChunk, poll := Waiting), t.held.bytes, accepted)
    case Copy => t.(buffer := t.buffer + t.held.bytes, held := NoChunk, poll := Refilling)
    case Refill => Received(t).(poll := Coalescing)
    case Write(accepted) => AfterWrite(t, accepted)
  }

  /** The end of a turn of `pollTX`. */
  function AfterWrite(t: Tx, accepted: bool): Tx {
    var r := t.(poll := Waiting, buffer := []);
    if t.buffer == [] then r.(busy := false) else Written(r, t.buffer, accepted)
  }

  function AfterStack(t: Tx, e: StackStep): Tx
    requires StackEnabled(t, e)
  {
    match e
    case Complete(congested) => t.(outstanding := t.outstanding - 1, busy := false, clear := t.clear && !congested)
    case Congestion(congested) => t.(clear := !congested)
    case Disconnect => t.(connected := false)
    case Flush => t.(queue := [], lost := t.lost + |Flat(t.queue)|)
    case Open => t.(filled := [], lost := t.lost + if Owned(t) then |t.filled| else 0, connected := true)
  }

  function Step(t: Tx, e: Event): Tx
    requires Enabled(t, e)
  {
    match e
    case ByWriter(w) => AfterWriter(t, w)
    case ByPoll(p) => AfterPoll(t, p)
    case ByStack(s) => AfterStack(t, s)
  }

  /** Whether the bytes in `txbuffer` are still to be sent; otherwise a chunk already has them. */
  predicate Owned(t: Tx) {
    !t.writer.Sending? && !t.writer.Clearing?
  }

  function Pending(t: Tx): Bytes {
    if t.writer.Sending? then t.writer.chunk else if Owned(t) then t.filled else []
  }

  /** What lies between the writer and the Bluetooth stack. */
  function UnderWay(t: Tx): Bytes {
    t.buffer + (HeldBytes(t.held) + (Flat(t.queue) + Pending(t)))
  }

  /** Everything that was written and not lost. */
  function Content(t: Tx): Bytes {
    t.sent + UnderWay(t)
  }

  // ---------------------------------------------------------------- order and conservation

  /** `a` is `b` without some of its elements. */
  ghost predicate Subsequence(a: Bytes, b: Bytes) {
    a == [] ||
    (b != [] &&
     ((a[|a| - 1] == b[|b| - 1] && Subsequence(a[..|a| - 1], b[..|b| - 1])) || Subsequence(a, b[..|b| - 1])))
  }

  lemma {:induction false} DropMiddle(x: Bytes, y: Bytes, z: Bytes, b: Bytes)
    requires Subsequence(x + (y + z), b)
    ensures Subsequence(x + z, b)
    decreases |b|
  {
    var a := x + (y + z);
    if x + z == [] {
      return;
    }
    assert |a| == |x| + |y| + |z| && |x + z| == |x| + |z|;
    var less := b[..|b| - 1];
    if Subsequence(a, less) {
      DropMiddle(x, y, z, less);
    } else if z != [] {
      assert a[..|a| - 1] == x + (y + z[..|z| - 1]);
      DropMiddle(x, y, z[..|z| - 1], less);
      assert (x + z)[..|x + z| - 1] == x + z[..|z| - 1];
    } else if y != [] {
      assert a[..|a| - 1] == x + (y[..|y| - 1] + z);
      DropMiddle(x, y[..|y| - 1], z, less);
    } else {
      assert a == x + z;
    }
  }

  lemma {:induction false} FullSubsequence(a: Bytes, b: Bytes)
    requires Subsequence(a, b)
    ensures |a| <= |b| && (|a| == |b| ==> a == b)
  {
    if a != [] {
      var less := b[..|b| - 1];
      if Subsequence(a, less) {
        FullSubsequence(a, less);
      } else {
        FullSubsequence(a[..|a| - 1], less);
        assert a == a[..|a| - 1] + [a[|a| - 1]] && b == less + [b[|b| - 1]];
      }
    }
  }

  lemma SameEnd(a: Bytes, b: Bytes, c: Byte)
    requires Subsequence(a, b)
    ensures Subsequence(a + [c], b + [c])
  {
    assert (a + [c])[..|a|] == a && (b + [c])[..|b|] == b;
  }

  lemma {:induction false} FlatEnd(chunks: seq<Bytes>, c: Bytes)
    ensures Flat(chunks + [c]) == Flat(chunks) + c
  {
    if chunks == [] {
      assert chunks + [c] == [c] && [c][1..] == [];
    } else {
      assert (chunks + [c])[1..] == chunks[1..] + [c];
      FlatEnd(chunks[1..], c);
    }
  }

  ghost predicate Conserved(t: Tx) {
    Subsequence(Content(t), t.written) && |Content(t)| + t.lost == |t.written|
  }

  predicate Small(chunks: seq<Bytes>) {
    |chunks| <= ENTRIES && forall i :: 0 <= i < |chunks| ==> |chunks[i]| <= SIZE
  }

  predicate WriterBounds(t: Tx) {
    && |t.filled| <= SIZE
    && (t.writer.Sending? ==> |t.writer.chunk| <= SIZE)
    && (t.writer.Storing? ==> |t.filled| < SIZE)
  }

  /** No chunk needs the branch for chunks that do not fit the buffer, and the buffer never fills up. */
  predicate PollBounds(t: Tx) {
    && |HeldBytes(t.held)| <= SIZE && t.poll != Direct && |t.buffer| < BUFFER
    && (t.poll == Waiting || t.poll == Fetching ==> t.buffer == [])
    && (t.poll == Refilling ==> t.held == NoChunk)
  }

  predicate Bounded(t: Tx) {
    WriterBounds(t) && Small(t.queue) && PollBounds(t)
  }

  /** The semaphore is taken by the pass in progress or by the one write that is not yet complete. */
  predicate OneWriter(t: Tx) {
    t.outstanding + (if t.poll == Waiting then 0 else 1) == (if t.busy then 1 else 0)
  }

  ghost predicate Inv(t: Tx) {
    Conserved(t) && Bounded(t) && OneWriter(t)
  }

  lemma WriterBounded(t: Tx, e: WriterStep)
    requires Bounded(t) && OneWriter(t) && WriterEnabled(t, e)
    ensures Bounded(AfterWriter(t, e)) && OneWriter(AfterWriter(t, e))
  {
  }

  lemma PollKeepsSmall(t: Tx, e: PollStep)
    requires Small(t.queue) && PollEnabled(t, e)
    ensures Small(AfterPoll(t, e).queue)
  {
    var u := AfterPoll(t, e);
    assert u.queue == t.queue || (t.queue != [] && u.queue == t.queue[1..]);
  }

  lemma PollBounded(t: Tx, e: PollStep)
    requires Bounded(t) && OneWriter(t) && PollEnabled(t, e)
    ensures Bounded(AfterPoll(t, e)) && OneWriter(AfterPoll(t, e))
  {
    PollKeepsSmall(t, e);
    var u := AfterPoll(t, e);
    assert WriterBounds(u);
  }

  lemma StackBounded(t: Tx, e: StackStep)
    requires Bounded(t) && OneWriter(t) && StackEnabled(t, e)
    ensures Bounded(AfterStack(t, e)) && OneWriter(AfterStack(t, e))
  {
  }

  /** A step that loses `gone` from the middle of the content. */
  lemma Loses(t: Tx, u: Tx, x: Bytes, gone: Bytes, z: Bytes)
    requires Conserved(t) && u.written == t.written && u.lost == t.lost + |gone|
    requires Content(t) == x + (gone + z) && Content(u) == x + z
    ensures Conserved(u)
  {
    DropMiddle(x, gone, z, t.written);
  }

  /** What lies ahead of the bytes in `txbuffer`. */
  function Ahead(t: Tx): Bytes {
    t.sent + (t.buffer + (HeldBytes(t.held) + Flat(t.queue)))
  }

  lemma Assoc(a: Bytes, b: Bytes, c: Bytes, d: Bytes, e: Bytes)
    ensures a + (b + (c + (d + e))) == (a + (b + (c + d))) + e
    ensures a + (b + (c + (d + e))) == ((a + b) + c) + (d + e)
  {
  }

  lemma LosesFilled(t: Tx, u: Tx)
    requires Conserved(t) && Owned(t)
    requires u.sent == t.sent && u.buffer == t.buffer && u.held == t.held && u.queue == t.queue
    requires Pending(u) == [] && u.written == t.written && u.lost == t.lost + |t.filled|
    ensures Conserved(u)
  {
    Assoc(t.sent, t.buffer, HeldBytes(t.held), Flat(t.queue), t.filled);
    Assoc(t.sent, t.buffer, HeldBytes(t.held), Flat(t.queue), []);
    assert t.filled + [] == t.filled;
    Loses(t, u, Ahead(t), t.filled, []);
  }

  lemma WriterConserves(t: Tx, e: WriterStep)
    requires Conserved(t) && WriterEnabled(t, e)
    ensures Conserved(AfterWriter(t, e))
  {
    var u := AfterWriter(t, e);
    match e
    case Put(_, memory) =>
      if |t.filled| == SIZE && !memory {
        LosesFilled(t, u);
      }
    case Close(memory) =>
      if !memory {
        LosesFilled(t, u);
      }
    case Send =>
      FlatEnd(t.queue, t.writer.chunk);
      assert Flat(u.queue) + [] == Flat(t.queue) + t.writer.chunk;
    case Store =>
      Assoc(t.sent, t.buffer, HeldBytes(t.held), Flat(t.queue), t.filled);
      Assoc(t.sent, t.buffer, HeldBytes(t.held), Flat(t.queue), u.filled);
      assert Content(u) == Content(t) + [t.writer.c];
      SameEnd(Content(t), t.written, t.writer.c);
    case Clear =>
  }

  lemma ReceivesInOrder(t: Tx)
    requires t.held == NoChunk
    ensures Content(Received(t)) == Content(t)
  {
    if t.queue != [] {
      var c, more, rest := t.queue[0], Flat(t.queue[1..]), Pending(t);
      assert [] + ((c + more) + rest) == c + (more + rest);
    }
  }

  lemma FetchContent(t: Tx)
    requires PollEnabled(t, Fetch)
    ensures var u := AfterPoll(t, Fetch); Content(u) == Content(t) && u.lost == t.lost && u.written == t.written
  {
    var r := if t.held.Chunk? then t else Received(t);
    if t.held == NoChunk {
      ReceivesInOrder(t);
    }
    assert Content(AfterPoll(t, Fetch)) == Content(r);
  }

  lemma RefillContent(t: Tx)
    requires PollEnabled(t, Refill) && t.held == NoChunk
    ensures var u := AfterPoll(t, Refill); Content(u) == Content(t) && u.lost == t.lost && u.written == t.written
  {
    ReceivesInOrder(t);
  }

  /** Whether the step hands a batch to a stack that refuses it. */
  predicate Refused(t: Tx, e: PollStep) {
    e == Write(false) && t.buffer != []
  }

  lemma CopyContent(t: Tx)
    requires PollEnabled(t, Copy)
    ensures Content(AfterPoll(t, Copy)) == Content(t)
  {
    var rest := Flat(t.queue) + Pending(t);
    assert (t.buffer + t.held.bytes) + ([] + rest) == t.buffer + (t.held.bytes + rest);
  }

  lemma WriteContent(t: Tx, accepted: bool)
    requires PollEnabled(t, Write(accepted))
    ensures var u := AfterPoll(t, Write(accepted)); var rest := HeldBytes(t.held) + (Flat(t.queue) + Pending(t));
      && (Refused(t, Write(accepted)) ==> Content(t) == t.sent + (t.buffer + rest) && Content(u) == t.sent + rest)
      && (!Refused(t, Write(accepted)) ==> Content(u) == Content(t))
  {
    var rest := HeldBytes(t.held) + (Flat(t.queue) + Pending(t));
    assert [] + rest == rest;
    assert (t.sent + t.buffer) + rest == t.sent + (t.buffer + rest);
  }

  lemma PollContent(t: Tx, e: PollStep)
    requires PollBounds(t) && PollEnabled(t, e) && !Refused(t, e)
    ensures var u := AfterPoll(t, e); Content(u) == Content(t) && u.lost == t.lost && u.written == t.written
  {
    match e
    case Begin =>
    case Fetch => FetchContent(t);
    case Refill => RefillContent(t);
    case Copy => CopyContent(t);
    case Write(accepted) => WriteContent(t, accepted);
  }

  lemma PollConserves(t: Tx, e: PollStep)
    requires Conserved(t) && PollBounds(t) && PollEnabled(t, e)
    ensures Conserved(AfterPoll(t, e))
  {
    if Refused(t, e) {
      WriteContent(t, false);
      Loses(t, AfterPoll(t, e), t.sent, t.buffer, HeldBytes(t.held) + (Flat(t.queue) + Pending(t)));
    } else {
      PollContent(t, e);
    }
  }

  lemma StackConserves(t: Tx, e: StackStep)
    requires Conserved(t) && StackEnabled(t, e)
    ensures Conserved(AfterStack(t, e))
  {
    var u := AfterStack(t, e);
    match e
    case Flush =>
      var a, b, c := t.sent, t.buffer, HeldBytes(t.held);
      Assoc(a, b, c, Flat(t.queue), Pending(t));
      Assoc(a, b, c, [], Pending(t));
      assert [] + Pending(t) == Pending(t);
      Loses(t, u, (a + b) + c, Flat(t.queue), Pending(t));
    case Open =>
      if Owned(t) {
        LosesFilled(t, u);
      }
    case _ =>
  }

  // ---------------------------------------------------------------- runs

  ghost predicate Runs(t: Tx, es: seq<Event>)
    decreases |es|
  {
    es == [] || (Enabled(t, es[0]) && Runs(Step(t, es[0]), es[1..]))
  }

  ghost function After(t: Tx, es: seq<Event>): Tx
    requires Runs(t, es)
    decreases |es|
  {
    if es == [] then t else After(Step(t, es[0]), es[1..])
  }

  lemma {:induction false} Joined(t: Tx, es: seq<Event>, fs: seq<Event>)
    requires Runs(t, es) && Runs(After(t, es), fs)
    ensures Runs(t, es + fs) && After(t, es + fs) == After(After(t, es), fs)
    decreases |es|
  {
    if es == [] {
      assert [] + fs == fs;
    } else {
      assert (es + fs)[0] == es[0] && (es + fs)[1..] == es[1..] + fs;
      Joined(Step(t, es[0]), es[1..], fs);
    }
  }

  ghost predicate Reaches(t: Tx, u: Tx) {
    exists es :: Runs(t, es) && After(t, es) == u
  }

  lemma ReachesNext(t: Tx, e: Event)
    requires Enabled(t, e)
    ensures Reaches(t, Step(t, e))
  {
    assert [e][1..] == [] && Runs(Step(t, e), []);
    assert Runs(t, [e]) && After(t, [e]) == Step(t, e);
  }

  lemma ReachesVia(t: Tx, u: Tx, v: Tx)
    requires Reaches(t, u) && Reaches(u, v)
    ensures Reaches(t, v)
  {
    var es :| Runs(t, es) && After(t, es) == u;
    var fs :| Runs(u, fs) && After(u, fs) == v;
    Joined(t, es, fs);
  }

  /** `bluetooth_start_local` followed by the first connection. */
  function Start(): Tx {
    Tx(Ready, [], [], Waiting, NoChunk, [], false, true, true, 0, [], [], 0)
  }

  lemma StepInv(t: Tx, e: Event)
    requires Inv(t) && Enabled(t, e)
    ensures Inv(Step(t, e))
  {
    match e
    case ByWriter(w) => WriterBounded(t, w); WriterConserves(t, w);
    case ByPoll(p) => PollBounded(t, p); PollConserves(t, p);
    case ByStack(s) => StackBounded(t, s); StackConserves(t, s);
  }

  lemma {:induction false} RunInv(t: Tx, es: seq<Event>)
    requires Inv(t) && Runs(t, es)
    ensures Inv(After(t, es))
    decreases |es|
  {
    if es != [] {
      StepInv(t, es[0]);
      RunInv(Step(t, es[0]), es[1..]);
    }
  }

  /** Bytes may be lost by failed allocations, refused writes, and the end and the start of a session only. */
  predicate Lossless(e: Event) {
    && e != ByWriter(Close(false)) && (e.ByWriter? && e.w.Put? ==> e.w.memory)
    && e != ByPoll(Write(false)) && e != ByPoll(WriteChunk(false))
    && e != ByStack(Flush) && e != ByStack(Open)
  }

  lemma {:induction false} NothingLost(t: Tx, es: seq<Event>)
    requires Runs(t, es) && forall i :: 0 <= i < |es| ==> Lossless(es[i])
    ensures After(t, es).lost == t.lost
    decreases |es|
  {
    if es != [] {
      assert Step(t, es[0]).lost == t.lost by {
        assert Lossless(es[0]);
      }
      forall i | 0 <= i < |es| - 1 ensures Lossless(es[1..][i]) {
        assert es[1..][i] == es[i + 1];
      }
      NothingLost(Step(t, es[0]), es[1..]);
    }
  }

  /** Whatever happens and however the tasks interleave: what was sent, followed by what is under way, is
      what was written without the bytes lost, in order and without repetition. */
  lemma SentInOrder(es: seq<Event>)
    requires Runs(Start(), es)
    ensures var t := After(Start(), es); Subsequence(Content(t), t.written) && |Content(t)| + t.lost == |t.written|
  {
    assert Content(Start()) == [];
    RunInv(Start(), es);
  }

  /** While the connection, the memory and the stack hold, not a byte is lost. */
  lemma BytesConserved(es: seq<Event>)
    requires Runs(Start(), es) && forall i :: 0 <= i < |es| ==> Lossless(es[i])
    ensures var t := After(Start(), es); Content(t) == t.written && t.sent <= t.written
  {
    var t := After(Start(), es);
    SentInOrder(es);
    NothingLost(Start(), es);
    FullSubsequence(Content(t), t.written);
  }

  lemma HandsOver(t: Tx, e: Event)
    requires PollBounds(t) && OneWriter(t) && Enabled(t, e)
    ensures e.ByPoll? ==> !e.p.WriteChunk?
    ensures Step(t, e).outstanding > t.outstanding ==> e == ByPoll(Write(true)) && t.outstanding == 0 && 1 <= |t.buffer|
  {
  }

  /** Every write is of 1 to 255 bytes, chunks never need a write of their own, and a write starts only when
      the one before it is complete. */
  lemma WritesAreBoundedAndSerial(es: seq<Event>, e: Event)
    requires Runs(Start(), es) && Enabled(After(Start(), es), e)
    ensures var t := After(Start(), es);
      && t.outstanding <= 1 && |t.buffer| < BUFFER
      && (e.ByPoll? ==> !e.p.WriteChunk?)
      && (Step(t, e).outstanding > t.outstanding ==> e == ByPoll(Write(true)) && t.outstanding == 0 && 1 <= |t.buffer|)
  {
    assert Content(Start()) == [];
    RunInv(Start(), es);
    HandsOver(After(Start(), es), e);
  }

  // ---------------------------------------------------------------- lines

  predicate NoLineFeed(b: Bytes) {
    forall i :: 0 <= i < |b| ==> b[i] != LF
  }

  /** The end of a line, or a full buffer without one. */
  predicate LineEnd(b: Bytes) {
    b != [] && NoLineFeed(b[..|b| - 1]) && (b[|b| - 1] == LF || |b| == SIZE)
  }

  /** A chunk is empty only if a session was opened between the line feed and the allocation. */
  predicate IsChunk(b: Bytes) {
    b == [] || LineEnd(b)
  }

  predicate WriterLines(t: Tx) {
    match t.writer
    case Ready => NoLineFeed(t.filled)
    case Storing(_) => NoLineFeed(t.filled)
    case Closing => IsChunk(t.filled)
    case Sending(chunk, _) => IsChunk(chunk)
    case Clearing(_) => true
  }

  predicate HeldLine(h: Held) {
    h.Chunk? ==> IsChunk(h.bytes)
  }

  ghost predicate Lines(t: Tx) {
    WriterBounds(t) && WriterLines(t) && HeldLine(t.held) && forall i :: 0 <= i < |t.queue| ==> IsChunk(t.queue[i])
  }

  lemma StoreKeepsLines(t: Tx)
    requires Lines(t) && WriterEnabled(t, Store)
    ensures Lines(AfterWriter(t, Store))
  {
    var u := AfterWriter(t, Store);
    assert u.filled[..|u.filled| - 1] == t.filled;
  }

  lemma WriterKeepsLines(t: Tx, e: WriterStep)
    requires Lines(t) && WriterEnabled(t, e)
    ensures Lines(AfterWriter(t, e))
  {
    if e.Store? {
      StoreKeepsLines(t);
    }
  }

  lemma PollKeepsLines(t: Tx, e: PollStep)
    requires Lines(t) && PollEnabled(t, e)
    ensures Lines(AfterPoll(t, e))
  {
    var u := AfterPoll(t, e);
    assert u.queue == t.queue || (t.queue != [] && u.queue == t.queue[1..]);
  }

  lemma {:induction false} RunKeepsLines(t: Tx, es: seq<Event>)
    requires Lines(t) && Runs(t, es)
    ensures Lines(After(t, es))
    decreases |es|
  {
    if es != [] {
      match es[0] {
        case ByWriter(w) => WriterKeepsLines(t, w);
        case ByPoll(p) => PollKeepsLines(t, p);
        case ByStack(_) =>
      }
      RunKeepsLines(Step(t, es[0]), es[1..]);
    }
  }

  /** In every run a finished line is handed on as a chunk of its own: a writer that has returned leaves no line feed
      behind, and a chunk never reaches beyond one. */
  lemma LinesAreHandedOn(es: seq<Event>)
    requires Runs(Start(), es)
    ensures var t := After(Start(), es);
      && (t.writer == Ready ==> NoLineFeed(t.filled))
      && HeldLine(t.held) && forall i :: 0 <= i < |t.queue| ==> IsChunk(t.queue[i])
  {
    RunKeepsLines(Start(), es);
  }

  /** A session that is opened between the line feed and the allocation makes the writer queue an empty chunk. */
  lemma OpenEmptiesALine() returns (u: Tx)
    ensures Reaches(Start(), u) && u.queue == [[]] && u.written == [LF] && u.lost == 1 && u.connected
  {
    var a := Step(Start(), ByStack(Disconnect));
    var b := Step(a, ByWriter(Put(LF, true)));
    var c := Step(b, ByWriter(Store));
    var d := Step(c, ByStack(Open));
    var e := Step(d, ByWriter(Close(true)));
    ReachesNext(Start(), ByStack(Disconnect));
    ReachesNext(a, ByWriter(Put(LF, true)));
    ReachesVia(Start(), a, b);
    ReachesNext(b, ByWriter(Store));
    ReachesVia(Start(), b, c);
    ReachesNext(c, ByStack(Open));
    ReachesVia(Start(), c, d);
    ReachesNext(d, ByWriter(Close(true)));
    ReachesVia(Start(), d, e);
    u := Step(e, ByWriter(Send));
    ReachesNext(e, ByWriter(Send));
    ReachesVia(Start(), e, u);
  }

  // ---------------------------------------------------------------- sessions

  /** The state as the start of a history of its own. */
  function Anew(t: Tx): Tx {
    t.(sent := [], written := UnderWay(t), lost := 0)
  }

  /** `t` and `r` differ in their histories only: that of `t` goes on from `f`, that of `r` began there anew. */
  predicate Alike(r: Tx, t: Tx, f: Tx) {
    && r == t.(sent := r.sent, written := r.written, lost := r.lost)
    && t.sent == f.sent + r.sent
    && UnderWay(f) <= r.written && t.written == f.written + r.written[|UnderWay(f)|..]
  }

  lemma AlikeStored(r: Tx, t: Tx, f: Tx, c: Byte)
    requires Alike(r, t, f) && t.writer == Storing(c)
    ensures Alike(AfterWriter(r, Store), AfterWriter(t, Store), f)
  {
    var n := |UnderWay(f)|;
    assert (r.written + [c])[n..] == r.written[n..] + [c];
    assert f.written + (r.written[n..] + [c]) == t.written + [c];
  }

  /** A step that leaves what was sent and written as it is. */
  lemma AlikeStill(r: Tx, t: Tx, f: Tx, r': Tx, t': Tx)
    requires Alike(r, t, f) && r' == t'.(sent := r'.sent, written := r'.written, lost := r'.lost)
    requires r'.sent == r.sent && r'.written == r.written && t'.sent == t.sent && t'.written == t.written
    ensures Alike(r', t', f)
  {
  }

  lemma AlikeWriter(r: Tx, t: Tx, f: Tx, e: WriterStep)
    requires Alike(r, t, f) && WriterEnabled(t, e)
    ensures WriterEnabled(r, e) && Alike(AfterWriter(r, e), AfterWriter(t, e), f)
  {
    if e.Store? {
      AlikeStored(r, t, f, t.writer.c);
    } else {
      AlikeStill(r, t, f, AfterWriter(r, e), AfterWriter(t, e));
    }
  }

  lemma AlikeWritten(r: Tx, t: Tx, f: Tx, data: Bytes, accepted: bool)
    requires Alike(r, t, f)
    ensures Alike(Written(r, data, accepted), Written(t, data, accepted), f)
  {
    if accepted {
      assert f.sent + (r.sent + data) == (f.sent + r.sent) + data;
    } else {
      AlikeStill(r, t, f, Written(r, data, accepted), Written(t, data, accepted));
    }
  }

  lemma AlikePoll(r: Tx, t: Tx, f: Tx, e: PollStep)
    requires Alike(r, t, f) && PollEnabled(t, e)
    ensures PollEnabled(r, e) && Alike(AfterPoll(r, e), AfterPoll(t, e), f)
  {
    match e
    case Write(accepted) =>
      var r', t' := r.(poll := Waiting, buffer := []), t.(poll := Waiting, buffer := []);
      AlikeStill(r, t, f, r', t');
      if t.buffer == [] {
        AlikeStill(r, t, f, r'.(busy := false), t'.(busy := false));
      } else {
        AlikeWritten(r', t', f, t.buffer, accepted);
      }
    case WriteChunk(accepted) =>
      var r', t' := r.(held := NoChunk, poll := Waiting), t.(held := NoChunk, poll := Waiting);
      AlikeStill(r, t, f, r', t');
      AlikeWritten(r', t', f, t.held.bytes, accepted);
    case _ => AlikeStill(r, t, f, AfterPoll(r, e), AfterPoll(t, e));
  }

  lemma {:induction false} RunAlike(r: Tx, t: Tx, f: Tx, es: seq<Event>)
    requires Alike(r, t, f) && Runs(t, es)
    ensures Runs(r, es) && Alike(After(r, es), After(t, es), f)
    decreases |es|
  {
    if es != [] {
      match es[0] {
        case ByWriter(w) => AlikeWriter(r, t, f, w);
        case ByPoll(p) => AlikePoll(r, t, f, p);
        case ByStack(s) =>
      }
      RunAlike(Step(r, es[0]), Step(t, es[0]), f, es[1..]);
    }
  }

  lemma {:induction false} WholeSubsequence(a: Bytes)
    ensures Subsequence(a, a)
    decreases |a|
  {
    if a != [] {
      WholeSubsequence(a[..|a| - 1]);
    }
  }

  /** From any state on: what is sent later was under way then or is written later, in that order. */
  lemma SentLater(t: Tx, es: seq<Event>)
    requires Bounded(t) && OneWriter(t) && Runs(t, es)
    ensures var u := After(t, es);
      && t.sent <= u.sent && t.written <= u.written
      && Subsequence(u.sent[|t.sent|..], UnderWay(t) + u.written[|t.written|..])
  {
    var a := Anew(t);
    AnewInv(t);
    RunAlike(a, t, t, es);
    RunInv(a, es);
    SentIsSubsequence(After(a, es));
    AlikeSent(After(a, es), After(t, es), t);
  }

  lemma AnewInv(t: Tx)
    requires Bounded(t) && OneWriter(t)
    ensures Inv(Anew(t)) && Alike(Anew(t), t, t)
  {
    WholeSubsequence(UnderWay(t));
    assert Content(Anew(t)) == UnderWay(t);
  }

  lemma SentIsSubsequence(r: Tx)
    requires Conserved(r)
    ensures Subsequence(r.sent, r.written)
  {
    assert r.sent + (UnderWay(r) + []) == Content(r) && r.sent + [] == r.sent;
    DropMiddle(r.sent, UnderWay(r), [], r.written);
  }

  lemma AlikeSent(r: Tx, t: Tx, f: Tx)
    requires Alike(r, t, f)
    ensures f.sent <= t.sent && f.written <= t.written
    ensures t.sent[|f.sent|..] == r.sent && UnderWay(f) + t.written[|f.written|..] == r.written
  {
  }

  /** Once the queue is flushed at the end of a session, all that is sent later, in whatever session, is what the
      polling task or the writer still had in hand and what is written later: of what was queued, nothing. */
  lemma QueuedIsNeverSent(t: Tx, es: seq<Event>)
    requires Bounded(t) && OneWriter(t) && !t.connected && Runs(Step(t, ByStack(Flush)), es)
    ensures var u := After(Step(t, ByStack(Flush)), es);
      && t.sent <= u.sent && t.written <= u.written
      && Subsequence(u.sent[|t.sent|..], (t.buffer + HeldBytes(t.held) + Pending(t)) + u.written[|t.written|..])
  {
    var f := Step(t, ByStack(Flush));
    StackBounded(t, Flush);
    SentLater(f, es);
    assert UnderWay(f) == t.buffer + HeldBytes(t.held) + Pending(t);
  }

  /** And once the next session is open, nothing of what `txbuffer` held is sent, either. */
  lemma UnfinishedIsNeverSent(t: Tx, es: seq<Event>)
    requires Bounded(t) && OneWriter(t) && !t.connected && Runs(Step(t, ByStack(Open)), es)
    ensures var u := After(Step(t, ByStack(Open)), es);
      var chunk := if t.writer.Sending? then t.writer.chunk else [];
      && t.sent <= u.sent && t.written <= u.written
      && Subsequence(u.sent[|t.sent|..],
                     (t.buffer + HeldBytes(t.held) + Flat(t.queue) + chunk) + u.written[|t.written|..])
  {
    StackBounded(t, Open);
    SentLater(Step(t, ByStack(Open)), es);
    OpenedUnderWay(t);
  }

  lemma OpenedUnderWay(t: Tx)
    requires !t.connected
    ensures UnderWay(AfterStack(t, Open))
         == t.buffer + HeldBytes(t.held) + Flat(t.queue) + if t.writer.Sending? then t.writer.chunk else []
  {
  }

  /** For a whole run: a session that ends, whatever comes before and after. */
  lemma SessionsAreSeparate(es: seq<Event>, fs: seq<Event>)
    requires Runs(Start(), es + [ByStack(Flush)] + fs)
    ensures Runs(Start(), es)
    ensures var t, u := After(Start(), es), After(Start(), es + [ByStack(Flush)] + fs);
      && t.sent <= u.sent && t.written <= u.written
      && Subsequence(u.sent[|t.sent|..], (t.buffer + HeldBytes(t.held) + Pending(t)) + u.written[|t.written|..])
  {
    var flush := [ByStack(Flush)];
    assert es + flush + fs == es + (flush + fs);
    Divided(Start(), es, flush + fs);
    assert Content(Start()) == [];
    RunInv(Start(), es);
    var t := After(Start(), es);
    assert (flush + fs)[0] == ByStack(Flush) && (flush + fs)[1..] == fs;
    QueuedIsNeverSent(t, fs);
  }

  lemma {:induction false} Divided(t: Tx, es: seq<Event>, fs: seq<Event>)
    requires Runs(t, es + fs)
    ensures Runs(t, es) && Runs(After(t, es), fs) && After(t, es + fs) == After(After(t, es), fs)
    decreases |es|
  {
    if es == [] {
      assert [] + fs == fs;
    } else {
      assert (es + fs)[0] == es[0] && (es + fs)[1..] == es[1..] + fs;
      Divided(Step(t, es[0]), es[1..], fs);
    }
  }

  // ---------------------------------------------------------------- congestion

  /** Whether a turn of `pollTX` finds a client whose stack takes data. */
  predicate Served(t: Tx) {
    t.connected && t.clear
  }

  /** A run all of whose states are without one. */
  ghost predicate KeptOut(t: Tx, es: seq<Event>)
    decreases |es|
  {
    !Served(t) && (es == [] || (Enabled(t, es[0]) && KeptOut(Step(t, es[0]), es[1..])))
  }

  /** A congested stack, and one without a client, is sent nothing: if no turn is under way none begins. */
  lemma {:induction false} CongestedIsSentNothing(t: Tx, es: seq<Event>)
    requires t.poll == Waiting && KeptOut(t, es)
    ensures Runs(t, es) && After(t, es).sent == t.sent && After(t, es).poll == Waiting
    decreases |es|
  {
    if es != [] {
      CongestedIsSentNothing(Step(t, es[0]), es[1..]);
    }
  }

  /** Either report of the stack makes it so. */
  lemma CongestionHolds(t: Tx)
    ensures !Served(Step(t, ByStack(Congestion(true))))
    ensures t.outstanding > 0 ==> !Served(Step(t, ByStack(Complete(true))))
    ensures t.connected ==> !Served(Step(t, ByStack(Disconnect)))
  {
  }

  /** And one that is relieved is served again: the next turn begins, or else the write that is under way can
      complete, and then it begins if the stack is not congested by then. */
  lemma RelievedIsServed(t: Tx)
    requires OneWriter(t) && t.poll == Waiting && t.connected && t.queue != []
    ensures Enabled(Step(t, ByStack(Congestion(false))), ByPoll(Begin)) <==> t.outstanding == 0
    ensures t.outstanding != 0 ==> Enabled(t, ByStack(Complete(false)))
    ensures t.outstanding != 0 ==> (Enabled(Step(t, ByStack(Complete(false))), ByPoll(Begin)) <==> t.clear)
  {
  }

  // ---------------------------------------------------------------- a call and a pass, run to the end

  /** `enqueue_tx_chunk` and the reset of `txbuffer.head`. */
  function Emptied(t: Tx, memory: bool): Tx {
    if memory then t.(filled := [], queue := t.queue + [t.filled])
    else t.(filled := [], lost := t.lost + |t.filled|)
  }

  function AfterPut(t: Tx, c: Byte, first: bool, second: bool): Tx {
    var r := if |t.filled| == SIZE then Emptied(t, first) else t;
    var u := r.(filled := r.filled + [c], written := r.written + [c]);
    if c == LF then Emptied(u, second) else u
  }

  lemma EnqueueReaches(t: Tx, memory: bool, next: Next)
    requires memory ==> |t.queue| < ENTRIES
    ensures Reaches(Allocated(t, memory, next),
                    Emptied(t, memory).(writer := if next.Then? then Storing(next.c) else Ready))
  {
    var u := Allocated(t, memory, next);
    if memory {
      ReachesNext(u, ByWriter(Send));
      var v := Step(u, ByWriter(Send));
      ReachesNext(v, ByWriter(Clear));
      ReachesVia(u, v, Step(v, ByWriter(Clear)));
    } else {
      ReachesNext(u, ByWriter(Clear));
    }
  }

  lemma StoreReaches(t: Tx, c: Byte, second: bool)
    requires t.writer == Storing(c) && (c == LF && second ==> |t.queue| < ENTRIES)
    ensures var u := t.(writer := Ready, filled := t.filled + [c], written := t.written + [c]);
      Reaches(t, if c == LF then Emptied(u, second) else u)
  {
    var u := Step(t, ByWriter(Store));
    ReachesNext(t, ByWriter(Store));
    if c == LF {
      var v := Step(u, ByWriter(Close(second)));
      ReachesNext(u, ByWriter(Close(second)));
      ReachesVia(t, u, v);
      EnqueueReaches(u, second, Return);
      ReachesVia(t, v, Emptied(u, second).(writer := Ready));
    }
  }

  /** A call of `btStreamPutC` that need not wait is a run of the writer's steps. */
  lemma PutReaches(t: Tx, c: Byte, first: bool, second: bool)
    requires t.writer == Ready
    requires |t.queue| + (if |t.filled| == SIZE then 1 else 0) + (if c == LF then 1 else 0) <= ENTRIES
    ensures Reaches(t, AfterPut(t, c, first, second))
  {
    var u := Step(t, ByWriter(Put(c, first)));
    ReachesNext(t, ByWriter(Put(c, first)));
    var v := (if |t.filled| == SIZE then Emptied(t, first) else t).(writer := Storing(c));
    if |t.filled| == SIZE {
      EnqueueReaches(t, first, Then(c));
      ReachesVia(t, u, v);
    }
    StoreReaches(v, c, second);
    ReachesVia(t, v, AfterPut(t, c, first, second));
  }

  datatype Merged = Merged(buffer: Bytes, rest: seq<Bytes>)

  /** The merging loop of `pollTX`, on the chunks in hand. */
  function Merge(buffer: Bytes, chunks: seq<Bytes>): (r: Merged)
    ensures r.rest == [] || |r.rest[0]| >= BUFFER - |r.buffer|
    decreases |chunks|
  {
    if chunks != [] && |chunks[0]| < BUFFER - |buffer| then Merge(buffer + chunks[0], chunks[1..])
    else Merged(buffer, chunks)
  }

  /** The loop takes the longest batch that leaves the buffer short of full. */
  lemma {:induction false} LongestBatch(buffer: Bytes, chunks: seq<Bytes>)
    requires |buffer| < BUFFER
    ensures var r := Merge(buffer, chunks); var k := |chunks| - |r.rest|;
      && 0 <= k && r.rest == chunks[k..]
      && r.buffer == buffer + Flat(chunks[..k])
      && |r.buffer| < BUFFER
      && (k < |chunks| ==> |r.buffer| + |chunks[k]| >= BUFFER)
    decreases |chunks|
  {
    if chunks != [] && |chunks[0]| < BUFFER - |buffer| {
      LongestBatch(buffer + chunks[0], chunks[1..]);
      var k := |chunks| - |Merge(buffer, chunks).rest|;
      assert chunks[1..][k - 1..] == chunks[k..];
      assert chunks[..k][1..] == chunks[1..][..k - 1];
      assert (buffer + chunks[0]) + Flat(chunks[..k][1..]) == buffer + (chunks[0] + Flat(chunks[..k][1..]));
    } else {
      assert chunks[..0] == [] && chunks[0..] == chunks;
      assert buffer + [] == buffer;
    }
  }

  function InHand(held: Held, queue: seq<Bytes>): seq<Bytes> {
    (if held.Chunk? then [held.bytes] else []) + queue
  }

  lemma Leftover(held: Held, queue: seq<Bytes>)
    ensures held.Chunk? ==> var all := InHand(held, queue); all != [] && all[0] == held.bytes && all[1..] == queue
    ensures held == NoChunk ==> InHand(held, queue) == queue
  {
  }

  function Coalesced(t: Tx): Tx {
    var m := Merge(t.buffer, InHand(t.held, t.queue));
    Received(t.(buffer := m.buffer, queue := m.rest))
  }

  lemma {:induction false} CoalescedReaches(t: Tx)
    requires t.poll == Coalescing && (t.held == NoChunk ==> t.queue == [])
    ensures Reaches(t, Coalesced(t)) && !Fits(Coalesced(t))
    decreases |t.queue|, t.held.Chunk?
  {
    if Fits(t) {
      var u := Step(t, ByPoll(Copy));
      var v := Step(u, ByPoll(Refill));
      ReachesNext(t, ByPoll(Copy));
      ReachesNext(u, ByPoll(Refill));
      ReachesVia(t, u, v);
      assert InHand(v.held, v.queue) == t.queue == InHand(t.held, t.queue)[1..];
      CoalescedReaches(v);
      ReachesVia(t, v, Coalesced(v));
    } else {
      assert Coalesced(t) == t by {
        assert t.held.Chunk? ==> InHand(t.held, t.queue)[1..] == t.queue;
      }
      assert Runs(t, []) && After(t, []) == t;
    }
  }

  function AfterPass(t: Tx, accepted: bool): Tx
    requires PollEnabled(t, Begin)
  {
    var u := AfterPoll(AfterPoll(t, Begin), Fetch);
    if u.poll == Direct then AfterPoll(u, WriteChunk(accepted)) else AfterWrite(Coalesced(u), accepted)
  }

  /** One turn of the polling task is a run of its steps. */
  lemma PassReaches(t: Tx, accepted: bool)
    requires PollEnabled(t, Begin)
    ensures Reaches(t, AfterPass(t, accepted))
  {
    var s := Step(t, ByPoll(Begin));
    var u := Step(s, ByPoll(Fetch));
    ReachesNext(t, ByPoll(Begin));
    ReachesNext(s, ByPoll(Fetch));
    ReachesVia(t, s, u);
    if u.poll == Direct {
      ReachesNext(u, ByPoll(WriteChunk(accepted)));
    } else {
      CoalescedReaches(u);
      ReachesVia(t, u, Coalesced(u));
      u := Coalesced(u);
      ReachesNext(u, ByPoll(Write(accepted)));
    }
    ReachesVia(t, u, AfterPass(t, accepted));
  }

  lemma RestInHand(t: Tx)
    ensures var v := Coalesced(t); InHand(v.held, v.queue) == Merge(t.buffer, InHand(t.held, t.queue)).rest
  {
    var rest := Merge(t.buffer, InHand(t.held, t.queue)).rest;
    assert rest != [] ==> [rest[0]] + rest[1..] == rest;
  }

  /** The chunk in hand at the start of a turn. */
  lemma FetchedInHand(t: Tx)
    requires PollEnabled(t, Begin) && PollBounds(t) && Small(t.queue)
    ensures var u := AfterPoll(AfterPoll(t, Begin), Fetch);
      && u.poll == Coalescing && u.buffer == [] && u.sent == t.sent && u.held.Chunk?
      && InHand(u.held, u.queue) == InHand(t.held, t.queue) && |u.held.bytes| <= SIZE
  {
  }

  lemma PassMerges(t: Tx)
    requires PollEnabled(t, Begin) && PollBounds(t) && Small(t.queue)
    ensures var u, m := AfterPass(t, true), Merge([], InHand(t.held, t.queue));
      u.sent == t.sent + m.buffer && InHand(u.held, u.queue) == m.rest
  {
    FetchedInHand(t);
    var u := AfterPoll(AfterPoll(t, Begin), Fetch);
    RestInHand(u);
    var v := Coalesced(u);
    assert v.buffer == [] ==> t.sent + v.buffer == t.sent;
  }

  /** What a successful turn sends: the longest batch of the chunks in hand that is shorter than the buffer. */
  lemma PassSendsLongestBatch(t: Tx)
    requires PollEnabled(t, Begin) && PollBounds(t) && Small(t.queue)
    ensures var u := AfterPass(t, true); var all, rest := InHand(t.held, t.queue), InHand(u.held, u.queue);
      var k := |all| - |rest|;
      && 1 <= k && rest == all[k..]
      && u.sent == t.sent + Flat(all[..k])
      && |Flat(all[..k])| < BUFFER
      && (k < |all| ==> |Flat(all[..k])| + |all[k]| >= BUFFER)
  {
    var all := InHand(t.held, t.queue);
    PassMerges(t);
    LongestBatch([], all);
    var k := |all| - |Merge([], all).rest|;
    assert [] + Flat(all[..k]) == Flat(all[..k]);
    assert all != [] && |all[0]| < BUFFER;
  }

  // ---------------------------------------------------------------- a call that waits for the queue

  /** What the other tasks do while the writer waits: turns of the polling task and events of the stack. */
  datatype Other = Turn(accepted: bool) | Done(congested: bool) | Congested(congested: bool)

  function AfterOther(t: Tx, o: Other): Tx {
    match o
    case Turn(accepted) => if PollEnabled(t, Begin) then AfterPass(t, accepted) else t
    case Done(congested) => if t.outstanding > 0 then AfterStack(t, Complete(congested)) else t
    case Congested(congested) => AfterStack(t, Congestion(congested))
  }

  lemma Stays(t: Tx)
    ensures Reaches(t, t)
  {
    assert Runs(t, []) && After(t, []) == t;
  }

  lemma OtherReaches(t: Tx, o: Other)
    ensures Reaches(t, AfterOther(t, o))
  {
    Stays(t);
    match o
    case Turn(accepted) =>
      if PollEnabled(t, Begin) {
        PassReaches(t, accepted);
      }
    case Done(congested) =>
      if t.outstanding > 0 {
        ReachesNext(t, ByStack(Complete(congested)));
      }
    case Congested(congested) => ReachesNext(t, ByStack(Congestion(congested)));
  }

  datatype Outcome = Outcome(state: Tx, rest: seq<Other>)

  /** `xQueueSendToBack` with an unlimited wait: others go on until there is room. */
  function Awaited(t: Tx, others: seq<Other>): (o: Outcome)
    ensures |o.state.queue| >= ENTRIES ==> o.rest == []
    decreases |others|
  {
    if |t.queue| < ENTRIES || others == [] then Outcome(t, others) else Awaited(AfterOther(t, others[0]), others[1..])
  }

  predicate SameWriter(t: Tx, u: Tx) {
    u.writer == t.writer && u.filled == t.filled && u.written == t.written
  }

  lemma OtherLeavesWriter(t: Tx, o: Other)
    ensures SameWriter(t, AfterOther(t, o))
  {
  }

  lemma {:induction false} AwaitedReaches(t: Tx, others: seq<Other>)
    ensures Reaches(t, Awaited(t, others).state) && SameWriter(t, Awaited(t, others).state)
    decreases |others|
  {
    if |t.queue| < ENTRIES || others == [] {
      Stays(t);
    } else {
      var u := AfterOther(t, others[0]);
      OtherReaches(t, others[0]);
      OtherLeavesWriter(t, others[0]);
      AwaitedReaches(u, others[1..]);
      ReachesVia(t, u, Awaited(t, others).state);
    }
  }

  function Continued(next: Next): Writer {
    if next.Then? then Storing(next.c) else Ready
  }

  /** `enqueue_tx_chunk` and the reset, with the wait. A writer that finds no room is left waiting. */
  function Enqueued(t: Tx, memory: bool, next: Next, others: seq<Other>): Outcome {
    var u := Allocated(t, memory, next);
    if !memory then Outcome(u.(filled := [], writer := Continued(next)), others)
    else
      var w := Awaited(u, others);
      if |w.state.queue| >= ENTRIES then w
      else Outcome(w.state.(filled := [], queue := w.state.queue + [t.filled], writer := Continued(next)), w.rest)
  }

  lemma EnqueuedReaches(t: Tx, memory: bool, next: Next, others: seq<Other>)
    ensures Reaches(Allocated(t, memory, next), Enqueued(t, memory, next, others).state)
    ensures var u := Enqueued(t, memory, next, others).state;
      && u.written == t.written
      && (if u.writer.Sending? then u.writer == Sending(t.filled, next) && |u.queue| >= ENTRIES
          else u.writer == Continued(next) && u.filled == [])
  {
    var u := Allocated(t, memory, next);
    if !memory {
      ReachesNext(u, ByWriter(Clear));
    } else {
      var w := Awaited(u, others).state;
      AwaitedReaches(u, others);
      if |w.queue| < ENTRIES {
        var v := Step(w, ByWriter(Send));
        ReachesNext(w, ByWriter(Send));
        ReachesVia(u, w, v);
        ReachesNext(v, ByWriter(Clear));
        ReachesVia(u, v, Step(v, ByWriter(Clear)));
      }
    }
  }

  /** The second half of `btStreamPutC`, from the store on. */
  function Stored(t: Tx, c: Byte, second: bool, others: seq<Other>): Outcome {
    var u := t.(writer := Ready, filled := t.filled + [c], written := t.written + [c]);
    if c == LF then Enqueued(u, second, Return, others) else Outcome(u, others)
  }

  /** `btStreamPutC` in full: it may be left waiting twice, for a full buffer and for a finished line. */
  function PutOutcome(t: Tx, c: Byte, first: bool, second: bool, others: seq<Other>): Outcome {
    if |t.filled| == SIZE then
      var o := Enqueued(t, first, Then(c), others);
      if o.state.writer.Sending? then o else Stored(o.state, c, second, o.rest)
    else Stored(t, c, second, others)
  }

  lemma StoredAgain(t: Tx, w: Writer, c: Byte, second: bool, others: seq<Other>)
    ensures Stored(t.(writer := w), c, second, others) == Stored(t, c, second, others)
  {
  }

  lemma StoredReaches(t: Tx, c: Byte, second: bool, others: seq<Other>)
    requires t.writer == Storing(c)
    ensures Reaches(t, Stored(t, c, second, others).state)
    ensures var u := Stored(t, c, second, others).state;
      && u.written == t.written + [c]
      && (u.writer == Ready ==> u.filled == if c == LF then [] else t.filled + [c])
      && (u.writer == Ready || (u.writer.Sending? && |u.queue| >= ENTRIES))
  {
    var u := Step(t, ByWriter(Store));
    ReachesNext(t, ByWriter(Store));
    if c == LF {
      var v := Step(u, ByWriter(Close(second)));
      ReachesNext(u, ByWriter(Close(second)));
      ReachesVia(t, u, v);
      EnqueuedReaches(u.(writer := Ready), second, Return, others);
      ReachesVia(t, v, Stored(t, c, second, others).state);
    }
  }

  /** `txbuffer` after a call: it is emptied by a line feed, and when it is full. */
  function Buffered(filled: Bytes, c: Byte): Bytes {
    if c == LF then [] else if |filled| == SIZE then [c] else filled + [c]
  }

  /** Whatever the others do meanwhile, the call is a run of the steps of all tasks. It ends with the byte written, or
      it is waiting for a queue that is full. */
  lemma PutOutcomeReaches(t: Tx, c: Byte, first: bool, second: bool, others: seq<Other>)
    requires t.writer == Ready
    ensures var u := PutOutcome(t, c, first, second, others).state;
      && Reaches(t, u)
      && (u.writer == Ready ==> u.written == t.written + [c] && u.filled == Buffered(t.filled, c))
      && (u.writer != Ready ==> u.writer.Sending? && |u.queue| >= ENTRIES)
  {
    var u := Step(t, ByWriter(Put(c, first)));
    ReachesNext(t, ByWriter(Put(c, first)));
    if |t.filled| == SIZE {
      var o := Enqueued(t, first, Then(c), others);
      EnqueuedReaches(t, first, Then(c), others);
      ReachesVia(t, u, o.state);
      if !o.state.writer.Sending? {
        StoredReaches(o.state, c, second, o.rest);
        ReachesVia(t, o.state, PutOutcome(t, c, first, second, others).state);
      }
    } else {
      StoredReaches(u, c, second, others);
      assert Stored(u, c, second, others) == Stored(t, c, second, others);
      ReachesVia(t, u, PutOutcome(t, c, first, second, others).state);
    }
  }

  /** With room for all that it has to send the call does not wait. */
  lemma PutNeedNotWait(t: Tx, c: Byte, first: bool, second: bool, others: seq<Other>)
    requires t.writer == Ready
    requires |t.queue| + (if |t.filled| == SIZE then 1 else 0) + (if c == LF then 1 else 0) <= ENTRIES
    ensures PutOutcome(t, c, first, second, others) == Outcome(AfterPut(t, c, first, second), others)
  {
  }

  lemma FetchIgnoresWriter(t: Tx, w: Writer)
    requires PollEnabled(t, Begin)
    ensures var u := AfterPoll(AfterPoll(t, Begin), Fetch);
      AfterPoll(AfterPoll(t.(writer := w), Begin), Fetch) == u.(writer := w)
  {
  }

  lemma WriteIgnoresWriter(t: Tx, w: Writer, accepted: bool)
    ensures AfterWrite(t.(writer := w), accepted) == AfterWrite(t, accepted).(writer := w)
  {
  }

  lemma MergeIgnoresWriter(t: Tx, w: Writer)
    ensures Coalesced(t.(writer := w)) == Coalesced(t).(writer := w)
  {
  }

  lemma PassIgnoresWriter(t: Tx, w: Writer, accepted: bool)
    requires PollEnabled(t, Begin)
    ensures AfterPass(t.(writer := w), accepted) == AfterPass(t, accepted).(writer := w)
  {
    var u := AfterPoll(AfterPoll(t, Begin), Fetch);
    FetchIgnoresWriter(t, w);
    MergeIgnoresWriter(u, w);
    WriteIgnoresWriter(Coalesced(u), w, accepted);
  }

  // ---------------------------------------------------------------- what the code does not promise

  /** With an empty queue, a chunk that did not fit stays with the polling task: until the writer sends another one,
      no step of any task changes what was sent or what is held. */
  lemma {:induction false} HeldChunkWaits(t: Tx, es: seq<Event>)
    requires t.poll == Waiting && t.queue == [] && Runs(t, es) && forall i :: 0 <= i < |es| ==> es[i] != ByWriter(Send)
    ensures var u := After(t, es); u.poll == Waiting && u.queue == [] && u.held == t.held && u.sent == t.sent
    decreases |es|
  {
    if es != [] {
      assert es[0] != ByWriter(Send);
      forall i | 0 <= i < |es| - 1 ensures es[1..][i] != ByWriter(Send) {
        assert es[1..][i] == es[i + 1];
      }
      HeldChunkWaits(Step(t, es[0]), es[1..]);
    }
  }

  function Text(n: nat): (s: Bytes)
    ensures |s| == n
  {
    seq(n, i => 120)
  }

  /** Writes `n` letters. */
  lemma {:induction false} Typed(t: Tx, n: nat) returns (u: Tx)
    requires Reaches(Start(), t) && t.writer == Ready && t.filled == [] && n <= SIZE && |t.queue| <= ENTRIES
    ensures Reaches(Start(), u) && u == t.(filled := Text(n), written := t.written + Text(n))
  {
    if n == 0 {
      u := t;
      assert t.written + Text(0) == t.written;
    } else {
      var v := Typed(t, n - 1);
      PutReaches(v, 120, true, true);
      u := AfterPut(v, 120, true, true);
      ReachesVia(Start(), v, u);
      assert Text(n) == Text(n - 1) + [120];
      assert t.written + Text(n) == (t.written + Text(n - 1)) + [120];
    }
  }

  /** Writes a line of `n` letters. */
  lemma Line(t: Tx, n: nat) returns (u: Tx)
    requires Reaches(Start(), t) && t.writer == Ready && t.filled == [] && n < SIZE && |t.queue| < ENTRIES
    ensures Reaches(Start(), u)
    ensures u == t.(queue := t.queue + [Text(n) + [LF]], written := t.written + (Text(n) + [LF]))
  {
    var v := Typed(t, n);
    PutReaches(v, LF, true, true);
    u := AfterPut(v, LF, true, true);
    ReachesVia(Start(), v, u);
    assert (t.written + Text(n)) + [LF] == t.written + (Text(n) + [LF]);
  }

  /** And this happens: two lines of 200 bytes are written, one turn of the polling task sends the first and keeps
      the second, and there it stays. */
  lemma ChunkIsLeftBehind() returns (t: Tx)
    ensures Reaches(Start(), t) && t.poll == Waiting && t.queue == [] && t.held == Chunk(Text(199) + [LF])
    ensures t.sent == Text(199) + [LF]
  {
    var line := Text(199) + [LF];
    assert Runs(Start(), []) && After(Start(), []) == Start();
    var a := Line(Start(), 199);
    var b := Line(a, 199);
    t := AfterPass(b, true);
    PassReaches(b, true);
    ReachesVia(Start(), b, t);
    SecondLineStays(b, line);
  }

  lemma SecondLineStays(t: Tx, line: Bytes)
    requires PollEnabled(t, Begin) && t.held == NoChunk && t.buffer == [] && t.sent == []
    requires t.queue == [line, line] && |line| == 200
    ensures var u := AfterPass(t, true); u.poll == Waiting && u.queue == [] && u.held == Chunk(line) && u.sent == line
  {
    TwoLinesDoNotFit(line);
    assert InHand(t.held, t.queue) == [line, line];
    PassMerges(t);
    HandsOverMerged(t);
    assert [] + line == line;
  }

  lemma TwoLinesDoNotFit(line: Bytes)
    requires |line| == 200
    ensures Merge([], [line, line]) == Merged(line, [line])
  {
    assert [] + line == line && [line, line][1..] == [line];
  }

  lemma HandsOverMerged(t: Tx)
    requires PollEnabled(t, Begin) && PollBounds(t) && Small(t.queue)
    ensures var u, m := AfterPass(t, true), Merge([], InHand(t.held, t.queue));
      && u.poll == Waiting
      && if m.rest == [] then u.held == NoChunk && u.queue == []
         else u.held == Chunk(m.rest[0]) && u.queue == m.rest[1..]
  {
    FetchedInHand(t);
  }

  /** `b` is at the head of what the polling task will write next. */
  predicate Leads(t: Tx, b: Bytes) {
    match t.poll
    case Coalescing => (t.buffer == [] && t.held == Chunk(b)) || b <= t.buffer
    case Refilling => b <= t.buffer
    case _ => t.held == Chunk(b)
  }

  /** A chunk that was left behind is not discarded when the session ends or the next one begins: only a
      write removes it, and that write begins with it, whichever session it belongs to. */
  lemma LeftoverIsWrittenFirst(t: Tx, e: Event, b: Bytes)
    requires Leads(t, b) && b != [] && PollBounds(t) && Enabled(t, e)
    ensures (e.ByPoll? && e.p.Write?) || Leads(Step(t, e), b)
    ensures e.ByPoll? && e.p.Write? ==> b <= t.buffer
  {
    if e.ByPoll? {
      PollKeepsLead(t, e.p, b);
    }
  }

  lemma PollKeepsLead(t: Tx, e: PollStep, b: Bytes)
    requires Leads(t, b) && b != [] && PollBounds(t) && PollEnabled(t, e)
    ensures e.Write? || Leads(AfterPoll(t, e), b)
    ensures e.Write? ==> b <= t.buffer
  {
    if e.Copy? {
      assert AfterPoll(t, e).buffer == t.buffer + t.held.bytes;
      assert [] + b == b;
    }
  }

  // ---------------------------------------------------------------- the tasks

  class BtTask {
    var filled: Bytes
    var queue: seq<Bytes>
    var chunk: Held
    var busy: bool
    var clear: bool
    var connected: bool
    /** Writes that the stack has not completed. */
    var outstanding: nat
    ghost var sent: Bytes
    ghost var written: Bytes
    ghost var lost: nat

    ghost function State(): Tx
      reads this
    {
      Tx(Ready, filled, queue, Waiting, chunk, [], busy, clear, connected, outstanding, sent, written, lost)
    }

    /** The state while a writer is at `w`. */
    ghost function StateAt(w: Writer): Tx
      reads this
    {
      State().(writer := w)
    }

    /** What another task does while the writer waits. */
    method Elsewhere(o: Other, ghost w: Writer)
      modifies `queue, `chunk, `busy, `clear, `outstanding, `sent, `lost
      ensures StateAt(w) == AfterOther(old(StateAt(w)), o)
    {
      match o
      case Turn(accepted) =>
        if PollEnabled(State(), Begin) {
          PassIgnoresWriter(State(), w, accepted);
        }
        PollTx(accepted);
      case Done(congested) =>
        if outstanding > 0 {
          WriteDone(congested);
        }
      case Congested(congested) => clear := !congested;
    }

    /** The wait of `xQueueSendToBack`. */
    method AwaitRoom(others: seq<Other>, ghost w: Writer) returns (rest: seq<Other>)
      modifies `queue, `chunk, `busy, `clear, `outstanding, `sent, `lost
      ensures Outcome(StateAt(w), rest) == Awaited(old(StateAt(w)), others)
    {
      rest := others;
      while |queue| >= ENTRIES && rest != []
        invariant Awaited(StateAt(w), rest) == Awaited(old(StateAt(w)), others)
        decreases |rest|
      {
        Elsewhere(rest[0], w);
        rest := rest[1..];
      }
    }

    /** `enqueue_tx_chunk` with the reset that follows it */
    method Enqueue(memory: bool, ghost next: Next, others: seq<Other>) returns (done: bool, rest: seq<Other>)
      modifies `filled, `queue, `chunk, `busy, `clear, `outstanding, `sent, `lost
      ensures var w := if done then Continued(next) else Sending(old(filled), next);
        Outcome(StateAt(w), rest) == Enqueued(old(State()), memory, next, others)
    {
      done, rest := true, others;
      if memory {
        rest := AwaitRoom(others, Sending(filled, next));
        if |queue| >= ENTRIES {
          return false, rest;
        }
        queue := queue + [filled];
      } else {
        lost := lost + |filled|;
      }
      filled := [];
    }

    /** The second half of `btStreamPutC`. */
    method StoreByte(c: Byte, second: bool, others: seq<Other>) returns (done: bool, rest: seq<Other>, ghost at: Writer)
      modifies `filled, `queue, `chunk, `busy, `clear, `outstanding, `sent, `written, `lost
      ensures Outcome(StateAt(at), rest) == Stored(old(State()), c, second, others) && (done <==> at == Ready)
    {
      done, rest, at := true, others, Ready;
      filled := filled + [c];
      written := written + [c];
      if c == LF {
        ghost var line := filled;
        done, rest := Enqueue(second, Return, others);
        at := if done then Ready else Sending(line, Return);
      }
    }

    /** `btStreamPutC`. The two flags say whether `malloc` succeeds for a full buffer and for a finished line, `others`
        what happens while it waits. It returns false when that is over and the queue is still full. */
    method PutC(c: Byte, first: bool, second: bool, others: seq<Other>)
      returns (done: bool, rest: seq<Other>, ghost at: Writer)
      modifies `filled, `queue, `chunk, `busy, `clear, `outstanding, `sent, `written, `lost
      ensures Outcome(StateAt(at), rest) == PutOutcome(old(State()), c, first, second, others)
      ensures Reaches(old(State()), StateAt(at)) && (done <==> at == Ready)
      ensures done ==> written == old(written) + [c]
      ensures done ==> filled == Buffered(old(filled), c)
      ensures !done ==> |queue| >= ENTRIES
      ensures old(|queue| + (if |filled| == SIZE then 1 else 0)) + (if c == LF then 1 else 0) <= ENTRIES ==>
        done && rest == others && State() == AfterPut(old(State()), c, first, second)
    {
      ghost var t := State();
      PutOutcomeReaches(t, c, first, second, others);
      if |t.queue| + (if |t.filled| == SIZE then 1 else 0) + (if c == LF then 1 else 0) <= ENTRIES {
        PutNeedNotWait(t, c, first, second, others);
      }
      done, rest, at := PutByte(c, first, second, others);
    }

    method PutByte(c: Byte, first: bool, second: bool, others: seq<Other>)
      returns (done: bool, rest: seq<Other>, ghost at: Writer)
      modifies `filled, `queue, `chunk, `busy, `clear, `outstanding, `sent, `written, `lost
      ensures Outcome(StateAt(at), rest) == PutOutcome(old(State()), c, first, second, others)
      ensures done <==> at == Ready
    {
      rest := others;
      if |filled| == SIZE {
        ghost var full := filled;
        done, rest := Enqueue(first, Then(c), others);
        if !done {
          at := Sending(full, Then(c));
          return;
        }
        StoredAgain(State(), Storing(c), c, second, rest);
      }
      done, rest, at := StoreByte(c, second, rest);
    }

    /** The loop of `pollTX` that merges chunks */
    method MergeChunks() returns (buffer: Bytes)
      requires chunk == NoChunk ==> queue == []
      modifies `chunk, `queue
      ensures State().(poll := Coalescing, buffer := buffer) == Coalesced(old(State()).(poll := Coalescing))
    {
      buffer := [];
      ghost var all := InHand(chunk, queue);
      while chunk.Chunk? && |chunk.bytes| < BUFFER - |buffer|
        invariant Merge(buffer, InHand(chunk, queue)) == Merge([], all)
        invariant chunk == NoChunk ==> queue == []
        decreases |queue|, chunk.Chunk?
      {
        Leftover(chunk, queue);
        buffer := buffer + chunk.bytes;
        if queue == [] {
          chunk := NoChunk;
        } else {
          chunk, queue := Chunk(queue[0]), queue[1..];
        }
      }
      Leftover(chunk, queue);
    }

    /** The end of a turn of `pollTX`, from the merging loop on */
    method SendBatch(accepted: bool)
      requires busy && chunk.Chunk?
      modifies `queue, `chunk, `busy, `outstanding, `sent, `lost
      ensures State() == AfterWrite(Coalesced(old(State()).(poll := Coalescing)), accepted)
    {
      var buffer := MergeChunks();
      var dataSent := false;
      if buffer != [] {
        dataSent := Hand(buffer, accepted);
      }
      if !dataSent {
        busy := false;
      }
    }

    /** One turn of the loop of `pollTX`; `accepted` is what the stack makes of the write. */
    method PollTx(accepted: bool)
      modifies `queue, `chunk, `busy, `outstanding, `sent, `lost
      ensures PollEnabled(old(State()), Begin) ==> State() == AfterPass(old(State()), accepted)
      ensures !PollEnabled(old(State()), Begin) ==> State() == old(State())
    {
      if connected && clear && queue != [] && !busy {
        busy := true;
        if chunk == NoChunk {
          chunk, queue := Chunk(queue[0]), queue[1..];
        }
        if |chunk.bytes| >= BUFFER {
          var dataSent := Hand(chunk.bytes, accepted);
          chunk := NoChunk;
          if !dataSent {
            busy := false;
          }
        } else {
          SendBatch(accepted);
        }
      }
    }

    /** `esp_spp_write` */
    method Hand(data: Bytes, accepted: bool) returns (ok: bool)
      modifies `sent, `outstanding, `lost
      ensures ok == accepted
      ensures sent == old(sent) + (if ok then data else [])
      ensures outstanding == old(outstanding) + (if ok then 1 else 0) && lost == old(lost) + (if ok then 0 else |data|)
    {
      ok := accepted;
      if ok {
        sent := sent + data;
        outstanding := outstanding + 1;
      } else {
        lost := lost + |data|;
      }
    }

    /** `ESP_SPP_WRITE_EVT` in `esp_spp_cb` */
    method WriteDone(congested: bool)
      requires outstanding > 0
      modifies `outstanding, `busy, `clear
      ensures State() == Step(old(State()), ByStack(Complete(congested)))
    {
      if congested {
        clear := false;
      }
      outstanding := outstanding - 1;
      busy := false;
    }

    /** `ESP_SPP_CLOSE_EVT` in `esp_spp_cb` with `flush_tx_queue` */
    method Closed()
      requires connected
      modifies `connected, `queue, `lost
      ensures State() == Step(Step(old(State()), ByStack(Disconnect)), ByStack(Flush))
      ensures !connected && queue == [] && lost == old(lost + |Flat(queue)|)
      ensures chunk == old(chunk) && filled == old(filled) && sent == old(sent) && written == old(written)
    {
      connected := false;
      while queue != []
        invariant !connected && lost + |Flat(queue)| == old(lost + |Flat(queue)|)
        decreases |queue|
      {
        lost := lost + |queue[0]|;
        queue := queue[1..];
      }
    }

    /** `ESP_SPP_SRV_OPEN_EVT` in `esp_spp_cb` */
    method Opened()
      requires !connected
      modifies `filled, `connected, `lost
      ensures State() == Step(old(State()), ByStack(Open))
      ensures connected && filled == [] && lost == old(lost + |filled|)
      ensures chunk == old(chunk) && queue == old(queue) && sent == old(sent) && written == old(written)
    {
      lost := lost + |filled|;
      filled := [];
      connected := true;
    }
  }
}
