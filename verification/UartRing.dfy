/** The receive ring of a serial port (main/uart_serial.c): filled by an interrupt handler, emptied by a task,
    without a lock between them. An `Event` is one indivisible access of either side. */
module UartRing {

  type Byte = n: nat | n < 256

  const CAN: Byte := 0x18

  datatype Isr = Asleep | Checking(c: Byte) | Filling(c: Byte, bptr: nat) | Publishing(c: Byte, bptr: nat)

  /** `Flushing` has read the head; `mark` is how many bytes had been accepted then. */
  datatype Reader = Away | Taking(bptr: nat) | Releasing(bptr: nat, c: Byte)
    | Flushing(h: nat, mark: nat) | Clearing
    | Marked | Moved

  /** `accepted` are the bytes put into the ring, `gone` those that left it and `taken` those handed out. */
  datatype Ring = Ring(
    data: seq<Byte>, head: nat, tail: nat, overflow: bool,
    isr: Isr, reader: Reader,
    accepted: seq<Byte>, gone: seq<Byte>, taken: seq<Byte>)

  predicate Shaped(r: Ring) {
    |r.data| >= 2 && r.head < |r.data| && r.tail < |r.data|
  }

  /** `(i + 1) & (RX_BUFFER_SIZE - 1)` */
  function Next(i: nat, size: nat): (j: nat)
    requires i < size
    ensures j == (i + 1) % size
  {
    if i + 1 == size then 0 else i + 1
  }

  function Distance(from: nat, to: nat, size: nat): (d: nat)
    requires from < size && to < size
    ensures d < size && (from + d) % size == to
  {
    if from <= to then to - from else to + size - from
  }

  /** The `n` bytes from `tail` on. */
  function Span(data: seq<Byte>, tail: nat, n: nat): (s: seq<Byte>)
    requires tail < |data| && n <= |data|
    ensures |s| == n
  {
    seq(n, k requires 0 <= k < n => if tail + k < |data| then data[tail + k] else data[tail + k - |data|])
  }

  function Used(r: Ring): nat
    requires Shaped(r)
  {
    Distance(r.tail, r.head, |r.data|)
  }

  function Contents(r: Ring): (s: seq<Byte>)
    requires Shaped(r)
    ensures |s| == Used(r)
  {
    Span(r.data, r.tail, Used(r))
  }

  datatype Event =
    | Arrive(c: Byte, realtime: bool)
    | Check
    | Fill
    | Publish
    | FifoOverflow
    | Look
    | Take
    | Release
    | FlushLook
    | FlushMove
    | FlushClear
    | CancelMark
    | CancelMove
    | CancelAdvance
    | Cancel

  predicate Enabled(r: Ring, e: Event) {
    match e
    case Arrive(_, _) => r.isr == Asleep
    case Check => r.isr.Checking?
    case Fill => r.isr.Filling?
    case Publish => r.isr.Publishing?
    case FifoOverflow => r.isr == Asleep
    case Look => r.reader == Away
    case Take => r.reader.Taking?
    case Release => r.reader.Releasing?
    case FlushLook => r.reader == Away
    case FlushMove => r.reader.Flushing?
    case FlushClear => r.reader == Clearing
    case CancelMark => r.reader == Away
    case CancelMove => r.reader == Marked
    case CancelAdvance => r.reader == Moved
    case Cancel => r.isr == Asleep
  }

  /** The pointers that a task holds stay inside the ring. */
  predicate Pointers(r: Ring) {
    && Shaped(r)
    && (r.isr.Filling? ==> r.isr.bptr < |r.data|) && (r.isr.Publishing? ==> r.isr.bptr < |r.data|)
    && (r.reader.Taking? ==> r.reader.bptr < |r.data|) && (r.reader.Releasing? ==> r.reader.bptr < |r.data|)
    && (r.reader.Flushing? ==> r.reader.h < |r.data| && r.reader.mark <= |r.accepted|)
  }

  /** `serialCancel` when nothing comes between its three assignments. */
  function Cancelled(r: Ring): Ring
    requires Shaped(r)
  {
    r.(data := r.data[r.head := CAN], tail := r.head, head := Next(r.head, |r.data|),
       accepted := r.accepted + [CAN], gone := r.accepted)
  }

  function Step(r: Ring, e: Event): (u: Ring)
    requires Pointers(r) && Enabled(r, e)
    ensures Pointers(u) && |u.data| == |r.data|
  {
    match e
    case Arrive(c, realtime) => if realtime then r else r.(isr := Checking(c))
    case Check =>
      var bptr := Next(r.head, |r.data|);
      if bptr == r.tail then r.(overflow := true, isr := Asleep) else r.(isr := Filling(r.isr.c, bptr))
    case Fill => r.(data := r.data[r.head := r.isr.c], isr := Publishing(r.isr.c, r.isr.bptr))
    case Publish => r.(head := r.isr.bptr, isr := Asleep, accepted := r.accepted + [r.isr.c])
    case FifoOverflow => r.(overflow := true)
    case Look => if r.tail == r.head then r else r.(reader := Taking(r.tail))
    case Take => r.(reader := Releasing(r.reader.bptr, r.data[r.reader.bptr]))
    case Release =>
      r.(tail := Next(r.reader.bptr, |r.data|), reader := Away,
         gone := r.gone + [r.reader.c], taken := r.taken + [r.reader.c])
    case FlushLook => r.(reader := Flushing(r.head, |r.accepted|))
    case FlushMove => r.(tail := r.reader.h, reader := Clearing, gone := r.accepted[..r.reader.mark])
    case FlushClear => r.(overflow := false, reader := Away)
    case CancelMark => r.(data := r.data[r.head := CAN], reader := Marked)
    case CancelMove => r.(tail := r.head, reader := Moved)
    case CancelAdvance => r.(head := Next(r.tail, |r.data|), reader := Away)
    case Cancel => Cancelled(r)
  }

  // ---------------------------------------------------------------- the ring is a bounded queue

  /** What each side may rely on, whatever the other one is doing. */
  predicate IsrOk(r: Ring)
    requires Shaped(r)
  {
    match r.isr
    case Filling(_, bptr) => bptr == Next(r.head, |r.data|) && bptr != r.tail
    case Publishing(c, bptr) => bptr == Next(r.head, |r.data|) && bptr != r.tail && r.data[r.head] == c
    case _ => true
  }

  predicate ReaderOk(r: Ring)
    requires Shaped(r)
  {
    match r.reader
    case Taking(bptr) => bptr == r.tail && r.tail != r.head
    case Releasing(bptr, c) => bptr == r.tail && r.tail != r.head && r.data[r.tail] == c
    case Flushing(h, mark) =>
      && h < |r.data| && mark <= |r.accepted|
      && |r.accepted| - mark == Distance(h, r.head, |r.data|)
      && Distance(r.tail, h, |r.data|) + Distance(h, r.head, |r.data|) == Used(r)
    case Marked => false
    case Moved => false
    case _ => true
  }

  predicate Inv(r: Ring) {
    Pointers(r) && IsrOk(r) && ReaderOk(r) && r.gone + Contents(r) == r.accepted
  }

  /** `Cancel` stands for a call that nothing overlaps: neither side is in the middle of something. */
  predicate Clean(r: Ring, e: Event) {
    && e != CancelMark && e != CancelMove && e != CancelAdvance
    && (e == Cancel ==> r.reader == Away || r.reader == Clearing)
  }

  lemma SpanPut(data: seq<Byte>, tail: nat, head: nat, c: Byte)
    requires tail < |data| && head < |data| && Next(head, |data|) != tail
    ensures Span(data[head := c], tail, Distance(tail, Next(head, |data|), |data|))
         == Span(data, tail, Distance(tail, head, |data|)) + [c]
  {
  }

  lemma SpanTake(data: seq<Byte>, tail: nat, head: nat)
    requires tail < |data| && head < |data| && head != tail
    ensures var s := Span(data, tail, Distance(tail, head, |data|));
      && s != [] && s[0] == data[tail]
      && Span(data, Next(tail, |data|), Distance(Next(tail, |data|), head, |data|)) == s[1..]
  {
  }

  lemma SpanShift(data: seq<Byte>, tail: nat, head: nat, c: Byte)
    requires tail < |data| && head < |data| && head != tail
    ensures var n := Distance(tail, head, |data|); var t, h := Next(tail, |data|), Next(head, |data|);
      && Distance(t, h, |data|) == n
      && Span(data[head := c], t, n) == Span(data, tail, n)[1..] + [c]
  {
  }

  lemma SpanOne(data: seq<Byte>, at: nat)
    requires at < |data| && |data| >= 2
    ensures Span(data, at, Distance(at, Next(at, |data|), |data|)) == [data[at]]
  {
  }

  lemma PublishGrows(r: Ring)
    requires Inv(r) && r.isr.Publishing?
    ensures Contents(Step(r, Publish)) == Contents(r) + [r.isr.c]
  {
  }

  lemma FillKeeps(r: Ring)
    requires Inv(r) && r.isr.Filling?
    ensures Contents(Step(r, Fill)) == Contents(r)
  {
  }

  lemma ReleaseShrinks(r: Ring)
    requires Inv(r) && r.reader.Releasing?
    ensures Used(r) > 0 && r.reader.c == Contents(r)[0] && Contents(Step(r, Release)) == Contents(r)[1..]
  {
  }

  lemma FlushDrops(r: Ring)
    requires Inv(r) && r.reader.Flushing?
    ensures Contents(Step(r, FlushMove)) == r.accepted[r.reader.mark..]
  {
    var u := Step(r, FlushMove);
    var d := Distance(r.tail, r.reader.h, |r.data|);
    assert Contents(u) == Contents(r)[d..];
    assert r.accepted[|r.gone|..] == Contents(r);
  }

  lemma CancelLeavesCan(r: Ring)
    requires Shaped(r)
    ensures Contents(Cancelled(r)) == [CAN]
  {
  }

  lemma IsrInv(r: Ring, e: Event)
    requires Inv(r) && Enabled(r, e) && (e.Arrive? || e.Check? || e.Fill? || e.Publish? || e.FifoOverflow?)
    ensures Inv(Step(r, e))
  {
    if e.Publish? {
      PublishGrows(r);
      assert r.gone + (Contents(r) + [r.isr.c]) == (r.gone + Contents(r)) + [r.isr.c];
    } else if e.Fill? {
      FillKeeps(r);
    }
  }

  lemma ReaderInv(r: Ring, e: Event)
    requires Inv(r) && Enabled(r, e)
    requires e.Look? || e.Take? || e.Release? || e.FlushLook? || e.FlushMove? || e.FlushClear?
    ensures Inv(Step(r, e))
  {
    if e.Release? {
      ReleaseShrinks(r);
      assert Contents(r) == [r.reader.c] + Contents(r)[1..];
    } else if e.FlushMove? {
      FlushMoveInv(r);
    }
  }

  lemma FlushMoveInv(r: Ring)
    requires Inv(r) && r.reader.Flushing?
    ensures Inv(Step(r, FlushMove))
  {
    FlushDrops(r);
    assert r.accepted[..r.reader.mark] + r.accepted[r.reader.mark..] == r.accepted;
  }

  lemma CancelInv(r: Ring)
    requires Inv(r) && Enabled(r, Cancel) && Clean(r, Cancel)
    ensures Inv(Step(r, Cancel))
  {
    CancelLeavesCan(r);
  }

  lemma StepInv(r: Ring, e: Event)
    requires Inv(r) && Enabled(r, e) && Clean(r, e)
    ensures Inv(Step(r, e))
  {
    match e
    case Cancel => CancelInv(r);
    case Look => ReaderInv(r, e);
    case Take => ReaderInv(r, e);
    case Release => ReaderInv(r, e);
    case FlushLook => ReaderInv(r, e);
    case FlushMove => ReaderInv(r, e);
    case FlushClear => ReaderInv(r, e);
    case _ => IsrInv(r, e);
  }

  ghost predicate Runs(r: Ring, es: seq<Event>)
    decreases |es|
  {
    Inv(r) && (es == [] || (Enabled(r, es[0]) && Clean(r, es[0]) && Runs(Step(r, es[0]), es[1..])))
  }

  ghost function After(r: Ring, es: seq<Event>): (u: Ring)
    requires Runs(r, es)
    ensures Inv(u) && |u.data| == |r.data|
    decreases |es|
  {
    if es == [] then r else After(Step(r, es[0]), es[1..])
  }

  /** Every interleaving of whole calls is a run: the invariant never stops one. */
  lemma {:induction false} RunsOn(r: Ring, es: seq<Event>, e: Event)
    requires Runs(r, es) && Enabled(After(r, es), e) && Clean(After(r, es), e)
    ensures Runs(r, es + [e]) && After(r, es + [e]) == Step(After(r, es), e)
    decreases |es|
  {
    StepInv(After(r, es), e);
    if es == [] {
      assert [] + [e] == [e] && [e][1..] == [];
    } else {
      assert (es + [e])[0] == es[0] && (es + [e])[1..] == es[1..] + [e];
      RunsOn(Step(r, es[0]), es[1..], e);
    }
  }

  predicate Discards(e: Event) {
    e.FlushMove? || e.Cancel?
  }

  ghost predicate Growing(r: Ring, u: Ring) {
    && r.accepted <= u.accepted && r.taken <= u.taken
    && u.gone == r.gone + u.taken[|r.taken|..]
  }

  lemma StepGrows(r: Ring, e: Event)
    requires Pointers(r) && Enabled(r, e) && Clean(r, e) && !Discards(e)
    ensures Growing(r, Step(r, e))
  {
    var u := Step(r, e);
    if !e.Release? {
      assert u.taken[|r.taken|..] == [];
    }
  }

  lemma GrowingVia(r: Ring, t: Ring, u: Ring)
    requires Growing(r, t) && Growing(t, u)
    ensures Growing(r, u)
  {
    var x, y := t.taken[|r.taken|..], u.taken[|t.taken|..];
    assert u.taken[|r.taken|..] == x + y;
    assert (r.gone + x) + y == r.gone + (x + y);
  }

  lemma {:induction false} RunGrows(r: Ring, es: seq<Event>)
    requires Runs(r, es) && forall i :: 0 <= i < |es| ==> !Discards(es[i])
    ensures Growing(r, After(r, es))
    decreases |es|
  {
    if es == [] {
      assert r.taken[|r.taken|..] == [];
    } else {
      var t := Step(r, es[0]);
      StepGrows(r, es[0]);
      forall i | 0 <= i < |es| - 1 ensures !Discards(es[1..][i]) {
        assert es[1..][i] == es[i + 1];
      }
      RunGrows(t, es[1..]);
      GrowingVia(r, t, After(r, es));
    }
  }

  /** Between discards the ring is a queue: what is handed out, followed by what is left, is what was there
      followed by what was accepted since. */
  lemma QueueOrder(r: Ring, es: seq<Event>)
    requires Runs(r, es) && forall i :: 0 <= i < |es| ==> !Discards(es[i])
    ensures var u := After(r, es);
      && r.taken <= u.taken && r.accepted <= u.accepted
      && u.taken[|r.taken|..] + Contents(u) == Contents(r) + u.accepted[|r.accepted|..]
  {
    RunGrows(r, es);
    SameQueue(r, After(r, es));
  }

  lemma SameQueue(r: Ring, u: Ring)
    requires Inv(r) && Inv(u) && Growing(r, u)
    ensures u.taken[|r.taken|..] + Contents(u) == Contents(r) + u.accepted[|r.accepted|..]
  {
    var x, y, c, d := u.taken[|r.taken|..], u.accepted[|r.accepted|..], Contents(r), Contents(u);
    assert u.accepted == r.accepted + y;
    assert (r.gone + x) + d == r.gone + (x + d);
    assert (r.gone + c) + y == r.gone + (c + y);
    SamePrefix(r.gone, x + d, c + y);
  }

  lemma SamePrefix(p: seq<Byte>, a: seq<Byte>, b: seq<Byte>)
    requires p + a == p + b
    ensures a == b
  {
    assert (p + a)[|p|..] == a && (p + b)[|p|..] == b;
  }

  function Empty(size: nat): Ring {
    Ring(seq(size, _ => 0), 0, 0, false, Asleep, Away, [], [], [])
  }

  /** From an empty ring, while nothing is discarded, the bytes read are a prefix of the bytes accepted. */
  lemma ReadsAreAPrefix(size: nat, es: seq<Event>)
    requires size >= 2 && Runs(Empty(size), es) && forall i :: 0 <= i < |es| ==> !Discards(es[i])
    ensures var u := After(Empty(size), es); u.taken <= u.accepted && u.accepted == u.taken + Contents(u)
  {
    QueueOrder(Empty(size), es);
    var u := After(Empty(size), es);
    assert u.taken[0..] == u.taken && u.accepted[0..] == u.accepted;
    assert Contents(Empty(size)) == [];
    assert [] + u.accepted == u.accepted;
  }

  /** A byte is refused only when the ring holds one byte less than its size, and that sets the flag. */
  lemma DropsOnlyWhenFull(r: Ring)
    requires Inv(r) && r.isr.Checking?
    ensures var u := Step(r, Check);
      && (u.isr == Asleep <==> |Contents(r)| == |r.data| - 1)
      && (u.isr == Asleep ==> u.overflow) && (u.isr != Asleep ==> u.overflow == r.overflow)
      && Contents(u) == Contents(r) && u.accepted == r.accepted
  {
  }

  /** After a flush exactly the bytes accepted since it read the head are left. */
  lemma FlushKeepsLaterBytes(r: Ring, es: seq<Event>)
    requires Inv(r) && r.reader == Away && Runs(Step(r, FlushLook), es)
    requires forall i :: 0 <= i < |es| ==> es[i].Arrive? || es[i].Check? || es[i].Fill? || es[i].Publish?
    ensures var t := After(Step(r, FlushLook), es);
      && t.reader.Flushing? && |r.accepted| <= |t.accepted|
      && Contents(Step(t, FlushMove)) == t.accepted[|r.accepted|..]
  {
    var s := Step(r, FlushLook);
    StaysFlushing(s, es);
    FlushDrops(After(s, es));
  }

  lemma {:induction false} StaysFlushing(r: Ring, es: seq<Event>)
    requires r.reader.Flushing? && Runs(r, es)
    requires forall i :: 0 <= i < |es| ==> es[i].Arrive? || es[i].Check? || es[i].Fill? || es[i].Publish?
    ensures After(r, es).reader == r.reader
    decreases |es|
  {
    if es != [] {
      var e := es[0];
      assert e.Arrive? || e.Check? || e.Fill? || e.Publish?;
      assert Step(r, e).reader == r.reader;
      forall i | 0 <= i < |es| - 1
        ensures es[1..][i].Arrive? || es[1..][i].Check? || es[1..][i].Fill? || es[1..][i].Publish?
      {
        assert es[1..][i] == es[i + 1];
      }
      StaysFlushing(Step(r, e), es[1..]);
    }
  }

  /** After a cancel that nothing overlaps, the next byte read is CAN and the ones after it arrived later. */
  lemma CanThenLaterBytes(r: Ring, c: Ring, es: seq<Event>)
    requires Inv(r) && Enabled(r, Cancel) && Clean(r, Cancel) && c == Step(r, Cancel) && Runs(c, es)
    requires forall i :: 0 <= i < |es| ==> !Discards(es[i])
    ensures c.taken == r.taken && c.accepted == r.accepted + [CAN]
    ensures var u := After(c, es);
      && c.taken <= u.taken && c.accepted <= u.accepted
      && u.taken[|c.taken|..] + Contents(u) == [CAN] + u.accepted[|c.accepted|..]
  {
    CancelLeavesCan(r);
    QueueOrder(c, es);
  }

  // ---------------------------------------------------------------- calls that overlap

  predicate MidRead(r: Ring) {
    r.reader.Taking? || r.reader.Releasing?
  }

  /** The reader completes a read that is under way. */
  function ReadFinished(r: Ring): (u: Ring)
    requires Pointers(r)
    ensures Pointers(u)
  {
    if r.reader.Taking? then Step(Step(r, Take), Release)
    else if r.reader.Releasing? then Step(r, Release)
    else r
  }

  lemma CancelDuringRead(r: Ring)
    requires Inv(r) && r.isr == Asleep && MidRead(r)
    ensures Contents(ReadFinished(Step(r, Cancel))) == Contents(r)[1..] + [CAN]
  {
    SpanShift(r.data, r.tail, r.head, CAN);
    FinishedAfterCancel(r);
  }

  lemma FinishedAfterCancel(r: Ring)
    requires Inv(r) && r.isr == Asleep && MidRead(r)
    ensures var u := ReadFinished(Step(r, Cancel));
      && u.data == r.data[r.head := CAN]
      && u.tail == Next(r.tail, |r.data|) && u.head == Next(r.head, |r.data|)
  {
  }

  /** The interrupt handler cancels (a realtime command does) while a task may be reading: the old bytes are
      discarded exactly if no read is under way, or the byte being read is the only one. Otherwise the reader
      writes back a tail that makes all the others readable again. */
  lemma CancelTakesEffectIff(r: Ring)
    requires Inv(r) && r.isr == Asleep
    ensures Contents(ReadFinished(Step(r, Cancel))) == [CAN] <==> !MidRead(r) || |Contents(r)| == 1
  {
    CancelLeavesCan(r);
    if MidRead(r) {
      CancelDuringRead(r);
    }
  }

  /** `serialCancel` in a task: its three assignments. */
  function TaskCancel(r: Ring): (u: Ring)
    requires Pointers(r) && r.reader == Away
    ensures Pointers(u) && u.isr == r.isr
  {
    Step(Step(Step(r, CancelMark), CancelMove), CancelAdvance)
  }

  /** Undisturbed, they amount to the `Cancel` of the runs above. */
  lemma UndisturbedTaskCancel(r: Ring)
    requires Inv(r) && r.reader == Away
    ensures TaskCancel(r).(accepted := r.accepted + [CAN], gone := r.accepted)
         == Step(r.(isr := Asleep), Cancel).(isr := r.isr)
  {
  }

  // The handler has a byte under way while a task cancels.

  /** The handler's next access for the byte under way, if there is one. */
  function Onward(r: Ring): (u: Ring)
    requires Pointers(r)
    ensures Pointers(u) && u.reader == r.reader && |u.data| == |r.data|
  {
    match r.isr
    case Asleep => r
    case Checking(_) => Step(r, Check)
    case Filling(_, _) => Step(r, Fill)
    case Publishing(_, _) => Step(r, Publish)
  }

  function OnwardBy(r: Ring, n: nat): (u: Ring)
    requires Pointers(r)
    ensures Pointers(u) && u.reader == r.reader
    decreases n
  {
    if n == 0 then r else OnwardBy(Onward(r), n - 1)
  }

  /** A task cancels; `i` accesses of the handler fall between the first two of its assignments, `j` between the last
      two, and the others come afterwards. */
  function Raced(r: Ring, i: nat, j: nat): (u: Ring)
    requires Pointers(r) && r.reader == Away
    ensures Pointers(u)
  {
    OnwardBy(Step(OnwardBy(Marking(r, i), j), CancelAdvance), 3)
  }

  function Marking(r: Ring, i: nat): (a: Ring)
    requires Pointers(r) && r.reader == Away
    ensures Pointers(a) && a.reader == Moved
  {
    Step(OnwardBy(Step(r, CancelMark), i), CancelMove)
  }

  /** The accesses of the handler up to and including the one that stores the byte, 0 if that is past; and up to the
      one that publishes it. */
  function UntilFill(r: Ring): nat {
    if r.isr.Checking? then 2 else if r.isr.Filling? then 1 else 0
  }

  function UntilPublish(r: Ring): nat {
    if r.isr.Asleep? then 0 else UntilFill(r) + 1
  }

  /** The handler finds the ring full before the task has emptied it. */
  predicate Refused(r: Ring, i: nat)
    requires Shaped(r)
  {
    r.isr.Checking? && i > 0 && Next(r.head, |r.data|) == r.tail
  }

  /** The byte is stored before the cancel is complete, or published before the tail is moved. */
  predicate Collides(r: Ring, i: nat, j: nat)
    requires Shaped(r)
  {
    !Refused(r, i) && (0 < UntilFill(r) <= i + j || 0 < UntilPublish(r) <= i)
  }

  /** What is read first afterwards. */
  function FirstRead(r: Ring, i: nat, j: nat): Byte
    requires Shaped(r)
  {
    if r.isr == Asleep || !Collides(r, i, j) then CAN
    else if UntilPublish(r) <= i then r.data[Next(r.head, |r.data|)]
    else r.isr.c
  }

  predicate Reads(r: Ring, b: Byte)
    requires Shaped(r)
  {
    Contents(r) != [] && Contents(r)[0] == b
  }

  lemma FirstByte(r: Ring, b: Byte)
    requires Shaped(r)
    ensures Reads(r, b) <==> r.tail != r.head && r.data[r.tail] == b
  {
    if r.tail != r.head {
      SpanTake(r.data, r.tail, r.head);
    }
  }

  lemma {:induction false} OnwardAsleep(r: Ring, n: nat)
    requires Pointers(r) && r.isr == Asleep
    ensures OnwardBy(r, n) == r
    decreases n
  {
    if n > 0 {
      OnwardAsleep(r, n - 1);
    }
  }

  lemma OnwardPublishing(r: Ring, n: nat)
    requires Pointers(r) && r.isr.Publishing?
    ensures OnwardBy(r, n) == if n == 0 then r else Step(r, Publish)
  {
    if n > 0 {
      OnwardAsleep(Step(r, Publish), n - 1);
    }
  }

  lemma OnwardFilling(r: Ring, n: nat)
    requires Pointers(r) && r.isr.Filling?
    ensures OnwardBy(r, n) == if n == 0 then r else if n == 1 then Step(r, Fill) else Step(Step(r, Fill), Publish)
  {
    if n > 0 {
      OnwardPublishing(Step(r, Fill), n - 1);
    }
  }

  lemma OnwardChecking(r: Ring, n: nat)
    requires Pointers(r) && r.isr.Checking?
    ensures var c := Step(r, Check);
      OnwardBy(r, n) ==
        if n == 0 then r else if n == 1 || c.isr == Asleep then c
        else if n == 2 then Step(c, Fill) else Step(Step(c, Fill), Publish)
  {
    if n > 0 {
      var c := Step(r, Check);
      if c.isr == Asleep {
        OnwardAsleep(c, n - 1);
      } else {
        OnwardFilling(c, n - 1);
      }
    }
  }

  lemma OnwardIs(r: Ring, n: nat)
    requires Pointers(r)
    ensures r.isr == Asleep ==> OnwardBy(r, n) == r
    ensures r.isr.Publishing? ==> OnwardBy(r, n) == if n == 0 then r else Step(r, Publish)
    ensures r.isr.Filling? ==>
      OnwardBy(r, n) == if n == 0 then r else if n == 1 then Step(r, Fill) else Step(Step(r, Fill), Publish)
    ensures r.isr.Checking? ==>
      OnwardBy(r, n) ==
      if n == 0 then r
      else (var c := Step(r, Check);
            if n == 1 || c.isr == Asleep then c else if n == 2 then Step(c, Fill) else Step(Step(c, Fill), Publish))
  {
    match r.isr
    case Asleep => OnwardAsleep(r, n);
    case Publishing(_, _) => OnwardPublishing(r, n);
    case Filling(_, _) => OnwardFilling(r, n);
    case Checking(_) => OnwardChecking(r, n);
  }

  predicate Aims(r: Ring, at: nat) {
    (r.isr.Filling? ==> r.isr.bptr == at) && (r.isr.Publishing? ==> r.isr.bptr == at)
  }

  /** Once the cancel is complete, the rest of the handler's accesses leave the first byte alone. */
  lemma LastWindow(b: Ring)
    requires Pointers(b) && b.head == Next(b.tail, |b.data|) && Aims(b, b.head)
    ensures Reads(OnwardBy(b, 3), b.data[b.tail])
  {
    OnwardIs(b, 3);
    FirstByte(OnwardBy(b, 3), b.data[b.tail]);
  }

  /** Between the moved tail and the advanced head the handler can overwrite the mark. */
  lemma SecondWindow(a: Ring, j: nat)
    requires Pointers(a) && a.reader == Moved && a.head == a.tail && Aims(a, Next(a.tail, |a.data|))
    ensures var b := Step(OnwardBy(a, j), CancelAdvance);
      && b.tail == a.tail && b.head == Next(b.tail, |b.data|) && |b.data| == |a.data| && Aims(b, b.head)
      && b.data[b.tail] == if 0 < UntilFill(a) <= j then a.isr.c else a.data[a.tail]
  {
    OnwardIs(a, j);
  }

  /** Between the mark and the moved tail it can also get the head past the mark. */
  predicate Moves(r: Ring, i: nat, a: Ring)
    requires Pointers(r)
  {
    var busy := r.isr != Asleep && !Refused(r, i);
    && Pointers(a) && a.reader == Moved && a.head == a.tail && |a.data| == |r.data| && Aims(a, Next(a.tail, |a.data|))
    && (a.isr != Asleep ==> r.isr != Asleep && a.isr.c == r.isr.c)
    && if busy && UntilPublish(r) <= i then a.isr == Asleep && a.data[a.tail] == r.data[Next(r.head, |r.data|)]
       else
         && a.data[a.tail] == (if busy && 0 < UntilFill(r) <= i then r.isr.c else CAN)
         && UntilFill(a) == if !busy || UntilFill(r) <= i then 0 else UntilFill(r) - i
  }

  lemma MovesWhilePublishing(r: Ring, i: nat)
    requires Pointers(r) && IsrOk(r) && r.reader == Away && (r.isr.Publishing? || r.isr == Asleep)
    ensures Moves(r, i, Marking(r, i))
  {
    OnwardIs(Step(r, CancelMark), i);
  }

  lemma MovesWhileFilling(r: Ring, i: nat)
    requires Pointers(r) && IsrOk(r) && r.reader == Away && r.isr.Filling?
    ensures Moves(r, i, Marking(r, i))
  {
    OnwardFilling(Step(r, CancelMark), i);
  }

  lemma MovesWhileChecking(r: Ring, i: nat)
    requires Pointers(r) && IsrOk(r) && r.reader == Away && r.isr.Checking?
    ensures Moves(r, i, Marking(r, i))
  {
    OnwardChecking(Step(r, CancelMark), i);
  }

  lemma FirstWindow(r: Ring, i: nat)
    requires Pointers(r) && IsrOk(r) && r.reader == Away
    ensures Moves(r, i, Marking(r, i))
  {
    match r.isr
    case Checking(_) => MovesWhileChecking(r, i);
    case Filling(_, _) => MovesWhileFilling(r, i);
    case _ => MovesWhilePublishing(r, i);
  }

  /** What is read first after a task's cancel while the handler has a byte under way, at any point and with any
      interleaving: CAN, or the byte itself, or the one left over behind it in the buffer. */
  lemma TaskCancelReads(r: Ring, i: nat, j: nat)
    requires Inv(r) && r.reader == Away
    ensures Reads(Raced(r, i, j), FirstRead(r, i, j))
  {
    var a := Marking(r, i);
    FirstWindow(r, i);
    SecondWindow(a, j);
    LastWindow(Step(OnwardBy(a, j), CancelAdvance));
  }

  /** So a task's cancel takes effect if and only if the handler neither stores a byte between the first and the last
      of its assignments nor publishes one between the first and the second. (The handler does not store CAN, which
      is a realtime command.) */
  lemma TaskCancelIff(r: Ring, i: nat, j: nat)
    requires Inv(r) && r.reader == Away
    requires r.isr != Asleep ==> r.isr.c != CAN && r.data[Next(r.head, |r.data|)] != CAN
    ensures Reads(Raced(r, i, j), CAN) <==> r.isr == Asleep || !Collides(r, i, j)
  {
    TaskCancelReads(r, i, j);
  }

  /** A byte stored after the tail was moved takes the place of CAN. */
  lemma CancelLosesCan(r: Ring)
    requires Inv(r) && r.reader == Away && r.isr.Checking?
    ensures Reads(Raced(r, 0, 2), r.isr.c)
  {
    TaskCancelReads(r, 0, 2);
  }

  /** A byte stored and published before the tail was moved makes the next read return one left over in the buffer. */
  lemma CancelExposesOldByte(r: Ring)
    requires Inv(r) && r.reader == Away && r.isr.Filling?
    ensures Reads(Raced(r, 2, 0), r.data[Next(r.head, |r.data|)])
  {
    TaskCancelReads(r, 2, 0);
  }

  /** When the handler has found room but stores its byte after the cancel, CAN is read, but the byte is lost
      without the flag. */
  lemma CancelDuringFill(r: Ring)
    requires Inv(r) && r.reader == Away && r.isr.Filling?
    ensures var u := Raced(r, 0, 0);
      Contents(u) == [CAN] && u.accepted == r.accepted + [r.isr.c] && u.overflow == r.overflow
  {
    var a := Step(Step(r, CancelMark), CancelMove);
    var b := Step(a, CancelAdvance);
    OnwardFilling(b, 3);
    TaskCancelReads(r, 0, 0);
  }

  // Any number of bytes while a task cancels.

  /** Accesses of the handler, which stores no CAN. */
  predicate Handles(r: Ring, es: seq<Event>)
    requires Pointers(r)
    decreases |es|
  {
    es == [] ||
    (Enabled(r, es[0]) && (es[0].Check? || es[0].Fill? || es[0].Publish? || es[0].FifoOverflow? || NoCan(es[0])) &&
     Handles(Step(r, es[0]), es[1..]))
  }

  predicate NoCan(e: Event) {
    e.Arrive? && e.c != CAN
  }

  function Handled(r: Ring, es: seq<Event>): (u: Ring)
    requires Pointers(r) && Handles(r, es)
    ensures Pointers(u) && u.tail == r.tail && u.reader == r.reader && |u.data| == |r.data|
    decreases |es|
  {
    if es == [] then r else Handled(Step(r, es[0]), es[1..])
  }

  datatype Write = None | Stores | Publishes

  /** The first access that writes. */
  function FirstWrite(es: seq<Event>): Write {
    if es == [] then None
    else if es[0].Fill? then Stores
    else if es[0].Publish? then Publishes
    else FirstWrite(es[1..])
  }

  /** There is no CAN but the mark at `h`, if that. */
  predicate CanOnlyAt(r: Ring, h: nat) {
    && (forall k :: 0 <= k < |r.data| && r.data[k] == CAN ==> k == h)
    && (r.isr != Asleep ==> r.isr.c != CAN)
  }

  lemma {:induction false} StaysOnlyAt(r: Ring, es: seq<Event>, h: nat)
    requires Pointers(r) && Handles(r, es) && CanOnlyAt(r, h)
    ensures CanOnlyAt(Handled(r, es), h)
    decreases |es|
  {
    if es != [] {
      StaysOnlyAt(Step(r, es[0]), es[1..], h);
    }
  }

  /** The head that the handler is about to publish. */
  predicate Aimed(r: Ring)
    requires Shaped(r)
  {
    (r.isr.Filling? || r.isr.Publishing?) ==> r.isr.bptr == Next(r.head, |r.data|) && r.isr.bptr != r.tail
  }

  lemma AimedStep(r: Ring, e: Event)
    requires Pointers(r) && Aimed(r) && Enabled(r, e)
    requires e.Arrive? || e.Check? || e.Fill? || e.Publish? || e.FifoOverflow?
    ensures Aimed(Step(r, e))
  {
  }

  lemma {:induction false} StaysOk(r: Ring, es: seq<Event>)
    requires Pointers(r) && Handles(r, es) && Aimed(r)
    ensures Aimed(Handled(r, es))
    decreases |es|
  {
    if es != [] {
      AimedStep(r, es[0]);
      StaysOk(Step(r, es[0]), es[1..]);
    }
  }

  /** Once the head has passed the mark it does not come back to it. */
  lemma {:induction false} PastTheMark(r: Ring, es: seq<Event>, h: nat)
    requires Pointers(r) && Handles(r, es) && Aimed(r) && h < |r.data|
    requires Distance(r.tail, h, |r.data|) < Distance(r.tail, r.head, |r.data|)
    ensures var u := Handled(r, es); u.head != h && u.data[h] == r.data[h]
    decreases |es|
  {
    if es != [] {
      AimedStep(r, es[0]);
      PastTheMark(Step(r, es[0]), es[1..], h);
    }
  }

  /** What the first write does to the mark at the head. */
  lemma {:induction false} MarkSurvives(r: Ring, es: seq<Event>)
    requires Pointers(r) && Handles(r, es) && Aimed(r)
    ensures var u := Handled(r, es);
      && (FirstWrite(es) == None ==> u.head == r.head && u.data[r.head] == r.data[r.head])
      && (FirstWrite(es) == Publishes ==> u.head != r.head && u.data[r.head] == r.data[r.head])
    decreases |es|
  {
    if es != [] {
      AimedStep(r, es[0]);
      if es[0].Publish? {
        PastTheMark(Step(r, es[0]), es[1..], r.head);
      } else if !es[0].Fill? {
        MarkSurvives(Step(r, es[0]), es[1..]);
      }
    }
  }

  lemma {:induction false} MarkOverwritten(r: Ring, es: seq<Event>)
    requires Pointers(r) && Handles(r, es) && CanOnlyAt(r, r.head) && FirstWrite(es) == Stores
    ensures CanOnlyAt(Handled(r, es), |r.data|)
    decreases |es|
  {
    var u := Step(r, es[0]);
    if es[0].Fill? {
      StaysOnlyAt(u, es[1..], |r.data|);
    } else {
      MarkOverwritten(u, es[1..]);
    }
  }

  /** Behind a tail that has moved, and a head in front of it, nothing is overwritten. */
  lemma {:induction false} FirstByteStays(r: Ring, es: seq<Event>)
    requires Pointers(r) && Handles(r, es) && r.head != r.tail
    requires (r.isr.Filling? ==> r.isr.bptr != r.tail) && (r.isr.Publishing? ==> r.isr.bptr != r.tail)
    ensures var u := Handled(r, es); u.head != r.tail && u.data[r.tail] == r.data[r.tail]
    decreases |es|
  {
    if es != [] {
      FirstByteStays(Step(r, es[0]), es[1..]);
    }
  }

  /** A task's cancel with any accesses of the handler between its assignments and after them. */
  function Interleaved(r: Ring, a: seq<Event>, b: seq<Event>, c: seq<Event>): (u: Ring)
    requires Pointers(r) && r.reader == Away && Handles(Step(r, CancelMark), a)
    requires var y := Step(Handled(Step(r, CancelMark), a), CancelMove);
      Handles(y, b) && Handles(Step(Handled(y, b), CancelAdvance), c)
    ensures Pointers(u)
  {
    var y := Step(Handled(Step(r, CancelMark), a), CancelMove);
    Handled(Step(Handled(y, b), CancelAdvance), c)
  }

  lemma SecondHalf(y: Ring, h: nat, b: seq<Event>, c: seq<Event>)
    requires Pointers(y) && Aimed(y) && y.reader == Moved && y.head == y.tail && CanOnlyAt(y, h)
    requires Handles(y, b) && Handles(Step(Handled(y, b), CancelAdvance), c)
    ensures var u := Handled(Step(Handled(y, b), CancelAdvance), c);
      Reads(u, CAN) <==> y.tail == h && y.data[h] == CAN && FirstWrite(b) != Stores
  {
    var z := Handled(y, b);
    var w := Step(z, CancelAdvance);
    var u := Handled(w, c);
    StaysOk(y, b);
    StaysOnlyAt(y, b, h);
    StaysOnlyAt(w, c, h);
    FirstByteStays(w, c);
    FirstByte(u, CAN);
    if y.tail == h {
      if FirstWrite(b) == Stores {
        MarkOverwritten(y, b);
      } else {
        MarkSurvives(y, b);
      }
    }
  }

  /** With any number of bytes on their way, where none of them and nothing left over in the buffer is CAN: a task's
      cancel takes effect if and only if the handler writes nothing between its first and its second assignment, and
      does not begin with a store between the second and the third. */
  lemma InterleavedCancelIff(r: Ring, a: seq<Event>, b: seq<Event>, c: seq<Event>)
    requires Pointers(r) && Aimed(r) && r.reader == Away && CanOnlyAt(r, r.head) && Handles(Step(r, CancelMark), a)
    requires var y := Step(Handled(Step(r, CancelMark), a), CancelMove);
      Handles(y, b) && Handles(Step(Handled(y, b), CancelAdvance), c)
    ensures Reads(Interleaved(r, a, b, c), CAN) <==> FirstWrite(a) == None && FirstWrite(b) != Stores
  {
    var h, m := r.head, Step(r, CancelMark);
    var y := Step(Handled(m, a), CancelMove);
    FirstHalf(m, a);
    SecondHalf(y, h, b, c);
  }

  lemma FirstHalf(m: Ring, a: seq<Event>)
    requires Pointers(m) && Aimed(m) && m.reader == Marked && Handles(m, a)
    requires CanOnlyAt(m, m.head) && m.data[m.head] == CAN
    ensures var y := Step(Handled(m, a), CancelMove);
      && Aimed(y) && CanOnlyAt(y, m.head) && y.reader == Moved && y.head == y.tail
      && (y.tail == m.head && y.data[m.head] == CAN <==> FirstWrite(a) == None)
  {
    StaysOk(m, a);
    StaysOnlyAt(m, a, m.head);
    MarkSurvives(m, a);
    if FirstWrite(a) == Stores {
      MarkOverwritten(m, a);
    }
  }

  /** The handler can be in the middle of a byte when a task cancels. */
  lemma OverlapHappens(size: nat, c: Byte)
    requires size >= 2 && c != CAN
    ensures var es := [Arrive(c, false), Check];
      && Runs(Empty(size), es)
      && var r := After(Empty(size), es); r.isr.Filling? && r.reader == Away && CanOnlyAt(r, r.head)
  {
    var r := Empty(size);
    assert Contents(r) == [];
    RunsOn(r, [], Arrive(c, false));
    assert [] + [Arrive(c, false)] == [Arrive(c, false)];
    RunsOn(r, [Arrive(c, false)], Check);
    assert [Arrive(c, false)] + [Check] == [Arrive(c, false), Check];
  }

  // ---------------------------------------------------------------- the calls

  /** The bytes that are not taken out of the stream as realtime commands. */
  function Wanted(fifo: seq<Byte>, realtime: Byte -> bool): seq<Byte> {
    if fifo == [] then []
    else (if realtime(fifo[0]) then [] else [fifo[0]]) + Wanted(fifo[1..], realtime)
  }

  lemma {:induction false} WantedEnd(fifo: seq<Byte>, c: Byte, realtime: Byte -> bool)
    ensures Wanted(fifo + [c], realtime) == Wanted(fifo, realtime) + if realtime(c) then [] else [c]
  {
    if fifo == [] {
      assert fifo + [c] == [c] && [c][1..] == [];
    } else {
      assert (fifo + [c])[1..] == fifo[1..] + [c];
      WantedEnd(fifo[1..], c, realtime);
    }
  }

  function Least(a: nat, b: nat): nat {
    if a < b then a else b
  }

  lemma KeepsWhatFits(before: seq<Byte>, wanted: seq<Byte>, c: Byte, room: nat)
    ensures var more := wanted + [c];
      before + more[..Least(room, |more|)] ==
      (before + wanted[..Least(room, |wanted|)]) + if |wanted| < room then [c] else []
  {
  }

  /** Calls that nothing interrupts, as steps. */
  function StoreSteps(r: Ring, c: Byte): Ring
    requires Pointers(r) && r.isr == Asleep
  {
    var u := Step(Step(r, Arrive(c, false)), Check);
    if u.isr.Filling? then Step(Step(u, Fill), Publish) else u
  }

  lemma StoreStepsAre(r: Ring, c: Byte)
    requires Pointers(r) && r.isr == Asleep
    ensures StoreSteps(r, c) ==
      if Next(r.head, |r.data|) == r.tail then r.(overflow := true)
      else r.(data := r.data[r.head := c], head := Next(r.head, |r.data|), accepted := r.accepted + [c])
  {
  }

  function ReadSteps(r: Ring): Ring
    requires Pointers(r) && r.reader == Away
  {
    ReadFinished(Step(r, Look))
  }

  function FlushSteps(r: Ring): Ring
    requires Pointers(r) && r.reader == Away
  {
    Step(Step(Step(r, FlushLook), FlushMove), FlushClear)
  }

  function NoLog(r: Ring): Ring {
    r.(accepted := [], gone := [], taken := [])
  }

  class RxBuffer {
    const data: array<Byte>
    var head: nat
    var tail: nat
    var overflow: bool

    ghost predicate Valid()
      reads this
    {
      data.Length >= 2 && head < data.Length && tail < data.Length
    }

    ghost function Bytes(): (s: seq<Byte>)
      requires Valid()
      reads this, data
      ensures |s| < data.Length
    {
      Span(data[..], tail, Distance(tail, head, data.Length))
    }

    ghost function State(): (r: Ring)
      requires Valid()
      reads this, data
      ensures Pointers(r) && Contents(r) == Bytes()
    {
      Ring(data[..], head, tail, overflow, Asleep, Away, [], [], [])
    }

    constructor (size: nat)
      requires size >= 2
      ensures Valid() && Bytes() == [] && !overflow && data.Length == size && fresh(data)
    {
      data := new Byte[size](_ => 0);
      head, tail, overflow := 0, 0, false;
    }

    /** One turn of the loop of `_uart0_isr` for a byte that is not a realtime command. */
    method Store(c: Byte)
      requires Valid()
      modifies data, `head, `overflow
      ensures Valid()
      ensures Bytes() == old(Bytes()) + if |old(Bytes())| < data.Length - 1 then [c] else []
      ensures overflow == (old(overflow) || |old(Bytes())| == data.Length - 1)
      ensures State() == NoLog(StoreSteps(old(State()), c))
    {
      StoreStepsAre(State(), c);
      var bptr := (head + 1) % data.Length;
      if bptr == tail {
        overflow := true;
      } else {
        SpanPut(data[..], tail, head, c);
        ghost var stored := data[..][head := c];
        data[head] := c;
        assert data[..] == stored;
        head := bptr;
      }
    }

    /** `_uart0_isr`: of what the hardware received it keeps the realtime commands apart, stores the rest as
        long as there is room and flags the loss of any. */
    method Receive(fifo: seq<Byte>, fifoOverflow: bool, realtime: Byte -> bool)
      requires Valid()
      modifies data, `head, `overflow
      ensures Valid()
      ensures var room := data.Length - 1 - |old(Bytes())|; var wanted := Wanted(fifo, realtime);
        && Bytes() == old(Bytes()) + wanted[..Least(room, |wanted|)]
        && overflow == (old(overflow) || fifoOverflow || |wanted| > room)
    {
      if fifoOverflow {
        overflow := true;
      }
      ghost var room := data.Length - 1 - |Bytes()|;
      assert Wanted(fifo[..0], realtime)[..0] == [];
      for i := 0 to |fifo|
        invariant Valid()
        invariant var wanted := Wanted(fifo[..i], realtime);
          && Bytes() == old(Bytes()) + wanted[..Least(room, |wanted|)]
          && overflow == (old(overflow) || fifoOverflow || |wanted| > room)
      {
        ghost var wanted := Wanted(fifo[..i], realtime);
        assert fifo[..i + 1] == fifo[..i] + [fifo[i]];
        WantedEnd(fifo[..i], fifo[i], realtime);
        if !realtime(fifo[i]) {
          KeepsWhatFits(old(Bytes()), wanted, fifo[i], room);
          Store(fifo[i]);
        }
      }
      assert fifo[..|fifo|] == fifo;
    }

    /** `serialRead` */
    method Read() returns (c: int)
      requires Valid()
      modifies `tail
      ensures Valid()
      ensures old(Bytes()) == [] ==> c == -1 && Bytes() == []
      ensures old(Bytes()) != [] ==> c == old(Bytes())[0] && Bytes() == old(Bytes())[1..]
      ensures State() == NoLog(ReadSteps(old(State())))
    {
      var bptr := tail;
      if bptr == head {
        return -1;
      }
      SpanTake(data[..], tail, head);
      c := data[bptr];
      tail := (bptr + 1) % data.Length;
    }

    /** `serialFlush` */
    method Flush()
      requires Valid()
      modifies `tail, `overflow
      ensures Valid() && Bytes() == [] && !overflow
      ensures State() == NoLog(FlushSteps(old(State())))
    {
      tail := head;
      overflow := false;
    }

    /** `serialCancel` */
    method Cancel()
      requires Valid()
      modifies data, `head, `tail
      ensures Valid() && Bytes() == [CAN]
      ensures State() == NoLog(TaskCancel(old(State())))
    {
      data[head] := CAN;
      tail := head;
      SpanOne(data[..], tail);
      head := (tail + 1) % data.Length;
    }
  }
}
