/** The descriptor ring that plays single pulses while the pulser is in passthrough mode
    (`i2s_out_start` and `i2s_out_commit` of main/i2s_out_s3.c, `stepperPulseStart` of main/driver.c). */
module PassRing {

  const COUNT: nat := 12

  type Word = bv32

  /** The port with its step bits off. */
  function Masked(port: Word, mask: Word): Word { port & !mask }

  /** `i2s_set_step_outputs`: every step output is driven, the other outputs stay. */
  function WithSteps(port: Word, mask: Word, step: Word): Word { (port & !mask) | step }

  /** `w` shows exactly the steps `step` on the step outputs, and the port on all others. */
  predicate Shows(w: Word, port: Word, mask: Word, step: Word) {
    w & mask == step && w & !mask == port & !mask
  }

  lemma MaskedShows(port: Word, mask: Word)
    ensures Shows(Masked(port, mask), port, mask, 0)
  {
  }

  lemma UnderMask(port: Word, mask: Word, step: Word)
    requires step & mask == step
    ensures ((port & !mask) | step) & mask == step
  {
  }

  lemma BesideMask(port: Word, mask: Word, step: Word)
    requires step & mask == step
    ensures ((port & !mask) | step) & !mask == port & !mask
  {
  }

  lemma WithinMask(mask: Word, step: Word)
    requires step & !mask == 0
    ensures step & mask == step
  {
  }

  lemma WithStepsShows(port: Word, mask: Word, step: Word)
    requires step & !mask == 0
    ensures Shows(WithSteps(port, mask, step), port, mask, step)
  {
    WithinMask(mask, step);
    UnderMask(port, mask, step);
    BesideMask(port, mask, step);
  }

  lemma ShowsNone(w: Word, v: Word, port: Word, mask: Word, step: Word)
    requires Shows(w, v, mask, 0) && Shows(v, port, mask, step)
    ensures Shows(w, port, mask, 0)
  {
  }

  lemma SteppedShows(port: Word, mask: Word, step: Word)
    requires step & !mask == 0
    ensures Shows(Masked(WithSteps(port, mask, step), mask), port, mask, 0)
  {
    var w := WithSteps(port, mask, step);
    WithStepsShows(port, mask, step);
    MaskedShows(w, mask);
    ShowsNone(Masked(w, mask), w, port, mask, step);
  }

  /** `next[i]` and the sample of each descriptor, the idle descriptor and its successor. */
  datatype Ring = Ring(next: seq<nat>, data: seq<Word>, idle: nat, idleNext: nat)

  /** The `k`-th descriptor behind `i`, going round. */
  function After(i: nat, k: nat): (j: nat)
    requires i < COUNT && k < COUNT
    ensures j < COUNT
  {
    if i + k < COUNT then i + k else i + k - COUNT
  }

  /** The descriptors form one cycle, but for the idle one, which is its own successor. */
  ghost predicate WellFormed(r: Ring) {
    && |r.next| == |r.data| == COUNT && r.idle < COUNT
    && r.idleNext == After(r.idle, 1)
    && forall i :: 0 <= i < COUNT ==> r.next[i] == if i == r.idle then i else After(i, 1)
  }

  /** Where a DMA that follows `next` is after `t` samples. */
  ghost function Position(r: Ring, start: nat, t: nat): (p: nat)
    requires WellFormed(r) && start < COUNT
    ensures p < COUNT
  {
    if t == 0 then start else r.next[Position(r, start, t - 1)]
  }

  ghost function Plays(r: Ring, start: nat, t: nat): Word
    requires WellFormed(r) && start < COUNT
  {
    r.data[Position(r, start, t)]
  }

  /** `n` samples before the idle descriptor the DMA reaches it after exactly `n` more samples, and stays. */
  lemma {:induction false} ReachesIdle(r: Ring, start: nat, n: nat, t: nat)
    requires WellFormed(r) && start < COUNT && n < COUNT && r.idle == After(start, n)
    ensures Position(r, start, t) == if t <= n then After(start, t) else r.idle
  {
    if t > 0 {
      ReachesIdle(r, start, n, t - 1);
    }
  }

  // ---------------------------------------------------------------- committing a pulse

  /** Where the descriptor pointer of a commit is after `k` steps: it sticks at the idle descriptor. */
  function Walk(r: Ring, k: nat): nat
    requires r.idleNext < COUNT
  {
    if k <= 10 then After(r.idleNext, k) else r.idle
  }

  lemma WalkStep(r: Ring, k: nat)
    requires WellFormed(r)
    ensures Walk(r, k) < COUNT && r.next[Walk(r, k)] == Walk(r, k + 1)
  {
  }

  /** `count` writes of `v` from step `k` of the walk on. */
  function Put(r: Ring, k: nat, count: nat, v: Word): (q: Ring)
    requires r.idle < COUNT && r.idleNext < COUNT && |r.data| == COUNT
    ensures |q.data| == COUNT && q == r.(data := q.data)
  {
    if count == 0 then r
    else
      var q := Put(r, k, count - 1, v);
      q.(data := q.data[Walk(r, k + count - 1) := v])
  }

  /** The end of a commit at step `k`: the descriptor there becomes the idle one. */
  function Relink(r: Ring, k: nat, v: Word): Ring
    requires r.idle < COUNT && r.idleNext < COUNT && |r.data| == |r.next| == COUNT
  {
    var desc, restored := Walk(r, k), r.next[r.idle := r.idleNext];
    Ring(restored[desc := desc], r.data[desc := v], desc, restored[desc])
  }

  function Committed(r: Ring, port: Word, mask: Word, pulse: nat, delay: nat): Ring
    requires r.idle < COUNT && r.idleNext < COUNT && |r.data| == |r.next| == COUNT
  {
    Relink(Put(Put(r, 0, delay, Masked(port, mask)), delay, pulse, port), delay + pulse, Masked(port, mask))
  }

  lemma {:induction false} PutData(r: Ring, k: nat, count: nat, v: Word, j: nat)
    requires WellFormed(r) && j <= 10
    ensures Put(r, k, count, v).data[After(r.idleNext, j)]
         == if k <= j < k + count then v else r.data[After(r.idleNext, j)]
  {
    if count > 0 {
      PutData(r, k, count - 1, v, j);
    }
  }

  /** What a commit leaves in the `j`-th descriptor behind the old idle one. */
  function Written(port: Word, mask: Word, pulse: nat, delay: nat, j: nat): Word {
    if delay <= j < delay + pulse then port else Masked(port, mask)
  }

  /** The ring survives a commit of any length. Up to ten samples move the idle descriptor that far on;
      more end at the old idle descriptor and leave the ring as it was. */
  lemma CommitKeepsRing(r: Ring, port: Word, mask: Word, pulse: nat, delay: nat)
    requires WellFormed(r)
    ensures var q := Committed(r, port, mask, pulse, delay);
      && WellFormed(q)
      && q.idle == (if delay + pulse <= 10 then After(r.idleNext, delay + pulse) else r.idle)
  {
  }

  lemma CommittedData(r: Ring, port: Word, mask: Word, pulse: nat, delay: nat, j: nat)
    requires WellFormed(r) && delay + pulse <= 10 && j <= 10
    ensures Committed(r, port, mask, pulse, delay).data[After(r.idleNext, j)]
         == if j <= delay + pulse then Written(port, mask, pulse, delay, j) else r.data[After(r.idleNext, j)]
  {
    var q := Put(r, 0, delay, Masked(port, mask));
    PutData(r, 0, delay, Masked(port, mask), j);
    PutData(q, delay, pulse, port, j);
  }

  /** A DMA that is still `q` samples before the idle descriptor first plays what it had to play, then
      exactly `delay` masked samples, `pulse` samples with the step bits, and the masked port forever. */
  lemma CommitPlays(r: Ring, port: Word, mask: Word, pulse: nat, delay: nat, start: nat, q: nat, t: nat)
    requires WellFormed(r) && start < COUNT && q + delay + pulse <= 10 && r.idle == After(start, q)
    ensures var c := Committed(r, port, mask, pulse, delay);
      && WellFormed(c)
      && Plays(c, start, t) == if t <= q then Plays(r, start, t) else Written(port, mask, pulse, delay, t - q - 1)
  {
    CommitPosition(r, port, mask, pulse, delay, start, q, t);
    ReachesIdle(r, start, q, t);
    if t == q {
      IdleUntouched(r, port, mask, pulse, delay);
    } else if t < q {
      CommittedData(r, port, mask, pulse, delay, 11 - q + t);
      Relative(r, start, q, t, 11 - q + t);
    } else {
      CommittedTail(r, port, mask, pulse, delay, start, q, t);
    }
  }

  /** In bits: of the port that is committed, step bits show between `delay` and `delay + pulse` only. */
  lemma CommitPlaysBits(r: Ring, port: Word, mask: Word, pulse: nat, delay: nat, start: nat, q: nat, t: nat)
    requires WellFormed(r) && start < COUNT && q + delay + pulse <= 10 && r.idle == After(start, q) && t > q
    ensures var c := Committed(r, port, mask, pulse, delay);
      && WellFormed(c)
      && if q + delay < t <= q + delay + pulse then Plays(c, start, t) == port
         else Shows(Plays(c, start, t), port, mask, 0)
  {
    CommitPlays(r, port, mask, pulse, delay, start, q, t);
    MaskedShows(port, mask);
  }

  lemma TickPlaysPort(
      r: Ring, stepped: Word, port: Word, mask: Word, step: Word, pulse: nat, delay: nat, start: nat, q: nat, t: nat)
    requires WellFormed(r) && start < COUNT && q + delay + pulse <= 10 && r.idle == After(start, q)
    requires Shows(stepped, port, mask, step) && t > q
    ensures var c := Committed(r, stepped, mask, pulse, delay);
      && WellFormed(c)
      && Shows(Plays(c, start, t), port, mask, if q + delay < t <= q + delay + pulse then step else 0)
  {
    CommitPlaysBits(r, stepped, mask, pulse, delay, start, q, t);
    if !(q + delay < t <= q + delay + pulse) {
      ShowsNone(Plays(Committed(r, stepped, mask, pulse, delay), start, t), stepped, port, mask, step);
    }
  }

  /** A tick that shows the steps `step` on a port plays, behind what was pending, `delay` samples without any step
      bit, `pulse` samples with exactly these, and from then on none; the other outputs show the port throughout. */
  lemma TickPlaysItsSteps(
      r: Ring, port: Word, mask: Word, step: Word, pulse: nat, delay: nat, start: nat, q: nat, t: nat)
    requires WellFormed(r) && start < COUNT && q + delay + pulse <= 10 && r.idle == After(start, q)
    requires step & !mask == 0 && t > q
    ensures var c := Committed(r, WithSteps(port, mask, step), mask, pulse, delay);
      && WellFormed(c)
      && Shows(Plays(c, start, t), port, mask, if q + delay < t <= q + delay + pulse then step else 0)
  {
    var stepped := WithSteps(port, mask, step);
    WithStepsShows(port, mask, step);
    TickPlaysPort(r, stepped, port, mask, step, pulse, delay, start, q, t);
  }

  lemma CommittedTail(r: Ring, port: Word, mask: Word, pulse: nat, delay: nat, start: nat, q: nat, t: nat)
    requires WellFormed(r) && start < COUNT && q + delay + pulse <= 10 && r.idle == After(start, q) && q < t
    ensures var n := q + delay + pulse + 1;
      Committed(r, port, mask, pulse, delay).data[After(start, if t <= n then t else n)]
      == Written(port, mask, pulse, delay, t - q - 1)
  {
    var n := delay + pulse;
    var j := if t <= q + n + 1 then t - q - 1 else n;
    CommittedData(r, port, mask, pulse, delay, j);
    Relative(r, start, q, q + 1 + j, j);
  }

  lemma CommitPosition(r: Ring, port: Word, mask: Word, pulse: nat, delay: nat, start: nat, q: nat, t: nat)
    requires WellFormed(r) && start < COUNT && q + delay + pulse <= 10 && r.idle == After(start, q)
    ensures var c, n := Committed(r, port, mask, pulse, delay), q + delay + pulse + 1;
      WellFormed(c) && Position(c, start, t) == After(start, if t <= n then t else n)
  {
    CommitKeepsRing(r, port, mask, pulse, delay);
    ReachesIdle(Committed(r, port, mask, pulse, delay), start, q + delay + pulse + 1, t);
  }

  lemma Relative(r: Ring, start: nat, q: nat, t: nat, j: nat)
    requires WellFormed(r) && start < COUNT && q <= 10 && r.idle == After(start, q)
    requires t < COUNT && j <= 10 && (if t < q then j == 11 - q + t else t == q + 1 + j)
    ensures After(start, t) == After(r.idleNext, j)
  {
  }

  lemma {:induction false} PutSkipsIdle(r: Ring, k: nat, count: nat, v: Word)
    requires WellFormed(r) && k + count <= 11
    ensures Put(r, k, count, v).data[r.idle] == r.data[r.idle]
  {
    if count > 0 {
      PutSkipsIdle(r, k, count - 1, v);
    }
  }

  lemma IdleUntouched(r: Ring, port: Word, mask: Word, pulse: nat, delay: nat)
    requires WellFormed(r) && delay + pulse <= 10
    ensures Committed(r, port, mask, pulse, delay).data[r.idle] == r.data[r.idle]
  {
    var q := Put(r, 0, delay, Masked(port, mask));
    PutSkipsIdle(r, 0, delay, Masked(port, mask));
    PutSkipsIdle(q, delay, pulse, port);
  }

  /** What a commit of any length leaves behind the old idle descriptor, and in it. */
  lemma WrittenData(r: Ring, port: Word, mask: Word, pulse: nat, delay: nat, j: nat)
    requires WellFormed(r) && j <= 10 && delay + pulse >= 11
    ensures var c := Committed(r, port, mask, pulse, delay);
      && c.data[After(r.idleNext, j)] == Written(port, mask, pulse, delay, j)
      && c.data[r.idle] == Masked(port, mask)
  {
    var q := Put(r, 0, delay, Masked(port, mask));
    PutData(r, 0, delay, Masked(port, mask), j);
    PutData(q, delay, pulse, port, j);
  }

  /** A commit that comes while so much is pending that the ring cannot take it. The pending samples are lost, and so
      is the beginning of the new ones: the DMA goes on where it is, `11 - q` samples into them. From eleven samples
      on the end is lost, too, and a DMA that idles plays none of them. */
  lemma CommitOverruns(r: Ring, port: Word, mask: Word, pulse: nat, delay: nat, start: nat, q: nat, t: nat)
    requires WellFormed(r) && start < COUNT && q < COUNT && q + delay + pulse >= 11 && r.idle == After(start, q)
    ensures var c, n := Committed(r, port, mask, pulse, delay), delay + pulse;
      var end := if n <= 10 then q + n - 11 else q;
      && WellFormed(c)
      && Plays(c, start, t) == if t < end then Written(port, mask, pulse, delay, 11 - q + t) else Masked(port, mask)
  {
    if delay + pulse <= 10 {
      CatchesUp(r, port, mask, pulse, delay, start, q, t);
    } else {
      GoesRound(r, port, mask, pulse, delay, start, q, t);
    }
  }

  /** From eleven samples on the whole pulse is lost on a DMA that idles: it goes on playing the masked port. */
  lemma LongCommitIsLost(r: Ring, port: Word, mask: Word, pulse: nat, delay: nat, t: nat)
    requires WellFormed(r) && delay + pulse >= 11
    ensures var c := Committed(r, port, mask, pulse, delay); WellFormed(c) && Plays(c, r.idle, t) == Masked(port, mask)
  {
    CommitOverruns(r, port, mask, pulse, delay, r.idle, 0, t);
  }

  lemma CatchesUp(r: Ring, port: Word, mask: Word, pulse: nat, delay: nat, start: nat, q: nat, t: nat)
    requires WellFormed(r) && start < COUNT && q < COUNT && 11 - q <= delay + pulse <= 10 && r.idle == After(start, q)
    ensures var c, end := Committed(r, port, mask, pulse, delay), q + delay + pulse - 11;
      && WellFormed(c)
      && Plays(c, start, t) == if t < end then Written(port, mask, pulse, delay, 11 - q + t) else Masked(port, mask)
  {
    var end := q + delay + pulse - 11;
    CatchPosition(r, port, mask, pulse, delay, start, q, t);
    CatchData(r, port, mask, pulse, delay, start, q, if t < end then t else end);
  }

  lemma CatchPosition(r: Ring, port: Word, mask: Word, pulse: nat, delay: nat, start: nat, q: nat, t: nat)
    requires WellFormed(r) && start < COUNT && q < COUNT && 11 - q <= delay + pulse <= 10 && r.idle == After(start, q)
    ensures var c, end := Committed(r, port, mask, pulse, delay), q + delay + pulse - 11;
      WellFormed(c) && Position(c, start, t) == After(start, if t < end then t else end)
  {
    CommitKeepsRing(r, port, mask, pulse, delay);
    IdleAhead(r, start, q, delay + pulse);
    ReachesIdle(Committed(r, port, mask, pulse, delay), start, q + delay + pulse - 11, t);
  }

  lemma CatchData(r: Ring, port: Word, mask: Word, pulse: nat, delay: nat, start: nat, q: nat, at: nat)
    requires WellFormed(r) && start < COUNT && q < COUNT && 11 - q <= delay + pulse <= 10 && r.idle == After(start, q)
    requires at <= q + delay + pulse - 11
    ensures Committed(r, port, mask, pulse, delay).data[After(start, at)]
         == Written(port, mask, pulse, delay, 11 - q + at)
  {
    Behind(r, start, q, at);
    CommittedData(r, port, mask, pulse, delay, 11 - q + at);
  }

  lemma IdleAhead(r: Ring, start: nat, q: nat, n: nat)
    requires WellFormed(r) && start < COUNT && q < COUNT && 11 - q <= n <= 10 && r.idle == After(start, q)
    ensures After(r.idleNext, n) == After(start, q + n - 11)
  {
  }

  lemma GoesRound(r: Ring, port: Word, mask: Word, pulse: nat, delay: nat, start: nat, q: nat, t: nat)
    requires WellFormed(r) && start < COUNT && q < COUNT && delay + pulse >= 11 && r.idle == After(start, q)
    ensures var c := Committed(r, port, mask, pulse, delay);
      && WellFormed(c)
      && Plays(c, start, t) == if t < q then Written(port, mask, pulse, delay, 11 - q + t) else Masked(port, mask)
  {
    var c := Committed(r, port, mask, pulse, delay);
    CommitKeepsRing(r, port, mask, pulse, delay);
    ReachesIdle(c, start, q, t);
    WrittenData(r, port, mask, pulse, delay, if t < q then 11 - q + t else 0);
    if t < q {
      Behind(r, start, q, t);
    }
  }

  lemma Behind(r: Ring, start: nat, q: nat, t: nat)
    requires WellFormed(r) && start < COUNT && q < COUNT && r.idle == After(start, q) && t < q
    ensures After(start, t) == After(r.idleNext, 11 - q + t)
  {
  }

  // ---------------------------------------------------------------- runs of pulses

  /** A commit, and how many samples the DMA plays before the next one. */
  datatype Tick = Tick(port: Word, delay: nat, pulse: nat, gap: nat)

  function Length(k: Tick): nat {
    k.delay + k.pulse
  }

  /** How far the idle descriptor is ahead of the DMA: the samples that are still pending. */
  function Left(r: Ring, at: nat): (q: nat)
    requires r.idle < COUNT && at < COUNT
    ensures q < COUNT && r.idle == After(at, q)
  {
    if at <= r.idle then r.idle - at else r.idle + COUNT - at
  }

  ghost function Next(r: Ring, mask: Word, k: Tick): (c: Ring)
    requires WellFormed(r)
    ensures WellFormed(c)
  {
    CommitKeepsRing(r, k.port, mask, k.pulse, k.delay);
    Committed(r, k.port, mask, k.pulse, k.delay)
  }

  /** What the DMA plays in a run that starts while it plays descriptor `at`. */
  ghost function Output(r: Ring, at: nat, mask: Word, ks: seq<Tick>): seq<Word>
    requires WellFormed(r) && at < COUNT
    decreases |ks|
  {
    if ks == [] then []
    else
      var c := Next(r, mask, ks[0]);
      seq(ks[0].gap, t requires 0 <= t < ks[0].gap => Plays(c, at, t + 1))
      + Output(c, Position(c, at, ks[0].gap), mask, ks[1..])
  }

  datatype Player = Player(ring: Ring, at: nat)

  ghost function AfterRun(r: Ring, at: nat, mask: Word, ks: seq<Tick>): (p: Player)
    requires WellFormed(r) && at < COUNT
    ensures WellFormed(p.ring) && p.at < COUNT
    decreases |ks|
  {
    if ks == [] then Player(r, at)
    else
      var c := Next(r, mask, ks[0]);
      AfterRun(c, Position(c, at, ks[0].gap), mask, ks[1..])
  }

  /** The samples pending after a tick, by counting alone. */
  function Pending(left: nat, k: Tick): nat {
    if left + Length(k) + 1 <= k.gap then 0 else left + Length(k) + 1 - k.gap
  }

  function Backlog(left: nat, ks: seq<Tick>): nat
    decreases |ks|
  {
    if ks == [] then left else Backlog(Pending(left, ks[0]), ks[1..])
  }

  /** Every commit finds room, which a caller can tell from the lengths and the gaps. */
  predicate Fits(left: nat, ks: seq<Tick>)
    decreases |ks|
  {
    ks == [] || (left + Length(ks[0]) <= 10 && Fits(Pending(left, ks[0]), ks[1..]))
  }

  // What it should play: a queue whose last sample is held when nothing follows.

  datatype Queue = Queue(now: Word, pending: seq<Word>)

  function Samples(k: Tick, mask: Word): (s: seq<Word>)
    ensures |s| == Length(k) + 1
  {
    seq(Length(k) + 1, j requires 0 <= j => Written(k.port, mask, k.pulse, k.delay, j))
  }

  function Sample(q: Queue, t: nat): Word {
    if t < |q.pending| then q.pending[t] else if q.pending == [] then q.now else q.pending[|q.pending| - 1]
  }

  function Played(q: Queue, gap: nat): (s: seq<Word>)
    ensures |s| == gap
  {
    seq(gap, t requires 0 <= t => Sample(q, t))
  }

  function Rest(q: Queue, gap: nat): Queue {
    Queue(if gap == 0 then q.now else Sample(q, gap - 1), if gap <= |q.pending| then q.pending[gap..] else [])
  }

  function QueueOutput(q: Queue, mask: Word, ks: seq<Tick>): seq<Word>
    decreases |ks|
  {
    if ks == [] then []
    else
      var p := q.(pending := q.pending + Samples(ks[0], mask));
      Played(p, ks[0].gap) + QueueOutput(Rest(p, ks[0].gap), mask, ks[1..])
  }

  function View(r: Ring, at: nat): (q: Queue)
    requires |r.data| == COUNT && r.idle < COUNT && at < COUNT
    ensures |q.pending| == Left(r, at)
  {
    Queue(r.data[at], seq(Left(r, at), j requires 0 <= j < Left(r, at) => r.data[After(at, j + 1)]))
  }

  lemma CommitLeft(r: Ring, at: nat, mask: Word, k: Tick)
    requires WellFormed(r) && at < COUNT && Left(r, at) + Length(k) <= 10
    ensures Left(Next(r, mask, k), at) == Left(r, at) + Length(k) + 1
  {
    CommitKeepsRing(r, k.port, mask, k.pulse, k.delay);
  }

  lemma CommitSample(r: Ring, at: nat, mask: Word, k: Tick, t: nat)
    requires WellFormed(r) && at < COUNT && Left(r, at) + Length(k) <= 10 && t <= Left(r, at) + Length(k) + 1
    ensures Next(r, mask, k).data[After(at, t)]
         == if t <= Left(r, at) then r.data[After(at, t)]
            else Written(k.port, mask, k.pulse, k.delay, t - Left(r, at) - 1)
  {
    var q := Left(r, at);
    CommitPlays(r, k.port, mask, k.pulse, k.delay, at, q, t);
    CommitPosition(r, k.port, mask, k.pulse, k.delay, at, q, t);
    ReachesIdle(r, at, q, t);
  }

  lemma CommitPending(r: Ring, at: nat, mask: Word, k: Tick, j: nat)
    requires WellFormed(r) && at < COUNT && Left(r, at) + Length(k) <= 10 && j <= Left(r, at) + Length(k)
    ensures Next(r, mask, k).data[After(at, j + 1)] == (View(r, at).pending + Samples(k, mask))[j]
  {
    CommitSample(r, at, mask, k, j + 1);
  }

  lemma CommitView(r: Ring, at: nat, mask: Word, k: Tick)
    requires WellFormed(r) && at < COUNT && Left(r, at) + Length(k) <= 10
    ensures var q := View(r, at); View(Next(r, mask, k), at) == q.(pending := q.pending + Samples(k, mask))
  {
    var all, c := View(r, at).pending + Samples(k, mask), Next(r, mask, k);
    CommitLeft(r, at, mask, k);
    CommitSample(r, at, mask, k, 0);
    assert |View(c, at).pending| == |all|;
    forall j | 0 <= j < |all|
      ensures View(c, at).pending[j] == all[j]
    {
      CommitPending(r, at, mask, k, j);
    }
    assert View(c, at).pending == all;
  }

  lemma PlaysSample(c: Ring, at: nat, t: nat)
    requires WellFormed(c) && at < COUNT
    ensures Plays(c, at, t + 1) == Sample(View(c, at), t)
  {
    ReachesIdle(c, at, Left(c, at), t + 1);
  }

  lemma PlayedAll(c: Ring, at: nat, gap: nat)
    requires WellFormed(c) && at < COUNT && gap >= Left(c, at)
    ensures Position(c, at, gap) == c.idle && View(c, Position(c, at, gap)) == Rest(View(c, at), gap)
  {
    ReachesIdle(c, at, Left(c, at), gap);
    if gap > 0 {
      PlaysSample(c, at, gap - 1);
    }
  }

  lemma AfterTwice(at: nat, a: nat, b: nat)
    requires at < COUNT && a + b < COUNT
    ensures After(After(at, a), b) == After(at, a + b)
  {
  }

  lemma LeftAfter(c: Ring, at: nat, gap: nat)
    requires WellFormed(c) && at < COUNT && gap < Left(c, at)
    ensures Left(c, After(at, gap)) == Left(c, at) - gap
  {
  }

  lemma PendingAfter(c: Ring, at: nat, gap: nat, j: nat)
    requires WellFormed(c) && at < COUNT && gap + j < Left(c, at)
    ensures Left(c, After(at, gap)) == Left(c, at) - gap
    ensures View(c, After(at, gap)).pending[j] == View(c, at).pending[gap + j]
  {
    LeftAfter(c, at, gap);
    AfterTwice(at, gap, j + 1);
  }

  lemma PlayedSome(c: Ring, at: nat, gap: nat)
    requires WellFormed(c) && at < COUNT && gap < Left(c, at)
    ensures Position(c, at, gap) == After(at, gap) && View(c, After(at, gap)) == Rest(View(c, at), gap)
  {
    var v, w := View(c, After(at, gap)).pending, View(c, at).pending[gap..];
    ReachesIdle(c, at, Left(c, at), gap);
    LeftAfter(c, at, gap);
    forall j | 0 <= j < Left(c, at) - gap
      ensures v[j] == w[j]
    {
      PendingAfter(c, at, gap, j);
    }
    assert v == w;
  }

  lemma PlayView(c: Ring, at: nat, gap: nat)
    requires WellFormed(c) && at < COUNT
    ensures View(c, Position(c, at, gap)) == Rest(View(c, at), gap)
    ensures Left(c, Position(c, at, gap)) == if gap <= Left(c, at) then Left(c, at) - gap else 0
  {
    if gap < Left(c, at) {
      PlayedSome(c, at, gap);
    } else {
      PlayedAll(c, at, gap);
    }
  }

  lemma PlaysAll(c: Ring, at: nat, gap: nat)
    requires WellFormed(c) && at < COUNT
    ensures seq(gap, t requires 0 <= t < gap => Plays(c, at, t + 1)) == Played(View(c, at), gap)
  {
    forall t | 0 <= t < gap
      ensures Plays(c, at, t + 1) == Sample(View(c, at), t)
    {
      PlaysSample(c, at, t);
    }
  }

  lemma OneTick(r: Ring, at: nat, mask: Word, k: Tick)
    requires WellFormed(r) && at < COUNT && Left(r, at) + Length(k) <= 10
    ensures var c, q := Next(r, mask, k), View(r, at); var p := q.(pending := q.pending + Samples(k, mask));
      && seq(k.gap, t requires 0 <= t < k.gap => Plays(c, at, t + 1)) == Played(p, k.gap)
      && View(c, Position(c, at, k.gap)) == Rest(p, k.gap)
      && Left(c, Position(c, at, k.gap)) == Pending(Left(r, at), k)
  {
    var c := Next(r, mask, k);
    CommitView(r, at, mask, k);
    CommitLeft(r, at, mask, k);
    PlayView(c, at, k.gap);
    PlaysAll(c, at, k.gap);
  }

  /** As long as every commit finds room the ring is that queue: whatever the number of pulses, the DMA plays exactly
      their samples, in order and complete, and what is pending follows from lengths and gaps. */
  lemma {:induction false} RingIsAQueue(r: Ring, at: nat, mask: Word, ks: seq<Tick>)
    requires WellFormed(r) && at < COUNT && Fits(Left(r, at), ks)
    ensures Output(r, at, mask, ks) == QueueOutput(View(r, at), mask, ks)
    ensures var p := AfterRun(r, at, mask, ks); Left(p.ring, p.at) == Backlog(Left(r, at), ks)
    decreases |ks|
  {
    if ks != [] {
      var c := Next(r, mask, ks[0]);
      OneTick(r, at, mask, ks[0]);
      RingIsAQueue(c, Position(c, at, ks[0].gap), mask, ks[1..]);
    }
  }

  /** Ticks that leave every pulse the time to end. */
  predicate Spaced(ks: seq<Tick>) {
    forall i :: 0 <= i < |ks| ==> Length(ks[i]) <= 10 && ks[i].gap > Length(ks[i])
  }

  function Whole(k: Tick, mask: Word): seq<Word>
    requires k.gap > Length(k)
  {
    Samples(k, mask) + seq(k.gap - Length(k) - 1, t => Masked(k.port, mask))
  }

  function AllWhole(ks: seq<Tick>, mask: Word): seq<Word>
    requires Spaced(ks)
    decreases |ks|
  {
    if ks == [] then [] else Whole(ks[0], mask) + AllWhole(ks[1..], mask)
  }

  lemma {:induction false} SpacedFits(ks: seq<Tick>)
    requires Spaced(ks)
    ensures Fits(0, ks) && Backlog(0, ks) == 0
    decreases |ks|
  {
    if ks != [] {
      assert Pending(0, ks[0]) == 0;
      SpacedFits(ks[1..]);
    }
  }

  lemma OneWholePulse(r: Ring, mask: Word, k: Tick)
    requires WellFormed(r) && Length(k) <= 10 && k.gap > Length(k)
    ensures var c := Next(r, mask, k);
      && Position(c, r.idle, k.gap) == c.idle
      && seq(k.gap, t requires 0 <= t < k.gap => Plays(c, r.idle, t + 1)) == Whole(k, mask)
  {
    var c := Next(r, mask, k);
    CommitLeft(r, r.idle, mask, k);
    ReachesIdle(c, r.idle, Left(c, r.idle), k.gap);
    forall t | 0 <= t < k.gap
      ensures Plays(c, r.idle, t + 1) == Whole(k, mask)[t]
    {
      WholeSample(r, mask, k, t);
    }
  }

  lemma WholeSample(r: Ring, mask: Word, k: Tick, t: nat)
    requires WellFormed(r) && Length(k) <= 10 && t < k.gap && k.gap > Length(k)
    ensures Plays(Next(r, mask, k), r.idle, t + 1) == Whole(k, mask)[t]
  {
    var s := Samples(k, mask);
    CommitView(r, r.idle, mask, k);
    PlaysSample(Next(r, mask, k), r.idle, t);
    assert View(r, r.idle).pending + s == s;
    assert s[Length(k)] == Masked(k.port, mask);
  }

  /** Then every pulse is played at once and whole, and nothing is ever pending. */
  lemma {:induction false} SpacedPulsesAreWhole(r: Ring, mask: Word, ks: seq<Tick>)
    requires WellFormed(r) && Spaced(ks)
    ensures Output(r, r.idle, mask, ks) == AllWhole(ks, mask)
    decreases |ks|
  {
    if ks != [] {
      OneWholePulse(r, mask, ks[0]);
      SpacedPulsesAreWhole(Next(r, mask, ks[0]), mask, ks[1..]);
    }
  }

  function Stream(k: Tick, n: nat): (ks: seq<Tick>)
    ensures |ks| == n
  {
    seq(n, i => k)
  }

  lemma StreamTail(k: Tick, n: nat)
    requires n > 0
    ensures Stream(k, n)[0] == k && Stream(k, n)[1..] == Stream(k, n - 1)
  {
  }

  lemma {:induction false} TightStream(k: Tick, n: nat, left: nat)
    requires k.gap <= Length(k)
    ensures Fits(left, Stream(k, n)) ==> Backlog(left, Stream(k, n)) == left + n * (Length(k) + 1 - k.gap)
    ensures left + n > 11 && n > 0 ==> !Fits(left, Stream(k, n))
  {
    if n > 0 {
      StreamTail(k, n);
      TightStream(k, n - 1, left + Length(k) + 1 - k.gap);
      assert n * (Length(k) + 1 - k.gap) == (n - 1) * (Length(k) + 1 - k.gap) + (Length(k) + 1 - k.gap);
    }
  }

  /** For equal pulses at equal distances the spacing is exact: a stream of any length finds room if and only if the
      next pulse never comes before the last one has ended. */
  lemma StreamFitsIff(k: Tick)
    requires Length(k) <= 10
    ensures (forall n :: Fits(0, Stream(k, n))) <==> k.gap > Length(k)
  {
    if k.gap > Length(k) {
      forall n
        ensures Fits(0, Stream(k, n))
      {
        SpacedFits(Stream(k, n));
      }
    } else {
      TightStream(k, 12, 0);
      assert !Fits(0, Stream(k, 12));
    }
  }

  /** Pulses of four samples every four samples, as step pulses of 14 microseconds at the shortest period of 16: after
      seven of them seven samples are pending, and the eighth pulse is lost whole, with all that was pending. */
  lemma BurstLosesPulses(r: Ring, mask: Word, port: Word, t: nat)
    requires WellFormed(r)
    ensures var p := AfterRun(r, r.idle, mask, Stream(Tick(port, 0, 4, 4), 7));
      && Fits(0, Stream(Tick(port, 0, 4, 4), 7)) && Left(p.ring, p.at) == 7
      && WellFormed(Committed(p.ring, port, mask, 4, 0))
      && Plays(Committed(p.ring, port, mask, 4, 0), p.at, t) == Masked(port, mask)
  {
    var k := Tick(port, 0, 4, 4);
    var p := AfterRun(r, r.idle, mask, Stream(k, 7));
    BurstFits(k, 7, 0);
    RingIsAQueue(r, r.idle, mask, Stream(k, 7));
    CommitOverruns(p.ring, port, mask, 4, 0, p.at, 7, t);
  }

  lemma {:induction false} BurstFits(k: Tick, n: nat, left: nat)
    requires Length(k) == 4 == k.gap && left + n <= 7
    ensures Fits(left, Stream(k, n)) && Backlog(left, Stream(k, n)) == left + n
    decreases n
  {
    if n > 0 {
      StreamTail(k, n);
      BurstFits(k, n - 1, left + 1);
    }
  }

  class PassThrough {
    const next: array<nat>
    const buffer: array<Word>
    var idle: nat
    var idleNext: nat
    var portData: Word
    const stepMask: Word
    /** `add_dir_delay` of the passthrough `stepperPulseStart`. */
    var addDirDelay: bool

    ghost function State(): Ring
      reads this, next, buffer
    {
      Ring(next[..], buffer[..], idle, idleNext)
    }

    ghost predicate Valid()
      reads this, next, buffer
    {
      next as object != buffer && next.Length == COUNT && buffer.Length == COUNT && WellFormed(State())
    }

    /** The first call of `i2s_out_start`. */
    constructor (port: Word, mask: Word)
      ensures Valid() && fresh(next) && fresh(buffer)
      ensures portData == port && stepMask == mask && idle == 0
    {
      var links := new nat[COUNT](i => 0);
      var samples := new Word[COUNT](i => 0);
      var i: nat := COUNT;
      while i > 0
        invariant i <= COUNT
        invariant forall k :: i <= k < COUNT ==> links[k] == if k == 0 || k == COUNT - 1 then 0 else k + 1
      {
        i := i - 1;
        links[i] := if i == 0 || i == COUNT - 1 then 0 else i + 1;
      }
      next, buffer, idle, idleNext := links, samples, 0, 1;
      portData, stepMask, addDirDelay := port, mask, false;
    }

    /** One of the two loops of `i2s_out_commit`. */
    method PutSamples(desc: nat, ghost k: nat, count: nat, v: Word) returns (end: nat)
      requires Valid() && desc == Walk(State(), k)
      modifies buffer
      ensures Valid() && State() == old(Put(State(), k, count, v)) && end == old(Walk(State(), k + count))
    {
      end := desc;
      var left: nat := count;
      while left > 0
        invariant left <= count && next[..] == old(next[..]) && Valid()
        invariant State() == old(Put(State(), k, count - left, v)) && end == old(Walk(State(), k + count - left))
      {
        WalkStep(State(), k + count - left);
        buffer[end] := v;
        assert buffer[..] == old(Put(State(), k, count - left + 1, v)).data;
        end, left := next[end], left - 1;
      }
    }

    /** `i2s_out_commit` */
    method Commit(pulse: nat, delay: nat)
      requires Valid()
      modifies `idle, `idleNext, `portData, next, buffer
      ensures Valid() && portData == Masked(old(portData), stepMask)
      ensures Shows(portData, old(portData), stepMask, 0)
      ensures State() == old(Committed(State(), portData, stepMask, pulse, delay))
    {
      CommitKeepsRing(State(), portData, stepMask, pulse, delay);
      MaskedShows(portData, stepMask);
      var desc := idleNext;
      desc := PutSamples(desc, 0, delay, Masked(portData, stepMask));
      desc := PutSamples(desc, delay, pulse, portData);
      portData := Masked(portData, stepMask);
      RelinkAt(desc, delay + pulse);
    }

    /** The end of `i2s_out_commit`. */
    method RelinkAt(desc: nat, ghost k: nat)
      requires Valid() && desc == Walk(State(), k) && desc < COUNT
      modifies `idle, `idleNext, next, buffer
      ensures next.Length == COUNT && buffer.Length == COUNT && State() == old(Relink(State(), k, portData))
    {
      buffer[desc] := portData;
      next[idle] := idleNext; // restore
      idleNext := next[desc];
      idle := desc;
      next[desc] := desc;
    }

    /** `stepperPulseStart` in passthrough mode. `dir` is the port after a direction change, `step` the step
        bits of this tick. Its commits stay below the ten samples the ring can take. */
    method PulseStart(dirChanged: bool, dir: Word, step: Word, delaySamples: nat, stepSamples: nat)
      requires Valid() && !addDirDelay && 1 <= delaySamples <= 2 && 1 <= stepSamples <= 4
      requires step & !stepMask == 0
      modifies this, next, buffer
      ensures Valid() && !addDirDelay
      ensures State() == (
        var (r, port) := (old(State()), if dirChanged then dir else old(portData));
        if step != 0 then
          Committed(r, WithSteps(port, stepMask, step), stepMask, stepSamples, if dirChanged then delaySamples else 0)
        else if dirChanged then Committed(r, port, stepMask, 0, delaySamples)
        else r)
      ensures var port := if dirChanged then dir else old(portData);
        if step != 0 || dirChanged then Shows(portData, port, stepMask, 0) else portData == port
    {
      ghost var port := if dirChanged then dir else portData;
      if dirChanged {
        portData := dir;
        addDirDelay := step != 0;
        if !addDirDelay {
          Commit(0, delaySamples);
        }
      }
      if step != 0 {
        SteppedShows(port, stepMask, step);
        portData := WithSteps(portData, stepMask, step);
        Commit(stepSamples, if addDirDelay then delaySamples else 0);
        addDirDelay := false;
      }
    }
  }
}
