/** The mode changes of the pulser of main/i2s_out_s3.c: completion interrupt, event queue, generator task
    and the calls that change the mode, under every interleaving. */
module Pulser {
  import opened I2sStream

  const DMABUF_COUNT: nat := 5

  datatype Link = Null | To(desc: nat)

  /** `next[i]` of the five descriptors, the one the DMA is playing, the completion events not handled
      yet, and how many pulse callbacks have been made. */
  datatype Pulser = Pulser(status: Status, next: seq<Link>, playing: nat, queue: seq<nat>, callbacks: nat)

  /** `Handle` is one turn of the generator task. If it generates, its pulse callbacks (at least none)
      leave the given status behind. */
  datatype Event = Completion | Handle(made: nat, left: Status) | SetPassthrough | SetStepping | Reset

  function RingLink(i: nat): Link {
    To(if i < DMABUF_COUNT - 1 then i + 1 else 0)
  }

  /** `i2s_clear_o_dma_buffers` */
  function Relinked(): (next: seq<Link>)
    ensures |next| == DMABUF_COUNT
  {
    seq(DMABUF_COUNT, i requires 0 <= i => RingLink(i))
  }

  /** `i2s_out_start` with a pulse function set. */
  function Start(p: Pulser, status: Status): Pulser {
    if p.status == status then p
    else if status == Passthrough then p.(status := Passthrough)
    else p.(status := status, next := Relinked(), playing := 0)
  }

  predicate WellFormed(p: Pulser) {
    && |p.next| == DMABUF_COUNT && p.playing < DMABUF_COUNT && |p.queue| <= DMABUF_COUNT
    && (forall i :: 0 <= i < DMABUF_COUNT && p.next[i].To? ==> p.next[i].desc < DMABUF_COUNT)
    && (forall i :: 0 <= i < |p.queue| ==> p.queue[i] < DMABUF_COUNT)
  }

  predicate Enabled(p: Pulser, e: Event) {
    match e
    case Completion => p.status != Passthrough
    case Handle(_, _) => p.queue != []
    case SetStepping => p.status != Waiting // the call blocks until the drain is over
    case _ => true
  }

  /** `i2s_out_intr_handler`: the DMA has played `playing` and follows its link. */
  function Completed(p: Pulser): Pulser
    requires WellFormed(p)
  {
    match p.next[p.playing]
    case Null => Start(p, Passthrough)
    case To(d) =>
      var rest := if |p.queue| == DMABUF_COUNT then p.queue[1..] else p.queue;
      p.(playing := d, queue := rest + [p.playing])
  }

  /** `i2s_step_gen` */
  function Generated(p: Pulser, d: nat, made: nat, left: Status): Pulser
    requires d < |p.next|
  {
    match p.status
    case Stepping =>
      p.(callbacks := p.callbacks + made,
         status := if made == 0 then Stepping else left,
         next := if made > 0 && left == Waiting then p.next[d := Null] else p.next)
    case Waiting => if p.next[d] == Null then Start(p, Passthrough) else p.(next := p.next[d := Null])
    case Passthrough => p
  }

  function Step(p: Pulser, e: Event): Pulser
    requires WellFormed(p) && Enabled(p, e)
  {
    match e
    case Completion => Completed(p)
    case Handle(made, left) => Generated(p.(queue := p.queue[1..]), p.queue[0], made, left)
    case SetPassthrough => if p.status == Stepping then p.(status := Waiting) else p
    case SetStepping => Start(p, Stepping)
    case Reset =>
      var q := if p.status == Stepping then p.(next := Relinked()) else p;
      Start(q, if p.status == Waiting then Passthrough else p.status)
  }

  lemma StepWellFormed(p: Pulser, e: Event)
    requires WellFormed(p) && Enabled(p, e)
    ensures WellFormed(Step(p, e))
  {
  }

  /** A reset ends a drain at once, relinks all descriptors while stepping, and does nothing in passthrough mode. */
  lemma ResetEndsTheDrain(p: Pulser)
    requires WellFormed(p)
    ensures var q := Step(p, Reset);
      && q.status == (if p.status == Stepping then Stepping else Passthrough)
      && q.queue == p.queue && q.playing == p.playing && q.callbacks == p.callbacks
      && (forall i :: 0 <= i < DMABUF_COUNT ==>
            q.next[i] == if p.status == Stepping then To((i + 1) % DMABUF_COUNT) else p.next[i])
  {
  }

  /** A callback that ends stepping cuts the ring at exactly the descriptor that is being filled, so that the drain
      that begins finds its end there; one that goes on stepping, or resets the output, cuts nothing. */
  lemma CallbackCutsItsDescriptor(p: Pulser, made: nat, left: Status)
    requires WellFormed(p) && p.status == Stepping && p.queue != [] && made > 0
    ensures var q := Step(p, Handle(made, left));
      && q.status == left && q.callbacks == p.callbacks + made && q.queue == p.queue[1..] && q.playing == p.playing
      && (forall i :: 0 <= i < DMABUF_COUNT ==>
            q.next[i] == if left == Waiting && i == p.queue[0] then Null else p.next[i])
  {
  }

  /** A completion reports the descriptor that was played, at the price of the oldest report if the queue is full, and
      the DMA goes on; at the end of the ring it is the drain that is over. */
  lemma CompletionReports(p: Pulser)
    requires WellFormed(p) && p.status != Passthrough
    ensures var q := Step(p, Completion);
      && q.next == p.next && q.callbacks == p.callbacks
      && if p.next[p.playing] == Null then q.status == Passthrough && q.queue == p.queue && q.playing == p.playing
         else
           && q.status == p.status && To(q.playing) == p.next[p.playing]
           && q.queue != [] && q.queue[|q.queue| - 1] == p.playing
           && q.queue[..|q.queue| - 1] == (if |p.queue| == DMABUF_COUNT then p.queue[1..] else p.queue)
  {
  }

  /** Stepping begins at the first descriptor of a whole ring; reports that are still queued stay. */
  lemma SteppingBeginsAfresh(p: Pulser)
    requires WellFormed(p) && p.status == Passthrough
    ensures var q := Step(p, SetStepping);
      && q.status == Stepping && q.playing == 0 && q.queue == p.queue && q.callbacks == p.callbacks
      && (forall i :: 0 <= i < DMABUF_COUNT ==> q.next[i] == To((i + 1) % DMABUF_COUNT))
      && Step(q, SetPassthrough) == q.(status := Waiting)
  {
  }

  predicate CanRun(p: Pulser, es: seq<Event>)
    requires WellFormed(p)
    decreases |es|
  {
    es == [] || (Enabled(p, es[0]) && (StepWellFormed(p, es[0]); CanRun(Step(p, es[0]), es[1..])))
  }

  function Run(p: Pulser, es: seq<Event>): (q: Pulser)
    requires WellFormed(p) && CanRun(p, es)
    ensures WellFormed(q)
    decreases |es|
  {
    if es == [] then p else (StepWellFormed(p, es[0]); Run(Step(p, es[0]), es[1..]))
  }

  // ---------------------------------------------------------------- draining

  /** Once stepping has ended, no callback is made until the next switch to stepping, and the drain can
      end in passthrough mode only. */
  lemma {:induction false} DrainIsSafe(p: Pulser, es: seq<Event>)
    requires WellFormed(p) && p.status != Stepping && CanRun(p, es)
    requires forall e :: e in es ==> e != SetStepping
    ensures var q := Run(p, es);
      && q.callbacks == p.callbacks && q.status != Stepping
      && (p.status == Passthrough ==> q.status == Passthrough)
    decreases |es|
  {
    if es != [] {
      assert es[0] in es && forall e :: e in es[1..] ==> e in es;
      StepWellFormed(p, es[0]);
      DrainIsSafe(Step(p, es[0]), es[1..]);
    }
  }

  /** Whatever is asked for, the step that ends a drain ends it in passthrough mode. */
  lemma WaitingEndsInPassthrough(p: Pulser, e: Event)
    requires WellFormed(p) && p.status == Waiting && Enabled(p, e) && Step(p, e).status != Waiting
    ensures Step(p, e).status == Passthrough && Step(p, e).callbacks == p.callbacks
  {
  }

  /** The descriptors that have not been cut off yet. */
  function Linked(next: seq<Link>): (n: nat)
    ensures n <= |next|
  {
    if next == [] then 0 else Linked(next[..|next| - 1]) + if next[|next| - 1] == Null then 0 else 1
  }

  lemma {:induction false} CutCounts(next: seq<Link>, d: nat)
    requires d < |next| && next[d] != Null
    ensures Linked(next[d := Null]) == Linked(next) - 1
  {
    var k := |next| - 1;
    if d < k {
      assert next[d := Null][..k] == next[..k][d := Null];
      CutCounts(next[..k], d);
    } else {
      assert next[d := Null][..k] == next[..k];
    }
  }

  function Handled(es: seq<Event>): nat {
    if es == [] then 0 else (if es[0].Handle? then 1 else 0) + Handled(es[1..])
  }

  /** Every handled completion of a drain cuts one more descriptor off, so at most six are handled before
      passthrough mode is reached, however completions and the task interleave. */
  lemma {:induction false} DrainIsBounded(p: Pulser, es: seq<Event>)
    requires WellFormed(p) && p.status == Waiting && CanRun(p, es)
    requires forall e :: e in es ==> e != SetStepping
    requires Handled(es) > Linked(p.next)
    ensures Run(p, es).status == Passthrough
    decreases |es|
  {
    assert es[0] in es && forall e :: e in es[1..] ==> e in es;
    StepWellFormed(p, es[0]);
    var q := Step(p, es[0]);
    if q.status == Passthrough {
      DrainIsSafe(q, es[1..]);
    } else {
      if es[0].Handle? {
        CutCounts(p.next, p.queue[0]);
      }
      DrainIsBounded(q, es[1..]);
    }
  }

  // ---------------------------------------------------------------- draining without delay

  /** One completion, handled before the next. A completion that ends the drain leaves nothing to handle. */
  function Turn(p: Pulser): (q: Pulser)
    requires WellFormed(p) && p.status == Waiting
    ensures WellFormed(q) && (q.status == Waiting || q.status == Passthrough)
  {
    StepWellFormed(p, Completion);
    var q := Step(p, Completion);
    if q.status == Passthrough then q
    else (StepWellFormed(q, Handle(0, Waiting)); Step(q, Handle(0, Waiting)))
  }

  /** The pulser after `n` completions, or after the one that ends the drain. */
  function Turns(p: Pulser, n: nat): (q: Pulser)
    requires WellFormed(p)
    ensures WellFormed(q)
    decreases n
  {
    if n == 0 || p.status != Waiting then p else Turns(Turn(p), n - 1)
  }

  lemma TurnCuts(p: Pulser)
    requires WellFormed(p) && p.status == Waiting && Turn(p).status == Waiting
    ensures Linked(Turn(p).next) + 1 == Linked(p.next)
  {
    var q := Step(p, Completion);
    assert q.next == p.next;
    CutCounts(p.next, q.queue[0]);
  }

  lemma {:induction false} TurnsCut(p: Pulser, n: nat)
    requires WellFormed(p) && p.status == Waiting && Turns(p, n).status == Waiting
    ensures Linked(Turns(p, n).next) + n == Linked(p.next)
    decreases n
  {
    if n > 0 {
      TurnCuts(p);
      TurnsCut(Turn(p), n - 1);
    }
  }

  lemma {:induction false} TurnsEnd(p: Pulser, n: nat)
    requires WellFormed(p) && p.status != Stepping
    ensures Turns(p, n).status == Waiting || Turns(p, n).status == Passthrough
    decreases n
  {
    if n > 0 && p.status == Waiting {
      TurnsEnd(Turn(p), n - 1);
    }
  }

  /** Every turn that does not end the drain cuts a descriptor, so one more turn than there are linked descriptors
      ends it: six always do. */
  lemma LinkedTurnsEndTheDrain(p: Pulser, n: nat)
    requires WellFormed(p) && p.status == Waiting && n > Linked(p.next)
    ensures Turns(p, n).status == Passthrough
  {
    TurnsEnd(p, n);
    if Turns(p, n).status == Waiting {
      TurnsCut(p, n);
    }
  }

  /** Links never lead anywhere but to the successor in the ring. */
  predicate Ringed(p: Pulser) {
    WellFormed(p) && forall i :: 0 <= i < DMABUF_COUNT ==> p.next[i] == Null || p.next[i] == RingLink(i)
  }

  lemma {:induction false} RunRinged(p: Pulser, es: seq<Event>)
    requires Ringed(p) && CanRun(p, es)
    ensures Ringed(Run(p, es))
    decreases |es|
  {
    if es != [] {
      StepWellFormed(p, es[0]);
      RunRinged(Step(p, es[0]), es[1..]);
    }
  }

  function Ahead(i: nat, k: nat): (j: nat)
    requires i < DMABUF_COUNT && k <= DMABUF_COUNT
    ensures j < DMABUF_COUNT
  {
    if i + k < DMABUF_COUNT then i + k else i + k - DMABUF_COUNT
  }

  /** A drain ends when the DMA comes to a descriptor that is cut. */
  lemma {:induction false} CutAhead(p: Pulser, j: nat, n: nat)
    requires Ringed(p) && p.status == Waiting && j < DMABUF_COUNT && p.next[Ahead(p.playing, j)] == Null && n > j
    ensures Turns(p, n).status == Passthrough
    decreases n
  {
    if p.next[p.playing] != Null {
      var q := Turn(p);
      if q.status == Waiting {
        CutAhead(q, j - 1, n - 1);
      }
    }
  }

  /** The completions of `k` turns from `start` on. */
  function Played(start: nat, k: nat): (s: seq<nat>)
    requires start < DMABUF_COUNT && k <= DMABUF_COUNT
    ensures |s| == k
  {
    seq(k, j requires 0 <= j < k => Ahead(start, j))
  }

  /** After `k` turns from a ring without cuts that had the completions `pending` pending: those turns cut the first `k`
      descriptors that were played. */
  predicate Following(p: Pulser, start: nat, k: nat, pending: seq<nat>) {
    && Ringed(p) && p.status == Waiting && start < DMABUF_COUNT && k < DMABUF_COUNT && |pending| < DMABUF_COUNT
    && (forall i :: 0 <= i < |pending| ==> pending[i] < DMABUF_COUNT)
    && p.playing == Ahead(start, k) && p.queue == (pending + Played(start, k))[k..]
    && forall j :: 0 <= j < DMABUF_COUNT ==> (p.next[Ahead(start, j)] == Null <==> j < k)
  }

  lemma PlayedMore(start: nat, k: nat, pending: seq<nat>)
    requires start < DMABUF_COUNT && k < DMABUF_COUNT
    ensures (pending + Played(start, k))[k..] + [Ahead(start, k)] == (pending + Played(start, k + 1))[k..]
    ensures (pending + Played(start, k + 1))[k..][1..] == (pending + Played(start, k + 1))[k + 1..]
  {
    assert Played(start, k + 1) == Played(start, k) + [Ahead(start, k)];
  }

  lemma Distance(start: nat, d: nat) returns (j: nat)
    requires start < DMABUF_COUNT && d < DMABUF_COUNT
    ensures j < DMABUF_COUNT && d == Ahead(start, j)
  {
    j := if start <= d then d - start else d + DMABUF_COUNT - start;
  }

  lemma FollowingTurn(p: Pulser, start: nat, k: nat, pending: seq<nat>)
    requires Following(p, start, k, pending)
    ensures var d := (pending + Played(start, k + 1))[k]; var q := Turn(p);
      && d < DMABUF_COUNT
      && if p.next[d] == Null then q.status == Passthrough
         else
           && q.status == Waiting && q.next == p.next[d := Null] && q.playing == Ahead(start, k + 1)
           && q.queue == (pending + Played(start, k + 1))[k + 1..]
  {
    PlayedMore(start, k, pending);
    assert p.next[Ahead(start, k)] == RingLink(Ahead(start, k));
  }

  /** The next turn follows, unless it handles something else than the next descriptor. */
  lemma FollowingOn(p: Pulser, start: nat, k: nat, pending: seq<nat>)
    requires Following(p, start, k, pending) && k + 1 < DMABUF_COUNT
    requires (pending + Played(start, k + 1))[k] == Ahead(start, k)
    ensures Following(Turn(p), start, k + 1, pending)
  {
    FollowingTurn(p, start, k, pending);
    RunRinged(p, []);
    var q := Turn(p);
    assert q.next == p.next[Ahead(start, k) := Null];
    forall j | 0 <= j < DMABUF_COUNT
      ensures q.next[Ahead(start, j)] == Null <==> j < k + 1
    {
      assert j != k ==> Ahead(start, j) != Ahead(start, k);
    }
  }

  /** A turn that cuts a descriptor ahead of the DMA ends the drain in time. */
  lemma CutsAhead(p: Pulser, start: nat, k: nat, pending: seq<nat>, j: nat)
    requires Following(p, start, k, pending) && k < j < DMABUF_COUNT
    requires (pending + Played(start, k + 1))[k] == Ahead(start, j)
    ensures Turns(Turn(p), DMABUF_COUNT - k - 1).status == Passthrough
  {
    FollowingTurn(p, start, k, pending);
    var q := Turn(p);
    if q.status == Waiting {
      assert Ahead(q.playing, j - k - 1) == Ahead(start, j);
      CutAhead(q, j - k - 1, DMABUF_COUNT - k - 1);
    }
  }

  /** What the handled completion can be. */
  lemma HandledNext(p: Pulser, start: nat, k: nat, pending: seq<nat>) returns (j: nat)
    requires Following(p, start, k, pending)
    ensures j < DMABUF_COUNT && (pending + Played(start, k + 1))[k] == Ahead(start, j)
    ensures pending == [] ==> j == k
    ensures k + 1 == DMABUF_COUNT && pending != [] ==> j < k
    ensures p.next[Ahead(start, j)] == Null <==> j < k
  {
    var all := pending + Played(start, k + 1);
    if k < |pending| {
      j := Distance(start, pending[k]);
    } else {
      j := k - |pending|;
      assert all[k] == Played(start, k + 1)[j];
    }
  }

  lemma {:induction false} FollowingEnds(p: Pulser, start: nat, k: nat, pending: seq<nat>)
    requires Following(p, start, k, pending)
    ensures Turns(p, DMABUF_COUNT - k).status == Passthrough <==> pending != []
    decreases DMABUF_COUNT - k
  {
    var q, n := Turn(p), DMABUF_COUNT - k;
    FollowingTurn(p, start, k, pending);
    assert Turns(p, n) == Turns(q, n - 1);
    var j := HandledNext(p, start, k, pending);
    if j > k {
      CutsAhead(p, start, k, pending, j);
    } else if j == k && k + 1 < DMABUF_COUNT {
      FollowingOn(p, start, k, pending);
      FollowingEnds(q, start, k + 1, pending);
    }
  }

  lemma {:induction false} FullyLinked(next: seq<Link>)
    ensures Linked(next) == |next| <==> forall i :: 0 <= i < |next| ==> next[i] != Null
  {
    if next != [] {
      FullyLinked(next[..|next| - 1]);
    }
  }

  /** A full queue loses its oldest completion at the next one. */
  lemma FullQueueTurn(p: Pulser)
    requires WellFormed(p) && p.status == Waiting && |p.queue| == DMABUF_COUNT
    ensures Turns(p, DMABUF_COUNT) == Turns(p.(queue := p.queue[1..]), DMABUF_COUNT) ||
            (Turns(p, DMABUF_COUNT).status == Turns(p.(queue := p.queue[1..]), DMABUF_COUNT).status == Passthrough)
  {
    var q := p.(queue := p.queue[1..]);
    if p.next[p.playing] != Null {
      assert Step(p, Completion) == Step(q, Completion);
    }
  }

  /** In every state that events can lead to: five completions, each handled before the next, end a drain if and
      only if a descriptor was already cut or a completion was still unhandled when it began. */
  lemma FiveTurnsIff(es: seq<Event>)
    requires WellFormed(Origin()) && CanRun(Origin(), es) && Run(Origin(), es).status == Waiting
    ensures var p := Run(Origin(), es);
      Turns(p, DMABUF_COUNT).status == Passthrough <==> Linked(p.next) < DMABUF_COUNT || p.queue != []
  {
    RunRinged(Origin(), es);
    var p := Run(Origin(), es);
    if Linked(p.next) < DMABUF_COUNT {
      LinkedTurnsEndTheDrain(p, DMABUF_COUNT);
    } else {
      FullyLinked(p.next);
      var q := if |p.queue| == DMABUF_COUNT then p.(queue := p.queue[1..]) else p;
      if |p.queue| == DMABUF_COUNT {
        FullQueueTurn(p);
      }
      assert (q.queue + Played(q.playing, 0))[0..] == q.queue;
      FollowingEnds(q, q.playing, 0, q.queue);
    }
  }

  /** The pulser when the output has been initialised. */
  function Origin(): Pulser {
    Pulser(Passthrough, Relinked(), 0, [], 0)
  }

  /** A pulser that is switched on and off again has cut nothing yet: it takes the sixth completion. */
  lemma SixthCompletionNeeded()
    ensures WellFormed(Origin())
    ensures var es := [SetStepping, SetPassthrough];
      && CanRun(Origin(), es)
      && var p := Run(Origin(), es);
         && p.status == Waiting && Turns(p, DMABUF_COUNT).status == Waiting
         && Turns(p, DMABUF_COUNT + 1).status == Passthrough
  {
    var es := [SetStepping, SetPassthrough];
    assert es[1..] == [SetPassthrough] && [SetPassthrough][1..] == [];
    var a := Step(Origin(), SetStepping);
    assert CanRun(a, [SetPassthrough]) && Run(a, [SetPassthrough]) == Step(a, SetPassthrough);
    var p := Run(Origin(), es);
    FullyLinked(p.next);
    FiveTurnsIff(es);
    TurnsEnd(p, DMABUF_COUNT);
    LinkedTurnsEndTheDrain(p, DMABUF_COUNT + 1);
  }

  // ---------------------------------------------------------------- the code

  class PulserTask {
    var status: Status
    const next: array<Link>
    var playing: nat
    var queue: seq<nat>
    var callbacks: nat

    ghost function State(): Pulser
      reads this, next
    {
      Pulser(status, next[..], playing, queue, callbacks)
    }

    ghost predicate Valid()
      reads this, next
    {
      WellFormed(State())
    }

    constructor ()
      ensures Valid() && fresh(next) && State() == Origin()
    {
      next := new Link[DMABUF_COUNT](i => RingLink(i));
      status, playing, queue, callbacks := Passthrough, 0, [], 0;
    }

    method ClearBuffers()
      requires Valid()
      modifies next
      ensures next[..] == Relinked()
    {
      for i := 0 to DMABUF_COUNT
        invariant forall k :: 0 <= k < i ==> next[k] == RingLink(k)
      {
        next[i] := To(if i < DMABUF_COUNT - 1 then i + 1 else 0);
      }
    }

    method StartMode(mode: Status)
      requires Valid()
      modifies this, next
      ensures Valid() && State() == Start(old(State()), mode)
    {
      if status == mode {
        return;
      }
      status := mode;
      if mode != Passthrough {
        ClearBuffers();
        playing := 0;
      }
    }

    method Interrupt()
      requires Valid() && status != Passthrough
      modifies this, next
      ensures Valid() && State() == Step(old(State()), Completion)
    {
      match next[playing]
      case Null => StartMode(Passthrough);
      case To(d) =>
        if |queue| == DMABUF_COUNT {
          queue := queue[1..];
        }
        queue := queue + [playing];
        playing := d;
    }

    method HandleEvent(made: nat, left: Status)
      requires Valid() && queue != []
      modifies this, next
      ensures Valid() && State() == Step(old(State()), Handle(made, left))
    {
      var d := queue[0];
      queue := queue[1..];
      if status == Stepping {
        callbacks := callbacks + made;
        if made > 0 {
          status := left;
          if left == Waiting {
            next[d] := Null;
          }
        }
      } else if status == Waiting {
        if next[d] == Null {
          StartMode(Passthrough);
        } else {
          next[d] := Null;
        }
      }
    }

    method RequestPassthrough()
      requires Valid()
      modifies `status
      ensures Valid() && State() == Step(old(State()), SetPassthrough)
    {
      if status == Stepping {
        status := Waiting;
      }
    }

    method RequestStepping()
      requires Valid() && status != Waiting
      modifies this, next
      ensures Valid() && State() == Step(old(State()), SetStepping)
    {
      if status != Stepping {
        StartMode(Stepping);
      }
    }

    method ResetOutput()
      requires Valid()
      modifies this, next
      ensures Valid() && State() == Step(old(State()), Reset)
    {
      if status == Stepping {
        ClearBuffers();
      }
      StartMode(if status == Waiting then Passthrough else status);
    }
  }
}
