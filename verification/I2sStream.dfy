/** The sample stream of the I2S step generator, without buffers: the reference that the buffer filling
    of main/i2s_out_s3.c is proved against. */
module I2sStream {

  const USEC_PER_SAMPLE: nat := 4
  const DMA_SAMPLE_COUNT: nat := 500
  const SAMPLE_SAFE_COUNT: nat := 5

  /** The expanded output port: the step bits and all other bits. */
  datatype Port = Port(step: nat, dir: nat)

  datatype Status = Passthrough | Stepping | Waiting

  /** What one pulse callback does: an optional direction change, an optional step, the pulse period it
      leaves behind and the pulser status it leaves behind. */
  datatype Tick = Tick(dirChanged: bool, dir: nat, step: nat, period: nat, status: Status)

  /** All that the stream depends on: the callbacks in order, the two sample counts of the settings, the
      port and the remaining time (in microseconds) when the pulser starts. */
  datatype Source = Source(script: nat -> Tick, delay: nat, width: nat, port: Port, remain: nat)

  function Repeat(p: Port, n: nat): (r: seq<Port>)
    ensures |r| == n
  {
    seq(n, _ => p)
  }

  /** How many samples `i2s_out_push_sample` really pushes. */
  function PushCount(num: nat): nat {
    if num > SAMPLE_SAFE_COUNT then 0 else if num == 0 then 1 else num
  }

  function Directed(p: Port, t: Tick): Port {
    if t.dirChanged then p.(dir := t.dir) else p
  }

  /** The samples a callback pushes itself: `I2SStepperPulseStart`. */
  function Pulse(p: Port, t: Tick, delay: nat, width: nat): seq<Port> {
    if t.step == 0 then []
    else
      (if t.dirChanged then Repeat(Directed(p, t), PushCount(delay)) else [])
      + Repeat(Directed(p, t).(step := t.step), PushCount(width))
  }

  function AfterPulse(p: Port, t: Tick): Port {
    if t.step == 0 then Directed(p, t) else Directed(p, t).(step := 0)
  }

  function PortAt(s: Source, n: nat): Port {
    if n == 0 then s.port else AfterPulse(PortAt(s, n - 1), s.script(n - 1))
  }

  function PulseAt(s: Source, n: nat): seq<Port> {
    Pulse(PortAt(s, n), s.script(n), s.delay, s.width)
  }

  /** The period that call `n` really gets: a period shorter than its own pulse is stretched. */
  function Effective(s: Source, n: nat): nat {
    var own := USEC_PER_SAMPLE * |PulseAt(s, n)|;
    if s.script(n).period >= own then s.script(n).period else own + USEC_PER_SAMPLE
  }

  /** The exact time of call `n`. */
  function Time(s: Source, n: nat): nat {
    if n == 0 then s.remain else Time(s, n - 1) + Effective(s, n - 1)
  }

  lemma GapFits(t: nat, e: nat, k: nat)
    requires e >= USEC_PER_SAMPLE * k
    ensures (t + e) / USEC_PER_SAMPLE >= t / USEC_PER_SAMPLE + k
  {
  }

  /** Samples between the pulse of call `n` and call `n + 1`. */
  function Pause(s: Source, n: nat): nat {
    GapFits(Time(s, n), Effective(s, n), |PulseAt(s, n)|);
    Time(s, n + 1) / USEC_PER_SAMPLE - Time(s, n) / USEC_PER_SAMPLE - |PulseAt(s, n)|
  }

  /** Everything that leaves the generator before call `n`: every pulse at its time, rounded down to a
      sample, and the port held in between. */
  function Stream(s: Source, n: nat): seq<Port> {
    if n == 0 then Repeat(s.port, s.remain / USEC_PER_SAMPLE)
    else Stream(s, n - 1) + PulseAt(s, n - 1) + Repeat(PortAt(s, n), Pause(s, n - 1))
  }

  // (PortAt never shows a step bit between callbacks if it does not start with one)
  lemma {:induction false} NoStepBetween(s: Source, n: nat)
    requires s.port.step == 0
    ensures PortAt(s, n).step == 0
  {
    if n > 0 {
      NoStepBetween(s, n - 1);
    }
  }

  /** Call `n` starts at sample floor(Time(n) / 4): rounding never accumulates. */
  lemma {:induction false} NoDrift(s: Source, n: nat)
    ensures |Stream(s, n)| == Time(s, n) / USEC_PER_SAMPLE
  {
    if n > 0 {
      NoDrift(s, n - 1);
    }
  }

  lemma {:induction false} StreamGrows(s: Source, n: nat, m: nat)
    requires n <= m
    ensures Stream(s, n) <= Stream(s, m)
  {
    if n < m {
      StreamGrows(s, n, m - 1);
    }
  }

  lemma RepeatMore(p: Port, n: nat)
    ensures Repeat(p, n) + [p] == Repeat(p, n + 1) == [p] + Repeat(p, n)
  {
  }

  lemma OneSampleLess(remain: nat)
    requires remain >= USEC_PER_SAMPLE
    ensures remain / USEC_PER_SAMPLE == 1 + (remain - USEC_PER_SAMPLE) / USEC_PER_SAMPLE
  {
  }

  // ---------------------------------------------------------------- what the stream shows

  /** Before every step the settings ask for one or two delay samples, and for one to four samples of the step. */
  ghost predicate Configured(s: Source) {
    s.port.step == 0 && 1 <= s.delay <= 2 && 1 <= s.width <= 4
  }

  /** The samples between call `n` and its step: the direction changes first. */
  function Lead(s: Source, n: nat): nat {
    if s.script(n).dirChanged then s.delay else 0
  }

  /** The direction after call `n`. */
  function DirAfter(s: Source, n: nat): nat {
    if s.script(n).dirChanged then s.script(n).dir else if n == 0 then s.port.dir else DirAfter(s, n - 1)
  }

  lemma {:induction false} DirIsTheLastChange(s: Source, i: nat, n: nat)
    requires i <= n && s.script(i).dirChanged && forall j :: i < j <= n ==> !s.script(j).dirChanged
    ensures DirAfter(s, n) == s.script(i).dir
  {
    if i < n {
      DirIsTheLastChange(s, i, n - 1);
    }
  }

  lemma {:induction false} PortBetween(s: Source, n: nat)
    requires Configured(s)
    ensures PortAt(s, n + 1) == Port(0, DirAfter(s, n))
  {
    if n > 0 {
      PortBetween(s, n - 1);
    }
  }

  lemma DirectedIs(s: Source, n: nat)
    requires Configured(s)
    ensures Directed(PortAt(s, n), s.script(n)) == Port(0, DirAfter(s, n))
  {
    NoStepBetween(s, n);
    if n > 0 {
      PortBetween(s, n - 1);
    }
  }

  /** A callback shows its direction alone, then its step, and nothing if it has no step to show. */
  lemma PulseShows(s: Source, n: nat)
    requires Configured(s)
    ensures var p := PulseAt(s, n);
      && |p| == (if s.script(n).step == 0 then 0 else Lead(s, n) + s.width)
      && forall k :: 0 <= k < |p| ==> p[k] == Port(if k < Lead(s, n) then 0 else s.script(n).step, DirAfter(s, n))
  {
    DirectedIs(s, n);
  }

  /** The sample at which call `n` is made. */
  function At(s: Source, n: nat): nat {
    Time(s, n) / USEC_PER_SAMPLE
  }

  /** The next call comes its period later, or a sample behind its pulse if that is longer; either way all of the
      pulse fits in between. */
  lemma NextCall(s: Source, n: nat)
    requires Configured(s)
    ensures var t := s.script(n);
      var own := if t.step == 0 then 0 else USEC_PER_SAMPLE * (Lead(s, n) + s.width);
      && Time(s, n + 1) == Time(s, n) + (if t.period >= own then t.period else own + USEC_PER_SAMPLE)
      && (t.step != 0 ==> At(s, n) + Lead(s, n) + s.width <= At(s, n + 1))
  {
    PulseShows(s, n);
    GapFits(Time(s, n), Effective(s, n), |PulseAt(s, n)|);
  }

  lemma SampleBehind(s: Source, n: nat, k: nat)
    requires |Stream(s, n)| + k < |Stream(s, n + 1)|
    ensures Stream(s, n + 1)[|Stream(s, n)| + k] == if k < |PulseAt(s, n)| then PulseAt(s, n)[k] else PortAt(s, n + 1)
  {
    var before, pulse, pause := Stream(s, n), PulseAt(s, n), Repeat(PortAt(s, n + 1), Pause(s, n));
    assert Stream(s, n + 1) == before + pulse + pause;
  }

  lemma SampleOfCall(s: Source, n: nat, k: nat)
    requires Configured(s) && |Stream(s, n)| + k < |Stream(s, n + 1)|
    ensures Stream(s, n + 1)[|Stream(s, n)| + k]
         == Port(if Lead(s, n) <= k < Lead(s, n) + s.width then s.script(n).step else 0, DirAfter(s, n))
  {
    SampleBehind(s, n, k);
    PulseShows(s, n);
    PortBetween(s, n);
  }

  /** The port `k` samples behind call `n`. */
  function Shown(s: Source, n: nat, k: nat): Port {
    Port(if Lead(s, n) <= k < Lead(s, n) + s.width then s.script(n).step else 0, DirAfter(s, n))
  }

  lemma SampleAt(s: Source, n: nat, k: nat)
    requires Configured(s) && At(s, n) + k < At(s, n + 1)
    ensures |Stream(s, n + 1)| == At(s, n + 1) && Stream(s, n + 1)[At(s, n) + k] == Shown(s, n, k)
  {
    NoDrift(s, n);
    NoDrift(s, n + 1);
    SampleOfCall(s, n, k);
  }

  /** What the stream shows behind call `n`, up to the next call. */
  lemma EverySample(s: Source, n: nat, m: nat, k: nat)
    requires Configured(s) && n < m && At(s, n) + k < At(s, n + 1)
    ensures At(s, n) + k < |Stream(s, m)| && Stream(s, m)[At(s, n) + k] == Shown(s, n, k)
  {
    SampleAt(s, n, k);
    StreamGrows(s, n + 1, m);
  }

  lemma FirstSamples(s: Source, m: nat, i: nat)
    requires i < s.remain / USEC_PER_SAMPLE
    ensures i < |Stream(s, m)| && Stream(s, m)[i] == s.port
  {
    StreamGrows(s, 0, m);
  }

  /** Sample `i` lies in the step of call `n`. */
  ghost predicate InStepOf(s: Source, n: nat, i: nat) {
    var first := At(s, n) + Lead(s, n);
    s.script(n).step != 0 && first <= i < first + s.width
  }

  /** All of the step of a call is shown, from exactly its time on. */
  lemma StepIsShown(s: Source, n: nat, m: nat, i: nat)
    requires Configured(s) && n < m && InStepOf(s, n, i)
    ensures i < |Stream(s, m)| && Stream(s, m)[i] == Port(s.script(n).step, DirAfter(s, n))
  {
    var k := i - At(s, n);
    NextCall(s, n);
    EverySample(s, n, m, k);
  }

  /** The last call at or before sample `i`. */
  lemma {:induction false} CallBefore(s: Source, m: nat, i: nat) returns (n: nat)
    requires s.remain / USEC_PER_SAMPLE <= i < At(s, m)
    ensures n < m && At(s, n) <= i < At(s, n + 1)
  {
    if i < At(s, m - 1) {
      n := CallBefore(s, m - 1, i);
    } else {
      n := m - 1;
    }
  }

  /** And the step outputs are never on outside: a sample has a step bit exactly inside the step of some call. */
  lemma StepBitsIff(s: Source, m: nat, i: nat)
    requires Configured(s) && i < |Stream(s, m)|
    ensures Stream(s, m)[i].step != 0 <==> exists n :: 0 <= n < m && InStepOf(s, n, i)
  {
    forall n: nat | n < m && InStepOf(s, n, i)
      ensures Stream(s, m)[i].step != 0
    {
      StepIsShown(s, n, m, i);
    }
    NoDrift(s, m);
    if i < s.remain / USEC_PER_SAMPLE {
      FirstSamples(s, m, i);
    } else {
      var n := CallBefore(s, m, i);
      EverySample(s, n, m, i - At(s, n));
      assert Stream(s, m)[i].step != 0 ==> InStepOf(s, n, i);
    }
  }

  // ---------------------------------------------------------------- the generator without buffers

  /** The generator's state, with everything it has put out. */
  datatype Gen = Gen(out: seq<Port>, port: Port, remain: nat, status: Status, calls: nat, starts: seq<nat>)

  /** A callback is due: its samples go out and its period counts. */
  function CallTurn(s: Source, g: Gen): Gen {
    var t, pulse := s.script(g.calls), Pulse(g.port, s.script(g.calls), s.delay, s.width);
    var own := USEC_PER_SAMPLE * |pulse|;
    Gen(g.out + pulse, AfterPulse(g.port, t),
        g.remain + if t.period >= own then t.period - own else USEC_PER_SAMPLE,
        t.status, g.calls + 1, g.starts + [|g.out|])
  }

  /** Nothing is due: the port is held for a sample. */
  function HoldTurn(g: Gen): Gen {
    g.(out := g.out + [g.port], remain := if g.remain >= USEC_PER_SAMPLE then g.remain - USEC_PER_SAMPLE else 0)
  }

  function Turn(s: Source, g: Gen): Gen {
    if g.remain < USEC_PER_SAMPLE && g.status == Stepping then CallTurn(s, g) else HoldTurn(g)
  }

  /** What has been produced, with the samples still due, is the stream so far, and every call was made
      at its time. */
  ghost predicate InStep(s: Source, g: Gen) {
    && g.port == PortAt(s, g.calls)
    && g.out + Repeat(g.port, g.remain / USEC_PER_SAMPLE) == Stream(s, g.calls)
    && USEC_PER_SAMPLE * |g.out| + g.remain == Time(s, g.calls)
    && |g.starts| == g.calls
    && forall i :: 0 <= i < g.calls ==> g.starts[i] == Time(s, i) / USEC_PER_SAMPLE
  }

  /** After the callback that ended stepping the port is held behind its pulse. */
  ghost predicate Holding(s: Source, g: Gen) {
    && g.calls > 0 && g.port == PortAt(s, g.calls)
    && var pulses := Stream(s, g.calls - 1) + PulseAt(s, g.calls - 1);
       |pulses| <= |g.out| && g.out == pulses + Repeat(g.port, |g.out| - |pulses|)
  }

  ghost predicate Good(s: Source, g: Gen) {
    if g.status == Stepping then InStep(s, g) else Holding(s, g)
  }

  lemma CallAdvancesTime(s: Source, g: Gen)
    requires InStep(s, g) && g.remain < USEC_PER_SAMPLE
    ensures var h := CallTurn(s, g);
      && USEC_PER_SAMPLE * |h.out| + h.remain == Time(s, h.calls)
      && |g.out| == Time(s, g.calls) / USEC_PER_SAMPLE
      && h.remain / USEC_PER_SAMPLE == Pause(s, g.calls)
  {
  }

  lemma CallIsGood(s: Source, g: Gen)
    requires InStep(s, g) && g.remain < USEC_PER_SAMPLE
    ensures Good(s, CallTurn(s, g))
  {
    var h := CallTurn(s, g);
    CallAdvancesTime(s, g);
    assert g.out + Repeat(g.port, 0) == g.out;
    assert h.out == Stream(s, g.calls) + PulseAt(s, g.calls);
    assert h.out + Repeat(h.port, 0) == h.out;
  }

  lemma HoldInStep(s: Source, g: Gen)
    requires InStep(s, g) && g.remain >= USEC_PER_SAMPLE
    ensures InStep(s, HoldTurn(g))
  {
    OneSampleLess(g.remain);
    var r := (g.remain - USEC_PER_SAMPLE) / USEC_PER_SAMPLE;
    RepeatMore(g.port, r);
    assert (g.out + [g.port]) + Repeat(g.port, r) == g.out + ([g.port] + Repeat(g.port, r));
  }

  lemma HoldHolding(s: Source, g: Gen)
    requires Holding(s, g)
    ensures Holding(s, HoldTurn(g))
  {
    var pulses := Stream(s, g.calls - 1) + PulseAt(s, g.calls - 1);
    RepeatMore(g.port, |g.out| - |pulses|);
  }

  lemma TurnIsGood(s: Source, g: Gen)
    requires Good(s, g)
    ensures Good(s, Turn(s, g))
  {
    if g.status != Stepping {
      HoldHolding(s, g);
    } else if g.remain < USEC_PER_SAMPLE {
      CallIsGood(s, g);
    } else {
      HoldInStep(s, g);
    }
  }

  /** The generator ends every buffer unless some callback neither pushes a sample nor asks for any time. */
  ghost predicate Live(s: Source) {
    forall n :: LiveTick(s.script(n))
  }

  predicate LiveTick(t: Tick) {
    t.period >= 1 || t.step != 0 || t.status != Stepping
  }

  /** Such a callback really is a standstill: the generator is where it was, but for the call itself. */
  lemma DeadTickStandsStill(s: Source, g: Gen)
    requires g.status == Stepping && g.remain < USEC_PER_SAMPLE && g.port.step == 0
    requires 1 <= s.width <= 4
    ensures var h := Turn(s, g);
      !LiveTick(s.script(g.calls)) <==> h.status == Stepping && h.remain == g.remain && h.out == g.out
  {
    var t := s.script(g.calls);
    if t.step != 0 {
      assert |Turn(s, g).out| > |g.out|;
    }
  }
}
