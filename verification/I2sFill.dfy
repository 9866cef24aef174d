/** `i2s_fillout_dma_buffer` of main/i2s_out_s3.c with the stepping callback of main/driver.c. */
module I2sFill {
  import opened I2sStream

  const FILL_LIMIT: nat := DMA_SAMPLE_COUNT - SAMPLE_SAFE_COUNT

  /** Rounds a time up to whole samples, at least one and at most `limit`: the clamps of `settings_changed`. */
  function SampleCount(usec: nat, limit: nat): (n: nat)
    requires limit >= 1
    ensures 1 <= n <= limit
    ensures 0 < usec <= USEC_PER_SAMPLE * limit ==> USEC_PER_SAMPLE * (n - 1) < usec <= USEC_PER_SAMPLE * n
    ensures usec == 0 ==> n == 1
    ensures usec >= USEC_PER_SAMPLE * limit ==> n == limit
  {
    var length := if usec % USEC_PER_SAMPLE != 0 then usec + (USEC_PER_SAMPLE - usec % USEC_PER_SAMPLE) else usec;
    var low := if length > USEC_PER_SAMPLE then length else USEC_PER_SAMPLE;
    var high := if low < USEC_PER_SAMPLE * limit then low else USEC_PER_SAMPLE * limit;
    high / USEC_PER_SAMPLE
  }

  const CYCLES_LIMIT: nat := 0x40000
  const STEP_PULSE_TOFF_MIN: real := 2.0

  /** The period that `I2SStepperCyclesPerTick` asks for, in microseconds; `tMin` and `tMax` are the two bounds
      that `settings_changed` computes. */
  function PulsePeriod(cycles: nat, tMin: nat, tMax: nat): nat
    requires tMax > 0
  {
    (if cycles < CYCLES_LIMIT then (if cycles < tMin then tMin else cycles) else CYCLES_LIMIT - 1) / tMax
  }

  /** The whole microseconds of the requested cycles, which are raised to the shortest period that fits a pulse and
      cut off at eighteen bits. */
  lemma PeriodOfCycles(cycles: nat, tMin: nat, tMax: nat)
    requires tMax > 0
    ensures var n := PulsePeriod(cycles, tMin, tMax);
      && (cycles >= CYCLES_LIMIT ==> n * tMax < CYCLES_LIMIT <= n * tMax + tMax)
      && (tMin <= cycles < CYCLES_LIMIT ==> n * tMax <= cycles < n * tMax + tMax)
      && (cycles < CYCLES_LIMIT && cycles <= tMin ==> n * tMax <= tMin < n * tMax + tMax)
  {
    var n := PulsePeriod(cycles, tMin, tMax);
    if cycles >= CYCLES_LIMIT {
      Division(CYCLES_LIMIT - 1, tMax);
    } else {
      Division(if cycles < tMin then tMin else cycles, tMax);
    }
  }

  lemma Division(n: nat, d: nat)
    requires d > 0
    ensures n / d * d <= n < n / d * d + d
  {
    assert n == n / d * d + n % d;
  }

  function Ceil(x: real): int {
    -(-x).Floor
  }

  /** Every requested speed asks for some time exactly if the shortest period is at least a microsecond. */
  lemma EverySpeedTakesTime(tMin: nat, tMax: nat)
    requires 0 < tMax < CYCLES_LIMIT
    ensures (forall cycles: nat :: PulsePeriod(cycles, tMin, tMax) >= 1) <==> tMin >= tMax
  {
    forall cycles: nat
      ensures tMin >= tMax ==> PulsePeriod(cycles, tMin, tMax) >= 1
    {
      Quotient(if cycles < CYCLES_LIMIT then (if cycles < tMin then tMin else cycles) else CYCLES_LIMIT - 1, tMax);
    }
    if tMin < tMax {
      Quotient(tMin, tMax);
      assert PulsePeriod(0, tMin, tMax) == 0;
    }
  }

  lemma Quotient(n: nat, d: nat)
    requires d > 0
    ensures n / d >= 1 <==> n >= d
  {
    assert n == n / d * d + n % d;
  }

  function TMin(ticks: real, pulse: real): int {
    Ceil(ticks * (pulse + STEP_PULSE_TOFF_MIN))
  }

  /** The shortest period is the pulse and its pause in whole cycles, rounded up. */
  lemma TMinIs(ticks: real, pulse: real)
    ensures TMin(ticks, pulse) as real - 1.0 < ticks * (pulse + STEP_PULSE_TOFF_MIN) <= TMin(ticks, pulse) as real
  {
  }

  /** So every requested period is more than a microsecond longer than the pulse, as long as the shortest one is below
      the limit of eighteen bits. */
  lemma PeriodExceedsThePulse(cycles: nat, ticks: real, pulse: real)
    requires ticks >= 1.0 && pulse >= 0.0 && 0 <= TMin(ticks, pulse) < CYCLES_LIMIT
    ensures PulsePeriod(cycles, TMin(ticks, pulse), ticks.Floor) as real > pulse + 1.0
  {
    var tMin, tMax := TMin(ticks, pulse), ticks.Floor;
    var n := PulsePeriod(cycles, tMin, tMax);
    PeriodOfCycles(cycles, tMin, tMax);
    TMinIs(ticks, pulse);
    assert n * tMax + tMax > tMin;
    assert (n * tMax + tMax) as real == (n as real + 1.0) * tMax as real;
    if n as real + 1.0 <= pulse + STEP_PULSE_TOFF_MIN {
      Smaller(n as real + 1.0, pulse + STEP_PULSE_TOFF_MIN, tMax as real, ticks);
    }
  }

  lemma Smaller(a: real, b: real, c: real, d: real)
    requires a <= b && 0.0 <= c <= d && 0.0 <= b
    ensures a * c <= d * b
  {
    assert (b - a) * c >= 0.0 && b * (d - c) >= 0.0;
  }

  /** The period was set by `I2SStepperCyclesPerTick` for some speed. */
  ghost predicate Requested(period: nat, ticks: real, pulse: real)
    requires ticks >= 1.0 && pulse >= 0.0
  {
    TMin(ticks, pulse) >= 0 && exists cycles: nat :: period == PulsePeriod(cycles, TMin(ticks, pulse), ticks.Floor)
  }

  /** And it is, for every timer of `ticks` cycles per microsecond and every pulse length: whatever the settings and
      the speeds are, no callback can make the generator stand still, so that `FillBuffer` ends every buffer. */
  lemma SettingsAreLive(s: Source, ticks: real, pulse: real)
    requires ticks >= 1.0 && pulse >= 0.0 && ticks.Floor < CYCLES_LIMIT
    requires forall n :: Requested(s.script(n).period, ticks, pulse)
    ensures TMin(ticks, pulse) >= ticks.Floor && Live(s)
  {
    assert ticks * (pulse + STEP_PULSE_TOFF_MIN) >= ticks;
    EverySpeedTakesTime(TMin(ticks, pulse), ticks.Floor);
    forall n
      ensures LiveTick(s.script(n))
    {
      var period := s.script(n).period;
      assert Requested(period, ticks, pulse);
      var cycles: nat :| period == PulsePeriod(cycles, TMin(ticks, pulse), ticks.Floor);
    }
  }

  /** The fields of `i2s_sr` and of driver.c that take part, and the history of finished buffers. */
  class Generator {
    const source: Source
    const buffer: array<Port>
    var rwPos: nat
    var remain: nat
    var period: nat
    var status: Status
    var port: Port
    var calls: nat
    /** All samples of finished buffers, and at which sample each callback was made. */
    ghost var sent: seq<Port>
    ghost var starts: seq<nat>

    ghost predicate Shape()
      reads this
    {
      buffer.Length == DMA_SAMPLE_COUNT && rwPos <= DMA_SAMPLE_COUNT && 1 <= source.delay <= 2 && 1 <= source.width <= 4
    }

    /** The unbuffered generator this is an implementation of. */
    ghost function Abstract(): Gen
      requires Shape()
      reads this, buffer
    {
      Gen(sent + buffer[..rwPos], port, remain, status, calls, starts)
    }

    ghost function Sent(): Gen
      reads this
    {
      Gen(sent, port, remain, status, calls, starts)
    }

    ghost predicate Valid()
      reads this
    {
      Shape() && (status == Stepping ==> InStep(source, Sent()))
    }

    constructor (script: nat -> Tick, delayUsec: nat, stepUsec: nat, p: Port, r: nat)
      ensures Valid() && status == Stepping && calls == 0 && sent == []
      ensures source == Source(script, SampleCount(delayUsec, 2), SampleCount(stepUsec, 4), p, r)
      ensures fresh(buffer)
    {
      source := Source(script, SampleCount(delayUsec, 2), SampleCount(stepUsec, 4), p, r);
      buffer := new Port[DMA_SAMPLE_COUNT](_ => p);
      rwPos, remain, period, status, port, calls := 0, r, USEC_PER_SAMPLE, Stepping, p, 0;
      sent, starts := [], [];
    }

    /** `i2s_out_push_sample`, which pushes one sample when asked for none. */
    method PushSample(num: nat) returns (pushed: nat)
      requires buffer.Length == DMA_SAMPLE_COUNT && rwPos + PushCount(num) <= DMA_SAMPLE_COUNT
      modifies `rwPos, buffer
      ensures rwPos == old(rwPos) + PushCount(num)
      ensures buffer[..rwPos] == old(buffer[..rwPos]) + Repeat(port, PushCount(num))
      ensures pushed == if num > SAMPLE_SAFE_COUNT then 0 else num
    {
      assert buffer[..rwPos] + Repeat(port, 0) == buffer[..rwPos];
      if num > SAMPLE_SAFE_COUNT {
        return 0;
      }
      var n: nat := if num == 0 then 1 else num;
      ghost var done := 0;
      while n > 0
        invariant done + n == PushCount(num) && rwPos == old(rwPos) + done <= DMA_SAMPLE_COUNT
        invariant buffer[..rwPos] == old(buffer[..rwPos]) + Repeat(port, done)
      {
        buffer[rwPos] := port;
        assert buffer[..rwPos + 1] == buffer[..rwPos] + [port];
        RepeatMore(port, done);
        rwPos, n, done := rwPos + 1, n - 1, done + 1;
      }
      pushed := num;
    }

    /** `I2SStepperPulseStart`: at most 2 + 4 samples, so from below the limit nothing is written behind the buffer. */
    method PulseStart(t: Tick)
      requires Shape() && rwPos < FILL_LIMIT
      modifies `rwPos, `port, buffer
      ensures Shape()
      ensures port == AfterPulse(old(port), t)
      ensures rwPos == old(rwPos) + |Pulse(old(port), t, source.delay, source.width)|
      ensures buffer[..rwPos] == old(buffer[..rwPos]) + Pulse(old(port), t, source.delay, source.width)
    {
      if t.dirChanged {
        port := port.(dir := t.dir);
        if t.step != 0 {
          var _ := PushSample(source.delay);
        }
      }
      if t.step != 0 {
        port := port.(step := t.step);
        var _ := PushSample(source.width);
        port := port.(step := 0);
      }
    }

    /** The branch of the fill loop that makes a callback. */
    method CallbackTurn()
      requires Shape() && rwPos < FILL_LIMIT
      modifies this, buffer
      ensures Shape() && sent == old(sent)
      ensures Abstract() == CallTurn(source, old(Abstract()))
      ensures rwPos >= old(rwPos) && (rwPos == old(rwPos) ==> source.script(old(calls)).step == 0)
    {
      var t := source.script(calls);
      ghost var before := buffer[..rwPos];
      starts := starts + [|sent| + rwPos];
      var oldPos := rwPos;
      PulseStart(t);
      assert sent + (before + Pulse(old(port), t, source.delay, source.width))
          == (sent + before) + Pulse(old(port), t, source.delay, source.width);
      period, status, calls := t.period, t.status, calls + 1;
      var own := USEC_PER_SAMPLE * (rwPos - oldPos);
      if period >= own {
        remain := remain + (period - own);
      } else {
        remain := remain + USEC_PER_SAMPLE;
      }
    }

    /** The branch of the fill loop that holds the port. */
    method HoldSample()
      requires Shape() && rwPos < FILL_LIMIT
      modifies this, buffer
      ensures Shape() && sent == old(sent) && rwPos == old(rwPos) + 1
      ensures Abstract() == HoldTurn(old(Abstract()))
    {
      ghost var before := buffer[..rwPos];
      buffer[rwPos] := port;
      assert buffer[..rwPos + 1] == before + [port];
      assert sent + (before + [port]) == (sent + before) + [port];
      rwPos := rwPos + 1;
      if remain >= USEC_PER_SAMPLE {
        remain := remain - USEC_PER_SAMPLE;
      } else {
        remain := 0;
      }
    }

    /** One turn of the loop of `i2s_fillout_dma_buffer` */
    method FillTurn()
      requires Shape() && rwPos < FILL_LIMIT && Good(source, Abstract())
      modifies this, buffer
      ensures Shape() && sent == old(sent)
      ensures Abstract() == Turn(source, old(Abstract())) && Good(source, Abstract())
      ensures rwPos >= old(rwPos) && (rwPos == old(rwPos) ==> old(status) == Stepping && LastTickWasEmpty(old(calls)))
    {
      TurnIsGood(source, Abstract());
      if remain < USEC_PER_SAMPLE && status == Stepping {
        CallbackTurn();
      } else {
        HoldSample();
      }
    }

    ghost predicate LastTickWasEmpty(n: nat)
      reads this
    {
      calls == n + 1 && source.script(n).step == 0
    }

    /** `i2s_fillout_dma_buffer` */
    method FillBuffer()
      requires Valid() && status == Stepping && Live(source)
      modifies this, buffer
      ensures Shape() && sent == old(sent)
      ensures status != Passthrough ==> rwPos >= FILL_LIMIT && Good(source, Abstract())
      ensures status == Passthrough ==> remain == 0 && rwPos == DMA_SAMPLE_COUNT
    {
      rwPos := 0;
      assert sent + buffer[..rwPos] == sent;
      while rwPos < FILL_LIMIT
        invariant Shape() && sent == old(sent) && status != Passthrough
        invariant Good(source, Abstract())
        decreases FILL_LIMIT - rwPos, status == Stepping,
          if remain < USEC_PER_SAMPLE then USEC_PER_SAMPLE - remain else 0
      {
        assert LiveTick(source.script(calls));
        FillTurn();
        if status == Passthrough {
          remain, rwPos := 0, DMA_SAMPLE_COUNT;
          break;
        }
      }
    }

    /** `i2s_step_gen` without the descriptor links: a buffer is generated, and callbacks are made, only
        while stepping; then the finished buffers continue the stream. */
    method StepGen()
      requires Valid() && Live(source)
      modifies this, buffer
      ensures Valid()
      ensures old(status) != Stepping ==>
        status == old(status) && calls == old(calls) && sent == old(sent) && rwPos == 0
      ensures old(status) == Stepping && status != Passthrough ==>
        old(sent) <= sent && |sent| >= |old(sent)| + FILL_LIMIT && Good(source, Sent())
    {
      if status == Stepping {
        FillBuffer();
        if status != Passthrough {
          sent := sent + buffer[..rwPos];
        }
      } else {
        rwPos := 0;
      }
    }
  }

  /** Buffering is invisible: at any time while stepping, the buffers handed to the DMA, put end to end,
      are an initial piece of the unbuffered stream, and callback i was made at sample floor(Time(i) / 4). */
  lemma BuffersContinueTheStream(s: Source, g: Gen)
    requires InStep(s, g)
    ensures g.out <= Stream(s, g.calls)
    ensures |g.out| == (Time(s, g.calls) - g.remain) / USEC_PER_SAMPLE
    ensures forall i :: 0 <= i < g.calls ==> g.starts[i] == |Stream(s, i)| && Stream(s, i) <= Stream(s, g.calls)
  {
    forall i | 0 <= i < g.calls
      ensures g.starts[i] == |Stream(s, i)| && Stream(s, i) <= Stream(s, g.calls)
    {
      NoDrift(s, i);
      StreamGrows(s, i, g.calls);
    }
  }
}
