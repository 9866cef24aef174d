/** The second half of main.go: per-axis shaping, chronological sort, merge of simultaneous steps and
    packing into wait commands. Floating point is modelled over the reals. */
module ShaperMerge {

  const MAX_UINT32: nat := 0xffff_ffff

  const X_SHAPER_FREQ: real := 35.0
  const Y_SHAPER_FREQ: real := 22.0
  const CLOCK_SPEED: real := 16000000.0
  const A1: real := 0.52
  const A2: real := 0.48

  /** The pin mask of a timed step: 0x01 or 0x02. */
  datatype Axis = X | Y

  datatype TimedStep = TimedStep(tick: nat, axis: Axis)

  /** The direction bits, 0x04 and 0x08. */
  datatype Directions = Directions(x: bool, y: bool)

  /** `StepPins` by its bit fields, and `WaitTicks`. */
  datatype Command = Command(x: bool, y: bool, dir: Directions, wait: nat)

  // ---------------------------------------------------------------- channels and shaping

  function Channel(steps: seq<TimedStep>, axis: Axis): seq<TimedStep> {
    if steps == [] then []
    else
      var last := steps[|steps| - 1];
      Channel(steps[..|steps| - 1], axis) + if last.axis == axis then [last] else []
  }

  lemma ChannelStep(steps: seq<TimedStep>, t: TimedStep, axis: Axis)
    ensures Channel(steps + [t], axis) == Channel(steps, axis) + if t.axis == axis then [t] else []
  {
    assert (steps + [t])[..|steps|] == steps;
  }

  function Delay(axis: Axis): nat {
    (1.0 / (2.0 * (if axis == X then X_SHAPER_FREQ else Y_SHAPER_FREQ)) * CLOCK_SPEED).Floor
  }

  /** Where a channel of `count` steps passes from the first to the second wavefront. */
  function Switch(count: nat): nat {
    (count as real * A1).Floor
  }

  /** Both wavefronts: the first 52 percent of a channel are scaled, the rest scaled and shifted. */
  function ShapedTick(i: nat, count: nat, tick: nat, delay: nat): nat {
    if i < Switch(count) then (tick as real / A1).Floor else (tick as real / A2).Floor + delay
  }

  /** The delays are half a period of 35 and of 22 Hz. */
  lemma DelaysAre()
    ensures Delay(X) == 228571 && Delay(Y) == 363636
  {
  }

  /** The steps of the first wavefront come at their time over 0.52, the others at theirs over 0.48 and the delay,
      both in whole ticks. */
  lemma Wavefronts(i: nat, count: nat, tick: nat, delay: nat)
    ensures 25 * Switch(count) <= 13 * count < 25 * Switch(count) + 25
    ensures var t := ShapedTick(i, count, tick, delay);
      if i < Switch(count) then 13 * t <= 25 * tick < 13 * t + 13
      else t >= delay && 12 * (t - delay) <= 25 * tick < 12 * (t - delay) + 12
  {
  }

  function ShapeChannel(steps: seq<TimedStep>, delay: nat): (r: seq<TimedStep>)
    ensures |r| == |steps|
  {
    seq(|steps|, i requires 0 <= i < |steps| => TimedStep(ShapedTick(i, |steps|, steps[i].tick, delay), steps[i].axis))
  }

  function Shaped(raw: seq<TimedStep>): seq<TimedStep> {
    ShapeChannel(Channel(raw, X), Delay(X)) + ShapeChannel(Channel(raw, Y), Delay(Y))
  }

  ghost predicate Rising(steps: seq<TimedStep>) {
    forall i, j :: 0 <= i < j < |steps| ==> steps[i].tick < steps[j].tick
  }

  lemma ScaledTicksRise(t: nat, u: nat, d: nat)
    requires t < u
    ensures (t as real / A1).Floor < (u as real / A1).Floor
    ensures (t as real / A2).Floor < (u as real / A2).Floor
    ensures (t as real / A1).Floor < (u as real / A2).Floor + d
  {
    assert u as real / A1 >= t as real / A1 + 1.0;
    assert u as real / A2 >= t as real / A2 + 1.0;
    assert t as real / A2 >= t as real / A1;
  }

  /** Neither branch, nor the switch between them, lets two steps of one axis fall together. */
  lemma ShapingKeepsRising(steps: seq<TimedStep>, delay: nat)
    requires Rising(steps)
    ensures Rising(ShapeChannel(steps, delay))
  {
    forall i, j | 0 <= i < j < |steps|
      ensures ShapedTick(i, |steps|, steps[i].tick, delay) < ShapedTick(j, |steps|, steps[j].tick, delay)
    {
      ScaledTicksRise(steps[i].tick, steps[j].tick, delay);
    }
  }

  /** Neighbouring steps of one wavefront lie on different ticks. */
  ghost predicate Separated(steps: seq<TimedStep>) {
    forall i :: 0 < i < |steps| && i != Switch(|steps|) ==> steps[i - 1].tick < steps[i].tick
  }

  ghost predicate Sorted(s: seq<TimedStep>) {
    forall i, j :: 0 <= i < j < |s| ==> s[i].tick <= s[j].tick
  }

  ghost predicate Distinct(s: seq<TimedStep>) {
    forall i, j :: 0 <= i < j < |s| ==> s[i].tick != s[j].tick
  }

  lemma {:induction false} NeighboursRise(s: seq<TimedStep>)
    requires forall i :: 0 < i < |s| ==> s[i - 1].tick < s[i].tick
    ensures Rising(s)
  {
    if s != [] {
      var k := |s| - 1;
      NeighboursRise(s[..k]);
      forall i | 0 <= i < k
        ensures s[i].tick < s[k].tick
      {
        assert s[..k][i].tick <= s[..k][k - 1].tick && s[k - 1].tick < s[k].tick;
      }
    }
  }

  lemma SwitchRises(t: nat, u: nat, delay: nat)
    requires t <= u && delay > 0
    ensures (t as real / A1).Floor < (u as real / A2).Floor + delay
  {
    assert u as real / A2 >= u as real / A1 >= t as real / A1;
  }

  lemma ShapedNeighbours(steps: seq<TimedStep>, delay: nat, i: nat)
    requires Sorted(steps) && delay > 0 && 0 < i < |steps|
    ensures var c := ShapeChannel(steps, delay);
      if i == Switch(|steps|) || steps[i - 1].tick < steps[i].tick then c[i - 1].tick < c[i].tick
      else c[i - 1].tick == c[i].tick
  {
    if i == Switch(|steps|) {
      SwitchRises(steps[i - 1].tick, steps[i].tick, delay);
    } else if steps[i - 1].tick < steps[i].tick {
      ScaledTicksRise(steps[i - 1].tick, steps[i].tick, delay);
    }
  }

  /** So of ticks that do not fall, exactly neighbours on one tick and in one wavefront fall together. */
  lemma ShapedDistinctIff(steps: seq<TimedStep>, delay: nat)
    requires Sorted(steps) && delay > 0
    ensures Distinct(ShapeChannel(steps, delay)) <==> Separated(steps)
  {
    var c := ShapeChannel(steps, delay);
    if Separated(steps) {
      forall i | 0 < i < |steps|
        ensures c[i - 1].tick < c[i].tick
      {
        ShapedNeighbours(steps, delay, i);
      }
      NeighboursRise(c);
    } else {
      var i :| 0 < i < |steps| && i != Switch(|steps|) && !(steps[i - 1].tick < steps[i].tick);
      ShapedNeighbours(steps, delay, i);
    }
  }

  // ---------------------------------------------------------------- merging and packing

  /** Where the steps on the last tick begin. */
  function LastGroup(s: seq<TimedStep>): (n: nat)
    requires |s| > 0
    ensures n < |s|
    ensures forall i :: n <= i < |s| ==> s[i].tick == s[|s| - 1].tick
    ensures n > 0 ==> s[n - 1].tick != s[n].tick
  {
    if |s| > 1 && s[|s| - 2].tick == s[|s| - 1].tick then LastGroup(s[..|s| - 1]) else |s| - 1
  }

  predicate Has(s: seq<TimedStep>, axis: Axis) {
    exists i :: 0 <= i < |s| && s[i].axis == axis
  }

  /** The delta that is left for the pulse itself after the overflow guard. */
  function Remaining(delta: nat): nat {
    if delta > MAX_UINT32 then delta - MAX_UINT32 else delta
  }

  /** The 32-bit conversion of half a delta. */
  function HalfWait(delta: nat): nat {
    delta / 2 % (MAX_UINT32 + 1)
  }

  function Block(group: seq<TimedStep>, delta: nat, dir: Directions): seq<Command> {
    var rest := Remaining(delta);
    (if delta > MAX_UINT32 then [Command(false, false, dir, MAX_UINT32)] else [])
    + [Command(Has(group, X), Has(group, Y), dir, HalfWait(rest)), Command(false, false, dir, HalfWait(rest))]
  }

  /** The 64-bit difference to the tick before (0 at the start). */
  function Gap(s: seq<TimedStep>, i: nat): nat
    requires i < |s|
  {
    var last := if i == 0 then 0 else s[i - 1].tick;
    if s[i].tick >= last then s[i].tick - last else (s[i].tick - last) % 0x1_0000_0000_0000_0000
  }

  function Pack(s: seq<TimedStep>, dir: Directions): seq<Command>
    decreases |s|
  {
    if s == [] then []
    else
      var n := LastGroup(s);
      Pack(s[..n], dir) + Block(s[n..], Gap(s, n), dir)
  }

  lemma {:induction false} LastGroupIs(s: seq<TimedStep>, n: nat)
    requires n < |s| && forall i :: n <= i < |s| ==> s[i].tick == s[n].tick
    requires n > 0 ==> s[n - 1].tick != s[n].tick
    ensures LastGroup(s) == n
  {
    assert n == 0 || s[n - 1].tick != s[n].tick;
  }

  /** The commands of an initial piece that ends with a complete group are the initial commands. */
  lemma {:induction false} PackPrefix(s: seq<TimedStep>, k: nat, dir: Directions)
    requires Sorted(s) && k <= |s| && (0 < k < |s| ==> s[k - 1].tick < s[k].tick)
    ensures Pack(s[..k], dir) <= Pack(s, dir)
    decreases |s|
  {
    if k == |s| {
      assert s[..k] == s;
    } else if k > 0 {
      var n := LastGroup(s);
      assert s[k - 1].tick < s[k].tick;
      assert k <= n;
      assert s[..n][..k] == s[..k];
      PackPrefix(s[..n], k, dir);
    }
  }

  lemma {:induction false} DirectionsThroughout(s: seq<TimedStep>, dir: Directions)
    ensures forall c :: c in Pack(s, dir) ==> c.dir == dir
    decreases |s|
  {
    if s != [] {
      DirectionsThroughout(s[..LastGroup(s)], dir);
    }
  }

  /** `s[k..m]` is all there is on its tick. */
  ghost predicate Group(s: seq<TimedStep>, k: nat, m: nat) {
    && k < m <= |s| && (forall i :: k <= i < m ==> s[i].tick == s[k].tick)
    && (k > 0 ==> s[k - 1].tick < s[k].tick) && (m < |s| ==> s[m - 1].tick < s[m].tick)
  }

  lemma GroupHas(s: seq<TimedStep>, k: nat, m: nat, axis: Axis)
    requires Sorted(s) && Group(s, k, m)
    ensures Has(s[k..m], axis) <==> TimedStep(s[k].tick, axis) in s
  {
    if TimedStep(s[k].tick, axis) in s {
      var i :| 0 <= i < |s| && s[i] == TimedStep(s[k].tick, axis);
      assert k <= i < m;
      assert s[k..m][i - k].axis == axis;
    }
    if Has(s[k..m], axis) {
      var i :| 0 <= i < |s[k..m]| && s[k..m][i].axis == axis;
      assert s[k + i] == TimedStep(s[k].tick, axis);
    }
  }

  lemma PackOfGroup(s: seq<TimedStep>, k: nat, m: nat, dir: Directions)
    requires Sorted(s) && Group(s, k, m)
    ensures Pack(s[..m], dir) == Pack(s[..k], dir) + Block(s[k..m], Gap(s, k), dir)
    ensures Pack(s[..m], dir) <= Pack(s, dir)
  {
    var t := s[..m];
    LastGroupIs(t, k);
    assert t[..k] == s[..k] && t[k..] == s[k..m] && Gap(t, k) == Gap(s, k);
    PackPrefix(s, m, dir);
  }

  /** From `cs[b]` on: if `wide` the longest wait without any step bits, then the step bits `x` and `y` for some time,
      then none for as long again. */
  predicate PulseAt(cs: seq<Command>, b: nat, wide: bool, x: bool, y: bool) {
    var high := if wide then b + 1 else b;
    && high + 2 <= |cs|
    && (wide ==> !cs[b].x && !cs[b].y && cs[b].wait == MAX_UINT32)
    && cs[high].x == x && cs[high].y == y
    && !cs[high + 1].x && !cs[high + 1].y && cs[high + 1].wait == cs[high].wait
  }

  lemma BlockIsAPulse(before: seq<Command>, group: seq<TimedStep>, delta: nat, dir: Directions, cs: seq<Command>)
    requires before + Block(group, delta, dir) <= cs
    ensures PulseAt(cs, |before|, delta > MAX_UINT32, Has(group, X), Has(group, Y))
  {
    var block := Block(group, delta, dir);
    forall j | 0 <= j < |block|
      ensures cs[|before| + j] == block[j]
    {
      assert (before + block)[|before| + j] == block[j];
    }
  }

  /** The commands of a tick, behind those of all ticks before: first the longest wait if its gap is too wide for two
      halves, then the step bits of exactly the axes that step on it, then none for as long again. */
  lemma BlockOfTick(s: seq<TimedStep>, k: nat, m: nat, dir: Directions)
    requires Sorted(s) && Group(s, k, m)
    ensures PulseAt(Pack(s, dir), |Pack(s[..k], dir)|, Gap(s, k) > MAX_UINT32,
                    TimedStep(s[k].tick, X) in s, TimedStep(s[k].tick, Y) in s)
    ensures |Pack(s[..m], dir)| == |Pack(s[..k], dir)| + if Gap(s, k) > MAX_UINT32 then 3 else 2
  {
    PackOfGroup(s, k, m, dir);
    BlockIsAPulse(Pack(s[..k], dir), s[k..m], Gap(s, k), dir, Pack(s, dir));
    GroupHas(s, k, m, X);
    GroupHas(s, k, m, Y);
  }

  // ---------------------------------------------------------------- conservation of steps

  function Pulse(c: Command, axis: Axis): nat {
    if (if axis == X then c.x else c.y) then 1 else 0
  }

  function Pulses(cs: seq<Command>, axis: Axis): nat {
    if cs == [] then 0 else Pulses(cs[..|cs| - 1], axis) + Pulse(cs[|cs| - 1], axis)
  }

  lemma PulsesStep(cs: seq<Command>, c: Command, axis: Axis)
    ensures Pulses(cs + [c], axis) == Pulses(cs, axis) + Pulse(c, axis)
  {
    assert (cs + [c])[..|cs|] == cs;
  }

  lemma BlockPulses(cs: seq<Command>, group: seq<TimedStep>, delta: nat, dir: Directions, axis: Axis)
    ensures Pulses(cs + Block(group, delta, dir), axis) == Pulses(cs, axis) + if Has(group, axis) then 1 else 0
  {
    var w := HalfWait(Remaining(delta));
    var guard := Command(false, false, dir, MAX_UINT32);
    var high, low := Command(Has(group, X), Has(group, Y), dir, w), Command(false, false, dir, w);
    var start := cs + if delta > MAX_UINT32 then [guard] else [];
    assert cs + Block(group, delta, dir) == start + [high] + [low];
    PulsesStep(start + [high], low, axis);
    PulsesStep(start, high, axis);
    PulsesStep(cs, guard, axis);
    assert cs + [] == cs;
  }

  /** The distinct ticks on which an axis steps. */
  function Ticks(s: seq<TimedStep>, axis: Axis): set<nat> {
    if s == [] then {}
    else
      var last := s[|s| - 1];
      Ticks(s[..|s| - 1], axis) + if last.axis == axis then {last.tick} else {}
  }

  lemma {:induction false} TickIn(s: seq<TimedStep>, axis: Axis, t: nat)
    ensures t in Ticks(s, axis) <==> TimedStep(t, axis) in s
  {
    if s != [] {
      TickIn(s[..|s| - 1], axis, t);
      assert s == s[..|s| - 1] + [s[|s| - 1]];
    }
  }

  /** For any sorted stream, each axis is pulsed exactly once per distinct tick it steps on. */
  lemma {:induction false} PulsesAreDistinctTicks(s: seq<TimedStep>, dir: Directions, axis: Axis)
    requires Sorted(s)
    ensures Pulses(Pack(s, dir), axis) == |Ticks(s, axis)|
    decreases |s|
  {
    if s != [] {
      var n := LastGroup(s);
      PulsesAreDistinctTicks(s[..n], dir, axis);
      BlockPulses(Pack(s[..n], dir), s[n..], Gap(s, n), dir, axis);
      SplitTicks(s, n, axis);
    }
  }

  lemma SplitTicks(s: seq<TimedStep>, n: nat, axis: Axis)
    requires Sorted(s) && s != [] && n == LastGroup(s)
    ensures |Ticks(s, axis)| == |Ticks(s[..n], axis)| + if Has(s[n..], axis) then 1 else 0
  {
    var t, before := s[n].tick, Ticks(s[..n], axis);
    var here: set<nat> := if Has(s[n..], axis) then {t} else {};
    forall u: nat
      ensures u in Ticks(s, axis) <==> u in before || u in here
    {
      TickIn(s, axis, u);
      TickIn(s[..n], axis, u);
      InEither(s, n, axis, u);
    }
    TickIn(s[..n], axis, t);
    BeforeGroup(s, n, axis);
    UnionSize(Ticks(s, axis), before, here);
  }

  lemma UnionSize(all: set<nat>, a: set<nat>, b: set<nat>)
    requires forall u: nat :: u in all <==> u in a || u in b
    requires a !! b
    ensures |all| == |a| + |b|
  {
    assert all == a + b;
  }

  lemma InEither(s: seq<TimedStep>, n: nat, axis: Axis, u: nat)
    requires n < |s| && forall i :: n <= i < |s| ==> s[i].tick == s[n].tick
    ensures TimedStep(u, axis) in s <==> TimedStep(u, axis) in s[..n] || (u == s[n].tick && Has(s[n..], axis))
  {
    assert s == s[..n] + s[n..];
    if TimedStep(u, axis) in s[n..] {
      var i :| 0 <= i < |s[n..]| && s[n..][i] == TimedStep(u, axis);
      assert s[n + i].tick == s[n].tick;
    }
    if Has(s[n..], axis) {
      var i :| 0 <= i < |s[n..]| && s[n..][i].axis == axis;
      assert s[n + i] == TimedStep(s[n].tick, axis) && s[n..][i] in s[n..];
    }
  }

  lemma BeforeGroup(s: seq<TimedStep>, n: nat, axis: Axis)
    requires Sorted(s) && n < |s| && (n > 0 ==> s[n - 1].tick != s[n].tick)
    ensures TimedStep(s[n].tick, axis) !in s[..n]
  {
    forall i | 0 <= i < n
      ensures s[..n][i] != TimedStep(s[n].tick, axis)
    {
      assert s[i].tick <= s[n - 1].tick < s[n].tick;
    }
  }

  lemma TicksOfPermutation(a: seq<TimedStep>, b: seq<TimedStep>, axis: Axis)
    requires multiset(a) == multiset(b)
    ensures Ticks(a, axis) == Ticks(b, axis)
  {
    forall u: nat
      ensures u in Ticks(a, axis) <==> u in Ticks(b, axis)
    {
      TickIn(a, axis, u);
      TickIn(b, axis, u);
      var t := TimedStep(u, axis);
      assert t in a <==> t in multiset(a);
      assert t in b <==> t in multiset(b);
    }
  }

  ghost predicate OfAxis(s: seq<TimedStep>, axis: Axis) {
    forall i :: 0 <= i < |s| ==> s[i].axis == axis
  }

  lemma {:induction false} TicksAtMostSteps(s: seq<TimedStep>, axis: Axis)
    requires OfAxis(s, axis)
    ensures |Ticks(s, axis)| <= |s|
    ensures |Ticks(s, axis)| == |s| <==> Distinct(s)
  {
    if s != [] {
      var k := |s| - 1;
      TicksAtMostSteps(s[..k], axis);
      TickIn(s[..k], axis, s[k].tick);
      LastIsDistinct(s, axis);
    }
  }

  lemma LastIsDistinct(s: seq<TimedStep>, axis: Axis)
    requires s != [] && OfAxis(s, axis)
    ensures var k := |s| - 1; Distinct(s) <==> Distinct(s[..k]) && TimedStep(s[k].tick, axis) !in s[..k]
  {
    var k := |s| - 1;
    if TimedStep(s[k].tick, axis) in s[..k] {
      var i :| 0 <= i < k && s[..k][i] == TimedStep(s[k].tick, axis);
      assert s[i].tick == s[k].tick;
    } else {
      forall i | 0 <= i < k
        ensures s[i].tick != s[k].tick
      {
        assert s[..k][i] in s[..k] && s[i] == TimedStep(s[i].tick, axis);
      }
    }
    if Distinct(s) {
      assert forall i, j :: 0 <= i < j < k ==> s[i].tick != s[j].tick;
    }
  }

  lemma {:induction false} ChannelAxis(steps: seq<TimedStep>, axis: Axis)
    ensures OfAxis(Channel(steps, axis), axis)
  {
    if steps != [] {
      ChannelAxis(steps[..|steps| - 1], axis);
    }
  }

  lemma ShapedTicks(raw: seq<TimedStep>, axis: Axis)
    ensures Ticks(Shaped(raw), axis) == Ticks(ShapeChannel(Channel(raw, axis), Delay(axis)), axis)
  {
    var a, b := ShapeChannel(Channel(raw, X), Delay(X)), ShapeChannel(Channel(raw, Y), Delay(Y));
    ChannelAxis(raw, X);
    ChannelAxis(raw, Y);
    assert OfAxis(a, X) && OfAxis(b, Y);
    forall u: nat
      ensures u in Ticks(a + b, axis) <==> u in Ticks(if axis == X then a else b, axis)
    {
      TickIn(a + b, axis, u);
      TickIn(if axis == X then a else b, axis, u);
    }
  }

  /** Shaping conserves steps: whatever order the sort leaves equal ticks in, an axis gets one pulse per
      raw step exactly if its shaped ticks are distinct, and never more. */
  lemma StepsConservedIff(raw: seq<TimedStep>, sorted: seq<TimedStep>, dir: Directions, axis: Axis)
    requires Sorted(sorted) && multiset(sorted) == multiset(Shaped(raw))
    ensures var c := ShapeChannel(Channel(raw, axis), Delay(axis)); var p := Pulses(Pack(sorted, dir), axis);
      && p <= |Channel(raw, axis)|
      && (p == |Channel(raw, axis)| <==> Distinct(c))
  {
    PulsesAreDistinctTicks(sorted, dir, axis);
    TicksOfPermutation(sorted, Shaped(raw), axis);
    ShapedTicks(raw, axis);
    ChannelAxis(raw, axis);
    TicksAtMostSteps(ShapeChannel(Channel(raw, axis), Delay(axis)), axis);
  }

  /** For the ticks of a step generator, which never fall: exactly if no two neighbours in one wavefront lie on
      the same tick. */
  lemma SeparatedStepsConserved(raw: seq<TimedStep>, sorted: seq<TimedStep>, dir: Directions, axis: Axis)
    requires Sorted(sorted) && multiset(sorted) == multiset(Shaped(raw)) && Sorted(Channel(raw, axis))
    ensures Pulses(Pack(sorted, dir), axis) == |Channel(raw, axis)| <==> Separated(Channel(raw, axis))
  {
    assert Delay(X) > 0 && Delay(Y) > 0;
    StepsConservedIff(raw, sorted, dir, axis);
    ShapedDistinctIff(Channel(raw, axis), Delay(axis));
  }

  // ---------------------------------------------------------------- timing

  function Duration(cs: seq<Command>): nat {
    if cs == [] then 0 else Duration(cs[..|cs| - 1]) + cs[|cs| - 1].wait
  }

  lemma DurationStep(cs: seq<Command>, c: Command)
    ensures Duration(cs + [c]) == Duration(cs) + c.wait
  {
    assert (cs + [c])[..|cs|] == cs;
  }

  lemma HalfWaitExact(rest: nat)
    ensures 2 * HalfWait(rest) <= rest - rest % 2
    ensures 2 * HalfWait(rest) == rest - rest % 2 <==> rest <= 2 * MAX_UINT32 + 1
  {
    var q := rest / 2;
    if rest > 2 * MAX_UINT32 + 1 {
      assert q >= MAX_UINT32 + 1;
    }
  }

  predicate Fits(delta: nat) {
    delta <= 3 * MAX_UINT32 + 1
  }

  /** A block never lasts longer than its delta, less one tick if an odd number is halved, and lasts that long if
      and only if the delta is at most 3 * MAX_UINT32 + 1: the guard takes off one maximum and the two halves hold
      two more and a bit. */
  lemma BlockDuration(cs: seq<Command>, group: seq<TimedStep>, delta: nat, dir: Directions)
    ensures var d := Duration(cs + Block(group, delta, dir)); var exact := Duration(cs) + delta - Remaining(delta) % 2;
      d <= exact && (d == exact <==> Fits(delta))
  {
    var w := HalfWait(Remaining(delta));
    var guard := Command(false, false, dir, MAX_UINT32);
    var high, low := Command(Has(group, X), Has(group, Y), dir, w), Command(false, false, dir, w);
    var start := cs + if delta > MAX_UINT32 then [guard] else [];
    assert cs + Block(group, delta, dir) == start + [high] + [low];
    DurationStep(start + [high], low);
    DurationStep(start, high);
    DurationStep(cs, guard);
    assert cs + [] == cs;
    HalfWaitExact(Remaining(delta));
  }

  /** The blocks of a stream whose remaining delta is odd. */
  function OddBlocks(s: seq<TimedStep>): nat
    decreases |s|
  {
    if s == [] then 0 else OddBlocks(s[..LastGroup(s)]) + Remaining(Gap(s, LastGroup(s))) % 2
  }

  /** Every block of the stream fits; the other steps have no delta of their own. */
  ghost predicate GapsFit(s: seq<TimedStep>) {
    forall i :: 0 <= i < |s| ==> Fits(Gap(s, i))
  }

  lemma LastGapFits(s: seq<TimedStep>)
    requires Sorted(s) && s != []
    ensures var n := LastGroup(s); GapsFit(s) <==> GapsFit(s[..n]) && Fits(Gap(s, n))
  {
    var n := LastGroup(s);
    forall i | 0 <= i < n
      ensures Gap(s[..n], i) == Gap(s, i)
    {
    }
    forall i | n < i < |s|
      ensures Gap(s, i) == 0
    {
      assert s[i].tick == s[|s| - 1].tick == s[i - 1].tick;
    }
    if GapsFit(s) {
      assert forall i :: 0 <= i < n ==> Fits(Gap(s, i));
    } else if GapsFit(s[..n]) {
      assert forall i :: 0 <= i < n ==> Fits(Gap(s[..n], i));
    }
  }

  /** Replaying the waits of a sorted stream takes its last tick, less one for every odd block, if and only if
      every block fits, and never longer. */
  lemma {:induction false} PackedTiming(s: seq<TimedStep>, dir: Directions)
    requires Sorted(s) && s != []
    ensures var d, exact := Duration(Pack(s, dir)), s[|s| - 1].tick - OddBlocks(s);
      d <= exact && (d == exact <==> GapsFit(s))
    decreases |s|
  {
    var n := LastGroup(s);
    BlockDuration(Pack(s[..n], dir), s[n..], Gap(s, n), dir);
    LastGapFits(s);
    if n > 0 {
      PackedTiming(s[..n], dir);
    }
  }

  /** The same up to and including the block of any tick of the stream. */
  lemma TimingOfEveryTick(s: seq<TimedStep>, k: nat, dir: Directions)
    requires Sorted(s) && 0 < k <= |s| && (k < |s| ==> s[k - 1].tick < s[k].tick)
    ensures Pack(s[..k], dir) <= Pack(s, dir)
    ensures Duration(Pack(s[..k], dir)) == s[k - 1].tick - OddBlocks(s[..k]) <==> GapsFit(s[..k])
  {
    PackPrefix(s, k, dir);
    PrefixTiming(s, k, dir);
  }

  lemma PrefixTiming(s: seq<TimedStep>, k: nat, dir: Directions)
    requires Sorted(s) && 0 < k <= |s|
    ensures Duration(Pack(s[..k], dir)) == s[k - 1].tick - OddBlocks(s[..k]) <==> GapsFit(s[..k])
  {
    var t := s[..k];
    assert Sorted(t) && t[|t| - 1] == s[k - 1];
    PackedTiming(t, dir);
  }
}
