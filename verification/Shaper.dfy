/** The compiler of main.go: its two functions as the loops they are, and the move from end to end. */
module Shaper {
  import opened ShaperMerge
  import opened ShaperSteps

  function Stamped(ticks: seq<nat>, axis: Axis): (r: seq<TimedStep>)
    ensures |r| == |ticks|
  {
    seq(|ticks|, i requires 0 <= i < |ticks| => TimedStep(ticks[i], axis))
  }

  lemma StampedStep(ticks: seq<nat>, t: nat, axis: Axis)
    ensures Stamped(ticks + [t], axis) == Stamped(ticks, axis) + [TimedStep(t, axis)]
  {
  }

  method AppendIf(stream: seq<TimedStep>, emit: bool, tick: nat, axis: Axis) returns (r: seq<TimedStep>)
    ensures r == stream + if emit then [TimedStep(tick, axis)] else []
  {
    r := if emit then stream + [TimedStep(tick, axis)] else stream;
  }

  /** What one turn of the loop of `calculateAbsoluteTimestampSteps` adds to the channels. */
  lemma TurnChannels(stream: seq<TimedStep>, x: bool, y: bool, now: nat)
    ensures var after := stream + (if x then [TimedStep(now, X)] else []) + (if y then [TimedStep(now, Y)] else []);
      && Channel(after, X) == Channel(stream, X) + (if x then [TimedStep(now, X)] else [])
      && Channel(after, Y) == Channel(stream, Y) + (if y then [TimedStep(now, Y)] else [])
  {
    var s1 := stream + if x then [TimedStep(now, X)] else [];
    assert stream + [] == stream && s1 + [] == s1;
    ChannelStep(stream, TimedStep(now, X), X);
    ChannelStep(stream, TimedStep(now, X), Y);
    ChannelStep(s1, TimedStep(now, Y), X);
    ChannelStep(s1, TimedStep(now, Y), Y);
    assert Channel(s1, X) + [] == Channel(s1, X) && Channel(s1, Y) + [] == Channel(s1, Y);
    assert Channel(stream, X) + [] == Channel(stream, X) && Channel(stream, Y) + [] == Channel(stream, Y);
  }

  lemma TurnTicks(
      sqrt: real -> real, p: Plan, rx: real, ry: real, s: nat, stream: seq<TimedStep>, after: seq<TimedStep>)
    requires Channel(stream, X) == Stamped(RawTicks(sqrt, p, rx, ry, rx, s), X)
    requires Channel(stream, Y) == Stamped(RawTicks(sqrt, p, rx, ry, ry, s), Y)
    requires var x, y, now := Emits(rx, s), Emits(ry, s), Now(sqrt, p, rx, ry, s + 1);
      after == if x || y then stream + (if x then [TimedStep(now, X)] else []) + (if y then [TimedStep(now, Y)] else [])
               else stream
    ensures Channel(after, X) == Stamped(RawTicks(sqrt, p, rx, ry, rx, s + 1), X)
    ensures Channel(after, Y) == Stamped(RawTicks(sqrt, p, rx, ry, ry, s + 1), Y)
  {
    var x, y, now := Emits(rx, s), Emits(ry, s), Now(sqrt, p, rx, ry, s + 1);
    assert stream + [] + [] == stream;
    TurnChannels(stream, x, y, now);
    TicksStep(sqrt, p, rx, ry, rx, s, X);
    TicksStep(sqrt, p, rx, ry, ry, s, Y);
  }

  lemma TicksStep(sqrt: real -> real, p: Plan, rx: real, ry: real, r: real, s: nat, axis: Axis)
    ensures Stamped(RawTicks(sqrt, p, rx, ry, r, s + 1), axis) ==
      Stamped(RawTicks(sqrt, p, rx, ry, r, s), axis)
      + if Emits(r, s) then [TimedStep(Now(sqrt, p, rx, ry, s + 1), axis)] else []
  {
    StampedStep(RawTicks(sqrt, p, rx, ry, r, s), Now(sqrt, p, rx, ry, s + 1), axis);
  }

  /** The loop of `calculateAbsoluteTimestampSteps`. */
  method GenerateSteps(sqrt: real -> real, p: Plan, absX: real, absY: real) returns (stream: seq<TimedStep>)
    requires p.total > 0.0
    ensures var rx, ry := absX / p.total, absY / p.total;
      && Channel(stream, X) == Stamped(RawTicks(sqrt, p, rx, ry, rx, p.steps), X)
      && Channel(stream, Y) == Stamped(RawTicks(sqrt, p, rx, ry, ry, p.steps), Y)
  {
    stream := [];
    var xRatio, yRatio := absX / p.total, absY / p.total;
    var xCounter, yCounter := 0.0, 0.0;
    var now: nat := 0;
    for s := 0 to p.steps
      invariant AxisAfter(xRatio, s).counter == xCounter && AxisAfter(yRatio, s).counter == yCounter
      invariant now == Now(sqrt, p, xRatio, yRatio, s)
      invariant Channel(stream, X) == Stamped(RawTicks(sqrt, p, xRatio, yRatio, xRatio, s), X)
      invariant Channel(stream, Y) == Stamped(RawTicks(sqrt, p, xRatio, yRatio, yRatio, s), Y)
    {
      var ticks := StepTicks(Velocity(sqrt, p, s));
      xCounter, yCounter := xCounter + xRatio, yCounter + yRatio;
      var xStep, yStep := xCounter >= 1.0, yCounter >= 1.0;
      if xStep {
        xCounter := xCounter - 1.0;
      }
      if yStep {
        yCounter := yCounter - 1.0;
      }
      ghost var before := stream;
      if xStep || yStep {
        now := now + ticks;
        stream := AppendIf(stream, xStep, now, X);
        stream := AppendIf(stream, yStep, now, Y);
      }
      TurnTicks(sqrt, p, xRatio, yRatio, s, before, stream);
    }
  }

  function Target(x: real, y: real, axis: Axis): (d: real)
    ensures d >= 0.0
  {
    if axis == X then Abs(x) else Abs(y)
  }

  /** The ticks on which a move steps on an axis. A move without length takes no vector step. */
  function MoveTicks(sqrt: real -> real, x: real, y: real, speed: real, axis: Axis): seq<nat>
    requires IsSqrt(sqrt)
  {
    var p := MakePlan(sqrt, x, y, speed);
    if p.total > 0.0 then
      RawTicks(sqrt, p, Abs(x) / p.total, Abs(y) / p.total, Target(x, y, axis) / p.total, p.steps)
    else []
  }

  /** `calculateAbsoluteTimestampSteps` */
  method CalculateSteps(sqrt: real -> real, targetX: real, targetY: real, targetSpeed: real)
    returns (stream: seq<TimedStep>, dir: Directions)
    requires IsSqrt(sqrt)
    ensures dir == Directions(targetX >= 0.0, targetY >= 0.0)
    ensures Channel(stream, X) == Stamped(MoveTicks(sqrt, targetX, targetY, targetSpeed, X), X)
    ensures Channel(stream, Y) == Stamped(MoveTicks(sqrt, targetX, targetY, targetSpeed, Y), Y)
  {
    dir := Directions(targetX >= 0.0, targetY >= 0.0);
    stream := [];
    var p := MakePlan(sqrt, targetX, targetY, targetSpeed);
    if p.total > 0.0 {
      stream := GenerateSteps(sqrt, p, Abs(targetX), Abs(targetY));
    }
  }

  /** A move steps on an axis fewer than two steps short of its commanded distance, and never beyond; its ticks
      never fall, and rise if the plan is slow. */
  lemma MoveTicksFit(sqrt: real -> real, x: real, y: real, speed: real, axis: Axis)
    requires IsSqrt(sqrt)
    ensures var ts, d := MoveTicks(sqrt, x, y, speed, axis), STEPS_PER_MM * Target(x, y, axis);
      && d - 2.0 < |ts| as real <= d
      && Sorted(Stamped(ts, axis))
      && (Slow(MakePlan(sqrt, x, y, speed)) ==> Rising(Stamped(ts, axis)))
  {
    var p := MakePlan(sqrt, x, y, speed);
    PlanBound(sqrt, x, y, speed);
    DiagonalDominates(sqrt, x, y);
    if p.total > 0.0 {
      var rx, ry, r := Abs(x) / p.total, Abs(y) / p.total, Target(x, y, axis) / p.total;
      assert p.steps == (p.total * STEPS_PER_MM).Floor;
      EndsWithinTwoSteps(p.total, Target(x, y, axis), r, p.steps);
      RawTicksOrdered(sqrt, p, rx, ry, r, p.steps);
      if Slow(p) {
        EveryStepTakesATickIff(sqrt, p, speed);
        RawTicksRise(sqrt, p, rx, ry, r, p.steps);
      }
    }
  }

  // ---------------------------------------------------------------- the shaper

  method ShapeLoop(steps: seq<TimedStep>, axis: Axis, shaped: seq<TimedStep>) returns (r: seq<TimedStep>)
    ensures r == shaped + ShapeChannel(steps, Delay(axis))
  {
    r := shaped;
    var limit := (|steps| as real * A1).Floor;
    for i := 0 to |steps|
      invariant r == shaped + ShapeChannel(steps, Delay(axis))[..i]
    {
      var tick := if i < limit then (steps[i].tick as real / A1).Floor
                  else (steps[i].tick as real / A2).Floor + Delay(axis);
      r := r + [TimedStep(tick, steps[i].axis)];
    }
  }

  method InsertByTick(r: seq<TimedStep>, t: TimedStep) returns (q: seq<TimedStep>)
    requires Sorted(r)
    ensures Sorted(q) && multiset(q) == multiset(r) + multiset{t}
  {
    var j: nat := |r|;
    while j > 0 && t.tick < r[j - 1].tick
      invariant j <= |r| && forall k :: j <= k < |r| ==> t.tick < r[k].tick
    {
      j := j - 1;
    }
    q := r[..j] + [t] + r[j..];
    InsertedSorted(r, j, t);
    assert r == r[..j] + r[j..];
  }

  lemma InsertedSorted(r: seq<TimedStep>, j: nat, t: TimedStep)
    requires Sorted(r) && j <= |r|
    requires j > 0 ==> r[j - 1].tick <= t.tick
    requires forall k :: j <= k < |r| ==> t.tick < r[k].tick
    ensures Sorted(r[..j] + [t] + r[j..])
  {
    var q := r[..j] + [t] + r[j..];
    forall a, b | 0 <= a < b < |q|
      ensures q[a].tick <= q[b].tick
    {
      var u, v := if a < j then a else a - 1, if b < j then b else b - 1;
      assert a != j ==> q[a] == r[u];
      assert b != j ==> q[b] == r[v];
      assert a < j ==> r[a].tick <= r[j - 1].tick;
    }
  }

  /** Stands in for `sort.Slice`: any sorted permutation would do, the order of equal ticks is not used. */
  method SortByTick(s: seq<TimedStep>) returns (r: seq<TimedStep>)
    ensures Sorted(r) && multiset(r) == multiset(s)
  {
    r := [];
    for i := 0 to |s|
      invariant Sorted(r) && multiset(r) == multiset(s[..i])
    {
      assert s[..i + 1] == s[..i] + [s[i]];
      r := InsertByTick(r, s[i]);
    }
    assert s[..|s|] == s;
  }

  /** The look-ahead that merges the steps of one tick. */
  method MergeGroup(steps: seq<TimedStep>, start: nat) returns (i: nat, x: bool, y: bool)
    requires start < |steps|
    ensures start < i <= |steps| && forall k :: start <= k < i ==> steps[k].tick == steps[start].tick
    ensures i < |steps| ==> steps[i].tick != steps[start].tick
    ensures x == Has(steps[start..i], X) && y == Has(steps[start..i], Y)
  {
    x, y := steps[start].axis == X, steps[start].axis == Y;
    i := start + 1;
    assert steps[start..i] == [steps[start]];
    assert steps[start..i][0] == steps[start];
    while i < |steps| && steps[i].tick == steps[start].tick
      invariant start < i <= |steps| && forall k :: start <= k < i ==> steps[k].tick == steps[start].tick
      invariant x == Has(steps[start..i], X) && y == Has(steps[start..i], Y)
    {
      HasStep(steps, start, i, X);
      HasStep(steps, start, i, Y);
      x, y := x || steps[i].axis == X, y || steps[i].axis == Y;
      i := i + 1;
    }
  }

  /** The commands of one tick, with the overflow guard. */
  method EmitBlock(commands: seq<Command>, group: seq<TimedStep>, x: bool, y: bool, deltaTicks: nat, dir: Directions)
    returns (r: seq<Command>)
    requires x == Has(group, X) && y == Has(group, Y)
    ensures r == commands + Block(group, deltaTicks, dir)
  {
    var delta := deltaTicks;
    r := commands;
    if delta > MAX_UINT32 {
      r := r + [Command(false, false, dir, MAX_UINT32)];
      delta := delta - MAX_UINT32;
    }
    r := r + [Command(x, y, dir, HalfWait(delta))];
    r := r + [Command(false, false, dir, HalfWait(delta))];
  }

  /** The merge loop: one block per distinct tick. */
  method PackLoop(steps: seq<TimedStep>, dir: Directions) returns (commands: seq<Command>)
    requires Sorted(steps)
    ensures commands == Pack(steps, dir)
  {
    commands := [];
    var i: nat, lastTick: nat := 0, 0;
    while i < |steps|
      invariant i <= |steps| && commands == Pack(steps[..i], dir)
      invariant lastTick == (if i == 0 then 0 else steps[i - 1].tick)
      invariant 0 < i < |steps| ==> steps[i - 1].tick < steps[i].tick
    {
      var start := i;
      var x, y;
      i, x, y := MergeGroup(steps, start);
      PackStep(steps, start, i, dir);
      commands := EmitBlock(commands, steps[start..i], x, y, steps[start].tick - lastTick, dir);
      lastTick := steps[start].tick;
    }
    assert steps[..|steps|] == steps;
  }

  lemma HasStep(s: seq<TimedStep>, start: nat, i: nat, axis: Axis)
    requires start < i < |s|
    ensures Has(s[start..i + 1], axis) <==> Has(s[start..i], axis) || s[i].axis == axis
  {
    assert s[start..i + 1] == s[start..i] + [s[i]];
    var t := s[start..i + 1];
    assert t[i - start] == s[i];
    if Has(s[start..i], axis) {
      var k :| 0 <= k < |s[start..i]| && s[start..i][k].axis == axis;
      assert t[k].axis == axis;
    }
  }

  lemma PackStep(s: seq<TimedStep>, start: nat, i: nat, dir: Directions)
    requires Sorted(s) && start < i <= |s| && forall k :: start <= k < i ==> s[k].tick == s[start].tick
    requires start > 0 ==> s[start - 1].tick < s[start].tick
    ensures Pack(s[..i], dir) == Pack(s[..start], dir)
        + Block(s[start..i], s[start].tick - if start == 0 then 0 else s[start - 1].tick, dir)
  {
    var t := s[..i];
    assert t[..start] == s[..start] && t[start..] == s[start..i];
    GroupBegins(s, start, i);
    PackLast(t, start, dir);
    GapIsDifference(s, i, start);
    SameBlock(t[start..], s[start..i], Gap(t, start), s[start].tick - if start == 0 then 0 else s[start - 1].tick, dir);
  }

  lemma SameBlock(a: seq<TimedStep>, b: seq<TimedStep>, d: nat, e: nat, dir: Directions)
    requires a == b && d == e
    ensures Block(a, d, dir) == Block(b, e, dir)
  {
  }

  lemma GroupBegins(s: seq<TimedStep>, start: nat, i: nat)
    requires start < i <= |s| && forall k :: start <= k < i ==> s[k].tick == s[start].tick
    requires start > 0 ==> s[start - 1].tick < s[start].tick
    ensures LastGroup(s[..i]) == start
  {
    LastGroupIs(s[..i], start);
  }

  lemma PackLast(t: seq<TimedStep>, n: nat, dir: Directions)
    requires t != [] && n == LastGroup(t)
    ensures Pack(t, dir) == Pack(t[..n], dir) + Block(t[n..], Gap(t, n), dir)
  {
  }

  lemma GapIsDifference(s: seq<TimedStep>, i: nat, start: nat)
    requires Sorted(s) && start < i <= |s|
    ensures Gap(s[..i], start) == s[start].tick - if start == 0 then 0 else s[start - 1].tick
  {
  }

  /** `applyIndependentDualAxisShaper`: the commands are the packing of a sorted permutation of the shaped steps. */
  method ApplyShaper(raw: seq<TimedStep>, dir: Directions)
    returns (commands: seq<Command>, ghost sorted: seq<TimedStep>)
    ensures Sorted(sorted) && multiset(sorted) == multiset(Shaped(raw)) && commands == Pack(sorted, dir)
    ensures forall axis :: Pulses(commands, axis) <= |Channel(raw, axis)|
    ensures forall axis :: Sorted(Channel(raw, axis)) ==>
              (Pulses(commands, axis) == |Channel(raw, axis)| <==> Separated(Channel(raw, axis)))
  {
    var xSteps, ySteps := [], [];
    for i := 0 to |raw|
      invariant xSteps == Channel(raw[..i], X) && ySteps == Channel(raw[..i], Y)
    {
      assert raw[..i + 1] == raw[..i] + [raw[i]];
      ChannelStep(raw[..i], raw[i], X);
      ChannelStep(raw[..i], raw[i], Y);
      if raw[i].axis == X {
        xSteps := xSteps + [raw[i]];
      }
      if raw[i].axis == Y {
        ySteps := ySteps + [raw[i]];
      }
    }
    assert raw[..|raw|] == raw;
    var shaped := ShapeLoop(xSteps, X, []);
    shaped := ShapeLoop(ySteps, Y, shaped);
    var inOrder := SortByTick(shaped);
    sorted := inOrder;
    commands := PackLoop(inOrder, dir);
    forall axis
      ensures Pulses(commands, axis) <= |Channel(raw, axis)|
      ensures Sorted(Channel(raw, axis)) ==>
                (Pulses(commands, axis) == |Channel(raw, axis)| <==> Separated(Channel(raw, axis)))
    {
      StepsConservedIff(raw, sorted, dir, axis);
      if Sorted(Channel(raw, axis)) {
        SeparatedStepsConserved(raw, sorted, dir, axis);
      }
    }
  }

  /** The shaped steps of a move, before they are sorted. */
  function MoveStream(sqrt: real -> real, x: real, y: real, speed: real): seq<TimedStep>
    requires IsSqrt(sqrt)
  {
    ShapeChannel(Stamped(MoveTicks(sqrt, x, y, speed, X), X), Delay(X))
    + ShapeChannel(Stamped(MoveTicks(sqrt, x, y, speed, Y), Y), Delay(Y))
  }

  // The timing of short moves.

  lemma MoveTicksBound(sqrt: real -> real, x: real, y: real, speed: real, axis: Axis)
    requires IsSqrt(sqrt)
    ensures var ts, n := MoveTicks(sqrt, x, y, speed, axis), MakePlan(sqrt, x, y, speed).steps;
      forall i :: 0 <= i < |ts| ==> ts[i] <= LONGEST_STEP * n
  {
    var p := MakePlan(sqrt, x, y, speed);
    if p.total > 0.0 {
      RawTicksOrdered(sqrt, p, Abs(x) / p.total, Abs(y) / p.total, Target(x, y, axis) / p.total, p.steps);
      NowBound(sqrt, p, Abs(x) / p.total, Abs(y) / p.total, p.steps);
    }
  }

  const LONGEST_DELAY: nat := 363637

  lemma ShapedTickBound(i: nat, count: nat, tick: nat, axis: Axis, most: nat)
    requires tick <= most
    ensures ShapedTick(i, count, tick, Delay(axis)) as real <= most as real / A2 + LONGEST_DELAY as real
  {
    assert Delay(X) <= LONGEST_DELAY && Delay(Y) <= LONGEST_DELAY;
    assert tick as real / A1 <= most as real / A2 && tick as real / A2 <= most as real / A2;
  }

  /** Ticks up to `n` make a stream whose blocks fit, if `n` is small enough. */
  lemma SmallTicksFit(xs: seq<nat>, ys: seq<nat>, n: nat, sorted: seq<TimedStep>)
    requires forall i :: 0 <= i < |xs| ==> xs[i] <= n
    requires forall i :: 0 <= i < |ys| ==> ys[i] <= n
    requires n <= LONGEST_STEP * 150000 && Sorted(sorted)
    requires multiset(sorted) ==
             multiset(ShapeChannel(Stamped(xs, X), Delay(X)) + ShapeChannel(Stamped(ys, Y), Delay(Y)))
    ensures GapsFit(sorted)
  {
    var a, b := ShapeChannel(Stamped(xs, X), Delay(X)), ShapeChannel(Stamped(ys, Y), Delay(Y));
    forall i | 0 <= i < |sorted|
      ensures ShaperMerge.Fits(Gap(sorted, i))
    {
      var k := Position(a + b, sorted, i);
      if k < |a| {
        ShapedTickBound(k, |xs|, xs[k], X, n);
      } else {
        ShapedTickBound(k - |a|, |ys|, ys[k - |a|], Y, n);
      }
    }
  }

  const SHORT_MOVE: real := 1500.0

  /** Every block of a move of up to a metre and a half fits, at any target speed. */
  lemma ShortMoveFits(sqrt: real -> real, x: real, y: real, speed: real)
    requires IsSqrt(sqrt)
    ensures MakePlan(sqrt, x, y, speed).total <= SHORT_MOVE ==>
              forall sorted :: Sorted(sorted) && multiset(sorted) == multiset(MoveStream(sqrt, x, y, speed)) ==>
                GapsFit(sorted)
  {
    if MakePlan(sqrt, x, y, speed).total <= SHORT_MOVE {
      var n := MakePlan(sqrt, x, y, speed).steps;
      PlanBound(sqrt, x, y, speed);
      assert n <= 150000;
      MoveTicksBound(sqrt, x, y, speed, X);
      MoveTicksBound(sqrt, x, y, speed, Y);
      forall sorted | Sorted(sorted) && multiset(sorted) == multiset(MoveStream(sqrt, x, y, speed))
        ensures GapsFit(sorted)
      {
        SmallTicksFit(MoveTicks(sqrt, x, y, speed, X), MoveTicks(sqrt, x, y, speed, Y), LONGEST_STEP * n, sorted);
      }
    }
  }

  /** A compiled move is the packing of its shaped steps in the order of their ticks. It pulses no axis beyond its
      commanded distance. It pulses an axis once for each of its steps if and only if no two neighbouring steps in one
      wavefront share a tick; and then, in particular whenever the plan is slow, fewer than two steps short of the
      distance. Up to a metre and a half its waits add up to its last tick, less one for every odd block. */
  method CompileMove(sqrt: real -> real, targetX: real, targetY: real, targetSpeed: real)
    returns (commands: seq<Command>, ghost sorted: seq<TimedStep>)
    requires IsSqrt(sqrt)
    ensures Sorted(sorted) && multiset(sorted) == multiset(MoveStream(sqrt, targetX, targetY, targetSpeed))
    ensures commands == Pack(sorted, Directions(targetX >= 0.0, targetY >= 0.0))
    ensures forall axis ::
      var ts := MoveTicks(sqrt, targetX, targetY, targetSpeed, axis);
      var d := STEPS_PER_MM * Target(targetX, targetY, axis);
      && Pulses(commands, axis) <= |ts| && Pulses(commands, axis) as real <= d
      && (Pulses(commands, axis) == |ts| <==> Separated(Stamped(ts, axis)))
      && (Slow(MakePlan(sqrt, targetX, targetY, targetSpeed)) ==> Pulses(commands, axis) as real > d - 2.0)
    ensures MakePlan(sqrt, targetX, targetY, targetSpeed).total <= SHORT_MOVE && sorted != [] ==>
      Duration(commands) == sorted[|sorted| - 1].tick - OddBlocks(sorted)
  {
    var raw, dir := CalculateSteps(sqrt, targetX, targetY, targetSpeed);
    commands, sorted := ApplyShaper(raw, dir);
    assert Shaped(raw) == MoveStream(sqrt, targetX, targetY, targetSpeed);
    forall axis
      ensures Channel(raw, axis) == Stamped(MoveTicks(sqrt, targetX, targetY, targetSpeed, axis), axis)
      ensures var ts := MoveTicks(sqrt, targetX, targetY, targetSpeed, axis);
        var d := STEPS_PER_MM * Target(targetX, targetY, axis);
        && Sorted(Stamped(ts, axis)) && d - 2.0 < |ts| as real <= d
        && (Slow(MakePlan(sqrt, targetX, targetY, targetSpeed)) ==> Separated(Stamped(ts, axis)))
    {
      MoveTicksFit(sqrt, targetX, targetY, targetSpeed, axis);
      assert axis == X || axis == Y;
    }
    if MakePlan(sqrt, targetX, targetY, targetSpeed).total <= SHORT_MOVE && sorted != [] {
      ShortMoveFits(sqrt, targetX, targetY, targetSpeed);
      PackedTiming(sorted, dir);
    }
  }

  // ---------------------------------------------------------------- a move that loses steps

  lemma {:induction false} EveryStepOfOneAxis(sqrt: real -> real, p: Plan, s: nat)
    ensures AxisAfter(1.0, s) == Accumulator(s, 0.0) && |RawTicks(sqrt, p, 1.0, 0.0, 1.0, s)| == s
    ensures forall i :: 0 <= i < s ==> RawTicks(sqrt, p, 1.0, 0.0, 1.0, s)[i] == Now(sqrt, p, 1.0, 0.0, i + 1)
  {
    if s > 0 {
      EveryStepOfOneAxis(sqrt, p, s - 1);
    }
  }

  lemma SqrtOfSquare(sqrt: real -> real, v: real)
    requires IsSqrt(sqrt) && v >= 0.0
    ensures sqrt(v * v) == v
  {
    assert v * v >= 0.0;
    SquareOrder(sqrt(v * v), v);
    SquareOrder(v, sqrt(v * v));
  }

  lemma DiagonalOfOneAxis(sqrt: real -> real, x: real)
    requires IsSqrt(sqrt) && x >= 0.0
    ensures Diagonal(sqrt, x, 0.0) == x
  {
    SqrtOfSquare(sqrt, x);
    assert Abs(x) * Abs(x) + Abs(0.0) * Abs(0.0) == x * x;
  }

  lemma OneAxisMove(sqrt: real -> real, x: real, speed: real)
    requires IsSqrt(sqrt) && x > 0.0
    ensures var p := MakePlan(sqrt, x, 0.0, speed);
      p.total == x && MoveTicks(sqrt, x, 0.0, speed, X) == RawTicks(sqrt, p, 1.0, 0.0, 1.0, p.steps)
  {
    DiagonalOfOneAxis(sqrt, x);
    WholeAndNone(x);
  }

  lemma WholeAndNone(x: real)
    requires x > 0.0
    ensures x / x == 1.0 && 0.0 / x == 0.0
  {
    var q, z := x / x, 0.0 / x;
    assert q * x == x && z * x == 0.0;
    assert (q - 1.0) * x == 0.0;
  }

  lemma OneAxisTicks(sqrt: real -> real, p: Plan, n: nat)
    ensures var ts := RawTicks(sqrt, p, 1.0, 0.0, 1.0, n);
      |ts| == n && forall i :: 0 < i < n ==> ts[i] == ts[i - 1] + StepTicks(Velocity(sqrt, p, i))
  {
    var ts := RawTicks(sqrt, p, 1.0, 0.0, 1.0, n);
    EveryStepOfOneAxis(sqrt, p, n);
    forall i | 0 < i < n
      ensures ts[i] == ts[i - 1] + StepTicks(Velocity(sqrt, p, i))
    {
      EveryStepOfOneAxis(sqrt, p, i);
      assert ts[i] == Now(sqrt, p, 1.0, 0.0, i + 1) && ts[i - 1] == Now(sqrt, p, 1.0, 0.0, i);
    }
  }

  /** Each of the ticks lies the whole ticks of a step at the velocity of that step behind the one before, the first one
      behind the start. */
  ghost predicate Paced(sqrt: real -> real, p: Plan, ts: seq<nat>) {
    && |ts| == p.steps
    && (ts != [] ==> StepTime(Velocity(sqrt, p, 0), ts[0]))
    && forall i :: 0 < i < |ts| ==> StepTime(Velocity(sqrt, p, i), ts[i] as int - ts[i - 1] as int)
  }

  lemma RawTicksPaced(sqrt: real -> real, p: Plan)
    ensures Paced(sqrt, p, RawTicks(sqrt, p, 1.0, 0.0, 1.0, p.steps))
  {
    var ts := RawTicks(sqrt, p, 1.0, 0.0, 1.0, p.steps);
    OneAxisTicks(sqrt, p, p.steps);
    if ts != [] {
      EveryStepOfOneAxis(sqrt, p, p.steps);
      FirstTick(sqrt, p);
      StepTicksAre(Velocity(sqrt, p, 0));
    }
    forall i | 0 < i < |ts|
      ensures StepTime(Velocity(sqrt, p, i), ts[i] as int - ts[i - 1] as int)
    {
      StepTicksAre(Velocity(sqrt, p, i));
    }
  }

  /** The steps of a move along one axis follow each other in the time they take at the velocities of the law of
      motion. */
  lemma OneAxisTiming(sqrt: real -> real, x: real, speed: real)
    requires IsSqrt(sqrt) && x > 0.0
    ensures Paced(sqrt, MakePlan(sqrt, x, 0.0, speed), MoveTicks(sqrt, x, 0.0, speed, X))
  {
    OneAxisMove(sqrt, x, speed);
    RawTicksPaced(sqrt, MakePlan(sqrt, x, 0.0, speed));
  }

  predicate TakesATick(sqrt: real -> real, p: Plan, i: nat) {
    StepTicks(Velocity(sqrt, p, i)) >= 1
  }

  lemma SeparatedTicks(ts: seq<nat>, axis: Axis)
    ensures Separated(Stamped(ts, axis)) <==> forall i :: 0 < i < |ts| && i != Switch(|ts|) ==> ts[i - 1] < ts[i]
  {
    var c := Stamped(ts, axis);
    if Separated(c) {
      forall i | 0 < i < |ts| && i != Switch(|ts|)
        ensures ts[i - 1] < ts[i]
      {
        assert c[i - 1].tick < c[i].tick;
      }
    }
  }

  lemma OneAxisSeparated(sqrt: real -> real, p: Plan, n: nat)
    ensures Separated(Stamped(RawTicks(sqrt, p, 1.0, 0.0, 1.0, n), X)) <==>
            forall i :: 0 < i < n && i != Switch(n) ==> TakesATick(sqrt, p, i)
  {
    var ts := RawTicks(sqrt, p, 1.0, 0.0, 1.0, n);
    OneAxisTicks(sqrt, p, n);
    SeparatedTicks(ts, X);
    SameNeighbours(sqrt, p, ts);
  }

  lemma SameNeighbours(sqrt: real -> real, p: Plan, ts: seq<nat>)
    requires forall i :: 0 < i < |ts| ==> ts[i] == ts[i - 1] + StepTicks(Velocity(sqrt, p, i))
    ensures (forall i :: 0 < i < |ts| && i != Switch(|ts|) ==> ts[i - 1] < ts[i]) <==>
            (forall i :: 0 < i < |ts| && i != Switch(|ts|) ==> TakesATick(sqrt, p, i))
  {
    forall i | 0 < i < |ts| && i != Switch(|ts|)
      ensures TakesATick(sqrt, p, i) ==> ts[i - 1] < ts[i]
      ensures ts[i - 1] < ts[i] ==> TakesATick(sqrt, p, i)
    {
      assert ts[i] == ts[i - 1] + StepTicks(Velocity(sqrt, p, i));
    }
    if i :| 0 < i < |ts| && i != Switch(|ts|) && !TakesATick(sqrt, p, i) {
      assert !(ts[i - 1] < ts[i]);
    }
  }

  /** A move along one axis keeps all its steps if and only if each of them takes a tick, but for the first one and
      the one at which the second wavefront begins. */
  lemma OneAxisIff(sqrt: real -> real, x: real, speed: real)
    requires IsSqrt(sqrt) && x > 0.0
    ensures var p := MakePlan(sqrt, x, 0.0, speed);
      Separated(Stamped(MoveTicks(sqrt, x, 0.0, speed, X), X)) <==>
      forall i :: 0 < i < p.steps && i != Switch(p.steps) ==> TakesATick(sqrt, p, i)
  {
    var p := MakePlan(sqrt, x, 0.0, speed);
    OneAxisMove(sqrt, x, speed);
    OneAxisSeparated(sqrt, p, p.steps);
  }

  lemma FastPlan(sqrt: real -> real, p: Plan)
    requires IsSqrt(sqrt) && p == MakePlan(sqrt, 60000000.0, 0.0, 200000.0)
    ensures p.vMax == 200000.0 && 2400000000 < p.accelSteps < 2600000000 && 5999999999 < p.steps < 6000000001
  {
    DiagonalOfOneAxis(sqrt, 60000000.0);
    var q := (200000.0 * 200000.0 - START_SPEED * START_SPEED) / (2.0 * MAX_ACCEL) * STEPS_PER_MM;
    var steps := Truncate(q);
    assert q == 2499999999.0;
    assert steps == q.Floor == 2499999999;
    var n := Truncate(60000000.0 * STEPS_PER_MM);
    assert n == 6000000000;
    assert p == Plan(60000000.0, n, steps, 200000.0);
  }

  /** 60 kilometres along one axis at 200 m/s: between the ramps a step takes no tick, so that neighbours fall
      together and pulses are lost. */
  lemma FastMoveLosesSteps(sqrt: real -> real)
    requires IsSqrt(sqrt)
    ensures !Slow(MakePlan(sqrt, 60000000.0, 0.0, 200000.0))
    ensures !Separated(Stamped(MoveTicks(sqrt, 60000000.0, 0.0, 200000.0, X), X))
  {
    var p, i := MakePlan(sqrt, 60000000.0, 0.0, 200000.0), 3000000000;
    FastPlan(sqrt, p);
    OneAxisIff(sqrt, 60000000.0, 200000.0);
    assert 0 < i < p.steps && i != Switch(p.steps);
    TicksAtLeastOne(200000.0);
    assert !TakesATick(sqrt, p, i);
  }

  // ---------------------------------------------------------------- a move whose waits fall short

  /** A jump over a stretch without ticks is a gap. */
  lemma {:induction false} JumpIsAGap(s: seq<TimedStep>, a: nat, b: nat, v: nat, u: nat) returns (i: nat)
    requires Sorted(s) && a < b < |s| && s[a].tick <= v < u <= s[b].tick
    requires forall k :: 0 <= k < |s| ==> s[k].tick <= v || u <= s[k].tick
    ensures 0 < i < |s| && Gap(s, i) >= u - v
    decreases b - a
  {
    if s[a + 1].tick <= v {
      i := JumpIsAGap(s, a + 1, b, v, u);
    } else {
      i := a + 1;
    }
  }

  lemma {:induction false} NoStepsOfRest(sqrt: real -> real, p: Plan, rx: real, s: nat)
    ensures AxisAfter(0.0, s).counter == 0.0 && RawTicks(sqrt, p, rx, 0.0, 0.0, s) == []
  {
    if s > 0 {
      NoStepsOfRest(sqrt, p, rx, s - 1);
    }
  }

  lemma OneAxisStream(sqrt: real -> real, x: real, speed: real)
    requires IsSqrt(sqrt) && x > 0.0
    ensures MoveStream(sqrt, x, 0.0, speed) == ShapeChannel(Stamped(MoveTicks(sqrt, x, 0.0, speed, X), X), Delay(X))
  {
    var p := MakePlan(sqrt, x, 0.0, speed);
    DiagonalOfOneAxis(sqrt, x);
    WholeAndNone(x);
    NoStepsOfRest(sqrt, p, 1.0, p.steps);
    assert MoveTicks(sqrt, x, 0.0, speed, Y) == [];
    assert ShapeChannel(Stamped([], Y), Delay(Y)) == [];
  }

  lemma {:induction false} EvenTicks(ts: seq<nat>, d: nat, i: nat)
    requires forall k :: 0 < k < |ts| ==> ts[k] == ts[k - 1] + d
    requires i < |ts| && ts[0] == d
    ensures ts[i] == d * (i + 1)
  {
    if i > 0 {
      EvenTicks(ts, d, i - 1);
      assert d * (i + 1) == d * i + d;
    }
  }

  lemma SlowPlan(sqrt: real -> real, p: Plan)
    requires IsSqrt(sqrt) && p == MakePlan(sqrt, 40000.0, 0.0, 4.0)
    ensures p.accelSteps == 0 && p.vMax == 4.0 && 3999999 < p.steps < 4000001
  {
    DiagonalOfOneAxis(sqrt, 40000.0);
    assert (4.0 * 4.0 - START_SPEED * START_SPEED) / (2.0 * MAX_ACCEL) * STEPS_PER_MM == 0.0;
    assert Truncate(0.0) == 0;
    var n := Truncate(40000.0 * STEPS_PER_MM);
    assert n == 4000000;
    assert p == Plan(40000.0, n, 0, 4.0);
  }

  lemma StartSpeedTicks()
    ensures StepTicks(START_SPEED) == 40000
  {
    assert 1.0 / (START_SPEED * STEPS_PER_MM) * CLOCK_SPEED == 40000.0;
  }

  /** The ticks of 40 metres along one axis at the start speed. */
  lemma SlowMoveTicks(sqrt: real -> real)
    requires IsSqrt(sqrt)
    ensures |MoveTicks(sqrt, 40000.0, 0.0, 4.0, X)| == MakePlan(sqrt, 40000.0, 0.0, 4.0).steps
    ensures var ts := MoveTicks(sqrt, 40000.0, 0.0, 4.0, X); forall i :: 0 <= i < |ts| ==> ts[i] == 40000 * (i + 1)
  {
    var p, ts := MakePlan(sqrt, 40000.0, 0.0, 4.0), MoveTicks(sqrt, 40000.0, 0.0, 4.0, X);
    SlowPlan(sqrt, p);
    OneAxisMove(sqrt, 40000.0, 4.0);
    OneAxisTicks(sqrt, p, p.steps);
    StartSpeedTicks();
    EveryStepOfOneAxis(sqrt, p, p.steps);
    FirstTick(sqrt, p);
    forall k | 0 < k < |ts|
      ensures ts[k] == ts[k - 1] + 40000
    {
      assert Velocity(sqrt, p, k) == 4.0;
    }
    forall i | 0 <= i < |ts|
      ensures ts[i] == 40000 * (i + 1)
    {
      EvenTicks(ts, 40000, i);
    }
  }

  lemma FirstTick(sqrt: real -> real, p: Plan)
    ensures Now(sqrt, p, 1.0, 0.0, 1) == StepTicks(Velocity(sqrt, p, 0))
  {
    assert Now(sqrt, p, 1.0, 0.0, 0) == 0 && AxisAfter(1.0, 0).counter == 0.0;
  }

  lemma SwitchTicks(n: nat, k: nat)
    requires 3999999 < n < 4000001 && k == Switch(n)
    ensures 0 < k < n
    ensures ShapedTick(k - 1, n, 40000 * k, Delay(X)) <= 160000000000
    ensures ShapedTick(k, n, 40000 * (k + 1), Delay(X)) >= 173333416666
  {
    assert k == 2080000;
  }

  /** So that it jumps at the switch between the wavefronts. */
  lemma LongMoveJumps(sqrt: real -> real) returns (k: nat)
    requires IsSqrt(sqrt)
    ensures var c := MoveStream(sqrt, 40000.0, 0.0, 4.0);
      && 0 < k < |c| && c[k - 1].tick <= 160000000000 && c[k].tick >= 173333416666
      && forall i :: 0 <= i < |c| ==> c[i].tick <= c[k - 1].tick || c[k].tick <= c[i].tick
  {
    var ts := MoveTicks(sqrt, 40000.0, 0.0, 4.0, X);
    var c := ShapeChannel(Stamped(ts, X), Delay(X));
    k := Switch(|ts|);
    SlowPlan(sqrt, MakePlan(sqrt, 40000.0, 0.0, 4.0));
    MoveTicksFit(sqrt, 40000.0, 0.0, 4.0, X);
    OneAxisStream(sqrt, 40000.0, 4.0);
    SlowMoveTicks(sqrt);
    SwitchTicks(|ts|, k);
    SlowMoves(MakePlan(sqrt, 40000.0, 0.0, 4.0), 4.0);
    ShapingKeepsRising(Stamped(ts, X), Delay(X));
  }

  /** No block can hold that gap: the waits of the move fall short. */
  lemma LongMoveFallsShort(sqrt: real -> real)
    requires IsSqrt(sqrt)
    ensures forall sorted: seq<TimedStep>, dir ::
              Sorted(sorted) && multiset(sorted) == multiset(MoveStream(sqrt, 40000.0, 0.0, 4.0)) ==>
              sorted != [] && Duration(Pack(sorted, dir)) < sorted[|sorted| - 1].tick - OddBlocks(sorted)
  {
    var c := MoveStream(sqrt, 40000.0, 0.0, 4.0);
    var k := LongMoveJumps(sqrt);
    forall sorted: seq<TimedStep>, dir | Sorted(sorted) && multiset(sorted) == multiset(c)
      ensures sorted != [] && Duration(Pack(sorted, dir)) < sorted[|sorted| - 1].tick - OddBlocks(sorted)
    {
      WideJump(c, k, sorted, dir);
    }
  }

  lemma WideJump(c: seq<TimedStep>, k: nat, sorted: seq<TimedStep>, dir: Directions)
    requires 0 < k < |c| && c[k - 1].tick + 3 * MAX_UINT32 + 1 < c[k].tick
    requires forall i :: 0 <= i < |c| ==> c[i].tick <= c[k - 1].tick || c[k].tick <= c[i].tick
    requires Sorted(sorted) && multiset(sorted) == multiset(c)
    ensures sorted != [] && Duration(Pack(sorted, dir)) < sorted[|sorted| - 1].tick - OddBlocks(sorted)
  {
    var a := Position(sorted, c, k - 1);
    var b := Position(sorted, c, k);
    forall j | 0 <= j < |sorted|
      ensures sorted[j].tick <= c[k - 1].tick || c[k].tick <= sorted[j].tick
    {
      var i := Position(c, sorted, j);
    }
    var i := JumpIsAGap(sorted, a, b, c[k - 1].tick, c[k].tick);
    assert !ShaperMerge.Fits(Gap(sorted, i));
    PackedTiming(sorted, dir);
  }

  lemma Position(a: seq<TimedStep>, b: seq<TimedStep>, j: nat) returns (i: nat)
    requires multiset(a) == multiset(b) && j < |b|
    ensures i < |a| && a[i] == b[j]
  {
    assert b[j] in multiset(b);
    assert b[j] in multiset(a);
    i :| 0 <= i < |a| && a[i] == b[j];
  }
}
