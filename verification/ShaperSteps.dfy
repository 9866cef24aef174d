/** The first half of main.go: a move becomes time-stamped steps. Floating point is modelled over the
    reals and `math.Sqrt` is a parameter. */
module ShaperSteps {
  import opened ShaperMerge

  const STEPS_PER_MM: real := 100.0
  const MAX_ACCEL: real := 800.0
  const START_SPEED: real := 4.0

  ghost predicate IsSqrt(sqrt: real -> real) {
    forall v: real :: v >= 0.0 ==> sqrt(v) >= 0.0 && sqrt(v) * sqrt(v) == v
  }

  function Abs(v: real): (r: real)
    ensures r >= 0.0 && (r == v || r == -v)
  {
    if v < 0.0 then -v else v
  }

  /** Conversion to an integer type: towards zero. */
  function Truncate(v: real): int {
    if v >= 0.0 then v.Floor else -((-v).Floor)
  }

  // ---------------------------------------------------------------- step generation

  datatype Accumulator = Accumulator(emitted: nat, counter: real)

  /** One axis after `s` vector steps: the counter gains the ratio and emits a step when it reaches one. */
  function AxisAfter(ratio: real, s: nat): Accumulator {
    if s == 0 then Accumulator(0, 0.0)
    else
      var a := AxisAfter(ratio, s - 1);
      var c := a.counter + ratio;
      if c >= 1.0 then Accumulator(a.emitted + 1, c - 1.0) else Accumulator(a.emitted, c)
  }

  /** `s` times the ratio, by repeated addition. */
  ghost function Sum(ratio: real, s: nat): real {
    if s == 0 then 0.0 else Sum(ratio, s - 1) + ratio
  }

  lemma {:induction false} SumIsProduct(ratio: real, s: nat)
    ensures Sum(ratio, s) == s as real * ratio
  {
    if s > 0 {
      SumIsProduct(ratio, s - 1);
      assert s as real * ratio == (s - 1) as real * ratio + ratio;
    }
  }

  lemma {:induction false} EmittedAndCounter(ratio: real, s: nat)
    requires 0.0 <= ratio <= 1.0
    ensures var a := AxisAfter(ratio, s); 0.0 <= a.counter < 1.0 && a.emitted as real + a.counter == Sum(ratio, s)
  {
    if s > 0 {
      EmittedAndCounter(ratio, s - 1);
    }
  }

  /** After `s` vector steps an axis has emitted exactly floor(s * ratio) steps. */
  lemma EmittedIsFloor(ratio: real, s: nat)
    requires 0.0 <= ratio <= 1.0
    ensures AxisAfter(ratio, s).emitted == (s as real * ratio).Floor
  {
    EmittedAndCounter(ratio, s);
    SumIsProduct(ratio, s);
    FloorOf(AxisAfter(ratio, s).emitted, AxisAfter(ratio, s).counter, Sum(ratio, s));
  }

  lemma FloorOf(n: int, frac: real, v: real)
    requires 0.0 <= frac < 1.0 && n as real + frac == v
    ensures v.Floor == n
  {
  }

  /** So a move ends less than two steps short of the commanded distance of an axis, and never beyond. */
  lemma EndsWithinTwoSteps(total: real, dist: real, ratio: real, n: nat)
    requires 0.0 <= dist <= total && total > 0.0 && ratio == dist / total && n == (total * STEPS_PER_MM).Floor
    ensures 0.0 <= ratio <= 1.0
    ensures STEPS_PER_MM * dist - 2.0 < AxisAfter(ratio, n).emitted as real <= STEPS_PER_MM * dist
  {
    ProductWindow(total, dist, ratio, n);
    EmittedIsFloor(ratio, n);
  }

  lemma ProductWindow(total: real, dist: real, ratio: real, n: nat)
    requires 0.0 <= dist <= total && total > 0.0 && ratio == dist / total && n == (total * STEPS_PER_MM).Floor
    ensures 0.0 <= ratio <= 1.0
    ensures n as real * ratio <= STEPS_PER_MM * dist
    ensures n as real * ratio >= STEPS_PER_MM * dist - 1.0
  {
    RatioBound(dist, total, ratio);
    Stretch(total, dist, ratio);
    AtMost(n as real, total * STEPS_PER_MM, ratio, STEPS_PER_MM * dist);
    AtLeast(n as real, total * STEPS_PER_MM - 1.0, ratio, STEPS_PER_MM * dist - ratio);
  }

  // (products are bounded by inequalities only, which is what the solver can chain)
  lemma Stretch(total: real, dist: real, ratio: real)
    requires ratio * total == dist
    ensures (total * STEPS_PER_MM) * ratio <= STEPS_PER_MM * dist
    ensures (total * STEPS_PER_MM - 1.0) * ratio >= STEPS_PER_MM * dist - ratio
  {
    var hi := total * STEPS_PER_MM;
    assert hi * ratio == 100.0 * (ratio * total);
    assert (hi - 1.0) * ratio == hi * ratio - ratio;
  }

  lemma AtMost(n: real, hi: real, ratio: real, bound: real)
    requires n <= hi && 0.0 <= ratio && hi * ratio <= bound
    ensures n * ratio <= bound
  {
    ScaleByRatio(n, hi, ratio);
  }

  lemma AtLeast(n: real, lo: real, ratio: real, bound: real)
    requires lo <= n && 0.0 <= ratio && lo * ratio >= bound
    ensures n * ratio >= bound
  {
    ScaleByRatio(lo, n, ratio);
  }

  lemma RatioBound(dist: real, total: real, ratio: real)
    requires 0.0 <= dist <= total && total > 0.0 && ratio == dist / total
    ensures 0.0 <= ratio <= 1.0 && ratio * total == dist
  {
  }

  lemma ScaleByRatio(a: real, b: real, ratio: real)
    requires a <= b && ratio >= 0.0
    ensures a * ratio <= b * ratio
  {
  }

  // ---------------------------------------------------------------- the velocity profile

  datatype Plan = Plan(total: real, steps: nat, accelSteps: int, vMax: real)

  function Diagonal(sqrt: real -> real, x: real, y: real): (total: real)
    requires IsSqrt(sqrt)
    ensures total >= 0.0
  {
    SquaresNonNegative(Abs(x), Abs(y));
    sqrt(Abs(x) * Abs(x) + Abs(y) * Abs(y))
  }

  function MakePlan(sqrt: real -> real, x: real, y: real, speed: real): Plan
    requires IsSqrt(sqrt)
  {
    var total := Diagonal(sqrt, x, y);
    var n := Truncate(total * STEPS_PER_MM);
    var accelSteps := RampSteps(speed);
    if accelSteps * 2 > n then
      var half := n / 2;
      Plan(total, n, half, sqrt(START_SPEED * START_SPEED + 2.0 * MAX_ACCEL * (half as real / STEPS_PER_MM)))
    else
      Plan(total, n, accelSteps, speed)
  }

  lemma SquaresNonNegative(a: real, b: real)
    ensures a * a >= 0.0 && b * b >= 0.0
  {
  }

  /** The clamped velocity of vector step `s`. */
  function Velocity(sqrt: real -> real, p: Plan, s: nat): real {
    var pos := s as real / STEPS_PER_MM;
    var v := if s < p.accelSteps then sqrt(START_SPEED * START_SPEED + 2.0 * MAX_ACCEL * pos)
             else if s >= p.steps - p.accelSteps then
               sqrt(START_SPEED * START_SPEED + 2.0 * MAX_ACCEL * (p.total - pos))
             else p.vMax;
    if v < START_SPEED then START_SPEED else v
  }

  function StepTicks(velocity: real): nat
    requires velocity >= START_SPEED
  {
    Truncate(1.0 / (velocity * STEPS_PER_MM) * CLOCK_SPEED)
  }

  lemma SquareOrder(a: real, b: real)
    requires b >= 0.0 && a * a <= b * b
    ensures a <= b
  {
    if a > b {
      assert a * a - b * b == (a - b) * (a + b);
      PositiveProduct(a - b, a + b);
    }
  }

  lemma PositiveProduct(a: real, b: real)
    requires a > 0.0 && b > 0.0
    ensures a * b > 0.0
  {
  }

  /** What the velocity plan keeps to, for a target speed of any size. */
  ghost predicate PlanFits(p: Plan, speed: real) {
    && p.steps as real <= p.total * STEPS_PER_MM < p.steps as real + 1.0
    && p.accelSteps * 2 <= p.steps
    && (p.accelSteps > 0 ==> 16.0 * p.accelSteps as real <= speed * speed - 16.0)
    && p.vMax * p.vMax <= 16.0 * p.accelSteps as real + 32.0
  }

  /** The vector steps to the target speed, before the distance caps them. */
  function RampSteps(speed: real): int {
    Truncate((speed * speed - START_SPEED * START_SPEED) / (2.0 * MAX_ACCEL) * STEPS_PER_MM)
  }

  lemma RampStepsBound(speed: real)
    ensures speed * speed < 16.0 * RampSteps(speed) as real + 32.0
    ensures RampSteps(speed) > 0 ==> 16.0 * RampSteps(speed) as real <= speed * speed - 16.0
  {
    var q := (speed * speed - START_SPEED * START_SPEED) / (2.0 * MAX_ACCEL) * STEPS_PER_MM;
    assert 16.0 * q == speed * speed - 16.0;
    assert q < Truncate(q) as real + 1.0 && (Truncate(q) > 0 ==> Truncate(q) as real <= q);
  }

  lemma CappedSpeed(sqrt: real -> real, half: nat)
    requires IsSqrt(sqrt)
    ensures var v := sqrt(START_SPEED * START_SPEED + 2.0 * MAX_ACCEL * (half as real / STEPS_PER_MM));
      v * v == 16.0 * half as real + 16.0
  {
    assert 2.0 * MAX_ACCEL * (half as real / STEPS_PER_MM) == 16.0 * half as real;
  }

  lemma PlanBound(sqrt: real -> real, x: real, y: real, speed: real)
    requires IsSqrt(sqrt)
    ensures PlanFits(MakePlan(sqrt, x, y, speed), speed)
    ensures MakePlan(sqrt, x, y, speed).total == Diagonal(sqrt, x, y)
  {
    var p := MakePlan(sqrt, x, y, speed);
    RampStepsBound(speed);
    if RampSteps(speed) * 2 > p.steps {
      CappedSpeed(sqrt, p.accelSteps);
    }
  }

  // ---------------------------------------------------------------- the law of motion

  /** The plan from distances and speed: the ramps end at the target speed if they fit into the distance, and otherwise
      meet in the middle at the speed they reach there. */
  lemma PlanIs(sqrt: real -> real, x: real, y: real, speed: real)
    requires IsSqrt(sqrt)
    ensures var p := MakePlan(sqrt, x, y, speed);
      && p.total >= 0.0 && p.total * p.total == x * x + y * y
      && p.steps as real <= p.total * STEPS_PER_MM < p.steps as real + 1.0
      && if RampSteps(speed) * 2 <= p.steps then p.accelSteps == RampSteps(speed) && p.vMax == speed
         else p.accelSteps == p.steps / 2 && p.vMax >= 0.0 && p.vMax * p.vMax == 16.0 + 16.0 * p.accelSteps as real
  {
    var p := MakePlan(sqrt, x, y, speed);
    SquareOfAbs(x);
    SquareOfAbs(y);
    SquaresNonNegative(Abs(x), Abs(y));
    if RampSteps(speed) * 2 > p.steps {
      CappedSpeed(sqrt, p.accelSteps);
    }
  }

  lemma SquareOfAbs(v: real)
    ensures Abs(v) * Abs(v) == v * v
  {
    if v < 0.0 {
      NegatedSquare(v);
    }
  }

  lemma NegatedSquare(v: real)
    ensures -v * -v == v * v
  {
  }

  /** `n` steps of the ramp are those after which the square of the speed, which grows by 16 a step, has not yet
      passed that of the target. */
  lemma RampStepsAre(speed: real)
    ensures var n := RampSteps(speed);
      && (speed * speed >= 16.0 ==> n >= 0 && 16.0 + 16.0 * n as real <= speed * speed < 32.0 + 16.0 * n as real)
      && (speed * speed < 16.0 ==> -1 <= n <= 0)
  {
    var q := (speed * speed - START_SPEED * START_SPEED) / (2.0 * MAX_ACCEL) * STEPS_PER_MM;
    assert 16.0 * q == speed * speed - 16.0;
    SquaresNonNegative(speed, speed);
  }

  lemma SquareRoot(sqrt: real -> real, w: real)
    requires IsSqrt(sqrt) && w >= 16.0
    ensures var v := sqrt(w); v >= START_SPEED && v * v == w
  {
    SquareOrder(START_SPEED, sqrt(w));
  }

  /** The velocity of every vector step: from 4 mm/s its square grows by 16 a step up the one ramp, and falls by as much
      down the other, with 16 at the end of the distance. Between the ramps it is that of the plan. */
  lemma MotionLaw(sqrt: real -> real, p: Plan, speed: real, s: nat)
    requires IsSqrt(sqrt) && PlanFits(p, speed) && s < p.steps
    ensures var v := Velocity(sqrt, p, s);
      if s < p.accelSteps then v >= 0.0 && v * v == 16.0 + 16.0 * s as real
      else if s >= p.steps - p.accelSteps then
        v >= 0.0 && v * v == 16.0 + 16.0 * (STEPS_PER_MM * p.total - s as real)
      else v == if p.vMax < START_SPEED then START_SPEED else p.vMax
  {
    var pos := s as real / STEPS_PER_MM;
    if s < p.accelSteps {
      assert 2.0 * MAX_ACCEL * pos == 16.0 * s as real;
      SquareRoot(sqrt, 16.0 + 16.0 * s as real);
    } else if s >= p.steps - p.accelSteps {
      assert 2.0 * MAX_ACCEL * (p.total - pos) == 16.0 * (STEPS_PER_MM * p.total - s as real);
      SquareRoot(sqrt, 16.0 + 16.0 * (STEPS_PER_MM * p.total - s as real));
    }
  }

  /** A move is never faster than its target speed, but for what one step adds at the top of the braking ramp. */
  lemma TargetIsTheLimit(sqrt: real -> real, x: real, y: real, speed: real, p: Plan, s: nat)
    requires IsSqrt(sqrt) && p == MakePlan(sqrt, x, y, speed) && s < p.steps && speed * speed >= 16.0
    ensures var v := Velocity(sqrt, p, s); START_SPEED <= v && v * v < speed * speed + 16.0
  {
    PlanBound(sqrt, x, y, speed);
    PlanLimit(sqrt, x, y, speed);
    LimitOfPlan(sqrt, p, speed, s);
  }

  lemma LimitOfPlan(sqrt: real -> real, p: Plan, speed: real, s: nat)
    requires IsSqrt(sqrt) && PlanFits(p, speed) && s < p.steps
    requires p.vMax * p.vMax <= speed * speed && speed * speed >= 16.0
    ensures var v := Velocity(sqrt, p, s); START_SPEED <= v && v * v < speed * speed + 16.0
  {
    MotionLaw(sqrt, p, speed, s);
    RampLimit(p, speed, s);
  }

  lemma RampLimit(p: Plan, speed: real, s: nat)
    requires PlanFits(p, speed) && s < p.steps
    ensures s < p.accelSteps ==> 16.0 + 16.0 * s as real < speed * speed + 16.0
    ensures s >= p.steps - p.accelSteps ==> 16.0 <= 16.0 + 16.0 * (STEPS_PER_MM * p.total - s as real)
    ensures s >= p.steps - p.accelSteps && p.accelSteps > 0 ==>
              16.0 + 16.0 * (STEPS_PER_MM * p.total - s as real) < speed * speed + 16.0
  {
  }

  lemma PlanLimit(sqrt: real -> real, x: real, y: real, speed: real)
    requires IsSqrt(sqrt) && speed * speed >= 16.0
    ensures MakePlan(sqrt, x, y, speed).vMax * MakePlan(sqrt, x, y, speed).vMax <= speed * speed
  {
    var p := MakePlan(sqrt, x, y, speed);
    PlanIs(sqrt, x, y, speed);
    RampStepsAre(speed);
  }

  /** `n` is the whole ticks of 16 MHz in which a hundredth of a millimetre passes at velocity `v`. */
  predicate StepTime(v: real, n: int) {
    v > 0.0 && n as real <= 160000.0 / v < n as real + 1.0
  }

  lemma StepTicksAre(v: real)
    requires v >= START_SPEED
    ensures StepTime(v, StepTicks(v))
  {
    assert 1.0 / (v * STEPS_PER_MM) * CLOCK_SPEED == 160000.0 / v;
  }

  const TOP_SPEED: real := 160000.0

  /** The square of the velocity of the first step of the deceleration. */
  function PeakSquare(p: Plan): real {
    16.0 + 16.0 * (p.total * STEPS_PER_MM - (p.steps - p.accelSteps) as real)
  }

  /** What a caller can tell from speed and distance: neither the peak of the ramps nor the velocity between them
      is above 160 m/s. */
  predicate Slow(p: Plan) {
    && (p.accelSteps > 0 ==> PeakSquare(p) <= TOP_SPEED * TOP_SPEED)
    && (p.steps > 0 && (p.accelSteps <= 0 || p.accelSteps * 2 < p.steps) ==> p.vMax <= TOP_SPEED)
  }

  lemma SqrtOrder(sqrt: real -> real, v: real, bound: real)
    requires IsSqrt(sqrt) && v >= 0.0 && bound >= 0.0
    ensures sqrt(v) <= bound <==> v <= bound * bound
  {
    if v <= bound * bound {
      SquareOrder(sqrt(v), bound);
    } else if sqrt(v) <= bound {
      ScaleByRatio(sqrt(v), bound, sqrt(v));
      ScaleByRatio(sqrt(v), bound, bound);
      assert false;
    }
  }

  /** The square of the velocity of a step of a ramp. */
  function RampSquare(p: Plan, s: nat): real {
    16.0 + 16.0 * (if s < p.accelSteps then s as real else p.total * STEPS_PER_MM - s as real)
  }

  lemma RampVelocity(sqrt: real -> real, p: Plan, speed: real, s: nat)
    requires IsSqrt(sqrt) && PlanFits(p, speed) && s < p.steps && (s < p.accelSteps || s >= p.steps - p.accelSteps)
    ensures RampSquare(p, s) >= 16.0
    ensures Velocity(sqrt, p, s) <= TOP_SPEED <==> RampSquare(p, s) <= TOP_SPEED * TOP_SPEED
  {
    var pos := s as real / STEPS_PER_MM;
    assert 2.0 * MAX_ACCEL * pos == 16.0 * s as real;
    assert 2.0 * MAX_ACCEL * (p.total - pos) == 16.0 * (p.total * STEPS_PER_MM - s as real);
    SqrtOrder(sqrt, RampSquare(p, s), TOP_SPEED);
  }

  lemma RampBelowPeak(p: Plan, speed: real, s: nat)
    requires PlanFits(p, speed) && s < p.steps && (s < p.accelSteps || s >= p.steps - p.accelSteps)
    ensures p.accelSteps > 0 && RampSquare(p, s) <= PeakSquare(p)
  {
  }

  /** Every vector step takes at least one tick if and only if the plan is slow. */
  lemma EveryStepTakesATickIff(sqrt: real -> real, p: Plan, speed: real)
    requires IsSqrt(sqrt) && PlanFits(p, speed)
    ensures (forall s: nat :: s < p.steps ==> StepTicks(Velocity(sqrt, p, s)) >= 1) <==> Slow(p)
  {
    if Slow(p) {
      forall s: nat | s < p.steps
        ensures StepTicks(Velocity(sqrt, p, s)) >= 1
      {
        SlowStep(sqrt, p, speed, s);
      }
    } else {
      var s := FastStep(sqrt, p, speed);
    }
  }

  lemma SlowStep(sqrt: real -> real, p: Plan, speed: real, s: nat)
    requires IsSqrt(sqrt) && PlanFits(p, speed) && Slow(p) && s < p.steps
    ensures StepTicks(Velocity(sqrt, p, s)) >= 1
  {
    if s < p.accelSteps || s >= p.steps - p.accelSteps {
      RampBelowPeak(p, speed, s);
      RampVelocity(sqrt, p, speed, s);
    }
    TicksAtLeastOne(Velocity(sqrt, p, s));
  }

  lemma FastStep(sqrt: real -> real, p: Plan, speed: real) returns (s: nat)
    requires IsSqrt(sqrt) && PlanFits(p, speed) && !Slow(p)
    ensures s < p.steps && StepTicks(Velocity(sqrt, p, s)) == 0
  {
    if p.accelSteps > 0 && PeakSquare(p) > TOP_SPEED * TOP_SPEED {
      s := p.steps - p.accelSteps;
      RampVelocity(sqrt, p, speed, s);
    } else {
      s := if p.accelSteps > 0 then p.accelSteps else 0;
    }
    TicksAtLeastOne(Velocity(sqrt, p, s));
  }

  const MAX_RAMP: int := 1599999998

  lemma ShortRampIsSlow(p: Plan, speed: real)
    requires PlanFits(p, speed) && p.accelSteps <= MAX_RAMP
    ensures Slow(p)
  {
    SquareOrder(p.vMax, TOP_SPEED);
  }

  /** A move is slow if its target speed is at most 159.999 m/s, and also, at any target speed, if it is no longer
      than 31 kilometres. */
  lemma SlowMoves(p: Plan, speed: real)
    requires PlanFits(p, speed)
    ensures Abs(speed) <= 159999.0 || p.total <= 31000000.0 ==> Slow(p)
  {
    if Abs(speed) <= 159999.0 {
      SpeedSquare(speed);
      ShortRampIsSlow(p, speed);
    } else if p.total <= 31000000.0 {
      ShortRampIsSlow(p, speed);
    }
  }

  lemma SpeedSquare(speed: real)
    requires Abs(speed) <= 159999.0
    ensures speed * speed <= 159999.0 * 159999.0
  {
    var a := Abs(speed);
    assert speed * speed == a * a;
    ScaleByRatio(a, 159999.0, a);
    ScaleByRatio(a, 159999.0, 159999.0);
  }

  /** A step takes no tick at all above a velocity of 160 m/s, and only then. */
  lemma TicksAtLeastOne(v: real)
    requires START_SPEED <= v
    ensures StepTicks(v) >= 1 <==> v <= TOP_SPEED
  {
    var w := v * STEPS_PER_MM;
    var q := 1.0 / w;
    assert q * w == 1.0 && q > 0.0;
    if v <= TOP_SPEED {
      ScaleByRatio(w, CLOCK_SPEED, q);
    } else {
      assert q * w - q * CLOCK_SPEED == q * (w - CLOCK_SPEED);
      PositiveProduct(q, w - CLOCK_SPEED);
    }
  }

  // ---------------------------------------------------------------- the ticks of a move

  /** Whether an axis steps in vector step `s`. */
  function Emits(ratio: real, s: nat): bool {
    AxisAfter(ratio, s).counter + ratio >= 1.0
  }

  /** The tick counter after `s` vector steps: it advances on those in which some axis steps. */
  function Now(sqrt: real -> real, p: Plan, rx: real, ry: real, s: nat): nat {
    if s == 0 then 0
    else
      Now(sqrt, p, rx, ry, s - 1)
      + if Emits(rx, s - 1) || Emits(ry, s - 1) then StepTicks(Velocity(sqrt, p, s - 1)) else 0
  }

  const LONGEST_STEP: nat := 40000

  lemma StepTicksBound(v: real)
    requires v >= START_SPEED
    ensures StepTicks(v) <= LONGEST_STEP
  {
    var w := v * STEPS_PER_MM;
    var q := 1.0 / w;
    assert q * w == 1.0 && q > 0.0;
    ScaleByRatio(400.0, w, q);
    assert q * CLOCK_SPEED == 40000.0 * (400.0 * q);
  }

  lemma {:induction false} NowBound(sqrt: real -> real, p: Plan, rx: real, ry: real, s: nat)
    ensures Now(sqrt, p, rx, ry, s) <= LONGEST_STEP * s
  {
    if s > 0 {
      NowBound(sqrt, p, rx, ry, s - 1);
      StepTicksBound(Velocity(sqrt, p, s - 1));
    }
  }

  /** The ticks on which an axis with ratio `r`, one of the two, steps. */
  function RawTicks(sqrt: real -> real, p: Plan, rx: real, ry: real, r: real, s: nat): seq<nat> {
    if s == 0 then []
    else RawTicks(sqrt, p, rx, ry, r, s - 1) + if Emits(r, s - 1) then [Now(sqrt, p, rx, ry, s)] else []
  }

  lemma {:induction false} RawTicksOrdered(sqrt: real -> real, p: Plan, rx: real, ry: real, r: real, s: nat)
    ensures var ts := RawTicks(sqrt, p, rx, ry, r, s);
      && |ts| == AxisAfter(r, s).emitted
      && (forall i :: 0 <= i < |ts| ==> ts[i] <= Now(sqrt, p, rx, ry, s))
      && (forall i, j :: 0 <= i < j < |ts| ==> ts[i] <= ts[j])
  {
    if s > 0 {
      RawTicksOrdered(sqrt, p, rx, ry, r, s - 1);
    }
  }

  lemma {:induction false} RawTicksRise(sqrt: real -> real, p: Plan, rx: real, ry: real, r: real, s: nat)
    requires r == rx || r == ry
    requires forall k: nat :: k < s ==> StepTicks(Velocity(sqrt, p, k)) >= 1
    ensures var ts := RawTicks(sqrt, p, rx, ry, r, s); forall i, j :: 0 <= i < j < |ts| ==> ts[i] < ts[j]
  {
    if s > 0 {
      RawTicksRise(sqrt, p, rx, ry, r, s - 1);
      RawTicksOrdered(sqrt, p, rx, ry, r, s - 1);
      assert StepTicks(Velocity(sqrt, p, s - 1)) >= 1;
    }
  }

  /** An axis steps in the vector steps in which the steps it is due, floor(s * ratio), grow by one. */
  lemma EmitsIff(ratio: real, s: nat)
    requires 0.0 <= ratio <= 1.0
    ensures ((s + 1) as real * ratio).Floor == (s as real * ratio).Floor + if Emits(ratio, s) then 1 else 0
  {
    EmittedIsFloor(ratio, s);
    EmittedIsFloor(ratio, s + 1);
  }

  /** Its next tick lies the ticks of that vector step, and of those since the last one in which the other axis alone
      stepped, behind its last one. */
  lemma {:induction false} TickOfStep(sqrt: real -> real, p: Plan, rx: real, ry: real, r: real, s: nat, n: nat)
    requires s < n && Emits(r, s)
    ensures var (ts, k) := (RawTicks(sqrt, p, rx, ry, r, n), AxisAfter(r, s).emitted);
      k < |ts| && ts[k] == Now(sqrt, p, rx, ry, s + 1)
  {
    if s < n - 1 {
      TickOfStep(sqrt, p, rx, ry, r, s, n - 1);
    } else {
      RawTicksOrdered(sqrt, p, rx, ry, r, s);
    }
  }

  /** The clock stands still while no axis steps, and otherwise advances by the time of a step at the velocity of the
      law of motion. */
  lemma ClockAdvances(sqrt: real -> real, p: Plan, rx: real, ry: real, s: nat)
    ensures var d := Now(sqrt, p, rx, ry, s + 1) - Now(sqrt, p, rx, ry, s);
      if Emits(rx, s) || Emits(ry, s) then StepTime(Velocity(sqrt, p, s), d) else d == 0
  {
    StepTicksAre(Velocity(sqrt, p, s));
  }

  /** No axis travels further than the diagonal. */
  lemma DiagonalDominates(sqrt: real -> real, x: real, y: real)
    requires IsSqrt(sqrt)
    ensures Abs(x) <= Diagonal(sqrt, x, y) && Abs(y) <= Diagonal(sqrt, x, y)
  {
    SquaresNonNegative(Abs(x), Abs(y));
    SquareOrder(Abs(x), Diagonal(sqrt, x, y));
    SquareOrder(Abs(y), Diagonal(sqrt, x, y));
  }
}
