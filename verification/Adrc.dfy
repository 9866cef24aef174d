/** The spindle speed controller (main/motor_control.c), an extended state observer with a proportional law,
    over real numbers: `z1` estimates the speed, `z2` the disturbance, `u` is the command. */
module Adrc {

  /** One millisecond. */
  const DT: real := 0.001

  const MAX_DUTY: nat := 2047

  datatype Gains = Gains(b0: real, omegaO: real, omegaC: real)

  function Zone(target: real): Gains {
    if target <= 150.0 then Gains(3500.0, 20.0, 2.5)
    else if target <= 750.0 then Gains(4500.0, 15.0, 1.2)
    else Gains(2000.0, 35.0, 5.0)
  }

  function Beta1(g: Gains): real { 2.0 * g.omegaO }
  function Beta2(g: Gains): real { g.omegaO * g.omegaO }

  /** `current` is the filtered speed, `raw` the last measured one, `on` the ticker's `spindle_on`. */
  datatype Loop = Loop(target: real, z1: real, z2: real, u: real, current: real, raw: real, on: bool)

  function Clamp(x: real): (r: real)
    ensures 0.0 <= r <= 1.0 && (0.0 <= x <= 1.0 ==> r == x) && (r == 0.0 ==> x <= 0.0) && (r == 1.0 ==> x >= 1.0)
  {
    if x > 1.0 then 1.0 else if x < 0.0 then 0.0 else x
  }

  /** The command before it is clamped. */
  function Command(l: Loop): real {
    var g := Zone(l.target);
    (g.omegaC * (l.target - l.z1) - l.z2) / g.b0
  }

  /** The observer, driven by a speed `y` and the command in force. */
  function Observe(l: Loop, y: real): Loop {
    var g := Zone(l.target);
    var err := l.z1 - y;
    l.(z1 := l.z1 + DT * (l.z2 + g.b0 * l.u - Beta1(g) * err), z2 := l.z2 + DT * (-Beta2(g) * err))
  }

  function Control(l: Loop, y: real): Loop {
    var o := Observe(l, y);
    o.(u := Clamp(Command(o)))
  }

  /** One run of the ticker; `rpm` is the speed that the pulse counter shows. */
  function Tick(l: Loop, rpm: real): Loop {
    if l.target <= 0.0 && !l.on then l
    else
      var m := l.(current := l.current * 0.8 + l.raw * 0.2, raw := rpm);
      if l.target <= 0.0 then
        var s := m.(z1 := 0.0, z2 := 0.0, u := 0.0);
        if s.current < 0.001 then s.(raw := 0.0, current := 0.0, on := false) else s
      else Control(m.(on := true), m.current)
  }

  function SetSpeed(l: Loop, rpm: real): Loop {
    l.(target := if rpm < 0.0 then 0.0 else rpm)
  }

  // ---------------------------------------------------------------- one step

  function Mean(c: real, a: real, b: real, x: real, t: real, y: real): real {
    c * x + a * t + b * y
  }

  /** The disturbance and gain terms cancel: the new estimate is a mean of the old one, the target and the
      measured speed, displaced by as much as the command in force differs from the one the law asks for. */
  lemma StepIsAMean(l: Loop, y: real)
    ensures var g := Zone(l.target); var a, b := DT * g.omegaC, DT * Beta1(g);
      && 0.0 < a && 0.0 < b && a + b < 1.0
      && Observe(l, y).z1 == Mean(1.0 - a - b, a, b, l.z1, l.target, y) + DT * g.b0 * (l.u - Command(l))
  {
    var g, w := Zone(l.target), Command(l);
    var a, b := DT * g.omegaC, DT * Beta1(g);
    Undivided(g.omegaC * (l.target - l.z1) - l.z2, g.b0);
    assert DT * (g.b0 * l.u) == DT * (g.b0 * (l.u - w)) + DT * (g.omegaC * (l.target - l.z1) - l.z2);
    assert DT * (g.omegaC * (l.target - l.z1)) == a * l.target - a * l.z1;
    assert DT * (Beta1(g) * (l.z1 - y)) == b * l.z1 - b * y;
  }

  lemma Undivided(n: real, d: real)
    requires d != 0.0
    ensures d * (n / d) == n
  {
  }

  lemma Scale(k: real, x: real, y: real)
    requires 0.0 <= k && x <= y
    ensures k * x <= k * y
  {
  }

  lemma MeanGrows(c: real, a: real, b: real, x: real, t: real, y: real, x': real, t': real, y': real)
    requires 0.0 < a && 0.0 < b && 0.0 < c && x <= x' && t <= t' && y <= y'
    ensures Mean(c, a, b, x, t, y) <= Mean(c, a, b, x', t', y')
  {
    Scale(c, x, x');
    Scale(a, t, t');
    Scale(b, y, y');
  }

  lemma MeanOfEqual(c: real, a: real, b: real, x: real, d: real)
    requires c + a + b == 1.0
    ensures Mean(c, a, b, x + d, x, x) == x + c * d
  {
    assert c * (x + d) == c * x + c * d;
    assert (c + a + b) * x == c * x + a * x + b * x;
  }

  lemma MeanBetween(c: real, a: real, b: real, x: real, t: real, y: real, lo: real, hi: real, below: real, above: real)
    requires 0.0 < a && 0.0 < b && 0.0 < c && c + a + b == 1.0
    requires lo - below <= x <= hi + above && lo <= t <= hi && lo <= y <= hi
    ensures lo - c * below <= Mean(c, a, b, x, t, y) <= hi + c * above
  {
    MeanGrows(c, a, b, lo + -below, lo, lo, x, t, y);
    MeanGrows(c, a, b, x, t, y, hi + above, hi, hi);
    MeanOfEqual(c, a, b, lo, -below);
    MeanOfEqual(c, a, b, hi, above);
  }

  // ---------------------------------------------------------------- whole runs

  datatype Event = Speed(rpm: real) | Ticked(rpm: real)

  function Apply(l: Loop, e: Event): Loop {
    match e
    case Speed(rpm) => SetSpeed(l, rpm)
    case Ticked(rpm) => Tick(l, rpm)
  }

  function Run(l: Loop, es: seq<Event>): Loop
    decreases |es|
  {
    if es == [] then l else Run(Apply(l, es[0]), es[1..])
  }

  function Positive(x: real): (r: real)
    ensures r >= 0.0 && r >= x
  {
    if x > 0.0 then x else 0.0
  }

  /** How far one event can push the estimate out of bounds that it left by `x`: what the command exceeds the
      law by (`sign` 1: it was clamped at 0) or falls short of it (`sign` -1: it was clamped at 1). */
  function Pushed(l: Loop, e: Event, sign: real, x: real): real {
    if e.Speed? || (l.target <= 0.0 && !l.on) then x
    else if l.target <= 0.0 then 0.0
    else Push(l, sign, x)
  }

  function Push(l: Loop, sign: real, x: real): real {
    var g := Zone(l.target);
    (1.0 - DT * g.omegaC - DT * Beta1(g)) * x + DT * g.b0 * Positive(sign * (l.u - Command(l)))
  }

  function Excess(l: Loop, es: seq<Event>, sign: real, x: real): real
    decreases |es|
  {
    if es == [] then x else Excess(Apply(l, es[0]), es[1..], sign, Pushed(l, es[0], sign, x))
  }

  predicate Within(l: Loop, lo: real, hi: real, below: real, above: real) {
    && 0.0 <= l.target && lo <= l.target <= hi && lo <= l.current <= hi && lo <= l.raw <= hi
    && 0.0 <= below && 0.0 <= above && lo - below <= l.z1 <= hi + above
  }

  predicate EventWithin(e: Event, lo: real, hi: real) {
    match e
    case Speed(rpm) => lo <= (if rpm < 0.0 then 0.0 else rpm) <= hi
    case Ticked(rpm) => lo <= rpm <= hi
  }

  lemma PushBounds(l: Loop, sign: real, x: real)
    requires 0.0 <= x && (sign == 1.0 || sign == -1.0)
    ensures var g := Zone(l.target); var c, d := 1.0 - DT * g.omegaC - DT * Beta1(g), DT * g.b0 * (l.u - Command(l));
      0.0 <= Push(l, sign, x) && c * x + sign * d <= Push(l, sign, x)
  {
    var g, v := Zone(l.target), l.u - Command(l);
    Scale(1.0 - DT * g.omegaC - DT * Beta1(g), 0.0, x);
    Scale(DT * g.b0, sign * v, Positive(sign * v));
    Scale(DT * g.b0, 0.0, Positive(sign * v));
  }

  lemma ControlWithin(l: Loop, y: real, lo: real, hi: real, below: real, above: real)
    requires Within(l, lo, hi, below, above) && lo <= y <= hi
    ensures 0.0 <= Push(l, -1.0, below) && 0.0 <= Push(l, 1.0, above)
    ensures lo - Push(l, -1.0, below) <= Control(l, y).z1 <= hi + Push(l, 1.0, above)
  {
    var g := Zone(l.target);
    var a, b := DT * g.omegaC, DT * Beta1(g);
    StepIsAMean(l, y);
    MeanBetween(1.0 - a - b, a, b, l.z1, l.target, y, lo, hi, below, above);
    PushBounds(l, 1.0, above);
    PushBounds(l, -1.0, below);
  }

  lemma TickKeepsWithin(l: Loop, rpm: real, lo: real, hi: real, below: real, above: real)
    requires Within(l, lo, hi, below, above) && lo <= rpm <= hi && l.target > 0.0
    ensures Within(Tick(l, rpm), lo, hi, Pushed(l, Ticked(rpm), -1.0, below), Pushed(l, Ticked(rpm), 1.0, above))
  {
    TickIsControl(l, rpm);
    SeenWithin(l, rpm, lo, hi);
    ControlWithin(l, Seen(l), lo, hi, below, above);
    assert Pushed(l, Ticked(rpm), -1.0, below) == Push(l, -1.0, below);
    assert Pushed(l, Ticked(rpm), 1.0, above) == Push(l, 1.0, above);
  }

  lemma SeenWithin(l: Loop, rpm: real, lo: real, hi: real)
    requires lo <= l.current <= hi && lo <= l.raw <= hi && l.target > 0.0
    ensures lo <= Seen(l) <= hi && Tick(l, rpm).current == Seen(l) && Tick(l, rpm).raw == rpm
  {
  }

  lemma EventKeepsWithin(l: Loop, e: Event, lo: real, hi: real, below: real, above: real)
    requires Within(l, lo, hi, below, above) && EventWithin(e, lo, hi)
    ensures Within(Apply(l, e), lo, hi, Pushed(l, e, -1.0, below), Pushed(l, e, 1.0, above))
  {
    if e.Ticked? && l.target > 0.0 {
      TickKeepsWithin(l, e.rpm, lo, hi, below, above);
    }
  }

  /** Over every run with any speed changes and measurements: the estimate stays between the least and the
      greatest of its start, the targets and the measured speeds, but for the accumulated clamping. */
  lemma {:induction false} RunWithin(l: Loop, es: seq<Event>, lo: real, hi: real, below: real, above: real)
    requires Within(l, lo, hi, below, above) && forall i :: 0 <= i < |es| ==> EventWithin(es[i], lo, hi)
    ensures Within(Run(l, es), lo, hi, Excess(l, es, -1.0, below), Excess(l, es, 1.0, above))
    decreases |es|
  {
    if es != [] {
      assert EventWithin(es[0], lo, hi);
      EventKeepsWithin(l, es[0], lo, hi, below, above);
      forall i | 0 <= i < |es| - 1 ensures EventWithin(es[1..][i], lo, hi) {
        assert es[1..][i] == es[i + 1];
      }
      RunWithin(Apply(l, es[0]), es[1..], lo, hi, Pushed(l, es[0], -1.0, below), Pushed(l, es[0], 1.0, above));
    }
  }

  /** Whether every tick of the run finds a command that does not exceed the law (`sign` 1) or does not fall
      short of it (`sign` -1). */
  predicate Unpushed(l: Loop, es: seq<Event>, sign: real)
    decreases |es|
  {
    es == [] ||
    ((es[0].Ticked? && l.target > 0.0 ==> sign * (l.u - Command(l)) <= 0.0) && Unpushed(Apply(l, es[0]), es[1..], sign))
  }

  lemma {:induction false} NoExcess(l: Loop, es: seq<Event>, sign: real)
    requires Unpushed(l, es, sign)
    ensures Excess(l, es, sign, 0.0) == 0.0
    decreases |es|
  {
    if es != [] {
      assert Pushed(l, es[0], sign, 0.0) == 0.0;
      NoExcess(Apply(l, es[0]), es[1..], sign);
    }
  }

  /** Without such a tick the bound is exact, also across changes of the target. */
  lemma {:induction false} EstimateInHull(l: Loop, es: seq<Event>, lo: real, hi: real)
    requires Within(l, lo, hi, 0.0, 0.0) && forall i :: 0 <= i < |es| ==> EventWithin(es[i], lo, hi)
    ensures Unpushed(l, es, 1.0) ==> Run(l, es).z1 <= hi
    ensures Unpushed(l, es, -1.0) ==> lo <= Run(l, es).z1
  {
    RunWithin(l, es, lo, hi, 0.0, 0.0);
    if Unpushed(l, es, 1.0) {
      NoExcess(l, es, 1.0);
    }
    if Unpushed(l, es, -1.0) {
      NoExcess(l, es, -1.0);
    }
  }

  /** So at constant target `Unpushed` says precisely that no command of the run was clamped at that end. */
  lemma {:induction false} UnpushedIffUnclamped(l: Loop, es: seq<Event>)
    requires l.target > 0.0 && Settled(l) && forall i :: 0 <= i < |es| ==> es[i].Ticked?
    ensures Unpushed(l, es, 1.0) <==> forall n :: 0 <= n < |es| ==> Command(Run(l, es[..n])) >= 0.0
    ensures Unpushed(l, es, -1.0) <==> forall n :: 0 <= n < |es| ==> Command(Run(l, es[..n])) <= 1.0
    decreases |es|
  {
    if es != [] {
      assert es[0].Ticked?;
      var t, rest := Apply(l, es[0]), es[1..];
      TickIsControl(l, es[0].rpm);
      forall i | 0 <= i < |rest| ensures rest[i].Ticked? {
        assert rest[i] == es[i + 1];
      }
      UnpushedIffUnclamped(t, rest);
      assert Run(l, es[..0]) == l;
      forall n | 0 <= n < |rest| ensures Run(t, rest[..n]) == Run(l, es[..n + 1]) {
        assert es[..n + 1][0] == es[0] && es[..n + 1][1..] == rest[..n];
      }
      assert forall n :: 0 < n < |es| ==> Run(l, es[..n]) == Run(t, rest[..n - 1]);
    }
  }

  // ---------------------------------------------------------------- the previous command decides

  /** An estimate above `m` whose disturbance estimate `d` keeps driving it up, at least as fast as the observer
      can pull it down. */
  predicate DrivenUp(w: real, x: real, d: real, m: real) {
    x > m ==> d - w * (x - m) >= 0.0
  }

  function NextX(w: real, x: real, d: real, y: real): real {
    x + DT * (d - 2.0 * w * (x - y))
  }

  function NextD(w: real, x: real, d: real, y: real): real {
    d - DT * (w * w) * (x - y)
  }

  /** With the command clamped, the observer keeps that relation: with `e = d - w (x - m)` it is
      `(1 - DT w) e + DT w^2 (m - y)` after the step. */
  lemma StaysDrivenUp(w: real, x: real, d: real, m: real, y: real)
    requires w == 20.0 || w == 15.0 || w == 35.0
    requires DrivenUp(w, x, d, m) && y <= m
    ensures DrivenUp(w, NextX(w, x, d, y), NextD(w, x, d, y), m)
  {
  }

  /** The disturbance estimate with the command that is clamped at that end. */
  function Drive(l: Loop, sign: real): real {
    sign * (l.z2 + if sign < 0.0 then Zone(l.target).b0 else 0.0)
  }

  /** `sign` 1: the estimate leaves the bound upwards, `sign` -1: downwards. */
  predicate Escaping(l: Loop, m: real, sign: real) {
    DrivenUp(Zone(l.target).omegaO, sign * l.z1, Drive(l, sign), sign * m)
  }

  predicate ClampedAt(l: Loop, sign: real) {
    if sign > 0.0 then Command(l) < 0.0 else Command(l) > 1.0
  }

  predicate Inside(l: Loop, m: real, sign: real) {
    sign * l.target <= sign * m && sign * l.current <= sign * m && sign * l.raw <= sign * m
  }

  /** Outside the bound the command is always clamped at that end. */
  lemma OutsideIsClamped(l: Loop, m: real, sign: real)
    requires sign == 1.0 || sign == -1.0
    requires Escaping(l, m, sign) && sign * l.target <= sign * m && sign * l.z1 > sign * m
    ensures ClampedAt(l, sign)
  {
    var g := Zone(l.target);
    Undivided(g.omegaC * (l.target - l.z1) - l.z2, g.b0);
  }

  /** The command in force is that of the law. */
  predicate Settled(l: Loop) {
    l.u == Clamp(Command(l))
  }

  /** The loop has been reset: there is neither command nor disturbance estimate. */
  predicate Resting(l: Loop) {
    l.u == 0.0 && l.z2 == 0.0
  }

  /** A tick whose command is not clamped at an end does not leave the bound at that end. */
  lemma UnclampedStaysInside(l: Loop, y: real, m: real, sign: real)
    requires sign == 1.0 || sign == -1.0
    requires Settled(l) && Escaping(l, m, sign) && sign * l.target <= sign * m && sign * y <= sign * m
    requires !ClampedAt(l, sign)
    ensures sign * Control(l, y).z1 <= sign * m
  {
    if sign * l.z1 > sign * m {
      OutsideIsClamped(l, m, sign);
    }
    MeanInside(l, y, m, sign);
    StepIsAMean(l, y);
    Scale(DT * Zone(l.target).b0, sign * (l.u - Command(l)), 0.0);
  }

  lemma MeanInside(l: Loop, y: real, m: real, sign: real)
    requires sign == 1.0 || sign == -1.0
    requires sign * l.z1 <= sign * m && sign * l.target <= sign * m && sign * y <= sign * m
    ensures var g := Zone(l.target); var a, b := DT * g.omegaC, DT * Beta1(g);
      sign * Mean(1.0 - a - b, a, b, l.z1, l.target, y) <= sign * m
  {
    var g := Zone(l.target);
    var a, b := DT * g.omegaC, DT * Beta1(g);
    MeanGrows(1.0 - a - b, a, b, sign * l.z1, sign * l.target, sign * y, sign * m, sign * m, sign * m);
    MeanOfEqual(1.0 - a - b, a, b, sign * m, 0.0);
  }

  /** The observer's step, seen from the end at which the command is clamped. */
  lemma ClampedStep(l: Loop, y: real, sign: real)
    requires (sign == 1.0 && l.u == 0.0) || (sign == -1.0 && l.u == 1.0)
    ensures var w, c := Zone(l.target).omegaO, Control(l, y);
      && c.target == l.target
      && sign * c.z1 == NextX(w, sign * l.z1, Drive(l, sign), sign * y)
      && Drive(c, sign) == NextD(w, sign * l.z1, Drive(l, sign), sign * y)
  {
  }

  lemma EscapingKept(l: Loop, y: real, m: real, sign: real)
    requires sign == 1.0 || sign == -1.0
    requires Settled(l) && Escaping(l, m, sign) && sign * l.target <= sign * m && sign * y <= sign * m
    ensures Escaping(Control(l, y), m, sign)
  {
    if ClampedAt(l, sign) {
      ClampedStep(l, y, sign);
      StaysDrivenUp(Zone(l.target).omegaO, sign * l.z1, Drive(l, sign), sign * m, sign * y);
    } else {
      UnclampedStaysInside(l, y, m, sign);
    }
  }

  function Seen(l: Loop): real {
    l.current * 0.8 + l.raw * 0.2
  }

  lemma TickIsControl(l: Loop, rpm: real)
    requires l.target > 0.0
    ensures var t, c := Tick(l, rpm), Control(l, Seen(l));
      t.z1 == c.z1 && t.z2 == c.z2 && t.u == c.u && t.target == l.target && t.on && Settled(t)
  {
    var m := l.(current := Seen(l), raw := rpm, on := true);
    assert Tick(l, rpm) == Control(m, m.current);
    assert Command(Observe(m, m.current)) == Command(Observe(l, m.current)) == Command(Tick(l, rpm));
  }

  lemma RestStaysInside(l: Loop, rpm: real, m: real, sign: real)
    requires sign == 1.0 || sign == -1.0
    requires l.target > 0.0 && Resting(l) && Inside(l, m, sign) && sign * l.z1 <= sign * m
    ensures var t := Tick(l, rpm); Settled(t) && t.target == l.target && sign * t.z1 <= sign * m
  {
    TickIsControl(l, rpm);
    var b := DT * Beta1(Zone(l.target));
    Scale(b, sign * Seen(l), sign * m);
    Scale(1.0 - b, sign * l.z1, sign * m);
  }

  /** The command in force is that of the law for the target `t` of the last tick, or the loop has been reset. */
  predicate Ruled(l: Loop, t: real) {
    Resting(l) || (t > 0.0 && Settled(l.(target := t)))
  }

  /** The target of the last tick that ran the controller; `t` is that of the last one before the run. */
  function LastTarget(l: Loop, es: seq<Event>, t: real): real
    decreases |es|
  {
    if es == [] then t
    else LastTarget(Apply(l, es[0]), es[1..], if es[0].Ticked? && l.target > 0.0 then l.target else t)
  }

  /** A tick does not find the target in another zone than the tick before, unless the loop was reset in between. */
  predicate ZoneKept(l: Loop, t: real) {
    l.target > 0.0 ==> Resting(l) || Zone(l.target) == Zone(t)
  }

  predicate ZonesKept(l: Loop, es: seq<Event>, t: real)
    decreases |es|
  {
    es == [] ||
    ((es[0].Ticked? ==> ZoneKept(l, t)) &&
     ZonesKept(Apply(l, es[0]), es[1..], if es[0].Ticked? && l.target > 0.0 then l.target else t))
  }

  predicate Bounded(l: Loop, t: real, m: real, sign: real) {
    && 0.0 <= l.target && Inside(l, m, sign)
    && if Resting(l) then sign * l.z1 <= sign * m
       else t > 0.0 && sign * t <= sign * m && Settled(l.(target := t)) && Escaping(l.(target := t), m, sign)
  }

  /** The observer does not look at the target, so within a zone it runs as it would for the old one. */
  lemma SameObserver(l: Loop, t: real, y: real)
    requires Zone(l.target) == Zone(t)
    ensures Control(l, y).z1 == Control(l.(target := t), y).z1 && Control(l, y).z2 == Control(l.(target := t), y).z2
  {
  }

  lemma {:induction false} TickKeepsBounded(l: Loop, t: real, rpm: real, m: real, sign: real)
    requires sign == 1.0 || sign == -1.0
    requires l.target > 0.0 && Bounded(l, t, m, sign) && ZoneKept(l, t) && sign * rpm <= sign * m
    ensures Bounded(Tick(l, rpm), l.target, m, sign)
  {
    var c := Tick(l, rpm);
    TickIsControl(l, rpm);
    TickInside(l, rpm, m, sign);
    assert c.(target := l.target) == c;
    if Resting(l) {
      RestStaysInside(l, rpm, m, sign);
      InsideEscaping(c, m, sign);
    } else {
      TickKeepsEscaping(l, t, rpm, m, sign);
    }
    RestingInside(c, m, sign);
  }

  lemma TickKeepsEscaping(l: Loop, t: real, rpm: real, m: real, sign: real)
    requires sign == 1.0 || sign == -1.0
    requires l.target > 0.0 && Zone(l.target) == Zone(t) && sign * t <= sign * m && sign * Seen(l) <= sign * m
    requires Settled(l.(target := t)) && Escaping(l.(target := t), m, sign)
    ensures Escaping(Tick(l, rpm), m, sign)
  {
    TickIsControl(l, rpm);
    SameObserver(l, t, Seen(l));
    EscapingKept(l.(target := t), Seen(l), m, sign);
    SameEscaping(Control(l.(target := t), Seen(l)), Tick(l, rpm), m, sign);
  }

  lemma InsideEscaping(l: Loop, m: real, sign: real)
    requires sign * l.z1 <= sign * m
    ensures Escaping(l, m, sign)
  {
  }

  lemma RestingInside(l: Loop, m: real, sign: real)
    requires (sign == 1.0 || sign == -1.0) && Escaping(l, m, sign)
    ensures Resting(l) ==> sign * l.z1 <= sign * m
  {
  }

  lemma TickInside(l: Loop, rpm: real, m: real, sign: real)
    requires sign == 1.0 || sign == -1.0
    requires l.target > 0.0 && Inside(l, m, sign) && sign * rpm <= sign * m
    ensures Inside(Tick(l, rpm), m, sign) && sign * Seen(l) <= sign * m
  {
  }

  lemma SameEscaping(a: Loop, b: Loop, m: real, sign: real)
    requires a.z1 == b.z1 && a.z2 == b.z2 && Zone(a.target) == Zone(b.target) && Escaping(a, m, sign)
    ensures Escaping(b, m, sign)
  {
  }

  lemma {:induction false} EventKeepsBounded(l: Loop, e: Event, t: real, m: real, sign: real)
    requires sign == 1.0 || sign == -1.0
    requires Bounded(l, t, m, sign) && (e.Ticked? ==> ZoneKept(l, t))
    requires sign * (if e.Speed? && e.rpm < 0.0 then 0.0 else e.rpm) <= sign * m
    ensures Bounded(Apply(l, e), if e.Ticked? && l.target > 0.0 then l.target else t, m, sign)
  {
    if e.Speed? {
      assert Apply(l, e).(target := t) == l.(target := t);
    } else if l.target > 0.0 {
      TickKeepsBounded(l, t, e.rpm, m, sign);
    }
  }

  lemma {:induction false} RunBounded(l: Loop, es: seq<Event>, t: real, lo: real, hi: real, sign: real)
    requires sign == 1.0 || sign == -1.0
    requires Bounded(l, t, if sign > 0.0 then hi else lo, sign) && ZonesKept(l, es, t)
    requires forall i :: 0 <= i < |es| ==> EventWithin(es[i], lo, hi)
    ensures Bounded(Run(l, es), LastTarget(l, es, t), if sign > 0.0 then hi else lo, sign)
    decreases |es|
  {
    if es != [] {
      assert EventWithin(es[0], lo, hi);
      EventKeepsBounded(l, es[0], t, if sign > 0.0 then hi else lo, sign);
      forall i | 0 <= i < |es| - 1 ensures EventWithin(es[1..][i], lo, hi) {
        assert es[1..][i] == es[i + 1];
      }
      RunBounded(Apply(l, es[0]), es[1..], if es[0].Ticked? && l.target > 0.0 then l.target else t, lo, hi, sign);
    }
  }

  lemma {:induction false} BoundedTick(l: Loop, t: real, rpm: real, m: real, sign: real)
    requires sign == 1.0 || sign == -1.0
    requires l.target > 0.0 && Bounded(l, t, m, sign) && ZoneKept(l, t)
    requires Resting(l) || !ClampedAt(l.(target := t), sign)
    ensures sign * Tick(l, rpm).z1 <= sign * m
  {
    TickIsControl(l, rpm);
    if Resting(l) {
      RestStaysInside(l, rpm, m, sign);
    } else {
      SameObserver(l, t, Seen(l));
      UnclampedStaysInside(l.(target := t), Seen(l), m, sign);
    }
  }

  /** A tick leaves the range `lo` to `hi` only if the command in force, that of `force`, was clamped at that end. */
  predicate Decides(r: Loop, force: Loop, rpm: real, lo: real, hi: real) {
    && (!ClampedAt(force, 1.0) ==> Tick(r, rpm).z1 <= hi)
    && (!ClampedAt(force, -1.0) ==> lo <= Tick(r, rpm).z1)
  }

  /** Through any number of ticks, stops and changes of speed with any measurements, as long as no tick finds the
      target in another zone than the one before: a tick leaves the range of start, targets and measured speeds
      upwards only if the command in force was clamped at 0, and downwards only if it was clamped at 1. */
  lemma {:induction false} CommandInForceDecides(l: Loop, es: seq<Event>, t: real, rpm: real, lo: real, hi: real)
    requires Within(l, lo, hi, 0.0, 0.0) && lo <= t <= hi && Ruled(l, t)
    requires ZonesKept(l, es + [Ticked(rpm)], t) && forall i :: 0 <= i < |es| ==> EventWithin(es[i], lo, hi)
    ensures var r := Run(l, es);
      r.target > 0.0 ==>
        if Resting(r) then lo <= Tick(r, rpm).z1 <= hi else Decides(r, r.(target := LastTarget(l, es, t)), rpm, lo, hi)
  {
    var r, last := Run(l, es), LastTarget(l, es, t);
    LastZoneKept(l, es, t, rpm);
    RunBounded(l, es, t, lo, hi, 1.0);
    RunBounded(l, es, t, lo, hi, -1.0);
    if r.target > 0.0 {
      if Resting(r) || !ClampedAt(r.(target := last), 1.0) {
        BoundedTick(r, last, rpm, hi, 1.0);
      }
      if Resting(r) || !ClampedAt(r.(target := last), -1.0) {
        BoundedTick(r, last, rpm, lo, -1.0);
      }
    }
  }

  lemma {:induction false} LastZoneKept(l: Loop, es: seq<Event>, t: real, rpm: real)
    requires ZonesKept(l, es + [Ticked(rpm)], t)
    ensures ZonesKept(l, es, t) && ZoneKept(Run(l, es), LastTarget(l, es, t))
    decreases |es|
  {
    if es == [] {
      assert es + [Ticked(rpm)] == [Ticked(rpm)];
    } else {
      assert (es + [Ticked(rpm)])[0] == es[0] && (es + [Ticked(rpm)])[1..] == es[1..] + [Ticked(rpm)];
      LastZoneKept(Apply(l, es[0]), es[1..], if es[0].Ticked? && l.target > 0.0 then l.target else t, rpm);
    }
  }

  lemma {:induction false} ConstantTarget(l: Loop, es: seq<Event>)
    requires l.target > 0.0 && forall i :: 0 <= i < |es| ==> es[i].Ticked?
    ensures ZonesKept(l, es, l.target) && LastTarget(l, es, l.target) == Run(l, es).target == l.target
    decreases |es|
  {
    if es != [] {
      assert es[0].Ticked?;
      TickIsControl(l, es[0].rpm);
      forall i | 0 <= i < |es| - 1 ensures es[1..][i].Ticked? {
        assert es[1..][i] == es[i + 1];
      }
      ConstantTarget(Apply(l, es[0]), es[1..]);
    }
  }

  /** In particular at constant target, from a reset or from any tick at that target. */
  lemma {:induction false} PreviousCommandDecides(l: Loop, es: seq<Event>, rpm: real, lo: real, hi: real)
    requires l.target > 0.0 && (Settled(l) || Resting(l)) && Within(l, lo, hi, 0.0, 0.0)
    requires forall i :: 0 <= i < |es| ==> es[i].Ticked? && lo <= es[i].rpm <= hi
    ensures var r := Run(l, es); Decides(r, r, rpm, lo, hi)
  {
    var r := Run(l, es);
    ConstantTarget(l, es);
    ConstantTarget(l, es + [Ticked(rpm)]);
    assert l.(target := l.target) == l && r.(target := l.target) == r;
    CommandInForceDecides(l, es, l.target, rpm, lo, hi);
  }

  /** A loop at rest: the ticker leaves it as it is for as long as it measures the target speed. */
  predicate Steady(l: Loop) {
    && l.on && 0.0 < l.u < 1.0 && l.target > 0.0
    && l.z1 == l.target == l.current == l.raw && l.z2 == -Zone(l.target).b0 * l.u
  }

  lemma SteadyStays(l: Loop)
    requires Steady(l)
    ensures Settled(l) && Tick(l, l.raw) == l
  {
    Undivided(-l.z2, Zone(l.target).b0);
    RestMeansTarget(l, l.target);
    TickIsControl(l, l.raw);
  }

  /** The first tick after a change of target moves it by what the two zones disagree on the command in force. */
  lemma ZoneChangeMoves(l: Loop, next: real)
    requires Steady(l) && next > 0.0
    ensures Run(l, [Speed(next), Ticked(l.raw)]).z1 == l.target + DT * (Zone(next).b0 - Zone(l.target).b0) * l.u
  {
    var m := SetSpeed(l, next);
    OneChange(l, next, l.raw);
    TickIsControl(m, l.raw);
    assert Seen(m) == m.z1;
    SteadyStep(m, Zone(l.target).b0);
  }

  lemma OneChange(l: Loop, next: real, rpm: real)
    ensures Run(l, [Speed(next), Ticked(rpm)]) == Tick(SetSpeed(l, next), rpm)
  {
    var m := SetSpeed(l, next);
    assert [Speed(next), Ticked(rpm)][1..] == [Ticked(rpm)] && [Ticked(rpm)][1..] == [];
    assert Run(l, [Speed(next), Ticked(rpm)]) == Run(m, [Ticked(rpm)]) == Tick(m, rpm);
  }

  lemma SteadyStep(m: Loop, b0: real)
    requires Seen(m) == m.z1 && m.z2 == -b0 * m.u
    ensures Control(m, Seen(m)).z1 == m.z1 + DT * (Zone(m.target).b0 - b0) * m.u
  {
    var b := Zone(m.target).b0;
    assert Control(m, Seen(m)).z1 == m.z1 + DT * (m.z2 + b * m.u);
    Difference(b, b0, m.u);
  }

  lemma Difference(a: real, b: real, u: real)
    ensures -b * u + a * u == (a - b) * u
  {
  }

  /** And the condition on the zones is exact: for any two different zones there is a loop at rest in the first one
      and a target in the second one so that the next tick leaves the range of both targets and everything measured,
      although the command in force is not clamped. */
  lemma ZoneChangeLeavesTheHull(from: real, to: real) returns (l: Loop, next: real)
    requires 0.0 < from && 0.0 < to && Zone(from) != Zone(to)
    ensures Steady(l) && Settled(l) && Tick(l, l.raw) == l && next > 0.0
    ensures Zone(l.target) == Zone(from) && Zone(next) == Zone(to)
    ensures var z := Run(l, [Speed(next), Ticked(l.raw)]).z1;
      (z > l.target && z > next) || (z < l.target && z < next)
  {
    var t;
    if from <= 150.0 {
      t, next := 150.0, if to <= 750.0 then 150.5 else 751.0;
    } else if from <= 750.0 {
      t, next := if to <= 150.0 then 150.5 else 750.0, if to <= 150.0 then 150.0 else 751.0;
    } else {
      t, next := 751.0, if to <= 150.0 then 150.0 else 750.0;
    }
    l := Loop(t, t, -Zone(t).b0 * 0.9, 0.9, t, t, true);
    SteadyStays(l);
    ZoneChangeMoves(l, next);
  }

  /** For instance when a loop at rest at 1000 rpm is slowed down to 500. */
  lemma SlowingDownLeavesTheHull(l: Loop)
    requires Steady(l) && l.target == 1000.0 && l.u == 0.5
    ensures Settled(l) && Tick(l, l.raw) == l
    ensures Run(l, [Speed(500.0), Ticked(l.raw)]).z1 == 1001.25
  {
    SteadyStays(l);
    ZoneChangeMoves(l, 500.0);
  }

  // ---------------------------------------------------------------- what the observer observes

  function Pow(q: real, n: nat): real {
    if n == 0 then 1.0 else q * Pow(q, n - 1)
  }

  /** `n * q^(n-1)` */
  function Slope(q: real, n: nat): real {
    if n == 0 then 0.0 else q * Slope(q, n - 1) + Pow(q, n - 1)
  }

  lemma {:induction false} SlopeIs(q: real, n: nat)
    requires n > 0
    ensures Slope(q, n) == n as real * Pow(q, n - 1)
  {
    if n > 1 {
      SlopeIs(q, n - 1);
      assert q * ((n - 1) as real * Pow(q, n - 2)) == (n - 1) as real * (q * Pow(q, n - 2));
    }
  }

  function Abs(x: real): (r: real)
    ensures r >= 0.0 && r >= x && r >= -x && (r == x || r == -x)
  {
    if x < 0.0 then -x else x
  }

  /** Successive states of the ticker at constant target. `fs[k]` is whatever else than the command changed the
      filtered speed during tick `k`: any run has its own `fs`. */
  predicate Ticking(ls: seq<Loop>, fs: seq<real>) {
    && |ls| == |fs| > 0 && ls[0].target > 0.0
    && forall k :: 0 < k < |ls| ==> TickTo(ls[k - 1], fs[k - 1], ls[k])
  }

  predicate TickTo(l: Loop, f: real, m: Loop) {
    m == Tick(l, m.raw) && Seen(m) == Seen(l) + DT * (f + Zone(l.target).b0 * l.u)
  }

  /** The error of the estimate, and the combination of both errors that belongs to the eigenvalue. */
  datatype Errors = Errors(speed: real, slow: real)

  function ErrorsOf(l: Loop, f: real): Errors {
    Errors(l.z1 - Seen(l), (l.z2 - f) - Zone(l.target).omegaO * (l.z1 - Seen(l)))
  }

  function Shrunk(q: real, e: Errors, drift: real): Errors {
    Errors(q * e.speed + DT * e.slow, q * e.slow - drift)
  }

  function Decayed(q: real, n: nat, e: Errors): Errors {
    Ramp(Pow(q, n), Slope(q, n), e)
  }

  function Factor(target: real): (q: real)
    ensures 0.0 < q < 1.0
  {
    1.0 - DT * Zone(target).omegaO
  }

  /** Both gains together make `q = 1 - DT omegaO` a double eigenvalue: a tick shrinks the errors by it, whatever
      the command is and whether or not it is clamped. */
  lemma ErrorStep(l: Loop, f: real, m: Loop, g: real)
    requires l.target > 0.0 && TickTo(l, f, m)
    ensures m.target == l.target && ErrorsOf(m, g) == Shrunk(Factor(l.target), ErrorsOf(l, f), g - f)
  {
    TickIsControl(l, m.raw);
  }

  lemma {:induction false} SameTarget(ls: seq<Loop>, fs: seq<real>, n: nat)
    requires Ticking(ls, fs) && n < |ls|
    ensures ls[n].target == ls[0].target
  {
    if n > 0 {
      SameTarget(ls, fs, n - 1);
      assert TickTo(ls[n - 1], fs[n - 1], ls[n]);
      TickIsControl(ls[n - 1], ls[n].raw);
    }
  }

  lemma ErrorStepAt(ls: seq<Loop>, fs: seq<real>, n: nat)
    requires Ticking(ls, fs) && 0 < n < |ls|
    ensures ErrorsOf(ls[n], fs[n]) == Shrunk(Factor(ls[0].target), ErrorsOf(ls[n - 1], fs[n - 1]), fs[n] - fs[n - 1])
  {
    SameTarget(ls, fs, n - 1);
    assert TickTo(ls[n - 1], fs[n - 1], ls[n]);
    ErrorStep(ls[n - 1], fs[n - 1], ls[n], fs[n]);
  }

  /** Under a constant disturbance the errors after `n` ticks, in closed form. */
  lemma {:induction false} ObserverErrors(ls: seq<Loop>, fs: seq<real>, n: nat)
    requires Ticking(ls, fs) && n < |ls| && forall k :: 0 <= k < |fs| ==> fs[k] == fs[0]
    ensures ErrorsOf(ls[n], fs[n]) == Decayed(Factor(ls[0].target), n, ErrorsOf(ls[0], fs[0]))
  {
    var q, e := Factor(ls[0].target), ErrorsOf(ls[0], fs[0]);
    if n == 0 {
      assert Decayed(q, 0, e) == e;
    } else {
      ObserverErrors(ls, fs, n - 1);
      ErrorStepAt(ls, fs, n);
      Unroll(q, n, e);
    }
  }

  lemma Expand(q: real, p: real, s: real, a: real, b: real)
    ensures q * (p * a + DT * (s * b)) + DT * (p * b) == (q * p) * a + DT * ((q * s + p) * b)
    ensures q * (p * b) == (q * p) * b
  {
    assert q * (p * a + DT * (s * b)) == q * (p * a) + DT * (q * (s * b));
    assert q * (p * a) == (q * p) * a && q * (s * b) == (q * s) * b;
    assert (q * s + p) * b == (q * s) * b + p * b;
  }

  lemma {:induction false} UnrollPow(q: real, n: nat)
    requires n > 0
    ensures Pow(q, n) == q * Pow(q, n - 1) && Slope(q, n) == q * Slope(q, n - 1) + Pow(q, n - 1)
  {
  }

  function Ramp(p: real, s: real, e: Errors): Errors {
    Errors(p * e.speed + DT * (s * e.slow), p * e.slow)
  }

  lemma ShrunkRamp(q: real, p: real, s: real, e: Errors)
    ensures Shrunk(q, Ramp(p, s, e), 0.0) == Ramp(q * p, q * s + p, e)
  {
    var d := Ramp(p, s, e);
    Expand(q, p, s, e.speed, e.slow);
    assert Shrunk(q, d, 0.0).speed == q * (p * e.speed + DT * (s * e.slow)) + DT * (p * e.slow);
    assert Ramp(q * p, q * s + p, e).speed == (q * p) * e.speed + DT * ((q * s + p) * e.slow);
    assert Shrunk(q, d, 0.0).slow == Ramp(q * p, q * s + p, e).slow;
  }

  lemma {:induction false} Unroll(q: real, n: nat, e: Errors)
    requires n > 0
    ensures Shrunk(q, Decayed(q, n - 1, e), 0.0) == Decayed(q, n, e)
  {
    var p, s := Pow(q, n - 1), Slope(q, n - 1);
    UnrollPow(q, n);
    ShrunkRamp(q, p, s, e);
    SameRamp(Pow(q, n), q * p, Slope(q, n), q * s + p, e);
  }

  lemma SameRamp(p: real, p': real, s: real, s': real, e: Errors)
    requires p == p' && s == s'
    ensures Ramp(p, s, e) == Ramp(p', s', e)
  {
  }

  /** `x` after `n` steps that shrink it by `q` and add at most `(1 - q) limit`. */
  predicate Fading(q: real, n: nat, start: real, limit: real, x: real) {
    Abs(x) <= Pow(q, n) * Abs(start) + limit
  }

  lemma {:induction false} StillFading(
      q: real, n: nat, start: real, limit: real, x: real, next: real, delta: real)
    requires 0.0 < q < 1.0 && Fading(q, n, start, limit, x)
    requires Abs(next - q * x) <= delta && q * limit + delta <= limit
    ensures Fading(q, n + 1, start, limit, next)
  {
    FadingStep(q, Pow(q, n), Pow(q, n + 1), Abs(start), limit, x, next, delta);
  }

  lemma FadingStep(q: real, p: real, p': real, a: real, limit: real, x: real, next: real, delta: real)
    requires 0.0 < q && p' == q * p && Abs(x) <= p * a + limit
    requires Abs(next - q * x) <= delta && q * limit + delta <= limit
    ensures Abs(next) <= p' * a + limit
  {
    ScaledAbs(q, x);
    Scale(q, Abs(x), p * a + limit);
    Spread(q, p * a, limit);
    Regroup(q, p, a);
    Added(next, q * x, p' * a, q * limit, delta, limit);
  }

  lemma Added(next: real, x: real, a: real, b: real, delta: real, limit: real)
    requires Abs(x) <= a + b && Abs(next - x) <= delta && b + delta <= limit
    ensures Abs(next) <= a + limit
  {
  }

  lemma Regroup(q: real, p: real, a: real)
    ensures q * (p * a) == (q * p) * a
  {
  }

  lemma ScaledAbs(q: real, x: real)
    requires q > 0.0
    ensures Abs(q * x) == q * Abs(x)
  {
    if x < 0.0 {
      Scale(q, x, 0.0);
    } else {
      Scale(q, 0.0, x);
    }
  }

  /** Under any disturbance that changes by at most `delta` per tick the error stays within what is left of its
      start and a multiple of `delta`. */
  lemma {:induction false} SlowErrorFades(ls: seq<Loop>, fs: seq<real>, n: nat, delta: real, limit: real)
    requires Ticking(ls, fs) && n < |ls| && forall k :: 0 < k < |fs| ==> Abs(fs[k] - fs[k - 1]) <= delta
    requires limit >= 0.0 && DT * Zone(ls[0].target).omegaO * limit >= delta
    ensures Fading(Factor(ls[0].target), n, ErrorsOf(ls[0], fs[0]).slow, limit, ErrorsOf(ls[n], fs[n]).slow)
  {
    var q, e := Factor(ls[0].target), ErrorsOf(ls[0], fs[0]);
    if n == 0 {
      assert Pow(q, 0) == 1.0;
    } else {
      SlowErrorFades(ls, fs, n - 1, delta, limit);
      ErrorStepAt(ls, fs, n);
      var x, next := ErrorsOf(ls[n - 1], fs[n - 1]).slow, ErrorsOf(ls[n], fs[n]).slow;
      assert next - q * x == -(fs[n] - fs[n - 1]);
      StillFading(q, n - 1, e.slow, limit, x, next, delta);
    }
  }

  predicate SpeedFading(q: real, n: nat, start: Errors, bound: real, x: real) {
    Abs(x) <= Decayed(q, n, Errors(Abs(start.speed), Abs(start.slow))).speed + bound
  }

  /** And so does the error of the estimate. */
  lemma {:induction false} SpeedErrorFades(ls: seq<Loop>, fs: seq<real>, n: nat, delta: real, limit: real, bound: real)
    requires Ticking(ls, fs) && n < |ls| && forall k :: 0 < k < |fs| ==> Abs(fs[k] - fs[k - 1]) <= delta
    requires limit >= 0.0 && DT * Zone(ls[0].target).omegaO * limit >= delta
    requires bound >= 0.0 && Zone(ls[0].target).omegaO * bound >= limit
    ensures SpeedFading(Factor(ls[0].target), n, ErrorsOf(ls[0], fs[0]), bound, ErrorsOf(ls[n], fs[n]).speed)
  {
    var q, e := Factor(ls[0].target), ErrorsOf(ls[0], fs[0]);
    if n == 0 {
      assert Decayed(q, 0, Errors(Abs(e.speed), Abs(e.slow))).speed == Abs(e.speed);
    } else {
      SpeedErrorFades(ls, fs, n - 1, delta, limit, bound);
      SlowErrorFades(ls, fs, n - 1, delta, limit);
      ErrorStepAt(ls, fs, n);
      StillSpeedFading(ls[0].target, n, e, ErrorsOf(ls[n - 1], fs[n - 1]), fs[n] - fs[n - 1], limit, bound);
    }
  }

  lemma {:induction false} StillSpeedFading(
      target: real, n: nat, e: Errors, x: Errors, drift: real, limit: real, bound: real)
    requires n > 0 && Zone(target).omegaO * bound >= limit
    requires Fading(Factor(target), n - 1, e.slow, limit, x.slow)
    requires SpeedFading(Factor(target), n - 1, e, bound, x.speed)
    ensures SpeedFading(Factor(target), n, e, bound, Shrunk(Factor(target), x, drift).speed)
  {
    var q, a := Factor(target), Errors(Abs(e.speed), Abs(e.slow));
    Unroll(q, n, a);
    SpeedStep(q, Zone(target).omegaO, x, drift, Decayed(q, n - 1, a), limit, bound);
  }

  lemma {:induction false} SpeedStep(q: real, w: real, x: Errors, drift: real, d: Errors, limit: real, bound: real)
    requires 0.0 < q < 1.0 && q == 1.0 - DT * w && w * bound >= limit
    requires Abs(x.speed) <= d.speed + bound && Abs(x.slow) <= d.slow + limit
    ensures Abs(Shrunk(q, x, drift).speed) <= Shrunk(q, d, 0.0).speed + bound
  {
    ScaledAbs(q, x.speed);
    Scale(q, Abs(x.speed), d.speed + bound);
    Spread(q, d.speed, bound);
    Remainder(q, w, bound, limit);
    Combined(q * x.speed, q * d.speed, q * bound, x.slow, d.slow, limit, bound);
  }

  lemma Spread(q: real, a: real, b: real)
    ensures q * (a + b) == q * a + q * b
  {
  }

  lemma Remainder(q: real, w: real, bound: real, limit: real)
    requires q == 1.0 - DT * w && w * bound >= limit
    ensures q * bound <= bound - DT * limit
  {
    assert q * bound == bound - DT * (w * bound);
  }

  lemma Combined(x: real, d: real, b: real, slow: real, dslow: real, limit: real, bound: real)
    requires Abs(x) <= d + b && b <= bound - DT * limit && Abs(slow) <= dslow + limit
    ensures Abs(x + DT * slow) <= d + DT * dslow + bound
  {
  }

  /** The filter: it lags behind speeds that change by at most `delta` per tick by no more than five times that,
      once its start has faded. */
  lemma {:induction false} FilterLag(ls: seq<Loop>, fs: seq<real>, n: nat, delta: real)
    requires Ticking(ls, fs) && n < |ls| && forall k :: 0 < k < |ls| ==> Abs(ls[k].raw - ls[k - 1].raw) <= delta
    requires delta >= 0.0
    ensures Fading(0.8, n, ls[0].raw - ls[0].current, 5.0 * delta, ls[n].raw - ls[n].current)
  {
    if n == 0 {
      assert Pow(0.8, 0) == 1.0;
    } else {
      FilterLag(ls, fs, n - 1, delta);
      SameTarget(ls, fs, n - 1);
      var l, m := ls[n - 1], ls[n];
      assert TickTo(l, fs[n - 1], m) && m.current == l.current * 0.8 + l.raw * 0.2;
      StillFading(0.8, n - 1, ls[0].raw - ls[0].current, 5.0 * delta, l.raw - l.current, m.raw - m.current, delta);
    }
  }

  /** A loop at rest with a command inside its range holds the target exactly, and only such a loop is at rest. */
  lemma RestMeansTarget(l: Loop, y: real)
    requires 0.0 < l.u < 1.0
    ensures var c := Control(l, y);
      c.z1 == l.z1 && c.z2 == l.z2 && c.u == l.u <==> y == l.z1 == l.target && l.z2 == -Zone(l.target).b0 * l.u
  {
    var g, c := Zone(l.target), Control(l, y);
    Undivided(g.omegaC * (l.target - l.z1) - l.z2, g.b0);
  }

  // ---------------------------------------------------------------- stopping

  const START: Loop := Loop(0.0, 0.0, 0.0, 0.0, 0.0, 0.0, false)

  /** A loop that is off commands nothing, estimates nothing and has seen nothing. */
  predicate Still(l: Loop) {
    !l.on ==> l.u == 0.0 && l.z1 == 0.0 && l.z2 == 0.0 && l.current == 0.0 && l.raw == 0.0
  }

  lemma {:induction false} RunKeepsStill(l: Loop, es: seq<Event>)
    requires Still(l)
    ensures Still(Run(l, es))
    decreases |es|
  {
    if es != [] {
      RunKeepsStill(Apply(l, es[0]), es[1..]);
    }
  }

  lemma {:induction false} RunInTurn(l: Loop, es: seq<Event>, fs: seq<Event>)
    ensures Run(l, es + fs) == Run(Run(l, es), fs)
    decreases |es|
  {
    if es == [] {
      assert es + fs == fs;
    } else {
      assert (es + fs)[1..] == es[1..] + fs;
      RunInTurn(Apply(l, es[0]), es[1..], fs);
    }
  }

  lemma TwoEvents(l: Loop, e: Event, f: Event)
    ensures Run(l, [e, f]) == Apply(Apply(l, e), f)
  {
    var m := Apply(l, e);
    assert [e, f][1..] == [f] && [f][1..] == [];
    assert Run(Apply(m, f), []) == Apply(m, f);
    assert Run(m, [f]) == Apply(m, f);
  }

  /** No events but ticks and speeds that stop. */
  predicate Stopping(es: seq<Event>) {
    forall i :: 0 <= i < |es| ==> es[i].Speed? ==> es[i].rpm <= 0.0
  }

  predicate Stopped(l: Loop) {
    Still(l) && l.target == 0.0 && l.u == 0.0 && l.z1 == 0.0 && l.z2 == 0.0
  }

  lemma {:induction false} StaysStopped(l: Loop, es: seq<Event>)
    requires Stopped(l) && Stopping(es)
    ensures Stopped(Run(l, es))
    decreases |es|
  {
    if es != [] {
      assert es[0].Speed? ==> es[0].rpm <= 0.0;
      StaysStopped(Apply(l, es[0]), es[1..]);
    }
  }

  /** Whatever has happened since the start: from the first tick after a speed of zero or less the command is zero,
      until another speed is set, whatever the ticks measure. */
  lemma StopsAtOnce(es: seq<Event>, v: real, rpm: real, fs: seq<Event>)
    requires v <= 0.0 && Stopping(fs)
    ensures Stopped(Run(START, es + [Speed(v), Ticked(rpm)] + fs))
  {
    var stop := [Speed(v), Ticked(rpm)];
    var l := Run(START, es);
    RunKeepsStill(START, es);
    TwoEvents(l, Speed(v), Ticked(rpm));
    RunInTurn(START, es, stop);
    RunInTurn(START, es + stop, fs);
    StaysStopped(Run(l, stop), fs);
  }

  /** A tick switches a stopped loop off exactly if the filtered speed is below 0.001. */
  lemma SwitchesOffIff(l: Loop, rpm: real)
    requires l.target <= 0.0 && l.on
    ensures Tick(l, rpm).on <==> Seen(l) >= 0.001
    ensures Tick(l, rpm).on ==> Tick(l, rpm).current == Seen(l) && Tick(l, rpm).raw == rpm
  {
  }

  /** Ticks at standstill. */
  function Standstill(n: nat): (es: seq<Event>)
    ensures |es| == n
  {
    seq(n, _ => Ticked(0.0))
  }

  lemma {:induction false} OffStaysOff(l: Loop, n: nat)
    requires l.target <= 0.0 && !l.on
    ensures Run(l, Standstill(n)) == l
  {
    if n > 0 {
      assert Standstill(n)[1..] == Standstill(n - 1);
      OffStaysOff(l, n - 1);
    }
  }

  /** The filtered speed falls by a fifth a tick. */
  lemma {:induction false} RunsDown(l: Loop, n: nat)
    requires l.target <= 0.0 && l.on && l.raw == 0.0
    ensures var r := Run(l, Standstill(n));
      r.on && n > 0 ==> r.current == Pow(0.8, n) * l.current && r.current >= 0.001
    decreases n
  {
    if n > 0 {
      var m := Tick(l, 0.0);
      assert Standstill(n)[0] == Ticked(0.0) && Standstill(n)[1..] == Standstill(n - 1);
      if m.on {
        assert Run(m, Standstill(0)) == m && Pow(0.8, 0) == 1.0;
        RunsDown(m, n - 1);
        UnrollPow(0.8, n);
        RegroupCurrent(Pow(0.8, n - 1), l.current);
      } else {
        OffStaysOff(m, n - 1);
      }
    }
  }

  lemma RegroupCurrent(p: real, c: real)
    ensures p * (c * 0.8 + 0.0 * 0.2) == (0.8 * p) * c
  {
  }

  lemma {:induction false} PowFalls(n: nat)
    ensures Pow(0.8, n) > 0.0 && Pow(0.8, n) * (4.0 + n as real) <= 4.0
  {
    if n > 0 {
      PowFalls(n - 1);
      assert n as real == (n - 1) as real + 1.0;
      FallsStep(Pow(0.8, n - 1), (n - 1) as real);
    }
  }

  lemma FallsStep(p: real, n: real)
    requires p > 0.0 && n >= 0.0 && p * (4.0 + n) <= 4.0
    ensures 0.8 * p > 0.0 && (0.8 * p) * (5.0 + n) <= 4.0
  {
    assert (0.8 * p) * (5.0 + n) == p * (4.0 + n) - 0.2 * (p * n);
    Scale(p, 0.0, n);
  }

  /** What is left of it. */
  lemma Share(l: Loop, n: nat) returns (p: real)
    requires l.target <= 0.0 && l.on && l.raw == 0.0 && n > 0
    ensures p > 0.0 && p * (4.0 + n as real) <= 4.0
    ensures var r := Run(l, Standstill(n)); r.on ==> r.current == p * l.current && r.current >= 0.001
  {
    RunsDown(l, n);
    PowFalls(n);
    p := Pow(0.8, n);
  }

  /** Held at standstill, a stopped loop is off after as many ticks as 4000 times its filtered speed. */
  lemma StandstillSwitchesOff(l: Loop, n: nat)
    requires l.target <= 0.0 && l.on && l.raw == 0.0 && n > 0 && n as real > 4000.0 * l.current - 4.0
    ensures !Run(l, Standstill(n)).on
  {
    var p := Share(l, n);
    var r := Run(l, Standstill(n));
    NotBelow(r.on, r.current, p, l.current, n as real);
  }

  lemma NotBelow(on: bool, current: real, p: real, c: real, n: real)
    requires p > 0.0 && p * (4.0 + n) <= 4.0 && n > 4000.0 * c - 4.0
    requires on ==> current == p * c && current >= 0.001
    ensures !on
  {
    var x := 4.0 + n - 4000.0 * c;
    PositiveProduct(p, x);
    assert p * x == p * (4.0 + n) - 4000.0 * (p * c);
  }

  lemma PositiveProduct(p: real, x: real)
    requires p > 0.0 && x > 0.0
    ensures p * x > 0.0
  {
  }

  /** So after a stop, any loop at standstill is off in the end, and off for good. */
  lemma SwitchesOffInTheEnd(l: Loop) returns (n: nat)
    requires l.target <= 0.0
    ensures forall k: nat :: k >= n ==> !Run(l, Standstill(k)).on
  {
    if l.on {
      var m := Tick(l, 0.0);
      var most := 4000.0 * Abs(m.current);
      n := most.Floor + 2;
      forall k: nat | k >= n
        ensures !Run(l, Standstill(k)).on
      {
        assert Standstill(k)[0] == Ticked(0.0) && Standstill(k)[1..] == Standstill(k - 1);
        if m.on {
          StandstillSwitchesOff(m, k - 1);
        } else {
          OffStaysOff(m, k - 1);
        }
      }
    } else {
      n := 0;
      forall k: nat ensures !Run(l, Standstill(k)).on {
        OffStaysOff(l, k);
      }
    }
  }

  // ---------------------------------------------------------------- the ticker

  class Spindle {
    var b0: real
    var beta1: real
    var beta2: real
    var kp: real
    var z1: real
    var z2: real
    var u: real
    var target: real
    var current: real
    var raw: real
    var on: bool
    var duty: int
    const edges: real

    /** The gains are those of the zone of the target, and a spindle that is off gets no power. */
    ghost predicate Valid()
      reads this
    {
      var g := Zone(target);
      && edges > 0.0 && 0.0 <= target && b0 == g.b0 && beta1 == Beta1(g) && beta2 == Beta2(g) && kp == g.omegaC
      && Still(State()) && (!on ==> duty == 0)
    }

    ghost function State(): Loop
      reads this
    {
      Loop(target, z1, z2, u, current, raw, on)
    }

    /** The static initial values and `init_adrc_spindle_control`; `ppr` are the pulses per revolution. */
    constructor (ppr: real)
      requires ppr > 0.0
      ensures Valid() && State() == START && edges == ppr * 2.0
    {
      edges := ppr * 2.0;
      b0, beta1, beta2, kp := 3500.0, 2.0 * 20.0, 20.0 * 20.0, 2.5;
      z1, z2, u, target, current, raw, on, duty := 0.0, 0.0, 0.0, 0.0, 0.0, 0.0, false, 0;
    }

    /** `set_modifiers` */
    method SetModifiers()
      modifies `b0, `beta1, `beta2, `kp
      ensures var g := Zone(target); b0 == g.b0 && beta1 == Beta1(g) && beta2 == Beta2(g) && kp == g.omegaC
    {
      var omegaO, omegaC: real;
      if target <= 150.0 {
        b0, omegaO, omegaC := 3500.0, 20.0, 2.5;
      } else if target > 150.0 && target <= 750.0 {
        b0, omegaO, omegaC := 4500.0, 15.0, 1.2;
      } else {
        b0, omegaO, omegaC := 2000.0, 35.0, 5.0;
      }
      beta1 := 2.0 * omegaO;
      beta2 := omegaO * omegaO;
      kp := omegaC;
    }

    /** `set_adrc_spindle_speed` */
    method SetSpindleSpeed(rpm: real)
      requires Valid()
      modifies `target, `b0, `beta1, `beta2, `kp
      ensures Valid() && State() == SetSpeed(old(State()), rpm)
    {
      var speed := if rpm < 0.0 then 0.0 else rpm;
      if target == speed {
        return;
      }
      target := speed;
      SetModifiers();
    }

    /** `set_adrc_spindle_speed_ramp` */
    method SetSpindleSpeedRamp(rpm: real, ramp: real)
      requires Valid()
      modifies `target, `b0, `beta1, `beta2, `kp
      ensures Valid() && State() == SetSpeed(old(State()), if rpm > old(target) + ramp then old(target) + ramp else rpm)
    {
      var speed := if rpm > target + ramp then target + ramp else rpm;
      SetSpindleSpeed(speed);
    }

    /** The arithmetic of `adrc_spindle_ticker` */
    method Compute()
      requires Valid() && on
      modifies `z1, `z2, `u
      ensures Valid() && State() == Control(old(State()), current)
    {
      var err := z1 - current;
      z1 := z1 + DT * (z2 + b0 * u - beta1 * err);
      z2 := z2 + DT * (-beta2 * err);
      ghost var seen := Observe(old(State()), current);
      assert z1 == seen.z1 && z2 == seen.z2;
      var u0 := kp * (target - z1);
      u := (u0 - z2) / b0;
      assert u == Command(seen);
      if u > 1.0 {
        u := 1.0;
      }
      if u < 0.0 {
        u := 0.0;
      }
    }

    /** `adrc_spindle_ticker`; `pulses` is what the counter holds. The duty never leaves its 11 bits. */
    method Ticker(pulses: int)
      requires Valid()
      modifies this
      ensures Valid() && State() == Tick(old(State()), pulses as real / DT / edges * 60.0)
      ensures target > 0.0 ==> 0 <= duty <= MAX_DUTY && duty == (u * MAX_DUTY as real).Floor
      ensures target <= 0.0 ==> u == 0.0 && duty == 0
    {
      if target <= 0.0 && !on {
        return;
      }
      current := current * 0.8 + raw * 0.2;
      raw := pulses as real / DT / edges * 60.0;
      if target <= 0.0 && on {
        z1, z2, u, duty := 0.0, 0.0, 0.0, 0;
        if current < 0.001 {
          raw, current, on := 0.0, 0.0, false;
        }
        return;
      }
      on := true;
      Compute();
      duty := (u * MAX_DUTY as real).Floor;
    }
  }
}
