/**
 The scalar PID controller: a clamped integrator and a low-passed derivative. The derivative
 is the only term that divides by the step size; the filter keeps it bounded however small or
 uneven the steps are.
 */
module Pid {
  import opened Options

  /** A saturation range; a missing side is unbounded. */
  datatype Limits = Limits(lo: Option<real>, hi: Option<real>)

  const UNBOUNDED := Limits(None, None)

  function Clamp(v: real, l: Limits): real {
    if l.lo.Some? && v < l.lo.value then l.lo.value
    else if l.hi.Some? && v > l.hi.value then l.hi.value
    else v
  }

  predicate Within(v: real, l: Limits) {
    (l.lo.Some? ==> l.lo.value <= v) && (l.hi.Some? ==> v <= l.hi.value)
  }

  predicate Proper(l: Limits) {
    l.lo.Some? && l.hi.Some? ==> l.lo.value <= l.hi.value
  }

  /** Clamping into a proper range lands in it and moves the value no further than needed. */
  lemma ClampNearest(v: real, l: Limits, w: real)
    requires Proper(l)
    ensures Within(Clamp(v, l), l)
    ensures Within(v, l) ==> Clamp(v, l) == v
    ensures Within(w, l) ==> (v <= Clamp(v, l) <= w || w <= Clamp(v, l) <= v)
  {
  }

  datatype Gains = Gains(kp: real, ki: real, kd: real, limits: Limits, integralLimits: Limits, dTau: real,
                         onMeasurement: bool)
  datatype Memory = Memory(integral: real, prevD: Option<real>, dFiltered: real)
  datatype Input = Input(error: real, dt: real, measurement: Option<real>)

  /** What the derivative term differentiates. */
  function Source(g: Gains, i: Input): Option<real> {
    if g.onMeasurement then (if i.measurement.Some? then Some(-i.measurement.value) else None) else Some(i.error)
  }

  /** The first-order low pass of a source slope delta/dt with time constant tau. */
  function LowPass(d: real, delta: real, dt: real, tau: real): real
    requires dt > 0.0
  {
    var raw := delta / dt;
    var alpha := if tau > 0.0 then dt / (dt + tau) else 1.0;
    d + alpha * (raw - d)
  }

  function Integrate(integral: real, ki: real, error: real, dt: real): real {
    integral + ki * error * dt
  }

  function Output(kp: real, error: real, integral: real, kd: real, derivative: real): real {
    kp * error + integral + kd * derivative
  }

  /** Whether a step moves the derivative filter. */
  predicate Differentiates(g: Gains, m: Memory, i: Input) {
    Source(g, i).Some? && g.kd != 0.0 && m.prevD.Some? && i.dt > 0.0
  }

  function Stepped(g: Gains, m: Memory, i: Input): (out: (Memory, real)) {
    var integral := Clamp(Integrate(m.integral, g.ki, i.error, i.dt), g.integralLimits);
    var s := Source(g, i);
    var moves := Differentiates(g, m, i);
    var d := if moves then LowPass(m.dFiltered, s.value - m.prevD.value, i.dt, g.dTau) else m.dFiltered;
    (Memory(integral, if s.Some? then s else m.prevD, d),
     Clamp(Output(g.kp, i.error, integral, g.kd, if moves then d else 0.0), g.limits))
  }

  function Reset(g: Gains, value: real): Memory {
    Memory(Clamp(value, g.integralLimits), None, 0.0)
  }

  /** The memory after a reset and a run of steps. */
  function After(g: Gains, value: real, inputs: seq<Input>): Memory {
    if inputs == [] then Reset(g, value)
    else Stepped(g, After(g, value, inputs[..|inputs| - 1]), inputs[|inputs| - 1]).0
  }

  // ---- saturation ----

  /** In every state the integrator is inside its clamp, and every output inside the limits. */
  lemma {:induction false} Saturated(g: Gains, value: real, inputs: seq<Input>, i: Input)
    requires Proper(g.limits) && Proper(g.integralLimits)
    ensures Within(After(g, value, inputs).integral, g.integralLimits)
    ensures Within(Stepped(g, After(g, value, inputs), i).1, g.limits)
  {
    var m := After(g, value, inputs);
    if inputs != [] {
      Saturated(g, value, inputs[..|inputs| - 1], inputs[|inputs| - 1]);
    }
  }

  /** With kp and kd zero and one range for both clamps, the integrator is the command. */
  lemma VelocityForm(g: Gains, m: Memory, i: Input)
    requires g.kp == 0.0 && g.kd == 0.0 && g.limits == g.integralLimits && Proper(g.limits)
    ensures var (n, out) := Stepped(g, m, i); out == n.integral
  {
    hide Differentiates, LowPass, Source, Integrate;
    var integral := Clamp(Integrate(m.integral, g.ki, i.error, i.dt), g.integralLimits);
    assert Clamp(integral, g.limits) == integral;
  }

  // ---- the three terms ----

  /** The error over time so far. */
  function ErrorSum(inputs: seq<Input>): real {
    if inputs == [] then 0.0
    else ErrorSum(inputs[..|inputs| - 1]) + inputs[|inputs| - 1].error * inputs[|inputs| - 1].dt
  }

  /** Where the integrator would be if nothing clamped it. */
  function Summed(g: Gains, value: real, inputs: seq<Input>): real {
    value + g.ki * ErrorSum(inputs)
  }

  lemma SummedOne(g: Gains, value: real, inputs: seq<Input>, i: Input)
    ensures Integrate(Summed(g, value, inputs), g.ki, i.error, i.dt) == Summed(g, value, inputs + [i])
  {
    assert (inputs + [i])[..|inputs|] == inputs;
    var sum := ErrorSum(inputs);
    assert ErrorSum(inputs + [i]) == sum + i.error * i.dt;
  }

  /** While the clamp never bites, the integrator is its start plus ki times the error over time. */
  lemma {:induction false} IntegratorSums(g: Gains, value: real, inputs: seq<Input>)
    requires forall n :: 0 <= n <= |inputs| ==> Within(Summed(g, value, inputs[..n]), g.integralLimits)
    ensures After(g, value, inputs).integral == Summed(g, value, inputs)
  {
    assert Within(Summed(g, value, inputs[..|inputs|]), g.integralLimits) && inputs[..|inputs|] == inputs;
    if inputs == [] {
      assert Summed(g, value, []) == value;
    } else {
      hide Output, LowPass, Differentiates, Source, Summed, Integrate;
      var n := |inputs| - 1;
      forall k | 0 <= k <= n ensures Within(Summed(g, value, inputs[..n][..k]), g.integralLimits) {
        assert inputs[..n][..k] == inputs[..k];
      }
      IntegratorSums(g, value, inputs[..n]);
      SummedOne(g, value, inputs[..n], inputs[n]);
      assert inputs[..n] + [inputs[n]] == inputs;
    }
  }

  /** Without saturation and without a time constant the output is the textbook one: kp times the
      error, the integrator, and kd times the slope of the source since the last one, if there was
      one and time has passed. The first source after a reset gives no kick. */
  lemma Textbook(g: Gains, value: real, inputs: seq<Input>, i: Input)
    requires g.limits == g.integralLimits == UNBOUNDED && g.dTau <= 0.0
    ensures var m, s := After(g, value, inputs), Source(g, i);
            Stepped(g, m, i).1 == g.kp * i.error + Summed(g, value, inputs + [i])
              + if s.Some? && m.prevD.Some? && i.dt > 0.0 then g.kd * ((s.value - m.prevD.value) / i.dt) else 0.0
  {
    hide After, Summed, Integrate, LowPass, Source;
    IntegratorSums(g, value, inputs);
    SummedOne(g, value, inputs, i);
    var m, s := After(g, value, inputs), Source(g, i);
    if s.Some? && m.prevD.Some? && i.dt > 0.0 {
      NoLowPass(m.dFiltered, s.value - m.prevD.value, i.dt, g.dTau);
    }
  }

  /** With the derivative gain at zero the filter is never moved: it is at rest when the gain is
      turned on. */
  lemma {:induction false} GainOffRests(g: Gains, value: real, inputs: seq<Input>)
    requires g.kd == 0.0
    ensures After(g, value, inputs).dFiltered == 0.0
  {
    if inputs != [] {
      GainOffRests(g, value, inputs[..|inputs| - 1]);
      hide LowPass, Integrate, Output, Clamp;
    }
  }

  lemma NoLowPass(d: real, delta: real, dt: real, tau: real)
    requires dt > 0.0 && tau <= 0.0
    ensures LowPass(d, delta, dt, tau) == delta / dt
  {
  }

  /** The slope is taken from the last step that had a source. */
  lemma {:induction false} LastSource(g: Gains, value: real, inputs: seq<Input>, k: nat)
    requires k < |inputs| && Source(g, inputs[k]).Some?
    requires forall j :: k < j < |inputs| ==> Source(g, inputs[j]).None?
    ensures After(g, value, inputs).prevD == Source(g, inputs[k])
  {
    if k < |inputs| - 1 {
      LastSource(g, value, inputs[..|inputs| - 1], k);
    }
    hide LowPass, Integrate, Output, Clamp, Source;
  }

  // ---- the derivative ----

  /** The hidden state of the filter: a weighted average of the sources seen so far. */
  function Average(g: Gains, m: Memory): real
    requires m.prevD.Some?
  {
    Held(m.prevD.value, g.dTau, m.dFiltered)
  }

  function Held(p: real, tau: real, d: real): real {
    p - tau * d
  }

  ghost predicate SeenIn(g: Gains, inputs: seq<Input>, lo: real, hi: real) {
    forall k :: 0 <= k < |inputs| && Source(g, inputs[k]).Some? ==> lo <= Source(g, inputs[k]).value <= hi
  }

  ghost predicate Forward(inputs: seq<Input>) {
    forall k :: 0 <= k < |inputs| ==> inputs[k].dt > 0.0
  }

  predicate Sourced(g: Gains, inputs: seq<Input>, k: int) {
    0 <= k < |inputs| && Source(g, inputs[k]).Some?
  }

  /** Step j moves the derivative filter: it goes forward from an earlier source to its own. */
  predicate Moved(g: Gains, inputs: seq<Input>, j: int) {
    Sourced(g, inputs, j) && inputs[j].dt > 0.0 && exists i :: 0 <= i < j && Sourced(g, inputs, i)
  }

  /** Once the filter has moved, every step with a source goes forward in time. */
  ghost predicate Settles(g: Gains, inputs: seq<Input>) {
    forall j, k :: j < k && Moved(g, inputs, j) && Sourced(g, inputs, k) ==> inputs[k].dt > 0.0
  }

  /** One step moves the average towards the new source by alpha = dt / (dt + tau). */
  lemma AverageMoves(tau: real, dt: real, p: real, d: real, s: real)
    requires tau > 0.0 && dt > 0.0
    ensures var alpha, a := dt / (dt + tau), Held(p, tau, d);
            0.0 < alpha < 1.0 && Held(s, tau, LowPass(d, s - p, dt, tau)) == a + alpha * (s - a)
  {
    var raw, w := (s - p) / dt, dt + tau;
    var alpha := dt / w;
    var delta := s - p;
    assert raw * dt == delta;
    assert alpha * w == dt;
    assert alpha < 1.0;
    SlopeShare(alpha, w, dt, tau, raw);
    assert tau * (alpha * raw) == delta - alpha * delta;
    Rearrange(p, s, d, tau, alpha, raw);
  }

  lemma Rearrange(p: real, s: real, d: real, tau: real, alpha: real, raw: real)
    requires tau * (alpha * raw) == (s - p) - alpha * (s - p)
    ensures s - tau * (d + alpha * (raw - d)) == (p - tau * d) + alpha * (s - (p - tau * d))
  {
  }

  lemma SlopeShare(alpha: real, w: real, dt: real, tau: real, raw: real)
    requires alpha * w == dt && w == dt + tau
    ensures tau * (alpha * raw) == raw * dt - alpha * (raw * dt)
  {
    assert raw * (alpha * w) == raw * dt;
    assert raw * (alpha * w) == alpha * (raw * dt) + tau * (alpha * raw);
  }

  lemma AverageStep(tau: real, dt: real, p: real, d: real, s: real, lo: real, hi: real)
    requires tau > 0.0 && dt > 0.0 && lo <= s <= hi && lo <= Held(p, tau, d) <= hi
    ensures lo <= Held(s, tau, LowPass(d, s - p, dt, tau)) <= hi
  {
    hide *;
    AverageMoves(tau, dt, p, d, s);
    Convex(Held(p, tau, d), s, dt / (dt + tau), lo, hi);
  }

  lemma Convex(a: real, s: real, alpha: real, lo: real, hi: real)
    requires 0.0 < alpha < 1.0 && lo <= a <= hi && lo <= s <= hi
    ensures lo <= a + alpha * (s - a) <= hi
  {
    if a <= s {
      assert 0.0 <= alpha * (s - a) by { Product(alpha, s - a); }
      assert alpha * (s - a) <= s - a by { Product(1.0 - alpha, s - a); }
    } else {
      assert 0.0 <= alpha * (a - s) by { Product(alpha, a - s); }
      assert alpha * (a - s) <= a - s by { Product(1.0 - alpha, a - s); }
      assert alpha * (s - a) == -(alpha * (a - s));
    }
  }

  lemma Product(x: real, y: real)
    requires x >= 0.0 && y >= 0.0
    ensures x * y >= 0.0
  {
  }

  lemma MovedPrefix(g: Gains, inputs: seq<Input>, n: nat, j: int)
    requires n <= |inputs| && j < n
    ensures Moved(g, inputs[..n], j) <==> Moved(g, inputs, j)
  {
    assert forall i :: Sourced(g, inputs[..n], i) <==> i < n && Sourced(g, inputs, i);
  }

  /** A source is remembered as soon as there was one. */
  lemma {:induction false} Remembered(g: Gains, value: real, inputs: seq<Input>)
    ensures After(g, value, inputs).prevD.Some? <==> exists i :: Sourced(g, inputs, i)
  {
    if inputs != [] {
      var n := |inputs| - 1;
      Remembered(g, value, inputs[..n]);
      assert forall i :: Sourced(g, inputs[..n], i) <==> i < n && Sourced(g, inputs, i);
      assert Sourced(g, inputs, n) <==> Source(g, inputs[n]).Some?;
      hide LowPass, Integrate, Output, Clamp;
    }
  }

  /** A filter no step has moved is at zero. */
  lemma {:induction false} Unmoved(g: Gains, value: real, inputs: seq<Input>)
    requires forall j :: !Moved(g, inputs, j)
    ensures After(g, value, inputs).dFiltered == 0.0
  {
    if inputs != [] {
      var n := |inputs| - 1;
      forall j ensures !Moved(g, inputs[..n], j) {
        if j < n {
          MovedPrefix(g, inputs, n, j);
        }
      }
      Unmoved(g, value, inputs[..n]);
      Remembered(g, value, inputs[..n]);
      assert forall i :: Sourced(g, inputs[..n], i) ==> i < n && Sourced(g, inputs, i);
      assert !Moved(g, inputs, n);
      hide LowPass, Integrate, Output, Clamp;
    }
  }

  /** Source minus tau times the filtered slope is a running convex combination: it never
      leaves the range of the sources seen since the reset. */
  lemma {:induction false} AverageStaysIn(g: Gains, value: real, inputs: seq<Input>, lo: real, hi: real)
    requires g.dTau > 0.0 && g.kd != 0.0 && Settles(g, inputs) && SeenIn(g, inputs, lo, hi)
    ensures var m := After(g, value, inputs);
            if m.prevD.None? then m.dFiltered == 0.0
            else lo <= m.prevD.value <= hi && lo <= Average(g, m) <= hi
  {
    if inputs != [] {
      var n := |inputs| - 1;
      forall j, k | j < k && Moved(g, inputs[..n], j) && Sourced(g, inputs[..n], k) ensures inputs[..n][k].dt > 0.0 {
        MovedPrefix(g, inputs, n, j);
        assert Sourced(g, inputs, k);
      }
      AverageStaysIn(g, value, inputs[..n], lo, hi);
      var m, i := After(g, value, inputs[..n]), inputs[n];
      if Source(g, i).Some? && i.dt <= 0.0 {
        assert Sourced(g, inputs, n);
        forall j ensures !Moved(g, inputs[..n], j) {
          if j < n {
            MovedPrefix(g, inputs, n, j);
          }
        }
        Unmoved(g, value, inputs[..n]);
      }
      hide LowPass, Held, Integrate, Output, Clamp, Settles, Moved;
      if Differentiates(g, m, i) {
        AverageStep(g.dTau, i.dt, m.prevD.value, m.dFiltered, Source(g, i).value, lo, hi);
      } else if Source(g, i).Some? {
        HeldZero(Source(g, i).value, g.dTau);
      }
    }
  }

  lemma HeldZero(p: real, tau: real)
    ensures Held(p, tau, 0.0) == p
  {
  }

  /** The derivative is at most the spread of the sources over the time constant. */
  predicate Bounded(d: real, tau: real, lo: real, hi: real)
    requires tau > 0.0
  {
    -(hi - lo) / tau <= d <= (hi - lo) / tau
  }

  /** However small or uneven the steps, the filtered derivative never exceeds the spread of
      the sources over the time constant. */
  lemma DerivativeBounded(g: Gains, value: real, inputs: seq<Input>, lo: real, hi: real)
    requires g.dTau > 0.0 && g.kd != 0.0 && Settles(g, inputs) && SeenIn(g, inputs, lo, hi) && lo <= hi
    ensures Bounded(After(g, value, inputs).dFiltered, g.dTau, lo, hi)
  {
    AverageStaysIn(g, value, inputs, lo, hi);
    var m := After(g, value, inputs);
    hide After;
    if m.prevD.None? {
      HeldZero(0.0, g.dTau);
      Quotient(g.dTau, 0.0, 0.0, 0.0, hi - lo);
    } else {
      Quotient(g.dTau, m.dFiltered, m.prevD.value, Average(g, m), hi - lo);
    }
  }

  lemma Quotient(tau: real, d: real, p: real, a: real, r: real)
    requires tau > 0.0 && a == Held(p, tau, d) && -r <= p - a <= r
    ensures -r / tau <= d <= r / tau
  {
    var q := r / tau;
    assert q * tau == r;
    assert -r / tau == -q;
    if d > q {
      Bigger(d, q, tau);
    }
    if d < -q {
      Bigger(-q, d, tau);
    }
  }

  lemma Bigger(x: real, y: real, tau: real)
    requires x > y && tau > 0.0
    ensures tau * x > tau * y
  {
  }

  // ---- which cadences keep the bound ----

  /** Two runs step at the same times and have a source at the same steps. */
  ghost predicate SameCadence(g: Gains, a: seq<Input>, b: seq<Input>) {
    |a| == |b| && forall k :: 0 <= k < |a| ==> a[k].dt == b[k].dt && (Source(g, a[k]).Some? <==> Source(g, b[k]).Some?)
  }

  /** The input i with the source s, if it has one. */
  function Fed(g: Gains, i: Input, s: real): (r: Input)
    ensures r.dt == i.dt && Source(g, r) == if Source(g, i).Some? then Some(s) else None
  {
    if g.onMeasurement then i.(measurement := if i.measurement.Some? then Some(-s) else None) else i.(error := s)
  }

  function Pushed(g: Gains, dt: real, s: real): (r: Input)
    ensures r.dt == dt && Source(g, r) == Some(s)
  {
    if g.onMeasurement then Input(0.0, dt, Some(-s)) else Input(s, dt, None)
  }

  /** The low pass, multiplied out. */
  lemma LowPassTimes(d: real, delta: real, dt: real, tau: real)
    requires tau > 0.0 && dt > 0.0
    ensures LowPass(d, delta, dt, tau) * (dt + tau) == d * tau + delta
  {
    var w, raw := dt + tau, delta / dt;
    var alpha := dt / w;
    assert alpha * w == dt && raw * dt == delta;
    Distribute(d, raw, alpha, w, dt, tau);
  }

  lemma Distribute(d: real, raw: real, alpha: real, w: real, dt: real, tau: real)
    requires alpha * w == dt && w == dt + tau
    ensures (d + alpha * (raw - d)) * w == d * tau + raw * dt
  {
    assert (d + alpha * (raw - d)) * w == d * w + (alpha * w) * (raw - d);
  }

  lemma SignOfQuotient(x: real, w: real)
    requires w > 0.0
    ensures x * w > 0.0 ==> x > 0.0
    ensures x * w == 0.0 ==> x == 0.0
  {
  }

  /** A source that stays leaves a positive slope positive and no slope at zero; one that rises
      from rest makes it positive. */
  lemma LowPassSign(d: real, delta: real, dt: real, tau: real)
    requires tau > 0.0 && dt > 0.0
    ensures d > 0.0 && delta == 0.0 ==> LowPass(d, delta, dt, tau) > 0.0
    ensures d == 0.0 && delta == 0.0 ==> LowPass(d, delta, dt, tau) == 0.0
    ensures d == 0.0 && delta > 0.0 ==> LowPass(d, delta, dt, tau) > 0.0
  {
    LowPassTimes(d, delta, dt, tau);
    var l := LowPass(d, delta, dt, tau);
    hide LowPass;
    SignOfQuotient(l, dt + tau);
    if d > 0.0 {
      PositiveProduct(d, tau);
    }
  }

  lemma PositiveProduct(x: real, y: real)
    requires x > 0.0 && y > 0.0
    ensures x * y > 0.0
  {
  }

  /** While the source stays, so does what the filter remembers and the sign of its slope. */
  lemma {:induction false} Holds(g: Gains, value: real, xs: seq<Input>, n: nat, m: nat, s: real)
    requires g.dTau > 0.0 && n <= m <= |xs| && After(g, value, xs[..n]).prevD == Some(s)
    requires forall i :: n <= i < m ==> Source(g, xs[i]) == None || Source(g, xs[i]) == Some(s)
    ensures var a, b := After(g, value, xs[..n]), After(g, value, xs[..m]);
            b.prevD == Some(s) && (a.dFiltered > 0.0 ==> b.dFiltered > 0.0)
  {
    if n < m {
      Holds(g, value, xs, n, m - 1, s);
      var b, i := After(g, value, xs[..m - 1]), xs[m - 1];
      assert xs[..m] == xs[..m - 1] + [i];
      AfterStep(g, value, xs[..m - 1], i);
      if Differentiates(g, b, i) {
        LowPassSign(b.dFiltered, 0.0, i.dt, g.dTau);
      }
      hide LowPass, Integrate, Output, Clamp, After;
    }
  }

  /** One source throughout: nothing moves the slope. */
  lemma {:induction false} Flat(g: Gains, value: real, xs: seq<Input>, s: real)
    requires g.dTau > 0.0
    requires forall i :: 0 <= i < |xs| ==> Source(g, xs[i]) == None || Source(g, xs[i]) == Some(s)
    ensures var m := After(g, value, xs); m.dFiltered == 0.0 && (m.prevD == None || m.prevD == Some(s))
  {
    if xs != [] {
      var n := |xs| - 1;
      Flat(g, value, xs[..n], s);
      var m := After(g, value, xs[..n]);
      if Differentiates(g, m, xs[n]) {
        LowPassSign(0.0, 0.0, xs[n].dt, g.dTau);
      }
      hide LowPass, Integrate, Output, Clamp;
    }
  }

  /** From a positive slope at the low end, a short enough step to the high end passes the bound. */
  lemma Kick(d: real, r: real, tau: real) returns (eps: real)
    requires d > 0.0 && r > 0.0 && tau > 0.0
    ensures eps > 0.0 && LowPass(d, r, eps, tau) > r / tau
  {
    var c := d * tau * tau;
    assert c > 0.0 by {
      PositiveProduct(d, tau);
      PositiveProduct(d * tau, tau);
    }
    eps := c / (2.0 * r);
    var l, w, q := LowPass(d, r, eps, tau), eps + tau, r / tau;
    LowPassTimes(d, r, eps, tau);
    hide LowPass;
    assert r * eps == c / 2.0;
    assert q * tau == r;
    assert (l * w) * tau == (d * tau + r) * tau == c + r * tau;
    assert (q * w) * tau == r * w == r * eps + r * tau;
    if l <= q {
      Monotone(l, q, w);
      Monotone(l * w, q * w, tau);
    }
  }

  lemma Monotone(x: real, y: real, w: real)
    requires x <= y && w > 0.0
    ensures x * w <= y * w
  {
  }

  /** The sources that use a step back or in place: low before the filter moves, high until the
      offending step, low from there. */
  function Worst(g: Gains, inputs: seq<Input>, j: nat, k: nat, lo: real, hi: real): (xs: seq<Input>)
    ensures |xs| == |inputs|
    ensures forall i :: 0 <= i < |inputs| ==> xs[i] == Fed(g, inputs[i], if j <= i < k then hi else lo)
  {
    seq(|inputs|, i requires 0 <= i < |inputs| => Fed(g, inputs[i], if j <= i < k then hi else lo))
  }

  /** Before the first moving step the filter rests at the low end; that step lifts it. */
  lemma WorstRises(g: Gains, value: real, inputs: seq<Input>, j: nat, k: nat, lo: real, hi: real)
    requires g.dTau > 0.0 && g.kd != 0.0 && lo < hi && j < k < |inputs| && Moved(g, inputs, j)
    ensures var m := After(g, value, Worst(g, inputs, j, k, lo, hi)[..j + 1]); m.prevD == Some(hi) && m.dFiltered > 0.0
  {
    var xs := Worst(g, inputs, j, k, lo, hi);
    hide LowPass, Integrate, Output, Clamp, Worst, Fed, After;
    Flat(g, value, xs[..j], lo);
    Remembered(g, value, xs[..j]);
    var i :| 0 <= i < j && Sourced(g, inputs, i);
    assert Sourced(g, xs[..j], i);
    assert xs[..j + 1] == xs[..j] + [xs[j]];
    AfterStep(g, value, xs[..j], xs[j]);
    LowPassSign(0.0, hi - lo, xs[j].dt, g.dTau);
  }

  lemma WorstLeaves(g: Gains, value: real, inputs: seq<Input>, j: nat, k: nat, lo: real, hi: real)
    requires g.dTau > 0.0 && g.kd != 0.0 && lo < hi && j < k < |inputs|
    requires Moved(g, inputs, j) && Sourced(g, inputs, k) && inputs[k].dt <= 0.0
    ensures var m := After(g, value, Worst(g, inputs, j, k, lo, hi)); m.prevD == Some(lo) && m.dFiltered > 0.0
  {
    hide LowPass, Integrate, Output, Clamp, Fed, After, Moved, Stepped;
    var xs := Worst(g, inputs, j, k, lo, hi);
    WorstRises(g, value, inputs, j, k, lo, hi);
    WorstSources(g, inputs, j, k, lo, hi);
    hide Worst;
    Holds(g, value, xs, j + 1, k, hi);
    assert xs[..k + 1] == xs[..k] + [xs[k]];
    AfterStep(g, value, xs[..k], xs[k]);
    InPlace(g, After(g, value, xs[..k]), xs[k]);
    Holds(g, value, xs, k + 1, |xs|, lo);
    assert xs[..|xs|] == xs;
  }

  lemma WorstSources(g: Gains, inputs: seq<Input>, j: nat, k: nat, lo: real, hi: real)
    requires k < |inputs| && Sourced(g, inputs, k)
    ensures var xs := Worst(g, inputs, j, k, lo, hi);
            && (forall i :: j < i < k ==> Source(g, xs[i]) == None || Source(g, xs[i]) == Some(hi))
            && (forall i :: k < i < |inputs| ==> Source(g, xs[i]) == None || Source(g, xs[i]) == Some(lo))
            && Source(g, xs[k]) == Some(lo) && xs[k].dt == inputs[k].dt
  {
    hide Worst;
  }

  /** A step in place or back remembers its source and leaves the filter alone. */
  lemma InPlace(g: Gains, m: Memory, i: Input)
    requires i.dt <= 0.0 && Source(g, i).Some?
    ensures var n := Stepped(g, m, i).0; n.prevD == Source(g, i) && n.dFiltered == m.dFiltered
  {
  }

  lemma WorstFits(g: Gains, inputs: seq<Input>, j: nat, k: nat, lo: real, hi: real, last: Input)
    requires lo <= hi && Source(g, last) == Some(hi)
    ensures var xs := Worst(g, inputs, j, k, lo, hi); SameCadence(g, inputs, xs) && SeenIn(g, xs + [last], lo, hi)
  {
    hide Fed, Worst;
  }

  /** Sources and one more step that pass the bound on a cadence that does not settle. */
  lemma PassesTheBound(g: Gains, value: real, inputs: seq<Input>, lo: real, hi: real)
    returns (xs: seq<Input>, more: seq<Input>)
    requires g.dTau > 0.0 && g.kd != 0.0 && lo < hi && !Settles(g, inputs)
    ensures SameCadence(g, inputs, xs) && Forward(more) && SeenIn(g, xs + more, lo, hi)
    ensures !Bounded(After(g, value, xs + more).dFiltered, g.dTau, lo, hi)
  {
    var j, k :| j < k && Moved(g, inputs, j) && Sourced(g, inputs, k) && inputs[k].dt <= 0.0;
    xs := Worst(g, inputs, j, k, lo, hi);
    WorstLeaves(g, value, inputs, j, k, lo, hi);
    var m := After(g, value, xs);
    var eps := Kick(m.dFiltered, hi - lo, g.dTau);
    more := [Pushed(g, eps, hi)];
    AfterStep(g, value, xs, more[0]);
    hide LowPass, Integrate, Output, Clamp, Fed, Pushed, Worst, After, Moved, Settles, SameCadence, SeenIn;
    WorstFits(g, inputs, j, k, lo, hi, more[0]);
  }

  /** The bound holds for all sources in a range and all further positive steps exactly when,
      once the filter has moved, no step with a source stands still or goes back in time. */
  lemma BoundedIffSettles(g: Gains, value: real, inputs: seq<Input>, lo: real, hi: real)
    requires g.dTau > 0.0 && g.kd != 0.0 && lo < hi
    ensures Settles(g, inputs) <==>
            forall xs, more :: SameCadence(g, inputs, xs) && Forward(more) && SeenIn(g, xs + more, lo, hi) ==>
                                 Bounded(After(g, value, xs + more).dFiltered, g.dTau, lo, hi)
  {
    hide Settles, SameCadence, Forward, SeenIn, Bounded, After;
    if Settles(g, inputs) {
      forall xs, more | SameCadence(g, inputs, xs) && Forward(more) && SeenIn(g, xs + more, lo, hi)
        ensures Bounded(After(g, value, xs + more).dFiltered, g.dTau, lo, hi)
      {
        SettlesOn(g, inputs, xs, more);
        DerivativeBounded(g, value, xs + more, lo, hi);
      }
    } else {
      var xs, more := PassesTheBound(g, value, inputs, lo, hi);
    }
  }

  lemma SettlesOn(g: Gains, inputs: seq<Input>, xs: seq<Input>, more: seq<Input>)
    requires Settles(g, inputs) && SameCadence(g, inputs, xs) && Forward(more)
    ensures Settles(g, xs + more)
  {
    var all := xs + more;
    forall j, k | j < k && Moved(g, all, j) && Sourced(g, all, k) ensures all[k].dt > 0.0 {
      if k < |xs| {
        var i :| 0 <= i < j && Sourced(g, all, i);
        assert Sourced(g, inputs, i) && Sourced(g, inputs, j) && Sourced(g, inputs, k);
        assert Moved(g, inputs, j);
      }
    }
  }

  /** From a slope that is not negative, a short enough step over r raises it by r / (2 tau). */
  lemma Climb(d: real, r: real, tau: real) returns (eps: real)
    requires d >= 0.0 && r > 0.0 && tau > 0.0
    ensures eps > 0.0 && LowPass(d, r, eps, tau) >= d + r / tau / 2.0
  {
    var h := r / tau;
    assert h * tau == r;
    var top := d + h / 2.0;
    eps := r / (2.0 * top);
    assert eps * top == r / 2.0;
    var l, w := LowPass(d, r, eps, tau), eps + tau;
    LowPassTimes(d, r, eps, tau);
    hide LowPass;
    assert top * w == r / 2.0 + d * tau + h * tau / 2.0;
    assert l * w == top * w;
    if l < top {
      Bigger(top, l, w);
    }
  }

  /** Alternating a step in place with a short one drives the derivative past any limit. */
  lemma {:induction false} StepsInPlaceUnbounded(g: Gains, value: real, lo: real, hi: real, n: nat)
    returns (inputs: seq<Input>)
    requires g.dTau > 0.0 && g.kd != 0.0 && lo < hi
    ensures SeenIn(g, inputs, lo, hi) && forall k :: 0 <= k < |inputs| ==> inputs[k].dt >= 0.0
    ensures var m := After(g, value, inputs);
            m.prevD.Some? && m.dFiltered >= n as real * ((hi - lo) / g.dTau / 2.0)
  {
    hide LowPass, Integrate, Output, Clamp, Pushed;
    var h := (hi - lo) / g.dTau / 2.0;
    if n == 0 {
      inputs := [Pushed(g, 1.0, hi)];
      assert inputs[..0] == [];
    } else {
      var before := StepsInPlaceUnbounded(g, value, lo, hi, n - 1);
      var m := After(g, value, before);
      assert (n - 1) as real * h >= 0.0 by { Product((n - 1) as real, h); }
      var eps := Climb(m.dFiltered, hi - lo, g.dTau);
      var down, up := Pushed(g, 0.0, lo), Pushed(g, eps, hi);
      AfterStep(g, value, before, down);
      AfterStep(g, value, before + [down], up);
      inputs := before + [down] + [up];
      assert n as real * h == (n - 1) as real * h + h;
    }
  }

  lemma AfterStep(g: Gains, value: real, inputs: seq<Input>, i: Input)
    ensures After(g, value, inputs + [i]) == Stepped(g, After(g, value, inputs), i).0
  {
    assert (inputs + [i])[..|inputs|] == inputs;
  }

  /** With the setpoint held, differentiating the measurement and differentiating the error
      are the same controller. */
  lemma {:induction false} MeasurementModeAgrees(g: Gains, value: real, inputs: seq<Input>, setpoint: real)
    requires forall k :: 0 <= k < |inputs| ==> inputs[k].measurement == Some(setpoint - inputs[k].error)
    ensures var e, m := After(g.(onMeasurement := false), value, inputs),
            After(g.(onMeasurement := true), value, inputs);
            && e.integral == m.integral && e.dFiltered == m.dFiltered && e.prevD.Some? == m.prevD.Some?
            && (e.prevD.Some? ==> m.prevD.value == e.prevD.value - setpoint)
  {
    if inputs != [] {
      var n := |inputs| - 1;
      MeasurementModeAgrees(g, value, inputs[..n], setpoint);
      var a, b := g.(onMeasurement := false), g.(onMeasurement := true);
      var e, m, i := After(a, value, inputs[..n]), After(b, value, inputs[..n]), inputs[n];
      hide LowPass, Integrate, Output, Clamp;
      if Differentiates(a, e, i) {
        assert Source(a, i).value - e.prevD.value == Source(b, i).value - m.prevD.value;
      }
    }
  }

  // ---- the controller in place ----

  class PID {
    var kp: real
    var ki: real
    var kd: real
    var limits: Limits
    var integralLimits: Limits
    var dTau: real
    const onMeasurement: bool
    var integral: real
    var prevD: Option<real>
    var dFiltered: real

    function Params(): Gains
      reads this
    {
      Gains(kp, ki, kd, limits, integralLimits, dTau, onMeasurement)
    }

    function State(): Memory
      reads this
    {
      Memory(integral, prevD, dFiltered)
    }

    /** A live command is never stranded outside its range. */
    ghost predicate Valid()
      reads this
    {
      Proper(integralLimits) ==> Within(integral, integralLimits)
    }

    constructor (g: Gains, initial: real)
      ensures Valid() && Params() == g && State() == Reset(g, initial)
    {
      kp, ki, kd, dTau, onMeasurement := g.kp, g.ki, g.kd, g.dTau, g.onMeasurement;
      limits, integralLimits := g.limits, g.integralLimits;
      integral := Clamp(initial, g.integralLimits);
      prevD, dFiltered := None, 0.0;
    }

    method SetValue(v: real)
      requires Valid()
      modifies this`integral
      ensures Valid() && integral == Clamp(v, integralLimits)
    {
      integral := Clamp(v, integralLimits);
    }

    method ResetTo(value: real)
      requires Valid()
      modifies this
      ensures Valid() && Params() == old(Params()) && State() == Reset(Params(), value)
    {
      integral := Clamp(value, integralLimits);
      prevD := None;
      dFiltered := 0.0;
    }

    /** Both bounds move together, and the live integrator is pulled into the new one. */
    method SetLimits(l: Limits, il: Limits)
      requires Valid()
      modifies this
      ensures Valid() && Params() == old(Params()).(limits := l, integralLimits := il)
      ensures State() == old(State()).(integral := Clamp(old(integral), il))
    {
      limits := l;
      integralLimits := il;
      integral := Clamp(integral, integralLimits);
    }

    /** Passing limits alone re-derives the integral clamp; passing neither leaves both. */
    method SetParams(p: real, i: real, d: real, l: Option<Limits>, il: Option<Limits>)
      requires Valid()
      modifies this
      ensures Valid()
      ensures var newLimits := if l.Some? then l.value else old(limits);
              var newClamp := if il.Some? then il.value else if l.Some? then l.value else old(integralLimits);
              && Params() == old(Params()).(kp := p, ki := i, kd := d, limits := newLimits, integralLimits := newClamp)
              && State() == old(State()).(integral := Clamp(old(integral), newClamp))
    {
      kp, ki, kd := p, i, d;
      if l.Some? {
        limits := l.value;
      }
      if il.Some? {
        integralLimits := il.value;
      } else if l.Some? {
        integralLimits := l.value;
      }
      integral := Clamp(integral, integralLimits);
    }

    method Step(error: real, dt: real, measurement: Option<real>) returns (output: real)
      requires Valid()
      modifies this
      ensures Valid() && Params() == old(Params())
      ensures (State(), output) == Stepped(Params(), old(State()), Input(error, dt, measurement))
      ensures Proper(limits) ==> Within(output, limits)
    {
      hide LowPass, Integrate, Output;
      integral := Clamp(Integrate(integral, ki, error, dt), integralLimits);
      var source := if onMeasurement then (if measurement.Some? then Some(-measurement.value) else None)
                    else Some(error);
      var derivative := 0.0;
      if source.Some? {
        if kd != 0.0 && prevD.Some? && dt > 0.0 {
          dFiltered := LowPass(dFiltered, source.value - prevD.value, dt, dTau);
          derivative := dFiltered;
        }
        prevD := source;
      }
      output := Clamp(Output(kp, error, integral, kd, derivative), limits);
    }
  }
}
