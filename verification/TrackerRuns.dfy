/**
 What the predictor makes of a whole run of tracker results: which measurements are steps and
 which start it over, that a warm predictor is a run of its axis filters over exactly the time
 since it was started, and that it keeps to the motion of a target it once was on.
 */
module TrackerRuns {
  import opened Options
  import opened LinearAlgebra
  import opened Simplex
  import opened ImmFilter
  import opened Mixing
  import opened KalmanUpdate
  import opened ImmAxis
  import opened ImmMotion
  import opened ImmPredictor

  // ---- steps and starts ----

  predicate HasMeasurement(r: TrackResult) {
    !r.overridden && r.found && r.center.Some?
  }

  /** A measurement that comes to a warm predictor in time. */
  predicate Timed(s: Settings, p: Predictor, r: TrackResult) {
    && s.delaySec != 0.0 && p.axes.Some? && HasMeasurement(r)
    && 0.0 < Seconds(p.axes.value.ts, r.deviceTimestamp) <= s.maxGapSec
  }

  /** The filters as predicted at the time of a result. */
  function Ahead(s: Settings, p: Predictor, r: TrackResult): (g: (Filter, Filter))
    requires p.axes.Some? && Shaped(s.filter, p.axes.value.x) && Shaped(s.filter, p.axes.value.y)
    ensures Shaped(s.filter, g.0) && Shaped(s.filter, g.1)
  {
    var dt := Seconds(p.axes.value.ts, r.deviceTimestamp);
    (Predicted(s.filter, p.axes.value.x, dt), Predicted(s.filter, p.axes.value.y, dt))
  }

  /** Where a result is expected. */
  function Expected(s: Settings, p: Predictor, r: TrackResult): Point
    requires p.axes.Some? && Shaped(s.filter, p.axes.value.x) && Shaped(s.filter, p.axes.value.y)
  {
    var g := Ahead(s, p, r);
    Point(PredictedZ(g.0), PredictedZ(g.1))
  }

  /** Both filters took the result as one event of their lives. */
  ghost predicate Took(s: Settings, p: Predictor, q: Predictor, ts: int, ex: Event, ey: Event)
    requires ValidSettings(s) && Valid(s, p) && p.axes.Some?
  {
    q.axes == Some(Axes(ts, Stepped(s.filter, p.axes.value.x, ex), Stepped(s.filter, p.axes.value.y, ey)))
  }

  ghost predicate IsStep(s: Settings, p: Predictor, r: TrackResult, q: Predictor)
    requires ValidSettings(s) && Valid(s, p) && Timed(s, p, r)
  {
    var dt, z := Seconds(p.axes.value.ts, r.deviceTimestamp), r.center.value;
    Took(s, p, q, r.deviceTimestamp, Found(dt, z.x), Found(dt, z.y))
  }

  /** Both filters begin at the measurement, and the result is passed on as it is. */
  ghost predicate IsStart(s: Settings, r: TrackResult, out: (Predictor, TrackResult))
    requires ValidSettings(s) && HasMeasurement(r)
  {
    var z := r.center.value;
    && out.0.axes == Some(Axes(r.deviceTimestamp, InitFilter(s.filter, z.x), InitFilter(s.filter, z.y)))
    && out.1 == r
  }

  /** The result goes on with the combined estimate at the time of the result plus the delay for
      its center, and with its box moved along. */
  ghost predicate IsAnswer(s: Settings, r: TrackResult, out: (Predictor, TrackResult))
    requires HasMeasurement(r)
  {
    && out.0.axes.Some? && Valid(s, out.0)
    && var c := Estimate(s, out.0.axes.value, s.delaySec);
       out.1 == r.(center := Some(c), bbox := MovedBox(r.bbox, r.center.value, c))
  }

  /** The distance from e to z, each axis in units of its innovation variance. */
  function Apart(e: Point, z: Point, sx: real, sy: real): real
    requires sx > 0.0 && sy > 0.0
  {
    Squared(z.x, e.x) / sx + Squared(z.y, e.y) / sy
  }

  lemma AheadGood(s: Settings, p: Predictor, r: TrackResult)
    requires ValidSettings(s) && Valid(s, p) && Timed(s, p, r)
    ensures var g := Ahead(s, p, r);
            && Good(s.filter, g.0) && Good(s.filter, g.1) && Updatable(s.filter, g.0) && Updatable(s.filter, g.1)
            && PredictedS(s.filter, g.0) > 0.0 && PredictedS(s.filter, g.1) > 0.0
  {
    var g, dt := Ahead(s, p, r), Seconds(p.axes.value.ts, r.deviceTimestamp);
    hide Good, Predicted, PredictedS, Updatable;
    PredictedGood(s.filter, p.axes.value.x, dt);
    PredictedGood(s.filter, p.axes.value.y, dt);
    InnovationVariance(s.filter, g.0);
    InnovationVariance(s.filter, g.1);
    GoodUpdatable(s.filter, g.0);
    GoodUpdatable(s.filter, g.1);
  }

  /** A measurement in time goes through the joint gate. */
  lemma ProcessTimed(s: Settings, p: Predictor, r: TrackResult)
    requires ValidSettings(s) && Valid(s, p) && Timed(s, p, r)
    ensures var m := Measured(s, p, r, r.center.value, Seconds(p.axes.value.ts, r.deviceTimestamp));
            && Process(s, p, r).0 == m.0
            && (if m.1 then IsAnswer(s, r, Process(s, p, r)) else Process(s, p, r).1 == r)
  {
    hide Good, Measured, ValidConfig, Estimate, MovedBox;
  }

  lemma GatedIsApart(s: Settings, gx: Filter, gy: Filter, z: Point)
    requires Shaped(s.filter, gx) && Shaped(s.filter, gy)
    requires PredictedS(s.filter, gx) > 0.0 && PredictedS(s.filter, gy) > 0.0
    ensures Gated(s, gx, gy, z) ==
            Apart(Point(PredictedZ(gx), PredictedZ(gy)), z, PredictedS(s.filter, gx), PredictedS(s.filter, gy))
  {
    hide PredictedZ, PredictedS;
  }

  lemma MeasuredGate(s: Settings, p: Predictor, r: TrackResult)
    requires ValidSettings(s) && Valid(s, p) && Timed(s, p, r)
    ensures var g, z, dt := Ahead(s, p, r), r.center.value, Seconds(p.axes.value.ts, r.deviceTimestamp);
            var m := Measured(s, p, r, z, dt);
            && (Gated(s, g.0, g.1, z) > s.gate ==> m == (Started(s, r, z), false))
            && (Gated(s, g.0, g.1, z) <= s.gate ==> m.1 && IsStep(s, p, r, m.0))
  {
    AheadGood(s, p, r);
    hide Good, Gated, Predicted, Updated, Updatable, Started, ValidConfig;
  }

  /** A measurement that comes in time is a step of both filters, answered with their estimate,
      exactly when it lies within the gate's ellipse about where it was expected; outside it both
      filters start over. */
  lemma GateIff(s: Settings, p: Predictor, r: TrackResult)
    requires ValidSettings(s) && Valid(s, p) && Timed(s, p, r)
    ensures var g := Ahead(s, p, r);
            var sx, sy := PredictedS(s.filter, g.0), PredictedS(s.filter, g.1);
            && sx > 0.0 && sy > 0.0
            && if Apart(Expected(s, p, r), r.center.value, sx, sy) <= s.gate
               then IsStep(s, p, r, Process(s, p, r).0) && IsAnswer(s, r, Process(s, p, r))
               else IsStart(s, r, Process(s, p, r))
  {
    AheadGood(s, p, r);
    var g := Ahead(s, p, r);
    hide Good, Ahead, PredictedZ, PredictedS, IsStep, IsAnswer, Process, Measured, Gated, Apart, Predicted, Updatable;
    hide ValidConfig;
    ProcessTimed(s, p, r);
    MeasuredGate(s, p, r);
    GatedIsApart(s, g.0, g.1, r.center.value);
  }

  /** A measurement exactly where it was expected never starts the filters over. */
  lemma ExpectedIsStep(s: Settings, p: Predictor, r: TrackResult)
    requires ValidSettings(s) && Valid(s, p) && Timed(s, p, r) && s.gate >= 0.0
    requires r.center.value == Expected(s, p, r)
    ensures IsStep(s, p, r, Process(s, p, r).0) && IsAnswer(s, r, Process(s, p, r))
  {
    GateIff(s, p, r);
    hide *;
    var g := Ahead(s, p, r);
    NoDistance(r.center.value, PredictedS(s.filter, g.0), PredictedS(s.filter, g.1));
  }

  lemma NoDistance(e: Point, sx: real, sy: real)
    requires sx > 0.0 && sy > 0.0
    ensures Apart(e, e, sx, sy) == 0.0
  {
  }

  /** w is at least as far from e as z is, on both axes. */
  predicate Nearer(e: Point, z: Point, w: Point) {
    Squared(z.x, e.x) <= Squared(w.x, e.x) && Squared(z.y, e.y) <= Squared(w.y, e.y)
  }

  lemma NearerApart(e: Point, z: Point, w: Point, sx: real, sy: real)
    requires sx > 0.0 && sy > 0.0 && Nearer(e, z, w)
    ensures Apart(e, z, sx, sy) <= Apart(e, w, sx, sy)
  {
    Quotients(Squared(z.x, e.x), Squared(w.x, e.x), sx);
    Quotients(Squared(z.y, e.y), Squared(w.y, e.y), sy);
  }

  lemma Quotients(a: real, b: real, s: real)
    requires s > 0.0 && a <= b
    ensures a / s <= b / s
  {
  }

  /** Whatever lies nearer on both axes than a measurement that is a step is a step as well. */
  lemma NearerIsStep(s: Settings, p: Predictor, r: TrackResult, far: TrackResult)
    requires ValidSettings(s) && Valid(s, p) && Timed(s, p, r) && Timed(s, p, far)
    requires r.deviceTimestamp == far.deviceTimestamp
    requires Nearer(Expected(s, p, r), r.center.value, far.center.value)
    requires !IsStart(s, far, Process(s, p, far))
    ensures IsStep(s, p, r, Process(s, p, r).0)
  {
    GateIff(s, p, r);
    GateIff(s, p, far);
    var g := Ahead(s, p, r);
    assert Ahead(s, p, far) == g && Expected(s, p, far) == Expected(s, p, r);
    hide *;
    NearerApart(Expected(s, p, r), r.center.value, far.center.value, PredictedS(s.filter, g.0),
                PredictedS(s.filter, g.1));
  }

  function Centered(r: TrackResult, z: Point): TrackResult {
    r.(center := Some(z))
  }

  function Towards(e: Point, d: Point, k: real): Point {
    Point(e.x + Mul(k, d.x), e.y + Mul(k, d.y))
  }

  /** In every direction there is a distance from which on the filters start over exactly at the
      measurement. */
  lemma FarIsStart(s: Settings, p: Predictor, r: TrackResult, d: Point) returns (limit: real)
    requires ValidSettings(s) && Valid(s, p) && Timed(s, p, r) && d != Point(0.0, 0.0)
    ensures forall k :: k >= limit ==>
              var far := Centered(r, Towards(Expected(s, p, r), d, k)); IsStart(s, far, Process(s, p, far))
  {
    AheadGood(s, p, r);
    var e, g := Expected(s, p, r), Ahead(s, p, r);
    var sx, sy := PredictedS(s.filter, g.0), PredictedS(s.filter, g.1);
    hide Good, Ahead, Expected, PredictedS, IsStart, IsStep, Process, Apart, Predicted, Updatable, ValidConfig;
    limit := ApartGrows(e, d, sx, sy, s.gate);
    forall k | k >= limit
      ensures var far := Centered(r, Towards(e, d, k)); IsStart(s, far, Process(s, p, far))
    {
      var far := Centered(r, Towards(e, d, k));
      SameAhead(s, p, r, far);
      GateIff(s, p, far);
    }
  }

  lemma SameAhead(s: Settings, p: Predictor, r: TrackResult, far: TrackResult)
    requires p.axes.Some? && Shaped(s.filter, p.axes.value.x) && Shaped(s.filter, p.axes.value.y)
    requires r.deviceTimestamp == far.deviceTimestamp
    ensures Ahead(s, p, far) == Ahead(s, p, r) && Expected(s, p, far) == Expected(s, p, r)
  {
  }

  /** The squared length of a direction, each axis in units of its innovation variance. */
  function Size(d: Point, sx: real, sy: real): real
    requires sx > 0.0 && sy > 0.0
  {
    Squared(d.x, 0.0) / sx + Squared(d.y, 0.0) / sy
  }

  lemma ApartGrows(e: Point, d: Point, sx: real, sy: real, gate: real) returns (limit: real)
    requires sx > 0.0 && sy > 0.0 && d != Point(0.0, 0.0)
    ensures forall k :: k >= limit ==> Apart(e, Towards(e, d, k), sx, sy) > gate
  {
    var u := Size(d, sx, sy);
    SizePositive(d, sx, sy);
    limit := if gate > 0.0 then gate / u + 1.0 else 1.0;
    forall k | k >= limit ensures Apart(e, Towards(e, d, k), sx, sy) > gate {
      ApartAlong(e, d, k, sx, sy);
      PastGate(k, u, gate);
    }
  }

  lemma SizePositive(d: Point, sx: real, sy: real)
    requires sx > 0.0 && sy > 0.0 && d != Point(0.0, 0.0)
    ensures Size(d, sx, sy) > 0.0
  {
    SquareSign(d.x);
    SquareSign(d.y);
    hide Squared;
    QuotientSign(Squared(d.x, 0.0), sx);
    QuotientSign(Squared(d.y, 0.0), sy);
  }

  lemma SquareSign(d: real)
    ensures Squared(d, 0.0) >= 0.0 && (d != 0.0 ==> Squared(d, 0.0) > 0.0)
  {
    SquareNonNegative(d);
    assert Squared(d, 0.0) == d * d;
    if d * d == 0.0 {
      ZeroProduct(d, d);
    }
  }

  lemma QuotientSign(n: real, s: real)
    requires s > 0.0 && n >= 0.0
    ensures n / s >= 0.0 && (n > 0.0 ==> n / s > 0.0)
  {
  }

  lemma ApartAlong(e: Point, d: Point, k: real, sx: real, sy: real)
    requires sx > 0.0 && sy > 0.0
    ensures Apart(e, Towards(e, d, k), sx, sy) == Mul(k * k, Size(d, sx, sy))
  {
    ScaledSquare(k, d.x, e.x, sx);
    ScaledSquare(k, d.y, e.y, sy);
    MulPlus(k * k, Squared(d.x, 0.0) / sx, Squared(d.y, 0.0) / sy);
    hide Squared, Mul;
  }

  lemma ScaledSquare(k: real, d: real, e: real, s: real)
    requires s > 0.0
    ensures Squared(e + Mul(k, d), e) / s == Mul(k * k, Squared(d, 0.0) / s)
  {
    assert Squared(e + Mul(k, d), e) == (k * d) * (k * d) == Mul(k * k, Squared(d, 0.0));
    hide Squared;
    QuotientIs(Squared(d, 0.0), s, k * k);
  }

  lemma QuotientIs(x: real, s: real, w: real)
    requires s > 0.0
    ensures Mul(w, x) / s == Mul(w, x / s)
  {
  }

  lemma PastGate(k: real, u: real, gate: real)
    requires u > 0.0 && k >= if gate > 0.0 then gate / u + 1.0 else 1.0
    ensures Mul(k * k, u) > gate
  {
    var g := if gate > 0.0 then gate / u else 0.0;
    assert g >= 0.0 && g * u == if gate > 0.0 then gate else 0.0;
    ProductNonNegative(k - g - 1.0, u);
    assert (k - g - 1.0) * u == k * u - g * u - u;
    ProductNonNegative(k - 1.0, k * u);
    assert (k - 1.0) * (k * u) == k * k * u - k * u;
  }

  // ---- a target on its way ----

  /** How the target moves on either axis. */
  datatype Target = Target(x: Motion, y: Motion)

  function Clock(ts: int): real {
    Seconds(0, ts)
  }

  lemma ClockBetween(from: int, to: int)
    ensures Clock(from) + Seconds(from, to) == Clock(to)
  {
  }

  function Where(g: Target, t: real): Point {
    Point(At(g.x, t).p, At(g.y, t).p)
  }

  predicate Followable(s: Settings, g: Target) {
    Shared(s.filter.kinds, g.x) && Shared(s.filter.kinds, g.y)
  }

  /** Every model knows where the target is at the time of the predictor's clock, and how it moves. */
  predicate OnTarget(p: Predictor, g: Target) {
    p.axes.Some? ==> var a := p.axes.value; OnMotion(a.x, g.x, Clock(a.ts)) && OnMotion(a.y, g.y, Clock(a.ts))
  }

  /** A measurement says where the target is at its time. */
  predicate Exact(r: TrackResult, g: Target) {
    HasMeasurement(r) ==> r.center.value == Where(g, Clock(r.deviceTimestamp))
  }

  predicate Still(g: Target) {
    g.x.v == 0.0 && g.x.a == 0.0 && g.y.v == 0.0 && g.y.a == 0.0
  }

  lemma UpdateOnMotion(c: Config, f: Filter, m: Motion, t: real)
    requires Shaped(c, f) && Updatable(c, f) && OnMotion(f, m, t)
    ensures OnMotion(Updated(c, f, At(m, t).p), m, t)
  {
    forall j | 0 <= j < |c.kinds| ensures UpdateX(f.xs[j], f.Ps[j], c.R, At(m, t).p) == f.xs[j] {
      NoInnovation(f.xs[j], f.Ps[j], c.R);
    }
    hide UpdateX, UpdateP, Reweighted, Likelihoods;
  }

  lemma NoInnovation(x: Vec, P: Mat, R: real)
    requires P.r0.p + R != 0.0
    ensures UpdateX(x, P, R, x.p) == x
  {
    var K := Gain(P, R);
    hide Gain;
    assert Times(0.0, K) == ZERO_VEC;
  }

  lemma PredictedOnMotion(c: Config, f: Filter, m: Motion, t: real, dt: real)
    requires ValidConfig(c) && Good(c, f) && Shared(c.kinds, m) && OnMotion(f, m, t) && dt >= 0.0
    ensures var g := Predicted(c, f, dt); OnMotion(g, m, t + dt) && PredictedZ(g) == At(m, t + dt).p
  {
    PredictsMotion(c, f, m, t, dt);
    PredictedGood(c, f, dt);
    var g := Predicted(c, f, dt);
    hide Predicted, At, PSD, OnMotion, Shared;
    CombinedOnMotion(g.cbar, g, m, t + dt);
  }

  /** Both filters of a predictor on its target, predicted to the time of a result, are on the
      target, and the result is expected where the target is. */
  lemma AheadOnTarget(s: Settings, p: Predictor, r: TrackResult, g: Target)
    requires ValidSettings(s) && Valid(s, p) && p.axes.Some? && Followable(s, g) && OnTarget(p, g)
    requires Seconds(p.axes.value.ts, r.deviceTimestamp) > 0.0
    ensures var (x, y), t := Ahead(s, p, r), Clock(r.deviceTimestamp);
            OnMotion(x, g.x, t) && OnMotion(y, g.y, t) && Expected(s, p, r) == Where(g, t)
  {
    var a, dt := p.axes.value, Seconds(p.axes.value.ts, r.deviceTimestamp);
    ClockBetween(a.ts, r.deviceTimestamp);
    hide Seconds, Clock, OnMotion, Shared, PredictedZ, At, ValidConfig;
    PredictedOnMotion(s.filter, a.x, g.x, Clock(a.ts), dt);
    PredictedOnMotion(s.filter, a.y, g.y, Clock(a.ts), dt);
  }

  lemma StartOnStill(s: Settings, r: TrackResult, g: Target)
    requires ValidSettings(s) && HasMeasurement(r) && Exact(r, g) && Still(g)
    ensures OnTarget(Started(s, r, r.center.value), g)
  {
  }

  /** The combined estimate of a predictor on its target is where the target is. */
  lemma EstimateOnTarget(s: Settings, a: Axes, g: Target, d: real)
    requires Good(s.filter, a.x) && Good(s.filter, a.y)
    requires OnMotion(a.x, g.x, Clock(a.ts)) && OnMotion(a.y, g.y, Clock(a.ts))
    ensures Estimate(s, a, d) == Where(g, Clock(a.ts) + d)
  {
    var t := Clock(a.ts);
    hide PSD, OnMotion, Clock;
    CombinedOnMotion(a.x.mu, a.x, g.x, t);
    CombinedOnMotion(a.y.mu, a.y, g.y, t);
    PropagatesMotion(g.x, t, d);
    PropagatesMotion(g.y, t, d);
  }

  lemma PropagatesMotion(m: Motion, t: real, d: real)
    ensures Propagate(At(m, t), d) == At(m, t + d).p
  {
    assert m.a * ((t + d) * (t + d)) == m.a * (t * t) + 2.0 * (m.a * t * d) + m.a * (d * d);
  }

  /** A step with an exact measurement keeps a predictor on its target. */
  lemma StepOnTarget(s: Settings, p: Predictor, r: TrackResult, g: Target)
    requires ValidSettings(s) && Valid(s, p) && Timed(s, p, r) && s.gate >= 0.0
    requires Followable(s, g) && OnTarget(p, g) && Exact(r, g)
    ensures var (q, o) := Process(s, p, r);
            && q.axes.Some? && q.axes.value.ts == r.deviceTimestamp && OnTarget(q, g)
            && o.center == Some(Where(g, Clock(r.deviceTimestamp) + s.delaySec))
  {
    AheadOnTarget(s, p, r, g);
    AheadGood(s, p, r);
    ExpectedIsStep(s, p, r);
    var x, y, t := Ahead(s, p, r).0, Ahead(s, p, r).1, Clock(r.deviceTimestamp);
    UpdateOnMotion(s.filter, x, g.x, t);
    UpdateOnMotion(s.filter, y, g.y, t);
    var q := Process(s, p, r).0;
    hide Good, Predicted, Updated, Updatable, Process, OnMotion, Estimate, At, Clock, MovedBox, ValidConfig, Shared;
    EstimateOnTarget(s, q.axes.value, g, s.delaySec);
  }

  // ---- results without a step ----

  /** A result without a measurement moves a warm predictor on by the time since its clock, both
      axes alike, unless that time is too long, or none. */
  lemma MissIs(s: Settings, p: Predictor, r: TrackResult)
    requires ValidSettings(s) && Valid(s, p) && p.axes.Some? && s.delaySec != 0.0
    requires !r.overridden && !HasMeasurement(r)
    ensures var (q, o), dt := Process(s, p, r), Seconds(p.axes.value.ts, r.deviceTimestamp);
            && o == r
            && (dt <= 0.0 ==> q.axes == p.axes)
            && (0.0 < dt <= s.maxGapSec ==> Took(s, p, q, r.deviceTimestamp, Miss(dt), Miss(dt)))
            && (dt > s.maxGapSec && dt > 0.0 ==> q.axes.None?)
  {
    hide Good, Predicted, Missed, ValidConfig, Seconds;
  }

  /** A measurement that does not come in time starts the filters, or is too late to matter. */
  lemma UntimedIs(s: Settings, p: Predictor, r: TrackResult)
    requires ValidSettings(s) && Valid(s, p) && s.delaySec != 0.0 && HasMeasurement(r) && !Timed(s, p, r)
    ensures var (q, o) := Process(s, p, r);
            && o == r
            && (p.axes.None? || Seconds(p.axes.value.ts, r.deviceTimestamp) > 0.0 ==> IsStart(s, r, (q, o)))
            && (p.axes.Some? && Seconds(p.axes.value.ts, r.deviceTimestamp) <= 0.0 ==> q.axes == p.axes)
  {
    hide Good, InitFilter, ValidConfig, Seconds, Measured, Estimate;
  }

  // ---- on target over runs ----

  /** A result that does not take the predictor off a target: no drag, an exact measurement, and,
      unless the target stands still, not after too long a gap. */
  predicate Helpful(s: Settings, p: Predictor, r: TrackResult, g: Target) {
    && !r.overridden && Exact(r, g)
    && (HasMeasurement(r) && !Still(g) ==>
          p.axes.Some? && Seconds(p.axes.value.ts, r.deviceTimestamp) <= s.maxGapSec)
  }

  /** A predictor on its target stays on it, and what it answers for a measurement in time is
      where the target will be after the delay. */
  lemma StaysOnTarget(s: Settings, p: Predictor, r: TrackResult, g: Target)
    requires ValidSettings(s) && Valid(s, p) && s.delaySec != 0.0 && s.gate >= 0.0
    requires Followable(s, g) && OnTarget(p, g) && Helpful(s, p, r, g)
    ensures OnTarget(Process(s, p, r).0, g)
    ensures Timed(s, p, r) ==> Process(s, p, r).1.center == Some(Where(g, Clock(r.deviceTimestamp) + s.delaySec))
  {
    hide Good, Process, Clock, OnMotion, Seconds, Shared, ValidConfig, At, InitFilter;
    if Timed(s, p, r) {
      StepOnTarget(s, p, r, g);
    } else if HasMeasurement(r) {
      UntimedIs(s, p, r);
      if p.axes.None? || Seconds(p.axes.value.ts, r.deviceTimestamp) > 0.0 {
        StartOnStill(s, r, g);
      }
    } else if p.axes.Some? {
      MissOnTarget(s, p, r, g);
    } else {
      ColdMiss(s, p, r);
    }
  }

  lemma ColdMiss(s: Settings, p: Predictor, r: TrackResult)
    requires ValidSettings(s) && Valid(s, p) && p.axes.None? && s.delaySec != 0.0
    requires !r.overridden && !HasMeasurement(r)
    ensures Process(s, p, r).0.axes.None? && Process(s, p, r).1 == r
  {
  }

  lemma MissOnTarget(s: Settings, p: Predictor, r: TrackResult, g: Target)
    requires ValidSettings(s) && Valid(s, p) && p.axes.Some? && s.delaySec != 0.0
    requires Followable(s, g) && OnTarget(p, g) && !r.overridden && !HasMeasurement(r)
    ensures OnTarget(Process(s, p, r).0, g)
  {
    MissIs(s, p, r);
    var dt, a := Seconds(p.axes.value.ts, r.deviceTimestamp), p.axes.value;
    if 0.0 < dt <= s.maxGapSec {
      AheadOnTarget(s, p, r, g);
      var x, y := Ahead(s, p, r).0, Ahead(s, p, r).1;
      PredictedGood(s.filter, a.x, dt);
      PredictedGood(s.filter, a.y, dt);
      hide Predicted, Process, Good, Clock, Seconds;
      MissedGood(s.filter, x);
      MissedGood(s.filter, y);
    }
  }

  /** The result at k comes in time and is answered with where the target will be, or does not. */
  ghost predicate Answered(s: Settings, rs: seq<TrackResult>, k: nat, g: Target)
    requires ValidSettings(s) && k < |rs|
  {
    Timed(s, After(s, rs[..k]), rs[k]) ==>
      Outputs(s, rs)[k].center == Some(Where(g, Clock(rs[k].deviceTimestamp) + s.delaySec))
  }

  lemma AnsweredBefore(s: Settings, rs: seq<TrackResult>, r: TrackResult, k: nat, g: Target)
    requires ValidSettings(s) && k < |rs| && Answered(s, rs, k, g)
    ensures Answered(s, rs + [r], k, g)
  {
    hide After, Outputs, Process, Timed, Where, Valid, ValidSettings, Clock;
    AfterOne(s, rs, r);
    assert (rs + [r])[..k] == rs[..k] && (rs + [r])[k] == rs[k];
  }

  lemma AnsweredLast(s: Settings, rs: seq<TrackResult>, r: TrackResult, g: Target)
    requires ValidSettings(s) && s.delaySec != 0.0 && s.gate >= 0.0 && Followable(s, g)
    requires OnTarget(After(s, rs), g) && Helpful(s, After(s, rs), r, g)
    ensures OnTarget(After(s, rs + [r]), g) && Answered(s, rs + [r], |rs|, g)
  {
    hide After, Outputs, Process, Timed, Where, OnTarget, Helpful, Followable, Clock, Valid, ValidSettings;
    AfterOne(s, rs, r);
    assert (rs + [r])[..|rs|] == rs && (rs + [r])[|rs|] == r;
    StaysOnTarget(s, After(s, rs), r, g);
  }

  /** Once on a target a predictor keeps to it over any helpful results, lost ones and late ones
      included, and every measurement that comes in time is answered with where the target will
      be after the delay. */
  lemma {:induction false} TracksTarget(s: Settings, rs: seq<TrackResult>, i: nat, g: Target)
    requires ValidSettings(s) && s.delaySec != 0.0 && s.gate >= 0.0 && Followable(s, g) && i <= |rs|
    requires OnTarget(After(s, rs[..i]), g)
    requires forall k :: i <= k < |rs| ==> Helpful(s, After(s, rs[..k]), rs[k], g)
    ensures OnTarget(After(s, rs), g)
    ensures forall k :: i <= k < |rs| ==> Answered(s, rs, k, g)
  {
    hide After, OnTarget, Followable, Answered, Helpful;
    assert rs[..|rs|] == rs;
    if i < |rs| {
      var n := |rs| - 1;
      var before, r := rs[..n], rs[n];
      assert forall k :: 0 <= k <= n ==> before[..k] == rs[..k];
      TracksTarget(s, before, i, g);
      assert rs == before + [r];
      AnsweredLast(s, before, r, g);
      forall k | i <= k < n ensures Answered(s, rs, k, g) {
        AnsweredBefore(s, before, r, k, g);
      }
    }
  }

  /** A target that stands still is found where it stands, whatever the delay and the models and
      however results are lost, late or out of order: every answer is the result itself. */
  lemma {:induction false} StillTarget(s: Settings, rs: seq<TrackResult>, at: Point)
    requires ValidSettings(s) && s.gate >= 0.0
    requires forall k :: 0 <= k < |rs| ==> !rs[k].overridden && (HasMeasurement(rs[k]) ==> rs[k].center.value == at)
    ensures Outputs(s, rs) == rs
    ensures s.delaySec != 0.0 ==> OnTarget(After(s, rs), Standing(at))
  {
    hide After, Outputs, Process, OnTarget, Valid, ValidSettings;
    if rs == [] {
      NoResults(s, Standing(at));
    } else {
      var n := |rs| - 1;
      var before, r := rs[..n], rs[n];
      StillTarget(s, before, at);
      assert rs == before + [r];
      AfterOne(s, before, r);
      if s.delaySec == 0.0 {
        NoDelay(s, After(s, before), r);
      } else {
        StillStep(s, After(s, before), r, at);
      }
    }
  }

  lemma NoResults(s: Settings, g: Target)
    requires ValidSettings(s)
    ensures Outputs(s, []) == [] && OnTarget(After(s, []), g)
  {
  }

  lemma NoDelay(s: Settings, p: Predictor, r: TrackResult)
    requires ValidSettings(s) && Valid(s, p) && s.delaySec == 0.0
    ensures Process(s, p, r).1 == r
  {
  }

  function Standing(at: Point): Target {
    Target(Motion(at.x, 0.0, 0.0), Motion(at.y, 0.0, 0.0))
  }

  lemma StillStep(s: Settings, p: Predictor, r: TrackResult, at: Point)
    requires ValidSettings(s) && Valid(s, p) && s.delaySec != 0.0 && s.gate >= 0.0
    requires !r.overridden && (HasMeasurement(r) ==> r.center.value == at)
    requires OnTarget(p, Standing(at))
    ensures OnTarget(Process(s, p, r).0, Standing(at)) && Process(s, p, r).1 == r
  {
    hide Process, OnTarget, Clock, Seconds, Valid, ValidSettings;
    StillAnswer(s, p, r, at);
    StaysOnTarget(s, p, r, Standing(at));
  }

  lemma StillAnswer(s: Settings, p: Predictor, r: TrackResult, at: Point)
    requires ValidSettings(s) && Valid(s, p) && s.delaySec != 0.0 && s.gate >= 0.0
    requires !r.overridden && (HasMeasurement(r) ==> r.center.value == at)
    requires OnTarget(p, Standing(at))
    ensures Process(s, p, r).1 == r
  {
    hide Process, OnMotion, Clock, Seconds, Good, ValidConfig;
    if Timed(s, p, r) {
      StaysOnTarget(s, p, r, Standing(at));
      ProcessMoves(s, p, r);
    } else if HasMeasurement(r) {
      UntimedIs(s, p, r);
    } else if p.axes.Some? {
      MissIs(s, p, r);
    } else {
      ColdMiss(s, p, r);
    }
  }

  // ---- free runs ----

  /** A free run shows a center exactly while the last result was no miss and the run is within
      the gap, is marked as coasting whenever it is not at its very start, and goes by the number
      and the time of the last result. */
  lemma CoastShape(s: Settings, p: Predictor, coastMs: real)
    requires ValidSettings(s) && Valid(s, p)
    ensures var k, late := PredictAfter(s, p, coastMs), coastMs / 1000.0 > s.maxGapSec;
            && (k.None? <==> p.axes.None?)
            && (k.Some? ==>
                  && (k.value.found <==> !p.lastWasMiss && !late) && (k.value.center.Some? <==> k.value.found)
                  && (k.value.coasting <==> !k.value.found || coastMs > 0.0) && !k.value.overridden
                  && k.value.sequence == p.lastMeas.value.sequence
                  && k.value.deviceTimestamp == p.lastMeas.value.deviceTimestamp)
  {
    hide Good, Estimate, MovedBox, ValidConfig;
  }

  /** A free run of a predictor on its target says where the target will be that much later, and
      never runs backwards. */
  lemma CoastsOnTarget(s: Settings, p: Predictor, g: Target, coastMs: real)
    requires ValidSettings(s) && Valid(s, p) && p.axes.Some? && OnTarget(p, g)
    requires !p.lastWasMiss && coastMs / 1000.0 <= s.maxGapSec
    ensures var ahead := if coastMs > 0.0 then coastMs / 1000.0 else 0.0;
            var k := PredictAfter(s, p, coastMs);
            k.Some? && k.value.center == Some(Where(g, Clock(p.axes.value.ts) + ahead + s.delaySec))
  {
    hide Good, Estimate, MovedBox, ValidConfig, Where, OnMotion, Clock;
    var ahead := if coastMs > 0.0 then coastMs / 1000.0 else 0.0;
    EstimateOnTarget(s, p.axes.value, g, ahead + s.delaySec);
  }

  /** A free run that reaches the time of a coming result shows the target where it will be the
      delay after that result: the milliseconds of the run are the nanoseconds of the clock. */
  lemma CoastMeetsResult(s: Settings, p: Predictor, g: Target, ts: int)
    requires ValidSettings(s) && Valid(s, p) && p.axes.Some? && OnTarget(p, g)
    requires !p.lastWasMiss && p.axes.value.ts <= ts && Seconds(p.axes.value.ts, ts) <= s.maxGapSec
    ensures var k := PredictAfter(s, p, (ts - p.axes.value.ts) as real / 1000000.0);
            k.Some? && k.value.center == Some(Where(g, Clock(ts) + s.delaySec))
  {
    var from := p.axes.value.ts;
    var coastMs := (ts - from) as real / 1000000.0;
    assert coastMs / 1000.0 == Seconds(from, ts);
    assert coastMs >= 0.0;
    hide Good, Estimate, MovedBox, ValidConfig, Where, OnMotion, PredictAfter;
    ClockBetween(from, ts);
    CoastsOnTarget(s, p, g, coastMs);
  }

  /** Free runs go by the last result; after a miss they show nothing until a measurement is taken,
      by a step or a start. */
  lemma CoastAfter(s: Settings, p: Predictor, r: TrackResult)
    requires ValidSettings(s) && Valid(s, p) && s.delaySec != 0.0 && Process(s, p, r).0.axes.Some?
    ensures var q := Process(s, p, r).0;
            && q.lastMeas == Some(r)
            && (!HasMeasurement(r) ==> q.lastWasMiss)
            && (HasMeasurement(r) && (p.axes.None? || Seconds(p.axes.value.ts, r.deviceTimestamp) > 0.0)
                ==> !q.lastWasMiss)
  {
    hide Good, InitFilter, ValidConfig, Seconds, Predicted, Updated, Missed, Estimate, Gated;
  }

  // ---- both axes alike ----

  function Flip(z: Point): Point {
    Point(z.y, z.x)
  }

  function FlipResult(r: TrackResult): TrackResult {
    r.(center := if r.center.Some? then Some(Flip(r.center.value)) else None,
       bbox := if r.bbox.Some? then
                 var b := r.bbox.value; Some(Rect(b.y, b.x, b.height, b.width))
               else None)
  }

  function FlipPredictor(p: Predictor): Predictor {
    p.(axes := if p.axes.Some? then Some(Axes(p.axes.value.ts, p.axes.value.y, p.axes.value.x)) else None,
       lastMeas := if p.lastMeas.Some? then Some(FlipResult(p.lastMeas.value)) else None)
  }

  /** The predictor treats both axes alike: flipped input gives flipped state and output. */
  lemma AxesAlike(s: Settings, p: Predictor, r: TrackResult)
    requires ValidSettings(s) && Valid(s, p)
    ensures Valid(s, FlipPredictor(p))
    ensures var (q, o) := Process(s, p, r);
            Process(s, FlipPredictor(p), FlipResult(r)) == (FlipPredictor(q), FlipResult(o))
  {
    hide Good, InitFilter, ValidConfig, Seconds, Predicted, Updated, Missed, PredictedZ, PredictedS, Propagate, MixX,
         Normalized;
  }

  // ---- a warm predictor is a run of its filters ----

  /** One result as an event of either filter. */
  ghost predicate EventsOf(r: TrackResult, e: Event, f: Event) {
    if HasMeasurement(r) then
      e.Found? && f.Found? && e.dt == f.dt > 0.0 && r.center.value == Point(e.z, f.z)
    else e.Miss? && f.Miss? && e.dt == f.dt > 0.0
  }

  ghost predicate Told(rs: seq<TrackResult>, e: Event, f: Event) {
    exists r :: r in rs && EventsOf(r, e, f)
  }

  lemma StillTold(rs: seq<TrackResult>, r: TrackResult, e: Event, f: Event)
    requires Told(rs, e, f) || EventsOf(r, e, f)
    ensures Told(rs + [r], e, f)
  {
    if Told(rs, e, f) {
      var q :| q in rs && EventsOf(q, e, f);
      assert q in rs + [r];
    } else {
      assert r in rs + [r];
    }
  }

  function Duration(es: seq<Event>): real {
    if es == [] then 0.0
    else Duration(es[..|es| - 1]) + if es[|es| - 1].Reset? then 0.0 else es[|es| - 1].dt
  }

  /** Since the measurement `start` both filters went through these events, each of a result of
      the run, and they took exactly the time from `start` to the filters' clock. */
  ghost predicate RunSince(s: Settings, rs: seq<TrackResult>, start: TrackResult, a: Axes, ex: seq<Event>,
                           ey: seq<Event>)
    requires ValidSettings(s)
  {
    && HasMeasurement(start) && |ex| == |ey|
    && a.x == Run(s.filter, start.center.value.x, ex) && a.y == Run(s.filter, start.center.value.y, ey)
    && (forall k :: 0 <= k < |ex| ==> Told(rs, ex[k], ey[k]))
    && Duration(ex) == Duration(ey) == Seconds(start.deviceTimestamp, a.ts)
  }

  /** How a predictor that is warm after a result came to be so. */
  lemma WarmFrom(s: Settings, p: Predictor, r: TrackResult) returns (e: Event, f: Event)
    requires ValidSettings(s) && Valid(s, p) && s.delaySec != 0.0 && Process(s, p, r).0.axes.Some?
    ensures var q := Process(s, p, r).0;
            || (HasMeasurement(r) && IsStart(s, r, (q, r)))
            || (p.axes.Some? && q.axes == p.axes)
            || (p.axes.Some? && EventsOf(r, e, f) && Took(s, p, q, r.deviceTimestamp, e, f)
                && e.dt == Seconds(p.axes.value.ts, r.deviceTimestamp))
  {
    e, f := Miss(0.0), Miss(0.0);
    hide Good, Process, ValidConfig, InitFilter, Stepped, Seconds, Valid, IsAnswer;
    if r.overridden {
      DragCools(s, p, r);
    } else if HasMeasurement(r) {
      if Timed(s, p, r) {
        GateIff(s, p, r);
        var dt := Seconds(p.axes.value.ts, r.deviceTimestamp);
        e, f := Found(dt, r.center.value.x), Found(dt, r.center.value.y);
      } else {
        UntimedIs(s, p, r);
      }
    } else if p.axes.Some? {
      MissIs(s, p, r);
      var dt := Seconds(p.axes.value.ts, r.deviceTimestamp);
      e, f := Miss(dt), Miss(dt);
    } else {
      ColdMiss(s, p, r);
    }
  }

  lemma DragCools(s: Settings, p: Predictor, r: TrackResult)
    requires ValidSettings(s) && Valid(s, p) && s.delaySec != 0.0 && r.overridden
    ensures Process(s, p, r).0.axes.None?
  {
  }

  lemma OneMoreEvent(s: Settings, rs: seq<TrackResult>, start: TrackResult, p: Predictor, q: Predictor,
                     ex: seq<Event>, ey: seq<Event>, r: TrackResult, e: Event, f: Event)
    requires ValidSettings(s) && Valid(s, p) && p.axes.Some? && RunSince(s, rs, start, p.axes.value, ex, ey)
    requires EventsOf(r, e, f) && Took(s, p, q, r.deviceTimestamp, e, f)
    requires e.dt == Seconds(p.axes.value.ts, r.deviceTimestamp)
    ensures RunSince(s, rs + [r], start, q.axes.value, ex + [e], ey + [f])
  {
    hide Run, Stepped, Duration, Told;
    RunAppend(s.filter, start.center.value.x, ex, e);
    RunAppend(s.filter, start.center.value.y, ey, f);
    DurationAppend(ex, e);
    DurationAppend(ey, f);
    SecondsAdd(start.deviceTimestamp, p.axes.value.ts, r.deviceTimestamp);
    hide Seconds;
    forall k | 0 <= k < |ex + [e]| ensures Told(rs + [r], (ex + [e])[k], (ey + [f])[k]) {
      StillTold(rs, r, (ex + [e])[k], (ey + [f])[k]);
    }
  }

  lemma SecondsAdd(a: int, b: int, c: int)
    ensures Seconds(a, b) + Seconds(b, c) == Seconds(a, c)
  {
  }

  lemma DurationAppend(es: seq<Event>, e: Event)
    ensures Duration(es + [e]) == Duration(es) + if e.Reset? then 0.0 else e.dt
  {
    assert (es + [e])[..|es|] == es;
  }

  /** However it came to be warm, a predictor's filters are runs of the axis filter from one
      measurement of the run on, through events that are results of the run, over exactly the
      time from that measurement to their clock. */
  lemma {:induction false} WarmIsRun(s: Settings, rs: seq<TrackResult>)
    returns (start: TrackResult, ex: seq<Event>, ey: seq<Event>)
    requires ValidSettings(s) && After(s, rs).axes.Some?
    ensures start in rs && RunSince(s, rs, start, After(s, rs).axes.value, ex, ey)
  {
    hide Process, Valid, RunSince, IsStart, Took, EventsOf, HasMeasurement, ValidSettings, Seconds;
    if s.delaySec == 0.0 {
      NeverDelayed(s, rs);
    }
    var before, r := rs[..|rs| - 1], rs[|rs| - 1];
    var p, q := After(s, before), After(s, rs);
    hide After;
    assert rs == before + [r];
    AfterOne(s, before, r);
    var e, f := WarmFrom(s, p, r);
    if HasMeasurement(r) && IsStart(s, r, (q, r)) {
      start, ex, ey := r, [], [];
      JustStarted(s, rs, r, q);
    } else {
      start, ex, ey := WarmIsRun(s, before);
      if q.axes == p.axes {
        SameRun(s, before, r, start, p.axes.value, ex, ey);
      } else {
        OneMoreEvent(s, before, start, p, q, ex, ey, r, e, f);
        ex, ey := ex + [e], ey + [f];
      }
    }
  }

  lemma SameRun(s: Settings, rs: seq<TrackResult>, r: TrackResult, start: TrackResult, a: Axes, ex: seq<Event>,
                ey: seq<Event>)
    requires ValidSettings(s) && RunSince(s, rs, start, a, ex, ey)
    ensures RunSince(s, rs + [r], start, a, ex, ey)
  {
    hide Run, EventsOf, Told, ValidConfig;
    forall k | 0 <= k < |ex| ensures Told(rs + [r], ex[k], ey[k]) {
      StillTold(rs, r, ex[k], ey[k]);
    }
  }

  lemma JustStarted(s: Settings, rs: seq<TrackResult>, r: TrackResult, q: Predictor)
    requires ValidSettings(s) && HasMeasurement(r) && IsStart(s, r, (q, r))
    ensures RunSince(s, rs, r, q.axes.value, [], [])
  {
    hide InitFilter, ValidConfig;
  }

  // ---- the estimate ----

  /** Where each model would have the target after d. */
  function Extrapolated(xs: seq<Vec>, d: real): (a: seq<real>)
    ensures |a| == |xs| && forall j :: 0 <= j < |xs| ==> a[j] == At(Motion(xs[j].p, xs[j].v, xs[j].a), d).p
  {
    seq(|xs|, j requires 0 <= j < |xs| => At(Motion(xs[j].p, xs[j].v, xs[j].a), d).p)
  }

  /** The estimate is the average of where the models would have the target, by their
      probabilities. */
  lemma EstimateAverages(s: Settings, a: Axes, d: real)
    requires Good(s.filter, a.x) && Good(s.filter, a.y)
    ensures Estimate(s, a, d) ==
            Point(Weighted(a.x.mu, Extrapolated(a.x.xs, d)), Weighted(a.y.mu, Extrapolated(a.y.xs, d)))
  {
    AverageAhead(a.x.mu, a.x.xs, d);
    AverageAhead(a.y.mu, a.y.xs, d);
  }

  lemma AverageAhead(w: seq<real>, xs: seq<Vec>, d: real)
    requires |w| == |xs|
    ensures Propagate(MixX(w, xs), d) == Weighted(w, Extrapolated(xs, d))
  {
    var u := Vec(1.0, d, d * d / 2.0);
    MixAlong(u, w, xs);
    forall j | 0 <= j < |xs| ensures Along(u, xs)[j] == Extrapolated(xs, d)[j] {
      AlongIs(xs[j], d);
    }
    assert Along(u, xs) == Extrapolated(xs, d);
    hide MixX, Weighted;
    AlongIs(MixX(w, xs), d);
  }

  lemma AlongIs(x: Vec, d: real)
    ensures Dot(Vec(1.0, d, d * d / 2.0), x) == At(Motion(x.p, x.v, x.a), d).p == Propagate(x, d)
  {
  }
}
