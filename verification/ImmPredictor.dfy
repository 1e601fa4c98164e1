/**
 The predictor over both axes: it feeds tracker results to the two filters, decides when a
 result is a step, a miss, a gap or a discontinuity, and propagates the combined estimate by
 the configured delay.
 */
module ImmPredictor {
  import opened Options
  import opened LinearAlgebra
  import opened ImmFilter
  import opened ImmAxis

  const NS_PER_SEC := 1000000000.0

  datatype Point = Point(x: real, y: real)
  datatype Rect = Rect(x: real, y: real, width: real, height: real)
  datatype TrackResult = TrackResult(found: bool, overridden: bool, center: Option<Point>, bbox: Option<Rect>,
                                     sequence: int, deviceTimestamp: int)
  datatype Coast = Coast(found: bool, overridden: bool, coasting: bool, center: Option<Point>, bbox: Option<Rect>,
                         sequence: int, deviceTimestamp: int)

  datatype Settings = Settings(delaySec: real, gate: real, maxGapSec: real, filter: Config)

  /** Both axes, warm: the last accepted time stamp and the two filters. */
  datatype Axes = Axes(ts: int, x: Filter, y: Filter)
  datatype Predictor = Predictor(axes: Option<Axes>, lastWasMiss: bool, lastMeas: Option<TrackResult>)

  ghost predicate ValidSettings(s: Settings) {
    ValidConfig(s.filter) && s.maxGapSec >= 0.0
  }

  ghost predicate Valid(s: Settings, p: Predictor) {
    p.axes.Some? ==> Good(s.filter, p.axes.value.x) && Good(s.filter, p.axes.value.y) && p.lastMeas.Some?
  }

  function Propagate(x: Vec, dt: real): real {
    x.p + x.v * dt + 0.5 * x.a * dt * dt
  }

  function Seconds(from: int, to: int): real {
    (to - from) as real / NS_PER_SEC
  }

  function Normalized(d: real, S: real): real {
    if S > 0.0 then d * d / S else 0.0
  }

  /** The two-axis squared innovation against its predicted variances. */
  function Gated(s: Settings, gx: Filter, gy: Filter, z: Point): real
    requires Shaped(s.filter, gx) && Shaped(s.filter, gy)
  {
    Normalized(z.x - PredictedZ(gx), PredictedS(s.filter, gx))
    + Normalized(z.y - PredictedZ(gy), PredictedS(s.filter, gy))
  }

  function Estimate(s: Settings, a: Axes, delta: real): Point
    requires Good(s.filter, a.x) && Good(s.filter, a.y)
  {
    Point(Propagate(MixX(a.x.mu, a.x.xs), delta), Propagate(MixX(a.y.mu, a.y.xs), delta))
  }

  function Moved(b: Rect, from: Point, to: Point): Rect {
    Rect(b.x + (to.x - from.x), b.y + (to.y - from.y), b.width, b.height)
  }

  function MovedBox(b: Option<Rect>, from: Point, to: Point): Option<Rect> {
    if b.Some? then Some(Moved(b.value, from, to)) else None
  }

  /** Start over at a measurement. */
  function Started(s: Settings, r: TrackResult, z: Point): (p: Predictor)
    requires ValidSettings(s)
    ensures Valid(s, p)
  {
    InitGood(s.filter, z.x);
    InitGood(s.filter, z.y);
    Predictor(Some(Axes(r.deviceTimestamp, InitFilter(s.filter, z.x), InitFilter(s.filter, z.y))), false, Some(r))
  }

  /** A result without a measurement: predict only, or go cold after too long a gap. */
  function Missing(s: Settings, p: Predictor, r: TrackResult): (q: Predictor)
    requires ValidSettings(s) && Valid(s, p)
    ensures Valid(s, q)
  {
    var q := p.(lastWasMiss := true, lastMeas := Some(r));
    if p.axes.None? then q
    else
      var a, c := p.axes.value, s.filter;
      var dt := Seconds(a.ts, r.deviceTimestamp);
      if dt > s.maxGapSec then Predictor(None, false, Some(r))
      else if dt > 0.0 then
        PredictedGood(c, a.x, dt);
        PredictedGood(c, a.y, dt);
        MissedGood(c, Predicted(c, a.x, dt));
        MissedGood(c, Predicted(c, a.y, dt));
        q.(axes := Some(Axes(r.deviceTimestamp, Missed(c, Predicted(c, a.x, dt)), Missed(c, Predicted(c, a.y, dt)))))
      else q
  }

  /** A measurement within the gap of a warm filter: the joint gate decides between a step
      and a fresh start. The second value says whether the estimate replaces the center. */
  function Measured(s: Settings, p: Predictor, r: TrackResult, z: Point, dt: real): (q: (Predictor, bool))
    requires ValidSettings(s) && Valid(s, p) && p.axes.Some? && dt > 0.0
    ensures Valid(s, q.0) && q.0.axes.Some?
  {
    var a, c := p.axes.value, s.filter;
    PredictedGood(c, a.x, dt);
    PredictedGood(c, a.y, dt);
    var gx, gy := Predicted(c, a.x, dt), Predicted(c, a.y, dt);
    UpdatedGood(c, gx, z.x);
    UpdatedGood(c, gy, z.y);
    if Gated(s, gx, gy, z) > s.gate then (Started(s, r, z), false)
    else (Predictor(Some(Axes(r.deviceTimestamp, Updated(c, gx, z.x), Updated(c, gy, z.y))), false, Some(r)), true)
  }

  /** One tracker result through the predictor. */
  function Process(s: Settings, p: Predictor, r: TrackResult): (out: (Predictor, TrackResult))
    requires ValidSettings(s) && Valid(s, p)
    ensures Valid(s, out.0)
  {
    if s.delaySec == 0.0 then (p, r)
    else if r.overridden then (Predictor(None, false, Some(r)), r)
    else if !r.found || r.center.None? then (Missing(s, p, r), r)
    else
      var z := r.center.value;
      if p.axes.None? then (Started(s, r, z), r)
      else
        var dt := Seconds(p.axes.value.ts, r.deviceTimestamp);
        if dt <= 0.0 then (p.(lastMeas := Some(r)), r)
        else if dt > s.maxGapSec then (Started(s, r, z), r)
        else
          var (q, stepped) := Measured(s, p, r, z, dt);
          if !stepped then (q, r)
          else
            var c := Estimate(s, q.axes.value, s.delaySec);
            (q, r.(center := Some(c), bbox := MovedBox(r.bbox, z, c)))
  }

  /** The free-run prediction coastMs after the last processed result. */
  function PredictAfter(s: Settings, p: Predictor, coastMs: real): Option<Coast>
    requires Valid(s, p)
  {
    if p.axes.None? then None
    else
      var m, coastSec := p.lastMeas.value, coastMs / 1000.0;
      if p.lastWasMiss || coastSec > s.maxGapSec then
        Some(Coast(false, false, true, None, None, m.sequence, m.deviceTimestamp))
      else
        var c := Estimate(s, p.axes.value, (if coastSec > 0.0 then coastSec else 0.0) + s.delaySec);
        Some(Coast(true, false, coastSec > 0.0, Some(c),
                   if m.center.Some? then MovedBox(m.bbox, m.center.value, c) else m.bbox,
                   m.sequence, m.deviceTimestamp))
  }

  // ---- what the predictor promises ----

  /** The result is the tracker's result, moved: identity and flags are untouched, a center
      stays a center, and the box keeps its size and moves exactly as the center does. */
  lemma ProcessMoves(s: Settings, p: Predictor, r: TrackResult)
    requires ValidSettings(s) && Valid(s, p)
    ensures var o := Process(s, p, r).1;
            && o.found == r.found && o.overridden == r.overridden
            && o.sequence == r.sequence && o.deviceTimestamp == r.deviceTimestamp
            && o.center.Some? == r.center.Some? && o.bbox.Some? == r.bbox.Some?
            && (o != r ==> r.found && r.center.Some?)
            && (r.center.Some? && r.bbox.Some? ==>
                  && o.bbox.value.width == r.bbox.value.width && o.bbox.value.height == r.bbox.value.height
                  && o.bbox.value.x - r.bbox.value.x == o.center.value.x - r.center.value.x
                  && o.bbox.value.y - r.bbox.value.y == o.center.value.y - r.center.value.y)
  {
    hide Good, Predicted, Updated, Missed, Estimate, Gated;
  }

  /** A free run of length zero after a result the predictor replaced repeats that result. */
  lemma CoastZeroAgrees(s: Settings, p: Predictor, r: TrackResult)
    requires ValidSettings(s) && Valid(s, p)
    ensures var (q, o) := Process(s, p, r);
            o != r ==>
              var k := PredictAfter(s, q, 0.0);
              && k.Some? && k.value.found && !k.value.coasting
              && k.value.center == o.center && k.value.bbox == o.bbox
              && k.value.sequence == o.sequence && k.value.deviceTimestamp == o.deviceTimestamp
  {
    hide Good, Predicted, Updated, Missed, Estimate, Gated, MovedBox, InitFilter;
  }

  /** The filter's clock only moves forward while it stays warm, and an out-of-order result
      leaves both filters as they are. */
  lemma ClockForward(s: Settings, p: Predictor, r: TrackResult)
    requires ValidSettings(s) && Valid(s, p) && p.axes.Some?
    ensures var q := Process(s, p, r).0;
            q.axes.Some? ==> (q.axes.value.ts >= p.axes.value.ts
                              && (q.axes.value.ts == p.axes.value.ts ==> q.axes == p.axes))
    ensures r.deviceTimestamp <= p.axes.value.ts && !r.overridden ==> Process(s, p, r).0.axes == p.axes
  {
    hide Good, Predicted, Updated, Missed, Estimate, Gated, InitFilter;
    SecondsSign(p.axes.value.ts, r.deviceTimestamp);
  }

  lemma SecondsSign(from: int, to: int)
    ensures Seconds(from, to) > 0.0 <==> to > from
    ensures Seconds(from, to) <= 0.0 <==> to <= from
  {
  }

  /** Whatever happened before, after a drag the next measurement starts the filters exactly
      there, with no velocity left over. */
  lemma DragForgets(s: Settings, p: Predictor, drag: TrackResult, r: TrackResult)
    requires ValidSettings(s) && Valid(s, p) && s.delaySec != 0.0
    requires drag.overridden && !r.overridden && r.found && r.center.Some?
    ensures var q := Process(s, Process(s, p, drag).0, r).0;
            q.axes == Some(Axes(r.deviceTimestamp, InitFilter(s.filter, r.center.value.x),
                                InitFilter(s.filter, r.center.value.y)))
            && Process(s, Process(s, p, drag).0, r).1 == r
  {
    hide Good, Predicted, Updated, Missed, Estimate, Gated, InitFilter;
  }

  // ---- over runs of results ----

  const COLD := Predictor(None, false, None)

  /** The predictor after a run of results. */
  function After(s: Settings, rs: seq<TrackResult>): (p: Predictor)
    requires ValidSettings(s)
    ensures Valid(s, p)
  {
    if rs == [] then COLD else Process(s, After(s, rs[..|rs| - 1]), rs[|rs| - 1]).0
  }

  /** What a run of results becomes. */
  function Outputs(s: Settings, rs: seq<TrackResult>): (out: seq<TrackResult>)
    requires ValidSettings(s)
    ensures |out| == |rs|
  {
    if rs == [] then []
    else
      var n := |rs| - 1;
      Outputs(s, rs[..n]) + [Process(s, After(s, rs[..n]), rs[n]).1]
  }

  lemma AfterOne(s: Settings, rs: seq<TrackResult>, r: TrackResult)
    requires ValidSettings(s)
    ensures After(s, rs + [r]) == Process(s, After(s, rs), r).0
    ensures Outputs(s, rs + [r]) == Outputs(s, rs) + [Process(s, After(s, rs), r).1]
  {
    assert (rs + [r])[..|rs|] == rs;
  }

  /** While the filters stay warm their clock never goes back, and while it stands still the
      filters are untouched, whatever the results in between. */
  lemma {:induction false} ClockNeverBack(s: Settings, rs: seq<TrackResult>, i: nat)
    requires ValidSettings(s) && i <= |rs|
    requires forall k :: i <= k <= |rs| ==> After(s, rs[..k]).axes.Some?
    ensures var a, b := After(s, rs[..i]).axes.value, After(s, rs[..|rs|]).axes.value;
            a.ts <= b.ts && (a.ts == b.ts ==> a == b)
  {
    if i < |rs| {
      var n := |rs| - 1;
      assert forall k :: 0 <= k <= n ==> rs[..n][..k] == rs[..k];
      ClockNeverBack(s, rs[..n], i);
      assert rs[..|rs|] == rs[..n] + [rs[n]];
      AfterOne(s, rs[..n], rs[n]);
      ClockForward(s, After(s, rs[..n]), rs[n]);
      hide Process, After;
    }
  }

  /** A drag erases the past: after it, state and every further result are the same whatever
      the predictor had seen before. */
  lemma {:induction false} DragErasesHistory(s: Settings, one: seq<TrackResult>, two: seq<TrackResult>,
                                             drag: TrackResult, more: seq<TrackResult>)
    requires ValidSettings(s) && drag.overridden
    ensures After(s, one + [drag] + more) == After(s, two + [drag] + more)
    ensures Outputs(s, one + [drag] + more)[|one|..] == Outputs(s, two + [drag] + more)[|two|..]
  {
    if more == [] {
      assert one + [drag] + more == one + [drag] && two + [drag] + more == two + [drag];
      DragResets(s, one, drag);
      DragResets(s, two, drag);
    } else {
      hide Process, After, Outputs;
      var n := |more| - 1;
      var a, b := one + [drag] + more[..n], two + [drag] + more[..n];
      DragErasesHistory(s, one, two, drag, more[..n]);
      assert one + [drag] + more == a + [more[n]] && two + [drag] + more == b + [more[n]];
      OutputsTail(s, a, more[n], |one|);
      OutputsTail(s, b, more[n], |two|);
    }
  }

  lemma DragResets(s: Settings, rs: seq<TrackResult>, drag: TrackResult)
    requires ValidSettings(s) && drag.overridden
    ensures After(s, rs + [drag]) == if s.delaySec == 0.0 then COLD else Predictor(None, false, Some(drag))
    ensures Outputs(s, rs + [drag])[|rs|..] == [drag]
  {
    AfterOne(s, rs, drag);
    if s.delaySec == 0.0 {
      NeverDelayed(s, rs);
    }
    hide After, Outputs;
  }

  lemma OutputsTail(s: Settings, rs: seq<TrackResult>, r: TrackResult, k: nat)
    requires ValidSettings(s) && k <= |rs|
    ensures After(s, rs + [r]) == Process(s, After(s, rs), r).0
    ensures Outputs(s, rs + [r])[k..] == Outputs(s, rs)[k..] + [Process(s, After(s, rs), r).1]
  {
    AfterOne(s, rs, r);
    hide Process, After, Outputs;
  }

  /** With no delay to predict over, the predictor stays cold. */
  lemma {:induction false} NeverDelayed(s: Settings, rs: seq<TrackResult>)
    requires ValidSettings(s) && s.delaySec == 0.0
    ensures After(s, rs) == COLD
  {
    if rs != [] {
      NeverDelayed(s, rs[..|rs| - 1]);
    }
  }

  // ---- the predictor in place ----

  class Tracker {
    const s: Settings
    var ax: AxisImm
    var ay: AxisImm
    var lastTs: Option<int>
    var warm: bool
    var lastWasMiss: bool
    var lastMeas: Option<TrackResult>

    /** A filter is asked to step only when both were initialised: warm, a time stamp and two
        ready axes always go together. */
    ghost predicate Ok()
      reads this, ax, ay
    {
      && ValidSettings(s) && ax != ay
      && ax.c == s.filter && ay.c == s.filter && ax.Configured() && ay.Configured()
      && warm == lastTs.Some?
      && (warm ==> ax.Ready() && ay.Ready() && lastMeas.Some?)
    }

    ghost function Abs(): (p: Predictor)
      requires Ok()
      reads this, ax, ay
      ensures Valid(s, p)
    {
      Predictor(if warm then Some(Axes(lastTs.value, ax.State(), ay.State())) else None, lastWasMiss, lastMeas)
    }

    constructor (s: Settings)
      ensures this.s == s && fresh(ax) && fresh(ay) && !warm
      ensures ValidSettings(s) ==> Ok() && Abs() == Predictor(None, false, None)
    {
      this.s := s;
      this.ax := new AxisImm(s.filter);
      this.ay := new AxisImm(s.filter);
      this.lastTs, this.warm, this.lastWasMiss, this.lastMeas := None, false, false, None;
    }

    method Reset()
      requires Ok()
      modifies this
      ensures Ok() && fresh(ax) && fresh(ay) && Abs() == Predictor(None, false, old(lastMeas))
    {
      ax := new AxisImm(s.filter);
      ay := new AxisImm(s.filter);
      lastTs, warm, lastWasMiss := None, false, false;
    }

    method Start(r: TrackResult, z: Point)
      requires Ok() && lastMeas == Some(r)
      modifies this, ax, ay
      ensures Ok() && Abs() == Started(s, r, z) && ax == old(ax) && ay == old(ay)
    {
      ax.Reset(z.x, InitialProbs(s.filter.kinds));
      ay.Reset(z.y, InitialProbs(s.filter.kinds));
      lastTs, warm, lastWasMiss := Some(r.deviceTimestamp), true, false;
    }

    method MissStep(r: TrackResult)
      requires Ok()
      modifies this, ax, ay
      ensures Ok() && Abs() == Missing(s, old(Abs()), r)
      ensures (ax == old(ax) && ay == old(ay)) || (fresh(ax) && fresh(ay))
    {
      hide Good, Predicted, Updated, Missed, InitFilter;
      lastWasMiss, lastMeas := true, Some(r);
      if lastTs.Some? && warm {
        var dt := Seconds(lastTs.value, r.deviceTimestamp);
        if dt > 0.0 && dt <= s.maxGapSec {
          var _, _ := ax.Step(dt, None);
          var _, _ := ay.Step(dt, None);
          lastTs := Some(r.deviceTimestamp);
        } else if dt > s.maxGapSec {
          Reset();
        }
      }
    }

    method ProcessResult(r: TrackResult) returns (o: TrackResult)
      requires Ok()
      modifies this, ax, ay
      ensures Ok() && (Abs(), o) == Process(s, old(Abs()), r)
      ensures (ax == old(ax) && ay == old(ay)) || (fresh(ax) && fresh(ay))
    {
      hide Good, Predicted, Updated, Missed, InitFilter, Normalized, Propagate, MixX, PredictedZ, PredictedS, MovedBox;
      ghost var p := Abs();
      if s.delaySec == 0.0 {
        return r;
      }
      if r.overridden {
        Reset();
        lastMeas := Some(r);
        return r;
      }
      if !r.found || r.center.None? {
        MissStep(r);
        return r;
      }
      var z := r.center.value;
      lastMeas := Some(r);
      if lastTs.None? {
        Start(r, z);
        return r;
      }
      var dt := Seconds(lastTs.value, r.deviceTimestamp);
      if dt <= 0.0 {
        return r;
      }
      if dt > s.maxGapSec {
        Start(r, z);
        return r;
      }
      var zx, sx := ax.Step(dt, Some(z.x));
      var zy, sy := ay.Step(dt, Some(z.y));
      var d2 := Normalized(z.x - zx, sx) + Normalized(z.y - zy, sy);
      if d2 > s.gate {
        Start(r, z);
        return r;
      }
      lastTs, lastWasMiss := Some(r.deviceTimestamp), false;
      var ex := ax.CombinedState();
      var ey := ay.CombinedState();
      var c := Point(Propagate(ex, s.delaySec), Propagate(ey, s.delaySec));
      o := r.(center := Some(c), bbox := MovedBox(r.bbox, z, c));
    }

    method FreeRun(coastMs: real) returns (k: Option<Coast>)
      requires Ok()
      ensures k == PredictAfter(s, Abs(), coastMs)
    {
      hide Good, Propagate, MixX;
      if !warm {
        return None;
      }
      var coastSec, m := coastMs / 1000.0, lastMeas.value;
      if lastWasMiss || coastSec > s.maxGapSec {
        return Some(Coast(false, false, true, None, None, m.sequence, m.deviceTimestamp));
      }
      var delta := (if coastSec > 0.0 then coastSec else 0.0) + s.delaySec;
      var ex := ax.CombinedState();
      var ey := ay.CombinedState();
      var c := Point(Propagate(ex, delta), Propagate(ey, delta));
      var shiftX := if m.center.Some? then c.x - m.center.value.x else 0.0;
      var shiftY := if m.center.Some? then c.y - m.center.value.y else 0.0;
      var bbox := if m.bbox.None? then None
                  else Some(Rect(m.bbox.value.x + shiftX, m.bbox.value.y + shiftY,
                                 m.bbox.value.width, m.bbox.value.height));
      k := Some(Coast(true, false, coastSec > 0.0, Some(c), bbox, m.sequence, m.deviceTimestamp));
    }
  }
}
