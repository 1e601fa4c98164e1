/**
 The DAC arithmetic of the mirror controller: volts to codes by clamping and truncation, a
 differential pair of codes around a bias for each axis, and the local prediction of what the
 mirror will read back.
 */
module MirrorDac {
  import opened Options

  const FULL := 65535
  const SPAN := 200.0

  function Clamp(v: real, min: real, max: real): real {
    if v < min then min else if v > max then max else v
  }

  /** Truncation toward zero is the floor here, since the clamped value is not negative. */
  function VoltToDac(volt: real): (d: int)
    ensures 0 <= d <= FULL
  {
    Clamp(FULL as real * volt / SPAN, 0.0, FULL as real).Floor
  }

  function DacToVolt(dac: int): real {
    SPAN * dac as real / FULL as real
  }

  /** The pair of codes of one axis. */
  function Channel(volt: real, bias: real, dv: real): (int, int) {
    var v := Clamp(volt / 2.0, -dv, dv);
    (VoltToDac(bias + v), VoltToDac(bias - v))
  }

  datatype Pos = Pos(x: real, y: real)
  datatype Codes = Codes(x: (int, int), y: (int, int))

  function Channels(pos: Pos, bias: real, dv: real): Codes {
    Codes(Channel(pos.x, bias, dv / 2.0), Channel(pos.y, bias, dv / 2.0))
  }

  function Decode(c: Codes): Pos {
    Pos(DacToVolt(c.x.0 - c.x.1), DacToVolt(c.y.0 - c.y.1))
  }

  function Predict(pos: Pos, bias: real, dv: real): Pos {
    Decode(Channels(pos, bias, dv))
  }

  /** The prediction of one axis, `dv` already halved. */
  function PredictAxis(volt: real, bias: real, dv: real): real {
    var c := Channel(volt, bias, dv);
    DacToVolt(c.0 - c.1)
  }

  // ---- in code units ----

  /** Codes per volt. */
  function Units(volt: real): real {
    FULL as real * volt / SPAN
  }

  /** The clamped half command of an axis, in codes. */
  function Half(volt: real, dv: real): real {
    Units(Clamp(volt / 2.0, -dv, dv))
  }

  function Ceil(x: real): int {
    -((-x).Floor)
  }

  function Least(a: int, b: int): int {
    if a < b then a else b
  }

  function Abs(x: real): real {
    if x < 0.0 then -x else x
  }

  /** The difference of the two codes for a half command of size `w`, with the bias at code `b`:
      each code moves by at most its distance to its rail. */
  function Swing(b: int, w: real): int {
    if w >= 0.0 then Least(w.Floor, FULL - b) + Least(Ceil(w), b)
    else -(Least((-w).Floor, FULL - b) + Least(Ceil(-w), b))
  }

  /** Converting a code to volts and back gives the code. */
  lemma CodeRoundTrip(d: int)
    requires 0 <= d <= FULL
    ensures VoltToDac(DacToVolt(d)) == d
  {
    assert FULL as real * DacToVolt(d) / SPAN == d as real;
  }

  /** The code is the greatest one whose voltage does not exceed the command, inside the rails. */
  lemma CodeIsFloor(volt: real, d: int)
    requires 0.0 <= volt <= SPAN && 0 <= d <= FULL
    ensures d <= VoltToDac(volt) <==> DacToVolt(d) <= volt
  {
    assert Units(DacToVolt(d)) == d as real;
  }

  lemma OneCode(b: int, w: real)
    requires 0 <= b <= FULL
    ensures w >= 0.0 ==> Clamp(b as real + w, 0.0, FULL as real).Floor == b + Least(w.Floor, FULL - b)
    ensures w <= 0.0 ==> Clamp(b as real + w, 0.0, FULL as real).Floor == b - Least(Ceil(-w), b)
  {
    assert (b as real + w).Floor == b + w.Floor;
  }

  /** The two codes of an axis, with the bias on a code. */
  lemma AxisCodes(volt: real, b: int, dv: real)
    requires 0 <= b <= FULL && dv >= 0.0
    ensures var c := Channel(volt, DacToVolt(b), dv);
            c.0 - c.1 == Swing(b, Half(volt, dv))
  {
    var v := Clamp(volt / 2.0, -dv, dv);
    var w := Half(volt, dv);
    assert Units(DacToVolt(b) + v) == b as real + w;
    assert Units(DacToVolt(b) - v) == b as real + -w;
    OneCode(b, w);
    OneCode(b, -w);
  }

  lemma PredictUnits(volt: real, b: int, dv: real)
    requires 0 <= b <= FULL && dv >= 0.0
    ensures PredictAxis(volt, DacToVolt(b), dv) == DacToVolt(Swing(b, Half(volt, dv)))
  {
    AxisCodes(volt, b, dv);
  }

  /** No rail is reached. */
  predicate Unsaturated(b: int, w: real) {
    Abs(w).Floor <= FULL - b && Ceil(Abs(w)) <= b
  }

  /** Away from the rails the prediction is less than 200/65535 V from the clamped command. */
  lemma PredictionError(volt: real, b: int, dv: real)
    requires 0 <= b <= FULL && dv >= 0.0 && Unsaturated(b, Half(volt, dv))
    ensures Abs(PredictAxis(volt, DacToVolt(b), dv) - 2.0 * Clamp(volt / 2.0, -dv, dv)) < SPAN / FULL as real
  {
    PredictUnits(volt, b, dv);
    var w := Half(volt, dv);
    var m := Swing(b, w);
    assert -1.0 < m as real - 2.0 * w < 1.0;
    var d := PredictAxis(volt, DacToVolt(b), dv) - 2.0 * Clamp(volt / 2.0, -dv, dv);
    assert d == SPAN * (m as real - 2.0 * w) / FULL as real;
  }

  // ---- re-basing on the prediction ----

  /** The half command that the prediction of swing `m` asks for, under a clamp of `top`. */
  function Rebased(m: int, top: real): real {
    Clamp(m as real / 2.0, -top, top)
  }

  lemma RebasedHalf(m: int, dv: real)
    requires dv >= 0.0
    ensures Half(DacToVolt(m), dv) == Rebased(m, Units(dv))
  {
    assert Units(DacToVolt(m) / 2.0) == m as real / 2.0;
    assert Units(-dv) == -Units(dv);
  }

  /** Exactly when predicting from a prediction gives it again: with the bias in the middle, or
      while the axis falls short of either rail, up to the last code. */
  predicate Stable(b: int, w: real) {
    b == 32768 || (Abs(w).Floor <= b && Ceil(Abs(w)) <= FULL - b + 1)
  }

  lemma SwingOdd(b: int, w: real)
    requires 0 <= b <= FULL
    ensures Swing(b, -w) == -Swing(b, w)
  {
  }

  lemma PositiveSwing(b: int, w: real, top: real)
    requires 0 <= b <= FULL && 0.0 <= w <= top
    ensures Swing(b, Rebased(Swing(b, w), top)) == Swing(b, w) <==> Stable(b, w)
  {
    var m := Swing(b, w);
    var v := Rebased(m, top);
    var u := FULL - b;
    var fl, ce := w.Floor, Ceil(w);
    assert ce == fl || ce == fl + 1;
    assert 0.0 <= v <= m as real / 2.0;
    if fl <= u && ce <= b {
      NearSwing(b, w, top);
    } else if fl <= u {
      LowRail(b, w, top);
    } else if ce <= b {
      HighRail(b, w, top);
    } else {
      BothRails(b, w, top);
    }
  }

  lemma NearSwing(b: int, w: real, top: real)
    requires 0 <= b <= FULL && 0.0 <= w <= top && w.Floor <= FULL - b && Ceil(w) <= b
    ensures Swing(b, Rebased(Swing(b, w), top)) == Swing(b, w) && Stable(b, w)
  {
    var k := w.Floor;
    var v := Rebased(Swing(b, w), top);
    if w == k as real {
      assert v == w;
    } else {
      assert Swing(b, w) == 2 * k + 1;
      assert k as real < v <= k as real + 0.5;
      assert v.Floor == k && Ceil(v) == k + 1;
    }
  }

  lemma LowRail(b: int, w: real, top: real)
    requires 0 <= b <= FULL && 0.0 <= w <= top && w.Floor <= FULL - b && Ceil(w) > b
    ensures Swing(b, Rebased(Swing(b, w), top)) == Swing(b, w) <==> Stable(b, w)
  {
    var k := w.Floor;
    var m := Swing(b, w);
    var v := Rebased(m, top);
    assert m == k + b && k >= b;
    assert v == m as real / 2.0;
    if k == b {
      assert v == b as real;
    } else {
      assert v.Floor < k;
      assert Swing(b, v) == v.Floor + b || v.Floor > FULL - b || Ceil(v) < b;
    }
  }

  lemma HighRail(b: int, w: real, top: real)
    requires 0 <= b <= FULL && 0.0 <= w <= top && w.Floor > FULL - b && Ceil(w) <= b
    ensures Swing(b, Rebased(Swing(b, w), top)) == Swing(b, w) <==> Stable(b, w)
  {
    var u := FULL - b;
    var c := Ceil(w);
    var m := Swing(b, w);
    var v := Rebased(m, top);
    assert m == u + c && c >= u + 1;
    assert v == m as real / 2.0;
  }

  lemma BothRails(b: int, w: real, top: real)
    requires 0 <= b <= FULL && 0.0 <= w <= top && w.Floor > FULL - b && Ceil(w) > b
    ensures Swing(b, Rebased(Swing(b, w), top)) == Swing(b, w) <==> Stable(b, w)
  {
    var m := Swing(b, w);
    var v := Rebased(m, top);
    assert m == FULL;
    assert v == m as real / 2.0;
    assert v.Floor == 32767 && Ceil(v) == 32768;
  }

  /** Re-basing an axis on its own prediction leaves it exactly when the command is stable. */
  lemma IdempotentIff(volt: real, b: int, dv: real)
    requires 0 <= b <= FULL && dv >= 0.0
    ensures var p := PredictAxis(volt, DacToVolt(b), dv);
            PredictAxis(p, DacToVolt(b), dv) == p <==> Stable(b, Half(volt, dv))
  {
    hide Half, Swing, Rebased, PredictAxis, Units, DacToVolt, Stable, Clamp;
    var w := Half(volt, dv);
    var m := Swing(b, w);
    PredictUnits(volt, b, dv);
    PredictUnits(DacToVolt(m), b, dv);
    RebasedHalf(m, dv);
    HalfBounds(volt, dv);
    RebaseSwing(b, w, Units(dv));
    DacInjective(Swing(b, Rebased(m, Units(dv))), m);
  }

  lemma HalfBounds(volt: real, dv: real)
    requires dv >= 0.0
    ensures -Units(dv) <= Half(volt, dv) <= Units(dv)
  {
  }

  lemma RebasedOdd(m: int, top: real)
    requires top >= 0.0
    ensures Rebased(-m, top) == -Rebased(m, top)
  {
  }

  lemma RebaseSwing(b: int, w: real, top: real)
    requires 0 <= b <= FULL && -top <= w <= top
    ensures Swing(b, Rebased(Swing(b, w), top)) == Swing(b, w) <==> Stable(b, w)
  {
    hide Swing, Rebased;
    if w >= 0.0 {
      PositiveSwing(b, w, top);
    } else {
      PositiveSwing(b, -w, top);
      SwingOdd(b, w);
      RebasedOdd(Swing(b, w), top);
      SwingOdd(b, Rebased(Swing(b, w), top));
    }
  }

  lemma DacInjective(a: int, b: int)
    ensures DacToVolt(a) == DacToVolt(b) <==> a == b
  {
  }

  /** Away from the rails the prediction is its own fixed point. */
  lemma NeverDrifts(volt: real, b: int, dv: real)
    requires 0 <= b <= FULL && dv >= 0.0 && Unsaturated(b, Half(volt, dv))
    ensures var p := PredictAxis(volt, DacToVolt(b), dv);
            PredictAxis(p, DacToVolt(b), dv) == p
  {
    IdempotentIff(volt, b, dv);
    if b != 32768 {
      assert Ceil(Abs(Half(volt, dv))) <= Abs(Half(volt, dv)).Floor + 1;
    }
  }

  /** A saturated axis can drift: from the command 100 V at a bias of one code the prediction
      falls at every step. */
  lemma SaturatedDrifts()
    ensures var p := PredictAxis(100.0, DacToVolt(1), 85.0);
            PredictAxis(p, DacToVolt(1), 85.0) < p
  {
    PredictUnits(100.0, 1, 85.0);
    var w := Half(100.0, 85.0);
    assert w.Floor == 16383 && Ceil(w) == 16384;
    var m := Swing(1, w);
    assert m == 16384;
    PredictUnits(DacToVolt(m), 1, 85.0);
    RebasedHalf(m, 85.0);
    assert Rebased(m, Units(85.0)) == 8192.0;
  }

  // ---- the controller ----

  const DEFAULT_DV := 170.0
  const DEFAULT_BIAS := 90.0

  class Controller {
    const dv: real
    var bias: real
    var left: Pos
    var right: Pos
    /** The code the bias sits on. */
    ghost var code: int

    ghost predicate Valid()
      reads this
    {
      0 <= code <= FULL && bias == DacToVolt(code) && dv >= 0.0
    }

    constructor (dv: real)
      requires dv >= 0.0
      ensures Valid() && this.dv == dv && bias == 0.0 && left == right == Pos(0.0, 0.0)
    {
      this.dv, bias, left, right, code := dv, 0.0, Pos(0.0, 0.0), Pos(0.0, 0.0), 0;
    }

    /** Set the bias; `echo` is the code the firmware acknowledges. */
    method SetBias(value: real, echo: int) returns (b: real)
      requires Valid() && 0 <= echo <= FULL
      modifies this`bias, this`code
      ensures Valid() && code == echo && b == bias
      ensures echo == VoltToDac(value) && 0.0 <= value <= SPAN ==> bias <= value < bias + SPAN / FULL as real
    {
      bias := DacToVolt(echo);
      code := echo;
      b := bias;
    }

    /** What an axis pair is asked for: the given position, or the one it has. */
    function Target(given: Option<Pos>, has: Pos): Pos {
      if given.Some? then given.value else has
    }

    /** The prediction, without a word to the wire. */
    function PredictVolts(l: Option<Pos>, r: Option<Pos>): (Pos, Pos)
      reads this
    {
      (Predict(Target(l, left), bias, dv), Predict(Target(r, right), bias, dv))
    }

    /** Actuate on firmware that echoes the codes it was sent. */
    method Actuate(l: Option<Pos>, r: Option<Pos>) returns (read: (Pos, Pos))
      modifies this`left, this`right
      ensures read == old(PredictVolts(l, r)) && left == read.0 && right == read.1
      ensures left == Predict(if l.Some? then l.value else old(left), bias, dv)
      ensures right == Predict(if r.Some? then r.value else old(right), bias, dv)
    {
      var cl, cr := Channels(Target(l, left), bias, dv), Channels(Target(r, right), bias, dv);
      read := (Decode(cl), Decode(cr));
      left, right := read.0, read.1;
    }

    method ApplyStreamedPos(l: Pos, r: Pos)
      modifies this`left, this`right
      ensures left == l && right == r
    {
      left, right := l, r;
    }
  }

  /** Actuating with nothing given leaves a stable pair where it is. */
  lemma ReactuationHolds(pos: Pos, b: int, dv: real)
    requires 0 <= b <= FULL && dv >= 0.0
    ensures var p := Predict(pos, DacToVolt(b), dv);
            Predict(p, DacToVolt(b), dv) == p <==> Stable(b, Half(pos.x, dv / 2.0)) && Stable(b, Half(pos.y, dv / 2.0))
  {
    hide Half, Stable, DacToVolt, Channel;
    IdempotentIff(pos.x, b, dv / 2.0);
    IdempotentIff(pos.y, b, dv / 2.0);
  }

  lemma PredictAxes(pos: Pos, bias: real, dv: real)
    ensures Predict(pos, bias, dv) == Pos(PredictAxis(pos.x, bias, dv / 2.0), PredictAxis(pos.y, bias, dv / 2.0))
  {
  }

  lemma DefaultCode()
    ensures VoltToDac(DEFAULT_BIAS) == 29490
  {
  }

  /** With the shipped bias and swing no command reaches a rail, so none ever drifts. */
  lemma DefaultsNeverSaturate(pos: Pos)
    ensures var b := VoltToDac(DEFAULT_BIAS);
            && Unsaturated(b, Half(pos.x, DEFAULT_DV / 2.0)) && Unsaturated(b, Half(pos.y, DEFAULT_DV / 2.0))
            && var p := Predict(pos, DacToVolt(b), DEFAULT_DV); Predict(p, DacToVolt(b), DEFAULT_DV) == p
  {
    hide Half, DacToVolt, Channel, Channels, VoltToDac, Unsaturated, Predict, PredictAxis;
    DefaultCode();
    var b := 29490;
    PredictAxes(pos, DacToVolt(b), DEFAULT_DV);
    PredictAxes(Predict(pos, DacToVolt(b), DEFAULT_DV), DacToVolt(b), DEFAULT_DV);
    DefaultAxis(pos.x);
    DefaultAxis(pos.y);
    NeverDrifts(pos.x, b, DEFAULT_DV / 2.0);
    NeverDrifts(pos.y, b, DEFAULT_DV / 2.0);
  }

  lemma DefaultAxis(volt: real)
    ensures Unsaturated(29490, Half(volt, DEFAULT_DV / 2.0))
  {
    var w := Half(volt, DEFAULT_DV / 2.0);
    assert -27852.5 <= w <= 27852.5;
  }
}
