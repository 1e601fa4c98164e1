/**
 One axis of the interacting-multiple-model predictor as functions on values: the three
 dynamics models, the mixing, prediction and measurement steps, and what every one of them
 keeps. The class that performs these steps in place is in ImmAxis.dfy.
 */
module ImmFilter {
  import opened LinearAlgebra
  import opened Simplex

  datatype ModelKind = CP | CV | CA

  /** What the filter is built from. `gauss(y, s)` is the likelihood of an innovation y
      with variance s. */
  datatype Config = Config(kinds: seq<ModelKind>, cvAccelPsd: real, caJerkPsd: real, cpPosPsd: real, R: real,
                           gauss: (real, real) -> real)

  ghost predicate ValidConfig(c: Config) {
    && |c.kinds| > 0
    && c.cvAccelPsd >= 0.0 && c.caJerkPsd >= 0.0 && c.cpPosPsd >= 0.0 && c.R > 0.0
    && forall y: real, s: real :: c.gauss(y, s) >= 0.0
  }

  /** The per-model states and covariances with the model probabilities. */
  datatype Filter = Filter(xs: seq<Vec>, Ps: seq<Mat>, mu: seq<real>, cbar: seq<real>)

  // ---- the models ----

  const FLOOR := 0.001

  function F(kind: ModelKind, dt: real): Mat {
    match kind
    case CP => Mat(E0, ZERO_VEC, ZERO_VEC)
    case CV => Mat(Vec(1.0, dt, 0.0), E1, ZERO_VEC)
    case CA => Mat(Vec(1.0, dt, 0.5 * dt * dt), Vec(0.0, 1.0, dt), E2)
  }

  function Q(c: Config, kind: ModelKind, dt: real): Mat {
    var d2 := dt * dt;
    var d3 := d2 * dt;
    match kind
    case CP => Mat(Vec(c.cpPosPsd * dt, 0.0, 0.0), Vec(0.0, FLOOR, 0.0), Vec(0.0, 0.0, FLOOR))
    case CV =>
      var q := c.cvAccelPsd;
      Mat(Vec((q * d3) / 3.0, (q * d2) / 2.0, 0.0), Vec((q * d2) / 2.0, q * dt, 0.0), Vec(0.0, 0.0, FLOOR))
    case CA =>
      var q, d4 := c.caJerkPsd, d3 * dt;
      var d5 := d4 * dt;
      Mat(Vec((q * d5) / 20.0, (q * d4) / 8.0, (q * d3) / 6.0),
          Vec((q * d4) / 8.0, (q * d3) / 3.0, (q * d2) / 2.0),
          Vec((q * d3) / 6.0, (q * d2) / 2.0, q * dt))
  }

  function FullTransition(i: ModelKind, j: ModelKind): real {
    match (i, j)
    case (CP, CP) => 0.94 case (CP, CV) => 0.05 case (CP, CA) => 0.01
    case (CV, CP) => 0.05 case (CV, CV) => 0.9  case (CV, CA) => 0.05
    case (CA, CP) => 0.01 case (CA, CV) => 0.09 case (CA, CA) => 0.9
  }

  function InitialProb(k: ModelKind): real {
    match k case CP => 0.2 case CV => 0.6 case CA => 0.2
  }

  /** The transition row of model i over the chosen models, renormalised. */
  function TransitionRow(kinds: seq<ModelKind>, i: ModelKind): (row: seq<real>) {
    var raw := seq(|kinds|, j requires 0 <= j < |kinds| => FullTransition(i, kinds[j]));
    var s := Sum(raw);
    seq(|kinds|, j requires 0 <= j < |kinds| => if s > 0.0 then raw[j] / s else 1.0 / |kinds| as real)
  }

  function Transition(kinds: seq<ModelKind>): (rows: seq<seq<real>>)
    ensures Square(rows, |kinds|)
  {
    seq(|kinds|, i requires 0 <= i < |kinds| => TransitionRow(kinds, kinds[i]))
  }

  function InitialProbs(kinds: seq<ModelKind>): (mu: seq<real>)
    requires |kinds| > 0
    ensures |mu| == |kinds| && Probability(mu)
  {
    var raw := seq(|kinds|, j requires 0 <= j < |kinds| => InitialProb(kinds[j]));
    assert Sum(raw) > 0.0 by {
      SumNonNegative(raw);
      assert raw[0] > 0.0;
    }
    var mu := seq(|kinds|, j requires 0 <= j < |kinds| => raw[j] / Sum(raw));
    assert Probability(mu) by { Normalize(raw, mu); }
    mu
  }

  function InitCovariance(measurementVar: real): Mat {
    Mat(Vec(measurementVar, 0.0, 0.0), Vec(0.0, 10000.0, 0.0), Vec(0.0, 0.0, 1000000.0))
  }

  // ---- the steps ----

  /** Predicted probability of every model: transpose(transition) * mu. */
  function Cbar(rows: seq<seq<real>>, mu: seq<real>): (c: seq<real>)
    requires Square(rows, |mu|)
    ensures |c| == |mu|
  {
    seq(|mu|, j requires 0 <= j < |mu| => Sum(Column(rows, mu, j)))
  }

  /** The weight of every source model in the mix that feeds model j. */
  function Weights(rows: seq<seq<real>>, mu: seq<real>, j: nat): (w: seq<real>)
    requires Square(rows, |mu|) && j < |mu|
    ensures |w| == |mu|
  {
    var c := Sum(Column(rows, mu, j));
    seq(|mu|, i requires 0 <= i < |mu| => if c > 0.0 then Mul(rows[i][j], mu[i]) / c else 0.0)
  }

  function MixX(w: seq<real>, xs: seq<Vec>): Vec
    requires |w| == |xs|
  {
    if w == [] then ZERO_VEC
    else var n := |w| - 1; Plus(MixX(w[..n], xs[..n]), Times(w[n], xs[n]))
  }

  /** A covariance seen from x0: its own spread plus the outer product of its offset. */
  function Spread(P: Mat, x: Vec, x0: Vec): Mat {
    MatPlus(P, Outer(Minus(x, x0), Minus(x, x0)))
  }

  function MixP(w: seq<real>, xs: seq<Vec>, Ps: seq<Mat>, x0: Vec): Mat
    requires |w| == |xs| == |Ps|
  {
    if w == [] then ZERO_MAT
    else
      var n := |w| - 1;
      MatPlus(MixP(w[..n], xs[..n], Ps[..n], x0), MatTimes(w[n], Spread(Ps[n], xs[n], x0)))
  }

  function PredictP(c: Config, kind: ModelKind, dt: real, P: Mat): Mat {
    Symmetrize(MatPlus(MatMat(MatMat(F(kind, dt), P), Transpose(F(kind, dt))), Q(c, kind, dt)))
  }

  /** The Kalman gain for a position measurement with noise variance R. */
  function Gain(P: Mat, R: real): Vec
    requires P.r0.p + R != 0.0
  {
    var S := P.r0.p + R;
    Vec(P.r0.p / S, P.r1.p / S, P.r2.p / S)
  }

  function UpdateX(x: Vec, P: Mat, R: real, z: real): Vec
    requires P.r0.p + R != 0.0
  {
    Plus(x, Times(z - x.p, Gain(P, R)))
  }

  function UpdateP(P: Mat, R: real): Mat
    requires P.r0.p + R != 0.0
  {
    var K := Gain(P, R);
    Symmetrize(Mat(Minus(P.r0, Times(K.p, P.r0)), Minus(P.r1, Times(K.v, P.r0)), Minus(P.r2, Times(K.a, P.r0))))
  }

  // ---- what the steps keep ----

  /** The shape and content every warm filter has. */
  ghost predicate Good(c: Config, f: Filter) {
    && |f.xs| == |f.Ps| == |f.mu| == |f.cbar| == |c.kinds|
    && (forall j :: 0 <= j < |f.Ps| ==> PSD(f.Ps[j]))
    && Probability(f.mu) && Probability(f.cbar)
  }

  lemma TransitionStochastic(kinds: seq<ModelKind>)
    requires |kinds| > 0
    ensures Stochastic(Transition(kinds), |kinds|)
  {
    forall i | 0 <= i < |kinds|
      ensures Probability(TransitionRow(kinds, kinds[i]))
      ensures forall j :: 0 <= j < |kinds| ==> TransitionRow(kinds, kinds[i])[j] > 0.0
    {
      TransitionRowProbability(kinds, kinds[i]);
    }
  }

  lemma TransitionRowProbability(kinds: seq<ModelKind>, i: ModelKind)
    requires |kinds| > 0
    ensures Probability(TransitionRow(kinds, i))
    ensures forall j :: 0 <= j < |kinds| ==> TransitionRow(kinds, i)[j] > 0.0
  {
    var raw := seq(|kinds|, j requires 0 <= j < |kinds| => FullTransition(i, kinds[j]));
    SumNonNegative(raw);
    assert raw[0] > 0.0;
    Normalize(raw, TransitionRow(kinds, i));
    forall j | 0 <= j < |kinds| ensures TransitionRow(kinds, i)[j] > 0.0 {
      assert raw[j] > 0.0;
      assert TransitionRow(kinds, i)[j] == raw[j] / Sum(raw);
    }
  }

  /** The predicted model probabilities are again a probability vector, with no zero entry. */
  lemma CbarProbability(rows: seq<seq<real>>, mu: seq<real>)
    requires Stochastic(rows, |mu|) && Probability(mu)
    ensures Probability(Cbar(rows, mu))
    ensures forall j :: 0 <= j < |mu| ==> Cbar(rows, mu)[j] > 0.0
  {
    forall j | 0 <= j < |mu| ensures Cbar(rows, mu)[j] > 0.0 && Cbar(rows, mu)[j] == Flow(rows, mu, |mu|)[j] {
      FlowPositive(rows, mu, j);
      assert Column(rows, mu, j)[..|mu|] == Column(rows, mu, j);
    }
    assert Cbar(rows, mu) == Flow(rows, mu, |mu|);
    FlowConserves(rows, mu, |mu|);
    assert mu[..|mu|] == mu;
  }

  /** The mixing weights into one model are a probability vector: the fallback for an
      unreachable model is never taken. */
  lemma WeightsProbability(rows: seq<seq<real>>, mu: seq<real>, j: nat)
    requires Stochastic(rows, |mu|) && Probability(mu) && j < |mu|
    ensures Sum(Column(rows, mu, j)) > 0.0
    ensures Probability(Weights(rows, mu, j))
    ensures forall i :: 0 <= i < |mu| ==> Weights(rows, mu, j)[i] == Mul(rows[i][j], mu[i]) / Sum(Column(rows, mu, j))
  {
    hide Mul, Sum;
    FlowPositive(rows, mu, j);
    Normalize(Column(rows, mu, j), Weights(rows, mu, j));
  }

  lemma {:induction false} MixPSD(w: seq<real>, xs: seq<Vec>, Ps: seq<Mat>, x0: Vec)
    requires |w| == |xs| == |Ps| && NonNegative(w)
    requires forall i :: 0 <= i < |Ps| ==> PSD(Ps[i])
    ensures PSD(MixP(w, xs, Ps, x0))
  {
    hide PSD;
    if w == [] {
      ZeroPSD();
    } else {
      var n := |w| - 1;
      MixPSD(w[..n], xs[..n], Ps[..n], x0);
      var d := Minus(xs[n], x0);
      OuterPSD(d);
      PlusPSD(Ps[n], Outer(d, d));
      TimesPSD(w[n], Spread(Ps[n], xs[n], x0));
      PlusPSD(MixP(w[..n], xs[..n], Ps[..n], x0), MatTimes(w[n], Spread(Ps[n], xs[n], x0)));
    }
  }

  lemma DiagonalPSD(x: real, y: real, z: real)
    requires x >= 0.0 && y >= 0.0 && z >= 0.0
    ensures PSD(Mat(Vec(x, 0.0, 0.0), Vec(0.0, y, 0.0), Vec(0.0, 0.0, z)))
  {
    var m := Mat(Vec(x, 0.0, 0.0), Vec(0.0, y, 0.0), Vec(0.0, 0.0, z));
    forall u ensures Quad(m, u) >= 0.0 {
      assert Quad(m, u) == x * (u.p * u.p) + y * (u.v * u.v) + z * (u.a * u.a);
      SquareNonNegative(u.p); SquareNonNegative(u.v); SquareNonNegative(u.a);
      ProductNonNegative(x, u.p * u.p); ProductNonNegative(y, u.v * u.v); ProductNonNegative(z, u.a * u.a);
    }
  }

  /** All three process-noise covariances are positive semi-definite, by completing squares. */
  lemma ProcessNoisePSD(c: Config, kind: ModelKind, dt: real)
    requires ValidConfig(c) && dt >= 0.0
    ensures PSD(Q(c, kind, dt))
  {
    match kind
    case CP =>
      ProductNonNegative(c.cpPosPsd, dt);
      DiagonalPSD(c.cpPosPsd * dt, FLOOR, FLOOR);
      var m := Mat(Vec(c.cpPosPsd * dt, 0.0, 0.0), Vec(0.0, FLOOR, 0.0), Vec(0.0, 0.0, FLOOR));
      assert Q(c, kind, dt) == m;
    case CV =>
      ProductNonNegative(c.cvAccelPsd, dt);
      forall u ensures Quad(Q(c, CV, dt), u) >= 0.0 {
        AccelNoiseForm(c, dt, u);
        AccelSquares(dt * u.p, u.v);
        ProductNonNegative(c.cvAccelPsd * dt, AccelForm(dt * u.p, u.v));
        SquareNonNegative(u.a);
      }
    case CA =>
      ProductNonNegative(c.caJerkPsd, dt);
      forall u ensures Quad(Q(c, CA, dt), u) >= 0.0 {
        JerkNoiseForm(c, dt, u);
        JerkSquares(dt * dt * u.p, dt * u.v, u.a);
        ProductNonNegative(c.caJerkPsd * dt, JerkForm(dt * dt * u.p, dt * u.v, u.a));
      }
  }

  function AccelForm(x: real, y: real): real {
    x * x / 3.0 + x * y + y * y
  }

  lemma AccelNoiseForm(c: Config, dt: real, u: Vec)
    ensures Quad(Q(c, CV, dt), u) == c.cvAccelPsd * dt * AccelForm(dt * u.p, u.v) + FLOOR * (u.a * u.a)
  {
  }

  lemma AccelSquares(x: real, y: real)
    ensures AccelForm(x, y) >= 0.0
  {
    SquareNonNegative(y + 0.5 * x);
    SquareNonNegative(x);
    assert AccelForm(x, y) == (y + 0.5 * x) * (y + 0.5 * x) + x * x / 12.0;
  }

  function JerkForm(x: real, y: real, z: real): real {
    x * x / 20.0 + x * y / 4.0 + x * z / 3.0 + y * y / 3.0 + y * z + z * z
  }

  lemma JerkNoiseForm(c: Config, dt: real, u: Vec)
    ensures Quad(Q(c, CA, dt), u) == c.caJerkPsd * dt * JerkForm(dt * dt * u.p, dt * u.v, u.a)
  {
    var g, x, y, z := c.caJerkPsd * dt, dt * dt * u.p, dt * u.v, u.a;
    var m := Q(c, CA, dt);
    var r0, r1, r2 := x / 20.0 + y / 8.0 + z / 6.0, x / 8.0 + y / 3.0 + z / 2.0, x / 6.0 + y / 2.0 + z;
    var d0, d1, d2 := g * (dt * dt) * r0, g * dt * r1, g * r2;
    assert Dot(m.r0, u) == d0;
    assert Dot(m.r1, u) == d1;
    assert Dot(m.r2, u) == d2;
    QuadRows(m, u, d0, d1, d2);
    hide *;
    JerkRows(x, y, z, r0, r1, r2);
    JerkFactor(g, dt, u, r0, r1, r2, d0, d1, d2, JerkForm(x, y, z));
  }

  lemma JerkRows(x: real, y: real, z: real, r0: real, r1: real, r2: real)
    requires r0 == x / 20.0 + y / 8.0 + z / 6.0 && r1 == x / 8.0 + y / 3.0 + z / 2.0 && r2 == x / 6.0 + y / 2.0 + z
    ensures x * r0 + y * r1 + z * r2 == JerkForm(x, y, z)
  {
  }

  lemma JerkFactor(g: real, dt: real, u: Vec, r0: real, r1: real, r2: real, d0: real, d1: real, d2: real, w: real)
    requires d0 == g * (dt * dt) * r0 && d1 == g * dt * r1 && d2 == g * r2
    requires w == (dt * dt * u.p) * r0 + (dt * u.v) * r1 + u.a * r2
    ensures u.p * d0 + u.v * d1 + u.a * d2 == g * w
  {
    assert g * w == g * ((dt * dt * u.p) * r0) + g * ((dt * u.v) * r1) + g * (u.a * r2);
  }

  lemma QuadRows(m: Mat, u: Vec, d0: real, d1: real, d2: real)
    requires Dot(m.r0, u) == d0 && Dot(m.r1, u) == d1 && Dot(m.r2, u) == d2
    ensures Quad(m, u) == u.p * d0 + u.v * d1 + u.a * d2
  {
  }

  lemma JerkSquares(x: real, y: real, z: real)
    ensures JerkForm(x, y, z) >= 0.0
  {
    var s, t := z + y / 2.0 + x / 6.0, y + x / 2.0;
    SquareNonNegative(s);
    SquareNonNegative(t);
    SquareNonNegative(x);
    assert JerkForm(x, y, z) == s * s + t * t / 12.0 + x * x / 720.0;
  }

  lemma PredictPSD(c: Config, kind: ModelKind, dt: real, P: Mat)
    requires ValidConfig(c) && dt >= 0.0 && PSD(P)
    ensures PSD(PredictP(c, kind, dt, P))
  {
    var f := F(kind, dt);
    SandwichPSD(f, P);
    ProcessNoisePSD(c, kind, dt);
    var m := MatMat(MatMat(f, P), Transpose(f));
    PlusPSD(m, Q(c, kind, dt));
    PSDSymmetric(MatPlus(m, Q(c, kind, dt)));
    SymmetrizeSymmetric(MatPlus(m, Q(c, kind, dt)));
  }
}
