/**
 What a prediction says about where the target goes: a filter that is on a motion its models
 follow is on the same motion after any prediction, and predicting twice is predicting once
 over the whole time, mean and covariance.
 */
module ImmMotion {
  import opened LinearAlgebra
  import opened Simplex
  import opened ImmFilter
  import opened Mixing
  import opened KalmanUpdate
  import opened ImmAxis

  // ---- motions of constant acceleration ----

  /** Position, velocity and acceleration at time zero. */
  datatype Motion = Motion(p: real, v: real, a: real)

  function At(m: Motion, t: real): Vec {
    Vec(m.p + m.v * t + m.a * (t * t) / 2.0, m.v + m.a * t, m.a)
  }

  /** What a model can follow: standing still, moving steadily, accelerating steadily. */
  predicate Follows(kind: ModelKind, m: Motion) {
    match kind
    case CP => m.v == 0.0 && m.a == 0.0
    case CV => m.a == 0.0
    case CA => true
  }

  /** The motion a model takes a state for: it forgets what it has no place for. */
  function Believed(kind: ModelKind, x: Vec): (m: Motion)
    ensures Follows(kind, m)
  {
    match kind
    case CP => Motion(x.p, 0.0, 0.0)
    case CV => Motion(x.p, x.v, 0.0)
    case CA => Motion(x.p, x.v, x.a)
  }

  predicate Shared(kinds: seq<ModelKind>, m: Motion) {
    forall j :: 0 <= j < |kinds| ==> Follows(kinds[j], m)
  }

  /** Every model state of the filter is the motion's state at time t. */
  predicate OnMotion(f: Filter, m: Motion, t: real) {
    forall j :: 0 <= j < |f.xs| ==> f.xs[j] == At(m, t)
  }

  /** Every model carries its state along the motion it takes the state for. */
  lemma ModelMoves(kind: ModelKind, dt: real, x: Vec)
    ensures MatVec(F(kind, dt), x) == At(Believed(kind, x), dt)
  {
    assert 0.5 * dt * dt * x.a == x.a * (dt * dt) / 2.0;
    match kind
    case CP => assert MatVec(F(CP, dt), x) == Vec(x.p, 0.0, 0.0);
    case CV => assert MatVec(F(CV, dt), x) == Vec(x.p + dt * x.v, x.v, 0.0);
    case CA => assert MatVec(F(CA, dt), x) == Vec(x.p + dt * x.v + 0.5 * dt * dt * x.a, x.v + dt * x.a, x.a);
  }

  lemma MotionMoves(kind: ModelKind, m: Motion, t: real, dt: real)
    requires Follows(kind, m)
    ensures At(Believed(kind, At(m, t)), dt) == At(m, t + dt)
  {
    var x := At(m, t);
    assert Believed(kind, x) == Motion(x.p, x.v, x.a) by {
      assert m.a == 0.0 ==> m.a * t == 0.0;
    }
    hide Believed, Follows;
    MotionSums(m.v, m.a, t, dt);
  }

  lemma MotionSums(v: real, a: real, t: real, dt: real)
    ensures a * t + a * dt == a * (t + dt)
    ensures v * t + a * (t * t) / 2.0 + (v + a * t) * dt + a * (dt * dt) / 2.0
         == v * (t + dt) + a * ((t + dt) * (t + dt)) / 2.0
  {
    assert (v + a * t) * dt == v * dt + a * t * dt;
    assert v * (t + dt) == v * t + v * dt;
    assert a * ((t + dt) * (t + dt)) == a * (t * t) + 2.0 * (a * t * dt) + a * (dt * dt);
  }

  lemma {:induction false} MixOfOne(w: seq<real>, xs: seq<Vec>, x: Vec)
    requires |w| == |xs| && forall i :: 0 <= i < |xs| ==> xs[i] == x
    ensures MixX(w, xs) == Times(Sum(w), x)
  {
    if w != [] {
      var n := |w| - 1;
      MixOfOne(w[..n], xs[..n], x);
      TimesPlus(Sum(w[..n]), w[n], x);
    }
  }

  lemma TimesPlus(a: real, b: real, x: Vec)
    ensures Plus(Times(a, x), Times(b, x)) == Times(a + b, x)
  {
  }

  lemma TimesOne(x: Vec)
    ensures Times(1.0, x) == x
  {
  }

  /** A prediction moves every model's mixed state along the motion the model takes it for. */
  lemma PredictsBelief(c: Config, f: Filter, dt: real, j: nat)
    requires Shaped(c, f) && j < |c.kinds|
    ensures Predicted(c, f, dt).xs[j] == At(Believed(c.kinds[j], MixedXs(Transition(c.kinds), f.mu, f.xs)[j]), dt)
  {
    ModelMoves(c.kinds[j], dt, MixedXs(Transition(c.kinds), f.mu, f.xs)[j]);
  }

  /** A filter on a motion all its models follow is on that motion after any prediction. */
  lemma PredictsMotion(c: Config, f: Filter, m: Motion, t: real, dt: real)
    requires ValidConfig(c) && Good(c, f) && Shared(c.kinds, m) && OnMotion(f, m, t)
    ensures OnMotion(Predicted(c, f, dt), m, t + dt)
  {
    var rows := Transition(c.kinds);
    TransitionStochastic(c.kinds);
    hide PSD, F, Transition, Weights, At, Believed;
    forall j | 0 <= j < |c.kinds| ensures Predicted(c, f, dt).xs[j] == At(m, t + dt) {
      WeightsProbability(rows, f.mu, j);
      MixOfOne(Weights(rows, f.mu, j), f.xs, At(m, t));
      TimesOne(At(m, t));
      PredictsBelief(c, f, dt, j);
      MotionMoves(c.kinds[j], m, t, dt);
    }
  }

  /** The combined state of a filter on a motion is the motion's. */
  lemma CombinedOnMotion(w: seq<real>, f: Filter, m: Motion, t: real)
    requires |w| == |f.xs| && Sum(w) == 1.0 && OnMotion(f, m, t)
    ensures MixX(w, f.xs) == At(m, t)
  {
    MixOfOne(w, f.xs, At(m, t));
    TimesOne(At(m, t));
  }

  // ---- a prediction with one model, in two parts ----

  /** How far a velocity v and an acceleration p lead over dt, and what they add up to. */
  function Lead(dt: real, p: real, v: real): real {
    dt * p + v
  }

  function Fall(dt: real, p: real, v: real): real {
    0.5 * (dt * dt) * p + dt * v
  }

  /** A direction looked at before the step instead of after it. */
  function Back(kind: ModelKind, dt: real, u: Vec): Vec {
    match kind
    case CP => Vec(u.p, 0.0, 0.0)
    case CV => Vec(u.p, Lead(dt, u.p, u.v), 0.0)
    case CA => Vec(u.p, Lead(dt, u.p, u.v), Fall(dt, u.p, u.v) + u.a)
  }

  lemma BackIs(kind: ModelKind, dt: real, u: Vec)
    ensures MatVec(Transpose(F(kind, dt)), u) == Back(kind, dt, u)
  {
    assert 0.5 * dt * dt * u.p == 0.5 * (dt * dt) * u.p;
    match kind
    case CP => assert Transpose(F(CP, dt)) == F(CP, dt);
    case CV => assert Transpose(F(CV, dt)) == Mat(E0, Vec(dt, 1.0, 0.0), ZERO_VEC);
    case CA => assert Transpose(F(CA, dt)) == Mat(E0, Vec(dt, 1.0, 0.0), Vec(0.5 * dt * dt, dt, 1.0));
  }

  lemma BackTwice(kind: ModelKind, s: real, t: real, u: Vec)
    ensures Back(kind, s, Back(kind, t, u)) == Back(kind, s + t, u)
  {
    hide Lead, Fall;
    LeadTwice(s, t, u.p, u.v);
    FallTwice(s, t, u.p, u.v);
  }

  lemma LeadTwice(s: real, t: real, p: real, v: real)
    ensures Lead(s, p, Lead(t, p, v)) == Lead(s + t, p, v)
  {
    assert (s + t) * p == s * p + t * p;
  }

  lemma FallTwice(s: real, t: real, p: real, v: real)
    ensures Fall(s, p, Lead(t, p, v)) + Fall(t, p, v) == Fall(s + t, p, v)
  {
    assert s * (t * p + v) == s * t * p + s * v;
    assert 0.5 * ((s + t) * (s + t)) * p == 0.5 * (s * s) * p + s * t * p + 0.5 * (t * t) * p;
    assert (s + t) * v == s * v + t * v;
  }

  /** The noise a white acceleration of density one leaves in direction (p, v) after time t. */
  function AccelNoise(t: real, p: real, v: real): real {
    t * t * t / 3.0 * (p * p) + t * t * (p * v) + t * (v * v)
  }

  /** The noise a white jerk of density one leaves in direction (p, v, a) after time t. */
  function JerkNoise(t: real, p: real, v: real, a: real): real {
    var t2 := t * t;
    var t3 := t2 * t;
    t3 * t2 / 20.0 * (p * p) + t2 * t2 / 4.0 * (p * v) + t3 / 3.0 * (p * a + v * v) + t2 * (v * a) + t * (a * a)
  }

  lemma AccelNoiseIs(c: Config, t: real, u: Vec)
    ensures Quad(Q(c, CV, t), u) == c.cvAccelPsd * AccelNoise(t, u.p, u.v) + FLOOR * (u.a * u.a)
  {
    AccelNoiseForm(c, t, u);
    hide Quad, Q;
  }

  lemma JerkNoiseIs(c: Config, t: real, u: Vec)
    ensures Quad(Q(c, CA, t), u) == c.caJerkPsd * JerkNoise(t, u.p, u.v, u.a)
  {
    JerkNoiseForm(c, t, u);
    hide Quad, Q;
  }

  lemma AccelTwice(s: real, t: real, u: Vec)
    ensures var b := Back(CV, t, u); AccelNoise(s, b.p, b.v) + AccelNoise(t, u.p, u.v) == AccelNoise(s + t, u.p, u.v)
  {
  }

  lemma JerkTwice(s: real, t: real, p: real, v: real, a: real)
    ensures JerkNoise(s, p, t * p + v, 0.5 * (t * t) * p + t * v + a) + JerkNoise(t, p, v, a)
         == JerkNoise(s + t, p, v, a)
  {
    var t2 := t * t;
    var t3, w, b := t2 * t, t * p + v, 0.5 * t2 * p + t * v + a;
    assert p * w == t * (p * p) + p * v;
    assert p * b == 0.5 * t2 * (p * p) + t * (p * v) + p * a;
    assert w * w == t2 * (p * p) + 2.0 * t * (p * v) + v * v;
    assert w * b == 0.5 * t3 * (p * p) + 1.5 * t2 * (p * v) + t * (p * a + v * v) + v * a;
    assert b * b == 0.25 * (t2 * t2) * (p * p) + t3 * (p * v) + t2 * (p * a + v * v) + 2.0 * t * (v * a) + a * a;
    JerkPowers(s, t, p * p, p * v, p * a + v * v, v * a, a * a);
  }

  lemma JerkPowers(s: real, t: real, pp: real, pv: real, m: real, va: real, aa: real)
    ensures var s2, t2 := s * s, t * t;
            var s3, t3, u, u2 := s2 * s, t2 * t, s + t, (s + t) * (s + t);
            s3 * s2 / 20.0 * pp + s2 * s2 / 4.0 * (t * pp + pv)
            + s3 / 3.0 * (1.5 * t2 * pp + 3.0 * t * pv + m)
            + s2 * (0.5 * t3 * pp + 1.5 * t2 * pv + t * m + va)
            + s * (0.25 * (t2 * t2) * pp + t3 * pv + t2 * m + 2.0 * t * va + aa)
            + (t3 * t2 / 20.0 * pp + t2 * t2 / 4.0 * pv + t3 / 3.0 * m + t2 * va + t * aa)
            == u2 * u * u2 / 20.0 * pp + u2 * u2 / 4.0 * pv + u2 * u / 3.0 * m + u2 * va + u * aa
  {
  }

  /** The noise of a step is the noise of its first part, carried on, and that of its second. */
  lemma NoiseTwice(c: Config, kind: ModelKind, s: real, t: real, u: Vec)
    ensures Quad(Q(c, kind, s), Back(kind, t, u)) + Quad(Q(c, kind, t), u) == Quad(Q(c, kind, s + t), u)
  {
    match kind
    case CP =>
      assert c.cpPosPsd * (s + t) * (u.p * u.p) == c.cpPosPsd * s * (u.p * u.p) + c.cpPosPsd * t * (u.p * u.p);
      DiagonalForm(c.cpPosPsd * s, Back(kind, t, u));
      DiagonalForm(c.cpPosPsd * t, u);
      DiagonalForm(c.cpPosPsd * (s + t), u);
    case CV => AccelNoiseTwice(c, s, t, u);
    case CA => JerkNoiseTwice(c, s, t, u);
  }

  lemma AccelNoiseTwice(c: Config, s: real, t: real, u: Vec)
    ensures Quad(Q(c, CV, s), Back(CV, t, u)) + Quad(Q(c, CV, t), u) == Quad(Q(c, CV, s + t), u)
  {
    hide Quad, Q, AccelNoise;
    AccelNoiseIs(c, s, Back(CV, t, u));
    AccelNoiseIs(c, t, u);
    AccelNoiseIs(c, s + t, u);
    AccelTwice(s, t, u);
  }

  lemma JerkNoiseTwice(c: Config, s: real, t: real, u: Vec)
    ensures Quad(Q(c, CA, s), Back(CA, t, u)) + Quad(Q(c, CA, t), u) == Quad(Q(c, CA, s + t), u)
  {
    hide Quad, Q, JerkNoise;
    JerkNoiseIs(c, s, Back(CA, t, u));
    JerkNoiseIs(c, t, u);
    JerkNoiseIs(c, s + t, u);
    var p, v, a := u.p, u.v, u.a;
    assert Back(CA, t, u) == Vec(p, t * p + v, 0.5 * (t * t) * p + t * v + a);
    JerkTwice(s, t, p, v, a);
  }

  lemma DiagonalForm(x: real, u: Vec)
    ensures Quad(Mat(Vec(x, 0.0, 0.0), Vec(0.0, FLOOR, 0.0), Vec(0.0, 0.0, FLOOR)), u)
         == x * (u.p * u.p) + FLOOR * (u.v * u.v + u.a * u.a)
  {
  }

  /** What a prediction knows in direction u: what was known before the step, and the noise. */
  lemma PredictForm(c: Config, kind: ModelKind, dt: real, P: Mat, u: Vec)
    requires Symmetric(P)
    ensures Symmetric(PredictP(c, kind, dt, P))
    ensures Quad(PredictP(c, kind, dt, P), u) == Quad(P, Back(kind, dt, u)) + Quad(Q(c, kind, dt), u)
  {
    var f := F(kind, dt);
    var m := MatMat(MatMat(f, P), Transpose(f));
    assert Symmetric(m) && Symmetric(Q(c, kind, dt)) by {
      hide MatMat;
      SandwichEntry(f, P, E0, E1);
      SandwichEntry(f, P, E0, E2);
      SandwichEntry(f, P, E1, E2);
      SymmetricByEntries(m);
    }
    assert Symmetric(MatPlus(m, Q(c, kind, dt)));
    SymmetrizeSymmetric(MatPlus(m, Q(c, kind, dt)));
    hide F, Q, MatMat, MatPlus, Dot, MatVec, Transpose, Back, Symmetrize;
    Sandwich(f, P, u, u);
    BackIs(kind, dt, u);
    QuadPlus(m, Q(c, kind, dt), u);
  }

  lemma SameForms(a: Mat, b: Mat)
    requires Symmetric(a) && Symmetric(b) && forall u :: Quad(a, u) == Quad(b, u)
    ensures a == b
  {
    EntryForms(a);
    EntryForms(b);
  }

  lemma EntryForms(m: Mat)
    requires Symmetric(m)
    ensures Quad(m, E0) == m.r0.p && Quad(m, E1) == m.r1.v && Quad(m, E2) == m.r2.a
    ensures Quad(m, Plus(E0, E1)) == m.r0.p + m.r1.v + 2.0 * m.r0.v
    ensures Quad(m, Plus(E0, E2)) == m.r0.p + m.r2.a + 2.0 * m.r0.a
    ensures Quad(m, Plus(E1, E2)) == m.r1.v + m.r2.a + 2.0 * m.r1.a
  {
  }

  lemma PredictPTwice(c: Config, kind: ModelKind, s: real, t: real, P: Mat)
    requires Symmetric(P)
    ensures PredictP(c, kind, t, PredictP(c, kind, s, P)) == PredictP(c, kind, s + t, P)
  {
    var once, twice := PredictP(c, kind, s + t, P), PredictP(c, kind, t, PredictP(c, kind, s, P));
    hide PredictP, Quad, Q, Back, Symmetric;
    forall u ensures Quad(once, u) == Quad(twice, u) {
      PredictForm(c, kind, s + t, P, u);
      PredictForm(c, kind, s, P, Back(kind, t, u));
      PredictForm(c, kind, t, PredictP(c, kind, s, P), u);
      BackTwice(kind, s, t, u);
      NoiseTwice(c, kind, s, t, u);
    }
    PredictForm(c, kind, s + t, P, E0);
    PredictForm(c, kind, s, P, E0);
    PredictForm(c, kind, t, PredictP(c, kind, s, P), E0);
    SameForms(once, twice);
  }

  /** With one model there is nothing to mix. */
  lemma SoleMix(c: Config, f: Filter)
    requires ValidConfig(c) && Good(c, f) && |c.kinds| == 1
    ensures Cbar(Transition(c.kinds), f.mu) == [1.0] == f.mu
    ensures MixedXs(Transition(c.kinds), f.mu, f.xs) == f.xs
    ensures MixedPs(Transition(c.kinds), f.mu, f.xs, f.Ps) == f.Ps
  {
    hide Transition, Cbar, Weights, PSD, Probability, MixX, MixP;
    var rows := Transition(c.kinds);
    TransitionStochastic(c.kinds);
    CbarProbability(rows, f.mu);
    WeightsProbability(rows, f.mu, 0);
    SoleProbability(f.mu);
    SoleProbability(Weights(rows, f.mu, 0));
    SoleProbability(Cbar(rows, f.mu));
    SoleMixX(f.xs);
    SoleMixP(f.xs, f.Ps);
  }

  lemma SoleProbability(w: seq<real>)
    requires |w| == 1 && Probability(w)
    ensures w == [1.0]
  {
    assert Sum(w) == Sum(w[..0]) + w[0] && Sum(w[..0]) == 0.0;
  }

  lemma SoleMixX(xs: seq<Vec>)
    requires |xs| == 1
    ensures MixX([1.0], xs) == xs[0]
  {
    var none: seq<real> := [1.0][..0];
    assert MixX(none, xs[..0]) == ZERO_VEC;
  }

  lemma SoleMixP(xs: seq<Vec>, Ps: seq<Mat>)
    requires |xs| == |Ps| == 1
    ensures MixP([1.0], xs, Ps, xs[0]) == Ps[0]
  {
    var none: seq<real> := [1.0][..0];
    assert MixP(none, xs[..0], Ps[..0], xs[0]) == ZERO_MAT;
    assert MixP([1.0], xs, Ps, xs[0]) == MatPlus(ZERO_MAT, MatTimes(1.0, Spread(Ps[0], xs[0], xs[0])));
    SpreadAtItself(Ps[0], xs[0]);
  }

  lemma SpreadAtItself(P: Mat, x: Vec)
    ensures MatPlus(ZERO_MAT, MatTimes(1.0, Spread(P, x, x))) == P
  {
    var d := Minus(x, x);
    assert d == ZERO_VEC;
    assert Outer(d, d) == ZERO_MAT;
    assert Spread(P, x, x) == MatPlus(P, ZERO_MAT);
    assert MatPlus(P, ZERO_MAT) == P;
    assert MatTimes(1.0, P) == P;
  }

  /** With one model, predicting over s and then over t is predicting over s + t: the state, the
      covariance and the probabilities come out the same however a gap is cut. */
  lemma PredictTwice(c: Config, f: Filter, s: real, t: real)
    requires ValidConfig(c) && Good(c, f) && |c.kinds| == 1 && s >= 0.0
    ensures Predicted(c, Predicted(c, f, s), t) == Predicted(c, f, s + t)
  {
    var g := Predicted(c, f, s);
    PredictedGood(c, f, s);
    SoleMix(c, f);
    SoleMix(c, g);
    SoleStep(c, f, s, t);
    hide PSD, F, PredictP, Transition, Cbar, MixedXs, MixedPs, MatVec, Probability;
  }

  lemma SoleStep(c: Config, f: Filter, s: real, t: real)
    requires |c.kinds| == |f.xs| == |f.Ps| == 1 && PSD(f.Ps[0])
    ensures var k, x, P := c.kinds[0], f.xs[0], f.Ps[0];
            && MatVec(F(k, t), MatVec(F(k, s), x)) == MatVec(F(k, s + t), x)
            && PredictP(c, k, t, PredictP(c, k, s, P)) == PredictP(c, k, s + t, P)
  {
    var kind, x := c.kinds[0], f.xs[0];
    PSDSymmetric(f.Ps[0]);
    PredictPTwice(c, kind, s, t, f.Ps[0]);
    hide PSD, F, PredictP, At, Believed, MatVec;
    ModelMoves(kind, s, x);
    ModelMoves(kind, t, MatVec(F(kind, s), x));
    ModelMoves(kind, s + t, x);
    MotionMoves(kind, Believed(kind, x), s, t);
  }

  /** The driven coordinate of a model gains variance at the rate of its noise density, and the
      coordinates it drives gain none to first order. */
  lemma NoiseRate(c: Config, kind: ModelKind, dt: real)
    requires ValidConfig(c) && dt >= 0.0
    ensures var q := Q(c, kind, dt);
            match kind
            case CP => q.r0.p == c.cpPosPsd * dt
            case CV => q.r1.v == c.cvAccelPsd * dt && 0.0 <= q.r0.p <= q.r1.v * (dt * dt)
            case CA => && q.r2.a == c.caJerkPsd * dt && 0.0 <= q.r1.v <= q.r2.a * (dt * dt)
                       && 0.0 <= q.r0.p <= q.r2.a * ((dt * dt) * (dt * dt))
  {
    SquareNonNegative(dt);
    if kind.CV? {
      ProductNonNegative(c.cvAccelPsd, dt);
      Rate(c.cvAccelPsd, dt);
    } else if kind.CA? {
      ProductNonNegative(c.caJerkPsd, dt);
      Rate(c.caJerkPsd, dt);
    }
  }

  lemma Rate(q: real, dt: real)
    requires q * dt >= 0.0
    ensures q * (dt * dt * dt) == q * dt * (dt * dt) >= 0.0
    ensures q * (dt * dt * dt * dt * dt) == q * dt * ((dt * dt) * (dt * dt)) >= 0.0
  {
    SquareNonNegative(dt);
    SquareNonNegative(dt * dt);
    ProductNonNegative(q * dt, dt * dt);
    ProductNonNegative(q * dt, (dt * dt) * (dt * dt));
  }

  // ---- the combined prediction ----

  /** The spread of every model's position about m. */
  function About(f: Filter, m: real): (s: seq<real>)
    requires |f.xs| == |f.Ps|
    ensures |s| == |f.xs|
    ensures forall j :: 0 <= j < |f.xs| ==> s[j] == f.Ps[j].r0.p + Squared(f.xs[j].p, m)
  {
    seq(|f.xs|, j requires 0 <= j < |f.xs| => f.Ps[j].r0.p + Squared(f.xs[j].p, m))
  }

  lemma CornerSpread(P: Mat, x: Vec, m: real)
    ensures Quad(Spread(P, x, Vec(m, 0.0, 0.0)), E0) == P.r0.p + Squared(x.p, m)
  {
    QuadE0(Spread(P, x, Vec(m, 0.0, 0.0)));
  }

  /** The predicted measurement and its variance are mean and variance of the position over all
      models: about any point m the predicted positions spread by that variance, without the
      noise, and the squared distance of the mean from m. */
  lemma PredictedMoments(c: Config, f: Filter, m: real)
    requires ValidConfig(c) && Good(c, f)
    ensures Weighted(f.cbar, About(f, m)) == PredictedS(c, f) - c.R + Squared(PredictedZ(f), m)
  {
    var z, w := PredictedZ(f), f.cbar;
    var positions := Along(E0, f.xs);
    MixAlong(E0, w, f.xs);
    assert Weighted(w, positions) == z;
    var b := seq(|f.Ps|, j requires 0 <= j < |f.Ps| => f.Ps[j].r0.p);
    forall j | 0 <= j < |w| ensures positions[j] == f.xs[j].p {
      assert Dot(E0, f.xs[j]) == f.xs[j].p;
    }
    hide PSD, Quad, Spread, Squared, MixX, MixP, Dot, Weighted;
    ParallelAxis(w, positions, b, m, About(f, z), About(f, m));
    var x0 := Vec(z, 0.0, 0.0);
    forall j | 0 <= j < |w| ensures Spreads(E0, x0, f.xs, f.Ps)[j] == About(f, z)[j] {
      CornerSpread(f.Ps[j], f.xs[j], z);
    }
    assert Spreads(E0, x0, f.xs, f.Ps) == About(f, z);
    MixSpreads(E0, x0, w, f.xs, f.Ps);
    QuadE0(MixP(w, f.xs, f.Ps, x0));
  }

  // ---- where a filter starts ----

  /** A filter that was just started knows the position as well as one measurement says it, and
      next to nothing of velocity and acceleration, whatever the model. */
  lemma StartKnows(c: Config, p: real, j: nat, u: Vec)
    requires ValidConfig(c) && j < |c.kinds|
    ensures var f := InitFilter(c, p);
            && f.xs[j] == Vec(p, 0.0, 0.0) && f.mu == f.cbar
            && Quad(f.Ps[j], u) == c.R * (u.p * u.p) + 10000.0 * (u.v * u.v) + 1000000.0 * (u.a * u.a)
  {
  }

  /** With all three models the transition rows are the configured ones, each model by far most
      likely to stay. */
  lemma DefaultTransition()
    ensures Transition([CP, CV, CA]) == [[0.94, 0.05, 0.01], [0.05, 0.9, 0.05], [0.01, 0.09, 0.9]]
    ensures InitialProbs([CP, CV, CA]) == [0.2, 0.6, 0.2]
  {
    var kinds := [CP, CV, CA];
    DefaultRow(CP);
    DefaultRow(CV);
    DefaultRow(CA);
    assert Transition(kinds) == [TransitionRow(kinds, CP), TransitionRow(kinds, CV), TransitionRow(kinds, CA)];
    var raw := seq(3, j requires 0 <= j < 3 => InitialProb(kinds[j]));
    SumOfThree(raw);
    hide Sum;
  }

  lemma DefaultRow(i: ModelKind)
    ensures TransitionRow([CP, CV, CA], i) == [FullTransition(i, CP), FullTransition(i, CV), FullTransition(i, CA)]
  {
    var kinds := [CP, CV, CA];
    SumOfThree(seq(3, j requires 0 <= j < 3 => FullTransition(i, kinds[j])));
    hide Sum;
  }

  lemma SumOfThree(s: seq<real>)
    requires |s| == 3
    ensures Sum(s) == s[0] + s[1] + s[2]
  {
    SumPrefix(s, 2);
    SumPrefix(s, 1);
    SumPrefix(s, 0);
    assert s[..3] == s && s[..0] == [];
  }

  /** Choosing fewer models keeps the odds between those that are left. */
  lemma TransitionOdds(kinds: seq<ModelKind>, i: nat, j: nat, k: nat)
    requires i < |kinds| && j < |kinds| && k < |kinds|
    ensures var rows := Transition(kinds);
            Mul(rows[i][j], FullTransition(kinds[i], kinds[k])) == Mul(rows[i][k], FullTransition(kinds[i], kinds[j]))
  {
    var raw := seq(|kinds|, n requires 0 <= n < |kinds| => FullTransition(kinds[i], kinds[n]));
    SumNonNegative(raw);
    assert raw[0] > 0.0;
    hide Sum;
    OddsOf(raw[j], raw[k], Sum(raw));
  }
}
