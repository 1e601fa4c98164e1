/**
 One axis of the motion predictor. The functions say what a prediction and a measurement
 update make of a filter value; the lemmas say what every run of them keeps; the class
 performs them in place, loop by loop.
 */
module ImmAxis {
  import opened Options
  import opened LinearAlgebra
  import opened Simplex
  import opened ImmFilter
  import opened Mixing
  import opened KalmanUpdate

  ghost predicate Shaped(c: Config, f: Filter) {
    |f.xs| == |f.Ps| == |f.mu| == |f.cbar| == |c.kinds|
  }

  function InitFilter(c: Config, p: real): Filter
    requires |c.kinds| > 0
  {
    Filter(seq(|c.kinds|, _ => Vec(p, 0.0, 0.0)), seq(|c.kinds|, _ => InitCovariance(c.R)),
           InitialProbs(c.kinds), InitialProbs(c.kinds))
  }

  function PredictX(c: Config, f: Filter, dt: real, j: nat): Vec
    requires Shaped(c, f) && j < |c.kinds|
  {
    MatVec(F(c.kinds[j], dt), MixedXs(Transition(c.kinds), f.mu, f.xs)[j])
  }

  function PredictCov(c: Config, f: Filter, dt: real, j: nat): Mat
    requires Shaped(c, f) && j < |c.kinds|
  {
    PredictP(c, c.kinds[j], dt, MixedPs(Transition(c.kinds), f.mu, f.xs, f.Ps)[j])
  }

  function Predicted(c: Config, f: Filter, dt: real): (g: Filter)
    requires Shaped(c, f)
    ensures Shaped(c, g)
  {
    Filter(seq(|c.kinds|, j requires 0 <= j < |c.kinds| => PredictX(c, f, dt, j)),
           seq(|c.kinds|, j requires 0 <= j < |c.kinds| => PredictCov(c, f, dt, j)),
           f.mu, Cbar(Transition(c.kinds), f.mu))
  }

  /** No covariance has a negative position variance, so every innovation variance is positive. */
  predicate Updatable(c: Config, f: Filter) {
    c.R > 0.0 && forall j :: 0 <= j < |f.Ps| ==> f.Ps[j].r0.p >= 0.0
  }

  function Likelihoods(c: Config, f: Filter, z: real): (like: seq<real>)
    requires Shaped(c, f)
    ensures |like| == |c.kinds|
  {
    seq(|c.kinds|, j requires 0 <= j < |c.kinds| => c.gauss(z - f.xs[j].p, f.Ps[j].r0.p + c.R))
  }

  /** cbar times likelihood, renormalised, or cbar itself when every likelihood underflows. */
  function Reweighted(cbar: seq<real>, like: seq<real>): (mu: seq<real>)
    requires |cbar| == |like|
    ensures |mu| == |cbar|
  {
    var raw := Products(cbar, like);
    if Sum(raw) > 0.0 then seq(|cbar|, j requires 0 <= j < |cbar| => raw[j] / Sum(raw)) else cbar
  }

  function Updated(c: Config, f: Filter, z: real): (g: Filter)
    requires Shaped(c, f) && Updatable(c, f)
    ensures Shaped(c, g)
  {
    Filter(seq(|c.kinds|, j requires 0 <= j < |c.kinds| => UpdateX(f.xs[j], f.Ps[j], c.R, z)),
           seq(|c.kinds|, j requires 0 <= j < |c.kinds| => UpdateP(f.Ps[j], c.R)),
           Reweighted(f.cbar, Likelihoods(c, f, z)), f.cbar)
  }

  function Missed(c: Config, f: Filter): (g: Filter)
    requires Shaped(c, f)
    ensures Shaped(c, g)
  {
    var total := Sum(f.cbar);
    f.(mu := if total > 0.0 then seq(|f.cbar|, j requires 0 <= j < |f.cbar| => f.cbar[j] / total) else f.mu)
  }

  // ---- what every step keeps ----

  lemma InitGood(c: Config, p: real)
    requires ValidConfig(c)
    ensures Good(c, InitFilter(c, p))
  {
    DiagonalPSD(c.R, 10000.0, 1000000.0);
  }

  lemma GoodUpdatable(c: Config, f: Filter)
    requires ValidConfig(c) && Good(c, f)
    ensures Updatable(c, f)
  {
    forall j | 0 <= j < |f.Ps| ensures f.Ps[j].r0.p >= 0.0 {
      PSDForm(f.Ps[j], E0);
      QuadE0(f.Ps[j]);
    }
  }

  /** Mixing and predicting keep every covariance positive semi-definite and the
      probabilities a probability vector, whatever models the filter runs. */
  lemma PredictedGood(c: Config, f: Filter, dt: real)
    requires ValidConfig(c) && Good(c, f) && dt >= 0.0
    ensures Good(c, Predicted(c, f, dt))
    ensures forall j :: 0 <= j < |c.kinds| ==> Predicted(c, f, dt).cbar[j] > 0.0
  {
    hide PSD;
    var rows := Transition(c.kinds);
    TransitionStochastic(c.kinds);
    CbarProbability(rows, f.mu);
    forall j | 0 <= j < |c.kinds| ensures PSD(PredictCov(c, f, dt, j)) {
      WeightsProbability(rows, f.mu, j);
      var w := Weights(rows, f.mu, j);
      MixPSD(w, f.xs, f.Ps, MixX(w, f.xs));
      PredictPSD(c, c.kinds[j], dt, MixP(w, f.xs, f.Ps, MixX(w, f.xs)));
    }
  }

  lemma ReweightedProbability(cbar: seq<real>, like: seq<real>)
    requires Probability(cbar) && NonNegative(like) && |cbar| == |like|
    ensures Probability(Reweighted(cbar, like))
  {
    var raw := Products(cbar, like);
    forall j | 0 <= j < |cbar| ensures raw[j] >= 0.0 {
      ProductNonNegative(cbar[j], like[j]);
    }
    hide Sum, Products;
    if Sum(raw) > 0.0 {
      Normalize(raw, Reweighted(cbar, like));
    }
  }

  /** What model k gave a measurement before it came: its predicted probability times the density
      of its own innovation under its own innovation variance. */
  function Given(c: Config, f: Filter, z: real, k: nat): real
    requires Shaped(c, f) && k < |c.kinds|
  {
    Mul(f.cbar[k], c.gauss(z - f.xs[k].p, f.Ps[k].r0.p + c.R))
  }

  lemma PositiveSum(s: seq<real>, k: nat)
    requires NonNegative(s) && k < |s| && s[k] > 0.0
    ensures Sum(s) > 0.0
  {
    SumNonNegative(s);
  }

  lemma OddsOf(x: real, y: real, total: real)
    requires total > 0.0
    ensures Mul(x / total, y) == Mul(y / total, x)
  {
    assert x / total * y * total == x * y == y / total * x * total;
  }

  /** A measurement reweighs the models by Bayes' rule: the odds between two models become those
      of what each gave the measurement, and when no model gave it anything the probabilities
      stay as predicted. */
  lemma BayesOdds(c: Config, f: Filter, z: real, i: nat, j: nat, k: nat)
    requires ValidConfig(c) && Good(c, f) && i < |c.kinds| && j < |c.kinds| && k < |c.kinds|
    ensures Updatable(c, f)
    ensures var mu := Updated(c, f, z).mu;
            && (Given(c, f, z, k) > 0.0 ==> Mul(mu[i], Given(c, f, z, j)) == Mul(mu[j], Given(c, f, z, i)))
            && ((forall n :: 0 <= n < |c.kinds| ==> Given(c, f, z, n) == 0.0) ==> mu == f.cbar)
  {
    GoodUpdatable(c, f);
    var like := Likelihoods(c, f, z);
    var raw := Products(f.cbar, like);
    hide PSD, Mul, Sum, Updatable;
    forall n | 0 <= n < |raw| ensures raw[n] == Given(c, f, z, n) >= 0.0 {
      GivenNonNegative(c, f, z, n);
    }
    if Given(c, f, z, k) > 0.0 {
      PositiveSum(raw, k);
      OddsOf(raw[i], raw[j], Sum(raw));
    }
    if forall n :: 0 <= n < |c.kinds| ==> Given(c, f, z, n) == 0.0 {
      SumZero(raw);
    }
  }

  lemma GivenNonNegative(c: Config, f: Filter, z: real, n: nat)
    requires ValidConfig(c) && Good(c, f) && n < |c.kinds|
    ensures Given(c, f, z, n) >= 0.0
  {
    ProductNonNegative(f.cbar[n], c.gauss(z - f.xs[n].p, f.Ps[n].r0.p + c.R));
  }

  lemma UpdatedGood(c: Config, f: Filter, z: real)
    requires ValidConfig(c) && Good(c, f)
    ensures Updatable(c, f) && Good(c, Updated(c, f, z))
  {
    hide PSD;
    GoodUpdatable(c, f);
    forall j | 0 <= j < |c.kinds| ensures PSD(UpdateP(f.Ps[j], c.R)) {
      UpdatePSD(f.Ps[j], c.R);
    }
    ReweightedProbability(f.cbar, Likelihoods(c, f, z));
  }

  /** A miss rolls the model probabilities forward and changes nothing else. */
  lemma MissedGood(c: Config, f: Filter)
    requires ValidConfig(c) && Good(c, f)
    ensures Good(c, Missed(c, f)) && Missed(c, f) == f.(mu := f.cbar)
  {
    var total := Sum(f.cbar);
    assert total == 1.0;
    assert Missed(c, f).mu == f.cbar;
  }

  // ---- the joint gate's inputs ----

  /** The combined predicted measurement. */
  function PredictedZ(f: Filter): real
    requires |f.cbar| == |f.xs|
  {
    MixX(f.cbar, f.xs).p
  }

  /** Its variance: within-model plus between-model spread plus measurement noise. */
  function PredictedS(c: Config, f: Filter): real
    requires Shaped(c, f)
  {
    MixP(f.cbar, f.xs, f.Ps, Vec(PredictedZ(f), 0.0, 0.0)).r0.p + c.R
  }

  /** The gate never divides by less than the measurement noise. */
  lemma InnovationVariance(c: Config, f: Filter)
    requires ValidConfig(c) && Good(c, f)
    ensures PredictedS(c, f) >= c.R > 0.0
  {
    var m := MixP(f.cbar, f.xs, f.Ps, Vec(PredictedZ(f), 0.0, 0.0));
    MixPSD(f.cbar, f.xs, f.Ps, Vec(PredictedZ(f), 0.0, 0.0));
    PSDForm(m, E0);
    QuadE0(m);
  }

  // ---- runs ----

  datatype Event = Reset(p: real) | Miss(dt: real) | Found(dt: real, z: real)

  ghost predicate Timely(e: Event) {
    e.Reset? || e.dt >= 0.0
  }

  /** One event of a filter's life. */
  function Stepped(c: Config, f: Filter, e: Event): (g: Filter)
    requires |c.kinds| > 0 && Shaped(c, f)
    ensures Shaped(c, g)
  {
    match e
    case Reset(q) => InitFilter(c, q)
    case Miss(dt) => Missed(c, Predicted(c, f, dt))
    case Found(dt, z) =>
      var g := Predicted(c, f, dt);
      if Updatable(c, g) then Updated(c, g, z) else g
  }

  /** The filter after a reset at p and any events after it. */
  function Run(c: Config, p: real, events: seq<Event>): (f: Filter)
    requires |c.kinds| > 0 && c.R > 0.0
    ensures Shaped(c, f)
  {
    if events == [] then InitFilter(c, p)
    else Stepped(c, Run(c, p, events[..|events| - 1]), events[|events| - 1])
  }

  /** In every state reachable by resets, misses and measurements with any dt >= 0, every
      covariance is symmetric and positive semi-definite and both probability vectors are
      probability vectors. */
  lemma {:induction false} RunGood(c: Config, p: real, events: seq<Event>)
    requires ValidConfig(c) && forall i :: 0 <= i < |events| ==> Timely(events[i])
    ensures Good(c, Run(c, p, events))
  {
    hide Good;
    if events == [] {
      InitGood(c, p);
    } else {
      var n := |events| - 1;
      RunGood(c, p, events[..n]);
      var f := Run(c, p, events[..n]);
      assert Timely(events[n]);
      match events[n]
      case Reset(q) => InitGood(c, q);
      case Miss(dt) =>
        PredictedGood(c, f, dt);
        MissedGood(c, Predicted(c, f, dt));
      case Found(dt, z) =>
        PredictedGood(c, f, dt);
        UpdatedGood(c, Predicted(c, f, dt), z);
    }
  }

  /** (y, Q) lies between the prediction (x, P) and a measurement z with noise variance R. */
  ghost predicate Pulled(x: Vec, P: Mat, R: real, z: real, y: Vec, Q: Mat) {
    && P.r0.p + R > 0.0
    && ((x.p <= y.p <= z) || (z <= y.p <= x.p))
    && Q.r0.p == P.r0.p * R / (P.r0.p + R)
    && 0.0 <= Q.r0.p < R
  }

  lemma UpdatePulled(x: Vec, P: Mat, R: real, z: real)
    requires PSD(P) && R > 0.0
    ensures P.r0.p + R > 0.0 && Pulled(x, P, R, z, UpdateX(x, P, R, z), UpdateP(P, R))
  {
    hide PSD, UpdateX, UpdateP;
    UpdatePosition(x, P, R, z);
  }

  lemma RunAppend(c: Config, p: real, events: seq<Event>, e: Event)
    requires |c.kinds| > 0 && c.R > 0.0
    ensures Run(c, p, events + [e]) == Stepped(c, Run(c, p, events), e)
  {
    assert (events + [e])[..|events|] == events;
    hide Predicted, Updated, Updatable;
  }

  /** A measurement step of any run leaves every model's position between its prediction and
      the measurement, with variance P00*R/(P00+R) < R. */
  lemma RunFound(c: Config, p: real, events: seq<Event>, dt: real, z: real, j: nat)
    requires ValidConfig(c) && dt >= 0.0 && j < |c.kinds|
    requires forall i :: 0 <= i < |events| ==> Timely(events[i])
    ensures var before, after := Predicted(c, Run(c, p, events), dt), Run(c, p, events + [Found(dt, z)]);
            Pulled(before.xs[j], before.Ps[j], c.R, z, after.xs[j], after.Ps[j])
  {
    hide PSD, UpdateX, UpdateP, Predicted, Run, Pulled;
    RunGood(c, p, events);
    var before := Predicted(c, Run(c, p, events), dt);
    PredictedGood(c, Run(c, p, events), dt);
    GoodUpdatable(c, before);
    RunAppend(c, p, events, Found(dt, z));
    UpdatePulled(before.xs[j], before.Ps[j], c.R, z);
  }

  /** The interaction inside a prediction neither moves the combined estimate nor changes the
      combined spread in any direction about any point. */
  lemma PredictionMixConserves(c: Config, f: Filter, u: Vec, m: Vec)
    requires ValidConfig(c) && Good(c, f)
    ensures var rows := Transition(c.kinds);
            var xs, Ps, cbar := MixedXs(rows, f.mu, f.xs), MixedPs(rows, f.mu, f.xs, f.Ps), Cbar(rows, f.mu);
            MixX(cbar, xs) == MixX(f.mu, f.xs) && Quad(MixP(cbar, xs, Ps, m), u) == Quad(MixP(f.mu, f.xs, f.Ps, m), u)
  {
    var rows := Transition(c.kinds);
    TransitionStochastic(c.kinds);
    MixingConservesMean(rows, f.mu, f.xs);
    MixingConservesSpread(rows, f.mu, f.xs, f.Ps, u, m);
  }

  // ---- the filter in place ----

  lemma MixXStep(w: seq<real>, xs: seq<Vec>, i: nat)
    requires |w| == |xs| && i < |w|
    ensures MixX(w[..i + 1], xs[..i + 1]) == Plus(MixX(w[..i], xs[..i]), Times(w[i], xs[i]))
  {
    assert w[..i + 1][..i] == w[..i] && xs[..i + 1][..i] == xs[..i];
  }

  lemma MixPStep(w: seq<real>, xs: seq<Vec>, Ps: seq<Mat>, x0: Vec, i: nat)
    requires |w| == |xs| == |Ps| && i < |w|
    ensures MixP(w[..i + 1], xs[..i + 1], Ps[..i + 1], x0)
         == MatPlus(MixP(w[..i], xs[..i], Ps[..i], x0), MatTimes(w[i], Spread(Ps[i], xs[i], x0)))
  {
    assert w[..i + 1][..i] == w[..i] && xs[..i + 1][..i] == xs[..i] && Ps[..i + 1][..i] == Ps[..i];
  }

  lemma SpreadCorner(w: real, P: Mat, x: Vec, z: real, v: real)
    requires v == w * (P.r0.p + (x.p - z) * (x.p - z))
    ensures MatTimes(w, Spread(P, x, Vec(z, 0.0, 0.0))).r0.p == v
  {
  }

  class AxisImm {
    const c: Config
    const trans: seq<seq<real>>
    var xs: seq<Vec>
    var Ps: seq<Mat>
    var mu: seq<real>
    var cbar: seq<real>

    function State(): Filter
      reads this
    {
      Filter(xs, Ps, mu, cbar)
    }

    /** The constants the constructor derives; they never change. */
    ghost predicate Configured() {
      ValidConfig(c) && trans == Transition(c.kinds)
    }

    /** Initialised at a measurement, with every invariant of the filter. */
    ghost predicate Ready()
      reads this
    {
      Configured() && Good(c, State())
    }

    constructor (c: Config)
      ensures this.c == c && trans == Transition(c.kinds) && xs == [] && Ps == []
      ensures ValidConfig(c) ==> Configured()
    {
      this.c := c;
      this.trans := Transition(c.kinds);
      var mu0 := if |c.kinds| > 0 then InitialProbs(c.kinds) else [];
      this.mu, this.cbar := mu0, mu0;
      this.xs, this.Ps := [], [];
    }

    method Reset(p: real, mu0: seq<real>)
      requires Configured() && mu0 == InitialProbs(c.kinds)
      modifies this
      ensures State() == InitFilter(c, p) && Ready()
    {
      xs, Ps := [], [];
      for j := 0 to |c.kinds|
        invariant xs == seq(j, _ => Vec(p, 0.0, 0.0)) && Ps == seq(j, _ => InitCovariance(c.R))
      {
        xs := xs + [Vec(p, 0.0, 0.0)];
        Ps := Ps + [InitCovariance(c.R)];
      }
      mu, cbar := mu0, mu0;
      InitGood(c, p);
    }

    /** The combined estimate: the probability-weighted state. */
    method CombinedState() returns (x: Vec)
      requires Ready()
      ensures x == MixX(mu, xs)
    {
      x := ZERO_VEC;
      for j := 0 to |c.kinds|
        invariant x == MixX(mu[..j], xs[..j])
      {
        x := Plus(x, Times(mu[j], xs[j]));
        MixXStep(mu, xs, j);
      }
      assert mu[..|mu|] == mu && xs[..|xs|] == xs;
    }

    method MixProbabilities() returns (cb: seq<real>)
      requires Ready()
      ensures cb == Cbar(trans, mu)
    {
      hide Sum;
      var n := |c.kinds|;
      cb := seq(n, _ => 0.0);
      for j := 0 to n
        invariant |cb| == n
        invariant forall k :: 0 <= k < j ==> cb[k] == Sum(Column(trans, mu, k))
        invariant forall k :: j <= k < n ==> cb[k] == 0.0
      {
        var col := Column(trans, mu, j);
        SumZero(col[..0]);
        for i := 0 to n
          invariant |cb| == n && cb[j] == Sum(col[..i])
          invariant forall k :: 0 <= k < j ==> cb[k] == Sum(Column(trans, mu, k))
          invariant forall k :: j < k < n ==> cb[k] == 0.0
        {
          cb := cb[j := cb[j] + Mul(trans[i][j], mu[i])];
          SumPrefix(col, i);
        }
        assert col[..n] == col;
      }
    }

    /** The mixed state and covariance that feed model j. */
    method MixOne(cb: seq<real>, j: nat) returns (x0: Vec, P0: Mat)
      requires Ready() && cb == Cbar(trans, mu) && j < |c.kinds|
      ensures x0 == MixedXs(trans, mu, xs)[j] && P0 == MixedPs(trans, mu, xs, Ps)[j]
    {
      hide Sum, PSD, Probability, Mul;
      var n := |c.kinds|;
      ghost var ws := Weights(trans, mu, j);
      x0 := ZERO_VEC;
      for i := 0 to n
        invariant x0 == MixX(ws[..i], xs[..i])
      {
        var w := if cb[j] > 0.0 then Mul(trans[i][j], mu[i]) / cb[j] else 0.0;
        MixXStep(ws, xs, i);
        x0 := Plus(x0, Times(w, xs[i]));
      }
      assert ws[..n] == ws && xs[..n] == xs && Ps[..n] == Ps;
      P0 := ZERO_MAT;
      for i := 0 to n
        invariant P0 == MixP(ws[..i], xs[..i], Ps[..i], x0)
      {
        hide Spread, MatTimes, MatPlus;
        var w := if cb[j] > 0.0 then Mul(trans[i][j], mu[i]) / cb[j] else 0.0;
        MixPStep(ws, xs, Ps, x0, i);
        P0 := MatPlus(P0, MatTimes(w, Spread(Ps[i], xs[i], x0)));
      }
    }

    method Mix(cb: seq<real>) returns (mixedX: seq<Vec>, mixedP: seq<Mat>)
      requires Ready() && cb == Cbar(trans, mu)
      ensures mixedX == MixedXs(trans, mu, xs) && mixedP == MixedPs(trans, mu, xs, Ps)
    {
      hide Sum, PSD, Probability, MixX, MixP;
      mixedX, mixedP := [], [];
      for j := 0 to |c.kinds|
        invariant mixedX == MixedXs(trans, mu, xs)[..j] && mixedP == MixedPs(trans, mu, xs, Ps)[..j]
      {
        var x0, P0 := MixOne(cb, j);
        mixedX := mixedX + [x0];
        mixedP := mixedP + [P0];
      }
    }

    method Predict(dt: real)
      requires Ready() && dt >= 0.0
      modifies this
      ensures State() == Predicted(c, old(State()), dt) && Ready()
    {
      hide PSD, Sum;
      ghost var f := State();
      var cb := MixProbabilities();
      var mixedX, mixedP := Mix(cb);
      cbar := cb;
      for j := 0 to |c.kinds|
        invariant |xs| == |Ps| == |c.kinds| && mu == f.mu && cbar == cb
        invariant forall k :: 0 <= k < j ==> xs[k] == PredictX(c, f, dt, k) && Ps[k] == PredictCov(c, f, dt, k)
      {
        var kind := c.kinds[j];
        xs := xs[j := MatVec(F(kind, dt), mixedX[j])];
        Ps := Ps[j := PredictP(c, kind, dt, mixedP[j])];
      }
      assert State() == Predicted(c, f, dt);
      PredictedGood(c, f, dt);
    }

    method PredictedMeasurement() returns (z: real, S: real)
      requires Ready()
      ensures z == PredictedZ(State()) && S == PredictedS(c, State()) && S >= c.R > 0.0
    {
      hide PSD, Sum, Probability, MixP;
      z := 0.0;
      for j := 0 to |c.kinds|
        invariant z == MixX(cbar[..j], xs[..j]).p
      {
        MixXStep(cbar, xs, j);
        z := z + cbar[j] * xs[j].p;
      }
      assert cbar[..|cbar|] == cbar && xs[..|xs|] == xs;
      S := MixtureSpread(z);
      S := S + c.R;
      InnovationVariance(c, State());
    }

    /** Within-model plus between-model spread of the predicted position about z. */
    method MixtureSpread(z: real) returns (S: real)
      requires Ready()
      ensures S == MixP(cbar, xs, Ps, Vec(z, 0.0, 0.0)).r0.p
    {
      hide PSD, Sum, Probability, Spread, MatTimes;
      assert cbar[..|cbar|] == cbar && xs[..|xs|] == xs && Ps[..|Ps|] == Ps;
      S := 0.0;
      ghost var x0 := Vec(z, 0.0, 0.0);
      for j := 0 to |c.kinds|
        invariant S == MixP(cbar[..j], xs[..j], Ps[..j], x0).r0.p
      {
        var d := xs[j].p - z;
        var v := cbar[j] * (Ps[j].r0.p + d * d);
        SpreadCorner(cbar[j], Ps[j], xs[j], z, v);
        MixPStep(cbar, xs, Ps, x0, j);
        S := S + v;
      }
    }

    method Update(z: real)
      requires Ready()
      modifies this
      ensures old(Updatable(c, State())) && State() == Updated(c, old(State()), z) && Ready()
    {
      hide PSD, Sum, UpdateX, UpdateP;
      ghost var f := State();
      GoodUpdatable(c, f);
      var n := |c.kinds|;
      var like := [];
      for j := 0 to n
        invariant |xs| == |Ps| == n && mu == f.mu && cbar == f.cbar
        invariant like == Likelihoods(c, f, z)[..j]
        invariant forall k :: 0 <= k < j ==>
                              xs[k] == UpdateX(f.xs[k], f.Ps[k], c.R, z) && Ps[k] == UpdateP(f.Ps[k], c.R)
        invariant forall k :: j <= k < n ==> xs[k] == f.xs[k] && Ps[k] == f.Ps[k]
      {
        var x, P := xs[j], Ps[j];
        like := like + [c.gauss(z - x.p, P.r0.p + c.R)];
        xs := xs[j := UpdateX(x, P, c.R, z)];
        Ps := Ps[j := UpdateP(P, c.R)];
      }
      assert like == Likelihoods(c, f, z);
      Reweigh(like);
      assert State() == Updated(c, f, z);
      UpdatedGood(c, f, z);
    }

    /** The model-probability half of an update. */
    method Reweigh(like: seq<real>)
      requires |like| == |cbar|
      modifies this`mu
      ensures mu == Reweighted(cbar, like)
    {
      hide Sum;
      var sum := 0.0;
      var raw := [];
      ghost var products := Products(cbar, like);
      SumZero(products[..0]);
      for j := 0 to |cbar|
        invariant raw == products[..j] && sum == Sum(products[..j])
      {
        raw := raw + [Mul(cbar[j], like[j])];
        sum := sum + raw[j];
        SumPrefix(products, j);
      }
      assert products[..|cbar|] == products;
      if sum > 0.0 {
        for j := 0 to |cbar|
          invariant |raw| == |cbar|
          invariant forall k :: 0 <= k < j ==> raw[k] == products[k] / sum
          invariant forall k :: j <= k < |cbar| ==> raw[k] == products[k]
        {
          raw := raw[j := raw[j] / sum];
        }
      } else {
        raw := cbar;
      }
      mu := raw;
    }

    method NoUpdate()
      requires Ready()
      modifies this
      ensures State() == Missed(c, old(State())) && Ready()
    {
      hide Sum, PSD;
      ghost var f := State();
      var sum, cb := 0.0, cbar;
      SumZero(cb[..0]);
      for j := 0 to |cb|
        invariant sum == Sum(cb[..j]) && State() == f
      {
        sum := sum + cb[j];
        SumPrefix(cb, j);
      }
      assert cb[..|cb|] == cb;
      mu := if sum > 0.0 then seq(|cb|, j requires 0 <= j < |cb| => cb[j] / sum) else mu;
      assert State() == Missed(c, f);
      MissedGood(c, f);
    }

    /** Advance by dt; a missing measurement is a predict-only step. */
    method Step(dt: real, z: Option<real>) returns (predZ: real, predS: real)
      requires Ready() && dt >= 0.0
      modifies this
      ensures Ready() && predS >= c.R > 0.0
      ensures var g := Predicted(c, old(State()), dt);
              && predZ == PredictedZ(g) && predS == PredictedS(c, g)
              && (z.None? ==> State() == Missed(c, g))
              && (z.Some? ==> Updatable(c, g) && State() == Updated(c, g, z.value))
    {
      Predict(dt);
      predZ, predS := PredictedMeasurement();
      if z.None? {
        NoUpdate();
      } else {
        Update(z.value);
      }
    }
  }
}
