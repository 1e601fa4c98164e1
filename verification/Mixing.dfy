/**
 The interaction step of the multiple-model filter redistributes the per-model estimates
 over the models. It conserves what the mixture as a whole says: its mean, and its second
 moment about any point in every direction.
 */
module Mixing {
  import opened LinearAlgebra
  import opened Simplex
  import opened ImmFilter

  /** The average of a with weights w, times the total weight. */
  function Weighted(w: seq<real>, a: seq<real>): real
    requires |w| == |a|
  {
    Sum(Products(w, a))
  }

  lemma WeightedLast(w: seq<real>, a: seq<real>, n: nat)
    requires |w| == |a| == n + 1
    ensures Weighted(w, a) == Weighted(w[..n], a[..n]) + Mul(w[n], a[n])
  {
    hide Mul;
    assert Products(w, a)[..n] == Products(w[..n], a[..n]);
  }

  /** Averaging over the mixing weights of every target model, and then over the targets,
      is averaging over the models before the mix. */
  lemma WeightedMixing(rows: seq<seq<real>>, mu: seq<real>, a: seq<real>, b: seq<real>)
    requires Stochastic(rows, |mu|) && Probability(mu) && |a| == |b| == |mu|
    requires forall j :: 0 <= j < |mu| ==> b[j] == Weighted(Weights(rows, mu, j), a)
    ensures Weighted(Cbar(rows, mu), b) == Weighted(mu, a)
  {
    hide Mul, Sum;
    var m := Products(mu, a);
    forall j | 0 <= j < |mu| ensures Products(Cbar(rows, mu), b)[j] == Flow(rows, m, |m|)[j] {
      WeightedColumn(rows, mu, a, j);
      assert Column(rows, m, j)[..|m|] == Column(rows, m, j);
    }
    assert Products(Cbar(rows, mu), b) == Flow(rows, m, |m|);
    FlowConserves(rows, m, |m|);
    assert m[..|m|] == m;
  }

  lemma WeightedColumn(rows: seq<seq<real>>, mu: seq<real>, a: seq<real>, j: nat)
    requires Stochastic(rows, |mu|) && Probability(mu) && |a| == |mu| && j < |mu|
    ensures Mul(Cbar(rows, mu)[j], Weighted(Weights(rows, mu, j), a)) == Sum(Column(rows, Products(mu, a), j))
  {
    hide Mul, Sum;
    WeightsProbability(rows, mu, j);
    var total, w := Sum(Column(rows, mu, j)), Weights(rows, mu, j);
    var col := Column(rows, Products(mu, a), j);
    forall i | 0 <= i < |mu| ensures col[i] == Scaled(total, Products(w, a))[i] {
      WeightTerm(rows[i][j], mu[i], a[i], total, w[i]);
    }
    assert col == Scaled(total, Products(w, a));
    SumOfScaled(total, Products(w, a));
  }

  lemma WeightTerm(t: real, m: real, a: real, total: real, w: real)
    requires total > 0.0 && w == Mul(t, m) / total
    ensures Mul(t, Mul(m, a)) == Mul(total, Mul(w, a))
  {
    assert w * total == t * m;
    assert total * (w * a) == (w * total) * a;
  }

  // ---- the mean ----

  /** The coordinates of a family of vectors along u. */
  function Along(u: Vec, xs: seq<Vec>): (a: seq<real>)
    ensures |a| == |xs| && forall i :: 0 <= i < |xs| ==> a[i] == Dot(u, xs[i])
  {
    seq(|xs|, i requires 0 <= i < |xs| => Dot(u, xs[i]))
  }

  lemma {:induction false} MixAlong(u: Vec, w: seq<real>, xs: seq<Vec>)
    requires |w| == |xs|
    ensures Dot(u, MixX(w, xs)) == Weighted(w, Along(u, xs))
  {
    if w != [] {
      var n := |w| - 1;
      MixAlong(u, w[..n], xs[..n]);
      hide Dot, Weighted, Mul;
      DotPlus(MixX(w[..n], xs[..n]), Times(w[n], xs[n]), u);
      AlongTimes(w[n], xs[n], u);
      assert Along(u, xs)[..n] == Along(u, xs[..n]);
      WeightedLast(w, Along(u, xs), n);
    }
  }

  lemma AlongTimes(w: real, x: Vec, u: Vec)
    ensures Dot(Times(w, x), u) == Mul(w, Dot(u, x))
  {
    DotTimes(w, x, u);
  }

  /** The states every model starts its prediction from. */
  function MixedXs(rows: seq<seq<real>>, mu: seq<real>, xs: seq<Vec>): (ys: seq<Vec>)
    requires Square(rows, |mu|) && |xs| == |mu|
    ensures |ys| == |mu| && forall j :: 0 <= j < |mu| ==> ys[j] == MixX(Weights(rows, mu, j), xs)
  {
    seq(|mu|, j requires 0 <= j < |mu| => MixX(Weights(rows, mu, j), xs))
  }

  /** The covariances every model starts its prediction from. */
  function MixedPs(rows: seq<seq<real>>, mu: seq<real>, xs: seq<Vec>, Ps: seq<Mat>): (ms: seq<Mat>)
    requires Square(rows, |mu|) && |xs| == |Ps| == |mu|
    ensures |ms| == |mu|
    ensures forall j :: 0 <= j < |mu| ==>
              ms[j] == MixP(Weights(rows, mu, j), xs, Ps, MixX(Weights(rows, mu, j), xs))
  {
    seq(|mu|, j requires 0 <= j < |mu| => MixP(Weights(rows, mu, j), xs, Ps, MixX(Weights(rows, mu, j), xs)))
  }

  lemma MeanAlong(rows: seq<seq<real>>, mu: seq<real>, xs: seq<Vec>, u: Vec)
    requires Stochastic(rows, |mu|) && Probability(mu) && |xs| == |mu|
    ensures Dot(u, MixX(Cbar(rows, mu), MixedXs(rows, mu, xs))) == Dot(u, MixX(mu, xs))
  {
    var ys := MixedXs(rows, mu, xs);
    MixAlong(u, Cbar(rows, mu), ys);
    MixAlong(u, mu, xs);
    forall j | 0 <= j < |mu| ensures Along(u, ys)[j] == Weighted(Weights(rows, mu, j), Along(u, xs)) {
      MixAlong(u, Weights(rows, mu, j), xs);
    }
    WeightedMixing(rows, mu, Along(u, xs), Along(u, ys));
  }

  lemma SameAlongAxes(x: Vec, y: Vec)
    requires Dot(E0, x) == Dot(E0, y) && Dot(E1, x) == Dot(E1, y) && Dot(E2, x) == Dot(E2, y)
    ensures x == y
  {
  }

  /** Mixing conserves the combined state estimate. */
  lemma MixingConservesMean(rows: seq<seq<real>>, mu: seq<real>, xs: seq<Vec>)
    requires Stochastic(rows, |mu|) && Probability(mu) && |xs| == |mu|
    ensures MixX(Cbar(rows, mu), MixedXs(rows, mu, xs)) == MixX(mu, xs)
  {
    MeanAlong(rows, mu, xs, E0);
    MeanAlong(rows, mu, xs, E1);
    MeanAlong(rows, mu, xs, E2);
    SameAlongAxes(MixX(Cbar(rows, mu), MixedXs(rows, mu, xs)), MixX(mu, xs));
  }

  // ---- the second moment ----

  /** The spread every model contributes in direction u about the point m. */
  function Spreads(u: Vec, m: Vec, xs: seq<Vec>, Ps: seq<Mat>): (s: seq<real>)
    requires |xs| == |Ps|
    ensures |s| == |xs| && forall i :: 0 <= i < |xs| ==> s[i] == Quad(Spread(Ps[i], xs[i], m), u)
  {
    seq(|xs|, i requires 0 <= i < |xs| => Quad(Spread(Ps[i], xs[i], m), u))
  }

  function Squared(x: real, y: real): real {
    (x - y) * (x - y)
  }

  lemma SpreadForm(P: Mat, x: Vec, m: Vec, u: Vec)
    ensures Quad(Spread(P, x, m), u) == Quad(P, u) + Squared(Dot(u, x), Dot(u, m))
  {
    var o := Minus(x, m);
    QuadPlus(P, Outer(o, o), u);
    QuadOuter(o, o, u);
    assert Dot(o, u) == Dot(u, x) - Dot(u, m);
  }

  lemma {:induction false} MixSpreads(u: Vec, m: Vec, w: seq<real>, xs: seq<Vec>, Ps: seq<Mat>)
    requires |w| == |xs| == |Ps|
    ensures Quad(MixP(w, xs, Ps, m), u) == Weighted(w, Spreads(u, m, xs, Ps))
  {
    if w == [] {
      assert MatVec(ZERO_MAT, u) == ZERO_VEC;
    } else {
      var n := |w| - 1;
      MixSpreads(u, m, w[..n], xs[..n], Ps[..n]);
      hide Quad, Spread, MatPlus, MatTimes, Weighted, Mul;
      QuadPlus(MixP(w[..n], xs[..n], Ps[..n], m), MatTimes(w[n], Spread(Ps[n], xs[n], m)), u);
      SpreadTimes(w[n], Spread(Ps[n], xs[n], m), u);
      assert Spreads(u, m, xs, Ps)[..n] == Spreads(u, m, xs[..n], Ps[..n]);
      WeightedLast(w, Spreads(u, m, xs, Ps), n);
    }
  }

  lemma SpreadTimes(w: real, P: Mat, u: Vec)
    ensures Quad(MatTimes(w, P), u) == Mul(w, Quad(P, u))
  {
    QuadTimes(w, P, u);
  }

  /** Moving the point a distribution is looked at from its mean to m adds the squared offset. */
  lemma ParallelAxis(w: seq<real>, a: seq<real>, b: seq<real>, m: real, s: seq<real>, t: seq<real>)
    requires Probability(w) && |w| == |a| == |b| == |s| == |t|
    requires forall i :: 0 <= i < |w| ==> s[i] == b[i] + Squared(a[i], Weighted(w, a))
    requires forall i :: 0 <= i < |w| ==> t[i] == b[i] + Squared(a[i], m)
    ensures Weighted(w, t) == Weighted(w, s) + Squared(Weighted(w, a), m)
  {
    hide Mul, Sum, Squared;
    var mean := Weighted(w, a);
    var e, k := 2.0 * (mean - m), Shift(mean, m);
    var ws, wa := Products(w, s), Products(w, a);
    var r := Added(Added(ws, Scaled(e, wa)), Scaled(k, w));
    forall i | 0 <= i < |w| ensures Products(w, t)[i] == r[i] {
      ParallelTerm(w[i], a[i], b[i], mean, m, s[i], t[i]);
    }
    assert Products(w, t) == r;
    SumOfAdded(Added(ws, Scaled(e, wa)), Scaled(k, w));
    SumOfAdded(ws, Scaled(e, wa));
    SumOfScaled(e, wa);
    SumOfScaled(k, w);
    ShiftClosed(mean, m);
  }

  /** What is left of the squared offset from m once the part linear in a is taken out. */
  function Shift(mean: real, m: real): real {
    Squared(mean, m) - 2.0 * (mean - m) * mean
  }

  lemma ShiftClosed(mean: real, m: real)
    ensures Mul(2.0 * (mean - m), mean) + Mul(Shift(mean, m), 1.0) == Squared(mean, m)
  {
  }

  lemma ParallelTerm(w: real, a: real, b: real, mean: real, m: real, s: real, t: real)
    requires s == b + Squared(a, mean) && t == b + Squared(a, m)
    ensures Mul(w, t) == Mul(w, s) + Mul(2.0 * (mean - m), Mul(w, a)) + Mul(Shift(mean, m), w)
  {
    var e, k := 2.0 * (mean - m), Shift(mean, m);
    assert t == s + e * a + k;
    ParallelProduct(w, s, a, e, k);
  }

  lemma ParallelProduct(w: real, s: real, a: real, e: real, k: real)
    ensures Mul(w, s + e * a + k) == Mul(w, s) + Mul(e, Mul(w, a)) + Mul(k, w)
  {
  }

  /** The mixed covariance of one model, looked at from m. */
  lemma MixedSpread(w: seq<real>, xs: seq<Vec>, Ps: seq<Mat>, u: Vec, m: Vec)
    requires Probability(w) && |w| == |xs| == |Ps|
    ensures var x0 := MixX(w, xs); Quad(Spread(MixP(w, xs, Ps, x0), x0, m), u) == Weighted(w, Spreads(u, m, xs, Ps))
  {
    hide Quad, Dot, Spread, MixX, MixP, Squared;
    var x0 := MixX(w, xs);
    SpreadForm(MixP(w, xs, Ps, x0), x0, m, u);
    MixSpreads(u, x0, w, xs, Ps);
    MixAlong(u, w, xs);
    var b := seq(|xs|, i requires 0 <= i < |xs| => Quad(Ps[i], u));
    forall i | 0 <= i < |w|
      ensures Spreads(u, x0, xs, Ps)[i] == b[i] + Squared(Along(u, xs)[i], Dot(u, x0))
      ensures Spreads(u, m, xs, Ps)[i] == b[i] + Squared(Along(u, xs)[i], Dot(u, m))
    {
      SpreadForm(Ps[i], xs[i], x0, u);
      SpreadForm(Ps[i], xs[i], m, u);
    }
    ParallelAxis(w, Along(u, xs), b, Dot(u, m), Spreads(u, x0, xs, Ps), Spreads(u, m, xs, Ps));
  }

  /** Mixing conserves the combined covariance: about any point m and in any direction u, the
      mixture after the interaction has the spread of the mixture before it. */
  lemma MixingConservesSpread(rows: seq<seq<real>>, mu: seq<real>, xs: seq<Vec>, Ps: seq<Mat>, u: Vec, m: Vec)
    requires Stochastic(rows, |mu|) && Probability(mu) && |xs| == |Ps| == |mu|
    ensures Quad(MixP(Cbar(rows, mu), MixedXs(rows, mu, xs), MixedPs(rows, mu, xs, Ps), m), u)
         == Quad(MixP(mu, xs, Ps, m), u)
  {
    var ys, ms := MixedXs(rows, mu, xs), MixedPs(rows, mu, xs, Ps);
    MixSpreads(u, m, Cbar(rows, mu), ys, ms);
    MixSpreads(u, m, mu, xs, Ps);
    forall j | 0 <= j < |mu|
      ensures Spreads(u, m, ys, ms)[j] == Weighted(Weights(rows, mu, j), Spreads(u, m, xs, Ps))
    {
      WeightsProbability(rows, mu, j);
      MixedSpread(Weights(rows, mu, j), xs, Ps, u, m);
    }
    WeightedMixing(rows, mu, Spreads(u, m, xs, Ps), Spreads(u, m, ys, ms));
  }
}
