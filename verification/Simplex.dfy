/**
 Finite sums of reals and probability vectors, as the model-probability bookkeeping of the
 motion predictor needs them.
 */
module Simplex {

  function Sum(s: seq<real>): real {
    if s == [] then 0.0 else Sum(s[..|s| - 1]) + s[|s| - 1]
  }

  ghost predicate NonNegative(s: seq<real>) {
    forall i :: 0 <= i < |s| ==> s[i] >= 0.0
  }

  /** A probability vector. */
  ghost predicate Probability(s: seq<real>) {
    NonNegative(s) && Sum(s) == 1.0
  }

  /** A row-stochastic n x n matrix without a zero entry. */
  ghost predicate Stochastic(rows: seq<seq<real>>, n: nat) {
    && |rows| == n
    && forall i :: 0 <= i < n ==> |rows[i]| == n && Probability(rows[i]) && forall j :: 0 <= j < n ==> rows[i][j] > 0.0
  }

  lemma SumPrefix(s: seq<real>, k: nat)
    requires k < |s|
    ensures Sum(s[..k + 1]) == Sum(s[..k]) + s[k]
  {
    assert s[..k + 1][..k] == s[..k];
  }

  lemma {:induction false} SumNonNegative(s: seq<real>)
    requires NonNegative(s)
    ensures Sum(s) >= 0.0
    ensures forall i :: 0 <= i < |s| ==> s[i] <= Sum(s)
  {
    if s != [] {
      SumNonNegative(s[..|s| - 1]);
    }
  }

  /** Multiplication under a name, so that lemmas about sequences of products can leave it folded. */
  function Mul(x: real, y: real): real {
    x * y
  }

  function Scaled(w: real, b: seq<real>): (c: seq<real>)
    ensures |c| == |b|
  {
    seq(|b|, i requires 0 <= i < |b| => Mul(w, b[i]))
  }

  function Added(a: seq<real>, b: seq<real>): (c: seq<real>)
    requires |a| == |b|
    ensures |c| == |a|
  {
    seq(|a|, i requires 0 <= i < |a| => a[i] + b[i])
  }

  function Products(w: seq<real>, a: seq<real>): (p: seq<real>)
    requires |w| == |a|
    ensures |p| == |w|
  {
    seq(|w|, i requires 0 <= i < |w| => Mul(w[i], a[i]))
  }

  lemma MulPlus(w: real, x: real, y: real)
    ensures Mul(w, x + y) == Mul(w, x) + Mul(w, y)
  {
  }

  lemma MulZero(w: real)
    ensures Mul(w, 0.0) == 0.0
  {
  }

  lemma {:induction false} SumOfScaled(w: real, b: seq<real>)
    ensures Sum(Scaled(w, b)) == Mul(w, Sum(b))
  {
    if b == [] {
      MulZero(w);
    } else {
      hide Mul;
      var n := |b| - 1;
      SumOfScaled(w, b[..n]);
      assert Scaled(w, b)[..n] == Scaled(w, b[..n]);
      MulPlus(w, Sum(b[..n]), b[n]);
    }
  }

  lemma {:induction false} SumOfAdded(a: seq<real>, b: seq<real>)
    requires |a| == |b|
    ensures Sum(Added(a, b)) == Sum(a) + Sum(b)
  {
    if a != [] {
      var n := |a| - 1;
      SumOfAdded(a[..n], b[..n]);
      assert Added(a, b)[..n] == Added(a[..n], b[..n]);
    }
  }

  lemma {:induction false} SumZero(a: seq<real>)
    requires forall i :: 0 <= i < |a| ==> a[i] == 0.0
    ensures Sum(a) == 0.0
  {
    if a != [] {
      SumZero(a[..|a| - 1]);
    }
  }

  /** Dividing non-negative numbers with a positive sum by that sum gives a probability vector. */
  lemma Normalize(a: seq<real>, c: seq<real>)
    requires NonNegative(a) && Sum(a) > 0.0 && |c| == |a|
    requires forall i :: 0 <= i < |a| ==> c[i] == a[i] / Sum(a)
    ensures Probability(c)
  {
    var total := Sum(a);
    var w := 1.0 / total;
    forall i | 0 <= i < |a| ensures c[i] == Scaled(w, a)[i] && c[i] >= 0.0 {
      Quotient(a[i], total, w);
    }
    assert c == Scaled(w, a);
    SumOfScaled(w, a);
    assert Mul(w, total) == 1.0;
  }

  lemma Quotient(x: real, total: real, w: real)
    requires x >= 0.0 && total > 0.0 && w == 1.0 / total
    ensures x / total == Mul(w, x) >= 0.0
  {
  }

  lemma {:induction false} SomePositive(s: seq<real>) returns (k: nat)
    requires Sum(s) > 0.0
    ensures k < |s| && s[k] > 0.0
  {
    k := |s| - 1;
    if s[k] <= 0.0 {
      k := SomePositive(s[..k]);
    }
  }

  // ---- transition matrices ----

  predicate Square(rows: seq<seq<real>>, n: nat) {
    |rows| == n && forall i :: 0 <= i < n ==> |rows[i]| == n
  }

  /** The terms of the j-th entry of transpose(rows) * m. */
  function Column(rows: seq<seq<real>>, m: seq<real>, j: nat): (c: seq<real>)
    requires Square(rows, |m|) && j < |m|
    ensures |c| == |m|
  {
    seq(|m|, i requires 0 <= i < |m| => Mul(rows[i][j], m[i]))
  }

  /** transpose(rows) * m, with the sums over the source state cut off at k. */
  function Flow(rows: seq<seq<real>>, m: seq<real>, k: nat): (c: seq<real>)
    requires Square(rows, |m|) && k <= |m|
    ensures |c| == |m|
  {
    seq(|m|, j requires 0 <= j < |m| => Sum(Column(rows, m, j)[..k]))
  }

  lemma FlowStep(rows: seq<seq<real>>, m: seq<real>, k: nat)
    requires Square(rows, |m|) && k < |m|
    ensures Flow(rows, m, k + 1) == Added(Flow(rows, m, k), Scaled(m[k], rows[k]))
  {
    hide Sum;
    forall j | 0 <= j < |m|
      ensures Flow(rows, m, k + 1)[j] == Flow(rows, m, k)[j] + Mul(m[k], rows[k][j])
    {
      SumPrefix(Column(rows, m, j), k);
    }
    hide Mul;
  }

  /** A stochastic matrix moves mass between states without creating or losing any. */
  lemma {:induction false} FlowConserves(rows: seq<seq<real>>, m: seq<real>, k: nat)
    requires Stochastic(rows, |m|) && k <= |m|
    ensures Sum(Flow(rows, m, k)) == Sum(m[..k])
  {
    if k == 0 {
      SumZero(Flow(rows, m, 0));
    } else {
      FlowConserves(rows, m, k - 1);
      FlowStep(rows, m, k - 1);
      SumOfAdded(Flow(rows, m, k - 1), Scaled(m[k - 1], rows[k - 1]));
      SumOfScaled(m[k - 1], rows[k - 1]);
      SumPrefix(m, k - 1);
      assert Probability(rows[k - 1]);
    }
  }

  /** Every state keeps a positive probability: no column of a mixing step is empty. */
  lemma FlowPositive(rows: seq<seq<real>>, m: seq<real>, j: nat)
    requires Stochastic(rows, |m|) && Probability(m) && j < |m|
    ensures NonNegative(Column(rows, m, j)) && Sum(Column(rows, m, j)) > 0.0
  {
    var c := Column(rows, m, j);
    forall i | 0 <= i < |m| ensures c[i] >= 0.0 {
      MulSign(rows[i][j], m[i]);
    }
    SumNonNegative(c);
    var k := SomePositive(m);
    MulSign(rows[k][j], m[k]);
    assert c[k] > 0.0;
  }

  lemma MulSign(x: real, y: real)
    requires x > 0.0 && y >= 0.0
    ensures Mul(x, y) >= 0.0 && (y > 0.0 ==> Mul(x, y) > 0.0)
  {
  }
}
