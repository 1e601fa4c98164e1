/**
 The measurement update of one model: it keeps the covariance positive semi-definite, pulls
 the position between prediction and measurement, and is the best linear update there is.
 */
module KalmanUpdate {
  import opened LinearAlgebra
  import opened ImmFilter

  /** P - K * (row 0 of P), before symmetrising. */
  function Reduced(P: Mat, K: Vec): Mat {
    Mat(Minus(P.r0, Times(K.p, P.r0)), Minus(P.r1, Times(K.v, P.r0)), Minus(P.r2, Times(K.a, P.r0)))
  }

  /** By symmetry the gain is row 0 of P scaled by the inverse innovation variance. */
  lemma GainDot(P: Mat, R: real, u: Vec)
    requires Symmetric(P) && P.r0.p + R > 0.0
    ensures Dot(Gain(P, R), u) == Dot(P.r0, u) / (P.r0.p + R)
  {
    var w := 1.0 / (P.r0.p + R);
    assert Gain(P, R) == Times(w, P.r0);
    DotTimes(w, P.r0, u);
  }

  lemma ReducedForm(P: Mat, K: Vec, u: Vec)
    ensures Quad(Reduced(P, K), u) == Quad(P, u) - Dot(K, u) * Dot(P.r0, u)
  {
    var o := Outer(K, P.r0);
    assert Reduced(P, K) == MatPlus(P, MatTimes(-1.0, o));
    QuadPlus(P, MatTimes(-1.0, o), u);
    QuadTimes(-1.0, o, u);
    QuadOuter(K, P.r0, u);
  }

  lemma ReducedSymmetric(P: Mat, R: real)
    requires Symmetric(P) && P.r0.p + R > 0.0
    ensures Symmetric(Reduced(P, Gain(P, R)))
    ensures UpdateP(P, R) == Reduced(P, Gain(P, R))
  {
    assert Gain(P, R) == Times(1.0 / (P.r0.p + R), P.r0);
    ScaledReduced(P, 1.0 / (P.r0.p + R));
    SymmetrizeSymmetric(Reduced(P, Gain(P, R)));
  }

  lemma ScaledReduced(P: Mat, w: real)
    requires Symmetric(P)
    ensures Symmetric(Reduced(P, Times(w, P.r0)))
  {
    var r := P.r0;
    assert w * r.v * r.p == w * r.p * r.v && w * r.a * r.p == w * r.p * r.a && w * r.a * r.v == w * r.v * r.a;
  }

  /** The form of the updated covariance: what is known about u shrinks by its correlation
      with the measured position. */
  lemma UpdateForm(P: Mat, R: real, u: Vec)
    requires Symmetric(P) && P.r0.p + R > 0.0
    ensures Quad(UpdateP(P, R), u) == Quad(P, u) - Dot(P.r0, u) * Dot(P.r0, u) / (P.r0.p + R)
  {
    ReducedSymmetric(P, R);
    ReducedForm(P, Gain(P, R), u);
    GainDot(P, R, u);
    var c, S := Dot(P.r0, u), P.r0.p + R;
    assert c / S * c == c * c / S;
  }

  lemma ShrinkNonNegative(q: real, c: real, p: real, R: real)
    requires c * c <= p * q && q >= 0.0 && p >= 0.0 && R > 0.0
    ensures q - c * c / (p + R) >= 0.0
  {
    var S := p + R;
    assert S * q == p * q + R * q;
    assert R * q >= 0.0;
    assert c * c / S <= q by {
      assert c * c <= S * q;
      var d := c * c / S;
      assert d * S == c * c;
      if d > q {
        assert (d - q) * S > 0.0;
      }
    }
  }

  /** The position entries of the update. */
  lemma UpdateCorner(x: Vec, P: Mat, R: real, z: real, k: real)
    requires P.r0.p + R > 0.0 && k == P.r0.p / (P.r0.p + R)
    ensures UpdateX(x, P, R, z).p == x.p + (z - x.p) * k
    ensures UpdateP(P, R).r0.p == P.r0.p - k * P.r0.p
  {
  }

  /** A measurement update of a positive semi-definite covariance is positive semi-definite. */
  lemma UpdatePSD(P: Mat, R: real)
    requires PSD(P) && R > 0.0
    ensures P.r0.p + R > 0.0 && PSD(UpdateP(P, R))
  {
    PSDForm(P, E0);
    QuadE0(P);
    PSDSymmetric(P);
    ReducedSymmetric(P, R);
    forall u ensures Quad(UpdateP(P, R), u) >= 0.0 {
      UpdateFormNonNegative(P, R, u);
    }
  }

  lemma UpdateFormNonNegative(P: Mat, R: real, u: Vec)
    requires PSD(P) && P.r0.p >= 0.0 && R > 0.0
    ensures Quad(UpdateP(P, R), u) >= 0.0
  {
    hide *;
    PSDSymmetric(P);
    UpdateForm(P, R, u);
    CauchySchwarz(P, u);
    PSDForm(P, u);
    ShrinkNonNegative(Quad(P, u), Dot(P.r0, u), P.r0.p, R);
  }

  /** A measurement never makes any direction of the state less certain. */
  lemma UpdateShrinks(P: Mat, R: real, u: Vec)
    requires PSD(P) && R > 0.0
    ensures P.r0.p + R > 0.0 && Quad(UpdateP(P, R), u) <= Quad(P, u)
  {
    UpdatePSD(P, R);
    PSDSymmetric(P);
    UpdateForm(P, R, u);
    var c, S, d := Dot(P.r0, u), P.r0.p + R, Quad(P, u) - Quad(UpdateP(P, R), u);
    hide *;
    SquareOver(c, S, d);
  }

  lemma SquareOver(c: real, S: real, d: real)
    requires S > 0.0 && d == c * c / S
    ensures d >= 0.0
  {
    SquareNonNegative(c);
    assert d * S == c * c;
    if d < 0.0 {
      NegativeProduct(d, S);
    }
  }

  lemma NegativeProduct(x: real, y: real)
    requires x < 0.0 && y > 0.0
    ensures x * y < 0.0
  {
  }

  /** After an update the position lies between the prediction and the measurement, and its
      variance is P00*R/(P00+R), below both the prior variance and the noise. */
  lemma UpdatePosition(x: Vec, P: Mat, R: real, z: real)
    requires PSD(P) && R > 0.0
    ensures P.r0.p >= 0.0
    ensures var p := UpdateX(x, P, R, z).p; (x.p <= p <= z) || (z <= p <= x.p)
    ensures var v := UpdateP(P, R).r0.p; v == P.r0.p * R / (P.r0.p + R) && 0.0 <= v < R && v <= P.r0.p
  {
    PSDForm(P, E0);
    QuadE0(P);
    PSDSymmetric(P);
    hide PSD;
    var k := P.r0.p / (P.r0.p + R);
    UpdateCorner(x, P, R, z, k);
    hide *;
    Fraction(P.r0.p, R, k, UpdateP(P, R).r0.p);
    Between(x.p, z, k, UpdateX(x, P, R, z).p);
  }

  lemma Fraction(p: real, R: real, k: real, v: real)
    requires p >= 0.0 && R > 0.0 && k == p / (p + R) && v == p - k * p
    ensures 0.0 <= k < 1.0 && v == p * R / (p + R) && 0.0 <= v < R && v <= p
  {
    assert k * (p + R) == p;
    assert k < 1.0;
    assert v == k * R;
    ProductNonNegative(k, R);
    ProductNonNegative(k, p);
    assert (1.0 - k) * R > 0.0;
  }

  lemma Between(x: real, z: real, k: real, y: real)
    requires 0.0 <= k <= 1.0 && y == x + (z - x) * k
    ensures (x <= y <= z) || (z <= y <= x)
  {
    if x <= z {
      ProductNonNegative(z - x, k);
      ProductNonNegative(z - x, 1.0 - k);
    } else {
      ProductNonNegative(x - z, k);
      ProductNonNegative(x - z, 1.0 - k);
    }
  }

  /** The covariance left by an arbitrary gain g: the form of (I-gH)P(I-gH)' + gRg'. */
  function LeftBy(P: Mat, R: real, g: Vec, u: Vec): real {
    Quad(P, Plus(Times(-Dot(g, u), E0), u)) + R * (Dot(g, u) * Dot(g, u))
  }

  /** The gain the filter uses is optimal: any other linear gain leaves at least as much
      uncertainty in every direction, and strictly more unless it agrees with it there. */
  lemma GainOptimal(P: Mat, R: real, g: Vec, u: Vec)
    requires PSD(P) && R > 0.0
    ensures P.r0.p + R > 0.0 && Quad(UpdateP(P, R), u) <= LeftBy(P, R, g, u)
    ensures Quad(UpdateP(P, R), u) == LeftBy(P, R, g, u) <==> Dot(g, u) == Dot(Gain(P, R), u)
  {
    UpdatePSD(P, R);
    PSDSymmetric(P);
    var t, c, S := Dot(g, u), Dot(P.r0, u), P.r0.p + R;
    assert LeftBy(P, R, g, u) == Quad(P, Plus(Times(-t, E0), u)) + R * (t * t);
    hide *;
    QuadShift(P, -t, u);
    UpdateForm(P, R, u);
    GainDot(P, R, u);
    var k := c / S;
    assert k * S == c;
    var q, p := Quad(P, u), P.r0.p;
    assert Quad(UpdateP(P, R), u) == q - c * c / (p + R);
    var gap := GainGap(q, p, R, c, t, k);
    assert LeftBy(P, R, g, u) == q - c * c / (p + R) + gap;
  }

  lemma WeightedSquare(S: real, d: real)
    requires S > 0.0
    ensures S * (d * d) >= 0.0
    ensures S * (d * d) == 0.0 <==> d == 0.0
  {
    SquareNonNegative(d);
    ProductNonNegative(S, d * d);
    if S * (d * d) == 0.0 {
      ZeroProduct(S, d * d);
      ZeroProduct(d, d);
    }
  }

  lemma ZeroProduct(x: real, y: real)
    requires x * y == 0.0
    ensures x == 0.0 || y == 0.0
  {
  }

  lemma GainGap(q: real, p: real, R: real, c: real, t: real, k: real) returns (gap: real)
    requires p + R > 0.0 && k * (p + R) == c
    ensures Parabola(p, c, q, -t) + R * (t * t) == q - c * c / (p + R) + gap
    ensures gap >= 0.0 && (gap == 0.0 <==> t == k)
  {
    var S, d := p + R, t - k;
    gap := S * (d * d);
    WeightedSquare(S, d);
    assert c * c / S == k * c by {
      assert k * c * S == c * c;
    }
    assert gap == S * (t * t) - 2.0 * (t * (k * S)) + k * (k * S);
    assert S * (t * t) == p * (t * t) + R * (t * t);
  }

  /** What it costs to explain an innovation y by moving the state by P*w: the distance moved,
      measured by P itself, and what is left of the innovation, measured by the noise. */
  function Misfit(P: Mat, R: real, y: real, w: Vec): real
    requires R != 0.0
  {
    var left := y - MatVec(P, w).p;
    Quad(P, w) + left * left / R
  }

  ghost predicate Cheapest(P: Mat, R: real, y: real, k: Vec)
    requires R != 0.0
  {
    forall w :: Misfit(P, R, y, k) <= Misfit(P, R, y, w)
  }

  /** The updated state is the least-squares compromise between prediction and measurement, in
      all three coordinates: it moves the state by P*k for a k of least cost. */
  lemma UpdateIsLeastSquares(x: Vec, P: Mat, R: real, z: real)
    requires PSD(P) && R > 0.0
    ensures P.r0.p + R > 0.0
    ensures exists k :: UpdateX(x, P, R, z) == Plus(x, MatVec(P, k)) && Cheapest(P, R, z - x.p, k)
  {
    PSDForm(P, E0);
    QuadE0(P);
    PSDSymmetric(P);
    var y, S := z - x.p, P.r0.p + R;
    var t := y / S;
    var k := Times(t, E0);
    assert t * S == y;
    UpdateMoves(x, P, R, z, t);
    forall w ensures Misfit(P, R, y, k) <= Misfit(P, R, y, w) {
      LeastAt(P, R, y, t, w);
    }
    hide *;
  }

  /** What it costs to move by P*d more than the least. */
  function Excess(P: Mat, R: real, d: Vec): real
    requires R != 0.0
  {
    Quad(P, d) + Dot(P.r0, d) * Dot(P.r0, d) / R
  }

  lemma ExcessNonNegative(P: Mat, R: real, d: Vec)
    requires PSD(P) && R > 0.0
    ensures Excess(P, R, d) >= 0.0 == Excess(P, R, ZERO_VEC)
  {
    PSDForm(P, d);
    var e := Dot(P.r0, d);
    DotZero(P.r0);
    DotZero(MatVec(P, ZERO_VEC));
    hide PSD, Dot, MatVec;
    SquareOver(e, R, e * e / R);
  }

  lemma LeastAt(P: Mat, R: real, y: real, t: real, w: Vec)
    requires PSD(P) && R > 0.0 && y == t * (P.r0.p + R)
    ensures Misfit(P, R, y, Times(t, E0)) <= Misfit(P, R, y, w)
  {
    var k := Times(t, E0);
    var d := Minus(w, k);
    assert Plus(k, ZERO_VEC) == k && Plus(k, d) == w;
    PSDSymmetric(P);
    hide *;
    CostOf(P, R, y, t, ZERO_VEC);
    CostOf(P, R, y, t, d);
    ExcessNonNegative(P, R, d);
  }

  lemma UpdateMoves(x: Vec, P: Mat, R: real, z: real, t: real)
    requires Symmetric(P) && P.r0.p + R > 0.0 && t == (z - x.p) / (P.r0.p + R)
    ensures UpdateX(x, P, R, z) == Plus(x, MatVec(P, Times(t, E0)))
  {
    var y, S := z - x.p, P.r0.p + R;
    assert y * (P.r0.p / S) == P.r0.p * t && y * (P.r1.p / S) == P.r1.p * t && y * (P.r2.p / S) == P.r2.p * t;
  }

  lemma DotZero(x: Vec)
    ensures Dot(x, ZERO_VEC) == 0.0 == Dot(ZERO_VEC, x)
  {
  }

  /** The cost at t*E0 + d, when t is the innovation over its variance. */
  lemma CostOf(P: Mat, R: real, y: real, t: real, d: Vec)
    requires Symmetric(P) && R > 0.0 && y == t * (P.r0.p + R)
    ensures Misfit(P, R, y, Plus(Times(t, E0), d)) == t * y + Excess(P, R, d)
  {
    var e, p, w := Dot(P.r0, d), P.r0.p, Plus(Times(t, E0), d);
    QuadShift(P, t, d);
    assert MatVec(P, w).p == t * p + e;
    var left := y - MatVec(P, w).p;
    assert left == t * R - e;
    hide Quad, Dot, MatVec;
    SquareOfLeft(t, R, e, left);
    assert t * y == t * t * p + t * t * R;
  }

  lemma SquareOfLeft(t: real, R: real, e: real, left: real)
    requires R > 0.0 && left == t * R - e
    ensures left * left / R == t * t * R - 2.0 * t * e + e * e / R
  {
    assert left * left == (t * t * R - 2.0 * t * e) * R + e * e;
  }
}
