/**
 The three-dimensional linear algebra the motion predictor is written in: state vectors
 [position, velocity, acceleration], 3x3 matrices given by their rows, and the order
 "positive semi-definite" that every covariance of the filter has to keep.
 */
module LinearAlgebra {

  datatype Vec = Vec(p: real, v: real, a: real)
  datatype Mat = Mat(r0: Vec, r1: Vec, r2: Vec)

  const ZERO_VEC := Vec(0.0, 0.0, 0.0)
  const ZERO_MAT := Mat(ZERO_VEC, ZERO_VEC, ZERO_VEC)
  const E0 := Vec(1.0, 0.0, 0.0)
  const E1 := Vec(0.0, 1.0, 0.0)
  const E2 := Vec(0.0, 0.0, 1.0)

  function Dot(x: Vec, y: Vec): real {
    x.p * y.p + x.v * y.v + x.a * y.a
  }

  function Plus(x: Vec, y: Vec): Vec {
    Vec(x.p + y.p, x.v + y.v, x.a + y.a)
  }

  function Minus(x: Vec, y: Vec): Vec {
    Vec(x.p - y.p, x.v - y.v, x.a - y.a)
  }

  function Times(w: real, x: Vec): Vec {
    Vec(w * x.p, w * x.v, w * x.a)
  }

  function MatPlus(m: Mat, n: Mat): Mat {
    Mat(Plus(m.r0, n.r0), Plus(m.r1, n.r1), Plus(m.r2, n.r2))
  }

  function MatTimes(w: real, m: Mat): Mat {
    Mat(Times(w, m.r0), Times(w, m.r1), Times(w, m.r2))
  }

  /** The rank-one matrix x * transpose(y). */
  function Outer(x: Vec, y: Vec): Mat {
    Mat(Times(x.p, y), Times(x.v, y), Times(x.a, y))
  }

  function MatVec(m: Mat, x: Vec): Vec {
    Vec(Dot(m.r0, x), Dot(m.r1, x), Dot(m.r2, x))
  }

  function Transpose(m: Mat): Mat {
    Mat(Vec(m.r0.p, m.r1.p, m.r2.p), Vec(m.r0.v, m.r1.v, m.r2.v), Vec(m.r0.a, m.r1.a, m.r2.a))
  }

  /** The row vector transpose(x) * m. */
  function VecMat(x: Vec, m: Mat): Vec {
    Plus(Plus(Times(x.p, m.r0), Times(x.v, m.r1)), Times(x.a, m.r2))
  }

  function MatMat(m: Mat, n: Mat): Mat {
    Mat(VecMat(m.r0, n), VecMat(m.r1, n), VecMat(m.r2, n))
  }

  function Symmetrize(m: Mat): Mat {
    var pv, pa, va := 0.5 * (m.r0.v + m.r1.p), 0.5 * (m.r0.a + m.r2.p), 0.5 * (m.r1.a + m.r2.v);
    Mat(Vec(m.r0.p, pv, pa), Vec(pv, m.r1.v, va), Vec(pa, va, m.r2.a))
  }

  /** The quadratic form transpose(u) * m * u. */
  function Quad(m: Mat, u: Vec): real {
    Dot(u, MatVec(m, u))
  }

  predicate Symmetric(m: Mat) {
    m == Transpose(m)
  }

  ghost predicate PSD(m: Mat) {
    Symmetric(m) && forall u: Vec :: Quad(m, u) >= 0.0
  }

  // ---- algebra ----

  lemma DotPlus(x: Vec, y: Vec, z: Vec)
    ensures Dot(Plus(x, y), z) == Dot(x, z) + Dot(y, z) == Dot(z, Plus(x, y))
  {
  }

  lemma DotTimes(w: real, x: Vec, y: Vec)
    ensures Dot(Times(w, x), y) == w * Dot(x, y) == w * Dot(y, x) == Dot(y, Times(w, x))
  {
  }

  lemma VecMatDot(x: Vec, m: Mat, y: Vec)
    ensures Dot(VecMat(x, m), y) == Dot(x, MatVec(m, y))
  {
    DotPlus(Plus(Times(x.p, m.r0), Times(x.v, m.r1)), Times(x.a, m.r2), y);
    DotPlus(Times(x.p, m.r0), Times(x.v, m.r1), y);
    DotTimes(x.p, m.r0, y);
    DotTimes(x.v, m.r1, y);
    DotTimes(x.a, m.r2, y);
  }

  lemma MatMatVec(m: Mat, n: Mat, x: Vec)
    ensures MatVec(MatMat(m, n), x) == MatVec(m, MatVec(n, x))
  {
    VecMatDot(m.r0, n, x);
    VecMatDot(m.r1, n, x);
    VecMatDot(m.r2, n, x);
  }

  lemma TransposeDot(m: Mat, x: Vec, y: Vec)
    ensures Dot(x, MatVec(m, y)) == Dot(MatVec(Transpose(m), x), y)
  {
    hide Dot, MatVec, VecMat, Transpose;
    VecMatDot(x, m, y);
    VecMatTranspose(x, m);
  }

  lemma VecMatTranspose(x: Vec, m: Mat)
    ensures VecMat(x, m) == MatVec(Transpose(m), x)
  {
  }

  /** The bilinear form of F*P*transpose(F) is the form of P at the vectors carried back by F. */
  lemma Sandwich(f: Mat, m: Mat, x: Vec, y: Vec)
    ensures var back := Transpose(f);
            Dot(x, MatVec(MatMat(MatMat(f, m), back), y)) == Dot(MatVec(back, x), MatVec(m, MatVec(back, y)))
  {
    var t := MatVec(Transpose(f), y);
    MatMatVec(MatMat(f, m), Transpose(f), y);
    MatMatVec(f, m, t);
    TransposeDot(f, x, MatVec(m, t));
  }

  lemma QuadPlus(m: Mat, n: Mat, u: Vec)
    ensures Quad(MatPlus(m, n), u) == Quad(m, u) + Quad(n, u)
  {
    DotPlus(m.r0, n.r0, u);
    DotPlus(m.r1, n.r1, u);
    DotPlus(m.r2, n.r2, u);
    assert MatVec(MatPlus(m, n), u) == Plus(MatVec(m, u), MatVec(n, u));
    DotPlus(MatVec(m, u), MatVec(n, u), u);
  }

  lemma QuadTimes(w: real, m: Mat, u: Vec)
    ensures Quad(MatTimes(w, m), u) == w * Quad(m, u)
  {
    hide Dot;
    DotTimes(w, m.r0, u);
    DotTimes(w, m.r1, u);
    DotTimes(w, m.r2, u);
    var x, y := MatVec(m, u), MatVec(MatTimes(w, m), u);
    assert y == Times(w, x);
    DotTimes(w, x, u);
  }

  lemma QuadOuter(d: Vec, e: Vec, u: Vec)
    ensures Quad(Outer(d, e), u) == Dot(d, u) * Dot(e, u)
  {
    DotTimes(d.p, e, u);
    DotTimes(d.v, e, u);
    DotTimes(d.a, e, u);
    var c := Dot(e, u);
    hide Dot;
    assert MatVec(Outer(d, e), u) == Times(c, d);
    DotTimes(c, d, u);
  }

  lemma SquareNonNegative(x: real)
    ensures x * x >= 0.0
  {
  }

  lemma ProductNonNegative(x: real, y: real)
    requires x >= 0.0 && y >= 0.0
    ensures x * y >= 0.0
  {
  }

  // ---- the cone of covariances ----

  lemma ZeroPSD()
    ensures PSD(ZERO_MAT)
  {
    forall u ensures Quad(ZERO_MAT, u) >= 0.0 {
      assert MatVec(ZERO_MAT, u) == ZERO_VEC;
    }
  }

  lemma PlusPSD(m: Mat, n: Mat)
    requires PSD(m) && PSD(n)
    ensures PSD(MatPlus(m, n))
  {
    forall u ensures Quad(MatPlus(m, n), u) >= 0.0 {
      QuadPlus(m, n, u);
    }
  }

  lemma TimesPSD(w: real, m: Mat)
    requires w >= 0.0 && PSD(m)
    ensures PSD(MatTimes(w, m))
  {
    forall u ensures Quad(MatTimes(w, m), u) >= 0.0 {
      QuadTimes(w, m, u);
    }
  }

  lemma OuterPSD(d: Vec)
    ensures PSD(Outer(d, d))
  {
    forall u ensures Quad(Outer(d, d), u) >= 0.0 {
      QuadOuter(d, d, u);
      SquareNonNegative(Dot(d, u));
    }
  }

  lemma SymmetricByEntries(s: Mat)
    requires Dot(E0, MatVec(s, E1)) == Dot(E1, MatVec(s, E0))
    requires Dot(E0, MatVec(s, E2)) == Dot(E2, MatVec(s, E0))
    requires Dot(E1, MatVec(s, E2)) == Dot(E2, MatVec(s, E1))
    ensures Symmetric(s)
  {
  }

  lemma SandwichPSD(f: Mat, m: Mat)
    requires PSD(m)
    ensures PSD(MatMat(MatMat(f, m), Transpose(f)))
  {
    hide MatMat;
    var s := MatMat(MatMat(f, m), Transpose(f));
    SandwichEntry(f, m, E0, E1);
    SandwichEntry(f, m, E0, E2);
    SandwichEntry(f, m, E1, E2);
    SymmetricByEntries(s);
    forall u ensures Quad(s, u) >= 0.0 {
      hide Dot, MatMat, MatVec;
      Sandwich(f, m, u, u);
      assert Quad(m, MatVec(Transpose(f), u)) >= 0.0;
    }
  }

  lemma SandwichEntry(f: Mat, m: Mat, x: Vec, y: Vec)
    requires Symmetric(m)
    ensures var s := MatMat(MatMat(f, m), Transpose(f)); Dot(x, MatVec(s, y)) == Dot(y, MatVec(s, x))
  {
    Sandwich(f, m, x, y);
    Sandwich(f, m, y, x);
    assert Transpose(m) == m;
    TransposeDot(m, MatVec(Transpose(f), x), MatVec(Transpose(f), y));
  }

  /** Symmetrising a symmetric matrix leaves it as it is: in exact arithmetic the step
      that removes round-off asymmetry changes nothing. */
  lemma SymmetrizeSymmetric(m: Mat)
    requires Symmetric(m)
    ensures Symmetrize(m) == m
  {
  }

  /** Cauchy-Schwarz for the form of m between the position axis and u. */
  lemma CauchySchwarz(m: Mat, u: Vec)
    requires PSD(m)
    ensures Dot(m.r0, u) * Dot(m.r0, u) <= m.r0.p * Quad(m, u)
  {
    hide *;
    var c, s, q := Dot(m.r0, u), m.r0.p, Quad(m, u);
    PSDForm(m, E0);
    QuadE0(m);
    PSDSymmetric(m);
    forall t ensures Parabola(s, c, q, t) >= 0.0 {
      PSDForm(m, Plus(Times(t, E0), u));
      QuadShift(m, t, u);
    }
    Discriminant(s, c, q);
  }

  lemma PSDForm(m: Mat, u: Vec)
    requires PSD(m)
    ensures Quad(m, u) >= 0.0
  {
  }

  lemma PSDSymmetric(m: Mat)
    requires PSD(m)
    ensures Symmetric(m)
  {
  }

  lemma QuadE0(m: Mat)
    ensures Quad(m, E0) == m.r0.p
  {
  }

  function Parabola(s: real, c: real, q: real, t: real): real {
    t * t * s + 2.0 * t * c + q
  }

  /** A parabola that never goes below zero has no two roots. */
  lemma Discriminant(s: real, c: real, q: real)
    requires s >= 0.0
    requires forall t: real :: Parabola(s, c, q, t) >= 0.0
    ensures c * c <= s * q
  {
    if s > 0.0 {
      var t := -c / s;
      assert t * s == -c;
      assert Parabola(s, c, q, t) == t * (t * s) + 2.0 * (t * c) + q == t * c + q;
      assert s * (t * c + q) == (t * s) * c + s * q;
      ProductNonNegative(s, t * c + q);
    } else if c != 0.0 {
      LineFalls(c, q);
    }
  }

  lemma LineFalls(c: real, q: real)
    requires c != 0.0
    ensures exists t: real :: Parabola(0.0, c, q, t) < 0.0
  {
    var t := -(q + 1.0) / (2.0 * c);
    assert 2.0 * (t * c) == -(q + 1.0);
    assert t * t * 0.0 == 0.0;
    assert Parabola(0.0, c, q, t) == -1.0;
  }

  lemma QuadShift(m: Mat, t: real, u: Vec)
    requires Symmetric(m)
    ensures Quad(m, Plus(Times(t, E0), u)) == Parabola(m.r0.p, Dot(m.r0, u), Quad(m, u), t)
  {
  }
}
