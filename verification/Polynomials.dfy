/**
 Polynomials over the witness share field, as coefficient sequences with the
 constant term first, and Lagrange interpolation through points with distinct
 abscissas.
 */
module Polynomials {
  import opened Gf256

  type Poly = seq<Byte>

  function Inv(a: Byte): (z: Byte) {
    Pow(a, 254)
  }

  function Eval(p: Poly, x: Byte): (y: Byte) {
    if p == [] then ZERO else Xor(p[0], Mul(x, Eval(p[1..], x)))
  }

  predicate Distinct(xs: seq<Byte>) {
    forall i, j :: 0 <= i < j < |xs| ==> xs[i] != xs[j]
  }

  /** p takes the value ys[i] at every abscissa xs[i]. */
  predicate PassesThrough(p: Poly, xs: seq<Byte>, ys: seq<Byte>)
    requires |xs| == |ys|
  {
    forall i :: 0 <= i < |xs| ==> Eval(p, xs[i]) == ys[i]
  }

  // ----- evaluation is a ring homomorphism -----

  function PolyXor(p: Poly, q: Poly): (r: Poly)
    requires |p| == |q|
  {
    seq(|p|, i requires 0 <= i < |p| => Xor(p[i], q[i]))
  }

  function PolyScale(c: Byte, p: Poly): (r: Poly) {
    seq(|p|, i requires 0 <= i < |p| => Mul(c, p[i]))
  }

  /** p times the linear polynomial z + a. */
  function PolyTimesLinear(p: Poly, a: Byte): (r: Poly) {
    PolyXor([ZERO] + p, PolyScale(a, p) + [ZERO])
  }

  function Zeros(n: nat): (p: Poly) {
    seq(n, i => ZERO)
  }

  lemma XorZero(a: Byte)
    ensures Xor(a, ZERO) == a && Xor(ZERO, a) == a && Xor(a, a) == ZERO
  {
    XorLaws(a, ZERO, ZERO);
  }

  /** Equal summands cancel, so a sum is zero only for equal operands. */
  lemma XorIsZero(a: Byte, b: Byte)
    ensures Xor(a, b) == ZERO <==> a == b
  {
    hide Xor;
    XorLaws(a, b, b);
    XorZero(a);
    XorZero(b);
  }

  lemma {:induction false} EvalXor(p: Poly, q: Poly, x: Byte)
    requires |p| == |q|
    ensures Eval(PolyXor(p, q), x) == Xor(Eval(p, x), Eval(q, x))
  {
    hide Mul, Xor;
    if p == [] {
      XorZero(ZERO);
    } else {
      assert PolyXor(p, q)[1..] == PolyXor(p[1..], q[1..]);
      EvalXor(p[1..], q[1..], x);
      MulXorRight(x, Eval(p[1..], x), Eval(q[1..], x));
      XorSwap(p[0], q[0], Mul(x, Eval(p[1..], x)), Mul(x, Eval(q[1..], x)));
    }
  }

  lemma {:induction false} EvalScale(c: Byte, p: Poly, x: Byte)
    ensures Eval(PolyScale(c, p), x) == Mul(c, Eval(p, x))
  {
    hide Mul, Xor;
    if p == [] {
      MulZero(c);
    } else {
      var rest := Eval(p[1..], x);
      assert PolyScale(c, p)[1..] == PolyScale(c, p[1..]);
      EvalScale(c, p[1..], x);
      MulXorRight(c, p[0], Mul(x, rest));
      MulAssociates(c, x, rest);
      MulAssociates(x, c, rest);
      MulCommutes(c, x);
    }
  }

  lemma {:induction false} EvalPadded(p: Poly, n: nat, x: Byte)
    ensures Eval(p + Zeros(n), x) == Eval(p, x)
    decreases |p| + n
  {
    hide Mul, Xor;
    if p != [] {
      assert (p + Zeros(n))[1..] == p[1..] + Zeros(n);
      EvalPadded(p[1..], n, x);
    } else if n != 0 {
      assert (p + Zeros(n))[1..] == p + Zeros(n - 1);
      EvalPadded(p, n - 1, x);
      MulZero(x);
      XorZero(ZERO);
    } else {
      assert p + Zeros(0) == [];
    }
  }

  lemma EvalTimesLinear(p: Poly, a: Byte, x: Byte)
    ensures Eval(PolyTimesLinear(p, a), x) == Mul(Xor(x, a), Eval(p, x))
  {
    hide Mul, Xor;
    EvalXor([ZERO] + p, PolyScale(a, p) + [ZERO], x);
    assert ([ZERO] + p)[1..] == p;
    XorZero(Mul(x, Eval(p, x)));
    assert [ZERO] == Zeros(1);
    EvalPadded(PolyScale(a, p), 1, x);
    EvalScale(a, p, x);
    MulXorLeft(x, a, Eval(p, x));
  }

  lemma EvalAtZero(p: Poly)
    ensures Eval(p, ZERO) == if p == [] then ZERO else p[0]
  {
    hide Mul, Xor;
    if p != [] {
      MulZero(Eval(p[1..], ZERO));
      XorZero(p[0]);
    }
  }

  // ----- a polynomial has fewer roots than coefficients -----

  /** The quotient of p by z + a. */
  function Quotient(p: Poly, a: Byte): (q: Poly)
    ensures |q| == if p == [] then 0 else |p| - 1
  {
    if |p| <= 1 then [] else [Eval(p[1..], a)] + Quotient(p[1..], a)
  }

  lemma {:induction false} DivisionLaw(p: Poly, a: Byte, x: Byte)
    ensures Eval(p, x) == Xor(Eval(p, a), Mul(Xor(x, a), Eval(Quotient(p, a), x)))
  {
    hide Mul, Xor;
    if |p| <= 1 {
      MulZero(Xor(x, a));
      XorZero(Eval(p, a));
      if |p| == 1 {
        MulZero(x);
        MulZero(a);
      }
    } else {
      var t := p[1..];
      DivisionLaw(t, a, x);
      assert Quotient(p, a)[1..] == Quotient(t, a);
      DivisionStep(p[0], a, x, Eval(t, a), Eval(Quotient(t, a), x));
    }
  }

  lemma DivisionStep(c: Byte, a: Byte, x: Byte, r: Byte, s: Byte)
    ensures Xor(c, Mul(x, Xor(r, Mul(Xor(x, a), s)))) ==
            Xor(Xor(c, Mul(a, r)), Mul(Xor(x, a), Xor(r, Mul(x, s))))
  {
    hide Mul, Xor;
    var d := Mul(Xor(x, a), s);
    MulXorRight(x, r, d);
    MulXorRight(Xor(x, a), r, Mul(x, s));
    assert Mul(x, d) == Mul(Xor(x, a), Mul(x, s)) by {
      MulAssociates(x, Xor(x, a), s);
      MulCommutes(x, Xor(x, a));
      MulAssociates(Xor(x, a), x, s);
    }
    MulXorLeft(x, a, r);
    DropTwice(c, Mul(a, r), Mul(x, r), Mul(x, d));
  }

  lemma DropTwice(c: Byte, u: Byte, v: Byte, w: Byte)
    ensures Xor(c, Xor(v, w)) == Xor(Xor(c, u), Xor(Xor(v, u), w))
  {}

  lemma {:induction false} ZeroQuotient(p: Poly, a: Byte)
    requires Eval(p, a) == ZERO
    requires Quotient(p, a) == Zeros(|Quotient(p, a)|)
    ensures p == Zeros(|p|)
  {
    hide Mul, Xor;
    if p == [] {
    } else {
      var t := p[1..];
      if t != [] {
        var q := Quotient(p, a);
        assert q[0] == Eval(t, a) && q[1..] == Quotient(t, a);
        ZeroQuotient(t, a);
      }
      MulZero(a);
      assert Eval(t, a) == ZERO;
      XorZero(p[0]);
      assert p == [p[0]] + t;
    }
  }

  lemma NoZeroDivisors(a: Byte, b: Byte)
    requires Mul(a, b) == ZERO
    ensures a == ZERO || b == ZERO
  {
    hide Mul, Pow;
    if a != ZERO {
      InverseLaw(a);
      MulCommutes(a, Pow(a, 254));
      MulAssociates(Pow(a, 254), a, b);
      MulOne(b);
      MulZero(Pow(a, 254));
    }
  }

  lemma {:induction false} TooManyRoots(p: Poly, xs: seq<Byte>)
    requires |p| <= |xs| && Distinct(xs)
    requires forall i :: 0 <= i < |xs| ==> Eval(p, xs[i]) == ZERO
    ensures p == Zeros(|p|)
    decreases |p|
  {
    hide Mul, Xor;
    if p == [] {
    } else {
      var last := |xs| - 1;
      var a, rest := xs[last], xs[..last];
      var q := Quotient(p, a);
      forall i | 0 <= i < |rest| ensures Eval(q, rest[i]) == ZERO {
        DivisionLaw(p, a, rest[i]);
        XorZero(Mul(Xor(rest[i], a), Eval(q, rest[i])));
        XorIsZero(rest[i], a);
        NoZeroDivisors(Xor(rest[i], a), Eval(q, rest[i]));
      }
      TooManyRoots(q, rest);
      ZeroQuotient(p, a);
    }
  }

  /** At most one polynomial with |xs| coefficients passes through |xs| points. */
  lemma UniquePolynomial(p: Poly, q: Poly, xs: seq<Byte>)
    requires |p| == |q| <= |xs| && Distinct(xs)
    requires forall i :: 0 <= i < |xs| ==> Eval(p, xs[i]) == Eval(q, xs[i])
    ensures p == q
  {
    hide Mul, Xor;
    var d := PolyXor(p, q);
    forall i | 0 <= i < |xs| ensures Eval(d, xs[i]) == ZERO {
      EvalXor(p, q, xs[i]);
      XorZero(Eval(p, xs[i]));
    }
    TooManyRoots(d, xs);
    forall i | 0 <= i < |p| ensures p[i] == q[i] {
      assert d[i] == Zeros(|d|)[i];
      XorIsZero(p[i], q[i]);
    }
  }

  // ----- Lagrange interpolation -----

  /** The j-th factor of the i-th basis polynomial at z. */
  function Factor(xj: Byte, xi: Byte, z: Byte): (f: Byte) {
    Mul(Xor(z, xj), Inv(Xor(xj, xi)))
  }

  /** The i-th Lagrange basis polynomial at z, over the first n abscissas. */
  function Coefficient(xs: seq<Byte>, i: nat, z: Byte, n: nat): (c: Byte)
    requires i < |xs| && n <= |xs|
    decreases n
  {
    if n == 0 then ONE
    else if n - 1 == i then Coefficient(xs, i, z, n - 1)
    else Mul(Coefficient(xs, i, z, n - 1), Factor(xs[n - 1], xs[i], z))
  }

  /** The interpolated value at z, summed over the first n points. */
  function Interpolated(xs: seq<Byte>, ys: seq<Byte>, z: Byte, n: nat): (y: Byte)
    requires |xs| == |ys| && n <= |xs|
    decreases n
  {
    if n == 0 then ZERO
    else Xor(Interpolated(xs, ys, z, n - 1), Mul(ys[n - 1], Coefficient(xs, n - 1, z, |xs|)))
  }

  /** Coefficient as a polynomial in z. */
  function BasisPoly(xs: seq<Byte>, i: nat, n: nat): (p: Poly)
    requires i < |xs| && n <= |xs|
    ensures |p| == if i < n then n else n + 1
    decreases n
  {
    if n == 0 then [ONE]
    else if n - 1 == i then BasisPoly(xs, i, n - 1)
    else PolyScale(Inv(Xor(xs[n - 1], xs[i])), PolyTimesLinear(BasisPoly(xs, i, n - 1), xs[n - 1]))
  }

  /** Interpolated as a polynomial in z. */
  function InterpolationPoly(xs: seq<Byte>, ys: seq<Byte>, n: nat): (p: Poly)
    requires |xs| == |ys| && n <= |xs|
    ensures |p| == |xs|
    decreases n
  {
    if n == 0 then Zeros(|xs|)
    else PolyXor(InterpolationPoly(xs, ys, n - 1), PolyScale(ys[n - 1], BasisPoly(xs, n - 1, |xs|)))
  }

  lemma {:induction false} EvalBasis(xs: seq<Byte>, i: nat, z: Byte, n: nat)
    requires i < |xs| && n <= |xs|
    ensures Eval(BasisPoly(xs, i, n), z) == Coefficient(xs, i, z, n)
    decreases n
  {
    hide Mul, Xor, Inv;
    if n == 0 {
      MulZero(z);
      XorZero(ONE);
      assert [ONE][1..] == [];
    } else {
      EvalBasis(xs, i, z, n - 1);
      if n - 1 != i {
        var xj, before := xs[n - 1], BasisPoly(xs, i, n - 1);
        var c, inverse := Eval(before, z), Inv(Xor(xj, xs[i]));
        EvalScale(inverse, PolyTimesLinear(before, xj), z);
        EvalTimesLinear(before, xj, z);
        MulCommutes(Xor(z, xj), c);
        MulCommutes(inverse, Mul(c, Xor(z, xj)));
        MulAssociates(c, Xor(z, xj), inverse);
      }
    }
  }

  lemma {:induction false} EvalInterpolation(xs: seq<Byte>, ys: seq<Byte>, z: Byte, n: nat)
    requires |xs| == |ys| && n <= |xs|
    ensures Eval(InterpolationPoly(xs, ys, n), z) == Interpolated(xs, ys, z, n)
    decreases n
  {
    hide Mul, Xor;
    if n == 0 {
      EvalPadded([], |xs|, z);
      assert [] + Zeros(|xs|) == Zeros(|xs|);
    } else {
      EvalInterpolation(xs, ys, z, n - 1);
      var basis := BasisPoly(xs, n - 1, |xs|);
      EvalXor(InterpolationPoly(xs, ys, n - 1), PolyScale(ys[n - 1], basis), z);
      EvalScale(ys[n - 1], basis, z);
      EvalBasis(xs, n - 1, z, |xs|);
    }
  }

  /** At its own abscissa the basis polynomial is one, at every other it is zero. */
  lemma {:induction false} CoefficientAtNode(xs: seq<Byte>, i: nat, m: nat, n: nat)
    requires i < |xs| && m < |xs| && n <= |xs| && Distinct(xs)
    ensures i == m ==> Coefficient(xs, i, xs[m], n) == ONE
    ensures i != m && m < n ==> Coefficient(xs, i, xs[m], n) == ZERO
    decreases n
  {
    hide Mul, Xor, Inv;
    if n != 0 {
      CoefficientAtNode(xs, i, m, n - 1);
      if n - 1 != i {
        FactorAtNode(xs[n - 1], xs[i], xs[m]);
        MulOne(ONE);
        MulZero(Coefficient(xs, i, xs[m], n - 1));
        MulZero(Factor(xs[n - 1], xs[i], xs[m]));
      }
    }
  }

  lemma FactorAtNode(xj: Byte, xi: Byte, xm: Byte)
    requires xj != xi
    ensures xm == xi ==> Factor(xj, xi, xm) == ONE
    ensures xm == xj ==> Factor(xj, xi, xm) == ZERO
  {
    hide Mul, Xor, Pow;
    XorIsZero(xj, xi);
    XorLaws(xj, xi, ZERO);
    InverseLaw(Xor(xj, xi));
    XorZero(xj);
    MulZero(Inv(Xor(xj, xi)));
  }

  lemma {:induction false} InterpolatedAtNode(xs: seq<Byte>, ys: seq<Byte>, m: nat, n: nat)
    requires |xs| == |ys| && m < |xs| && n <= |xs| && Distinct(xs)
    ensures Interpolated(xs, ys, xs[m], n) == if m < n then ys[m] else ZERO
    decreases n
  {
    hide Mul, Xor;
    if n != 0 {
      InterpolatedAtNode(xs, ys, m, n - 1);
      CoefficientAtNode(xs, n - 1, m, |xs|);
      MulOne(ys[n - 1]);
      MulZero(ys[n - 1]);
      XorZero(ys[m]);
      XorZero(ZERO);
    }
  }

  /** The interpolation polynomial passes through its points. */
  lemma InterpolationPasses(xs: seq<Byte>, ys: seq<Byte>)
    requires |xs| == |ys| && Distinct(xs)
    ensures PassesThrough(InterpolationPoly(xs, ys, |xs|), xs, ys)
  {
    hide Mul, Xor;
    forall m | 0 <= m < |xs| ensures Eval(InterpolationPoly(xs, ys, |xs|), xs[m]) == ys[m] {
      EvalInterpolation(xs, ys, xs[m], |xs|);
      InterpolatedAtNode(xs, ys, m, |xs|);
    }
  }

  /** Interpolation recovers, at every z, any polynomial with at most as many coefficients as points. */
  lemma InterpolationRecovers(p: Poly, xs: seq<Byte>, ys: seq<Byte>, z: Byte)
    requires |p| <= |xs| == |ys| && Distinct(xs)
    requires PassesThrough(p, xs, ys)
    ensures Interpolated(xs, ys, z, |xs|) == Eval(p, z)
  {
    hide Mul, Xor, Eval, Interpolated, InterpolationPoly;
    var padded := p + Zeros(|xs| - |p|);
    var q := InterpolationPoly(xs, ys, |xs|);
    InterpolationPasses(xs, ys);
    forall i | 0 <= i < |xs| ensures Eval(padded, xs[i]) == Eval(q, xs[i]) {
      EvalPadded(p, |xs| - |p|, xs[i]);
    }
    UniquePolynomial(padded, q, xs);
    EvalPadded(p, |xs| - |p|, z);
    EvalInterpolation(xs, ys, z, |xs|);
  }

  /** Through |xs| points there is exactly one polynomial with |xs| coefficients. */
  lemma ExactlyOnePolynomial(xs: seq<Byte>, ys: seq<Byte>) returns (p: Poly)
    requires |xs| == |ys| && Distinct(xs)
    ensures |p| == |xs| && PassesThrough(p, xs, ys)
    ensures forall q: Poly :: |q| == |xs| && PassesThrough(q, xs, ys) ==> q == p
  {
    hide Mul, Xor, Eval;
    p := InterpolationPoly(xs, ys, |xs|);
    InterpolationPasses(xs, ys);
    forall q: Poly | |q| == |xs| && PassesThrough(q, xs, ys) ensures q == p {
      UniquePolynomial(q, p, xs);
    }
  }
}
