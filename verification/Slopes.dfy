/** Derivatives.  A function of one real variable has a slope at zero when its difference quotient tends to it; the
    rules for sums, products, reciprocals and compositions follow from the definition. */
module Slopes {
  import opened Sums
  import opened Functions

  // ---- continuity at zero ----

  ghost predicate Near(q: real -> real, eps: real, delta: real) {
    forall e {:trigger q(e)} :: Abs(e) < delta ==> Abs(q(e) - q(0.0)) < eps
  }

  ghost predicate Close(q: real -> real, eps: real) { exists delta :: delta > 0.0 && Near(q, eps, delta) }
  ghost predicate Continuous(q: real -> real) { forall eps :: eps > 0.0 ==> Close(q, eps) }

  /** The difference quotient of `f`, with the value `s` where it is not defined. */
  ghost function Quotient(f: real -> real, s: real): real -> real {
    (e: real) => if e == 0.0 then s else (f(e) - f(0.0)) / e
  }

  /** `s` is the derivative of `f` at zero. */
  ghost predicate Slope(f: real -> real, s: real) { Continuous(Quotient(f, s)) }

  /** `s` is the derivative of `g` at `x`. */
  ghost predicate SlopeAt(g: real -> real, x: real, s: real) { Slope(e => g(x + e), s) }

  lemma ContinuousEq(q: real -> real, r: real -> real)
    requires Continuous(q) && forall e {:trigger r(e)} :: r(e) == q(e)
    ensures Continuous(r)
  {
    forall eps | eps > 0.0 ensures Close(r, eps) {
      assert Close(q, eps);
      var delta :| delta > 0.0 && Near(q, eps, delta);
      assert Near(r, eps, delta);
    }
  }

  /** Only small arguments matter. */
  lemma ContinuousLocal(q: real -> real, r: real -> real, bound: real)
    requires bound > 0.0 && Continuous(q) && forall e {:trigger r(e)} :: Abs(e) < bound ==> r(e) == q(e)
    ensures Continuous(r)
  {
    forall eps | eps > 0.0 ensures Close(r, eps) {
      assert Close(q, eps);
      var delta :| delta > 0.0 && Near(q, eps, delta);
      assert Near(r, eps, Min(delta, bound));
    }
  }

  lemma ContinuousConst(q: real -> real, c: real)
    requires forall e {:trigger q(e)} :: q(e) == c
    ensures Continuous(q)
  {
    forall eps | eps > 0.0 ensures Close(q, eps) {
      assert Near(q, eps, 1.0);
    }
  }

  lemma ContinuousId(q: real -> real)
    requires forall e {:trigger q(e)} :: q(e) == e
    ensures Continuous(q)
  {
    forall eps | eps > 0.0 ensures Close(q, eps) {
      assert Near(q, eps, eps);
    }
  }

  lemma BothNear(q: real -> real, eps: real, r: real -> real, mu: real) returns (delta: real)
    requires Continuous(q) && Continuous(r) && eps > 0.0 && mu > 0.0
    ensures delta > 0.0 && Near(q, eps, delta) && Near(r, mu, delta)
  {
    assert Close(q, eps) && Close(r, mu);
    var a :| a > 0.0 && Near(q, eps, a);
    var b :| b > 0.0 && Near(r, mu, b);
    delta := Min(a, b);
  }

  lemma ContinuousAdd(h: real -> real, q: real -> real, r: real -> real)
    requires Continuous(q) && Continuous(r) && forall e {:trigger h(e)} :: h(e) == q(e) + r(e)
    ensures Continuous(h)
  {
    forall eps | eps > 0.0 ensures Close(h, eps) {
      var delta := BothNear(q, eps / 2.0, r, eps / 2.0);
      assert Near(h, eps, delta);
    }
  }

  lemma ContinuousMul(h: real -> real, q: real -> real, r: real -> real)
    requires Continuous(q) && Continuous(r) && forall e {:trigger h(e)} :: h(e) == Mul(q(e), r(e))
    ensures Continuous(h)
  {
    forall eps | eps > 0.0 ensures Close(h, eps) {
      ProductClose(h, q, r, eps / 2.0);
    }
  }

  lemma ProductClose(h: real -> real, q: real -> real, r: real -> real, half: real)
    requires Continuous(q) && Continuous(r) && half > 0.0 && forall e {:trigger h(e)} :: h(e) == Mul(q(e), r(e))
    ensures Close(h, half + half)
  {
    hide Continuous, Mul;
    var mu := Radius(r(0.0), half);
    var nu := Radius(q(0.0), half);
    var delta := BothNear(q, mu, r, nu);
    forall e | Abs(e) < delta ensures Abs(h(e) - h(0.0)) < half + half {
      ProductNear(q(0.0), r(0.0), q(e), r(e), mu, nu, half);
    }
    assert Near(h, half + half, delta);
  }

  /** How close one factor has to be, the other being about `x`. */
  lemma Radius(x: real, half: real) returns (mu: real)
    requires half > 0.0
    ensures 0.0 < mu <= 1.0 && Mul(mu, Abs(x) + 1.0) <= half
  {
    mu := Min(1.0, half / (Abs(x) + 1.0));
    Divided(half, Abs(x) + 1.0);
    MulBelow(mu, half / (Abs(x) + 1.0), Abs(x) + 1.0);
  }

  lemma Divided(x: real, y: real)
    requires x > 0.0 && y > 0.0
    ensures x / y > 0.0 && Mul(x / y, y) == x
  {
    var q := x / y;
    assert q * y == x;
    if q <= 0.0 {
      NotPositive(q, y);
    }
  }

  lemma AbsMul(x: real, y: real)
    ensures Abs(Mul(x, y)) == Mul(Abs(x), Abs(y))
  {
    if x < 0.0 {
      assert x * y == -(-x * y);
    }
  }

  lemma MulBelow(x: real, y: real, z: real)
    requires x <= y && 0.0 <= z
    ensures Mul(x, z) <= Mul(y, z) && Mul(z, x) <= Mul(z, y)
    ensures x < y && 0.0 < z ==> Mul(x, z) < Mul(y, z) && Mul(z, x) < Mul(z, y)
  {
    NotPositive(x - y, z);
    if x < y && 0.0 < z {
      Negative(x - y, z);
    }
    assert (x - y) * z == x * z - y * z;
  }

  lemma ProductNear(q0: real, r0: real, q: real, r: real, mu: real, nu: real, half: real)
    requires 0.0 < mu <= 1.0 && 0.0 < nu && 0.0 < half
    requires Mul(mu, Abs(r0) + 1.0) <= half && Mul(nu, Abs(q0) + 1.0) <= half
    requires Abs(q - q0) < mu && Abs(r - r0) < nu
    ensures Abs(Mul(q, r) - Mul(q0, r0)) < half + half
  {
    hide Mul;
    var x, y := Mul(r - r0, q), Mul(q - q0, r0);
    Difference(q0, r0, q, r);
    AbsMul(r - r0, q);
    AbsMul(q - q0, r0);
    MulBelow(Abs(q), Abs(q0) + 1.0, Abs(r - r0));
    MulBelow(Abs(r - r0), nu, Abs(q0) + 1.0);
    MulBelow(Abs(r0), Abs(r0) + 1.0, Abs(q - q0));
    MulBelow(Abs(q - q0), mu, Abs(r0) + 1.0);
    Triangle(x, y);
  }

  lemma Difference(q0: real, r0: real, q: real, r: real)
    ensures Mul(q, r) - Mul(q0, r0) == Mul(r - r0, q) + Mul(q - q0, r0)
  {
  }

  /** `q` after `k`, where `k` passes through zero. */
  lemma ContinuousAfter(h: real -> real, q: real -> real, k: real -> real)
    requires Continuous(q) && Continuous(k) && k(0.0) == 0.0 && forall e {:trigger h(e)} :: h(e) == q(k(e))
    ensures Continuous(h)
  {
    forall eps | eps > 0.0 ensures Close(h, eps) {
      assert Close(q, eps);
      var mu :| mu > 0.0 && Near(q, eps, mu);
      assert Close(k, mu);
      var delta :| delta > 0.0 && Near(k, mu, delta);
      assert Near(h, eps, delta);
    }
  }

  // ---- slopes ----

  lemma QuotientForm(f: real -> real, s: real, e: real)
    ensures f(e) == f(0.0) + Mul(Quotient(f, s)(e), e) && Quotient(f, s)(0.0) == s
  {
  }

  lemma SlopeElim(f: real -> real, s: real) returns (q: real -> real)
    requires Slope(f, s)
    ensures Continuous(q) && q(0.0) == s && forall e {:trigger q(e)} :: f(e) == f(0.0) + Mul(q(e), e)
  {
    hide Continuous, Mul;
    q := Quotient(f, s);
    forall e ensures f(e) == f(0.0) + Mul(q(e), e) {
      QuotientForm(f, s, e);
    }
  }

  /** A continuous factor of `f(e) - f(0)` over `e` has the slope for its value at zero. */
  lemma SlopeIntro(f: real -> real, s: real, q: real -> real)
    requires Continuous(q) && q(0.0) == s && forall e {:trigger f(e)} :: f(e) == f(0.0) + Mul(q(e), e)
    ensures Slope(f, s)
  {
    var r := Quotient(f, s);
    forall e ensures r(e) == q(e) {
      if e != 0.0 {
        Undivide(q(e), e);
      }
    }
    ContinuousEq(q, r);
  }

  lemma Undivide(x: real, e: real)
    requires e != 0.0
    ensures Mul(x, e) / e == x
  {
  }

  lemma SlopeEq(f: real -> real, g: real -> real, s: real)
    requires Slope(f, s) && forall e {:trigger g(e)} :: g(e) == f(e)
    ensures Slope(g, s)
  {
    ContinuousEq(Quotient(f, s), Quotient(g, s));
  }

  /** Only small arguments matter. */
  lemma SlopeLocal(f: real -> real, g: real -> real, s: real, bound: real)
    requires bound > 0.0 && Slope(f, s) && forall e {:trigger g(e)} :: Abs(e) < bound ==> g(e) == f(e)
    ensures Slope(g, s)
  {
    ContinuousLocal(Quotient(f, s), Quotient(g, s), bound);
  }

  lemma SlopesWithin(f: real -> real, s: real, s': real, eps: real)
    requires Slope(f, s) && Slope(f, s') && eps > 0.0
    ensures Abs(s - s') < eps
  {
    var q, r := Quotient(f, s), Quotient(f, s');
    var delta := BothNear(q, eps / 2.0, r, eps / 2.0);
    var e := delta / 2.0;
    assert Abs(q(e) - q(0.0)) < eps / 2.0 && Abs(r(e) - r(0.0)) < eps / 2.0;
    assert q(e) == r(e) && q(0.0) == s && r(0.0) == s';
  }

  /** A function has at most one slope. */
  lemma SlopeUnique(f: real -> real, s: real, s': real)
    requires Slope(f, s) && Slope(f, s')
    ensures s == s'
  {
    hide Slope;
    SlopesWithin(f, s, s', if s == s' then 1.0 else Abs(s - s'));
  }

  lemma OnlySlope(f: real -> real, s: real)
    requires Slope(f, s)
    ensures forall s' {:trigger Slope(f, s')} :: Slope(f, s') ==> s' == s
  {
    hide Slope;
    forall s' | Slope(f, s') ensures s' == s {
      SlopeUnique(f, s', s);
    }
  }

  /** A function with a slope is continuous. */
  lemma SlopeContinuous(f: real -> real, s: real)
    requires Slope(f, s)
    ensures Continuous(f)
  {
    hide Mul;
    var q, id, start := Quotient(f, s), (e: real) => e, (e: real) => f(0.0);
    var step := (e: real) => Mul(q(e), e);
    ContinuousId(id);
    ContinuousMul(step, q, id);
    ContinuousConst(start, f(0.0));
    forall e ensures f(e) == start(e) + step(e) {
      QuotientForm(f, s, e);
    }
    ContinuousAdd(f, start, step);
  }

  lemma SlopeConst(f: real -> real, c: real)
    requires forall e {:trigger f(e)} :: f(e) == c
    ensures Slope(f, 0.0)
  {
    ContinuousConst(Quotient(f, 0.0), 0.0);
  }

  /** A straight line. */
  lemma SlopeLine(f: real -> real, c: real, s: real)
    requires forall e {:trigger f(e)} :: f(e) == c + Mul(e, s)
    ensures Slope(f, s)
  {
    hide Slope, Mul, Const;
    ConstContinuous(s);
    forall e ensures f(e) == f(0.0) + Mul(Const(s)(e), e) {
      ZeroMul(s);
      Commute(e, s);
    }
    SlopeIntro(f, s, Const(s));
  }

  /** Values and tables of values, moved along `d`. */
  ghost function Shift(x: int -> real, d: int -> real, e: real): (y: int -> real)
    ensures forall i {:trigger y(i)} :: y(i) == x(i) + Mul(e, d(i))
  {
    (i: int) => x(i) + Mul(e, d(i))
  }

  ghost function Shift2(x: (int, int) -> real, d: (int, int) -> real, e: real): (y: (int, int) -> real)
    ensures forall i, j {:trigger y(i, j)} :: y(i, j) == x(i, j) + Mul(e, d(i, j))
  {
    (i: int, j: int) => x(i, j) + Mul(e, d(i, j))
  }

  ghost function Shift3(x: (int, int, int) -> real, d: (int, int, int) -> real, e: real): (y: (int, int, int) -> real)
    ensures forall i, j, k {:trigger y(i, j, k)} :: y(i, j, k) == x(i, j, k) + Mul(e, d(i, j, k))
  {
    (i: int, j: int, k: int) => x(i, j, k) + Mul(e, d(i, j, k))
  }

  lemma SlopeAdd(h: real -> real, s: real, f: real -> real, a: real, g: real -> real, b: real)
    requires Slope(f, a) && Slope(g, b) && forall e {:trigger h(e)} :: h(e) == f(e) + g(e)
    requires s == a + b
    ensures Slope(h, s)
  {
    hide Continuous, Slope, Mul;
    var p := SlopeElim(f, a);
    var q := SlopeElim(g, b);
    var r := (e: real) => p(e) + q(e);
    ContinuousAdd(r, p, q);
    forall e ensures h(e) == h(0.0) + Mul(r(e), e) {
      assert r(e) == p(e) + q(e);
      MulAdd(r(e), p(e), q(e), e);
    }
    SlopeIntro(h, s, r);
  }

  // ---- paths as function symbols ----

  ghost function Plus(f: real -> real, g: real -> real): (h: real -> real)
    ensures forall e {:trigger h(e)} :: h(e) == f(e) + g(e)
  {
    (e: real) => f(e) + g(e)
  }

  ghost function Times(f: real -> real, g: real -> real): (h: real -> real)
    ensures forall e {:trigger h(e)} :: h(e) == Mul(f(e), g(e))
  {
    (e: real) => Mul(f(e), g(e))
  }

  ghost function Const(c: real): (h: real -> real)
    ensures forall e {:trigger h(e)} :: h(e) == c
  {
    (e: real) => c
  }

  ghost function Id(): (h: real -> real)
    ensures forall e {:trigger h(e)} :: h(e) == e
  {
    (e: real) => e
  }

  lemma TimesContinuous(f: real -> real, g: real -> real)
    requires Continuous(f) && Continuous(g)
    ensures Continuous(Times(f, g))
  {
    hide Continuous, Mul;
    ContinuousMul(Times(f, g), f, g);
  }

  lemma ConstContinuous(c: real)
    ensures Continuous(Const(c))
  {
    hide Continuous;
    ContinuousConst(Const(c), c);
  }

  /** The product rule. */
  lemma SlopeMul(h: real -> real, s: real, f: real -> real, a: real, g: real -> real, b: real)
    requires Slope(f, a) && Slope(g, b) && forall e {:trigger h(e)} :: h(e) == Mul(f(e), g(e))
    requires s == Mul(a, g(0.0)) + Mul(f(0.0), b)
    ensures Slope(h, s)
  {
    hide Continuous, Slope, Mul;
    var p := SlopeElim(f, a);
    var q := SlopeElim(g, b);
    var r := MulQuotient(p, q, f(0.0), g);
    SlopeContinuous(g, b);
    forall e ensures h(e) == h(0.0) + Mul(r(e), e) {
      ProductQuotient(f(0.0), g(0.0), f(e), g(e), p(e), q(e), h(0.0), h(e), r(e), e);
    }
    MulQuotientContinuous(p, q, f(0.0), g, r);
    SlopeIntro(h, s, r);
  }

  lemma MulQuotient(p: real -> real, q: real -> real, f0: real, g: real -> real) returns (r: real -> real)
    ensures forall e {:trigger r(e)} :: r(e) == Mul(p(e), g(e)) + Mul(f0, q(e))
  {
    r := (e: real) => Mul(p(e), g(e)) + Mul(f0, q(e));
  }

  lemma MulQuotientContinuous(p: real -> real, q: real -> real, f0: real, g: real -> real, r: real -> real)
    requires Continuous(p) && Continuous(q) && Continuous(g)
    requires forall e {:trigger r(e)} :: r(e) == Mul(p(e), g(e)) + Mul(f0, q(e))
    ensures Continuous(r)
  {
    hide Continuous, Mul, Times, Const;
    ConstContinuous(f0);
    TimesContinuous(p, g);
    TimesContinuous(Const(f0), q);
    ContinuousAdd(r, Times(p, g), Times(Const(f0), q));
  }

  lemma ProductQuotient(f0: real, g0: real, f: real, g: real, p: real, q: real, h0: real, h: real, r: real, e: real)
    requires f == f0 + Mul(p, e) && g == g0 + Mul(q, e) && h == Mul(f, g) && h0 == Mul(f0, g0)
    requires r == Mul(p, g) + Mul(f0, q)
    ensures h == h0 + Mul(r, e)
  {
    assert f * g == f0 * g + p * e * g;
    assert f0 * g == f0 * g0 + f0 * (q * e);
  }

  lemma SlopeScale(h: real -> real, s: real, c: real, f: real -> real, a: real)
    requires Slope(f, a) && forall e {:trigger h(e)} :: h(e) == Mul(c, f(e))
    requires s == Mul(c, a)
    ensures Slope(h, s)
  {
    hide Slope, Mul;
    var k := (e: real) => c;
    SlopeConst(k, c);
    ZeroMul(f(0.0));
    SlopeMul(h, s, k, 0.0, f, a);
  }

  lemma ZeroMul(x: real)
    ensures Mul(0.0, x) == 0.0
  {
  }

  /** The chain rule. */
  lemma SlopeChain(h: real -> real, s: real, g: real -> real, b: real, f: real -> real, a: real)
    requires Slope(f, a) && SlopeAt(g, f(0.0), b) && forall e {:trigger h(e)} :: h(e) == g(f(e))
    requires s == Mul(b, a)
    ensures Slope(h, s)
  {
    hide Continuous, Slope, Mul;
    var x := f(0.0);
    var from := (e: real) => g(x + e);
    var p := SlopeElim(f, a);
    var q := SlopeElim(from, b);
    var r := ChainQuotient(p, q);
    forall e ensures h(e) == h(0.0) + Mul(r(e), e) {
      FromForm(f, h, g, x, from, p, q, e);
      Reassociate(q(Mul(p(e), e)), p(e), e);
    }
    MulZero(p(0.0));
    ChainQuotientContinuous(p, q, r);
    SlopeIntro(h, s, r);
  }

  lemma ChainQuotient(p: real -> real, q: real -> real) returns (r: real -> real)
    ensures forall e {:trigger r(e)} :: r(e) == Mul(q(Mul(p(e), e)), p(e))
  {
    r := (e: real) => Mul(q(Mul(p(e), e)), p(e));
  }

  lemma ChainQuotientContinuous(p: real -> real, q: real -> real, r: real -> real)
    requires Continuous(p) && Continuous(q)
    requires forall e {:trigger r(e)} :: r(e) == Mul(q(Mul(p(e), e)), p(e))
    ensures Continuous(r)
  {
    hide Continuous, Mul, Times, Id;
    var step := Times(p, Id());
    IdContinuous();
    TimesContinuous(p, Id());
    MulZero(p(0.0));
    var outer := (e: real) => q(step(e));
    ContinuousAfter(outer, q, step);
    ContinuousMul(r, outer, p);
  }

  lemma IdContinuous()
    ensures Continuous(Id())
  {
    hide Continuous;
    ContinuousId(Id());
  }

  /** A step of `f` is a step along `g`. */
  lemma FromForm(f: real -> real, h: real -> real, g: real -> real, x: real, from: real -> real, p: real -> real,
                 q: real -> real, e: real)
    requires x == f(0.0) && f(e) == x + Mul(p(e), e) && h(e) == g(f(e)) && h(0.0) == g(f(0.0))
    requires forall d {:trigger from(d)} :: from(d) == g(x + d)
    requires forall d {:trigger q(d)} :: from(d) == from(0.0) + Mul(q(d), d)
    ensures h(e) == h(0.0) + Mul(q(Mul(p(e), e)), Mul(p(e), e))
  {
    hide Mul;
    var d := Mul(p(e), e);
    assert from(d) == from(0.0) + Mul(q(d), d);
  }

  lemma Reassociate(x: real, y: real, z: real)
    ensures Mul(x, Mul(y, z)) == Mul(Mul(x, y), z)
  {
  }

  /** The reciprocal. */
  lemma SlopeInverse(h: real -> real, s: real, f: real -> real, a: real)
    requires Slope(f, a) && forall e {:trigger h(e)} :: Mul(h(e), f(e)) == 1.0
    requires s == -Mul(Mul(h(0.0), h(0.0)), a)
    ensures Slope(h, s)
  {
    hide Continuous, Slope, Mul;
    var p := SlopeElim(f, a);
    var n0 := -h(0.0);
    var r := InverseOf(p, h, n0);
    forall e ensures h(e) == h(0.0) + Mul(r(e), e) {
      assert Mul(h(0.0), f(0.0)) == 1.0;
      InverseQuotient(f(0.0), f(e), h(0.0), h(e), p(e), n0, e);
    }
    InverseContinuous(h, f, a);
    InverseOfContinuous(p, h, n0, r);
    NegateThree(h(0.0), n0, a);
    SlopeIntro(h, s, r);
  }

  lemma InverseOf(p: real -> real, h: real -> real, n0: real) returns (r: real -> real)
    ensures forall e {:trigger r(e)} :: r(e) == Mul(Mul(n0, h(e)), p(e))
  {
    r := (e: real) => Mul(Mul(n0, h(e)), p(e));
  }

  lemma InverseOfContinuous(p: real -> real, h: real -> real, n0: real, r: real -> real)
    requires Continuous(p) && Continuous(h)
    requires forall e {:trigger r(e)} :: r(e) == Mul(Mul(n0, h(e)), p(e))
    ensures Continuous(r)
  {
    hide Continuous, Mul, Times, Const;
    ConstContinuous(n0);
    TimesContinuous(Const(n0), h);
    ContinuousMul(r, Times(Const(n0), h), p);
  }

  lemma NegateThree(x: real, n: real, a: real)
    requires n == -x
    ensures Mul(Mul(n, x), a) == -Mul(Mul(x, x), a)
  {
  }

  lemma InverseQuotient(f0: real, f: real, h0: real, h: real, p: real, n0: real, e: real)
    requires n0 == -h0 && Mul(h0, f0) == 1.0 && Mul(h, f) == 1.0 && f == f0 + Mul(p, e)
    ensures h == h0 + Mul(Mul(Mul(n0, h), p), e)
  {
    assert h0 * h * (f - f0) == h0 * (h * f) - h * (h0 * f0) == h0 - h;
  }

  lemma InverseContinuous(h: real -> real, f: real -> real, a: real)
    requires Slope(f, a) && forall e {:trigger h(e)} :: Mul(h(e), f(e)) == 1.0
    ensures Continuous(h)
  {
    hide Slope, Mul;
    SlopeContinuous(f, a);
    forall eps | eps > 0.0 ensures Close(h, eps) {
      assert Mul(h(0.0), f(0.0)) == 1.0;
      var mu := InverseRadius(h(0.0), f(0.0), eps);
      assert Close(f, mu);
      var delta :| delta > 0.0 && Near(f, mu, delta);
      forall e | Abs(e) < delta ensures Abs(h(e) - h(0.0)) < eps {
        InverseNear(f(0.0), f(e), h(0.0), h(e), mu, eps);
      }
      assert Near(h, eps, delta);
    }
  }

  lemma InverseRadius(h0: real, f0: real, eps: real) returns (mu: real)
    requires Mul(h0, f0) == 1.0 && eps > 0.0
    ensures 0.0 < mu <= Abs(f0) / 2.0 && Mul(mu, Mul(2.0 * Abs(h0), Abs(h0))) <= eps
  {
    AbsMul(h0, f0);
    var x := Mul(2.0 * Abs(h0), Abs(h0));
    SquarePositive(Abs(h0), Abs(f0));
    mu := Min(Abs(f0) / 2.0, eps / x);
    Divided(eps, x);
    MulBelow(mu, eps / x, x);
  }

  lemma SquarePositive(y: real, f: real)
    requires y >= 0.0 && f >= 0.0 && Mul(y, f) == 1.0
    ensures y > 0.0 && f > 0.0 && Mul(2.0 * y, y) > 0.0
  {
  }

  lemma InverseNear(f0: real, f: real, h0: real, h: real, mu: real, eps: real)
    requires Mul(h0, f0) == 1.0 && Mul(h, f) == 1.0 && Abs(f - f0) < mu && mu <= Abs(f0) / 2.0
    requires 0.0 < eps && Mul(mu, Mul(2.0 * Abs(h0), Abs(h0))) <= eps
    ensures Abs(h - h0) < eps
  {
    hide Mul;
    var x, y := Abs(h), Abs(h0);
    AbsMul(h, f);
    AbsMul(h0, f0);
    assert Abs(f) >= Abs(f0) / 2.0;
    AtMostTwice(x, Abs(f), y, Abs(f0));
    InverseGap(f0, f, h0, h);
    AbsMul(Mul(h, h0), f0 - f);
    AbsMul(h, h0);
    assert Abs(f0 - f) == Abs(f - f0);
    MulBelow(x, 2.0 * y, y);
    MulBelow(Mul(x, y), Mul(2.0 * y, y), Abs(f - f0));
    SquarePositive(y, Abs(f0));
    MulBelow(Abs(f - f0), mu, Mul(2.0 * y, y));
    Commute(Abs(f - f0), Mul(2.0 * y, y));
  }

  lemma Commute(x: real, y: real)
    ensures Mul(x, y) == Mul(y, x)
  {
  }

  lemma AtMostTwice(x: real, f: real, y: real, f0: real)
    requires x >= 0.0 && y >= 0.0 && Mul(x, f) == 1.0 && Mul(y, f0) == 1.0 && f >= f0 / 2.0
    ensures x <= 2.0 * y
  {
    assert y * (x * f) == y && x * (y * f0) == x;
    assert y * x * (f - f0 / 2.0) >= 0.0;
  }

  lemma InverseGap(f0: real, f: real, h0: real, h: real)
    requires Mul(h0, f0) == 1.0 && Mul(h, f) == 1.0
    ensures h - h0 == Mul(Mul(h, h0), f0 - f)
  {
    assert h * h0 * (f0 - f) == h * (h0 * f0) - h0 * (h * f);
  }

  lemma SlopeNeg(h: real -> real, s: real, f: real -> real, a: real)
    requires Slope(f, a) && forall e {:trigger h(e)} :: h(e) == -f(e)
    requires s == -a
    ensures Slope(h, s)
  {
    hide Slope, Mul;
    forall e ensures h(e) == Mul(-1.0, f(e)) {
      Negated(f(e));
    }
    Negated(a);
    SlopeScale(h, s, -1.0, f, a);
  }

  lemma Negated(x: real)
    ensures Mul(-1.0, x) == -x
  {
  }

  ghost function Opposite(f: real -> real): (h: real -> real)
    ensures forall e {:trigger h(e)} :: h(e) == -f(e)
  {
    (e: real) => -f(e)
  }

  lemma SlopeSub(h: real -> real, s: real, f: real -> real, a: real, g: real -> real, b: real)
    requires Slope(f, a) && Slope(g, b) && forall e {:trigger h(e)} :: h(e) == f(e) - g(e)
    requires s == a - b
    ensures Slope(h, s)
  {
    hide Slope, Opposite;
    var down := -b;
    SlopeNeg(Opposite(g), down, g, b);
    SlopeAdd(h, s, f, a, Opposite(g), down);
  }

  lemma PlusSlope(f: real -> real, a: real, g: real -> real, b: real)
    requires Slope(f, a) && Slope(g, b)
    ensures Slope(Plus(f, g), a + b)
  {
    hide Slope, Plus;
    SlopeAdd(Plus(f, g), a + b, f, a, g, b);
  }

  lemma TimesSlope(f: real -> real, a: real, g: real -> real, b: real)
    requires Slope(f, a) && Slope(g, b)
    ensures Slope(Times(f, g), Mul(a, g(0.0)) + Mul(f(0.0), b))
  {
    hide Slope, Times, Mul;
    SlopeMul(Times(f, g), Mul(a, g(0.0)) + Mul(f(0.0), b), f, a, g, b);
  }

  lemma ConstSlope(c: real)
    ensures Slope(Const(c), 0.0)
  {
    hide Slope, Const;
    SlopeConst(Const(c), c);
  }

  /** The terms of a sum at one point of their paths. */
  ghost function Slice(parts: int -> real -> real, e: real): (f: int -> real)
    ensures forall i {:trigger f(i)} :: f(i) == parts(i)(e)
  {
    (i: int) => parts(i)(e)
  }

  ghost function Partial(n: int, parts: int -> real -> real): (h: real -> real)
    ensures forall e {:trigger h(e)} :: h(e) == Sum(n, Slice(parts, e))
  {
    hide Sum, Slice;
    (e: real) => Sum(n, Slice(parts, e))
  }

  lemma {:induction false} SlopeSum(n: int, h: real -> real, s: real, parts: int -> real -> real, slopes: int -> real)
    requires forall i {:trigger slopes(i)} :: 0 <= i < n ==> Slope(parts(i), slopes(i))
    requires forall e {:trigger h(e)} :: h(e) == Sum(n, Slice(parts, e))
    requires s == Sum(n, slopes)
    ensures Slope(h, s)
    decreases n
  {
    hide Slope, Slice, Partial;
    if n <= 0 {
      SlopeConst(h, 0.0);
    } else {
      var rest := Partial(n - 1, parts);
      SlopeSum(n - 1, rest, Sum(n - 1, slopes), parts, slopes);
      assert Slope(parts(n - 1), slopes(n - 1));
      SlopeAdd(h, s, rest, Sum(n - 1, slopes), parts(n - 1), slopes(n - 1));
    }
  }

  // ---- a minimum with a constant ----

  /** Below the constant the minimum moves with its argument. */
  lemma SlopeMinBelow(h: real -> real, f: real -> real, a: real, top: real)
    requires Slope(f, a) && f(0.0) < top && forall e {:trigger h(e)} :: h(e) == Min(f(e), top)
    ensures Slope(h, a)
  {
    hide Slope;
    SlopeContinuous(f, a);
    var gap := top - f(0.0);
    assert Close(f, gap);
    var delta :| delta > 0.0 && Near(f, gap, delta);
    SlopeLocal(f, h, a, delta);
  }

  /** Above it the minimum stands still. */
  lemma SlopeMinAbove(h: real -> real, f: real -> real, a: real, top: real)
    requires Slope(f, a) && f(0.0) > top && forall e {:trigger h(e)} :: h(e) == Min(f(e), top)
    ensures Slope(h, 0.0)
  {
    hide Slope;
    SlopeContinuous(f, a);
    var gap, still := f(0.0) - top, (e: real) => top;
    assert Close(f, gap);
    var delta :| delta > 0.0 && Near(f, gap, delta);
    SlopeConst(still, top);
    SlopeLocal(still, h, 0.0, delta);
  }

  /** At the corner the minimum stands still, to first order, exactly when its argument does. */
  lemma SlopeMinCorner(h: real -> real, f: real -> real, a: real, top: real)
    requires Slope(f, a) && f(0.0) == top && forall e {:trigger h(e)} :: h(e) == Min(f(e), top)
    ensures Slope(h, 0.0) <==> a == 0.0
  {
    hide Slope;
    if a == 0.0 {
      CornerStill(h, f, top);
    }
    if Slope(h, 0.0) {
      CornerSteep(h, f, a, top);
    }
  }

  lemma CornerStill(h: real -> real, f: real -> real, top: real)
    requires Slope(f, 0.0) && f(0.0) == top && forall e {:trigger h(e)} :: h(e) == Min(f(e), top)
    ensures Slope(h, 0.0)
  {
    hide Mul;
    var q, r := Quotient(f, 0.0), Quotient(h, 0.0);
    forall eps | eps > 0.0 ensures Close(r, eps) {
      assert Close(q, eps);
      var delta :| delta > 0.0 && Near(q, eps, delta);
      forall e | Abs(e) < delta ensures Abs(r(e) - r(0.0)) < eps {
        assert Abs(q(e) - q(0.0)) < eps;
        if e != 0.0 {
          Shrinks(f(e) - f(0.0), h(e) - h(0.0), e);
        }
      }
      assert Near(r, eps, delta);
    }
  }

  lemma Shrinks(x: real, y: real, e: real)
    requires y == Min(x, 0.0) && e != 0.0
    ensures Abs(y / e) <= Abs(x / e)
  {
    if x >= 0.0 {
      assert y / e == 0.0;
    }
  }

  lemma CornerSteep(h: real -> real, f: real -> real, a: real, top: real)
    requires Slope(f, a) && Slope(h, 0.0) && f(0.0) == top && forall e {:trigger h(e)} :: h(e) == Min(f(e), top)
    ensures a == 0.0
  {
    hide Slope;
    var k := (e: real) => f(e) - h(e);
    SlopeSub(k, a, f, a, h, 0.0);
    LowestWithin(k, a, if a == 0.0 then 1.0 else Abs(a));
  }

  /** Where a function is lowest its slope is zero. */
  lemma LowestWithin(k: real -> real, a: real, eps: real)
    requires Slope(k, a) && k(0.0) == 0.0 && eps > 0.0 && forall e {:trigger k(e)} :: k(e) >= 0.0
    ensures Abs(a) < eps
  {
    var q := Quotient(k, a);
    assert Close(q, eps);
    var delta :| delta > 0.0 && Near(q, eps, delta);
    var e := delta / 2.0;
    assert Abs(q(e) - q(0.0)) < eps && Abs(q(-e) - q(0.0)) < eps;
    Sided(k(e), e);
    Sided(k(-e), e);
  }

  lemma Sided(y: real, e: real)
    requires y >= 0.0 && e > 0.0
    ensures y / e >= 0.0 && y / -e <= 0.0
  {
  }
}
