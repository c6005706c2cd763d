/** The slopes of the kernels' scalar functions, from the slopes of exp, log, rsqrt, cos, sin and tanh, and the laws
    that tie the scalar functions to exp and log. */
module FunctionSlopes {
  import opened Sums
  import opened Functions
  import opened Slopes

  /** What calculus says of the transcendental functions. */
  ghost predicate Smooth(k: Fns) {
    && (forall x :: ExpRule(k, x)) && (forall x :: LogRule(k, x)) && (forall x :: RsqrtRule(k, x))
    && Turns(k.cos, k.sin) && (forall x :: TanhRule(k, x))
  }

  /** A function that is its own slope, and a cosine with its sine. */
  ghost predicate Grows(exp: real -> real) { forall x :: OwnRule(exp, x) }
  ghost predicate Turns(cos: real -> real, sin: real -> real) { forall x :: TurnRule(cos, sin, x) }
  ghost predicate OwnRule(exp: real -> real, x: real) { SlopeAt(exp, x, exp(x)) }

  ghost predicate TurnRule(cos: real -> real, sin: real -> real, x: real) {
    SlopeAt(cos, x, Minus(sin(x))) && SlopeAt(sin, x, cos(x))
  }

  ghost predicate ExpRule(k: Fns, x: real) { OwnRule(k.exp, x) && Mul(k.exp(x), k.exp(-x)) == 1.0 }
  ghost predicate LogRule(k: Fns, x: real) { x > 0.0 ==> SlopeAt(k.log, x, Inverse(x)) }
  ghost predicate RsqrtRule(k: Fns, x: real) { x > 0.0 ==> SlopeAt(k.rsqrt, x, RsqrtSlope(k.rsqrt(x))) }
  ghost predicate TanhRule(k: Fns, x: real) { SlopeAt(k.tanh, x, TanhSlope(k.tanh(x))) }

  // ---- laws of the functions themselves ----

  /** Sums become products, a logarithm is undone, and a root squared is the reciprocal. */
  ghost predicate Additive(exp: real -> real) { forall x, y :: Adds(exp, x, y) }
  ghost predicate Adds(exp: real -> real, x: real, y: real) { exp(x + y) == Mul(exp(x), exp(y)) }
  ghost predicate Undoes(exp: real -> real, log: real -> real) {
    forall y {:trigger log(y)} :: y > 0.0 ==> exp(log(y)) == y
  }

  ghost predicate RootLaw(rsqrt: real -> real) {
    forall x {:trigger rsqrt(x)} :: x > 0.0 ==> rsqrt(x) * rsqrt(x) * x == 1.0
  }

  lemma ExpZero(exp: real -> real)
    requires Additive(exp) && exp(0.0) > 0.0
    ensures exp(0.0) == 1.0
  {
    assert Adds(exp, 0.0, 0.0);
    OwnSquare(exp(0.0));
  }

  lemma OwnSquare(x: real)
    requires x > 0.0 && x == Mul(x, x)
    ensures x == 1.0
  {
    assert x * (x - 1.0) == 0.0;
  }

  /** 1 / x, -x, -y^3 / 2 and 1 - y^2, as function symbols. */
  function Inverse(x: real): real { if x == 0.0 then 0.0 else 1.0 / x }
  function Minus(x: real): real { -x }
  function RsqrtSlope(y: real): real { -(y * y * y / 2.0) }
  function TanhSlope(y: real): real { 1.0 - y * y }

  // ---- paths as function symbols ----

  ghost function After(g: real -> real, f: real -> real): (h: real -> real)
    ensures forall e {:trigger h(e)} :: h(e) == g(f(e))
  {
    (e: real) => g(f(e))
  }

  ghost function Raise(c: real, f: real -> real): (h: real -> real)
    ensures forall e {:trigger h(e)} :: h(e) == c + f(e)
  {
    (e: real) => c + f(e)
  }

  ghost function Lower(c: real, f: real -> real): (h: real -> real)
    ensures forall e {:trigger h(e)} :: h(e) == c - f(e)
  {
    (e: real) => c - f(e)
  }

  ghost function SigmoidAfter(k: Fns, f: real -> real): (h: real -> real)
    ensures forall e {:trigger h(e)} :: h(e) == Sigmoid(k, f(e))
  {
    hide Sigmoid;
    (e: real) => Sigmoid(k, f(e))
  }

  ghost function SiluAfter(k: Fns, f: real -> real): (h: real -> real)
    ensures forall e {:trigger h(e)} :: h(e) == Silu(k, f(e))
  {
    hide Silu;
    (e: real) => Silu(k, f(e))
  }

  ghost function Over(f: real -> real, size: real): real -> real
    requires size != 0.0
  {
    (e: real) => f(e) / size
  }

  lemma OppositeSlope(f: real -> real, a: real)
    requires Slope(f, a)
    ensures Slope(Opposite(f), Minus(a))
  {
    hide Slope, Opposite;
    SlopeNeg(Opposite(f), Minus(a), f, a);
  }

  /** A constant added. */
  lemma RaiseSlope(c: real, f: real -> real, a: real)
    requires Slope(f, a)
    ensures Slope(Raise(c, f), a)
  {
    hide Slope, Const, Raise;
    ConstSlope(c);
    SlopeAdd(Raise(c, f), a, Const(c), 0.0, f, a);
  }

  /** Taken from a constant. */
  lemma LowerSlope(c: real, f: real -> real, a: real)
    requires Slope(f, a)
    ensures Slope(Lower(c, f), Minus(a))
  {
    hide Slope, Const, Lower;
    ConstSlope(c);
    SlopeSub(Lower(c, f), Minus(a), Const(c), 0.0, f, a);
  }

  lemma OverSlope(f: real -> real, a: real, size: real)
    requires size != 0.0 && Slope(f, a)
    ensures Slope(Over(f, size), Mul(Inverse(size), a))
  {
    hide Slope, Mul, Inverse;
    forall e ensures Over(f, size)(e) == Mul(Inverse(size), f(e)) {
      Divide(f(e), size);
    }
    SlopeScale(Over(f, size), Mul(Inverse(size), a), Inverse(size), f, a);
  }

  lemma OverForm(f: real -> real, size: real)
    requires size != 0.0
    ensures forall e {:trigger Over(f, size)(e)} :: Over(f, size)(e) == f(e) / size
  {
  }

  lemma Divide(x: real, size: real)
    requires size != 0.0
    ensures x / size == Mul(Inverse(size), x)
  {
  }

  // ---- exp, log and what is built from them ----

  lemma SlopeGrown(exp: real -> real, h: real -> real, s: real, f: real -> real, a: real)
    requires Grows(exp) && Slope(f, a) && forall e {:trigger h(e)} :: h(e) == exp(f(e))
    requires s == Mul(h(0.0), a)
    ensures Slope(h, s)
  {
    hide Slope, SlopeAt, Mul;
    assert OwnRule(exp, f(0.0));
    SlopeChain(h, s, exp, exp(f(0.0)), f, a);
  }

  lemma SmoothGrows(k: Fns)
    requires Smooth(k)
    ensures Grows(k.exp)
  {
    hide OwnRule;
    forall x ensures OwnRule(k.exp, x) {
      assert ExpRule(k, x);
    }
  }

  lemma SlopeExp(k: Fns, h: real -> real, s: real, f: real -> real, a: real)
    requires Smooth(k) && Slope(f, a) && forall e {:trigger h(e)} :: h(e) == k.exp(f(e))
    requires s == Mul(k.exp(f(0.0)), a)
    ensures Slope(h, s)
  {
    hide Slope, Smooth, Grows, Mul;
    SmoothGrows(k);
    SlopeGrown(k.exp, h, s, f, a);
  }

  lemma SigmoidLaw(k: Fns, x: real)
    ensures Mul(Sigmoid(k, x), 1.0 + k.exp(-x)) == 1.0
  {
  }

  /** The sigmoid's slope in terms of exp alone. */
  lemma DSigmoidLaw(k: Fns, x: real)
    ensures Mul(DSigmoid(k, x), Mul(1.0 + k.exp(-x), 1.0 + k.exp(-x))) == k.exp(-x)
  {
    var s, z := Sigmoid(k, x), 1.0 + k.exp(-x);
    SigmoidLaw(k, x);
    assert (1.0 - s) * z == z - s * z == k.exp(-x);
    assert s * (1.0 - s) * (z * z) == s * z * ((1.0 - s) * z);
  }

  lemma SlopeSigmoid(k: Fns, h: real -> real, s: real, f: real -> real, a: real)
    requires Grows(k.exp) && Slope(f, a) && forall e {:trigger h(e)} :: h(e) == Sigmoid(k, f(e))
    requires s == Mul(DSigmoid(k, f(0.0)), a)
    ensures Slope(h, s)
  {
    hide Slope, Mul, Grows, Sigmoid, DSigmoid, Opposite, After;
    OppositeSlope(f, a);
    var grown, slope := After(k.exp, Opposite(f)), Mul(k.exp(Opposite(f)(0.0)), Minus(a));
    SlopeGrown(k.exp, grown, slope, Opposite(f), Minus(a));
    SigmoidFrom(k, h, s, f, a, grown, slope);
  }

  lemma SigmoidFrom(k: Fns, h: real -> real, s: real, f: real -> real, a: real, grown: real -> real, slope: real)
    requires forall e {:trigger h(e)} :: h(e) == Sigmoid(k, f(e))
    requires forall e {:trigger grown(e)} :: grown(e) == k.exp(Minus(f(e)))
    requires Slope(grown, slope) && slope == Mul(grown(0.0), Minus(a)) && s == Mul(DSigmoid(k, f(0.0)), a)
    ensures Slope(h, s)
  {
    hide Slope, Mul, Sigmoid, DSigmoid, Raise, Minus;
    var below := Raise(1.0, grown);
    RaiseSlope(1.0, grown, slope);
    forall e ensures Mul(h(e), below(e)) == 1.0 {
      SigmoidGrown(k, f(e), h(e), grown(e), below(e));
    }
    SigmoidFactor(k, f(0.0), a, grown(0.0), slope, h(0.0));
    SlopeInverse(h, s, below, slope);
  }

  lemma SigmoidGrown(k: Fns, x: real, h: real, grown: real, below: real)
    requires h == Sigmoid(k, x) && grown == k.exp(Minus(x)) && below == 1.0 + grown
    ensures Mul(h, below) == 1.0
  {
    SigmoidLaw(k, x);
  }

  lemma SigmoidFactor(k: Fns, x: real, a: real, grown: real, slope: real, h: real)
    requires grown == k.exp(Minus(x)) && slope == Mul(grown, Minus(a)) && h == Sigmoid(k, x)
    ensures -Mul(Mul(h, h), slope) == Mul(DSigmoid(k, x), a)
  {
    SigmoidLaw(k, x);
    assert h * grown == 1.0 - h;
    assert h * h * (grown * a) == h * (h * grown) * a;
  }

  /** The softplus is the number whose exponential is 1 + exp(x), where exp undoes log. */
  lemma SoftplusLaw(k: Fns, x: real)
    requires Undoes(k.exp, k.log)
    ensures k.exp(Softplus(k, x)) == 1.0 + k.exp(x)
  {
  }

  lemma SoftplusOfSum(k: Fns, x: real, y: real)
    requires Undoes(k.exp, k.log) && Additive(k.exp)
    ensures k.exp(Softplus(k, x + y)) == 1.0 + Mul(k.exp(x), k.exp(y))
  {
    hide Softplus, Undoes, Mul;
    SoftplusLaw(k, x + y);
    assert Adds(k.exp, x, y);
  }

  lemma SlopeSoftplus(k: Fns, h: real -> real, s: real, f: real -> real, a: real)
    requires Smooth(k) && Slope(f, a) && forall e {:trigger h(e)} :: h(e) == Softplus(k, f(e))
    requires s == Mul(Sigmoid(k, f(0.0)), a)
    ensures Slope(h, s)
  {
    hide Slope, Mul, Sigmoid, Smooth, After, Raise;
    var grown, slope := After(k.exp, f), Mul(k.exp(f(0.0)), a);
    SlopeExp(k, grown, slope, f, a);
    RaiseSlope(1.0, grown, slope);
    SoftplusFrom(k, h, s, f, a, slope, Raise(1.0, grown));
  }

  lemma SoftplusFrom(k: Fns, h: real -> real, s: real, f: real -> real, a: real, slope: real, above: real -> real)
    requires Smooth(k) && Slope(above, slope) && slope == Mul(k.exp(f(0.0)), a) && s == Mul(Sigmoid(k, f(0.0)), a)
    requires forall e {:trigger h(e)} :: h(e) == Softplus(k, f(e))
    requires forall e {:trigger above(e)} :: above(e) == 1.0 + k.exp(f(e))
    ensures Slope(h, s)
  {
    hide Slope, SlopeAt, Mul, Sigmoid, Inverse;
    var x, top := f(0.0), above(0.0);
    assert LogRule(k, top) && ExpRule(k, x);
    SoftplusFactor(k, x, a, slope, top);
    SlopeChain(h, s, k.log, Inverse(top), above, slope);
  }

  lemma SoftplusFactor(k: Fns, x: real, a: real, slope: real, top: real)
    requires Mul(k.exp(x), k.exp(-x)) == 1.0 && slope == Mul(k.exp(x), a) && top == 1.0 + k.exp(x)
    ensures Mul(Inverse(top), slope) == Mul(Sigmoid(k, x), a)
  {
    var u, v := k.exp(x), k.exp(-x);
    SigmoidLaw(k, x);
    Quotients(u, v, Inverse(top), Sigmoid(k, x));
    assert Inverse(top) * (u * a) == Inverse(top) * u * a;
  }

  lemma Quotients(u: real, v: real, p: real, s: real)
    requires u * v == 1.0 && p * (1.0 + u) == 1.0 && s * (1.0 + v) == 1.0
    ensures p * u == s
  {
    assert u * (1.0 + v) == u + 1.0;
    assert p * u * (1.0 + v) == p * (u * (1.0 + v)) == 1.0;
    assert p * u * (s * (1.0 + v)) == s * (p * u * (1.0 + v));
  }

  lemma SiluLaw(k: Fns, x: real)
    ensures Mul(Silu(k, x), 1.0 + k.exp(-x)) == x
  {
    SigmoidLaw(k, x);
    assert x * Sigmoid(k, x) * (1.0 + k.exp(-x)) == x * (Sigmoid(k, x) * (1.0 + k.exp(-x)));
  }

  lemma SlopeSilu(k: Fns, h: real -> real, s: real, f: real -> real, a: real)
    requires Grows(k.exp) && Slope(f, a) && forall e {:trigger h(e)} :: h(e) == Silu(k, f(e))
    requires s == Mul(DSilu(k, f(0.0)), a)
    ensures Slope(h, s)
  {
    hide Slope, Mul, Grows, Sigmoid, DSigmoid, Silu, DSilu, SigmoidAfter;
    var gate, slope := SigmoidAfter(k, f), Mul(DSigmoid(k, f(0.0)), a);
    SlopeSigmoid(k, gate, slope, f, a);
    forall e ensures h(e) == Mul(f(e), gate(e)) {
      SiluForm(k, f(e));
    }
    SiluFactor(k, f(0.0), a, slope);
    SlopeMul(h, s, f, a, gate, slope);
  }

  lemma SiluForm(k: Fns, x: real)
    ensures Silu(k, x) == Mul(x, Sigmoid(k, x))
  {
  }

  lemma SiluFactor(k: Fns, x: real, a: real, slope: real)
    requires slope == Mul(DSigmoid(k, x), a)
    ensures Mul(a, Sigmoid(k, x)) + Mul(x, slope) == Mul(DSilu(k, x), a)
  {
    hide Sigmoid;
    var s := Sigmoid(k, x);
    assert x * (s * (1.0 - s) * a) == s * (x * (1.0 - s)) * a;
  }

  // ---- tanh ----

  lemma SlopeTanh(k: Fns, h: real -> real, s: real, f: real -> real, a: real)
    requires Smooth(k) && Slope(f, a) && forall e {:trigger h(e)} :: h(e) == k.tanh(f(e))
    requires s == Mul(TanhSlope(h(0.0)), a)
    ensures Slope(h, s)
  {
    hide Slope, SlopeAt, Mul, TanhSlope;
    var x := f(0.0);
    assert TanhRule(k, x) && h(0.0) == k.tanh(x);
    SlopeChain(h, s, k.tanh, TanhSlope(k.tanh(x)), f, a);
  }

  // ---- turning a pair ----

  lemma SmoothTurns(k: Fns)
    requires Smooth(k)
    ensures Turns(k.cos, k.sin)
  {
    hide Turns, ExpRule, LogRule, RsqrtRule, TanhRule;
  }

  ghost function By(wave: real -> real, x: real -> real, f: real -> real): (h: real -> real)
    ensures forall e {:trigger h(e)} :: h(e) == Mul(x(e), wave(f(e)))
  {
    hide Mul;
    (e: real) => Mul(x(e), wave(f(e)))
  }

  /** How x wave(f) moves, where the wave's slope is `slope`. */
  function TBy(wave: real, slope: real, x: real, tx: real, tf: real): real { Mul(tx, wave) + Mul(x, Mul(slope, tf)) }

  lemma BySlope(wave: real -> real, slope: real, x: real -> real, tx: real, f: real -> real, tf: real)
    requires SlopeAt(wave, f(0.0), slope) && Slope(x, tx) && Slope(f, tf)
    ensures Slope(By(wave, x, f), TBy(wave(f(0.0)), slope, x(0.0), tx, tf))
  {
    hide Slope, SlopeAt, Mul, After, By;
    SlopeChain(After(wave, f), Mul(slope, tf), wave, slope, f, tf);
    SlopeMul(By(wave, x, f), TBy(wave(f(0.0)), slope, x(0.0), tx, tf), x, tx, After(wave, f), Mul(slope, tf));
  }

  /** How x cos(f) and x sin(f) move, from the cosine and the sine. */
  function TByCos(c: real, z: real, x: real, tx: real, tf: real): real { TBy(c, Minus(z), x, tx, tf) }
  function TBySin(c: real, z: real, x: real, tx: real, tf: real): real { TBy(z, c, x, tx, tf) }

  lemma TurnSlopes(cos: real -> real, sin: real -> real, x: real -> real, tx: real, f: real -> real, tf: real, c: real,
                   z: real)
    requires Turns(cos, sin) && Slope(x, tx) && Slope(f, tf) && c == cos(f(0.0)) && z == sin(f(0.0))
    ensures Slope(By(cos, x, f), TByCos(c, z, x(0.0), tx, tf)) && Slope(By(sin, x, f), TBySin(c, z, x(0.0), tx, tf))
  {
    hide Slope, SlopeAt, By, TBy, Minus;
    assert TurnRule(cos, sin, f(0.0));
    BySlope(cos, Minus(z), x, tx, f, tf);
    BySlope(sin, c, x, tx, f, tf);
  }

  /** The difference and the sum that the rotations are made of. */
  lemma SlopeTurnMinus(cos: real -> real, sin: real -> real, h: real -> real, s: real, x: real -> real, tx: real,
                       y: real -> real, ty: real, f: real -> real, tf: real, c: real, z: real)
    requires Turns(cos, sin) && Slope(x, tx) && Slope(y, ty) && Slope(f, tf) && c == cos(f(0.0)) && z == sin(f(0.0))
    requires forall e {:trigger h(e)} :: h(e) == Mul(x(e), cos(f(e))) - Mul(y(e), sin(f(e)))
    requires s == TByCos(c, z, x(0.0), tx, tf) - TBySin(c, z, y(0.0), ty, tf)
    ensures Slope(h, s)
  {
    hide Slope, Turns, Mul, By, TByCos, TBySin;
    TurnSlopes(cos, sin, x, tx, f, tf, c, z);
    TurnSlopes(cos, sin, y, ty, f, tf, c, z);
    SlopeSub(h, s, By(cos, x, f), TByCos(c, z, x(0.0), tx, tf), By(sin, y, f), TBySin(c, z, y(0.0), ty, tf));
  }

  lemma SlopeTurnPlus(cos: real -> real, sin: real -> real, h: real -> real, s: real, x: real -> real, tx: real,
                      y: real -> real, ty: real, f: real -> real, tf: real, c: real, z: real)
    requires Turns(cos, sin) && Slope(x, tx) && Slope(y, ty) && Slope(f, tf) && c == cos(f(0.0)) && z == sin(f(0.0))
    requires forall e {:trigger h(e)} :: h(e) == Mul(x(e), sin(f(e))) + Mul(y(e), cos(f(e)))
    requires s == TBySin(c, z, x(0.0), tx, tf) + TByCos(c, z, y(0.0), ty, tf)
    ensures Slope(h, s)
  {
    hide Slope, Turns, Mul, By, TByCos, TBySin;
    TurnSlopes(cos, sin, x, tx, f, tf, c, z);
    TurnSlopes(cos, sin, y, ty, f, tf, c, z);
    SlopeAdd(h, s, By(sin, x, f), TBySin(c, z, x(0.0), tx, tf), By(cos, y, f), TByCos(c, z, y(0.0), ty, tf));
  }

  // ---- the inverse root mean square ----

  /** The inverse root of a mean over `size` entries. */
  function RmsOf(k: Fns, squares: real, size: real, eps: real): real
    requires size > 0.0
  {
    k.rsqrt(squares / size + eps)
  }

  /** When the mean square's sum moves by twice `move`. */
  lemma SlopeInverseRms(k: Fns, h: real -> real, s: real, squares: real -> real, twice: real, move: real, size: real,
                        eps: real)
    requires Smooth(k) && size > 0.0 && eps > 0.0 && squares(0.0) >= 0.0 && Slope(squares, twice)
             && twice == move + move
    requires forall e {:trigger h(e)} :: h(e) == RmsOf(k, squares(e), size, eps)
    requires s == InvTangent(h(0.0), move, size)
    ensures Slope(h, s)
  {
    hide Slope, Mul, Smooth, InvTangent, Inverse, Over, Raise, RmsOf;
    var part, slope := Over(squares, size), Mul(Inverse(size), twice);
    OverSlope(squares, twice, size);
    RaiseSlope(eps, part, slope);
    forall e ensures h(e) == k.rsqrt(Raise(eps, part)(e)) {
      RmsAt(k, squares, size, eps, e);
    }
    MeanPositive(squares, size, eps);
    InverseRmsFrom(k, h, s, Raise(eps, part), slope, twice, move, size);
  }

  lemma RmsAt(k: Fns, squares: real -> real, size: real, eps: real, e: real)
    requires size > 0.0
    ensures RmsOf(k, squares(e), size, eps) == k.rsqrt(Raise(eps, Over(squares, size))(e))
  {
  }

  lemma MeanPositive(squares: real -> real, size: real, eps: real)
    requires size > 0.0 && eps > 0.0 && squares(0.0) >= 0.0
    ensures Raise(eps, Over(squares, size))(0.0) > 0.0
  {
    assert squares(0.0) / size >= 0.0;
  }

  lemma InverseRmsFrom(k: Fns, h: real -> real, s: real, mean: real -> real, slope: real, twice: real, move: real,
                       size: real)
    requires Smooth(k) && size > 0.0 && mean(0.0) > 0.0 && Slope(mean, slope) && twice == move + move
    requires forall e {:trigger h(e)} :: h(e) == k.rsqrt(mean(e))
    requires slope == Mul(Inverse(size), twice) && s == InvTangent(h(0.0), move, size)
    ensures Slope(h, s)
  {
    hide Slope, SlopeAt, Mul, RsqrtSlope, InvTangent, Inverse;
    var x := mean(0.0);
    assert RsqrtRule(k, x) && h(0.0) == k.rsqrt(x);
    InvFactor(k.rsqrt(x), twice, move, size, slope);
    SlopeChain(h, s, k.rsqrt, RsqrtSlope(k.rsqrt(x)), mean, slope);
  }

  lemma InvFactor(inv: real, twice: real, move: real, size: real, slope: real)
    requires size > 0.0 && slope == Mul(Inverse(size), twice) && twice == move + move
    ensures Mul(RsqrtSlope(inv), slope) == InvTangent(inv, move, size)
  {
    var q := 1.0 / size;
    Divide(-inv * inv * inv * move, size);
    assert inv * inv * inv / 2.0 * (q * (move + move)) == inv * inv * inv * (q * move);
  }
}
