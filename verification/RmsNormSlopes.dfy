/** The tangent of a normalised row is its derivative, and what fixes the normalisation's scale. */
module RmsNormSlopes {
  import opened Sums
  import opened Functions
  import opened Slopes
  import opened FunctionSlopes
  import opened RmsNorm

  // ---- paths ----

  ghost function XAt(c: real -> Norm, r: int, i: int): (f: real -> real)
    ensures forall e {:trigger f(e)} :: f(e) == c(e).x(r, i)
  {
    (e: real) => c(e).x(r, i)
  }

  ghost function WeightAt(c: real -> Norm, i: int): (f: real -> real)
    ensures forall e {:trigger f(e)} :: f(e) == c(e).weight(i)
  {
    (e: real) => c(e).weight(i)
  }

  /** `c` is a path through rows of one size; row `r` and the weights move with velocities `tx` and `tw` at zero. */
  ghost predicate Curve(c: real -> Norm, tx: (int, int) -> real, tw: int -> real, r: int) {
    && (forall e {:trigger c(e)} :: c(e).size == c(0.0).size && c(e).fns == c(0.0).fns)
    && (forall i {:trigger XAt(c, r, i)} :: Slope(XAt(c, r, i), tx(r, i)))
    && (forall i {:trigger WeightAt(c, i)} :: Slope(WeightAt(c, i), tw(i)))
  }

  lemma XSlope(c: real -> Norm, tx: (int, int) -> real, tw: int -> real, r: int, i: int)
    requires Curve(c, tx, tw, r)
    ensures Slope(XAt(c, r, i), tx(r, i))
  {
    hide Slope, XAt;
    assert Slope(XAt(c, r, i), tx(r, i));
  }

  lemma WeightSlope(c: real -> Norm, tx: (int, int) -> real, tw: int -> real, r: int, i: int)
    requires Curve(c, tx, tw, r)
    ensures Slope(WeightAt(c, i), tw(i))
  {
    hide Slope, WeightAt;
    assert Slope(WeightAt(c, i), tw(i));
  }

  ghost function InvAt(c: real -> Norm, r: int): (f: real -> real)
    ensures forall e {:trigger f(e)} :: f(e) == Inv(c(e), r)
  {
    hide Inv;
    (e: real) => Inv(c(e), r)
  }

  ghost function OutAt(c: real -> Norm, r: int, i: int): (f: real -> real)
    ensures forall e {:trigger f(e)} :: f(e) == Out(c(e), r, i)
  {
    hide Out;
    (e: real) => Out(c(e), r, i)
  }

  ghost function SquareParts(c: real -> Norm, r: int): (f: int -> real -> real)
    ensures forall i {:trigger f(i)} :: f(i) == Times(XAt(c, r, i), XAt(c, r, i))
  {
    (i: int) => Times(XAt(c, r, i), XAt(c, r, i))
  }

  ghost function SquaresAt(c: real -> Norm, r: int): real -> real { Partial(c(0.0).size, SquareParts(c, r)) }

  // ---- the mean square ----

  lemma SquaresSlope(c: real -> Norm, tx: (int, int) -> real, tw: int -> real, r: int, move: real)
    requires Curve(c, tx, tw, r) && move == Move(c(0.0), tx, r)
    ensures Slope(SquaresAt(c, r), move + move)
  {
    hide Slope, Curve, XAt, Times, Mul, SquareParts, Partial, Sum;
    var m := c(0.0);
    var half := (i: int) => Mul(m.x(r, i), tx(r, i));
    var slopes := (i: int) => half(i) + half(i);
    forall i ensures Slope(SquareParts(c, r)(i), slopes(i)) {
      XSlope(c, tx, tw, r, i);
      Commute(m.x(r, i), tx(r, i));
      SlopeMul(SquareParts(c, r)(i), slopes(i), XAt(c, r, i), tx(r, i), XAt(c, r, i), tx(r, i));
    }
    SumAdd(m.size, slopes, half, half);
    SlopeSum(m.size, SquaresAt(c, r), move + move, SquareParts(c, r), slopes);
  }

  lemma SquaresForm(c: real -> Norm, tx: (int, int) -> real, tw: int -> real, r: int, e: real)
    requires Curve(c, tx, tw, r)
    ensures SquaresAt(c, r)(e) == Squares(c(e), r)
  {
    hide Slope, XAt, Times, Mul, SquareParts, Partial, Slice, Sum;
    SumEq(c(e).size, Slice(SquareParts(c, r), e), i => Mul(c(e).x(r, i), c(e).x(r, i)));
  }

  lemma SquaresNonNegative(m: Norm, r: int)
    ensures Squares(m, r) >= 0.0
  {
    hide Sum, Mul;
    var squares := (i: int) => Mul(m.x(r, i), m.x(r, i));
    forall i ensures squares(i) >= 0.0 {
      NonNegative(m.x(r, i));
    }
    SumNonNegative(m.size, squares);
  }

  lemma InvForm(m: Norm, r: int)
    ensures m.size as real > 0.0 && Inv(m, r) == RmsOf(m.fns, Squares(m, r), m.size as real, EPS)
  {
    hide Squares;
  }

  lemma InvSlope(c: real -> Norm, tx: (int, int) -> real, tw: int -> real, r: int, s: real)
    requires Curve(c, tx, tw, r) && Smooth(c(0.0).fns)
    requires s == InvTangent(Inv(c(0.0), r), Move(c(0.0), tx, r), c(0.0).size as real)
    ensures Slope(InvAt(c, r), s)
  {
    hide Slope, Smooth, InvAt, Inv, SquaresAt, Squares, RmsOf, InvTangent, Move;
    var m, size, move := c(0.0), c(0.0).size as real, Move(c(0.0), tx, r);
    InvForm(m, r);
    forall e ensures InvAt(c, r)(e) == RmsOf(m.fns, SquaresAt(c, r)(e), size, EPS) {
      InvForm(c(e), r);
      SquaresForm(c, tx, tw, r, e);
    }
    hide Curve;
    SquaresForm(c, tx, tw, r, 0.0);
    SquaresNonNegative(m, r);
    SquaresSlope(c, tx, tw, r, move);
    SlopeInverseRms(m.fns, InvAt(c, r), s, SquaresAt(c, r), move + move, move, size, EPS);
  }

  // ---- the normalised row ----

  lemma OutForm(m: Norm, r: int, i: int)
    ensures Out(m, r, i) == Mul(Mul(m.x(r, i), Inv(m, r)), m.weight(i))
  {
    hide Inv;
  }

  lemma TOutForm(m: Norm, tx: (int, int) -> real, tw: int -> real, r: int, i: int, a: real, tinv: real)
    requires tinv == InvTangent(Inv(m, r), Move(m, tx, r), m.size as real)
    requires a == Mul(tx(r, i), Inv(m, r)) + Mul(m.x(r, i), tinv)
    ensures TOut(m, tx, tw, r, i) == Mul(a, m.weight(i)) + Mul(Mul(m.x(r, i), Inv(m, r)), tw(i))
  {
    hide Inv, Move, InvTangent;
  }

  /** Every entry of a normalised row moves, to first order, by its tangent. */
  lemma OutSlope(c: real -> Norm, tx: (int, int) -> real, tw: int -> real, r: int, i: int)
    requires Curve(c, tx, tw, r) && Smooth(c(0.0).fns)
    ensures Slope(OutAt(c, r, i), TOut(c(0.0), tx, tw, r, i))
  {
    hide Slope, Curve, Smooth, InvAt, Inv, InvTangent, Move, XAt, WeightAt, OutAt, Out, TOut, Times, Mul;
    var m, tinv := c(0.0), InvTangent(Inv(c(0.0), r), Move(c(0.0), tx, r), c(0.0).size as real);
    var a := Mul(tx(r, i), Inv(m, r)) + Mul(m.x(r, i), tinv);
    var row := Times(XAt(c, r, i), InvAt(c, r));
    XSlope(c, tx, tw, r, i);
    WeightSlope(c, tx, tw, r, i);
    InvSlope(c, tx, tw, r, tinv);
    SlopeMul(row, a, XAt(c, r, i), tx(r, i), InvAt(c, r), tinv);
    forall e ensures OutAt(c, r, i)(e) == Mul(row(e), WeightAt(c, i)(e)) {
      OutForm(c(e), r, i);
    }
    TOutForm(m, tx, tw, r, i, a, tinv);
    SlopeMul(OutAt(c, r, i), TOut(m, tx, tw, r, i), row, a, WeightAt(c, i), tw(i));
  }

  // ---- what rsqrt is ----

  /** The inverse root mean square, epsilon included. */
  lemma InvLaw(m: Norm, r: int)
    requires RootLaw(m.fns.rsqrt)
    ensures Inv(m, r) * Inv(m, r) * (Squares(m, r) / m.size as real + 0.00001) == 1.0
  {
    hide Squares;
    SquaresNonNegative(m, r);
    var mean := Squares(m, r) / m.size as real + EPS;
    assert mean > 0.0 && Inv(m, r) == m.fns.rsqrt(mean);
  }

  /** Euler's identity: the gradient has no component along the row but for the epsilon. */
  lemma GradientAlongRow(m: Norm, r: int)
    requires RootLaw(m.fns.rsqrt)
    ensures Sum(m.size, i => Mul(m.x(r, i), XGrad(m, r, i)))
            == 0.00001 * (Inv(m, r) * Inv(m, r) * Inv(m, r)) * Dot(m, r)
  {
    hide Sum, Inv, Squares, Dot, XGrad, RootLaw;
    InvLaw(m, r);
    AlongTheRow(m, r);
    Scaled(EPS, Inv(m, r) * Inv(m, r) * Inv(m, r), Dot(m, r));
  }

  lemma Scaled(eps: real, x: real, y: real)
    requires eps == 0.00001
    ensures eps * x * y == 0.00001 * x * y
  {
    var z := x * y;
    assert eps * x * y == eps * z && 0.00001 * x * y == 0.00001 * z;
  }

  /** A row scaled by ones has unit mean square, but for the epsilon. */
  lemma UnitMeanSquare(m: Norm, r: int)
    requires RootLaw(m.fns.rsqrt) && forall i {:trigger m.weight(i)} :: m.weight(i) == 1.0
    ensures Sum(m.size, i => Mul(Out(m, r, i), Out(m, r, i)))
            == Mul(m.size as real, 1.0 - 0.00001 * Mul(Inv(m, r), Inv(m, r)))
  {
    hide Sum, Inv, Squares, Mul, RootLaw, Out;
    OutsTotal(m, r);
    InvLaw(m, r);
    MeanTotal(Inv(m, r), Squares(m, r), m.size as real);
  }

  lemma OutsTotal(m: Norm, r: int)
    requires forall i {:trigger m.weight(i)} :: m.weight(i) == 1.0
    ensures Sum(m.size, i => Mul(Out(m, r, i), Out(m, r, i))) == Mul(Mul(Inv(m, r), Inv(m, r)), Squares(m, r))
  {
    hide Sum, Inv, Squares, Mul, Entry;
    var inv := Inv(m, r);
    var squares, outs := (i: int) => Mul(m.x(r, i), m.x(r, i)), (i: int) => Mul(Out(m, r, i), Out(m, r, i));
    forall i ensures outs(i) == Mul(Mul(inv, inv), squares(i)) {
      SquaredEntry(m.x(r, i), inv);
    }
    SumScaleMul(m.size, outs, Mul(inv, inv), squares);
    SquaresTotal(m, r, squares);
  }

  lemma SquaresTotal(m: Norm, r: int, squares: int -> real)
    requires forall i {:trigger squares(i)} :: squares(i) == Mul(m.x(r, i), m.x(r, i))
    ensures Sum(m.size, squares) == Squares(m, r)
  {
    hide Sum, Mul;
    SumEq(m.size, squares, i => Mul(m.x(r, i), m.x(r, i)));
  }

  lemma SquaredEntry(x: real, inv: real)
    ensures Mul(Entry(x, inv, 1.0), Entry(x, inv, 1.0)) == Mul(Mul(inv, inv), Mul(x, x))
  {
  }

  lemma MeanTotal(inv: real, squares: real, size: real)
    requires size > 0.0 && inv * inv * (squares / size + 0.00001) == 1.0
    ensures Mul(Mul(inv, inv), squares) == Mul(size, 1.0 - 0.00001 * Mul(inv, inv))
  {
    var q, y := squares / size, inv * inv;
    assert q * size == squares;
    assert y * (q + 0.00001) == y * q + y * 0.00001;
    assert y * (q * size) == y * q * size;
  }
}
