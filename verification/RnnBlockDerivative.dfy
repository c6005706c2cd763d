/** The reverse sweep of the whole M2RNN block leaves the derivative of the loss. */
module RnnBlockDerivative {
  import opened Sums
  import opened Losses
  import opened Slopes
  import opened FunctionSlopes
  import opened RnnBlockModel
  import opened RnnBlockGradient
  import opened RnnBlockAdjoint
  import opened RnnBlockPaths
  import opened RnnBlockSlopes
  import RmsNorm
  import N = RmsNormSlopes

  // ---- norm and output ----

  lemma NormCurve(c: real -> Block, d: Moves, t: nat, tx: (int, int) -> real)
    requires Curve(c, d) && Smooth(c(0.0).fns)
    requires forall f {:trigger tx(t, f)} :: tx(t, f) == TPost(c(0.0), d, t, f)
    ensures N.Curve(NormAt(c), tx, d.scale, t)
  {
    hide Sound, Sized, Slope, Curve, Smooth, Norm, NormAt, PostAt, Post, TPost, ScaleAt, N.XAt, N.WeightAt;
    var b, v := c(0.0), NormAt(c);
    forall e ensures v(e).size == v(0.0).size && v(e).fns == v(0.0).fns {
      SameSizes(c, d, e);
      NormForm(b, c(e));
      SameSizes(c, d, 0.0);
      NormForm(b, b);
    }
    forall f ensures Slope(N.XAt(v, t, f), tx(t, f)) {
      PostSlope(c, d, t, f);
      forall e ensures N.XAt(v, t, f)(e) == PostAt(c, t, f)(e) {
        SameSizes(c, d, e);
        NormForm(b, c(e));
      }
      SlopeEq(PostAt(c, t, f), N.XAt(v, t, f), tx(t, f));
    }
    forall f ensures Slope(N.WeightAt(v, f), d.scale(f)) {
      ScaleSlope(c, d, f);
      forall e ensures N.WeightAt(v, f)(e) == ScaleAt(c, f)(e) {
        SameSizes(c, d, e);
        NormForm(b, c(e));
      }
      SlopeEq(ScaleAt(c, f), N.WeightAt(v, f), d.scale(f));
    }
  }

  lemma NormedForm(n: Block, t: int, f: int)
    ensures Normed(n, t, f) == RmsNorm.Out(Norm(n), t, f) && Norm(n).fns == n.fns
  {
    hide Sound, Post, PostUp, RmsNorm.Out;
  }

  lemma NormedSlope(c: real -> Block, d: Moves, t: nat, f: int)
    requires Curve(c, d) && Smooth(c(0.0).fns)
    ensures Slope(NormedAt(c, t, f), TNormed(c(0.0), d, t, f))
  {
    hide Sound, Slope, Curve, Smooth, Norm, NormAt, Normed, NormedAt, TPost, N.Curve, N.OutAt, RmsNorm.Out,
         RmsNorm.TOut;
    var b := c(0.0);
    var tx := (t: int, f: int) => TPost(b, d, t, f);
    NormCurve(c, d, t, tx);
    NormedForm(b, t, f);
    N.OutSlope(NormAt(c), tx, d.scale, t, f);
    forall e ensures NormedAt(c, t, f)(e) == N.OutAt(NormAt(c), t, f)(e) {
      NormedForm(c(e), t, f);
    }
    SlopeEq(N.OutAt(NormAt(c), t, f), NormedAt(c, t, f), TNormed(b, d, t, f));
  }

  ghost function OutParts(c: real -> Block, t: int, o: int): (v: int -> real -> real)
    ensures forall f {:trigger v(f)} :: v(f) == Times(NormedAt(c, t, f), OutWAt(c, o, f))
  {
    (f: int) => Times(NormedAt(c, t, f), OutWAt(c, o, f))
  }

  lemma OutPartSlope(c: real -> Block, d: Moves, t: nat, o: int, f: int)
    requires Curve(c, d) && Smooth(c(0.0).fns)
    ensures Slope(Times(NormedAt(c, t, f), OutWAt(c, o, f)), TOutTerm(c(0.0), d, t, o, f))
  {
    hide Sound, Slope, Curve, Smooth, NormedAt, Normed, TNormed, OutWAt, Times, Mul;
    NormedSlope(c, d, t, f);
    OutWSlope(c, d, o, f);
    SlopeMul(Times(NormedAt(c, t, f), OutWAt(c, o, f)), TOutTerm(c(0.0), d, t, o, f), NormedAt(c, t, f),
             TNormed(c(0.0), d, t, f), OutWAt(c, o, f), d.outW(o, f));
  }

  lemma OutForm(b: Block, n: Block, t: int, o: int, products: int -> real)
    requires Sized(b, n)
    requires forall f {:trigger products(f)} :: products(f) == Mul(Normed(n, t, f), n.outW(o, f))
    ensures Out(n, t, o) == Sum(Features(b), products)
  {
    LayoutSame(b, n);
    hide Sound, Sum, Normed, Mul, Features;
    SumEq(Features(b), f => Mul(Normed(n, t, f), n.outW(o, f)), products);
  }

  /** Every output of the block moves, to first order, by its tangent: along any path of the hidden rows, the parameters
      and the initial state. */
  lemma OutSlope(c: real -> Block, d: Moves, t: nat, o: int)
    requires Curve(c, d) && Smooth(c(0.0).fns)
    ensures Slope(OutAt(c, t, o), TOut(c(0.0), d, t, o))
  {
    hide Sound, Sized, Slope, Curve, Smooth, NormedAt, OutWAt, OutAt, Out, OutParts, Times, Mul, TOutTerm, Sum, Slice,
         Features;
    var b := c(0.0);
    var slopes := (f: int) => TOutTerm(b, d, t, o, f);
    forall f ensures Slope(OutParts(c, t, o)(f), slopes(f)) {
      OutPartSlope(c, d, t, o, f);
    }
    forall e ensures OutAt(c, t, o)(e) == Sum(Features(b), Slice(OutParts(c, t, o), e)) {
      SameSizes(c, d, e);
      OutForm(b, c(e), t, o, Slice(OutParts(c, t, o), e));
    }
    SlopeSum(Features(b), OutAt(c, t, o), TOut(b, d, t, o), OutParts(c, t, o), slopes);
  }

  // ---- the loss ----

  /** The output rows against the upstream gradient. */
  ghost function Loss(b: Block): real { LossOf(b.rows, b.width, b.up, (t, o) => Out(b, t, o)) }

  ghost function LossAt(c: real -> Block): (v: real -> real)
    ensures forall e {:trigger v(e)} :: v(e) == Loss(c(e))
  {
    hide Loss;
    (e: real) => Loss(c(e))
  }

  ghost function Outs(c: real -> Block): (v: (int, int) -> real -> real)
    ensures forall t, o {:trigger v(t, o)} :: v(t, o) == OutAt(c, t, o)
  {
    hide OutAt;
    (t: int, o: int) => OutAt(c, t, o)
  }

  lemma LossPath(c: real -> Block, d: Moves, e: real)
    requires Curve(c, d)
    ensures LossAt(c)(e) == LossOf(c(0.0).rows, c(0.0).width, c(0.0).up, Slice2(Outs(c), e))
  {
    hide Sound, Curve, LossAt, OutAt, Out, Outs, Slice2, LossOf;
    SameSizes(c, d, e);
    LossEq(c(e).rows, c(e).width, c(e).up, Slice2(Outs(c), e), (t, o) => Out(c(e), t, o));
  }

  /** What the reverse sweep's gradients say of the loss when the block moves with velocity `d`. */
  ghost function Velocity(b: Block, d: Moves): real { GradPairs(b, d) + CorePairs(Core(b), d, Inner(b, d)) }

  /** The gradients of the reverse sweep are the derivative of the loss: along every path that starts at the block with
      velocity `d` the loss moves by the pairing of `d` with them, and by nothing else. */
  lemma BackwardIsDerivative(c: real -> Block, d: Moves)
    requires Curve(c, d) && Smooth(c(0.0).fns)
    ensures Slope(LossAt(c), Velocity(c(0.0), d))
    ensures forall s {:trigger Slope(LossAt(c), s)} :: Slope(LossAt(c), s) ==> s == Velocity(c(0.0), d)
  {
    hide Sound, Slope, Curve, Smooth, TOut, Sum, Pair, LossAt, OutAt, Outs, GradPairs, CorePairs, Core, Inner, Slice2;
    var b := c(0.0);
    var slopes := (t: int, o: int) => TOut(b, d, t, o);
    forall t, o | 0 <= t < b.rows ensures Slope(Outs(c)(t, o), slopes(t, o)) {
      OutSlope(c, d, t, o);
    }
    BlockIsAdjoint(b, d);
    var rows, moved := (t: int) => Pair(b.width, o => b.up(t, o), o => TOut(b, d, t, o)),
        (t: int) => Pair(b.width, o => b.up(t, o), o => slopes(t, o));
    forall t ensures rows(t) == moved(t) {
      PairSame(b.width, o => b.up(t, o), o => TOut(b, d, t, o), o => slopes(t, o));
    }
    SumEq(b.rows, rows, moved);
    var s := LossOf(b.rows, b.width, b.up, slopes);
    hide LossOf;
    forall e ensures LossAt(c)(e) == LossOf(b.rows, b.width, b.up, Slice2(Outs(c), e)) {
      LossPath(c, d, e);
    }
    LossSlope(LossAt(c), s, b.rows, b.width, b.up, Outs(c), slopes);
    OnlySlope(LossAt(c), s);
  }
}
