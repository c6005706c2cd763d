/** The reverse loop of the Mamba3 block leaves the derivative of the loss. */
module MambaDerivative {
  import opened Sums
  import opened Stages
  import opened Losses
  import opened Slopes
  import opened FunctionSlopes
  import opened MambaModel
  import opened MambaTangent
  import opened MambaGradient
  import opened MambaAdjoint
  import opened MambaPaths
  import opened MambaSlopes
  import opened MambaScanSlopes

  /** The output rows against the upstream gradient. */
  ghost function Loss(m: Block): real { LossOf(m.rows, m.width, m.up, (t, o) => Out(m, t, o)) }

  ghost function LossAt(c: real -> Block): (v: real -> real)
    ensures forall e {:trigger v(e)} :: v(e) == Loss(c(e))
  {
    hide Loss;
    (e: real) => Loss(c(e))
  }

  ghost function Outs(c: real -> Block): (v: (int, int) -> real -> real)
    ensures forall t, o {:trigger v(t, o)} :: v(t, o) == OutAt(c, t, o)
  {
    hide OutAt;
    (t: int, o: int) => OutAt(c, t, o)
  }

  lemma LossPath(c: real -> Block, d: Tangent, e: real)
    requires Curve(c, d)
    ensures LossAt(c)(e) == LossOf(c(0.0).rows, c(0.0).width, c(0.0).up, Slice2(Outs(c), e))
  {
    hide Valid, Curve, LossAt, OutAt, Out, Outs, Slice2, LossOf;
    SameSizes(c, d, e);
    LossEq(c(e).rows, c(e).width, c(e).up, Slice2(Outs(c), e), (t, o) => Out(c(e), t, o));
  }

  /** What the reverse loop's gradients say of the loss when the block moves with velocity `d`. */
  ghost function Velocity(m: Block, d: Tangent): real {
    GradPairs(m, d) + Pair2(m.features, m.state, (f, n) => StateGrad(m, 0, f, n), d.h0)
  }

  /** The gradients of the reverse loop are the derivative of the loss: along every path that starts at the block with
      velocity `d`, and on which no decay at the corner of its clamp moves to first order, the loss moves by the pairing
      of `d` with them, and by nothing else. */
  lemma BackwardIsDerivative(c: real -> Block, d: Tangent)
    requires Curve(c, d) && Smooth(c(0.0).fns) && AllSettled(c(0.0), d)
    ensures Slope(LossAt(c), Velocity(c(0.0), d))
    ensures forall s {:trigger Slope(LossAt(c), s)} :: Slope(LossAt(c), s) ==> s == Velocity(c(0.0), d)
  {
    hide Valid, Slope, Curve, Smooth, AllSettled, TOut, Sum, Pair, Pair2, LossAt, OutAt, Outs, GradPairs, StateGrad,
         Slice2;
    var m := c(0.0);
    var slopes := (t: int, o: int) => TOut(m, d, t, o);
    forall t, o | 0 <= t < m.rows ensures Slope(Outs(c)(t, o), slopes(t, o)) {
      OutSlope(c, d, t, o);
    }
    BackwardIsAdjoint(m, d);
    var rows, moved := (t: int) => Pair(m.width, o => m.up(t, o), o => TOut(m, d, t, o)),
        (t: int) => Pair(m.width, o => m.up(t, o), o => slopes(t, o));
    forall t ensures rows(t) == moved(t) {
      PairSame(m.width, o => m.up(t, o), o => TOut(m, d, t, o), o => slopes(t, o));
    }
    SumEq(m.rows, rows, moved);
    var s := LossOf(m.rows, m.width, m.up, slopes);
    hide LossOf;
    forall e ensures LossAt(c)(e) == LossOf(m.rows, m.width, m.up, Slice2(Outs(c), e)) {
      LossPath(c, d, e);
    }
    LossSlope(LossAt(c), s, m.rows, m.width, m.up, Outs(c), slopes);
    OnlySlope(LossAt(c), s);
  }
}
