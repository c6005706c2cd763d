/** The attention layer's backward leaves the derivative of the loss, the quantised values moving with the values that
    were quantised. */
module AttentionDerivative {
  import opened Sums
  import opened Stages
  import opened Slopes
  import opened FunctionSlopes
  import opened Losses
  import opened AttentionModel
  import opened AttentionLayer
  import opened AttentionLayerAdjoint
  import opened AttentionPaths
  import R = RotaryProjection
  import RS = RotarySlopes
  import A = AttentionAdjoint
  import AS = AttentionSlopes

  // ---- the stored values move with the prepared ones ----

  ghost function StoredAt(c: real -> Layer, kv: bool, r: int, h: int, x: int): (f: real -> real)
    ensures forall e {:trigger f(e)} :: f(e) == Stored(c(e), kv, r, h, x)
  {
    hide Stored;
    (e: real) => Stored(c(e), kv, r, h, x)
  }

  lemma StoredPath(c: real -> Layer, d: Moves, kv: bool, r: int, h: int, x: int, p: int, e: real)
    requires Curve(c, d) && 0 <= x < Dims(c(0.0)) && p == h * Dims(c(0.0)) + x
    ensures StoredAt(c, kv, r, h, x)(e)
         == (Stored(c(0.0), kv, r, h, x) - R.Prepared(Side(c(0.0), kv), r, p)) + RS.PreparedAt(SideAt(c, kv), r, p)(e)
  {
    hide RS.Curve, Slope, StoredAt, Stored, R.Prepared, Side, SideAt, RS.PreparedAt, Dims;
    assert Through(c, kv, r, h, x);
  }

  lemma StoredSlope(c: real -> Layer, d: Moves, kv: bool, r: int, h: int, x: int, p: int)
    requires Curve(c, d) && Turns(c(0.0).cos, c(0.0).sin) && 0 <= x < Dims(c(0.0)) && p == h * Dims(c(0.0)) + x
    ensures Slope(StoredAt(c, kv, r, h, x), TPrepared(c(0.0), d, kv, r, p))
  {
    hide RS.Curve, Slope, Through, Turns, StoredAt, Stored, R.Prepared, R.TPrepared, SideAt, RS.PreparedAt, Dims, Raise;
    var b, v := c(0.0), SideAt(c, kv);
    var base := Stored(b, kv, r, h, x) - R.Prepared(Side(b, kv), r, p);
    assert RS.Curve(v, SideMoves(d, kv)) && v(0.0) == Side(b, kv);
    RS.PreparedSlope(v, SideMoves(d, kv), r, p);
    RaiseSlope(base, RS.PreparedAt(v, r, p), TPrepared(b, d, kv, r, p));
    forall e ensures StoredAt(c, kv, r, h, x)(e) == Raise(base, RS.PreparedAt(v, r, p))(e) {
      StoredPath(c, d, kv, r, h, x, p, e);
    }
    SlopeEq(Raise(base, RS.PreparedAt(v, r, p)), StoredAt(c, kv, r, h, x), TPrepared(b, d, kv, r, p));
  }

  // ---- one head ----

  lemma HeadForm(b: Layer, n: Layer, h: int)
    requires Sized(b, n)
    ensures AS.Sized(Head(b, h), Head(n, h)) && Head(n, h).sinkLogit == n.sinkLogit(h)
  {
    hide ContextUp;
  }

  lemma HeadCurve(c: real -> Layer, d: Moves, h: int)
    requires Curve(c, d) && Turns(c(0.0).cos, c(0.0).sin)
    ensures AS.Curve(HeadAt(c, h), HeadMoves(c(0.0), d, h)) && HeadAt(c, h)(0.0) == Head(c(0.0), h)
  {
    hide RS.Curve, Slope, Through, Turns, Curve, Sized, HeadAt, Head, StoredAt, Stored, TPrepared, Dims, Q, Kv, SinkAt,
         AS.QAt, AS.KvAt, AS.SinkAt, AS.Sized;
    var b, v, t := c(0.0), HeadAt(c, h), HeadMoves(c(0.0), d, h);
    HeadExp(b, h);
    forall e ensures AS.Sized(v(0.0), v(e)) {
      SameSizes(c, d, e);
      HeadForm(b, c(e), h);
    }
    forall r, x | 0 <= x < Dims(b) ensures Slope(AS.QAt(v, r, x), t.q(r, x)) {
      StoredSlope(c, d, false, r, h, x, h * Dims(b) + x);
      QStored(c, r, h, x);
      SlopeEq(StoredAt(c, false, r, h, x), AS.QAt(v, r, x), t.q(r, x));
    }
    forall j, x | 0 <= x < Dims(b) ensures Slope(AS.KvAt(v, j, x), t.kv(j, x)) {
      StoredSlope(c, d, true, j, h, x, h * Dims(b) + x);
      KvStored(c, j, h, x);
      SlopeEq(StoredAt(c, true, j, h, x), AS.KvAt(v, j, x), t.kv(j, x));
    }
    SinkMoves(c, d, h);
  }

  lemma QStored(c: real -> Layer, r: int, h: int, x: int)
    ensures forall e {:trigger AS.QAt(HeadAt(c, h), r, x)(e)} ::
              AS.QAt(HeadAt(c, h), r, x)(e) == StoredAt(c, false, r, h, x)(e)
  {
    hide HeadAt, Head, StoredAt, Q, Kv, AS.QAt;
  }

  lemma KvStored(c: real -> Layer, r: int, h: int, x: int)
    ensures forall e {:trigger AS.KvAt(HeadAt(c, h), r, x)(e)} ::
              AS.KvAt(HeadAt(c, h), r, x)(e) == StoredAt(c, true, r, h, x)(e)
  {
    hide HeadAt, Head, StoredAt, Q, Kv, AS.KvAt;
  }

  lemma SinkMoves(c: real -> Layer, d: Moves, h: int)
    requires Curve(c, d)
    ensures Slope(AS.SinkAt(HeadAt(c, h)), d.sink(h))
  {
    hide Slope, Curve, Sized, HeadAt, Head, SinkAt, AS.SinkAt, AS.Sized;
    WeightSlopes(c, d, h, 0, 0);
    forall e ensures AS.SinkAt(HeadAt(c, h))(e) == SinkAt(c, h)(e) {
      SameSizes(c, d, e);
      HeadForm(c(0.0), c(e), h);
    }
    SlopeEq(SinkAt(c, h), AS.SinkAt(HeadAt(c, h)), d.sink(h));
  }

  // ---- the layer ----

  ghost function ContextAt(c: real -> Layer, r: int, p: int): (f: real -> real)
    ensures forall e {:trigger f(e)} :: f(e) == Context(c(e), r, p)
  {
    hide Context;
    (e: real) => Context(c(e), r, p)
  }

  ghost function OutAt(c: real -> Layer, r: int, o: int): (f: real -> real)
    ensures forall e {:trigger f(e)} :: f(e) == Out(c(e), r, o)
  {
    hide Out;
    (e: real) => Out(c(e), r, o)
  }

  lemma ContextForm(b: Layer, n: Layer, r: int, p: int, h: int, x: int)
    requires Sized(b, n) && h == p / Dims(b) && x == p % Dims(b)
    ensures Context(n, r, p) == A.Context(Head(n, h), r, x)
  {
    hide A.Context, Head;
  }

  lemma ContextSlope(c: real -> Layer, d: Moves, shift: (int, int) -> real, r: nat, p: int)
    requires Curve(c, d) && Turns(c(0.0).cos, c(0.0).sin) && AS.Exponential(c(0.0).exp) && r < c(0.0).rows
    ensures Slope(ContextAt(c, r, p), TContext(c(0.0), d, shift, r, p))
  {
    hide Slope, Turns, AS.Exponential, Curve, Sized, ContextAt, Context, HeadAt, Head, HeadMoves, A.Context, A.TContext,
         AS.ContextAt, AS.Curve;
    var b, h, x := c(0.0), p / Dims(c(0.0)), p % Dims(c(0.0));
    HeadCurve(c, d, h);
    HeadExp(b, h);
    assert 0 <= x < Dims(b);
    AS.ContextSlope(HeadAt(c, h), HeadMoves(b, d, h), shift(h, r), r, x);
    forall e ensures ContextAt(c, r, p)(e) == AS.ContextAt(HeadAt(c, h), r, x)(e) {
      SameSizes(c, d, e);
      ContextForm(b, c(e), r, p, h, x);
    }
    SlopeEq(AS.ContextAt(HeadAt(c, h), r, x), ContextAt(c, r, p), TContext(b, d, shift, r, p));
  }

  lemma HeadExp(b: Layer, h: int)
    ensures Head(b, h).exp == b.exp && Head(b, h).rows == b.rows && Head(b, h).dims == Dims(b)
  {
    hide ContextUp;
  }

  ghost function OutParts(c: real -> Layer, r: int, o: int): (v: int -> real -> real)
    ensures forall p {:trigger v(p)} :: v(p) == Times(ContextAt(c, r, p), OutWAt(c, o, p))
  {
    (p: int) => Times(ContextAt(c, r, p), OutWAt(c, o, p))
  }

  lemma OutPath(c: real -> Layer, d: Moves, r: int, o: int, e: real)
    requires Curve(c, d)
    ensures OutAt(c, r, o)(e) == Sum(Wide(c(0.0)), Slice(OutParts(c, r, o), e))
  {
    SameSizes(c, d, e);
    assert Wide(c(e)) == Wide(c(0.0));
    hide Curve, Sized, ContextAt, Context, OutWAt, OutAt, OutParts, Slice, Times, Mul, Sum, Wide;
    SumEq(Wide(c(e)), Slice(OutParts(c, r, o), e), p => Mul(Context(c(e), r, p), c(e).outW(o, p)));
  }

  /** Every output of the layer moves, to first order, by its tangent: along any path of the hidden rows, the weights,
      the frequencies and the sinks, and whatever is assumed of the maxima's moves. */
  lemma OutSlope(c: real -> Layer, d: Moves, shift: (int, int) -> real, r: nat, o: int)
    requires Curve(c, d) && Turns(c(0.0).cos, c(0.0).sin) && AS.Exponential(c(0.0).exp) && r < c(0.0).rows
    ensures Slope(OutAt(c, r, o), TOut(c(0.0), d, shift, r, o))
  {
    hide Slope, Turns, AS.Exponential, Curve, ContextAt, Context, TContext, OutWAt, OutAt, Out, OutParts, Slice, Times,
         Mul, Sum, Wide;
    var b := c(0.0);
    var slopes := (p: int) => TOutTerm(b, d, shift, r, o, p);
    forall p ensures Slope(OutParts(c, r, o)(p), slopes(p)) {
      ContextSlope(c, d, shift, r, p);
      WeightSlopes(c, d, 0, o, p);
      SlopeMul(OutParts(c, r, o)(p), slopes(p), ContextAt(c, r, p), TContext(b, d, shift, r, p), OutWAt(c, o, p),
               d.outW(o, p));
    }
    forall e ensures OutAt(c, r, o)(e) == Sum(Wide(b), Slice(OutParts(c, r, o), e)) {
      OutPath(c, d, r, o, e);
    }
    SlopeSum(Wide(b), OutAt(c, r, o), TOut(b, d, shift, r, o), OutParts(c, r, o), slopes);
  }

  // ---- the loss ----

  /** The output rows against the upstream gradient. */
  ghost function Loss(b: Layer): real { LossOf(b.rows, b.width, b.up, (r, o) => Out(b, r, o)) }

  ghost function LossAt(c: real -> Layer): (v: real -> real)
    ensures forall e {:trigger v(e)} :: v(e) == Loss(c(e))
  {
    hide Loss;
    (e: real) => Loss(c(e))
  }

  ghost function OutPaths(c: real -> Layer): (v: (int, int) -> real -> real)
    ensures forall r, o {:trigger v(r, o)} :: v(r, o) == OutAt(c, r, o)
  {
    hide OutAt;
    (r: int, o: int) => OutAt(c, r, o)
  }

  lemma LossPath(c: real -> Layer, d: Moves, e: real)
    requires Curve(c, d)
    ensures LossAt(c)(e) == LossOf(c(0.0).rows, c(0.0).width, c(0.0).up, Slice2(OutPaths(c), e))
  {
    hide Curve, LossAt, OutAt, Out, OutPaths, Slice2, LossOf;
    SameSizes(c, d, e);
    LossEq(c(e).rows, c(e).width, c(e).up, Slice2(OutPaths(c), e), (r, o) => Out(c(e), r, o));
  }

  /** The pairing of the layer's gradients with a velocity. */
  ghost function GradPairs(b: Layer, d: Moves): real {
    Pair2(b.rows, b.width, (r, i) => HiddenGrad(b, r, i), d.u)
    + Pair2(Wide(b), b.width, (p, i) => SideW(b, false, p, i), d.qW)
    + Pair2(Wide(b), b.width, (p, i) => SideW(b, true, p, i), d.kvW)
    + Pair(b.half, e => FreqGrad(b, e), d.freq)
    + Pair2(b.width, Wide(b), (o, p) => OutWGrad(b, o, p), d.outW)
    + Pair(b.heads, h => SinkGrad(b, h), d.sink)
  }

  lemma TangentPairs(b: Layer, d: Moves, shift: (int, int) -> real)
    requires AllHealthy(b)
    ensures LossOf(b.rows, b.width, b.up, (r, o) => TOut(b, d, shift, r, o)) == GradPairs(b, d)
  {
    hide Sum, Pair, Pair2, AllHealthy, TOut, HiddenGrad, FreqGrad, OutWGrad, SinkGrad, SideW, Wide;
    var slopes := (r: int, o: int) => TOut(b, d, shift, r, o);
    LayerIsAdjoint(b, d, shift);
    var rows, moved := (r: int) => Pair(b.width, o => b.up(r, o), o => TOut(b, d, shift, r, o)),
        (r: int) => Pair(b.width, o => b.up(r, o), o => slopes(r, o));
    forall r ensures rows(r) == moved(r) {
      PairSame(b.width, o => b.up(r, o), o => TOut(b, d, shift, r, o), o => slopes(r, o));
    }
    SumEq(b.rows, rows, moved);
  }

  /** The gradients of the layer's backward are the derivative of the loss: along every path that starts at the layer
      with velocity `d` the loss moves by the pairing of `d` with them, and by nothing else. */
  lemma BackwardIsDerivative(c: real -> Layer, d: Moves)
    requires Curve(c, d) && Turns(c(0.0).cos, c(0.0).sin) && AS.Exponential(c(0.0).exp) && AllHealthy(c(0.0))
    ensures Slope(LossAt(c), GradPairs(c(0.0), d))
    ensures forall s {:trigger Slope(LossAt(c), s)} :: Slope(LossAt(c), s) ==> s == GradPairs(c(0.0), d)
  {
    hide Slope, Turns, AS.Exponential, AllHealthy, Curve, TOut, LossAt, OutAt, OutPaths, GradPairs, Slice2, LossOf;
    var b := c(0.0);
    var still := (h: int, r: int) => 0.0;
    var slopes := (r: int, o: int) => TOut(b, d, still, r, o);
    forall r, o | 0 <= r < b.rows ensures Slope(OutPaths(c)(r, o), slopes(r, o)) {
      OutSlope(c, d, still, r, o);
    }
    TangentPairs(b, d, still);
    forall e ensures LossAt(c)(e) == LossOf(b.rows, b.width, b.up, Slice2(OutPaths(c), e)) {
      LossPath(c, d, e);
    }
    LossSlope(LossAt(c), GradPairs(b, d), b.rows, b.width, b.up, OutPaths(c), slopes);
    OnlySlope(LossAt(c), GradPairs(b, d));
  }
}
