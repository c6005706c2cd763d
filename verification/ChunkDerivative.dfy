/** The linearised chunk block is its derivative, and the backward kernel leaves the derivative of the loss. */
module ChunkDerivative {
  import opened Sums
  import opened Stages
  import opened Functions
  import opened Slopes
  import opened FunctionSlopes
  import opened Losses
  import opened ChunkModel
  import opened ChunkReal
  import opened ChunkTotals
  import opened ChunkTheorem
  import opened ChunkSlopes

  // ---- through the rank-one inputs ----

  ghost function ThroughParts(v: real -> Point, l: int, s: int, p: int): (f: int -> real -> real)
    ensures forall n {:trigger f(n)} :: f(n) == Times(CAt(v, l, n), InpAt(v, s, p, n))
  {
    (n: int) => Times(CAt(v, l, n), InpAt(v, s, p, n))
  }

  ghost function ThroughAt(v: real -> Point, k: Chunk<real>, l: int, s: int, p: int): (f: real -> real)
    ensures forall e {:trigger f(e)} :: f(e) == ThroughOf(k, v(e), l, s, p)
  {
    hide ThroughOf;
    (e: real) => ThroughOf(k, v(e), l, s, p)
  }

  lemma ThroughPath(v: real -> Point, k: Chunk<real>, l: int, s: int, p: int, e: real)
    ensures ThroughAt(v, k, l, s, p)(e) == Sum(k.states, Slice(ThroughParts(v, l, s, p), e))
  {
    hide CAt, InpAt, ThroughAt, ThroughParts, Slice, Times, Mul, Sum;
    SumEq(k.states, Slice(ThroughParts(v, l, s, p), e), n => Mul(v(e).c(l, n), v(e).inp(s, p, n)));
  }

  lemma StartsAt(v: real -> Point, k: Chunk<real>, t: Tangent)
    requires Curve(v, k, t)
    ensures At(k, v(0.0))
  {
  }

  lemma PointHere(v: real -> Point, k: Chunk<real>, t: Tangent, l: int, s: int, p: int, n: int)
    requires Curve(v, k, t)
    ensures v(0.0).c(l, n) == k.c(l, n) && v(0.0).inp(s, p, n) == Inp(k, s, p, n) && v(0.0).prev(p, n) == k.prev(p, n)
    ensures v(0.0).x(l, p) == k.x(l, p) && v(0.0).d == k.d && v(0.0).z(l, p) == k.z(l, p)
  {
    hide Curve, Inp;
    StartsAt(v, k, t);
  }

  lemma ThroughSlope(v: real -> Point, k: Chunk<real>, t: Tangent, l: int, s: int, p: int)
    requires Curve(v, k, t)
    ensures Slope(ThroughAt(v, k, l, s, p), TThrough(k, t, l, s, p))
            && ThroughAt(v, k, l, s, p)(0.0) == Through(k, l, s, p)
  {
    hide Slope, Curve, At, CAt, InpAt, ThroughAt, ThroughOf, Through, ThroughParts, Slice, Times, Mul, Sum, Inp;
    var slopes := (n: int) => Mul(t.c(l, n), Inp(k, s, p, n)) + Mul(k.c(l, n), t.inp(s, p, n));
    forall n ensures Slope(ThroughParts(v, l, s, p)(n), slopes(n)) {
      StateSlopes(v, k, t, l, s, p, n);
      PointHere(v, k, t, l, s, p, n);
      SlopeMul(ThroughParts(v, l, s, p)(n), slopes(n), CAt(v, l, n), t.c(l, n), InpAt(v, s, p, n), t.inp(s, p, n));
    }
    forall e ensures ThroughAt(v, k, l, s, p)(e) == Sum(k.states, Slice(ThroughParts(v, l, s, p), e)) {
      ThroughPath(v, k, l, s, p, e);
    }
    StartsAt(v, k, t);
    ThroughHere(k, v(0.0), l, s, p);
    SlopeSum(k.states, ThroughAt(v, k, l, s, p), TThrough(k, t, l, s, p), ThroughParts(v, l, s, p), slopes);
  }

  // ---- the diagonal part ----

  ghost function DiagParts(v: real -> Point, k: Chunk<real>, l: int, p: int): (f: int -> real -> real)
    ensures forall s {:trigger f(s)} :: f(s) == Times(WeightAt(v, k, l, s), ThroughAt(v, k, l, s, p))
  {
    (s: int) => Times(WeightAt(v, k, l, s), ThroughAt(v, k, l, s, p))
  }

  ghost function DiagAt(v: real -> Point, k: Chunk<real>, l: int, p: int): (f: real -> real)
    ensures forall e {:trigger f(e)} :: f(e) == DiagOf(k, v(e), l, p)
  {
    hide DiagOf;
    (e: real) => DiagOf(k, v(e), l, p)
  }

  lemma DiagPath(v: real -> Point, k: Chunk<real>, l: int, p: int, e: real)
    ensures DiagAt(v, k, l, p)(e) == Sum(k.len, Slice(DiagParts(v, k, l, p), e))
  {
    hide WeightAt, WeightOf, ThroughAt, ThroughOf, DiagAt, DiagParts, Slice, Times, Mul, Sum;
    SumEq(k.len, Slice(DiagParts(v, k, l, p), e), s => Mul(WeightOf(k, v(e), l, s), ThroughOf(k, v(e), l, s, p)));
  }

  lemma DiagPartSlope(v: real -> Point, k: Chunk<real>, t: Tangent, l: int, p: int, s: int)
    requires Curve(v, k, t) && Arithmetic(k)
    ensures Slope(Times(WeightAt(v, k, l, s), ThroughAt(v, k, l, s, p)), TDiagTerm(k, t, l, p, s))
  {
    hide Slope, Curve, Arithmetic, WeightAt, Weight, ThroughAt, Through, TThrough, Times, Mul;
    var a := t.dacs(l) - t.dacs(s);
    WeightSlope(v, k, t, l, s, a);
    ThroughSlope(v, k, t, l, s, p);
    SlopeMul(Times(WeightAt(v, k, l, s), ThroughAt(v, k, l, s, p)), TDiagTerm(k, t, l, p, s), WeightAt(v, k, l, s),
             Mul(Weight(k, l, s), a), ThroughAt(v, k, l, s, p), TThrough(k, t, l, s, p));
  }

  lemma DiagSlope(v: real -> Point, k: Chunk<real>, t: Tangent, l: int, p: int)
    requires Curve(v, k, t) && Arithmetic(k)
    ensures Slope(DiagAt(v, k, l, p), TDiag(k, t, l, p))
  {
    hide Slope, Curve, Arithmetic, DiagAt, DiagOf, DiagParts, WeightAt, ThroughAt, Times, TDiagTerm, Slice, Sum;
    var slopes := (s: int) => TDiagTerm(k, t, l, p, s);
    forall s ensures Slope(DiagParts(v, k, l, p)(s), slopes(s)) {
      DiagPartSlope(v, k, t, l, p, s);
    }
    forall e ensures DiagAt(v, k, l, p)(e) == Sum(k.len, Slice(DiagParts(v, k, l, p), e)) {
      DiagPath(v, k, l, p, e);
    }
    SlopeSum(k.len, DiagAt(v, k, l, p), TDiag(k, t, l, p), DiagParts(v, k, l, p), slopes);
  }

  // ---- the carried part ----

  ghost function OffPart(v: real -> Point, k: Chunk<real>, l: int, p: int, n: int): real -> real {
    Times(Times(CAt(v, l, n), SdAt(v, k, l)), PrevAt(v, p, n))
  }

  ghost function OffParts(v: real -> Point, k: Chunk<real>, l: int, p: int): (f: int -> real -> real)
    ensures forall n {:trigger f(n)} :: f(n) == OffPart(v, k, l, p, n)
  {
    hide OffPart;
    (n: int) => OffPart(v, k, l, p, n)
  }

  ghost function OffAt(v: real -> Point, k: Chunk<real>, l: int, p: int): (f: real -> real)
    ensures forall e {:trigger f(e)} :: f(e) == OffOf(k, v(e), l, p)
  {
    hide OffOf;
    (e: real) => OffOf(k, v(e), l, p)
  }

  lemma OffPath(v: real -> Point, k: Chunk<real>, l: int, p: int, e: real)
    ensures OffAt(v, k, l, p)(e) == Sum(k.states, Slice(OffParts(v, k, l, p), e))
  {
    hide CAt, SdAt, PrevAt, OffAt, OffParts, Slice, Times, Mul, Sum, Growth;
    var sd := Growth(k)(v(e).dacs(l));
    SumEq(k.states, Slice(OffParts(v, k, l, p), e),
          n => Mul(Mul(v(e).c(l, n), Growth(k)(v(e).dacs(l))), v(e).prev(p, n)));
  }

  lemma OffPartSlope(v: real -> Point, k: Chunk<real>, t: Tangent, l: int, p: int, n: int)
    requires Curve(v, k, t) && Arithmetic(k)
    ensures Slope(OffPart(v, k, l, p, n), TOffTerm(k, t, l, p, n))
  {
    hide Slope, Curve, Arithmetic, CAt, SdAt, Sd, PrevAt, Times, Mul, TOffTerm;
    var a := Mul(t.c(l, n), Sd(k, l)) + Mul(k.c(l, n), Mul(Sd(k, l), t.dacs(l)));
    StateSlopes(v, k, t, l, 0, p, n);
    PointHere(v, k, t, l, 0, p, n);
    SdSlope(v, k, t, l);
    SlopeMul(Times(CAt(v, l, n), SdAt(v, k, l)), a, CAt(v, l, n), t.c(l, n), SdAt(v, k, l), Mul(Sd(k, l), t.dacs(l)));
    TOffForm(k, t, l, p, n, a);
    SlopeMul(OffPart(v, k, l, p, n), TOffTerm(k, t, l, p, n), Times(CAt(v, l, n), SdAt(v, k, l)), a, PrevAt(v, p, n),
             t.prev(p, n));
  }

  lemma TOffForm(k: Chunk<real>, t: Tangent, l: int, p: int, n: int, a: real)
    requires a == Mul(t.c(l, n), Sd(k, l)) + Mul(k.c(l, n), Mul(Sd(k, l), t.dacs(l)))
    ensures TOffTerm(k, t, l, p, n) == Mul(a, k.prev(p, n)) + Mul(Mul(k.c(l, n), Sd(k, l)), t.prev(p, n))
  {
    hide Sd, Mul;
    MulAdd(a, Mul(t.c(l, n), Sd(k, l)), Mul(k.c(l, n), Mul(Sd(k, l), t.dacs(l))), k.prev(p, n));
  }

  lemma OffSlope(v: real -> Point, k: Chunk<real>, t: Tangent, l: int, p: int)
    requires Curve(v, k, t) && Arithmetic(k)
    ensures Slope(OffAt(v, k, l, p), TOff(k, t, l, p))
  {
    hide Slope, Curve, Arithmetic, OffAt, OffOf, OffParts, OffPart, TOffTerm, Slice, Sum;
    var slopes := (n: int) => TOffTerm(k, t, l, p, n);
    forall n ensures Slope(OffParts(v, k, l, p)(n), slopes(n)) {
      OffPartSlope(v, k, t, l, p, n);
    }
    forall e ensures OffAt(v, k, l, p)(e) == Sum(k.states, Slice(OffParts(v, k, l, p), e)) {
      OffPath(v, k, l, p, e);
    }
    SlopeSum(k.states, OffAt(v, k, l, p), TOff(k, t, l, p), OffParts(v, k, l, p), slopes);
  }

  // ---- the gated output ----

  ghost function YAt(v: real -> Point, k: Chunk<real>, l: int, p: int): (f: real -> real)
    ensures forall e {:trigger f(e)} :: f(e) == YOf(k, v(e), l, p)
  {
    hide YOf;
    (e: real) => YOf(k, v(e), l, p)
  }

  ghost function GateAt(v: real -> Point, k: Chunk<real>, l: int, p: int): (f: real -> real)
    ensures forall e {:trigger f(e)} :: f(e) == SiluOf(k.ops.exp, v(e).z(l, p))
  {
    hide SiluOf;
    (e: real) => SiluOf(k.ops.exp, v(e).z(l, p))
  }

  ghost function OutAt(v: real -> Point, k: Chunk<real>, l: int, p: int): (f: real -> real)
    ensures forall e {:trigger f(e)} :: f(e) == OutOf(k, v(e), l, p)
  {
    hide OutOf;
    (e: real) => OutOf(k, v(e), l, p)
  }

  lemma SkipSlope(v: real -> Point, k: Chunk<real>, t: Tangent, l: int, p: int, s: real)
    requires Curve(v, k, t) && s == Mul(t.d, k.x(l, p)) + Mul(k.d, t.x(l, p))
    ensures Slope(Times(DAt(v), XAt(v, l, p)), s)
  {
    hide Slope, Curve, DAt, XAt, Times, Mul;
    SkipSlopes(v, k, t, l, p);
    PointHere(v, k, t, l, 0, p, 0);
    SlopeMul(Times(DAt(v), XAt(v, l, p)), s, DAt(v), t.d, XAt(v, l, p), t.x(l, p));
  }

  lemma YSlope(v: real -> Point, k: Chunk<real>, t: Tangent, l: int, p: int)
    requires Curve(v, k, t) && Arithmetic(k)
    ensures Slope(YAt(v, k, l, p), TY(k, t, l, p))
  {
    hide Slope, Curve, Arithmetic, YAt, OffAt, OffOf, TOff, DiagAt, DiagOf, TDiag, DAt, XAt, Times, Mul, Plus;
    var s := Mul(t.d, k.x(l, p)) + Mul(k.d, t.x(l, p));
    var off, diag, skip := OffAt(v, k, l, p), DiagAt(v, k, l, p), Times(DAt(v), XAt(v, l, p));
    OffSlope(v, k, t, l, p);
    DiagSlope(v, k, t, l, p);
    SkipSlope(v, k, t, l, p, s);
    PlusSlope(off, TOff(k, t, l, p), diag, TDiag(k, t, l, p));
    SlopeAdd(YAt(v, k, l, p), TY(k, t, l, p), Plus(off, diag), TOff(k, t, l, p) + TDiag(k, t, l, p), skip, s);
  }

  lemma GateSlope(v: real -> Point, k: Chunk<real>, t: Tangent, l: int, p: int)
    requires Curve(v, k, t) && Arithmetic(k)
    ensures Slope(GateAt(v, k, l, p), Mul(SiluGrad(k.ops, k.z(l, p)), t.z(l, p)))
  {
    hide Slope, Curve, Arithmetic, GateAt, SiluOf, SiluGrad, ZAt, Silu, DSilu, Mul, GateFns, Grows;
    var f, z := GateFns(k), k.z(l, p);
    SkipSlopes(v, k, t, l, p);
    PointHere(v, k, t, l, 0, p, 0);
    GrowsExp(k);
    forall e ensures GateAt(v, k, l, p)(e) == Silu(f, ZAt(v, l, p)(e)) {
      GateForms(k, f, v(e).z(l, p));
    }
    SiluGradForm(k, f, z);
    SlopeSilu(f, GateAt(v, k, l, p), Mul(SiluGrad(k.ops, z), t.z(l, p)), ZAt(v, l, p), t.z(l, p));
  }

  lemma GrowsExp(k: Chunk<real>)
    requires Arithmetic(k)
    ensures Grows(k.ops.exp) && Real(k.ops)
  {
    hide Grows, Growth, Real;
  }

  lemma OutHere(v: real -> Point, k: Chunk<real>, t: Tangent, l: int, p: int)
    requires Curve(v, k, t) && Arithmetic(k)
    ensures YAt(v, k, l, p)(0.0) == Y(k, l, p) && GateAt(v, k, l, p)(0.0) == Gate(k, l, p)
  {
    hide Curve, Arithmetic, YAt, YOf, Y, GateAt, Gate, SiluOf;
    StartsAt(v, k, t);
    GrowsExp(k);
    YHere(k, v(0.0), l, p);
    PointHere(v, k, t, l, 0, p, 0);
    GateHere(k, l, p);
  }

  /** Every gated output moves, to first order, by its tangent: with C, the rank-one inputs, the carried state, the
      cumulative decays, x, D and z. */
  lemma OutSlope(v: real -> Point, k: Chunk<real>, t: Tangent, l: int, p: int)
    requires Curve(v, k, t) && Arithmetic(k)
    ensures Slope(OutAt(v, k, l, p), TOut(k, t, l, p))
  {
    hide Slope, Curve, Arithmetic, OutAt, YAt, YOf, Y, TY, GateAt, Gate, SiluOf, SiluGrad, Mul;
    YSlope(v, k, t, l, p);
    GateSlope(v, k, t, l, p);
    OutHere(v, k, t, l, p);
    SlopeMul(OutAt(v, k, l, p), TOut(k, t, l, p), YAt(v, k, l, p), TY(k, t, l, p), GateAt(v, k, l, p),
             Mul(SiluGrad(k.ops, k.z(l, p)), t.z(l, p)));
  }

  // ---- the loss ----

  /** The gated outputs against their upstream gradient. */
  ghost function Loss(k: Chunk<real>, v: Point): real { LossOf(k.len, k.dims, k.dout, (l, p) => OutOf(k, v, l, p)) }

  ghost function LossAt(v: real -> Point, k: Chunk<real>): (f: real -> real)
    ensures forall e {:trigger f(e)} :: f(e) == Loss(k, v(e))
  {
    hide Loss;
    (e: real) => Loss(k, v(e))
  }

  ghost function Outs(v: real -> Point, k: Chunk<real>): (f: (int, int) -> real -> real)
    ensures forall l, p {:trigger f(l, p)} :: f(l, p) == OutAt(v, k, l, p)
  {
    hide OutAt;
    (l: int, p: int) => OutAt(v, k, l, p)
  }

  lemma LossPath(v: real -> Point, k: Chunk<real>, e: real)
    ensures LossAt(v, k)(e) == LossOf(k.len, k.dims, k.dout, Slice2(Outs(v, k), e))
  {
    hide LossAt, OutAt, OutOf, Outs, Slice2, LossOf;
    LossEq(k.len, k.dims, k.dout, Slice2(Outs(v, k), e), (l, p) => OutOf(k, v(e), l, p));
  }

  lemma TangentCells(k: Chunk<real>, t: Tangent, slopes: (int, int) -> real)
    requires forall l, p {:trigger slopes(l, p)} :: slopes(l, p) == TOut(k, t, l, p)
    ensures LossOf(k.len, k.dims, k.dout, slopes) == Sum2(k.len, k.dims, (l, p) => OutCell(k, t, l, p))
  {
    hide Sum, TOut;
    var cells := (l: int, p: int) => OutCell(k, t, l, p);
    var rows := (l: int) => Pair(k.dims, p => k.dout(l, p), p => slopes(l, p));
    forall l ensures rows(l) == Row(k.dims, cells, l) {
      SumEq(k.dims, i => (p => k.dout(l, p))(i) * (p => slopes(l, p))(i), j => cells(l, j));
    }
    SumEq(k.len, rows, i => Row(k.dims, cells, i));
  }

  /** The pairing of the kernel's outputs with a velocity. */
  ghost function GradPairs(k: Chunk<real>, t: Tangent): real {
    Pair2(k.len, k.states, (l, n) => DC(k, l, n), t.c) + InpPair(k, t.inp)
    + Pair2(k.dims, k.states, (p, n) => DChunk(k, p, n), t.prev) + Pair(k.len, l => DAcs(k, l), t.dacs)
    + Pair2(k.len, k.dims, (l, p) => DX(k, l, p), t.x) + Mul(DD(k), t.d)
    + Pair2(k.len, k.dims, (l, p) => DZ(k, l, p), t.z)
  }

  /** The kernel's outputs are the derivative of the loss: along every path that starts at the block's inputs with
      velocity `t` the loss moves by the pairing of `t` with them, and by nothing else. */
  lemma BackwardIsDerivative(v: real -> Point, k: Chunk<real>, t: Tangent)
    requires Curve(v, k, t) && Arithmetic(k) && Saved(k)
    ensures Slope(LossAt(v, k), GradPairs(k, t))
    ensures forall s {:trigger Slope(LossAt(v, k), s)} :: Slope(LossAt(v, k), s) ==> s == GradPairs(k, t)
  {
    hide Slope, Curve, Arithmetic, Saved, TOut, LossAt, Loss, OutAt, OutOf, Outs, Slice2, LossOf, Sum2, OutCell, Pair,
         Pair2, InpPair, DC, DChunk, DAcs, DX, DD, DZ;
    var slopes := (l: int, p: int) => TOut(k, t, l, p);
    forall l, p | 0 <= l < k.len ensures Slope(Outs(v, k)(l, p), slopes(l, p)) {
      OutSlope(v, k, t, l, p);
    }
    TangentCells(k, t, slopes);
    BlockIsAdjoint(k, t);
    forall e ensures LossAt(v, k)(e) == LossOf(k.len, k.dims, k.dout, Slice2(Outs(v, k), e)) {
      LossPath(v, k, e);
    }
    LossSlope(LossAt(v, k), GradPairs(k, t), k.len, k.dims, k.dout, Outs(v, k), slopes);
    OnlySlope(LossAt(v, k), GradPairs(k, t));
  }
}
