/** The reverse loop over all rows is the exact adjoint of the block's linearised forward pass. */
module MambaAdjoint {
  import opened Sums
  import opened Stages
  import opened MambaModel
  import opened MambaTangent
  import opened MambaGradient
  import opened MambaNormAdjoint
  import opened MambaRowAdjoint
  import opened MambaProjectionAdjoint

  ghost function OutPair(m: Block, d: Tangent, t: int): real {
    Pair(m.width, o => m.up(t, o), o => TOut(m, d, t, o))
  }

  // ---- rows t and later ----

  lemma {:induction false} Suffix(m: Block, d: Tangent, t: nat)
    requires t <= m.rows
    ensures SumFrom(t, m.rows, s => OutPair(m, d, s))
         == StatePair(m, d, t) + AnglePair(m, d, t)
            + SumFrom(t, m.rows, s => RowLinear(m, d, s)) + SumFrom(t, m.rows, s => RowParams(m, d, s))
    decreases m.rows - t
  {
    hide RowLinear, RowParams, StatePair, AnglePair, TOut, Sum, Pair;
    if t == m.rows {
      NoCarry(m, d);
    } else {
      Suffix(m, d, t + 1);
      RowStage(m, d, t);
    }
  }

  lemma NoCarry(m: Block, d: Tangent)
    ensures StatePair(m, d, m.rows) == 0.0 && AnglePair(m, d, m.rows) == 0.0
  {
    hide Sum, TState, TAngle;
    var s, a := (f: int, n: int) => StateGrad(m, m.rows, f, n), (h: int, j: int) => AngleGrad(m, m.rows, h, j);
    Pair2Zero(m.features, m.state, s, (f, n) => TState(m, d, m.rows, f, n));
    Pair2Zero(m.heads, m.angles, a, (h, j) => TAngle(m, d, m.rows, h, j));
  }

  lemma StartCarry(m: Block, d: Tangent)
    ensures AnglePair(m, d, 0) == 0.0
    ensures StatePair(m, d, 0) == Pair2(m.features, m.state, (f, n) => StateGrad(m, 0, f, n), d.h0)
  {
    hide Sum, StateGrad, AngleGrad;
    var a, e := (h: int, j: int) => AngleGrad(m, 0, h, j), (h: int, j: int) => TAngle(m, d, 0, h, j);
    Pair2Swap(m.heads, m.angles, a, e);
    Pair2Zero(m.heads, m.angles, e, a);
    var s, h := (f: int, n: int) => StateGrad(m, 0, f, n), (f: int, n: int) => TState(m, d, 0, f, n);
    Pair2Eq(m.features, m.state, s, h, s, d.h0);
  }

  // ---- one row's contribution to each gradient ----

  /** The pairings of everything row `t` adds with the tangents of what it adds to. */
  ghost function RowPairs(m: Block, d: Tangent, t: int): real {
    Pair2(m.rows, m.width, (r, i) => HiddenTerm(m, r, i, t), d.u)
    + Pair2(ProjDims(m), m.width, (p, i) => InWTerm(m, p, i, t), d.inW)
    + Pair2(Channels(m), 3, (c, k) => ConvWTerm(m, c, k, t), d.convW)
    + Pair(Channels(m), c => ConvBTerm(m, c, t), d.convB)
    + Pair(m.heads, h => DtBiasTerm(m, h, t), d.dtBias)
    + Pair(m.bc, c => BScaleTerm(m, c, t), d.bScale) + Pair(m.bc, c => BBiasTerm(m, c, t), d.bBias)
    + Pair(m.bc, c => CScaleTerm(m, c, t), d.cScale) + Pair(m.bc, c => CBiasTerm(m, c, t), d.cBias)
    + Pair(m.heads, h => SkipTerm(m, h, t), d.skip)
    + Pair2(m.width, m.features, (o, f) => OutWTerm(m, o, f, t), d.outW)
  }

  lemma RowForms(m: Block, d: Tangent, t: nat)
    requires t < m.rows
    ensures RowLinear(m, d, t) + RowParams(m, d, t) == RowPairs(m, d, t)
  {
    hide Sum, Pair, Pair2, RowLinear, HiddenTerm, InWTerm, ConvWeights, ViaScale, ViaBias, ConvWTerm, SideParams;
    RowScatter(m, d, t);
    HiddenForm(m, d, t);
    ConvWForm(m, d, t);
    BForm(m, d, t);
    CForm(m, d, t);
    DtBiasForm(m, d, t);
    ConvBForm(m, d, t);
  }

  lemma HiddenForm(m: Block, d: Tangent, t: int)
    ensures Sum(m.rows, r => Pair(m.width, i => HiddenTerm(m, r, i, t), i => d.u(r, i)))
         == Pair2(m.rows, m.width, (r, i) => HiddenTerm(m, r, i, t), d.u)
  {
    hide Sum, Pair, HiddenTerm, PairRow;
    var term := (r: int, i: int) => HiddenTerm(m, r, i, t);
    var rows := (r: int) => Pair(m.width, i => HiddenTerm(m, r, i, t), i => d.u(r, i));
    forall r ensures rows(r) == PairRow(m.width, term, d.u, r) {
      PairRowForm(m.width, term, d.u, r, i => HiddenTerm(m, r, i, t), i => d.u(r, i));
    }
    SumEq(m.rows, rows, r => PairRow(m.width, term, d.u, r));
    Pair2Rows(m.rows, m.width, term, d.u);
  }

  lemma ConvWForm(m: Block, d: Tangent, t: int)
    ensures Sum(Channels(m), c => ConvWeights(m, d, t, c))
            == Pair2(Channels(m), 3, (c, k) => ConvWTerm(m, c, k, t), d.convW)
  {
    hide Sum, ConvWTerm, Mul, PairRow;
    var term, rows := (c: int, k: int) => ConvWTerm(m, c, k, t), (c: int) => ConvWeights(m, d, t, c);
    forall c ensures rows(c) == PairRow(3, term, d.convW, c) {
      PairRowMul(3, term, d.convW, c, k => Mul(ConvWTerm(m, c, k, t), d.convW(c, k)));
    }
    SumEq(Channels(m), rows, c => PairRow(3, term, d.convW, c));
    Pair2Rows(Channels(m), 3, term, d.convW);
  }

  lemma BForm(m: Block, d: Tangent, t: int)
    ensures SideParams(m, d, t, BSide(m, d, t))
         == Pair(m.bc, c => BScaleTerm(m, c, t), d.bScale) + Pair(m.bc, c => BBiasTerm(m, c, t), d.bBias)
  {
    hide Sum, Mul, ScaleGrad, BShare, GroupOf, StateOf;
    var s := BSide(m, d, t);
    PairMul(m.bc, c => BScaleTerm(m, c, t), d.bScale, c => ViaScale(m, d, t, s, c));
    PairMul(m.bc, c => BBiasTerm(m, c, t), d.bBias, c => ViaBias(m, t, s, c));
  }

  lemma CForm(m: Block, d: Tangent, t: int)
    ensures SideParams(m, d, t, CSide(m, d, t))
         == Pair(m.bc, c => CScaleTerm(m, c, t), d.cScale) + Pair(m.bc, c => CBiasTerm(m, c, t), d.cBias)
  {
    hide Sum, Mul, ScaleGrad, CShare, GroupOf, StateOf;
    var s := CSide(m, d, t);
    PairMul(m.bc, c => CScaleTerm(m, c, t), d.cScale, c => ViaScale(m, d, t, s, c));
    PairMul(m.bc, c => CBiasTerm(m, c, t), d.cBias, c => ViaBias(m, t, s, c));
  }

  lemma DtBiasForm(m: Block, d: Tangent, t: int)
    ensures Pair(m.heads, h => NextDtGrad(m, t, h), d.dtBias) + Pair(m.heads, h => DtProjGrad(m, t, h), d.dtBias)
         == Pair(m.heads, h => DtBiasTerm(m, h, t), d.dtBias)
  {
    hide Sum, Pair, NextDtGrad, DtProjGrad;
    PairAdd(m.heads, h => DtBiasTerm(m, h, t), h => NextDtGrad(m, t, h), h => DtProjGrad(m, t, h), d.dtBias);
  }

  lemma ConvBForm(m: Block, d: Tangent, t: int)
    ensures Pair(Channels(m), c => ConvPreGrad(m, t, c), d.convB) == Pair(Channels(m), c => ConvBTerm(m, c, t), d.convB)
  {
    hide Sum, Pair, ConvPreGrad;
    PairEq(Channels(m), c => ConvPreGrad(m, t, c), c => ConvBTerm(m, c, t), d.convB);
  }

  // ---- all rows ----

  /** The accumulated gradients paired with the tangents of the inputs and parameters. */
  ghost function GradPairs(m: Block, d: Tangent): real {
    Pair2(m.rows, m.width, (r, i) => HiddenGrad(m, 0, r, i), d.u)
    + Pair2(ProjDims(m), m.width, (p, i) => InWGrad(m, 0, p, i), d.inW)
    + Pair2(Channels(m), 3, (c, k) => ConvWGrad(m, 0, c, k), d.convW)
    + Pair(Channels(m), c => ConvBGrad(m, 0, c), d.convB)
    + Pair(m.heads, h => DtBiasGrad(m, 0, h), d.dtBias)
    + Pair(m.bc, c => BScaleGrad(m, 0, c), d.bScale) + Pair(m.bc, c => BBiasGrad(m, 0, c), d.bBias)
    + Pair(m.bc, c => CScaleGrad(m, 0, c), d.cScale) + Pair(m.bc, c => CBiasGrad(m, 0, c), d.cBias)
    + Pair(m.heads, h => SkipGrad(m, 0, h), d.skip)
    + Pair2(m.width, m.features, (o, f) => OutWGrad(m, 0, o, f), d.outW)
  }

  lemma MatrixTotals(m: Block, d: Tangent)
    ensures Sum(m.rows, t => Pair2(m.rows, m.width, (r, i) => HiddenTerm(m, r, i, t), d.u))
         == Pair2(m.rows, m.width, (r, i) => HiddenGrad(m, 0, r, i), d.u)
    ensures Sum(m.rows, t => Pair2(ProjDims(m), m.width, (p, i) => InWTerm(m, p, i, t), d.inW))
         == Pair2(ProjDims(m), m.width, (p, i) => InWGrad(m, 0, p, i), d.inW)
  {
    hide Sum, SumFrom, Pair2, ProjDims, HiddenTerm, InWTerm;
    Rows2Total(m.rows, m.rows, m.width, t => (r, i) => HiddenTerm(m, r, i, t), (r, i) => t => HiddenTerm(m, r, i, t),
               (r, i) => HiddenGrad(m, 0, r, i), d.u,
               t => Pair2(m.rows, m.width, (r, i) => HiddenTerm(m, r, i, t), d.u));
    Rows2Total(m.rows, ProjDims(m), m.width, t => (p, i) => InWTerm(m, p, i, t), (p, i) => t => InWTerm(m, p, i, t),
               (p, i) => InWGrad(m, 0, p, i), d.inW,
               t => Pair2(ProjDims(m), m.width, (p, i) => InWTerm(m, p, i, t), d.inW));
  }

  lemma OuterTotals(m: Block, d: Tangent)
    ensures Sum(m.rows, t => Pair2(Channels(m), 3, (c, k) => ConvWTerm(m, c, k, t), d.convW))
         == Pair2(Channels(m), 3, (c, k) => ConvWGrad(m, 0, c, k), d.convW)
    ensures Sum(m.rows, t => Pair2(m.width, m.features, (o, f) => OutWTerm(m, o, f, t), d.outW))
         == Pair2(m.width, m.features, (o, f) => OutWGrad(m, 0, o, f), d.outW)
  {
    hide Sum, SumFrom, Pair2, Channels, ConvWTerm, OutWTerm;
    Rows2Total(m.rows, Channels(m), 3, t => (c, k) => ConvWTerm(m, c, k, t), (c, k) => t => ConvWTerm(m, c, k, t),
               (c, k) => ConvWGrad(m, 0, c, k), d.convW,
               t => Pair2(Channels(m), 3, (c, k) => ConvWTerm(m, c, k, t), d.convW));
    Rows2Total(m.rows, m.width, m.features, t => (o, f) => OutWTerm(m, o, f, t), (o, f) => t => OutWTerm(m, o, f, t),
               (o, f) => OutWGrad(m, 0, o, f), d.outW,
               t => Pair2(m.width, m.features, (o, f) => OutWTerm(m, o, f, t), d.outW));
  }

  lemma VectorTotals(m: Block, d: Tangent)
    ensures Sum(m.rows, t => Pair(Channels(m), c => ConvBTerm(m, c, t), d.convB))
         == Pair(Channels(m), c => ConvBGrad(m, 0, c), d.convB)
    ensures Sum(m.rows, t => Pair(m.heads, h => DtBiasTerm(m, h, t), d.dtBias))
         == Pair(m.heads, h => DtBiasGrad(m, 0, h), d.dtBias)
    ensures Sum(m.rows, t => Pair(m.heads, h => SkipTerm(m, h, t), d.skip))
         == Pair(m.heads, h => SkipGrad(m, 0, h), d.skip)
  {
    hide Sum, SumFrom, Pair, Channels, ConvBTerm, DtBiasTerm, SkipTerm;
    RowsTotal(m.rows, Channels(m), t => c => ConvBTerm(m, c, t), c => t => ConvBTerm(m, c, t), c => ConvBGrad(m, 0, c),
              d.convB,
              t => Pair(Channels(m), c => ConvBTerm(m, c, t), d.convB));
    RowsTotal(m.rows, m.heads, t => h => DtBiasTerm(m, h, t), h => t => DtBiasTerm(m, h, t), h => DtBiasGrad(m, 0, h),
              d.dtBias,
              t => Pair(m.heads, h => DtBiasTerm(m, h, t), d.dtBias));
    RowsTotal(m.rows, m.heads, t => h => SkipTerm(m, h, t), h => t => SkipTerm(m, h, t), h => SkipGrad(m, 0, h), d.skip,
              t => Pair(m.heads, h => SkipTerm(m, h, t), d.skip));
  }

  lemma BTotals(m: Block, d: Tangent)
    ensures Sum(m.rows, t => Pair(m.bc, c => BScaleTerm(m, c, t), d.bScale))
         == Pair(m.bc, c => BScaleGrad(m, 0, c), d.bScale)
    ensures Sum(m.rows, t => Pair(m.bc, c => BBiasTerm(m, c, t), d.bBias))
         == Pair(m.bc, c => BBiasGrad(m, 0, c), d.bBias)
  {
    hide Sum, SumFrom, Pair, BScaleTerm, BBiasTerm;
    RowsTotal(m.rows, m.bc, t => c => BScaleTerm(m, c, t), c => t => BScaleTerm(m, c, t), c => BScaleGrad(m, 0, c),
              d.bScale,
              t => Pair(m.bc, c => BScaleTerm(m, c, t), d.bScale));
    RowsTotal(m.rows, m.bc, t => c => BBiasTerm(m, c, t), c => t => BBiasTerm(m, c, t), c => BBiasGrad(m, 0, c),
              d.bBias,
              t => Pair(m.bc, c => BBiasTerm(m, c, t), d.bBias));
  }

  lemma CTotals(m: Block, d: Tangent)
    ensures Sum(m.rows, t => Pair(m.bc, c => CScaleTerm(m, c, t), d.cScale))
         == Pair(m.bc, c => CScaleGrad(m, 0, c), d.cScale)
    ensures Sum(m.rows, t => Pair(m.bc, c => CBiasTerm(m, c, t), d.cBias))
         == Pair(m.bc, c => CBiasGrad(m, 0, c), d.cBias)
  {
    hide Sum, SumFrom, Pair, CScaleTerm, CBiasTerm;
    RowsTotal(m.rows, m.bc, t => c => CScaleTerm(m, c, t), c => t => CScaleTerm(m, c, t), c => CScaleGrad(m, 0, c),
              d.cScale,
              t => Pair(m.bc, c => CScaleTerm(m, c, t), d.cScale));
    RowsTotal(m.rows, m.bc, t => c => CBiasTerm(m, c, t), c => t => CBiasTerm(m, c, t), c => CBiasGrad(m, 0, c),
              d.cBias,
              t => Pair(m.bc, c => CBiasTerm(m, c, t), d.cBias));
  }

  lemma AllRows(m: Block, d: Tangent)
    ensures Sum(m.rows, t => RowPairs(m, d, t)) == GradPairs(m, d)
  {
    hide Sum, Pair, Pair2, ProjDims, Channels;
    var all := (t: int) => RowPairs(m, d, t);
    var u, w, c := (t: int) => Pair2(m.rows, m.width, (r, i) => HiddenTerm(m, r, i, t), d.u),
                   (t: int) => Pair2(ProjDims(m), m.width, (p, i) => InWTerm(m, p, i, t), d.inW),
                   (t: int) => Pair2(Channels(m), 3, (c, k) => ConvWTerm(m, c, k, t), d.convW);
    var b, dt, s := (t: int) => Pair(Channels(m), c => ConvBTerm(m, c, t), d.convB),
                    (t: int) => Pair(m.heads, h => DtBiasTerm(m, h, t), d.dtBias),
                    (t: int) => Pair(m.heads, h => SkipTerm(m, h, t), d.skip);
    var bs, bb, cs := (t: int) => Pair(m.bc, c => BScaleTerm(m, c, t), d.bScale),
        (t: int) => Pair(m.bc, c => BBiasTerm(m, c, t), d.bBias),
                      (t: int) => Pair(m.bc, c => CScaleTerm(m, c, t), d.cScale);
    var cb, o := (t: int) => Pair(m.bc, c => CBiasTerm(m, c, t), d.cBias),
                 (t: int) => Pair2(m.width, m.features, (o, f) => OutWTerm(m, o, f, t), d.outW);
    SumAdd11(m.rows, all, u, w, c, b, dt, bs, bb, cs, cb, s, o);
    MatrixTotals(m, d);
    OuterTotals(m, d);
    VectorTotals(m, d);
    BTotals(m, d);
    CTotals(m, d);
  }

  /** The reverse loop is the exact adjoint of the block: for every upstream gradient and every tangent of
      the hidden rows, of each parameter and of the initial state, pairing the upstream gradient with the
      tangent of the output over all rows is pairing the accumulated gradients with the tangents. */
  lemma BackwardIsAdjoint(m: Block, d: Tangent)
    ensures Sum(m.rows, t => Pair(m.width, o => m.up(t, o), o => TOut(m, d, t, o)))
         == GradPairs(m, d) + Pair2(m.features, m.state, (f, n) => StateGrad(m, 0, f, n), d.h0)
  {
    hide Sum, Pair, Pair2, RowLinear, RowParams, RowPairs, StatePair, AnglePair, GradPairs;
    Suffix(m, d, 0);
    StartCarry(m, d);
    var out, linear, params :=
        (s: int) => OutPair(m, d, s), (s: int) => RowLinear(m, d, s), (s: int) => RowParams(m, d, s);
    SumFromAll(m.rows, out);
    SumFromAll(m.rows, linear);
    SumFromAll(m.rows, params);
    var rows := (t: int) => RowPairs(m, d, t);
    forall t | 0 <= t < m.rows ensures rows(t) == linear(t) + params(t) {
      RowForms(m, d, t);
    }
    SumAdd(m.rows, rows, linear, params);
    AllRows(m, d);
    SumEq(m.rows, out, t => Pair(m.width, o => m.up(t, o), o => TOut(m, d, t, o)));
  }
}
