/** Projections of a row and of its neighbours, reversed: the cross-row scatter into the hidden gradient
    and the in-projection's gradient. */
module MambaProjectionAdjoint {
  import opened Sums
  import opened Stages
  import opened MambaModel
  import opened MambaTangent
  import opened MambaGradient
  import opened MambaHeadAdjoint
  import opened MambaRowAdjoint
  import opened ProjectionSegments

  /** The in-projection. */
  ghost function In(m: Block, d: Tangent): Dense { Dense(m.rows, m.width, m.u, m.inW, d.u, d.inW) }

  lemma ProjIsMove(m: Block, d: Tangent, t: int, p: int)
    ensures TProj(m, d, t, p) == Move(In(m, d), t, p)
  {
    hide Sum, TProjTerm, MoveTerm;
    var terms, moves := (i: int) => TProjTerm(m, d, t, p, i), (i: int) => MoveTerm(In(m, d), t, p, i);
    forall i ensures terms(i) == moves(i) {
      TermIsMove(m, d, t, p, i);
    }
    SumEq(m.width, terms, moves);
  }

  lemma TermIsMove(m: Block, d: Tangent, t: int, p: int, i: int)
    ensures TProjTerm(m, d, t, p, i) == MoveTerm(In(m, d), t, p, i)
  {
    assert MoveTerm(In(m, d), t, p, i) == Mul(d.u(t, i), m.inW(p, i)) + Mul(m.u(t, i), d.inW(p, i));
  }

  lemma SegIs(m: Block, d: Tangent, s: Segment, moves: int -> real)
    requires s.on
    requires forall q {:trigger moves(q)} :: 0 <= q < s.size ==>
             moves(q) == Mul(s.coef(q), TProj(m, d, s.row, s.at + q))
    ensures Sum(s.size, moves) == SegMove(In(m, d), s)
  {
    hide Sum, Mul, TProj, Move;
    var inner := (q: int) => Mul(s.coef(q), Move(In(m, d), s.row, s.at + q));
    forall q | 0 <= q < s.size ensures moves(q) == inner(q) {
      ProjIsMove(m, d, s.row, s.at + q);
    }
    SumEq(s.size, moves, inner);
  }

  // ---- the five segments of a row ----

  ghost function Own(m: Block, t: int): Segment {
    Segment(true, ProjDims(m), 0, t, p => ProjGrad(m, t, p))
  }

  ghost function TapSegment(m: Block, t: int, k: int): Segment {
    Segment(t - 2 + k >= 0, Channels(m), ConvAt(m), t - 2 + k, c => Mul(ConvPreGrad(m, t, c), m.convW(c, k)))
  }

  ghost function DtAhead(m: Block, t: int): Segment {
    Segment(t + 1 < m.rows, m.heads, DtAt(m), t + 1, h => NextDtGrad(m, t, h))
  }

  ghost function TrapAhead(m: Block, t: int): Segment {
    Segment(t + 1 < m.rows, m.heads, TrapAt(m), t + 1, h => NextTrapGrad(m, t, h))
  }

  lemma AheadSplit(m: Block, d: Tangent, t: int)
    ensures Sum(m.heads, h => Ahead(m, d, t, h))
         == SegMove(In(m, d), DtAhead(m, t)) + SegMove(In(m, d), TrapAhead(m, t))
            + Pair(m.heads, h => NextDtGrad(m, t, h), d.dtBias)
  {
    hide Sum, Mul, TProj, NextDtGrad, NextTrapGrad, TDtPre;
    if t + 1 < m.rows {
      AheadNext(m, d, t);
    } else {
      AheadLast(m, d, t);
    }
  }

  lemma AheadNext(m: Block, d: Tangent, t: int)
    requires t + 1 < m.rows
    ensures Sum(m.heads, h => Ahead(m, d, t, h))
         == SegMove(In(m, d), DtAhead(m, t)) + SegMove(In(m, d), TrapAhead(m, t))
            + Pair(m.heads, h => NextDtGrad(m, t, h), d.dtBias)
  {
    hide Sum, Mul, TProj, NextDtGrad, NextTrapGrad;
    var all := (h: int) => Ahead(m, d, t, h);
    var x, y := (h: int) => Mul(NextDtGrad(m, t, h), TProj(m, d, t + 1, DtAt(m) + h)),
                (h: int) => Mul(NextTrapGrad(m, t, h), TProj(m, d, t + 1, TrapAt(m) + h));
    var b := (h: int) => Mul(NextDtGrad(m, t, h), d.dtBias(h));
    forall h ensures all(h) == x(h) + y(h) + b(h) {
      AheadCell(NextDtGrad(m, t, h), TProj(m, d, t + 1, DtAt(m) + h), d.dtBias(h), TDtPre(m, d, t + 1, h));
    }
    SumAdd3(m.heads, all, x, y, b);
    PairMul(m.heads, h => NextDtGrad(m, t, h), d.dtBias, b);
    var dt, trap := DtAhead(m, t), TrapAhead(m, t);
    SegIs(m, d, dt, x);
    SegIs(m, d, trap, y);
  }

  lemma AheadLast(m: Block, d: Tangent, t: int)
    requires t + 1 >= m.rows
    ensures Sum(m.heads, h => Ahead(m, d, t, h)) == 0.0 && Pair(m.heads, h => NextDtGrad(m, t, h), d.dtBias) == 0.0
  {
    hide Sum, Mul;
    var b := (h: int) => Mul(NextDtGrad(m, t, h), d.dtBias(h));
    SumZero(m.heads, h => Ahead(m, d, t, h));
    forall h ensures b(h) == 0.0 {
      MulAdd(NextDtGrad(m, t, h), 0.0, 0.0, d.dtBias(h));
    }
    SumZero(m.heads, b);
    PairMul(m.heads, h => NextDtGrad(m, t, h), d.dtBias, b);
  }

  lemma AheadCell(g: real, tp: real, tb: real, pre: real)
    requires pre == tp + tb
    ensures Mul(g, pre) == Mul(g, tp) + Mul(g, tb)
  {
  }

  lemma TapMove(m: Block, d: Tangent, t: int, k: int)
    ensures Sum(Channels(m), c => ConvTap(m, d, t, k, c)) == SegMove(In(m, d), TapSegment(m, t, k))
  {
    hide Sum, Mul, TProj, ConvPreGrad;
    var s, all := TapSegment(m, t, k), (c: int) => ConvTap(m, d, t, k, c);
    if s.on {
      SegIs(m, d, s, all);
    } else {
      forall c ensures all(c) == 0.0 {
        MulAdd(0.0, 0.0, 0.0, Mul(ConvPreGrad(m, t, c), m.convW(c, k)));
        MulSwap(Mul(ConvPreGrad(m, t, c), m.convW(c, k)), 0.0);
      }
      SumZero(Channels(m), all);
    }
  }

  lemma OwnMove(m: Block, d: Tangent, t: int)
    ensures Pair(ProjDims(m), p => ProjGrad(m, t, p), p => TProj(m, d, t, p)) == SegMove(In(m, d), Own(m, t))
  {
    hide Sum, Mul, TProj, ProjGrad, ProjDims;
    var s := Own(m, t);
    var moves := (q: int) => Mul(s.coef(q), TProj(m, d, s.row, s.at + q));
    PairMul(ProjDims(m), p => ProjGrad(m, t, p), p => TProj(m, d, t, p), moves);
    SegIs(m, d, s, moves);
  }

  // ---- the segments are the kernel's scatter ----

  lemma OwnForm(m: Block, t: int, i: int)
    ensures SegHidden(m.inW, Own(m, t), i) == OwnHidden(m, t, i)
  {
    hide Sum, ProjGrad, ProjDims;
    var s := Own(m, t);
    var x, y := (q: int) => Mul(s.coef(q), m.inW(s.at + q, i)), (p: int) => ProjGrad(m, t, p) * m.inW(p, i);
    forall q ensures x(q) == y(q) {
      assert x(q) == Mul(ProjGrad(m, t, q), m.inW(q, i));
    }
    SumEq(ProjDims(m), x, y);
  }

  lemma TapForm(m: Block, t: int, k: int, i: int)
    ensures SegHidden(m.inW, TapSegment(m, t, k), i) == TapHidden(m, t, k, i)
  {
    hide Sum, ConvPreGrad;
    var s := TapSegment(m, t, k);
    var x := (q: int) => Mul(s.coef(q), m.inW(s.at + q, i));
    var y := (c: int) => ConvPreGrad(m, t, c) * m.convW(c, k) * m.inW(ConvAt(m) + c, i);
    forall q ensures x(q) == y(q) {
      assert x(q) == Mul(Mul(ConvPreGrad(m, t, q), m.convW(q, k)), m.inW(ConvAt(m) + q, i));
    }
    SumEq(Channels(m), x, y);
  }

  lemma AheadForm(m: Block, t: int, i: int)
    ensures SegHidden(m.inW, DtAhead(m, t), i) + SegHidden(m.inW, TrapAhead(m, t), i) == AheadHidden(m, t, i)
  {
    hide Sum, NextDtGrad, NextTrapGrad;
    var a, b := DtAhead(m, t), TrapAhead(m, t);
    var x, y := (q: int) => Mul(a.coef(q), m.inW(a.at + q, i)), (q: int) => Mul(b.coef(q), m.inW(b.at + q, i));
    var z := (h: int) => NextDtGrad(m, t, h) * m.inW(DtAt(m) + h, i) + NextTrapGrad(m, t, h) * m.inW(TrapAt(m) + h, i);
    forall h ensures z(h) == x(h) + y(h) {
      assert x(h) == Mul(NextDtGrad(m, t, h), m.inW(DtAt(m) + h, i));
      assert y(h) == Mul(NextTrapGrad(m, t, h), m.inW(TrapAt(m) + h, i));
    }
    SumAdd(m.heads, z, x, y);
  }

  ghost function Rows5(m: Block, d: Tangent, t: int, r: int): real {
    SegRow(In(m, d), Own(m, t), r) + SegRow(In(m, d), TapSegment(m, t, 0), r) + SegRow(In(m, d), TapSegment(m, t, 1), r)
    + (SegRow(In(m, d), DtAhead(m, t), r) + SegRow(In(m, d), TrapAhead(m, t), r))
  }

  /** Every row's share of the scatter of row `t`. */
  lemma HiddenRow(m: Block, d: Tangent, t: int, r: int)
    requires 0 <= r < m.rows
    ensures Pair(m.width, i => HiddenTerm(m, r, i, t), i => d.u(r, i)) == Rows5(m, d, t, r)
  {
    hide Sum, Mul, SegHidden, OwnHidden, TapHidden, AheadHidden;
    var v, all := (i: int) => d.u(r, i), (i: int) => HiddenTerm(m, r, i, t);
    if r == t {
      forall i ensures all(i) == SegHidden(m.inW, Own(m, t), i) {
        OwnForm(m, t, i);
      }
      PairEq(m.width, all, i => SegHidden(m.inW, Own(m, t), i), v);
    } else if r == t + 1 {
      HiddenAhead(m, d, t, all, v);
    } else if r == t - 1 {
      forall i ensures all(i) == SegHidden(m.inW, TapSegment(m, t, 1), i) {
        TapForm(m, t, 1, i);
      }
      PairEq(m.width, all, i => SegHidden(m.inW, TapSegment(m, t, 1), i), v);
    } else if r == t - 2 {
      forall i ensures all(i) == SegHidden(m.inW, TapSegment(m, t, 0), i) {
        TapForm(m, t, 0, i);
      }
      PairEq(m.width, all, i => SegHidden(m.inW, TapSegment(m, t, 0), i), v);
    } else {
      PairZero(m.width, all, v);
    }
  }

  lemma HiddenAhead(m: Block, d: Tangent, t: int, all: int -> real, v: int -> real)
    requires forall i {:trigger all(i)} :: all(i) == AheadHidden(m, t, i)
    ensures Pair(m.width, all, v)
         == Pair(m.width, i => SegHidden(m.inW, DtAhead(m, t), i), v)
            + Pair(m.width, i => SegHidden(m.inW, TrapAhead(m, t), i), v)
  {
    hide Sum, Mul, SegHidden, AheadHidden;
    var a, b := (i: int) => SegHidden(m.inW, DtAhead(m, t), i), (i: int) => SegHidden(m.inW, TrapAhead(m, t), i);
    forall i ensures all(i) == a(i) + b(i) {
      AheadForm(m, t, i);
    }
    PairAdd(m.width, all, a, b, v);
  }

  ghost function Weights5(m: Block, t: int, p: int, i: int): real {
    SegWeight(m.u, Own(m, t), p, i) + SegWeight(m.u, TapSegment(m, t, 0), p, i)
      + SegWeight(m.u, TapSegment(m, t, 1), p, i)
    + SegWeight(m.u, DtAhead(m, t), p, i) + SegWeight(m.u, TrapAhead(m, t), p, i)
  }

  lemma WeightCell(m: Block, t: int, p: int, i: int)
    requires 0 <= p < ProjDims(m)
    ensures InWTerm(m, p, i, t) == Weights5(m, t, p, i)
  {
    hide SegWeight, Own, TapSegment, DtAhead, TrapAhead, ProjGrad, TapWeightTerm, AheadWeightTerm;
    OwnWeight(m, t, p, i);
    TapWeight(m, t, 0, p, i);
    TapWeight(m, t, 1, p, i);
    AheadWeight(m, t, p, i);
  }

  lemma OwnWeight(m: Block, t: int, p: int, i: int)
    requires 0 <= p < ProjDims(m)
    ensures SegWeight(m.u, Own(m, t), p, i) == m.u(t, i) * ProjGrad(m, t, p)
  {
    hide ProjGrad, ProjDims;
    assert SegWeight(m.u, Own(m, t), p, i) == Mul(ProjGrad(m, t, p), m.u(t, i));
  }

  lemma TapWeight(m: Block, t: int, k: int, p: int, i: int)
    ensures SegWeight(m.u, TapSegment(m, t, k), p, i)
         == if ConvAt(m) <= p < DtAt(m) then TapWeightTerm(m, t, k, p - ConvAt(m), i) else 0.0
  {
    hide ConvPreGrad;
    var c := p - ConvAt(m);
    assert SegWeight(m.u, TapSegment(m, t, k), p, i)
        == if t - 2 + k >= 0 && ConvAt(m) <= p < DtAt(m) then Mul(Mul(ConvPreGrad(m, t, c), m.convW(c, k)),
                                                                  m.u(t - 2 + k, i)) else 0.0;
  }

  lemma AheadWeight(m: Block, t: int, p: int, i: int)
    ensures SegWeight(m.u, DtAhead(m, t), p, i) + SegWeight(m.u, TrapAhead(m, t), p, i) == AheadWeightTerm(m, p, i, t)
  {
    hide NextDtGrad, NextTrapGrad;
    var h, k := p - DtAt(m), p - TrapAt(m);
    NextZero(m, t, h);
    NextZero(m, t, k);
    assert SegWeight(m.u, DtAhead(m, t), p, i)
        == if t + 1 < m.rows && DtAt(m) <= p < DecayAt(m) then Mul(NextDtGrad(m, t, h), m.u(t + 1, i)) else 0.0;
    assert SegWeight(m.u, TrapAhead(m, t), p, i)
        == if t + 1 < m.rows && TrapAt(m) <= p < AngleAt(m) then Mul(NextTrapGrad(m, t, k), m.u(t + 1, i)) else 0.0;
  }

  lemma NextZero(m: Block, t: int, h: int)
    ensures t + 1 >= m.rows ==> NextDtGrad(m, t, h) == 0.0 && NextTrapGrad(m, t, h) == 0.0
  {
  }

  /** What the iteration of row `t` pairs with projections is what it scatters into the hidden gradient of
      every row, the in-projection's gradient and, for the look-ahead, the step bias. */
  lemma RowScatter(m: Block, d: Tangent, t: int)
    requires 0 <= t < m.rows
    ensures RowLinear(m, d, t)
         == Sum(m.rows, r => Pair(m.width, i => HiddenTerm(m, r, i, t), i => d.u(r, i)))
            + Pair2(ProjDims(m), m.width, (p, i) => InWTerm(m, p, i, t), d.inW)
            + Pair(m.heads, h => NextDtGrad(m, t, h), d.dtBias)
  {
    hide Sum, Pair, Pair2, Ahead, SegMove, SegRow, SegWeight, ConvTap, ProjGrad, TProj, NextDtGrad, NextTrapGrad,
         HiddenTerm, InWTerm;
    OwnMove(m, d, t);
    TapMove(m, d, t, 0);
    TapMove(m, d, t, 1);
    AheadSplit(m, d, t);
    SegStage(In(m, d), ProjDims(m), Own(m, t));
    SegStage(In(m, d), ProjDims(m), TapSegment(m, t, 0));
    SegStage(In(m, d), ProjDims(m), TapSegment(m, t, 1));
    SegStage(In(m, d), ProjDims(m), DtAhead(m, t));
    SegStage(In(m, d), ProjDims(m), TrapAhead(m, t));
    ScatterRows(m, d, t);
    ScatterWeights(m, d, t);
  }

  lemma ScatterRows(m: Block, d: Tangent, t: int)
    ensures Sum(m.rows, r => Pair(m.width, i => HiddenTerm(m, r, i, t), i => d.u(r, i)))
         == Sum(m.rows, r => SegRow(In(m, d), Own(m, t), r))
            + Sum(m.rows, r => SegRow(In(m, d), TapSegment(m, t, 0), r))
            + Sum(m.rows, r => SegRow(In(m, d), TapSegment(m, t, 1), r))
            + (Sum(m.rows, r => SegRow(In(m, d), DtAhead(m, t), r))
               + Sum(m.rows, r => SegRow(In(m, d), TrapAhead(m, t), r)))
  {
    hide Sum, Pair, SegRow, Own, TapSegment, DtAhead, TrapAhead, HiddenTerm;
    var n, own, x, y := m.rows, (r: int) => SegRow(In(m, d), Own(m, t), r),
        (r: int) => SegRow(In(m, d), TapSegment(m, t, 0), r),
                        (r: int) => SegRow(In(m, d), TapSegment(m, t, 1), r);
    var a, b := (r: int) => SegRow(In(m, d), DtAhead(m, t), r), (r: int) => SegRow(In(m, d), TrapAhead(m, t), r);
    var near, ahead := (r: int) => own(r) + x(r) + y(r), (r: int) => a(r) + b(r);
    var all := (r: int) => Pair(m.width, i => HiddenTerm(m, r, i, t), i => d.u(r, i));
    forall r | 0 <= r < n ensures all(r) == near(r) + ahead(r) {
      HiddenRow(m, d, t, r);
    }
    SumAdd3(n, near, own, x, y);
    SumAdd(n, ahead, a, b);
    SumAdd(n, all, near, ahead);
  }

  lemma ScatterWeights(m: Block, d: Tangent, t: int)
    ensures Pair2(ProjDims(m), m.width, (p, i) => InWTerm(m, p, i, t), d.inW)
         == Pair2(ProjDims(m), m.width, (p, i) => SegWeight(m.u, Own(m, t), p, i), d.inW)
            + Pair2(ProjDims(m), m.width, (p, i) => SegWeight(m.u, TapSegment(m, t, 0), p, i), d.inW)
            + Pair2(ProjDims(m), m.width, (p, i) => SegWeight(m.u, TapSegment(m, t, 1), p, i), d.inW)
            + Pair2(ProjDims(m), m.width, (p, i) => SegWeight(m.u, DtAhead(m, t), p, i), d.inW)
            + Pair2(ProjDims(m), m.width, (p, i) => SegWeight(m.u, TrapAhead(m, t), p, i), d.inW)
  {
    hide Sum, Pair2, SegWeight, Own, TapSegment, DtAhead, TrapAhead, InWTerm, ProjDims;
    var all := (p: int, i: int) => InWTerm(m, p, i, t);
    var own, x, y := (p: int, i: int) => SegWeight(m.u, Own(m, t), p, i),
        (p: int, i: int) => SegWeight(m.u, TapSegment(m, t, 0), p, i),
                     (p: int, i: int) => SegWeight(m.u, TapSegment(m, t, 1), p, i);
    var a, b := (p: int, i: int) => SegWeight(m.u, DtAhead(m, t), p, i),
        (p: int, i: int) => SegWeight(m.u, TrapAhead(m, t), p, i);
    forall p, i | 0 <= p < ProjDims(m) ensures all(p, i) == own(p, i) + x(p, i) + y(p, i) + a(p, i) + b(p, i) {
      WeightCell(m, t, p, i);
    }
    Pair2Add5(ProjDims(m), m.width, all, own, x, y, a, b, d.inW);
  }
}
