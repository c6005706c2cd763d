/** Per-head quantities of one row, reversed: trapezoid weight, step size and decay. */
module MambaHeadAdjoint {
  import opened Sums
  import opened Stages
  import opened Functions
  import opened Indices
  import opened MambaModel
  import opened MambaTangent
  import opened MambaGradient
  import opened MambaNormAdjoint

  // ---- B before the rotation is its mean times the trapezoid weight ----

  ghost function BViaTrap(m: Block, d: Tangent, t: int, g: int, n: int): real {
    Mul(TTrap(m, d, t, g), Mul(BRawGrad(m, t, g, n), BMean(m, t, g, n)))
  }

  lemma BCell(m: Block, d: Tangent, t: int, g: int, n: int)
    ensures Mul(BRawGrad(m, t, g, n), TBRaw(m, d, t, g, n))
         == Mul(BMeanGrad(m, t, g, n), TBMean(m, d, t, g, n)) + BViaTrap(m, d, t, g, n)
  {
    hide BRawGrad, TBMean, Trap, BMean, TTrap;
    BCellForm(BRawGrad(m, t, g, n), TBMean(m, d, t, g, n), Trap(m, t, g), BMean(m, t, g, n), TTrap(m, d, t, g),
              TBRaw(m, d, t, g, n), BMeanGrad(m, t, g, n));
  }

  lemma BCellForm(grad: real, tmean: real, trap: real, mean: real, ttrap: real, traw: real, mgrad: real)
    requires traw == tmean * trap + mean * ttrap && mgrad == grad * trap
    ensures Mul(grad, traw) == Mul(mgrad, tmean) + Mul(ttrap, Mul(grad, mean))
  {
  }

  lemma BRawStage(m: Block, d: Tangent, t: int)
    ensures Pair2(m.groups, m.state, (g, n) => BRawGrad(m, t, g, n), (g, n) => TBRaw(m, d, t, g, n))
         == Pair2(m.groups, m.state, (g, n) => BMeanGrad(m, t, g, n), (g, n) => TBMean(m, d, t, g, n))
            + Pair(m.groups, g => TTrap(m, d, t, g), g => TrapGrad(m, t, g))
  {
    hide Sum, Mul, BRawGrad, TBRaw, BMeanGrad, TBMean, BViaTrap;
    var x, y := (g: int, n: int) => Mul(BRawGrad(m, t, g, n), TBRaw(m, d, t, g, n)),
                (g: int, n: int) => Mul(BMeanGrad(m, t, g, n), TBMean(m, d, t, g, n));
    var z := (g: int, n: int) => BViaTrap(m, d, t, g, n);
    forall g, n ensures x(g, n) == y(g, n) + z(g, n) {
      BCell(m, d, t, g, n);
    }
    Sum2Add(m.groups, m.state, x, y, z);
    Pair2Mul(m.groups, m.state, (g, n) => BRawGrad(m, t, g, n), (g, n) => TBRaw(m, d, t, g, n), x);
    Pair2Mul(m.groups, m.state, (g, n) => BMeanGrad(m, t, g, n), (g, n) => TBMean(m, d, t, g, n), y);
    BTrapRows(m, d, t);
  }

  lemma BTrapRows(m: Block, d: Tangent, t: int)
    ensures Sum2(m.groups, m.state, (g, n) => BViaTrap(m, d, t, g, n))
         == Pair(m.groups, g => TTrap(m, d, t, g), g => TrapGrad(m, t, g))
  {
    hide Sum, BRawGrad, BMean, TTrap;
    var w := (g: int, n: int) => Mul(BRawGrad(m, t, g, n), BMean(m, t, g, n));
    forall g ensures TrapGrad(m, t, g) == Row(m.state, w, g) {
      SumEq(m.state, n => BRawGrad(m, t, g, n) * BMean(m, t, g, n), n => w(g, n));
    }
    Sum2Rows(m.groups, m.state, (g, n) => BViaTrap(m, d, t, g, n), g => TTrap(m, d, t, g), w, g => TrapGrad(m, t, g));
  }

  // ---- the trapezoid weight is a mean over the group's heads ----

  ghost function TrapMove(m: Block, d: Tangent, t: int, h: int): real {
    Mul(HeadTrapGrad(m, t, h), TTrapTerm(m, d, t, h))
  }

  lemma TrapHeads(m: Block, d: Tangent, t: int)
    ensures Pair(m.groups, g => TTrap(m, d, t, g), g => TrapGrad(m, t, g)) == Sum(m.heads, h => TrapMove(m, d, t, h))
  {
    hide Sum, Mul, TrapGrad, TTrapTerm;
    var q := m.perGroup;
    var move := (h: int) => TrapMove(m, d, t, h);
    var x := (g: int) => Mul(TTrap(m, d, t, g), TrapGrad(m, t, g));
    var y := (g: int) => Sum(q, k => move(g * q + k));
    forall g ensures x(g) == y(g) {
      var moves := (k: int) => move(GroupHead(m, g, k));
      TrapGroup(m, d, t, g, moves);
      SumEq(q, moves, k => move(g * q + k));
    }
    PairMul(m.groups, g => TTrap(m, d, t, g), g => TrapGrad(m, t, g), x);
    SumEq(m.groups, x, y);
    SumFlatten(m.groups, q, move);
  }

  lemma TrapGroup(m: Block, d: Tangent, t: int, g: int, moves: int -> real)
    requires forall k {:trigger moves(k)} :: moves(k) == TrapMove(m, d, t, GroupHead(m, g, k))
    ensures Mul(TTrap(m, d, t, g), TrapGrad(m, t, g)) == Sum(m.perGroup, moves)
  {
    hide Sum, TrapGrad, TTrapTerm, Mul;
    var q := m.perGroup;
    var share := TrapGrad(m, t, g) / q as real;
    var terms := (k: int) => TTrapTerm(m, d, t, GroupHead(m, g, k));
    var cells := (k: int) => Mul(share, terms(k));
    forall k | 0 <= k < q ensures moves(k) == cells(k) {
      DivMod(g, k, q);
    }
    SumEq(q, moves, cells);
    MeanShare(q, TrapGrad(m, t, g), share, terms, cells);
    MulSwap(TTrap(m, d, t, g), TrapGrad(m, t, g));
  }

  lemma MulSwap(x: real, y: real)
    ensures Mul(x, y) == Mul(y, x)
  {
  }

  /** What row `t` sends ahead to the projections of row `t + 1`. */
  ghost function Ahead(m: Block, d: Tangent, t: int, h: int): real {
    if t + 1 < m.rows then
      Mul(NextDtGrad(m, t, h), TDtPre(m, d, t + 1, h)) + Mul(NextTrapGrad(m, t, h), TProj(m, d, t + 1, TrapAt(m) + h))
    else 0.0
  }

  /** The two halves of a head's share of the trapezoid tangent: this row's, and the look-ahead's. */
  ghost function TTrapOwn(m: Block, d: Tangent, t: int, h: int): real {
    TDt(m, d, t, h) * Sigmoid(m.fns, Proj(m, t, TrapAt(m) + h))
    + Dt(m, t, h) * (DSigmoid(m.fns, Proj(m, t, TrapAt(m) + h)) * TProj(m, d, t, TrapAt(m) + h))
  }

  ghost function TTrapNext(m: Block, d: Tangent, t: int, h: int): real {
    TNextDt(m, d, t, h) * (1.0 - Sigmoid(m.fns, NextTrap(m, t, h)))
    + NextDt(m, t, h) * (-(DSigmoid(m.fns, NextTrap(m, t, h)) * TNextTrap(m, d, t, h)))
  }

  lemma TrapCell(m: Block, d: Tangent, t: int, h: int)
    ensures TrapMove(m, d, t, h)
         == Mul(TDt(m, d, t, h), TrapDtGrad(m, t, h)) + Mul(TrapProjGrad(m, t, h), TProj(m, d, t, TrapAt(m) + h))
            + Ahead(m, d, t, h)
  {
    hide *;
    TrapHalves(m, d, t, h);
    TrapOwn(m, d, t, h);
    if t + 1 < m.rows {
      TrapNext(m, d, t, h);
    } else {
      TrapLast(m, d, t, h);
    }
  }

  lemma TrapHalves(m: Block, d: Tangent, t: int, h: int)
    ensures TrapMove(m, d, t, h)
         == Mul(HeadTrapGrad(m, t, h), TTrapOwn(m, d, t, h)) + Mul(HeadTrapGrad(m, t, h), TTrapNext(m, d, t, h))
  {
    hide HeadTrapGrad, TDt, Sigmoid, DSigmoid, Dt, NextTrap, TNextDt, TNextTrap, NextDt, TProj, Proj;
    Distribute(HeadTrapGrad(m, t, h), TTrapNext(m, d, t, h), TTrapOwn(m, d, t, h));
  }

  lemma Distribute(g: real, x: real, y: real)
    ensures Mul(g, x + y) == Mul(g, y) + Mul(g, x)
  {
  }

  lemma TrapOwn(m: Block, d: Tangent, t: int, h: int)
    ensures Mul(HeadTrapGrad(m, t, h), TTrapOwn(m, d, t, h))
         == Mul(TDt(m, d, t, h), TrapDtGrad(m, t, h)) + Mul(TrapProjGrad(m, t, h), TProj(m, d, t, TrapAt(m) + h))
  {
    hide HeadTrapGrad, TDt, Sigmoid, DSigmoid, Dt, TProj, Proj;
    var z := Proj(m, t, TrapAt(m) + h);
    OwnForm(HeadTrapGrad(m, t, h), TDt(m, d, t, h), Dt(m, t, h), Sigmoid(m.fns, z), DSigmoid(m.fns, z),
            TProj(m, d, t, TrapAt(m) + h));
  }

  lemma OwnForm(g: real, tdt: real, dt: real, s: real, s': real, tp: real)
    ensures Mul(g, tdt * s + dt * (s' * tp)) == Mul(tdt, g * s) + Mul(g * dt * s', tp)
  {
  }

  lemma TrapNext(m: Block, d: Tangent, t: int, h: int)
    requires t + 1 < m.rows
    ensures Mul(HeadTrapGrad(m, t, h), TTrapNext(m, d, t, h)) == Ahead(m, d, t, h)
  {
    hide HeadTrapGrad, Sigmoid, DSigmoid, NextTrap, NextDt, NextDtPre, TDtPre, TProj;
    var z := NextTrap(m, t, h);
    NextForm(HeadTrapGrad(m, t, h), NextDt(m, t, h), Sigmoid(m.fns, z), DSigmoid(m.fns, z),
             Sigmoid(m.fns, NextDtPre(m, t, h)), TDtPre(m, d, t + 1, h), TProj(m, d, t + 1, TrapAt(m) + h));
  }

  lemma NextForm(g: real, dt: real, w: real, w': real, slope: real, tpre: real, tp: real)
    ensures Mul(g, slope * tpre * (1.0 - w) + dt * (-(w' * tp)))
         == Mul(g * (1.0 - w) * slope, tpre) + Mul(g * dt * -w', tp)
  {
    assert g * (slope * tpre * (1.0 - w)) == g * (1.0 - w) * slope * tpre;
    assert g * (dt * (-(w' * tp))) == g * dt * -w' * tp;
  }

  lemma TrapLast(m: Block, d: Tangent, t: int, h: int)
    requires t + 1 >= m.rows
    ensures Mul(HeadTrapGrad(m, t, h), TTrapNext(m, d, t, h)) == Ahead(m, d, t, h)
  {
    hide HeadTrapGrad, Sigmoid, DSigmoid, NextTrap;
    MulZero(HeadTrapGrad(m, t, h));
  }

  lemma TrapStage(m: Block, d: Tangent, t: int)
    ensures Sum(m.heads, h => TrapMove(m, d, t, h))
         == Pair(m.heads, h => TDt(m, d, t, h), h => TrapDtGrad(m, t, h))
            + Pair(m.heads, h => TrapProjGrad(m, t, h), h => TProj(m, d, t, TrapAt(m) + h))
            + Sum(m.heads, h => Ahead(m, d, t, h))
  {
    hide Sum, Mul, TrapMove, TDt, TrapDtGrad, TrapProjGrad, TProj, Ahead;
    var x, y := (h: int) => Mul(TDt(m, d, t, h), TrapDtGrad(m, t, h)),
        (h: int) => Mul(TrapProjGrad(m, t, h), TProj(m, d, t, TrapAt(m) + h));
    var all, ahead := (h: int) => TrapMove(m, d, t, h), (h: int) => Ahead(m, d, t, h);
    forall h ensures all(h) == x(h) + y(h) + ahead(h) {
      TrapCell(m, d, t, h);
    }
    SumAdd3(m.heads, all, x, y, ahead);
    PairMul(m.heads, h => TDt(m, d, t, h), h => TrapDtGrad(m, t, h), x);
    PairMul(m.heads, h => TrapProjGrad(m, t, h), h => TProj(m, d, t, TrapAt(m) + h), y);
  }

  // ---- step size and decay ----

  lemma DtStage(m: Block, d: Tangent, t: int)
    ensures Pair(m.heads, h => ScanDtGrad(m, t, h), h => TDt(m, d, t, h))
            + Pair(m.heads, h => TDt(m, d, t, h), h => TrapDtGrad(m, t, h))
            + Pair(m.heads, h => TDt(m, d, t, h), h => AngleDtGrad(m, t, h))
         == Pair(m.heads, h => DtProjGrad(m, t, h), h => TProj(m, d, t, DtAt(m) + h))
            + Pair(m.heads, h => DtProjGrad(m, t, h), d.dtBias)
  {
    hide Sum, Mul, ScanDtGrad, TDt, TrapDtGrad, AngleDtGrad, DtProjGrad, TProj;
    var n := m.heads;
    var x, y, z := (h: int) => Mul(ScanDtGrad(m, t, h), TDt(m, d, t, h)),
        (h: int) => Mul(TDt(m, d, t, h), TrapDtGrad(m, t, h)),
                   (h: int) => Mul(TDt(m, d, t, h), AngleDtGrad(m, t, h));
    var u, v := (h: int) => Mul(DtProjGrad(m, t, h), TProj(m, d, t, DtAt(m) + h)),
        (h: int) => Mul(DtProjGrad(m, t, h), d.dtBias(h));
    var all := (h: int) => x(h) + y(h) + z(h);
    forall h ensures all(h) == u(h) + v(h) {
      DtCell(m, d, t, h);
    }
    SumAdd3(n, all, x, y, z);
    SumAdd(n, all, u, v);
    PairMul(n, h => ScanDtGrad(m, t, h), h => TDt(m, d, t, h), x);
    PairMul(n, h => TDt(m, d, t, h), h => TrapDtGrad(m, t, h), y);
    PairMul(n, h => TDt(m, d, t, h), h => AngleDtGrad(m, t, h), z);
    PairMul(n, h => DtProjGrad(m, t, h), h => TProj(m, d, t, DtAt(m) + h), u);
    PairMul(n, h => DtProjGrad(m, t, h), d.dtBias, v);
  }

  lemma DtCell(m: Block, d: Tangent, t: int, h: int)
    ensures Mul(ScanDtGrad(m, t, h), TDt(m, d, t, h)) + Mul(TDt(m, d, t, h), TrapDtGrad(m, t, h))
            + Mul(TDt(m, d, t, h), AngleDtGrad(m, t, h))
         == Mul(DtProjGrad(m, t, h), TProj(m, d, t, DtAt(m) + h)) + Mul(DtProjGrad(m, t, h), d.dtBias(h))
  {
    hide ScanDtGrad, TrapDtGrad, AngleDtGrad, TProj, Sigmoid, DtPre;
    DtForm(ScanDtGrad(m, t, h), TrapDtGrad(m, t, h), AngleDtGrad(m, t, h), Sigmoid(m.fns, DtPre(m, t, h)),
           TProj(m, d, t, DtAt(m) + h), d.dtBias(h), TDt(m, d, t, h), DtProjGrad(m, t, h));
  }

  lemma DtForm(a: real, b: real, c: real, s: real, tp: real, tb: real, tdt: real, pg: real)
    requires tdt == s * (tp + tb) && pg == (a + b + c) * s
    ensures Mul(a, tdt) + Mul(tdt, b) + Mul(tdt, c) == Mul(pg, tp) + Mul(pg, tb)
  {
  }

  lemma DecayStage(m: Block, d: Tangent, t: int)
    ensures Pair(m.heads, h => DecayGrad(m, t, h), h => TDecay(m, d, t, h))
         == Pair(m.heads, h => DecayProjGrad(m, t, h), h => TProj(m, d, t, DecayAt(m) + h))
  {
    hide Sum, Mul, DecayGrad, TDecay, DecayProjGrad, TProj;
    var x, y := (h: int) => Mul(DecayGrad(m, t, h), TDecay(m, d, t, h)),
        (h: int) => Mul(DecayProjGrad(m, t, h), TProj(m, d, t, DecayAt(m) + h));
    forall h ensures x(h) == y(h) {
      DecayCell(m, d, t, h);
    }
    SumEq(m.heads, x, y);
    PairMul(m.heads, h => DecayGrad(m, t, h), h => TDecay(m, d, t, h), x);
    PairMul(m.heads, h => DecayProjGrad(m, t, h), h => TProj(m, d, t, DecayAt(m) + h), y);
  }

  lemma DecayCell(m: Block, d: Tangent, t: int, h: int)
    ensures Mul(DecayGrad(m, t, h), TDecay(m, d, t, h)) == Mul(DecayProjGrad(m, t, h), TProj(m, d, t, DecayAt(m) + h))
  {
    hide DecayGrad, TProj, Sigmoid, Proj, Softplus;
  }
}
