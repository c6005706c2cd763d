/** The scan of one row, reversed: its cotangents paired with its tangents. */
module MambaScanAdjoint {
  import opened Sums
  import opened Stages
  import opened MambaModel
  import opened MambaTangent
  import opened MambaGradient

  lemma NextStateTangent(m: Block, d: Tangent, t: nat, f: int, n: int)
    ensures TState(m, d, t + 1, f, n)
         == (Keep(m, t, Head(m, f)) * (TDecay(m, d, t, Head(m, f)) * Dt(m, t, Head(m, f))
                                       + Decay(m, t, Head(m, f)) * TDt(m, d, t, Head(m, f))) * State(m, t, f, n)
             + Keep(m, t, Head(m, f)) * TState(m, d, t, f, n))
            + (TConv(m, d, t, f) * BRot(m, t, Group(m, f), n) + Conv(m, t, f) * TBRot(m, d, t, Group(m, f), n))
  {
    hide Keep, TDecay, Dt, Decay, TDt, TConv, BRot, Conv, TBRot, Head, Group;
    Factors(TKeep(m, d, t, Head(m, f)),
            Keep(m, t, Head(m, f)) * (TDecay(m, d, t, Head(m, f)) * Dt(m, t, Head(m, f))
                                      + Decay(m, t, Head(m, f)) * TDt(m, d, t, Head(m, f))),
            State(m, t, f, n), State(m, t, f, n));
  }

  lemma StateCell(lam: real, tnext: real, keep: real, a: real, dt: real, ta: real, tdt: real, st: real, tst: real,
                  x: real, tx: real, b: real, tb: real)
    requires tnext == (keep * (ta * dt + a * tdt) * st + keep * tst) + (tx * b + x * tb)
    ensures lam * tnext == (lam * keep) * tst + (lam * st * keep * dt) * ta + (lam * st * keep * a) * tdt
                           + tx * (lam * b) + (lam * x) * tb
  {
  }

  ghost function ViaState(m: Block, d: Tangent, t: int, f: int, n: int): real {
    FullStateGrad(m, t, f, n) * Keep(m, t, Head(m, f)) * TState(m, d, t, f, n)
  }

  ghost function ViaDecay(m: Block, d: Tangent, t: int, f: int, n: int): real {
    DecayTerm(m, t, f, n) * TDecay(m, d, t, Head(m, f))
  }

  ghost function ViaDt(m: Block, d: Tangent, t: int, f: int, n: int): real {
    StepTerm(m, t, f, n) * TDt(m, d, t, Head(m, f))
  }

  ghost function ViaX(m: Block, d: Tangent, t: int, f: int, n: int): real {
    TConv(m, d, t, f) * (FullStateGrad(m, t, f, n) * BRot(m, t, Group(m, f), n))
  }

  ghost function ViaB(m: Block, d: Tangent, t: int, f: int, n: int): real {
    FullStateGrad(m, t, f, n) * Conv(m, t, f) * TBRot(m, d, t, Group(m, f), n)
  }

  ghost function ViaNext(m: Block, d: Tangent, t: int, f: int, n: int): real {
    FullStateGrad(m, t, f, n) * TState(m, d, t + 1, f, n)
  }

  lemma NextCell(m: Block, d: Tangent, t: nat, f: int, n: int)
    ensures ViaNext(m, d, t, f, n) == ViaState(m, d, t, f, n) + ViaDecay(m, d, t, f, n) + ViaDt(m, d, t, f, n)
                                      + ViaX(m, d, t, f, n) + ViaB(m, d, t, f, n)
  {
    hide Keep, TDecay, Dt, Decay, TDt, TConv, BRot, Conv, TBRot, Head, Group, FullStateGrad, State, TState;
    NextStateTangent(m, d, t, f, n);
    var h := Head(m, f);
    StateCell(FullStateGrad(m, t, f, n), TState(m, d, t + 1, f, n), Keep(m, t, h), Decay(m, t, h), Dt(m, t, h),
              TDecay(m, d, t, h), TDt(m, d, t, h), State(m, t, f, n), TState(m, d, t, f, n), Conv(m, t, f),
              TConv(m, d, t, f), BRot(m, t, Group(m, f), n), TBRot(m, d, t, Group(m, f), n));
  }

  lemma NextSum(m: Block, d: Tangent, t: nat)
    ensures Sum2(m.features, m.state, (f, n) => ViaNext(m, d, t, f, n))
         == Sum2(m.features, m.state, (f, n) => ViaState(m, d, t, f, n))
            + Sum2(m.features, m.state, (f, n) => ViaDecay(m, d, t, f, n))
            + Sum2(m.features, m.state, (f, n) => ViaDt(m, d, t, f, n))
            + Sum2(m.features, m.state, (f, n) => ViaX(m, d, t, f, n))
            + Sum2(m.features, m.state, (f, n) => ViaB(m, d, t, f, n))
  {
    var next := (f: int, n: int) => ViaNext(m, d, t, f, n);
    var s, a, dt := (f: int, n: int) => ViaState(m, d, t, f, n), (f: int, n: int) => ViaDecay(m, d, t, f, n),
                    (f: int, n: int) => ViaDt(m, d, t, f, n);
    var x, b := (f: int, n: int) => ViaX(m, d, t, f, n), (f: int, n: int) => ViaB(m, d, t, f, n);
    forall f, n ensures next(f, n) == s(f, n) + a(f, n) + dt(f, n) + x(f, n) + b(f, n) {
      NextCell(m, d, t, f, n);
    }
    Sum2Add5(m.features, m.state, next, s, a, dt, x, b);
  }

  lemma StateSum(m: Block, d: Tangent, t: int)
    requires t < m.rows
    ensures Sum2(m.features, m.state, (f, n) => ViaState(m, d, t, f, n))
         == Pair2(m.features, m.state, (f, n) => StateGrad(m, t, f, n), (f, n) => TState(m, d, t, f, n))
  {
    hide TState, Keep, ScanOutGrad, CRot, Sum, Head, Group;
    var via := (f: int, n: int) => ViaState(m, d, t, f, n);
    var a, b := (f: int, n: int) => StateGrad(m, t, f, n), (f: int, n: int) => TState(m, d, t, f, n);
    forall f, n ensures via(f, n) == a(f, n) * b(f, n) {
      Factors(FullStateGrad(m, t, f, n) * Keep(m, t, Head(m, f)), StateGrad(m, t, f, n), TState(m, d, t, f, n),
              TState(m, d, t, f, n));
    }
    Sum2Eq(m.features, m.state, via, (f, n) => a(f, n) * b(f, n));
  }

  lemma DecaySum(m: Block, d: Tangent, t: int)
    ensures Sum2(m.features, m.state, (f, n) => ViaDecay(m, d, t, f, n))
         == Pair(m.heads, h => DecayGrad(m, t, h), h => TDecay(m, d, t, h))
  {
    hide DecayTerm, TDecay, Sum, Head, Keyed;
    var w := (f: int, n: int) => DecayTerm(m, t, f, n);
    forall f ensures DecayRow(m, t, f) == Row(m.state, w, f) {
      SumEq(m.state, n => DecayTerm(m, t, f, n), n => w(f, n));
    }
    KeyedRows(m.heads, m.features, m.state, f => Head(m, f), w, h => TDecay(m, d, t, h),
              (f, n) => ViaDecay(m, d, t, f, n), f => DecayRow(m, t, f), h => DecayGrad(m, t, h));
  }

  lemma DtSum(m: Block, d: Tangent, t: int)
    ensures Sum2(m.features, m.state, (f, n) => ViaDt(m, d, t, f, n))
         == Pair(m.heads, h => ScanDtGrad(m, t, h), h => TDt(m, d, t, h))
  {
    hide StepTerm, TDt, Sum, Head, Keyed;
    var w := (f: int, n: int) => StepTerm(m, t, f, n);
    forall f ensures StepRow(m, t, f) == Row(m.state, w, f) {
      SumEq(m.state, n => StepTerm(m, t, f, n), n => w(f, n));
    }
    KeyedRows(m.heads, m.features, m.state, f => Head(m, f), w, h => TDt(m, d, t, h),
              (f, n) => ViaDt(m, d, t, f, n), f => StepRow(m, t, f), h => ScanDtGrad(m, t, h));
  }

  lemma XSum(m: Block, d: Tangent, t: int)
    ensures Sum2(m.features, m.state, (f, n) => ViaX(m, d, t, f, n))
         == Pair(m.features, f => TConv(m, d, t, f), f => XRow(m, t, f))
  {
    hide FullStateGrad, TConv, BRot, Sum, Group;
    var w := (f: int, n: int) => FullStateGrad(m, t, f, n) * BRot(m, t, Group(m, f), n);
    forall f ensures XRow(m, t, f) == Row(m.state, w, f) {
      SumEq(m.state, n => FullStateGrad(m, t, f, n) * BRot(m, t, Group(m, f), n), n => w(f, n));
    }
    Sum2Rows(m.features, m.state, (f, n) => ViaX(m, d, t, f, n), f => TConv(m, d, t, f), w, f => XRow(m, t, f));
  }

  lemma BSum(m: Block, d: Tangent, t: int)
    ensures Sum2(m.features, m.state, (f, n) => ViaB(m, d, t, f, n))
         == Pair2(m.groups, m.state, (g, n) => BRotGrad(m, t, g, n), (g, n) => TBRot(m, d, t, g, n))
  {
    hide FullStateGrad, TBRot, Conv, Sum, Group, Keyed;
    var w := (f: int, n: int) => FullStateGrad(m, t, f, n) * Conv(m, t, f);
    var scattered := (g: int, n: int) => BRotGrad(m, t, g, n);
    forall g, n ensures scattered(g, n) == Keyed(m.features, f => Group(m, f), f => w(f, n), g) {
      KeyedEq(m.features, f => Group(m, f), f => FullStateGrad(m, t, f, n) * Conv(m, t, f), f => w(f, n), g);
    }
    KeyedCells(m.groups, m.features, m.state, f => Group(m, f), w, (g, n) => TBRot(m, d, t, g, n),
               (f, n) => ViaB(m, d, t, f, n), scattered);
  }

  // ---- the read-out y = C h + D x ----

  ghost function ReadTerm(m: Block, d: Tangent, t: int, f: int, n: int): real {
    ScanOutGrad(m, t, f) * TReadTerm(m, d, t, f, n)
  }

  ghost function ReadViaState(m: Block, d: Tangent, t: int, f: int, n: int): real {
    ScanOutGrad(m, t, f) * CRot(m, t, Group(m, f), n) * TState(m, d, t + 1, f, n)
  }

  ghost function ReadViaC(m: Block, d: Tangent, t: int, f: int, n: int): real {
    ScanOutGrad(m, t, f) * State(m, t + 1, f, n) * TCRot(m, d, t, Group(m, f), n)
  }

  ghost function OutViaSkip(m: Block, d: Tangent, t: int, f: int): real {
    ScanOutGrad(m, t, f) * Conv(m, t, f) * d.skip(Head(m, f))
  }

  ghost function OutViaX(m: Block, d: Tangent, t: int, f: int): real {
    TConv(m, d, t, f) * (ScanOutGrad(m, t, f) * m.skip(Head(m, f)))
  }

  lemma ReadSum(m: Block, d: Tangent, t: int)
    ensures Pair(m.features, f => ScanOutGrad(m, t, f), f => TRead(m, d, t, f))
         == Sum2(m.features, m.state, (f, n) => ReadViaState(m, d, t, f, n))
            + Sum2(m.features, m.state, (f, n) => ReadViaC(m, d, t, f, n))
  {
    hide ScanOutGrad, TState, State, CRot, TCRot, Group, Sum;
    var all, a, b := (f: int, n: int) => ReadTerm(m, d, t, f, n), (f: int, n: int) => ReadViaState(m, d, t, f, n),
                     (f: int, n: int) => ReadViaC(m, d, t, f, n);
    forall f, n ensures all(f, n) == a(f, n) + b(f, n) {
    }
    Sum2Add(m.features, m.state, all, a, b);
    ReadRows(m, d, t);
  }

  lemma ReadRows(m: Block, d: Tangent, t: int)
    ensures Sum2(m.features, m.state, (f, n) => ReadTerm(m, d, t, f, n))
         == Pair(m.features, f => ScanOutGrad(m, t, f), f => TRead(m, d, t, f))
  {
    hide ScanOutGrad, TReadTerm, Sum;
    var w := (f: int, n: int) => TReadTerm(m, d, t, f, n);
    forall f ensures TRead(m, d, t, f) == Row(m.state, w, f) {
      SumEq(m.state, n => TReadTerm(m, d, t, f, n), n => w(f, n));
    }
    Sum2Rows(m.features, m.state, (f, n) => ReadTerm(m, d, t, f, n), f => ScanOutGrad(m, t, f), w,
             f => TRead(m, d, t, f));
  }

  lemma CSum(m: Block, d: Tangent, t: int)
    ensures Sum2(m.features, m.state, (f, n) => ReadViaC(m, d, t, f, n))
         == Pair2(m.groups, m.state, (g, n) => CRotGrad(m, t, g, n), (g, n) => TCRot(m, d, t, g, n))
  {
    hide ScanOutGrad, TCRot, State, Sum, Group, Keyed;
    var w := (f: int, n: int) => ScanOutGrad(m, t, f) * State(m, t + 1, f, n);
    var scattered := (g: int, n: int) => CRotGrad(m, t, g, n);
    forall g, n ensures scattered(g, n) == Keyed(m.features, f => Group(m, f), f => w(f, n), g) {
      KeyedEq(m.features, f => Group(m, f), f => ScanOutGrad(m, t, f) * State(m, t + 1, f, n), f => w(f, n), g);
    }
    KeyedCells(m.groups, m.features, m.state, f => Group(m, f), w, (g, n) => TCRot(m, d, t, g, n),
               (f, n) => ReadViaC(m, d, t, f, n), scattered);
  }

  lemma SkipSum(m: Block, d: Tangent, t: int)
    ensures Sum(m.features, f => OutViaSkip(m, d, t, f)) == Pair(m.heads, h => SkipTerm(m, h, t), d.skip)
  {
    hide ScanOutGrad, Conv, Sum, Head, Keyed;
    SumByKey(m.heads, m.features, f => Head(m, f), f => ScanOutGrad(m, t, f) * Conv(m, t, f), d.skip,
             h => SkipTerm(m, h, t), f => OutViaSkip(m, d, t, f));
  }

  lemma OutSplit(m: Block, d: Tangent, t: int)
    ensures Pair(m.features, f => ScanOutGrad(m, t, f), f => TScanOut(m, d, t, f))
         == Pair(m.features, f => ScanOutGrad(m, t, f), f => TRead(m, d, t, f))
            + Sum(m.features, f => OutViaSkip(m, d, t, f)) + Sum(m.features, f => OutViaX(m, d, t, f))
  {
    hide ScanOutGrad, Conv, Sum, Head, TRead, TConv;
    var whole, read := (f: int) => ScanOutGrad(m, t, f) * TScanOut(m, d, t, f),
                       (f: int) => ScanOutGrad(m, t, f) * TRead(m, d, t, f);
    var skip, x := (f: int) => OutViaSkip(m, d, t, f), (f: int) => OutViaX(m, d, t, f);
    forall f ensures whole(f) == read(f) + skip(f) + x(f) {
    }
    SumAdd3(m.features, whole, read, skip, x);
    PairForm(m.features, f => ScanOutGrad(m, t, f), f => TScanOut(m, d, t, f), whole);
    PairForm(m.features, f => ScanOutGrad(m, t, f), f => TRead(m, d, t, f), read);
  }

  /** The two ways the row reads x: through the state and through the skip connection. */
  lemma XSplit(m: Block, d: Tangent, t: int)
    ensures Pair(m.features, f => TConv(m, d, t, f), f => XRow(m, t, f)) + Sum(m.features, f => OutViaX(m, d, t, f))
         == Pair(m.features, f => XGrad(m, t, f), f => TConv(m, d, t, f))
  {
    hide ScanOutGrad, Sum, Head, TConv, XRow;
    var whole, row, x := (f: int) => XGrad(m, t, f) * TConv(m, d, t, f), (f: int) => TConv(m, d, t, f) * XRow(m, t, f),
                         (f: int) => OutViaX(m, d, t, f);
    forall f ensures whole(f) == row(f) + x(f) {
    }
    SumAdd(m.features, whole, row, x);
    PairForm(m.features, f => TConv(m, d, t, f), f => XRow(m, t, f), row);
    PairForm(m.features, f => XGrad(m, t, f), f => TConv(m, d, t, f), whole);
  }

  /** The cotangent of the state after the row joins the carried one and the read-out's. */
  lemma FullSplit(m: Block, d: Tangent, t: int)
    ensures Sum2(m.features, m.state, (f, n) => ViaNext(m, d, t, f, n))
         == Pair2(m.features, m.state, (f, n) => StateGrad(m, t + 1, f, n), (f, n) => TState(m, d, t + 1, f, n))
            + Sum2(m.features, m.state, (f, n) => ReadViaState(m, d, t, f, n))
  {
    hide StateGrad, TState, ScanOutGrad, CRot, Sum, Group;
    var whole, read := (f: int, n: int) => ViaNext(m, d, t, f, n), (f: int, n: int) => ReadViaState(m, d, t, f, n);
    var a, b := (f: int, n: int) => StateGrad(m, t + 1, f, n), (f: int, n: int) => TState(m, d, t + 1, f, n);
    var carried := (f: int, n: int) => a(f, n) * b(f, n);
    forall f, n ensures whole(f, n) == carried(f, n) + read(f, n) {
      assert carried(f, n) == StateGrad(m, t + 1, f, n) * TState(m, d, t + 1, f, n);
    }
    Sum2Add(m.features, m.state, whole, carried, read);
  }

  /** The whole scan step of row `t`, reversed. */
  lemma ScanStage(m: Block, d: Tangent, t: nat)
    requires t < m.rows
    ensures Pair(m.features, f => ScanOutGrad(m, t, f), f => TScanOut(m, d, t, f))
            + Pair2(m.features, m.state, (f, n) => StateGrad(m, t + 1, f, n), (f, n) => TState(m, d, t + 1, f, n))
         == Pair2(m.features, m.state, (f, n) => StateGrad(m, t, f, n), (f, n) => TState(m, d, t, f, n))
            + Pair(m.heads, h => DecayGrad(m, t, h), h => TDecay(m, d, t, h))
            + Pair(m.heads, h => ScanDtGrad(m, t, h), h => TDt(m, d, t, h))
            + Pair(m.features, f => XGrad(m, t, f), f => TConv(m, d, t, f))
            + Pair2(m.groups, m.state, (g, n) => BRotGrad(m, t, g, n), (g, n) => TBRot(m, d, t, g, n))
            + Pair2(m.groups, m.state, (g, n) => CRotGrad(m, t, g, n), (g, n) => TCRot(m, d, t, g, n))
            + Pair(m.heads, h => SkipTerm(m, h, t), d.skip)
  {
    hide *;
    OutSplit(m, d, t);
    ReadSum(m, d, t);
    CSum(m, d, t);
    SkipSum(m, d, t);
    FullSplit(m, d, t);
    NextSum(m, d, t);
    StateSum(m, d, t);
    DecaySum(m, d, t);
    DtSum(m, d, t);
    XSum(m, d, t);
    BSum(m, d, t);
    XSplit(m, d, t);
  }
}
