/** Derivatives of the scan, the gate and the output of the Mamba3 block. */
module MambaScanSlopes {
  import opened Sums
  import opened Functions
  import opened Slopes
  import opened FunctionSlopes
  import opened MambaModel
  import opened MambaTangent
  import opened MambaPaths
  import opened MambaSlopes
  import opened MambaRotationSlopes

  /** Every decay of the run is off the corner of its clamp, or its projection stands still. */
  ghost predicate AllSettled(m: Block, d: Tangent) {
    forall t, h {:trigger Settled(m, d, t, h)} :: 0 <= t < m.rows && 0 <= h < m.heads ==> Settled(m, d, t, h)
  }

  // ---- the state ----

  lemma KeepForm(m: Block, n: Block, d: Tangent, t: int, h: int)
    requires Sized(m, n)
    ensures Keep(n, t, h) == m.fns.exp(Mul(Decay(n, t, h), Dt(n, t, h)))
    ensures TKeep(m, d, t, h)
         == Mul(Keep(m, t, h), Mul(TDecay(m, d, t, h), Dt(m, t, h)) + Mul(Decay(m, t, h), TDt(m, d, t, h)))
  {
    hide Valid, Decay, Dt, TDecay, TDt;
  }

  lemma KeepSlope(c: real -> Block, d: Tangent, t: int, h: int)
    requires Curve(c, d) && Smooth(c(0.0).fns) && Settled(c(0.0), d, t, h)
    ensures Slope(KeepAt(c, t, h), TKeep(c(0.0), d, t, h))
  {
    hide Valid, Sized, Slope, Curve, Smooth, Settled, KeepAt, Keep, TKeep, DecayAlong, Decay, TDecay, DtAlong, Dt, TDt,
         Times, Mul;
    var m := c(0.0);
    var power, a := Times(DecayAlong(c, t, h), DtAlong(c, t, h)),
        Mul(TDecay(m, d, t, h), Dt(m, t, h)) + Mul(Decay(m, t, h), TDt(m, d, t, h));
    DecayExactly(c, d, t, h);
    DtSlope(c, d, t, h);
    SlopeMul(power, a, DecayAlong(c, t, h), TDecay(m, d, t, h), DtAlong(c, t, h), TDt(m, d, t, h));
    forall e ensures KeepAt(c, t, h)(e) == m.fns.exp(power(e)) {
      SameSizes(c, d, e);
      KeepForm(m, c(e), d, t, h);
    }
    SameSizes(c, d, 0.0);
    KeepForm(m, m, d, t, h);
    SlopeExp(m.fns, KeepAt(c, t, h), TKeep(m, d, t, h), power, a);
  }

  lemma StateForm(m: Block, n: Block, t: int, f: int, x: int, h: int, g: int)
    requires Sized(m, n) && t > 0 && h == Head(m, f) && g == Group(m, f)
    ensures State(n, t, f, x)
         == Mul(Keep(n, t - 1, h), State(n, t - 1, f, x)) + Mul(Conv(n, t - 1, f), BRot(n, t - 1, g, x))
  {
    hide Valid, Keep, Conv, BRot;
  }

  lemma TStateForm(m: Block, d: Tangent, t: int, f: int, x: int, h: int, g: int)
    requires t > 0 && h == Head(m, f) && g == Group(m, f)
    ensures TState(m, d, t, f, x)
         == Mul(TKeep(m, d, t - 1, h), State(m, t - 1, f, x)) + Mul(Keep(m, t - 1, h), TState(m, d, t - 1, f, x))
            + (Mul(TConv(m, d, t - 1, f), BRot(m, t - 1, g, x)) + Mul(Conv(m, t - 1, f), TBRot(m, d, t - 1, g, x)))
  {
    hide Valid, Keep, Conv, BRot, TKeep, TConv, TBRot, Head, Group;
  }

  lemma BRotSlope(c: real -> Block, d: Tangent, t: int, g: int, n: int)
    requires Curve(c, d) && Smooth(c(0.0).fns)
    ensures Slope(BRotAt(c, t, g, n), TBRot(c(0.0), d, t, g, n))
  {
    hide Valid, Slope, Curve, Smooth, BRotAt, TBRot;
    RotSlope(c, d, t, true, g, n);
  }

  lemma CRotSlope(c: real -> Block, d: Tangent, t: int, g: int, n: int)
    requires Curve(c, d) && Smooth(c(0.0).fns)
    ensures Slope(CRotAt(c, t, g, n), TCRot(c(0.0), d, t, g, n))
  {
    hide Valid, Slope, Curve, Smooth, CRotAt, TCRot;
    RotSlope(c, d, t, false, g, n);
  }

  /** What row `t` adds to the state. */
  lemma DriveSlope(c: real -> Block, d: Tangent, t: int, f: int, n: int, g: int, s: real)
    requires Curve(c, d) && Smooth(c(0.0).fns)
    requires s == Mul(TConv(c(0.0), d, t, f), BRot(c(0.0), t, g, n))
             + Mul(Conv(c(0.0), t, f), TBRot(c(0.0), d, t, g, n))
    ensures Slope(Times(ConvAlong(c, t, f), BRotAt(c, t, g, n)), s)
  {
    hide Valid, Slope, Curve, Smooth, ConvAlong, Conv, TConv, BRotAt, BRot, TBRot, Times, Mul;
    ConvSlope(c, d, t, f);
    BRotSlope(c, d, t, g, n);
    SlopeMul(Times(ConvAlong(c, t, f), BRotAt(c, t, g, n)), s, ConvAlong(c, t, f), TConv(c(0.0), d, t, f),
             BRotAt(c, t, g, n), TBRot(c(0.0), d, t, g, n));
  }

  /** What it keeps of the state. */
  lemma KeptSlope(c: real -> Block, d: Tangent, t: int, f: int, n: int, h: int, s: real)
    requires Curve(c, d) && Smooth(c(0.0).fns) && Settled(c(0.0), d, t, h)
    requires Slope(StateAt(c, t, f, n), TState(c(0.0), d, t, f, n))
    requires s == Mul(TKeep(c(0.0), d, t, h), State(c(0.0), t, f, n))
             + Mul(Keep(c(0.0), t, h), TState(c(0.0), d, t, f, n))
    ensures Slope(Times(KeepAt(c, t, h), StateAt(c, t, f, n)), s)
  {
    hide Valid, Slope, Curve, Smooth, Settled, KeepAt, Keep, TKeep, StateAt, State, TState, Times, Mul;
    KeepSlope(c, d, t, h);
    SlopeMul(Times(KeepAt(c, t, h), StateAt(c, t, f, n)), s, KeepAt(c, t, h), TKeep(c(0.0), d, t, h),
             StateAt(c, t, f, n), TState(c(0.0), d, t, f, n));
  }

  lemma StatePath(c: real -> Block, d: Tangent, t: int, f: int, n: int, h: int, g: int, e: real)
    requires Curve(c, d) && t > 0 && h == Head(c(0.0), f) && g == Group(c(0.0), f)
    ensures StateAt(c, t, f, n)(e)
         == Times(KeepAt(c, t - 1, h), StateAt(c, t - 1, f, n))(e)
            + Times(ConvAlong(c, t - 1, f), BRotAt(c, t - 1, g, n))(e)
  {
    hide Valid, Sized, Curve, StateAt, State, KeepAt, Keep, ConvAlong, Conv, BRotAt, BRot, Times, Mul, Head, Group;
    SameSizes(c, d, e);
    StateForm(c(0.0), c(e), t, f, n, h, g);
  }

  lemma {:induction false} StateSlope(c: real -> Block, d: Tangent, t: int, f: int, n: int)
    requires Curve(c, d) && Smooth(c(0.0).fns) && AllSettled(c(0.0), d) && t <= c(0.0).rows && 0 <= f < c(0.0).features
    ensures Slope(StateAt(c, t, f, n), TState(c(0.0), d, t, f, n))
    decreases t
  {
    hide Valid, Slope, Curve, Smooth, Settled, StateAt, KeepAt, Keep, TKeep, ConvAlong, Conv, TConv, BRotAt, BRot,
         TBRot, Times, Mul;
    if t <= 0 {
      hide Head, Group, AllSettled, H0At;
      H0Slope(c, d, f, n);
      SlopeEq(H0At(c, f, n), StateAt(c, t, f, n), d.h0(f, n));
    } else {
      hide State, TState;
      var m, h, g := c(0.0), Head(c(0.0), f), Group(c(0.0), f);
      assert Settled(m, d, t - 1, h);
      hide Head, Group;
      StateSlope(c, d, t - 1, f, n);
      var a := Mul(TKeep(m, d, t - 1, h), State(m, t - 1, f, n)) + Mul(Keep(m, t - 1, h), TState(m, d, t - 1, f, n));
      var b := Mul(TConv(m, d, t - 1, f), BRot(m, t - 1, g, n)) + Mul(Conv(m, t - 1, f), TBRot(m, d, t - 1, g, n));
      KeptSlope(c, d, t - 1, f, n, h, a);
      DriveSlope(c, d, t - 1, f, n, g, b);
      forall e ensures StateAt(c, t, f, n)(e) == Times(KeepAt(c, t - 1, h), StateAt(c, t - 1, f, n))(e)
                                                 + Times(ConvAlong(c, t - 1, f), BRotAt(c, t - 1, g, n))(e) {
        StatePath(c, d, t, f, n, h, g, e);
      }
      TStateForm(m, d, t, f, n, h, g);
      SlopeAdd(StateAt(c, t, f, n), TState(m, d, t, f, n), Times(KeepAt(c, t - 1, h), StateAt(c, t - 1, f, n)), a,
               Times(ConvAlong(c, t - 1, f), BRotAt(c, t - 1, g, n)), b);
    }
  }

  // ---- readout, gate and output ----

  ghost function ReadParts(c: real -> Block, t: int, f: int, g: int): (v: int -> real -> real)
    ensures forall n {:trigger v(n)} :: v(n) == Times(StateAt(c, t + 1, f, n), CRotAt(c, t, g, n))
  {
    (n: int) => Times(StateAt(c, t + 1, f, n), CRotAt(c, t, g, n))
  }

  lemma ReadPartSlope(c: real -> Block, d: Tangent, t: int, f: int, g: int, n: int)
    requires Curve(c, d) && Smooth(c(0.0).fns) && AllSettled(c(0.0), d) && t < c(0.0).rows && 0 <= f < c(0.0).features
    requires g == Group(c(0.0), f)
    ensures Slope(Times(StateAt(c, t + 1, f, n), CRotAt(c, t, g, n)), TReadTerm(c(0.0), d, t, f, n))
  {
    hide Valid, Slope, Curve, Smooth, AllSettled, StateAt, State, TState, CRotAt, CRot, TCRot, Times, Mul, TReadTerm,
         Group;
    var m := c(0.0);
    StateSlope(c, d, t + 1, f, n);
    CRotSlope(c, d, t, g, n);
    TReadForm(m, d, t, f, n, g);
    SlopeMul(Times(StateAt(c, t + 1, f, n), CRotAt(c, t, g, n)), TReadTerm(m, d, t, f, n), StateAt(c, t + 1, f, n),
             TState(m, d, t + 1, f, n), CRotAt(c, t, g, n), TCRot(m, d, t, g, n));
  }

  lemma TReadForm(m: Block, d: Tangent, t: int, f: int, n: int, g: int)
    requires g == Group(m, f)
    ensures TReadTerm(m, d, t, f, n)
         == Mul(TState(m, d, t + 1, f, n), CRot(m, t, g, n)) + Mul(State(m, t + 1, f, n), TCRot(m, d, t, g, n))
  {
    hide Valid, State, TState, CRot, TCRot, Group;
  }

  lemma ReadSlope(c: real -> Block, d: Tangent, t: int, f: int, g: int)
    requires Curve(c, d) && Smooth(c(0.0).fns) && AllSettled(c(0.0), d) && t < c(0.0).rows && 0 <= f < c(0.0).features
    requires g == Group(c(0.0), f)
    ensures Slope(Partial(c(0.0).state, ReadParts(c, t, f, g)), TRead(c(0.0), d, t, f))
  {
    hide Valid, Slope, Curve, Smooth, AllSettled, StateAt, CRotAt, Times, TReadTerm, Group, ReadParts, Partial, Sum;
    var m := c(0.0);
    var slopes := (n: int) => TReadTerm(m, d, t, f, n);
    forall n ensures Slope(ReadParts(c, t, f, g)(n), slopes(n)) {
      ReadPartSlope(c, d, t, f, g, n);
    }
    SlopeSum(m.state, Partial(m.state, ReadParts(c, t, f, g)), TRead(m, d, t, f), ReadParts(c, t, f, g), slopes);
  }

  lemma ScanOutForm(m: Block, n: Block, t: int, f: int, h: int, g: int, products: int -> real)
    requires Sized(m, n) && h == Head(m, f) && g == Group(m, f)
    requires forall x {:trigger products(x)} :: products(x) == Mul(State(n, t + 1, f, x), CRot(n, t, g, x))
    ensures ScanOut(n, t, f) == Sum(m.state, products) + Mul(n.skip(h), Conv(n, t, f))
  {
    hide Valid, Sum, State, CRot, Conv;
    SumEq(m.state, x => State(n, t + 1, f, x) * CRot(n, t, Group(n, f), x), products);
  }

  lemma ScanOutPath(c: real -> Block, d: Tangent, t: int, f: int, h: int, g: int, e: real)
    requires Curve(c, d) && h == Head(c(0.0), f) && g == Group(c(0.0), f)
    ensures ScanOutAt(c, t, f)(e)
         == Partial(c(0.0).state, ReadParts(c, t, f, g))(e) + Times(SkipAt(c, h), ConvAlong(c, t, f))(e)
  {
    hide Valid, Sized, Curve, ScanOutAt, ScanOut, StateAt, State, CRotAt, CRot, ReadParts, Partial, Slice, Sum, SkipAt,
         ConvAlong, Conv, Times, Mul, Head, Group;
    SameSizes(c, d, e);
    ScanOutForm(c(0.0), c(e), t, f, h, g, Slice(ReadParts(c, t, f, g), e));
  }

  lemma TScanOutForm(m: Block, d: Tangent, t: int, f: int, h: int)
    requires h == Head(m, f)
    ensures TScanOut(m, d, t, f)
         == TRead(m, d, t, f) + (Mul(d.skip(h), Conv(m, t, f)) + Mul(m.skip(h), TConv(m, d, t, f)))
  {
    hide Valid, TRead, Conv, TConv, Head;
  }

  lemma ScanOutSlope(c: real -> Block, d: Tangent, t: int, f: int)
    requires Curve(c, d) && Smooth(c(0.0).fns) && AllSettled(c(0.0), d) && t < c(0.0).rows && 0 <= f < c(0.0).features
    ensures Slope(ScanOutAt(c, t, f), TScanOut(c(0.0), d, t, f))
  {
    hide Valid, Slope, Curve, Smooth, AllSettled, ScanOutAt, ReadParts, Partial, SkipAt, ConvAlong, Conv, TConv, TRead,
         TScanOut, Times, Mul, Head, Group;
    var m, h, g := c(0.0), Head(c(0.0), f), Group(c(0.0), f);
    var b := Mul(d.skip(h), Conv(m, t, f)) + Mul(m.skip(h), TConv(m, d, t, f));
    ReadSlope(c, d, t, f, g);
    SkipSlope(c, d, h);
    ConvSlope(c, d, t, f);
    SlopeMul(Times(SkipAt(c, h), ConvAlong(c, t, f)), b, SkipAt(c, h), d.skip(h), ConvAlong(c, t, f),
             TConv(m, d, t, f));
    forall e ensures ScanOutAt(c, t, f)(e)
                  == Partial(m.state, ReadParts(c, t, f, g))(e) + Times(SkipAt(c, h), ConvAlong(c, t, f))(e) {
      ScanOutPath(c, d, t, f, h, g, e);
    }
    TScanOutForm(m, d, t, f, h);
    SlopeAdd(ScanOutAt(c, t, f), TScanOut(m, d, t, f), Partial(m.state, ReadParts(c, t, f, g)), TRead(m, d, t, f),
             Times(SkipAt(c, h), ConvAlong(c, t, f)), b);
  }

  lemma GatedForm(m: Block, n: Block, t: int, f: int)
    requires Sized(m, n)
    ensures Gated(n, t, f) == Mul(ScanOut(n, t, f), Silu(m.fns, Proj(n, t, f)))
  {
    hide Valid, ScanOut, Proj, Sigmoid;
  }

  lemma TGatedForm(m: Block, d: Tangent, t: int, f: int)
    ensures TGated(m, d, t, f) == Mul(TScanOut(m, d, t, f), Silu(m.fns, Proj(m, t, f)))
                                  + Mul(ScanOut(m, t, f), Mul(DSilu(m.fns, Proj(m, t, f)), TProj(m, d, t, f)))
  {
    hide Valid, ScanOut, TScanOut, Proj, TProj, Silu, DSilu;
  }

  lemma GatedSlope(c: real -> Block, d: Tangent, t: int, f: int)
    requires Curve(c, d) && Smooth(c(0.0).fns) && AllSettled(c(0.0), d) && t < c(0.0).rows && 0 <= f < c(0.0).features
    ensures Slope(GatedAt(c, t, f), TGated(c(0.0), d, t, f))
  {
    hide Valid, Sized, Slope, Curve, Smooth, Grows, AllSettled, GatedAt, Gated, TGated, ScanOutAt, ScanOut, TScanOut,
         ProjAt, Proj, TProj, Silu, DSilu, SiluAfter, Mul;
    var m := c(0.0);
    var gate, b := SiluAfter(m.fns, ProjAt(c, t, f)), Mul(DSilu(m.fns, Proj(m, t, f)), TProj(m, d, t, f));
    ScanOutSlope(c, d, t, f);
    ProjSlope(c, d, t, f);
    SmoothGrows(m.fns);
    SlopeSilu(m.fns, gate, b, ProjAt(c, t, f), TProj(m, d, t, f));
    forall e ensures GatedAt(c, t, f)(e) == Mul(ScanOutAt(c, t, f)(e), gate(e)) {
      SameSizes(c, d, e);
      GatedForm(m, c(e), t, f);
    }
    TGatedForm(m, d, t, f);
    SlopeMul(GatedAt(c, t, f), TGated(m, d, t, f), ScanOutAt(c, t, f), TScanOut(m, d, t, f), gate, b);
  }

  ghost function OutParts(c: real -> Block, t: int, o: int): (v: int -> real -> real)
    ensures forall f {:trigger v(f)} :: v(f) == Times(GatedAt(c, t, f), OutWAt(c, o, f))
  {
    (f: int) => Times(GatedAt(c, t, f), OutWAt(c, o, f))
  }

  lemma TOutTermForm(m: Block, d: Tangent, t: int, o: int, f: int)
    ensures TOutTerm(m, d, t, o, f) == Mul(TGated(m, d, t, f), m.outW(o, f)) + Mul(Gated(m, t, f), d.outW(o, f))
  {
    hide Valid, Gated, TGated;
  }

  lemma OutPartSlope(c: real -> Block, d: Tangent, t: int, o: int, f: int)
    requires Curve(c, d) && Smooth(c(0.0).fns) && AllSettled(c(0.0), d) && t < c(0.0).rows && 0 <= f < c(0.0).features
    ensures Slope(Times(GatedAt(c, t, f), OutWAt(c, o, f)), TOutTerm(c(0.0), d, t, o, f))
  {
    hide Valid, Slope, Curve, Smooth, AllSettled, GatedAt, Gated, TGated, OutWAt, Times, Mul, TOutTerm;
    var m := c(0.0);
    GatedSlope(c, d, t, f);
    OutWSlope(c, d, o, f);
    TOutTermForm(m, d, t, o, f);
    SlopeMul(Times(GatedAt(c, t, f), OutWAt(c, o, f)), TOutTerm(m, d, t, o, f), GatedAt(c, t, f), TGated(m, d, t, f),
             OutWAt(c, o, f), d.outW(o, f));
  }

  lemma OutForm(m: Block, n: Block, t: int, o: int, products: int -> real)
    requires Sized(m, n)
    requires forall f {:trigger products(f)} :: products(f) == Mul(Gated(n, t, f), n.outW(o, f))
    ensures Out(n, t, o) == Sum(m.features, products)
  {
    hide Valid, Sum, Gated;
    SumEq(m.features, f => Gated(n, t, f) * n.outW(o, f), products);
  }

  /** Every output of the block moves, to first order, by its tangent: along any path of the hidden rows, the parameters
      and the initial state. */
  lemma OutSlope(c: real -> Block, d: Tangent, t: int, o: int)
    requires Curve(c, d) && Smooth(c(0.0).fns) && AllSettled(c(0.0), d) && t < c(0.0).rows
    ensures Slope(OutAt(c, t, o), TOut(c(0.0), d, t, o))
  {
    hide Valid, Sized, Slope, Curve, Smooth, AllSettled, GatedAt, Gated, OutWAt, OutAt, Out, OutParts, Times, Mul,
         TOutTerm, Sum, Slice;
    var m := c(0.0);
    var slopes := (f: int) => TOutTerm(m, d, t, o, f);
    forall f | 0 <= f < m.features ensures Slope(OutParts(c, t, o)(f), slopes(f)) {
      OutPartSlope(c, d, t, o, f);
    }
    forall e ensures OutAt(c, t, o)(e) == Sum(m.features, Slice(OutParts(c, t, o), e)) {
      SameSizes(c, d, e);
      OutForm(m, c(e), t, o, Slice(OutParts(c, t, o), e));
    }
    SlopeSum(m.features, OutAt(c, t, o), TOut(m, d, t, o), OutParts(c, t, o), slopes);
  }
}
