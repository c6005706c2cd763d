/** The linearised forward pass of MambaTangent is the derivative of the forward pass: along every path of inputs and
    parameters each value of MambaModel moves, to first order, by its tangent. */
module MambaSlopes {
  import opened Sums
  import opened Functions
  import opened Slopes
  import opened FunctionSlopes
  import opened MambaModel
  import opened MambaTangent
  import opened MambaPaths

  // ---- blocks of the same layout ----

  /** The same sizes, so the same layout, and the same functions. */
  ghost predicate Sized(m: Block, n: Block) {
    && n.rows == m.rows && n.width == m.width && n.groups == m.groups && n.perGroup == m.perGroup && n.heads == m.heads
    && n.headDim == m.headDim && n.features == m.features && n.state == m.state && n.ranks == m.ranks && n.bc == m.bc
    && n.angles == m.angles && n.fns == m.fns && n.up == m.up
  }

  lemma SameSizes(c: real -> Block, d: Tangent, e: real)
    requires Curve(c, d)
    ensures Sized(c(0.0), c(e))
  {
    assert Alike(c(0.0), c(e));
    hide Valid;
  }

  // ---- projection ----

  ghost function ProjParts(c: real -> Block, t: int, p: int): (f: int -> real -> real)
    ensures forall i {:trigger f(i)} :: f(i) == Times(UAt(c, t, i), InWAt(c, p, i))
  {
    (i: int) => Times(UAt(c, t, i), InWAt(c, p, i))
  }

  lemma ProjForm(m: Block, n: Block, t: int, p: int, f: int -> real)
    requires Sized(m, n) && forall i {:trigger f(i)} :: f(i) == Mul(n.u(t, i), n.inW(p, i))
    ensures Proj(n, t, p) == Sum(m.width, f)
  {
    hide Valid, Sum;
    SumEq(n.width, i => n.u(t, i) * n.inW(p, i), f);
  }

  lemma ProjPartSlope(c: real -> Block, d: Tangent, t: int, p: int, i: int)
    requires Curve(c, d)
    ensures Slope(ProjParts(c, t, p)(i), TProjTerm(c(0.0), d, t, p, i))
  {
    hide Valid, Slope, Curve, ProjParts, UAt, InWAt, Times, Mul, TProjTerm;
    USlope(c, d, t, i);
    InWSlope(c, d, p, i);
    TimesSlope(UAt(c, t, i), d.u(t, i), InWAt(c, p, i), d.inW(p, i));
    TProjForm(c(0.0), d, t, p, i);
  }

  lemma TProjForm(m: Block, d: Tangent, t: int, p: int, i: int)
    ensures TProjTerm(m, d, t, p, i) == Mul(d.u(t, i), m.inW(p, i)) + Mul(m.u(t, i), d.inW(p, i))
  {
    hide Valid;
  }

  lemma ProjSlope(c: real -> Block, d: Tangent, t: int, p: int)
    requires Curve(c, d)
    ensures Slope(ProjAt(c, t, p), TProj(c(0.0), d, t, p))
  {
    hide Valid, Sized, Slope, Curve, ProjAt, ProjParts, Sum, Slice, TProjTerm, Proj, Mul, Times, UAt, InWAt;
    var m := c(0.0);
    var slopes := (i: int) => TProjTerm(m, d, t, p, i);
    forall i ensures Slope(ProjParts(c, t, p)(i), slopes(i)) {
      ProjPartSlope(c, d, t, p, i);
    }
    forall e ensures ProjAt(c, t, p)(e) == Sum(m.width, Slice(ProjParts(c, t, p), e)) {
      SameSizes(c, d, e);
      ProjForm(m, c(e), t, p, Slice(ProjParts(c, t, p), e));
    }
    SlopeSum(m.width, ProjAt(c, t, p), TProj(m, d, t, p), ProjParts(c, t, p), slopes);
  }

  // ---- convolution ----

  lemma TapForm(m: Block, n: Block, s: int, x: int)
    requires Sized(m, n)
    ensures Tap(n, s, x) == if s >= 0 then Proj(n, s, ConvAt(m) + x) else 0.0
  {
    hide Valid, Proj;
  }

  lemma TapSlope(c: real -> Block, d: Tangent, s: int, x: int)
    requires Curve(c, d)
    ensures Slope(TapAt(c, s, x), TTap(c(0.0), d, s, x))
  {
    hide Valid, Sized, Slope, Curve, ProjAt, TapAt, Proj, TProj, Tap, ConvAt;
    var m, p := c(0.0), ConvAt(c(0.0)) + x;
    forall e ensures TapAt(c, s, x)(e) == if s >= 0 then ProjAt(c, s, p)(e) else 0.0 {
      SameSizes(c, d, e);
      TapForm(m, c(e), s, x);
    }
    if s >= 0 {
      ProjSlope(c, d, s, p);
      SlopeEq(ProjAt(c, s, p), TapAt(c, s, x), TProj(m, d, s, p));
    } else {
      SlopeConst(TapAt(c, s, x), 0.0);
    }
  }

  lemma ConvPreForm(m: Block, n: Block, t: int, x: int)
    requires Sized(m, n)
    ensures ConvPre(n, t, x) == n.convB(x) + Mul(Tap(n, t - 2, x), n.convW(x, 0)) + Mul(Tap(n, t - 1, x), n.convW(x, 1))
                                + Mul(Proj(n, t, ConvAt(m) + x), n.convW(x, 2))
  {
    hide Valid, Tap, Proj;
  }

  lemma TConvPreForm(m: Block, d: Tangent, t: int, x: int)
    ensures TConvPre(m, d, t, x)
         == d.convB(x) + (Mul(TTap(m, d, t - 2, x), m.convW(x, 0)) + Mul(Tap(m, t - 2, x), d.convW(x, 0)))
            + (Mul(TTap(m, d, t - 1, x), m.convW(x, 1)) + Mul(Tap(m, t - 1, x), d.convW(x, 1)))
            + (Mul(TProj(m, d, t, ConvAt(m) + x), m.convW(x, 2)) + Mul(Proj(m, t, ConvAt(m) + x), d.convW(x, 2)))
  {
    hide Valid, TTap, Tap, TProj, Proj;
  }

  /** One tap's product. */
  ghost function TapPart(c: real -> Block, t: int, x: int, k: int): real -> real {
    if k == 2 then Times(ProjAt(c, t, ConvAt(c(0.0)) + x), ConvWAt(c, x, 2))
    else Times(TapAt(c, t - 2 + k, x), ConvWAt(c, x, k))
  }

  ghost function TTapPart(m: Block, d: Tangent, t: int, x: int, k: int): real {
    if k == 2 then Mul(TProj(m, d, t, ConvAt(m) + x), m.convW(x, 2)) + Mul(Proj(m, t, ConvAt(m) + x), d.convW(x, 2))
    else Mul(TTap(m, d, t - 2 + k, x), m.convW(x, k)) + Mul(Tap(m, t - 2 + k, x), d.convW(x, k))
  }

  lemma TapPartSlope(c: real -> Block, d: Tangent, t: int, x: int, k: int)
    requires Curve(c, d)
    ensures Slope(TapPart(c, t, x, k), TTapPart(c(0.0), d, t, x, k))
  {
    hide Valid, Slope, Curve, ProjAt, TapAt, ConvWAt, Times, Mul, Proj, TProj, Tap, TTap, ConvAt;
    ConvWSlope(c, d, x, k);
    if k == 2 {
      ProjSlope(c, d, t, ConvAt(c(0.0)) + x);
      TimesSlope(ProjAt(c, t, ConvAt(c(0.0)) + x), TProj(c(0.0), d, t, ConvAt(c(0.0)) + x), ConvWAt(c, x, 2),
                 d.convW(x, 2));
    } else {
      TapSlope(c, d, t - 2 + k, x);
      TimesSlope(TapAt(c, t - 2 + k, x), TTap(c(0.0), d, t - 2 + k, x), ConvWAt(c, x, k), d.convW(x, k));
    }
  }

  lemma TapPartForm(c: real -> Block, t: int, x: int, e: real)
    ensures TapPart(c, t, x, 0)(e) == Mul(Tap(c(e), t - 2, x), c(e).convW(x, 0))
    ensures TapPart(c, t, x, 1)(e) == Mul(Tap(c(e), t - 1, x), c(e).convW(x, 1))
    ensures TapPart(c, t, x, 2)(e) == Mul(Proj(c(e), t, ConvAt(c(0.0)) + x), c(e).convW(x, 2))
  {
    hide Valid, ProjAt, TapAt, ConvWAt, Times, Mul, Proj, Tap, ConvAt;
  }

  lemma ConvPreSlope(c: real -> Block, d: Tangent, t: int, x: int)
    requires Curve(c, d)
    ensures Slope(ConvPreAt(c, t, x), TConvPre(c(0.0), d, t, x))
  {
    hide Valid, Sized, Slope, Curve, ConvPreAt, ConvBAt, Plus, TapPart, TConvPre, ConvPre, Mul, Tap, Proj, ConvAt, TTap,
         TProj;
    var m := c(0.0);
    var p0, p1, p2 := TapPart(c, t, x, 0), TapPart(c, t, x, 1), TapPart(c, t, x, 2);
    var s0, s1, s2 := TTapPart(m, d, t, x, 0), TTapPart(m, d, t, x, 1), TTapPart(m, d, t, x, 2);
    ConvBSlope(c, d, x);
    TapPartSlope(c, d, t, x, 0);
    TapPartSlope(c, d, t, x, 1);
    TapPartSlope(c, d, t, x, 2);
    PlusSlope(ConvBAt(c, x), d.convB(x), p0, s0);
    PlusSlope(Plus(ConvBAt(c, x), p0), d.convB(x) + s0, p1, s1);
    TConvPreForm(m, d, t, x);
    forall e ensures ConvPreAt(c, t, x)(e) == Plus(Plus(ConvBAt(c, x), p0), p1)(e) + p2(e) {
      SameSizes(c, d, e);
      ConvPreForm(m, c(e), t, x);
      TapPartForm(c, t, x, e);
    }
    SlopeAdd(ConvPreAt(c, t, x), TConvPre(m, d, t, x), Plus(Plus(ConvBAt(c, x), p0), p1), d.convB(x) + s0 + s1, p2, s2);
  }

  lemma ConvForm(m: Block, n: Block, t: int, x: int)
    requires Sized(m, n)
    ensures Conv(n, t, x) == Silu(m.fns, ConvPre(n, t, x))
  {
    hide Valid, ConvPre, Silu;
  }

  lemma ConvSlope(c: real -> Block, d: Tangent, t: int, x: int)
    requires Curve(c, d) && Smooth(c(0.0).fns)
    ensures Slope(ConvAlong(c, t, x), TConv(c(0.0), d, t, x))
  {
    hide Valid, Sized, Slope, Curve, Smooth, Grows, ConvAlong, ConvPreAt, ConvPre, Conv, TConvPre, Silu, DSilu;
    var m := c(0.0);
    ConvPreSlope(c, d, t, x);
    forall e ensures ConvAlong(c, t, x)(e) == Silu(m.fns, ConvPreAt(c, t, x)(e)) {
      SameSizes(c, d, e);
      ConvForm(m, c(e), t, x);
    }
    SmoothGrows(m.fns);
    SlopeSilu(m.fns, ConvAlong(c, t, x), TConv(m, d, t, x), ConvPreAt(c, t, x), TConvPre(m, d, t, x));
  }

  // ---- step and decay ----

  lemma DtPreForm(m: Block, n: Block, t: int, h: int)
    requires Sized(m, n)
    ensures DtPre(n, t, h) == Proj(n, t, DtAt(m) + h) + n.dtBias(h)
  {
    hide Valid, Proj;
  }

  lemma DtPreSlope(c: real -> Block, d: Tangent, t: int, h: int)
    requires Curve(c, d)
    ensures Slope(DtPreAt(c, t, h), TDtPre(c(0.0), d, t, h))
  {
    hide Valid, Sized, Slope, Curve, ProjAt, DtPreAt, DtBiasAt, Proj, TProj, DtPre, DtAt;
    var m, p := c(0.0), DtAt(c(0.0)) + h;
    ProjSlope(c, d, t, p);
    DtBiasSlope(c, d, h);
    forall e ensures DtPreAt(c, t, h)(e) == ProjAt(c, t, p)(e) + DtBiasAt(c, h)(e) {
      SameSizes(c, d, e);
      DtPreForm(m, c(e), t, h);
    }
    SlopeAdd(DtPreAt(c, t, h), TDtPre(m, d, t, h), ProjAt(c, t, p), TProj(m, d, t, p), DtBiasAt(c, h), d.dtBias(h));
  }

  lemma DtForm(m: Block, n: Block, t: int, h: int)
    requires Sized(m, n)
    ensures Dt(n, t, h) == Softplus(m.fns, DtPre(n, t, h))
  {
    hide Valid, DtPre, Softplus;
  }

  lemma DtSlope(c: real -> Block, d: Tangent, t: int, h: int)
    requires Curve(c, d) && Smooth(c(0.0).fns)
    ensures Slope(DtAlong(c, t, h), TDt(c(0.0), d, t, h))
  {
    hide Valid, Sized, Slope, Curve, Smooth, DtAlong, DtPreAt, DtPre, Dt, TDtPre, Softplus, Sigmoid;
    var m := c(0.0);
    DtPreSlope(c, d, t, h);
    forall e ensures DtAlong(c, t, h)(e) == Softplus(m.fns, DtPreAt(c, t, h)(e)) {
      SameSizes(c, d, e);
      DtForm(m, c(e), t, h);
    }
    SlopeSoftplus(m.fns, DtAlong(c, t, h), TDt(m, d, t, h), DtPreAt(c, t, h), TDtPre(m, d, t, h));
  }

  /** The decay without its clamp, and its tangent. */
  ghost function SoftplusAt(c: real -> Block, t: int, p: int): (f: real -> real)
    ensures forall e {:trigger f(e)} :: f(e) == Softplus(c(0.0).fns, ProjAt(c, t, p)(e))
  {
    hide Softplus;
    (e: real) => Softplus(c(0.0).fns, ProjAt(c, t, p)(e))
  }

  ghost function Free(c: real -> Block, t: int, p: int): real -> real { Opposite(SoftplusAt(c, t, p)) }

  ghost function TFree(m: Block, d: Tangent, t: int, p: int): real {
    -Mul(Sigmoid(m.fns, Proj(m, t, p)), TProj(m, d, t, p))
  }

  lemma FreeSlope(c: real -> Block, d: Tangent, t: int, p: int)
    requires Curve(c, d) && Smooth(c(0.0).fns)
    ensures Slope(Free(c, t, p), TFree(c(0.0), d, t, p))
  {
    hide Valid, Slope, Curve, Smooth, ProjAt, Proj, TProj, Softplus, Sigmoid, SoftplusAt, Mul, Opposite;
    var m := c(0.0);
    var a := Mul(Sigmoid(m.fns, Proj(m, t, p)), TProj(m, d, t, p));
    ProjSlope(c, d, t, p);
    SlopeSoftplus(m.fns, SoftplusAt(c, t, p), a, ProjAt(c, t, p), TProj(m, d, t, p));
    SlopeNeg(Free(c, t, p), TFree(m, d, t, p), SoftplusAt(c, t, p), a);
  }

  lemma DecayForm(m: Block, n: Block, t: int, h: int)
    requires Sized(m, n)
    ensures Decay(n, t, h) == Min(-Softplus(m.fns, Proj(n, t, DecayAt(m) + h)), -0.01)
  {
    hide Valid, Proj, Softplus;
  }

  lemma DecayPath(c: real -> Block, d: Tangent, t: int, h: int, e: real)
    requires Curve(c, d)
    ensures DecayAlong(c, t, h)(e) == Min(Free(c, t, DecayAt(c(0.0)) + h)(e), -0.01)
  {
    hide Valid, Sized, Curve, DecayAlong, Decay, SoftplusAt, ProjAt, Softplus, Opposite, Proj, DecayAt, Min;
    SameSizes(c, d, e);
    DecayForm(c(0.0), c(e), t, h);
  }

  lemma TDecayForm(m: Block, d: Tangent, t: int, h: int)
    ensures TDecay(m, d, t, h)
         == if -Softplus(m.fns, Proj(m, t, DecayAt(m) + h)) < -0.01 then TFree(m, d, t, DecayAt(m) + h) else 0.0
  {
    hide Valid, Proj, TProj, Softplus, Sigmoid;
  }

  /** Where the clamp is at its corner. */
  ghost predicate Corner(m: Block, t: int, h: int) { -Softplus(m.fns, Proj(m, t, DecayAt(m) + h)) == -0.01 }

  /** Off the corner, or with a projection that stands still to first order. */
  ghost predicate Settled(m: Block, d: Tangent, t: int, h: int) {
    Corner(m, t, h) ==> TProj(m, d, t, DecayAt(m) + h) == 0.0
  }

  /** The guarded tangent is the decay's derivative exactly when it is settled. */
  lemma DecayExactly(c: real -> Block, d: Tangent, t: int, h: int)
    requires Curve(c, d) && Smooth(c(0.0).fns)
    ensures Slope(DecayAlong(c, t, h), TDecay(c(0.0), d, t, h)) <==> Settled(c(0.0), d, t, h)
  {
    hide Valid, Slope, Curve, Smooth, DecayAlong, TDecay, TProj, Corner;
    if Corner(c(0.0), t, h) {
      DecayCorner(c, d, t, h);
    } else {
      DecaySlope(c, d, t, h);
    }
  }

  /** Away from its corner the clamp passes the tangent on, or holds it back. */
  lemma DecaySlope(c: real -> Block, d: Tangent, t: int, h: int)
    requires Curve(c, d) && Smooth(c(0.0).fns) && !Corner(c(0.0), t, h)
    ensures Slope(DecayAlong(c, t, h), TDecay(c(0.0), d, t, h))
  {
    hide Valid, Slope, Curve, Smooth, DecayAlong, ProjAt, Proj, SoftplusAt, Softplus, TDecay, TFree, DecayAt, Opposite,
         Min;
    var m, p := c(0.0), DecayAt(c(0.0)) + h;
    FreeSlope(c, d, t, p);
    forall e ensures DecayAlong(c, t, h)(e) == Min(Free(c, t, p)(e), -0.01) {
      DecayPath(c, d, t, h, e);
    }
    TDecayForm(m, d, t, h);
    if Free(c, t, p)(0.0) < -0.01 {
      SlopeMinBelow(DecayAlong(c, t, h), Free(c, t, p), TFree(m, d, t, p), -0.01);
    } else {
      SlopeMinAbove(DecayAlong(c, t, h), Free(c, t, p), TFree(m, d, t, p), -0.01);
    }
  }

  /** At the corner the tangent is the slope exactly when the unclamped decay does not move. */
  lemma DecayCorner(c: real -> Block, d: Tangent, t: int, h: int)
    requires Curve(c, d) && Smooth(c(0.0).fns) && Corner(c(0.0), t, h)
    ensures Slope(DecayAlong(c, t, h), TDecay(c(0.0), d, t, h)) <==> TProj(c(0.0), d, t, DecayAt(c(0.0)) + h) == 0.0
  {
    hide Valid, Slope, Curve, Smooth, DecayAlong, ProjAt, Proj, TProj, SoftplusAt, Softplus, TDecay, TFree, DecayAt,
         Opposite, Min;
    var m, p := c(0.0), DecayAt(c(0.0)) + h;
    FreeSlope(c, d, t, p);
    forall e ensures DecayAlong(c, t, h)(e) == Min(Free(c, t, p)(e), -0.01) {
      DecayPath(c, d, t, h, e);
    }
    TDecayForm(m, d, t, h);
    SlopeMinCorner(DecayAlong(c, t, h), Free(c, t, p), TFree(m, d, t, p), -0.01);
    StillFree(m, d, t, p);
  }

  lemma StillFree(m: Block, d: Tangent, t: int, p: int)
    ensures TFree(m, d, t, p) == 0.0 <==> TProj(m, d, t, p) == 0.0
  {
    hide Valid, Proj, TProj;
    assert Sigmoid(m.fns, Proj(m, t, p)) > 0.0;
  }

  // ---- angles ----

  lemma AngleForm(m: Block, n: Block, t: int, h: int, j: int)
    requires Sized(m, n) && t > 0
    ensures Angle(n, t, h, j) == Angle(n, t - 1, h, j) + Mul(Proj(n, t - 1, AngleAt(m) + j), Dt(n, t - 1, h))
  {
    hide Valid, Proj, Dt;
  }

  lemma TAngleForm(m: Block, d: Tangent, t: int, h: int, j: int)
    requires t > 0
    ensures TAngle(m, d, t, h, j)
         == TAngle(m, d, t - 1, h, j)
            + (Mul(TProj(m, d, t - 1, AngleAt(m) + j), Dt(m, t - 1, h))
               + Mul(Proj(m, t - 1, AngleAt(m) + j), TDt(m, d, t - 1, h)))
  {
    hide Valid, Proj, Dt, TProj, TDt;
  }

  lemma StepSlope(c: real -> Block, d: Tangent, t: int, h: int, p: int)
    requires Curve(c, d) && Smooth(c(0.0).fns)
    ensures Slope(Times(ProjAt(c, t, p), DtAlong(c, t, h)),
                  Mul(TProj(c(0.0), d, t, p), Dt(c(0.0), t, h)) + Mul(Proj(c(0.0), t, p), TDt(c(0.0), d, t, h)))
  {
    hide Valid, Slope, Curve, Smooth, ProjAt, DtAlong, Proj, TProj, Dt, TDt, Times, Mul;
    ProjSlope(c, d, t, p);
    DtSlope(c, d, t, h);
    TimesSlope(ProjAt(c, t, p), TProj(c(0.0), d, t, p), DtAlong(c, t, h), TDt(c(0.0), d, t, h));
  }

  lemma {:induction false} AngleSlope(c: real -> Block, d: Tangent, t: int, h: int, j: int)
    requires Curve(c, d) && Smooth(c(0.0).fns)
    ensures Slope(AngleAlong(c, t, h, j), TAngle(c(0.0), d, t, h, j))
    decreases t
  {
    hide Valid, Sized, Slope, Curve, Smooth, AngleAlong, ProjAt, DtAlong, Proj, TProj, Dt, TDt, Times, Mul, AngleAt;
    if t <= 0 {
      SlopeConst(AngleAlong(c, t, h, j), 0.0);
    } else {
      hide Angle, TAngle;
      var m, p := c(0.0), AngleAt(c(0.0)) + j;
      AngleSlope(c, d, t - 1, h, j);
      StepSlope(c, d, t - 1, h, p);
      forall e ensures AngleAlong(c, t, h, j)(e)
                    == AngleAlong(c, t - 1, h, j)(e) + Times(ProjAt(c, t - 1, p), DtAlong(c, t - 1, h))(e) {
        SameSizes(c, d, e);
        AngleForm(m, c(e), t, h, j);
      }
      TAngleForm(m, d, t, h, j);
      SlopeAdd(AngleAlong(c, t, h, j), TAngle(m, d, t, h, j), AngleAlong(c, t - 1, h, j), TAngle(m, d, t - 1, h, j),
               Times(ProjAt(c, t - 1, p), DtAlong(c, t - 1, h)),
               Mul(TProj(m, d, t - 1, p), Dt(m, t - 1, h)) + Mul(Proj(m, t - 1, p), TDt(m, d, t - 1, h)));
    }
  }
}
