/** The linearised M2RNN block is the block's derivative, and its reverse sweep leaves the derivative of the loss. */
module RnnBlockSlopes {
  import opened Sums
  import opened Functions
  import opened Slopes
  import opened FunctionSlopes
  import opened RingHistory
  import opened ProjectionSegments
  import opened RnnModel
  import opened RnnBlockModel
  import opened RnnBlockGradient
  import opened RnnBlockPaths
  import G = RnnGradient
  import P = RnnPaths
  import S = RnnSlopes

  /** The same sizes, so the same layout, and the same functions and history. */
  ghost predicate Sized(b: Block, n: Block) {
    && n.rows == b.rows && n.width == b.width && n.heads == b.heads && n.keys == b.keys && n.vals == b.vals
    && n.qkHeads == b.qkHeads && n.qkShare == b.qkShare && n.vHeads == b.vHeads && n.vShare == b.vShare
    && n.fHeads == b.fHeads && n.fShare == b.fShare && n.wHeads == b.wHeads && n.wShare == b.wShare && n.fns == b.fns
    && n.history == b.history && n.up == b.up
  }

  lemma SameSizes(c: real -> Block, d: Moves, e: real)
    requires Curve(c, d)
    ensures Sized(c(0.0), c(e))
  {
    assert Alike(c(0.0), c(e));
    hide Sound;
  }

  // ---- projection and convolution ----

  ghost function ProjParts(c: real -> Block, t: int, p: int): (f: int -> real -> real)
    ensures forall i {:trigger f(i)} :: f(i) == Times(UAt(c, t, i), InWAt(c, p, i))
  {
    (i: int) => Times(UAt(c, t, i), InWAt(c, p, i))
  }

  lemma ProjForm(b: Block, n: Block, t: int, p: int, f: int -> real)
    requires Sized(b, n) && forall i {:trigger f(i)} :: f(i) == Mul(n.u(t, i), n.inW(p, i))
    ensures Proj(n, t, p) == Sum(b.width, f)
  {
    hide Sound, Sum, Mul;
    SumEq(n.width, i => Mul(n.u(t, i), n.inW(p, i)), f);
  }

  lemma ProjSlope(c: real -> Block, d: Moves, t: int, p: int)
    requires Curve(c, d)
    ensures Slope(ProjAt(c, t, p), TProj(c(0.0), d, t, p))
  {
    hide Sound, Sized, Slope, Curve, ProjAt, Proj, ProjParts, UAt, InWAt, Sum, Slice, Mul, Times;
    var b := c(0.0);
    var slopes := (i: int) => MoveTerm(In(b, d), t, p, i);
    forall i ensures Slope(ProjParts(c, t, p)(i), slopes(i)) {
      USlope(c, d, t, i);
      InWSlope(c, d, p, i);
      SlopeMul(ProjParts(c, t, p)(i), slopes(i), UAt(c, t, i), d.u(t, i), InWAt(c, p, i), d.inW(p, i));
    }
    forall e ensures ProjAt(c, t, p)(e) == Sum(b.width, Slice(ProjParts(c, t, p), e)) {
      SameSizes(c, d, e);
      ProjForm(b, c(e), t, p, Slice(ProjParts(c, t, p), e));
    }
    SlopeSum(b.width, ProjAt(c, t, p), TProj(b, d, t, p), ProjParts(c, t, p), slopes);
  }

  lemma TapForm(b: Block, n: Block, t: int, k: int, x: int, s: int)
    requires Sized(b, n) && s == t - TAPS + k
    ensures Tap(n, t, k, x) == if s >= 0 then Proj(n, s, x) else b.history(t + k, x)
  {
    hide Sound, Proj;
  }

  lemma TapSlope(c: real -> Block, d: Moves, t: int, k: int, x: int, s: int)
    requires Curve(c, d) && s == t - TAPS + k
    ensures Slope(TapAt(c, t, k, x), TTap(c(0.0), d, t, k, x))
  {
    hide Sound, Sized, Slope, Curve, ProjAt, Proj, TProj, TapAt, Tap;
    var b := c(0.0);
    forall e ensures TapAt(c, t, k, x)(e) == if s >= 0 then ProjAt(c, s, x)(e) else b.history(t + k, x) {
      SameSizes(c, d, e);
      TapForm(b, c(e), t, k, x, s);
    }
    if s >= 0 {
      ProjSlope(c, d, s, x);
      SlopeEq(ProjAt(c, s, x), TapAt(c, t, k, x), TProj(b, d, s, x));
    } else {
      SlopeConst(TapAt(c, t, k, x), b.history(t + k, x));
    }
  }

  ghost function TapParts(c: real -> Block, t: int, x: int): (f: int -> real -> real)
    ensures forall k {:trigger f(k)} :: f(k) == Times(TapAt(c, t, k, x), ConvWAt(c, x, k))
  {
    (k: int) => Times(TapAt(c, t, k, x), ConvWAt(c, x, k))
  }

  /** The row's own projection is the last tap. */
  lemma ConvPreForm(b: Block, n: Block, t: nat, x: int, f: int -> real)
    requires Sized(b, n) && forall k {:trigger f(k)} :: f(k) == Mul(Tap(n, t, k, x), n.convW(x, k))
    ensures ConvPre(n, t, x) == n.convB(x) + Sum(TAPS + 1, f)
  {
    hide Sound, Proj, Mul, Sum;
    SumEq(TAPS, k => Mul(DirectTap(TAPS, n.history, Projected(n), t, k, x), n.convW(x, k)), f);
    OwnTap(n, t, x);
    SumLast(TAPS, f);
  }

  lemma OwnTap(b: Block, t: nat, x: int)
    ensures Tap(b, t, TAPS, x) == Projected(b)(t, x)
  {
    hide Sound, Proj;
  }

  lemma SumLast(n: nat, f: int -> real)
    ensures Sum(n + 1, f) == Sum(n, f) + f(n)
  {
  }

  lemma ConvPreSlope(c: real -> Block, d: Moves, t: int, x: int)
    requires Curve(c, d) && t >= 0
    ensures Slope(ConvPreAt(c, t, x), TConvPre(c(0.0), d, t, x))
  {
    hide Sound, Sized, Slope, Curve, ConvPreAt, ConvPre, ConvBAt, ConvWAt, TapAt, Tap, TTap, TapParts, Partial, Slice,
         Sum, Mul, Times;
    var b := c(0.0);
    var slopes := (k: int) => TConvTerm(b, d, t, x, k);
    forall k ensures Slope(TapParts(c, t, x)(k), slopes(k)) {
      TapSlope(c, d, t, k, x, t - TAPS + k);
      ConvWSlope(c, d, x, k);
      SlopeMul(TapParts(c, t, x)(k), slopes(k), TapAt(c, t, k, x), TTap(b, d, t, k, x), ConvWAt(c, x, k),
               d.convW(x, k));
    }
    var taps := Partial(TAPS + 1, TapParts(c, t, x));
    SlopeSum(TAPS + 1, taps, Sum(TAPS + 1, slopes), TapParts(c, t, x), slopes);
    ConvBSlope(c, d, x);
    forall e ensures ConvPreAt(c, t, x)(e) == ConvBAt(c, x)(e) + taps(e) {
      SameSizes(c, d, e);
      ConvPreForm(b, c(e), t, x, Slice(TapParts(c, t, x), e));
    }
    SumEq(TAPS + 1, slopes, k => TConvTerm(b, d, t, x, k));
    SlopeAdd(ConvPreAt(c, t, x), TConvPre(b, d, t, x), ConvBAt(c, x), d.convB(x), taps, Sum(TAPS + 1, slopes));
  }

  lemma ConvForm(b: Block, n: Block, t: int, x: int)
    requires Sized(b, n)
    ensures Conv(n, t, x) == Silu(b.fns, ConvPre(n, t, x))
  {
    hide Sound, ConvPre, Silu;
  }

  lemma ConvSlope(c: real -> Block, d: Moves, t: nat, x: int)
    requires Curve(c, d) && Smooth(c(0.0).fns)
    ensures Slope(ConvAt(c, t, x), TConv(c(0.0), d, t, x))
  {
    hide Sound, Sized, Slope, Curve, Smooth, Grows, ConvAt, ConvPreAt, ConvPre, TConvPre, Silu, DSilu, Mul;
    var b := c(0.0);
    ConvPreSlope(c, d, t, x);
    forall e ensures ConvAt(c, t, x)(e) == Silu(b.fns, ConvPreAt(c, t, x)(e)) {
      SameSizes(c, d, e);
      ConvForm(b, c(e), t, x);
    }
    SmoothGrows(b.fns);
    SlopeSilu(b.fns, ConvAt(c, t, x), TConv(b, d, t, x), ConvPreAt(c, t, x), TConvPre(b, d, t, x));
  }

  // ---- the recurrence's path ----

  lemma LayoutSame(b: Block, n: Block)
    requires Sized(b, n)
    ensures KeyAt(n) == KeyAt(b) && ValueAt(n) == ValueAt(b) && Channels(n) == Channels(b) && GateAt(n) == GateAt(b)
            && Features(n) == Features(b)
  {
    hide Sound;
  }

  lemma PlainForm(b: Block, n: Block)
    requires Sized(b, n)
    ensures S.Sized(Plain(b), Plain(n)) && Plain(n).w == n.w && Plain(n).logRate == n.logRate && Plain(n).bias == n.bias
            && Plain(n).skip == n.skip && Plain(n).h0 == n.h0
  {
    hide Sound, Shared, Conv, Proj, KeyAt, ValueAt, Channels;
  }

  lemma PlainInputs(n: Block, t: int, s: int, j: int)
    ensures Plain(n).query(t, s) == Conv(n, t, s) && Plain(n).key(t, s) == Conv(n, t, KeyAt(n) + s)
    ensures Plain(n).value(t, s, j) == Conv(n, t, ValueAt(n) + s * n.vals + j)
    ensures Plain(n).forget(t, s) == Proj(n, t, Channels(n) + s)
  {
    hide Sound, Shared, Conv, Proj, KeyAt, ValueAt, Channels;
  }

  lemma InputsForm(b: Block, n: Block, t: int, s: int, j: int, k: int, v: int, f: int)
    requires Sized(b, n) && k == KeyAt(b) + s && v == ValueAt(b) + s * b.vals + j && f == Channels(b) + s
    ensures Plain(n).query(t, s) == Conv(n, t, s) && Plain(n).key(t, s) == Conv(n, t, k)
    ensures Plain(n).value(t, s, j) == Conv(n, t, v) && Plain(n).forget(t, s) == Proj(n, t, f)
  {
    hide Sound, Shared, Conv, Proj, KeyAt, ValueAt, Channels, Plain;
    LayoutSame(b, n);
    PlainInputs(n, t, s, j);
  }

  lemma Alikes(m: Rnn, n: Rnn)
    requires S.Sized(m, n)
    ensures P.Alike(m, n)
  {
    hide Valid;
  }

  lemma QuerySlopes(c: real -> Block, d: Moves, t: nat, s: int)
    requires Curve(c, d) && Smooth(c(0.0).fns)
    ensures Slope(P.QueryAt(PlainAt(c), t, s), Inner(c(0.0), d).query(t, s))
    ensures Slope(P.KeyAt(PlainAt(c), t, s), Inner(c(0.0), d).key(t, s))
  {
    hide Sound, Sized, Slope, Curve, Smooth, Plain, PlainAt, Conv, TConv, ConvAt, P.QueryAt, P.KeyAt, KeyAt, S.Sized;
    var b, x := c(0.0), KeyAt(c(0.0)) + s;
    ConvSlope(c, d, t, s);
    ConvSlope(c, d, t, x);
    forall e ensures P.QueryAt(PlainAt(c), t, s)(e) == ConvAt(c, t, s)(e) {
      SameSizes(c, d, e);
      InputsForm(b, c(e), t, s, 0, x, ValueAt(b) + s * b.vals, Channels(b) + s);
    }
    forall e ensures P.KeyAt(PlainAt(c), t, s)(e) == ConvAt(c, t, x)(e) {
      SameSizes(c, d, e);
      InputsForm(b, c(e), t, s, 0, x, ValueAt(b) + s * b.vals, Channels(b) + s);
    }
    SlopeEq(ConvAt(c, t, s), P.QueryAt(PlainAt(c), t, s), TConv(b, d, t, s));
    SlopeEq(ConvAt(c, t, x), P.KeyAt(PlainAt(c), t, s), TConv(b, d, t, x));
  }

  lemma ValueSlopes(c: real -> Block, d: Moves, t: nat, s: int, j: int)
    requires Curve(c, d) && Smooth(c(0.0).fns)
    ensures Slope(P.ValueAt(PlainAt(c), t, s, j), Inner(c(0.0), d).value(t, s, j))
  {
    hide Sound, Sized, Slope, Curve, Smooth, Plain, PlainAt, Conv, TConv, ConvAt, P.ValueAt, ValueAt, S.Sized;
    var b, x := c(0.0), ValueAt(c(0.0)) + s * c(0.0).vals + j;
    ConvSlope(c, d, t, x);
    forall e ensures P.ValueAt(PlainAt(c), t, s, j)(e) == ConvAt(c, t, x)(e) {
      SameSizes(c, d, e);
      InputsForm(b, c(e), t, s, j, KeyAt(b) + s, x, Channels(b) + s);
    }
    SlopeEq(ConvAt(c, t, x), P.ValueAt(PlainAt(c), t, s, j), TConv(b, d, t, x));
  }

  lemma ForgetSlopes(c: real -> Block, d: Moves, t: nat, s: int)
    requires Curve(c, d)
    ensures Slope(P.ForgetAt(PlainAt(c), t, s), Inner(c(0.0), d).forget(t, s))
  {
    hide Sound, Sized, Slope, Curve, Plain, PlainAt, Proj, TProj, ProjAt, P.ForgetAt, Channels, S.Sized;
    var b, x := c(0.0), Channels(c(0.0)) + s;
    ProjSlope(c, d, t, x);
    forall e ensures P.ForgetAt(PlainAt(c), t, s)(e) == ProjAt(c, t, x)(e) {
      SameSizes(c, d, e);
      InputsForm(b, c(e), t, s, 0, KeyAt(b) + s, ValueAt(b) + s * b.vals, x);
    }
    SlopeEq(ProjAt(c, t, x), P.ForgetAt(PlainAt(c), t, s), TProj(b, d, t, x));
  }

  lemma ParamPath(c: real -> Block, d: Moves, e: real)
    requires Curve(c, d)
    ensures P.Alike(PlainAt(c)(0.0), PlainAt(c)(e)) && PlainAt(c)(0.0) == Plain(c(0.0))
    ensures PlainAt(c)(e).w == c(e).w && PlainAt(c)(e).logRate == c(e).logRate && PlainAt(c)(e).bias == c(e).bias
            && PlainAt(c)(e).skip == c(e).skip && PlainAt(c)(e).h0 == c(e).h0
  {
    hide Sound, Valid, Sized, Curve, Plain, PlainAt, S.Sized, P.Alike;
    SameSizes(c, d, e);
    PlainForm(c(0.0), c(e));
    Alikes(Plain(c(0.0)), Plain(c(e)));
  }

  lemma ParamSlopes(c: real -> Block, d: Moves)
    requires Curve(c, d)
    ensures forall i, j, k {:trigger P.WAt(PlainAt(c), i, j, k)} :: Slope(P.WAt(PlainAt(c), i, j, k), d.w(i, j, k))
    ensures forall i {:trigger P.LogRateAt(PlainAt(c), i)} :: Slope(P.LogRateAt(PlainAt(c), i), d.logRate(i))
    ensures forall i {:trigger P.BiasAt(PlainAt(c), i)} :: Slope(P.BiasAt(PlainAt(c), i), d.bias(i))
    ensures forall i, j {:trigger P.SkipAt(PlainAt(c), i, j)} :: Slope(P.SkipAt(PlainAt(c), i, j), d.skip(i, j))
    ensures forall i, j {:trigger P.H0At(PlainAt(c), i, j)} :: Slope(P.H0At(PlainAt(c), i, j), d.h0(i, j))
  {
    hide Slope, Curve, PlainAt, WAt, LogRateAt, BiasAt, SkipAt, H0At, P.WAt, P.LogRateAt, P.BiasAt, P.SkipAt, P.H0At,
         P.Alike, Plain;
    var v := PlainAt(c);
    forall e ensures v(e).w == c(e).w && v(e).logRate == c(e).logRate && v(e).bias == c(e).bias
                     && v(e).skip == c(e).skip && v(e).h0 == c(e).h0 {
      ParamPath(c, d, e);
    }
    forall i, j, k ensures Slope(P.WAt(v, i, j, k), d.w(i, j, k)) {
      WSlope(c, d, i, j, k);
      SlopeEq(WAt(c, i, j, k), P.WAt(v, i, j, k), d.w(i, j, k));
    }
    forall i ensures Slope(P.LogRateAt(v, i), d.logRate(i)) {
      LogRateSlope(c, d, i);
      SlopeEq(LogRateAt(c, i), P.LogRateAt(v, i), d.logRate(i));
    }
    forall i ensures Slope(P.BiasAt(v, i), d.bias(i)) {
      BiasSlope(c, d, i);
      SlopeEq(BiasAt(c, i), P.BiasAt(v, i), d.bias(i));
    }
    forall i, j ensures Slope(P.SkipAt(v, i, j), d.skip(i, j)) {
      SkipSlope(c, d, i, j);
      SlopeEq(SkipAt(c, i, j), P.SkipAt(v, i, j), d.skip(i, j));
    }
    forall i, j ensures Slope(P.H0At(v, i, j), d.h0(i, j)) {
      H0Slope(c, d, i, j);
      SlopeEq(H0At(c, i, j), P.H0At(v, i, j), d.h0(i, j));
    }
  }

  lemma InnerParams(b: Block, d: Moves)
    ensures Inner(b, d).w == d.w && Inner(b, d).logRate == d.logRate && Inner(b, d).bias == d.bias
            && Inner(b, d).skip == d.skip && Inner(b, d).h0 == d.h0
  {
    hide Sound;
  }

  /** The recurrence inside the block moves with the velocity its inputs get from the convolution and the projection. */
  lemma PlainCurve(c: real -> Block, d: Moves)
    requires Curve(c, d) && Smooth(c(0.0).fns)
    ensures P.Curve(PlainAt(c), Inner(c(0.0), d)) && PlainAt(c)(0.0) == Plain(c(0.0))
  {
    hide Sound, Slope, Curve, Smooth, Plain, PlainAt, Inner, P.QueryAt, P.KeyAt, P.ValueAt, P.ForgetAt, P.WAt,
         P.LogRateAt, P.BiasAt, P.SkipAt, P.H0At, P.Alike;
    var v, q := PlainAt(c), Inner(c(0.0), d);
    forall e ensures P.Alike(v(0.0), v(e)) {
      ParamPath(c, d, e);
    }
    forall i, j | 0 <= i ensures Slope(P.QueryAt(v, i, j), q.query(i, j)) && Slope(P.KeyAt(v, i, j), q.key(i, j)) {
      QuerySlopes(c, d, i, j);
    }
    forall i, j, k | 0 <= i ensures Slope(P.ValueAt(v, i, j, k), q.value(i, j, k)) {
      ValueSlopes(c, d, i, j, k);
    }
    forall i, j | 0 <= i ensures Slope(P.ForgetAt(v, i, j), q.forget(i, j)) {
      ForgetSlopes(c, d, i, j);
    }
    ParamSlopes(c, d);
    InnerParams(c(0.0), d);
  }

  // ---- gate, norm and output ----

  lemma ReadoutForm(b: Block, n: Block, t: int, f: int, h: int, j: int)
    requires Sized(b, n) && h == f / b.vals && j == f % b.vals
    ensures Readout(n, t, f) == Read(Plain(n), t, h, j)
  {
    hide Read, Plain;
  }

  lemma ReadoutSlope(c: real -> Block, d: Moves, t: nat, f: int)
    requires Curve(c, d) && Smooth(c(0.0).fns)
    ensures Slope(ReadoutAt(c, t, f), TReadout(c(0.0), d, t, f))
  {
    hide Sized, Slope, Curve, Smooth, Plain, PlainAt, Inner, ReadoutAt, Readout, Read, G.TRead, P.ReadAt, P.Curve;
    var b, h, j := c(0.0), f / c(0.0).vals, f % c(0.0).vals;
    hide Sound;
    PlainCurve(c, d);
    PlainFns(b);
    S.ReadSlope(PlainAt(c), Inner(b, d), t, h, j);
    forall e ensures ReadoutAt(c, t, f)(e) == P.ReadAt(PlainAt(c), t, h, j)(e) {
      SameSizes(c, d, e);
      ReadoutForm(b, c(e), t, f, h, j);
    }
    SlopeEq(P.ReadAt(PlainAt(c), t, h, j), ReadoutAt(c, t, f), TReadout(b, d, t, f));
  }

  lemma PlainFns(b: Block)
    ensures Plain(b).fns == b.fns
  {
    hide Sound;
  }

  lemma GateSlope(c: real -> Block, d: Moves, t: int, f: int)
    requires Curve(c, d)
    ensures Slope(GateAlong(c, t, f), TProj(c(0.0), d, t, GateAt(c(0.0)) + f))
  {
    hide Sound, Sized, Slope, Curve, ProjAt, Proj, TProj, GateAlong, GateAt;
    var b, p := c(0.0), GateAt(c(0.0)) + f;
    ProjSlope(c, d, t, p);
    forall e ensures GateAlong(c, t, f)(e) == ProjAt(c, t, p)(e) {
      SameSizes(c, d, e);
      GateForm(b, c(e), t, f);
    }
    SlopeEq(ProjAt(c, t, p), GateAlong(c, t, f), TProj(b, d, t, p));
  }

  lemma GateForm(b: Block, n: Block, t: int, f: int)
    requires Sized(b, n)
    ensures Gate(n, t, f) == Proj(n, t, GateAt(b) + f)
  {
    hide Sound, Proj;
  }

  lemma PostForm(b: Block, n: Block, t: int, f: int)
    requires Sized(b, n)
    ensures Post(n, t, f) == Mul(Readout(n, t, f), Silu(b.fns, Gate(n, t, f)))
  {
    hide Sound, Readout, Gate, Silu, Mul;
  }

  ghost function GateValue(c: real -> Block, t: int, f: int): real -> real {
    SiluAfter(c(0.0).fns, GateAlong(c, t, f))
  }

  lemma GateValueSlope(c: real -> Block, d: Moves, t: int, f: int, p: int)
    requires Curve(c, d) && Smooth(c(0.0).fns) && p == GateAt(c(0.0)) + f
    ensures Slope(GateValue(c, t, f), Mul(DSilu(c(0.0).fns, Gate(c(0.0), t, f)), TProj(c(0.0), d, t, p)))
  {
    hide Sound, Slope, Curve, Smooth, Grows, GateAlong, Gate, TProj, GateAt, Silu, DSilu, SiluAfter, Mul;
    var b := c(0.0);
    GateSlope(c, d, t, f);
    SmoothGrows(b.fns);
    SlopeSilu(b.fns, GateValue(c, t, f), Mul(DSilu(b.fns, Gate(b, t, f)), TProj(b, d, t, p)), GateAlong(c, t, f),
              TProj(b, d, t, p));
  }

  lemma PostPath(c: real -> Block, d: Moves, t: int, f: int, e: real)
    requires Curve(c, d)
    ensures PostAt(c, t, f)(e) == Mul(ReadoutAt(c, t, f)(e), GateValue(c, t, f)(e))
  {
    hide Sound, Sized, Curve, PostAt, Post, ReadoutAt, Readout, GateAlong, Gate, Silu, SiluAfter, Mul;
    SameSizes(c, d, e);
    PostForm(c(0.0), c(e), t, f);
  }

  lemma TPostForm(b: Block, d: Moves, t: int, f: int, p: int)
    requires p == GateAt(b) + f
    ensures TPost(b, d, t, f) == Mul(TReadout(b, d, t, f), Silu(b.fns, Gate(b, t, f)))
                                 + Mul(Readout(b, t, f), Mul(DSilu(b.fns, Gate(b, t, f)), TProj(b, d, t, p)))
  {
    hide Sound, Readout, TReadout, Gate, TProj, GateAt, Silu, DSilu, Mul;
  }

  lemma PostSlope(c: real -> Block, d: Moves, t: nat, f: int)
    requires Curve(c, d) && Smooth(c(0.0).fns)
    ensures Slope(PostAt(c, t, f), TPost(c(0.0), d, t, f))
  {
    hide Sound, Slope, Curve, Smooth, PostAt, TPost, ReadoutAt, Readout, TReadout, GateValue, GateAlong, Gate, TProj,
         GateAt, Silu, DSilu, Mul;
    var b, p := c(0.0), GateAt(c(0.0)) + f;
    var a := Mul(DSilu(b.fns, Gate(b, t, f)), TProj(b, d, t, p));
    ReadoutSlope(c, d, t, f);
    GateValueSlope(c, d, t, f, p);
    forall e ensures PostAt(c, t, f)(e) == Mul(ReadoutAt(c, t, f)(e), GateValue(c, t, f)(e)) {
      PostPath(c, d, t, f, e);
    }
    TPostForm(b, d, t, f, p);
    GateStart(c, t, f);
    SlopeMul(PostAt(c, t, f), TPost(b, d, t, f), ReadoutAt(c, t, f), TReadout(b, d, t, f), GateValue(c, t, f), a);
  }

  lemma GateStart(c: real -> Block, t: int, f: int)
    ensures GateValue(c, t, f)(0.0) == Silu(c(0.0).fns, Gate(c(0.0), t, f))
  {
    hide Sound, GateAlong, Gate, Silu, SiluAfter;
  }

  lemma NormForm(b: Block, n: Block)
    requires Sized(b, n)
    ensures Norm(n).size == Norm(b).size && Norm(n).fns == b.fns && Norm(n).weight == n.scale
    ensures forall t, f {:trigger Norm(n).x(t, f)} :: Norm(n).x(t, f) == Post(n, t, f)
  {
    hide Sound, Post, PostUp;
  }
}
