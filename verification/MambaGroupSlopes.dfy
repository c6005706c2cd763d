/** Derivatives of the group values of a Mamba3 row: trapezoid weights, normalised means and rotations. */
module MambaGroupSlopes {
  import opened Sums
  import opened Functions
  import opened Slopes
  import opened FunctionSlopes
  import opened MambaModel
  import opened MambaTangent
  import opened MambaPaths
  import opened MambaSlopes

  // ---- trapezoids ----

  lemma NextDtForm(m: Block, n: Block, t: int, h: int)
    requires Sized(m, n)
    ensures NextDt(n, t, h) == if t + 1 < m.rows then Softplus(m.fns, DtPre(n, t + 1, h)) else 0.0
  {
    hide Valid, DtPre, Softplus;
  }

  lemma NextDtSlope(c: real -> Block, d: Tangent, t: int, h: int)
    requires Curve(c, d) && Smooth(c(0.0).fns)
    ensures Slope(NextDtAt(c, t, h), TNextDt(c(0.0), d, t, h))
  {
    hide Valid, Sized, Slope, Curve, Smooth, NextDtAt, NextDt, DtPreAt, DtPre, TDtPre, Softplus, Sigmoid;
    var m := c(0.0);
    forall e ensures NextDtAt(c, t, h)(e) == if t + 1 < m.rows then Softplus(m.fns, DtPreAt(c, t + 1, h)(e)) else 0.0 {
      SameSizes(c, d, e);
      NextDtForm(m, c(e), t, h);
    }
    if t + 1 < m.rows {
      DtPreSlope(c, d, t + 1, h);
      SlopeSoftplus(m.fns, NextDtAt(c, t, h), TNextDt(m, d, t, h), DtPreAt(c, t + 1, h), TDtPre(m, d, t + 1, h));
    } else {
      SlopeConst(NextDtAt(c, t, h), 0.0);
    }
  }

  lemma NextTrapForm(m: Block, n: Block, t: int, h: int)
    requires Sized(m, n)
    ensures NextTrap(n, t, h) == if t + 1 < m.rows then Proj(n, t + 1, TrapAt(m) + h) else 0.0
  {
    hide Valid, Proj;
  }

  lemma NextTrapSlope(c: real -> Block, d: Tangent, t: int, h: int)
    requires Curve(c, d)
    ensures Slope(NextTrapAt(c, t, h), TNextTrap(c(0.0), d, t, h))
  {
    hide Valid, Sized, Slope, Curve, NextTrapAt, NextTrap, ProjAt, Proj, TProj, TrapAt;
    var m, p := c(0.0), TrapAt(c(0.0)) + h;
    forall e ensures NextTrapAt(c, t, h)(e) == if t + 1 < m.rows then ProjAt(c, t + 1, p)(e) else 0.0 {
      SameSizes(c, d, e);
      NextTrapForm(m, c(e), t, h);
    }
    if t + 1 < m.rows {
      ProjSlope(c, d, t + 1, p);
      SlopeEq(ProjAt(c, t + 1, p), NextTrapAt(c, t, h), TProj(m, d, t + 1, p));
    } else {
      SlopeConst(NextTrapAt(c, t, h), 0.0);
    }
  }

  /** A product with a sigmoid, and with what the sigmoid leaves of one. */
  ghost function Opened(k: Fns, f: real -> real, z: real -> real): real -> real { Times(f, SigmoidAfter(k, z)) }

  ghost function Closed(k: Fns, f: real -> real, z: real -> real): real -> real {
    Times(f, Lower(1.0, SigmoidAfter(k, z)))
  }

  ghost function TOpened(k: Fns, f: real, a: real, z: real, b: real): real {
    Mul(a, Sigmoid(k, z)) + Mul(f, Mul(DSigmoid(k, z), b))
  }

  ghost function TClosed(k: Fns, f: real, a: real, z: real, b: real): real {
    Mul(a, 1.0 - Sigmoid(k, z)) + Mul(f, Minus(Mul(DSigmoid(k, z), b)))
  }

  lemma OpenedSlope(k: Fns, f: real -> real, a: real, z: real -> real, b: real)
    requires Smooth(k) && Slope(f, a) && Slope(z, b)
    ensures Slope(Opened(k, f, z), TOpened(k, f(0.0), a, z(0.0), b))
    ensures forall e {:trigger Opened(k, f, z)(e)} :: Opened(k, f, z)(e) == Mul(f(e), Sigmoid(k, z(e)))
  {
    hide Slope, Smooth, Grows, Times, SigmoidAfter, Sigmoid, DSigmoid, Mul;
    var s := Mul(DSigmoid(k, z(0.0)), b);
    SmoothGrows(k);
    SlopeSigmoid(k, SigmoidAfter(k, z), s, z, b);
    TimesSlope(f, a, SigmoidAfter(k, z), s);
  }

  lemma ClosedSlope(k: Fns, f: real -> real, a: real, z: real -> real, b: real)
    requires Smooth(k) && Slope(f, a) && Slope(z, b)
    ensures Slope(Closed(k, f, z), TClosed(k, f(0.0), a, z(0.0), b))
  {
    hide Slope, Smooth, Grows, Times, SigmoidAfter, Lower, Sigmoid, DSigmoid, Mul, Minus, TClosed;
    var s, rest := Mul(DSigmoid(k, z(0.0)), b), Lower(1.0, SigmoidAfter(k, z));
    SmoothGrows(k);
    SlopeSigmoid(k, SigmoidAfter(k, z), s, z, b);
    LowerSlope(1.0, SigmoidAfter(k, z), s);
    TClosedForm(k, f(0.0), a, z(0.0), b, s, rest(0.0));
    SlopeMul(Closed(k, f, z), TClosed(k, f(0.0), a, z(0.0), b), f, a, rest, Minus(s));
  }

  lemma TClosedForm(k: Fns, f: real, a: real, z: real, b: real, s: real, rest: real)
    requires s == Mul(DSigmoid(k, z), b) && rest == 1.0 - Sigmoid(k, z)
    ensures TClosed(k, f, a, z, b) == Mul(a, rest) + Mul(f, Minus(s))
  {
    hide Mul, Sigmoid, DSigmoid, Minus;
  }

  lemma ClosedAt(k: Fns, f: real -> real, z: real -> real, e: real)
    ensures Closed(k, f, z)(e) == Mul(f(e), 1.0 - Sigmoid(k, z(e)))
  {
    hide Times, SigmoidAfter, Lower, Sigmoid, Mul;
  }

  lemma TrapTermForm(m: Block, n: Block, t: int, h: int)
    requires Sized(m, n)
    ensures TrapTerm(n, t, h) == Mul(NextDt(n, t, h), 1.0 - Sigmoid(m.fns, NextTrap(n, t, h)))
                                 + Mul(Dt(n, t, h), Sigmoid(m.fns, Proj(n, t, TrapAt(m) + h)))
  {
    hide Valid, NextDt, NextTrap, Dt, Proj, Sigmoid;
  }

  lemma TTrapTermForm(m: Block, d: Tangent, t: int, h: int)
    ensures TTrapTerm(m, d, t, h)
         == TClosed(m.fns, NextDt(m, t, h), TNextDt(m, d, t, h), NextTrap(m, t, h), TNextTrap(m, d, t, h))
            + TOpened(m.fns, Dt(m, t, h), TDt(m, d, t, h), Proj(m, t, TrapAt(m) + h), TProj(m, d, t, TrapAt(m) + h))
  {
    hide Valid, NextDt, NextTrap, Dt, Proj, Sigmoid, TNextDt, TNextTrap, TDt, TProj, DSigmoid;
  }

  lemma TrapTermSlope(c: real -> Block, d: Tangent, t: int, h: int)
    requires Curve(c, d) && Smooth(c(0.0).fns)
    ensures Slope(TrapTermAt(c, t, h), TTrapTerm(c(0.0), d, t, h))
  {
    hide Valid, Sized, Slope, Curve, Smooth, NextTrapAt, NextDtAt, DtAlong, ProjAt, TrapTermAt, Opened, Closed, Sigmoid,
         TOpened, TClosed, Mul, Proj, TProj, Dt, TDt, NextDt, TNextDt, NextTrap, TNextTrap, TrapTerm, TTrapTerm, TrapAt;
    var m, p := c(0.0), TrapAt(c(0.0)) + h;
    NextDtSlope(c, d, t, h);
    NextTrapSlope(c, d, t, h);
    DtSlope(c, d, t, h);
    ProjSlope(c, d, t, p);
    ClosedSlope(m.fns, NextDtAt(c, t, h), TNextDt(m, d, t, h), NextTrapAt(c, t, h), TNextTrap(m, d, t, h));
    OpenedSlope(m.fns, DtAlong(c, t, h), TDt(m, d, t, h), ProjAt(c, t, p), TProj(m, d, t, p));
    var next, own := Closed(m.fns, NextDtAt(c, t, h), NextTrapAt(c, t, h)),
        Opened(m.fns, DtAlong(c, t, h), ProjAt(c, t, p));
    forall e ensures TrapTermAt(c, t, h)(e) == next(e) + own(e) {
      SameSizes(c, d, e);
      TrapTermForm(m, c(e), t, h);
      ClosedAt(m.fns, NextDtAt(c, t, h), NextTrapAt(c, t, h), e);
    }
    TTrapTermForm(m, d, t, h);
    SlopeAdd(TrapTermAt(c, t, h), TTrapTerm(m, d, t, h), next,
             TClosed(m.fns, NextDt(m, t, h), TNextDt(m, d, t, h), NextTrap(m, t, h), TNextTrap(m, d, t, h)), own,
             TOpened(m.fns, Dt(m, t, h), TDt(m, d, t, h), Proj(m, t, p), TProj(m, d, t, p)));
  }

  ghost function TrapParts(c: real -> Block, t: int, g: int): (f: int -> real -> real)
    ensures forall k {:trigger f(k)} :: f(k) == TrapTermAt(c, t, GroupHead(c(0.0), g, k))
  {
    hide GroupHead;
    (k: int) => TrapTermAt(c, t, GroupHead(c(0.0), g, k))
  }

  ghost function TrapSum(c: real -> Block, t: int, g: int): real -> real {
    Partial(c(0.0).perGroup, TrapParts(c, t, g))
  }

  lemma TrapForm(m: Block, n: Block, t: int, g: int, f: int -> real)
    requires Sized(m, n) && forall k {:trigger f(k)} :: f(k) == TrapTerm(n, t, GroupHead(m, g, k))
    ensures m.perGroup as real != 0.0 && Trap(n, t, g) == Sum(m.perGroup, f) / m.perGroup as real
  {
    hide Sum, TrapTerm;
    SumEq(n.perGroup, k => TrapTerm(n, t, GroupHead(n, g, k)), f);
  }

  lemma TrapSlope(c: real -> Block, d: Tangent, t: int, g: int)
    requires Curve(c, d) && Smooth(c(0.0).fns)
    ensures Slope(TrapAlong(c, t, g), TTrap(c(0.0), d, t, g))
  {
    hide Sized, Slope, Curve, Smooth, TrapAlong, TrapParts, TrapTermAt, Partial, Slice, Sum, TTrapTerm, TrapTerm, Over,
         GroupHead, Trap, Mul, Inverse;
    var m, size := c(0.0), c(0.0).perGroup as real;
    assert size != 0.0;
    hide Valid;
    var slopes := (k: int) => TTrapTerm(m, d, t, GroupHead(m, g, k));
    forall k ensures Slope(TrapParts(c, t, g)(k), slopes(k)) {
      TrapTermSlope(c, d, t, GroupHead(m, g, k));
    }
    SlopeSum(m.perGroup, TrapSum(c, t, g), Sum(m.perGroup, slopes), TrapParts(c, t, g), slopes);
    OverSlope(TrapSum(c, t, g), Sum(m.perGroup, slopes), size);
    forall e ensures TrapAlong(c, t, g)(e) == Over(TrapSum(c, t, g), size)(e) {
      SameSizes(c, d, e);
      TrapForm(m, c(e), t, g, Slice(TrapParts(c, t, g), e));
      OverForm(TrapSum(c, t, g), size);
    }
    Divide(Sum(m.perGroup, slopes), size);
    SlopeEq(Over(TrapSum(c, t, g), size), TrapAlong(c, t, g), TTrap(m, d, t, g));
  }

  // ---- normalisation ----

  ghost function SquareAt(c: real -> Block, t: int, x: int): real -> real {
    Times(ConvAlong(c, t, x), ConvAlong(c, t, x))
  }

  ghost function SquareParts(c: real -> Block, t: int, at: int, r: int, g: int): (f: int -> real -> real)
    ensures forall n {:trigger f(n)} :: f(n) == SquareAt(c, t, at + Flat(c(0.0), r, g, n))
  {
    hide Flat, SquareAt;
    (n: int) => SquareAt(c, t, at + Flat(c(0.0), r, g, n))
  }

  ghost function Squares(c: real -> Block, t: int, at: int, r: int, g: int): real -> real {
    Partial(c(0.0).state, SquareParts(c, t, at, r, g))
  }

  /** One entry's share of the mean square's move, and its half. */
  ghost function Move(m: Block, d: Tangent, t: int, x: int): real { Mul(Conv(m, t, x), TConv(m, d, t, x)) }
  ghost function Moves(m: Block, d: Tangent, t: int, x: int): real { Move(m, d, t, x) + Move(m, d, t, x) }

  lemma SquareSlope(c: real -> Block, d: Tangent, t: int, x: int)
    requires Curve(c, d) && Smooth(c(0.0).fns)
    ensures Slope(Times(ConvAlong(c, t, x), ConvAlong(c, t, x)), Moves(c(0.0), d, t, x))
  {
    hide Valid, Slope, Curve, Smooth, ConvAlong, Conv, TConv, Times, Mul;
    var m := c(0.0);
    ConvSlope(c, d, t, x);
    Commute(Conv(m, t, x), TConv(m, d, t, x));
    SlopeMul(Times(ConvAlong(c, t, x), ConvAlong(c, t, x)), Moves(m, d, t, x), ConvAlong(c, t, x), TConv(m, d, t, x),
             ConvAlong(c, t, x), TConv(m, d, t, x));
  }

  lemma SquaresSlope(c: real -> Block, d: Tangent, t: int, at: int, r: int, g: int)
    requires Curve(c, d) && Smooth(c(0.0).fns)
    ensures Slope(Squares(c, t, at, r, g), TSquares(c(0.0), d, t, at, r, g) + TSquares(c(0.0), d, t, at, r, g))
  {
    hide Valid, Slope, Curve, Smooth, ConvAlong, Conv, TConv, Times, Mul, SquareParts, Partial, Sum, Moves, Flat;
    var m := c(0.0);
    var slopes, half := (n: int) => Moves(m, d, t, at + Flat(m, r, g, n)),
        (n: int) => Mul(Conv(m, t, at + Flat(m, r, g, n)), TConv(m, d, t, at + Flat(m, r, g, n)));
    forall n ensures Slope(SquareParts(c, t, at, r, g)(n), slopes(n)) {
      SquareSlope(c, d, t, at + Flat(m, r, g, n));
    }
    forall n ensures slopes(n) == half(n) + half(n) {
      MovesForm(m, d, t, at + Flat(m, r, g, n));
    }
    SumAdd(m.state, slopes, half, half);
    SlopeSum(m.state, Squares(c, t, at, r, g), TSquares(m, d, t, at, r, g) + TSquares(m, d, t, at, r, g),
             SquareParts(c, t, at, r, g), slopes);
  }

  lemma MovesForm(m: Block, d: Tangent, t: int, x: int)
    ensures Moves(m, d, t, x) == Mul(Conv(m, t, x), TConv(m, d, t, x)) + Mul(Conv(m, t, x), TConv(m, d, t, x))
  {
    hide Valid, Conv, TConv, Mul;
  }

  lemma InvRmsAs(n: Block, t: int, at: int, r: int, g: int)
    ensures n.state as real > 0.0
    ensures InvRms(n, t, at, r, g)
         == RmsOf(n.fns, Sum(n.state, x => Conv(n, t, at + Flat(n, r, g, x)) * Conv(n, t, at + Flat(n, r, g, x))),
                  n.state as real, 0.00001)
  {
    hide Sum, Conv, Flat;
  }

  lemma InvRmsForm(m: Block, n: Block, t: int, at: int, r: int, g: int, f: int -> real)
    requires Sized(m, n)
    requires forall x {:trigger f(x)} ::
               f(x) == Mul(Conv(n, t, at + Flat(m, r, g, x)), Conv(n, t, at + Flat(m, r, g, x)))
    ensures m.state as real > 0.0
    ensures InvRms(n, t, at, r, g) == RmsOf(m.fns, Sum(m.state, f), m.state as real, 0.00001)
  {
    hide Sum, Conv, Flat, Mul, Valid, RmsOf, InvRms;
    InvRmsAs(n, t, at, r, g);
    var own := (x: int) => Conv(n, t, at + Flat(n, r, g, x)) * Conv(n, t, at + Flat(n, r, g, x));
    forall x ensures own(x) == f(x) {
      FlatSame(m, n, r, g, x);
      Square(Conv(n, t, at + Flat(m, r, g, x)));
    }
    SumEq(n.state, own, f);
  }

  lemma FlatSame(m: Block, n: Block, r: int, g: int, x: int)
    requires Sized(m, n)
    ensures Flat(n, r, g, x) == Flat(m, r, g, x)
  {
    hide Valid;
  }

  lemma Square(x: real)
    ensures x * x == Mul(x, x)
  {
  }

  lemma SquaresPositive(c: real -> Block, t: int, at: int, r: int, g: int)
    ensures Squares(c, t, at, r, g)(0.0) >= 0.0
  {
    hide Valid, ConvAlong, Conv, SquareParts, Partial, Sum, Flat, Slice, Times;
    var f := Slice(SquareParts(c, t, at, r, g), 0.0);
    forall n ensures f(n) >= 0.0 {
      NonNegative(Conv(c(0.0), t, at + Flat(c(0.0), r, g, n)));
    }
    SumNonNegative(c(0.0).state, f);
  }

  lemma InvRmsSlope(c: real -> Block, d: Tangent, t: int, at: int, r: int, g: int)
    requires Curve(c, d) && Smooth(c(0.0).fns)
    ensures Slope(InvRmsAt(c, t, at, r, g), TInvRms(c(0.0), d, t, at, r, g))
  {
    hide Sized, Slope, Curve, Smooth, InvRmsAt, InvRms, ConvAlong, Conv, Times, Mul, SquareParts, Partial, Sum,
         TSquares, Flat, Slice, RmsOf, InvTangent, Squares;
    var m, size := c(0.0), c(0.0).state as real;
    assert size > 0.0;
    hide Valid;
    var move := TSquares(m, d, t, at, r, g);
    SquaresSlope(c, d, t, at, r, g);
    SquaresPositive(c, t, at, r, g);
    forall e ensures InvRmsAt(c, t, at, r, g)(e) == RmsOf(m.fns, Squares(c, t, at, r, g)(e), size, 0.00001) {
      SameSizes(c, d, e);
      SquaresAt(c, t, at, r, g, e);
      InvRmsForm(m, c(e), t, at, r, g, Slice(SquareParts(c, t, at, r, g), e));
    }
    SlopeInverseRms(m.fns, InvRmsAt(c, t, at, r, g), TInvRms(m, d, t, at, r, g), Squares(c, t, at, r, g), move + move,
                    move, size, 0.00001);
  }

  lemma SquaresAt(c: real -> Block, t: int, at: int, r: int, g: int, e: real)
    ensures Squares(c, t, at, r, g)(e) == Sum(c(0.0).state, Slice(SquareParts(c, t, at, r, g), e))
    ensures forall x {:trigger Slice(SquareParts(c, t, at, r, g), e)(x)} ::
              Slice(SquareParts(c, t, at, r, g), e)(x)
              == Mul(Conv(c(e), t, at + Flat(c(0.0), r, g, x)), Conv(c(e), t, at + Flat(c(0.0), r, g, x)))
  {
    hide Valid, ConvAlong, Conv, SquareParts, Partial, Sum, Flat, Slice, Times, Mul;
  }

  // ---- means over ranks, for B and for C ----

  /** The first channel, scales and biases of B, or of C. */
  function SideAt(m: Block, isB: bool): int { if isB then BAt(m) else CAt(m) }
  function Scale(m: Block, isB: bool): int -> real { if isB then m.bScale else m.cScale }
  function Bias(m: Block, isB: bool): int -> real { if isB then m.bBias else m.cBias }
  ghost function DScale(d: Tangent, isB: bool): int -> real { if isB then d.bScale else d.cScale }
  ghost function DBias(d: Tangent, isB: bool): int -> real { if isB then d.bBias else d.cBias }
  ghost function ScaleAt(c: real -> Block, isB: bool, k: int): real -> real {
    if isB then BScaleAt(c, k) else CScaleAt(c, k)
  }
  ghost function BiasAt(c: real -> Block, isB: bool, k: int): real -> real {
    if isB then BBiasAt(c, k) else CBiasAt(c, k)
  }
  ghost function SideMean(m: Block, t: int, isB: bool, g: int, n: int): real {
    Mean(m, t, SideAt(m, isB), Scale(m, isB), Bias(m, isB), g, n)
  }

  ghost function TSideMean(m: Block, d: Tangent, t: int, isB: bool, g: int, n: int): real {
    TMean(m, d, t, SideAt(m, isB), Scale(m, isB), DScale(d, isB), DBias(d, isB), g, n)
  }

  lemma SideSlopes(c: real -> Block, d: Tangent, isB: bool, k: int)
    requires Curve(c, d)
    ensures Slope(ScaleAt(c, isB, k), DScale(d, isB)(k)) && Slope(BiasAt(c, isB, k), DBias(d, isB)(k))
    ensures forall e {:trigger ScaleAt(c, isB, k)(e)} :: ScaleAt(c, isB, k)(e) == Scale(c(e), isB)(k)
    ensures forall e {:trigger BiasAt(c, isB, k)(e)} :: BiasAt(c, isB, k)(e) == Bias(c(e), isB)(k)
  {
    hide Valid, Slope, Curve, BScaleAt, CScaleAt, BBiasAt, CBiasAt;
    BScaleSlope(c, d, k);
    CScaleSlope(c, d, k);
    BBiasSlope(c, d, k);
    CBiasSlope(c, d, k);
  }

  /** One rank's share of a mean. */
  ghost function Entry(conv: real, inv: real, scale: real, bias: real): real { Mul(Mul(conv, inv), scale) + bias }

  ghost function RankPart(c: real -> Block, t: int, isB: bool, r: int, g: int, k: int): real -> real {
    Plus(Times(Times(ConvAlong(c, t, SideAt(c(0.0), isB) + k), InvRmsAt(c, t, SideAt(c(0.0), isB), r, g)),
               ScaleAt(c, isB, k)), BiasAt(c, isB, k))
  }

  lemma RankPartForm(c: real -> Block, d: Tangent, t: int, isB: bool, r: int, g: int, k: int, e: real)
    requires Curve(c, d)
    ensures RankPart(c, t, isB, r, g, k)(e)
         == Entry(Conv(c(e), t, SideAt(c(0.0), isB) + k), InvRms(c(e), t, SideAt(c(0.0), isB), r, g),
                  Scale(c(e), isB)(k), Bias(c(e), isB)(k))
  {
    hide Valid, Curve, ConvAlong, Conv, InvRmsAt, InvRms, ScaleAt, BiasAt, SideAt, Scale, Bias, Mul, Times, Plus;
    SideSlopes(c, d, isB, k);
  }

  ghost function TEntry(conv: real, tConv: real, inv: real, tInv: real, scale: real, dScale: real, dBias: real): real {
    Mul(Mul(tConv, inv) + Mul(conv, tInv), scale) + Mul(Mul(conv, inv), dScale) + dBias
  }

  lemma TEntryForm(conv: real, tConv: real, inv: real, tInv: real, scale: real, dScale: real, dBias: real)
    ensures TEntry(conv, tConv, inv, tInv, scale, dScale, dBias)
            == NormTangent(conv, tConv, inv, tInv, scale, dScale, dBias)
  {
  }

  lemma RankPartSlope(c: real -> Block, d: Tangent, t: int, isB: bool, r: int, g: int, k: int)
    requires Curve(c, d) && Smooth(c(0.0).fns)
    ensures Slope(RankPart(c, t, isB, r, g, k),
                  TEntry(Conv(c(0.0), t, SideAt(c(0.0), isB) + k), TConv(c(0.0), d, t, SideAt(c(0.0), isB) + k),
                         InvRms(c(0.0), t, SideAt(c(0.0), isB), r, g),
                         TInvRms(c(0.0), d, t, SideAt(c(0.0), isB), r, g), Scale(c(0.0), isB)(k), DScale(d, isB)(k),
                         DBias(d, isB)(k)))
  {
    hide Valid, Slope, Curve, Smooth, ConvAlong, Conv, TConv, InvRmsAt, InvRms, TInvRms, ScaleAt, BiasAt, SideAt, Scale,
         DScale, DBias, Mul, Times, Plus;
    var m, at := c(0.0), SideAt(c(0.0), isB);
    var v, i := ConvAlong(c, t, at + k), InvRmsAt(c, t, at, r, g);
    SideSlopes(c, d, isB, k);
    ConvSlope(c, d, t, at + k);
    InvRmsSlope(c, d, t, at, r, g);
    var a := Mul(TConv(m, d, t, at + k), InvRms(m, t, at, r, g)) + Mul(Conv(m, t, at + k), TInvRms(m, d, t, at, r, g));
    TimesSlope(v, TConv(m, d, t, at + k), i, TInvRms(m, d, t, at, r, g));
    TimesSlope(Times(v, i), a, ScaleAt(c, isB, k), DScale(d, isB)(k));
    PlusSlope(Times(Times(v, i), ScaleAt(c, isB, k)),
              Mul(a, Scale(m, isB)(k)) + Mul(Mul(Conv(m, t, at + k), InvRms(m, t, at, r, g)), DScale(d, isB)(k)),
              BiasAt(c, isB, k), DBias(d, isB)(k));
  }

  ghost function RankParts(c: real -> Block, t: int, isB: bool, g: int, n: int): (f: int -> real -> real)
    ensures forall r {:trigger f(r)} :: f(r) == RankPart(c, t, isB, r, g, Flat(c(0.0), r, g, n))
  {
    hide Flat, RankPart;
    (r: int) => RankPart(c, t, isB, r, g, Flat(c(0.0), r, g, n))
  }

  ghost function RankSum(c: real -> Block, t: int, isB: bool, g: int, n: int): real -> real {
    Partial(c(0.0).ranks, RankParts(c, t, isB, g, n))
  }

  ghost function SideMeanAt(c: real -> Block, t: int, isB: bool, g: int, n: int): (h: real -> real)
    ensures forall e {:trigger h(e)} :: h(e) == SideMean(c(e), t, isB, g, n)
  {
    hide SideMean;
    (e: real) => SideMean(c(e), t, isB, g, n)
  }

  lemma MeanForm(m: Block, n: Block, t: int, isB: bool, g: int, x: int, f: int -> real)
    requires Sized(m, n)
    requires forall r {:trigger f(r)} ::
               f(r) == Entry(Conv(n, t, SideAt(m, isB) + Flat(m, r, g, x)), InvRms(n, t, SideAt(m, isB), r, g),
                             Scale(n, isB)(Flat(m, r, g, x)), Bias(n, isB)(Flat(m, r, g, x)))
    ensures m.ranks as real != 0.0 && SideMean(n, t, isB, g, x) == Sum(m.ranks, f) / m.ranks as real
  {
    hide Sum, Conv, InvRms, Flat, Entry, Scale, Bias, SideAt, SideMean;
    OwnMean(n, t, isB, g, x);
    SideSame(m, n, isB);
    var own := (r: int) => OwnEntry(n, t, isB, g, x, r);
    forall r ensures own(r) == f(r) {
      FlatSame(m, n, r, g, x);
    }
    SumEq(n.ranks, own, f);
  }

  lemma SideSame(m: Block, n: Block, isB: bool)
    requires Sized(m, n)
    ensures SideAt(n, isB) == SideAt(m, isB)
  {
    hide Valid;
  }

  /** One rank's share, in the block's own layout. */
  ghost function OwnEntry(n: Block, t: int, isB: bool, g: int, x: int, r: int): real {
    Entry(Conv(n, t, SideAt(n, isB) + Flat(n, r, g, x)), InvRms(n, t, SideAt(n, isB), r, g),
          Scale(n, isB)(Flat(n, r, g, x)), Bias(n, isB)(Flat(n, r, g, x)))
  }

  lemma OwnMean(n: Block, t: int, isB: bool, g: int, x: int)
    ensures n.ranks as real != 0.0
    ensures SideMean(n, t, isB, g, x) == Sum(n.ranks, r => OwnEntry(n, t, isB, g, x, r)) / n.ranks as real
  {
    hide Sum, Conv, InvRms, Flat, Entry, Scale, Bias, SideAt;
    assert n.ranks as real != 0.0;
    hide Valid;
    var at, scale, bias := SideAt(n, isB), Scale(n, isB), Bias(n, isB);
    var own := (r: int) => Conv(n, t, at + Flat(n, r, g, x)) * InvRms(n, t, at, r, g) * scale(Flat(n, r, g, x))
                           + bias(Flat(n, r, g, x));
    var entries := (r: int) => OwnEntry(n, t, isB, g, x, r);
    forall r ensures own(r) == entries(r) {
      EntryForm(Conv(n, t, at + Flat(n, r, g, x)), InvRms(n, t, at, r, g), scale(Flat(n, r, g, x)),
                bias(Flat(n, r, g, x)));
    }
    SumEq(n.ranks, own, entries);
  }

  lemma EntryForm(conv: real, inv: real, scale: real, bias: real)
    ensures conv * inv * scale + bias == Entry(conv, inv, scale, bias)
  {
  }

  lemma MeanSlope(c: real -> Block, d: Tangent, t: int, isB: bool, g: int, n: int)
    requires Curve(c, d) && Smooth(c(0.0).fns)
    ensures Slope(SideMeanAt(c, t, isB, g, n), TSideMean(c(0.0), d, t, isB, g, n))
  {
    hide Sized, Slope, Curve, Smooth, SideMeanAt, SideMean, RankParts, RankPart, Partial, Slice, Sum, Over, Flat, Mul,
         Inverse, Conv, InvRms, TConv, TInvRms, Scale, DScale, DBias, SideAt, Entry, TMeanTerm;
    var m, size := c(0.0), c(0.0).ranks as real;
    assert size != 0.0;
    hide Valid;
    var slopes := (r: int) => TMeanTerm(m, d, t, SideAt(m, isB), Scale(m, isB), DScale(d, isB), DBias(d, isB), g, n, r);
    forall r ensures Slope(RankParts(c, t, isB, g, n)(r), slopes(r)) {
      RankPartSlope(c, d, t, isB, r, g, Flat(m, r, g, n));
      TMeanTermForm(m, d, t, isB, g, n, r);
    }
    SlopeSum(m.ranks, RankSum(c, t, isB, g, n), Sum(m.ranks, slopes), RankParts(c, t, isB, g, n), slopes);
    OverSlope(RankSum(c, t, isB, g, n), Sum(m.ranks, slopes), size);
    forall e ensures SideMeanAt(c, t, isB, g, n)(e) == Over(RankSum(c, t, isB, g, n), size)(e) {
      MeanAlong(c, d, t, isB, g, n, e);
      OverForm(RankSum(c, t, isB, g, n), size);
    }
    Divide(Sum(m.ranks, slopes), size);
    SlopeEq(Over(RankSum(c, t, isB, g, n), size), SideMeanAt(c, t, isB, g, n), TSideMean(m, d, t, isB, g, n));
  }

  lemma TMeanTermForm(m: Block, d: Tangent, t: int, isB: bool, g: int, n: int, r: int)
    ensures TMeanTerm(m, d, t, SideAt(m, isB), Scale(m, isB), DScale(d, isB), DBias(d, isB), g, n, r)
         == TEntry(Conv(m, t, SideAt(m, isB) + Flat(m, r, g, n)), TConv(m, d, t, SideAt(m, isB) + Flat(m, r, g, n)),
                   InvRms(m, t, SideAt(m, isB), r, g), TInvRms(m, d, t, SideAt(m, isB), r, g),
                   Scale(m, isB)(Flat(m, r, g, n)), DScale(d, isB)(Flat(m, r, g, n)), DBias(d, isB)(Flat(m, r, g, n)))
  {
    hide Valid, Conv, TConv, InvRms, TInvRms, Scale, DScale, DBias, SideAt, Flat, TEntry, NormTangent;
    TEntryForm(Conv(m, t, SideAt(m, isB) + Flat(m, r, g, n)), TConv(m, d, t, SideAt(m, isB) + Flat(m, r, g, n)),
               InvRms(m, t, SideAt(m, isB), r, g), TInvRms(m, d, t, SideAt(m, isB), r, g),
               Scale(m, isB)(Flat(m, r, g, n)), DScale(d, isB)(Flat(m, r, g, n)), DBias(d, isB)(Flat(m, r, g, n)));
  }

  lemma MeanAlong(c: real -> Block, d: Tangent, t: int, isB: bool, g: int, n: int, e: real)
    requires Curve(c, d)
    ensures c(0.0).ranks as real != 0.0
    ensures SideMeanAt(c, t, isB, g, n)(e) == RankSum(c, t, isB, g, n)(e) / c(0.0).ranks as real
  {
    hide Valid, Sized, Curve, SideMeanAt, SideMean, RankParts, RankPart, Partial, Slice, Sum, Flat, Conv, InvRms, Scale,
         Bias, SideAt, Entry;
    var f := Slice(RankParts(c, t, isB, g, n), e);
    SameSizes(c, d, e);
    forall r ensures f(r) == Entry(Conv(c(e), t, SideAt(c(0.0), isB) + Flat(c(0.0), r, g, n)),
                                   InvRms(c(e), t, SideAt(c(0.0), isB), r, g),
                                   Scale(c(e), isB)(Flat(c(0.0), r, g, n)), Bias(c(e), isB)(Flat(c(0.0), r, g, n))) {
      RankPartForm(c, d, t, isB, r, g, Flat(c(0.0), r, g, n), e);
    }
    MeanForm(c(0.0), c(e), t, isB, g, n, f);
  }

  lemma BMeanSlope(c: real -> Block, d: Tangent, t: int, g: int, n: int)
    requires Curve(c, d) && Smooth(c(0.0).fns)
    ensures Slope(BMeanAt(c, t, g, n), TBMean(c(0.0), d, t, g, n))
  {
    hide Valid, Slope, Curve, Smooth, BMeanAt, SideMeanAt, Mean, TMean;
    MeanSlope(c, d, t, true, g, n);
    SlopeEq(SideMeanAt(c, t, true, g, n), BMeanAt(c, t, g, n), TBMean(c(0.0), d, t, g, n));
  }

  lemma CRawSlope(c: real -> Block, d: Tangent, t: int, g: int, n: int)
    requires Curve(c, d) && Smooth(c(0.0).fns)
    ensures Slope(CRawAt(c, t, g, n), TCRaw(c(0.0), d, t, g, n))
  {
    hide Valid, Slope, Curve, Smooth, CRawAt, SideMeanAt, Mean, TMean;
    MeanSlope(c, d, t, false, g, n);
    SlopeEq(SideMeanAt(c, t, false, g, n), CRawAt(c, t, g, n), TCRaw(c(0.0), d, t, g, n));
  }

  lemma BRawForm(m: Block, d: Tangent, t: int, g: int, n: int)
    ensures BRaw(m, t, g, n) == Mul(BMean(m, t, g, n), Trap(m, t, g))
    ensures TBRaw(m, d, t, g, n)
            == Mul(TBMean(m, d, t, g, n), Trap(m, t, g)) + Mul(BMean(m, t, g, n), TTrap(m, d, t, g))
  {
    hide Valid, BMean, Trap, TBMean, TTrap;
  }

  lemma BRawSlope(c: real -> Block, d: Tangent, t: int, g: int, n: int)
    requires Curve(c, d) && Smooth(c(0.0).fns)
    ensures Slope(BRawAt(c, t, g, n), TBRaw(c(0.0), d, t, g, n))
  {
    hide Valid, Slope, Curve, Smooth, BRawAt, BRaw, TBRaw, BMeanAt, BMean, TBMean, TrapAlong, Trap, TTrap, Mul;
    var m := c(0.0);
    BMeanSlope(c, d, t, g, n);
    TrapSlope(c, d, t, g);
    forall e ensures BRawAt(c, t, g, n)(e) == Mul(BMeanAt(c, t, g, n)(e), TrapAlong(c, t, g)(e)) {
      BRawForm(c(e), d, t, g, n);
    }
    BRawForm(m, d, t, g, n);
    SlopeMul(BRawAt(c, t, g, n), TBRaw(m, d, t, g, n), BMeanAt(c, t, g, n), TBMean(m, d, t, g, n), TrapAlong(c, t, g),
             TTrap(m, d, t, g));
  }
}
