/** Paths through the Mamba3 block's inputs and parameters: how a block may move, and its values along the way. */
module MambaPaths {
  import opened Sums
  import opened Slopes
  import opened MambaModel
  import opened MambaTangent

  /** The same sizes, functions and upstream gradient; only inputs and parameters differ. */
  ghost predicate Alike(m: Block, n: Block) {
    n == m.(u := n.u, inW := n.inW, convW := n.convW, convB := n.convB, dtBias := n.dtBias, bScale := n.bScale,
            bBias := n.bBias, cScale := n.cScale, cBias := n.cBias, skip := n.skip, h0 := n.h0, outW := n.outW)
  }

  // ---- inputs and parameters along a path ----

  ghost function UAt(c: real -> Block, i: int, j: int): (f: real -> real)
    ensures forall e {:trigger f(e)} :: f(e) == c(e).u(i, j)
  {
    (e: real) => c(e).u(i, j)
  }

  ghost function InWAt(c: real -> Block, i: int, j: int): (f: real -> real)
    ensures forall e {:trigger f(e)} :: f(e) == c(e).inW(i, j)
  {
    (e: real) => c(e).inW(i, j)
  }

  ghost function ConvWAt(c: real -> Block, i: int, j: int): (f: real -> real)
    ensures forall e {:trigger f(e)} :: f(e) == c(e).convW(i, j)
  {
    (e: real) => c(e).convW(i, j)
  }

  ghost function ConvBAt(c: real -> Block, i: int): (f: real -> real)
    ensures forall e {:trigger f(e)} :: f(e) == c(e).convB(i)
  {
    (e: real) => c(e).convB(i)
  }

  ghost function DtBiasAt(c: real -> Block, i: int): (f: real -> real)
    ensures forall e {:trigger f(e)} :: f(e) == c(e).dtBias(i)
  {
    (e: real) => c(e).dtBias(i)
  }

  ghost function BScaleAt(c: real -> Block, i: int): (f: real -> real)
    ensures forall e {:trigger f(e)} :: f(e) == c(e).bScale(i)
  {
    (e: real) => c(e).bScale(i)
  }

  ghost function BBiasAt(c: real -> Block, i: int): (f: real -> real)
    ensures forall e {:trigger f(e)} :: f(e) == c(e).bBias(i)
  {
    (e: real) => c(e).bBias(i)
  }

  ghost function CScaleAt(c: real -> Block, i: int): (f: real -> real)
    ensures forall e {:trigger f(e)} :: f(e) == c(e).cScale(i)
  {
    (e: real) => c(e).cScale(i)
  }

  ghost function CBiasAt(c: real -> Block, i: int): (f: real -> real)
    ensures forall e {:trigger f(e)} :: f(e) == c(e).cBias(i)
  {
    (e: real) => c(e).cBias(i)
  }

  ghost function SkipAt(c: real -> Block, i: int): (f: real -> real)
    ensures forall e {:trigger f(e)} :: f(e) == c(e).skip(i)
  {
    (e: real) => c(e).skip(i)
  }

  ghost function H0At(c: real -> Block, i: int, j: int): (f: real -> real)
    ensures forall e {:trigger f(e)} :: f(e) == c(e).h0(i, j)
  {
    (e: real) => c(e).h0(i, j)
  }

  ghost function OutWAt(c: real -> Block, i: int, j: int): (f: real -> real)
    ensures forall e {:trigger f(e)} :: f(e) == c(e).outW(i, j)
  {
    (e: real) => c(e).outW(i, j)
  }

  /** `c` is a path through blocks that moves with velocity `d` at zero. */
  ghost predicate Curve(c: real -> Block, d: Tangent) {
    && (forall e {:trigger c(e)} :: Alike(c(0.0), c(e)))
    && (forall i, j {:trigger UAt(c, i, j)} :: Slope(UAt(c, i, j), d.u(i, j)))
    && (forall i, j {:trigger InWAt(c, i, j)} :: Slope(InWAt(c, i, j), d.inW(i, j)))
    && (forall i, j {:trigger ConvWAt(c, i, j)} :: Slope(ConvWAt(c, i, j), d.convW(i, j)))
    && (forall i {:trigger ConvBAt(c, i)} :: Slope(ConvBAt(c, i), d.convB(i)))
    && (forall i {:trigger DtBiasAt(c, i)} :: Slope(DtBiasAt(c, i), d.dtBias(i)))
    && (forall i {:trigger BScaleAt(c, i)} :: Slope(BScaleAt(c, i), d.bScale(i)))
    && (forall i {:trigger BBiasAt(c, i)} :: Slope(BBiasAt(c, i), d.bBias(i)))
    && (forall i {:trigger CScaleAt(c, i)} :: Slope(CScaleAt(c, i), d.cScale(i)))
    && (forall i {:trigger CBiasAt(c, i)} :: Slope(CBiasAt(c, i), d.cBias(i)))
    && (forall i {:trigger SkipAt(c, i)} :: Slope(SkipAt(c, i), d.skip(i)))
    && (forall i, j {:trigger H0At(c, i, j)} :: Slope(H0At(c, i, j), d.h0(i, j)))
    && (forall i, j {:trigger OutWAt(c, i, j)} :: Slope(OutWAt(c, i, j), d.outW(i, j)))
  }

  lemma USlope(c: real -> Block, d: Tangent, i: int, j: int)
    requires Curve(c, d)
    ensures Slope(UAt(c, i, j), d.u(i, j))
  {
    hide Slope, UAt;
    assert Slope(UAt(c, i, j), d.u(i, j));
  }

  lemma InWSlope(c: real -> Block, d: Tangent, i: int, j: int)
    requires Curve(c, d)
    ensures Slope(InWAt(c, i, j), d.inW(i, j))
  {
    hide Slope, InWAt;
    assert Slope(InWAt(c, i, j), d.inW(i, j));
  }

  lemma ConvWSlope(c: real -> Block, d: Tangent, i: int, j: int)
    requires Curve(c, d)
    ensures Slope(ConvWAt(c, i, j), d.convW(i, j))
  {
    hide Slope, ConvWAt;
    assert Slope(ConvWAt(c, i, j), d.convW(i, j));
  }

  lemma ConvBSlope(c: real -> Block, d: Tangent, i: int)
    requires Curve(c, d)
    ensures Slope(ConvBAt(c, i), d.convB(i))
  {
    hide Slope, ConvBAt;
    assert Slope(ConvBAt(c, i), d.convB(i));
  }

  lemma DtBiasSlope(c: real -> Block, d: Tangent, i: int)
    requires Curve(c, d)
    ensures Slope(DtBiasAt(c, i), d.dtBias(i))
  {
    hide Slope, DtBiasAt;
    assert Slope(DtBiasAt(c, i), d.dtBias(i));
  }

  lemma BScaleSlope(c: real -> Block, d: Tangent, i: int)
    requires Curve(c, d)
    ensures Slope(BScaleAt(c, i), d.bScale(i))
  {
    hide Slope, BScaleAt;
    assert Slope(BScaleAt(c, i), d.bScale(i));
  }

  lemma BBiasSlope(c: real -> Block, d: Tangent, i: int)
    requires Curve(c, d)
    ensures Slope(BBiasAt(c, i), d.bBias(i))
  {
    hide Slope, BBiasAt;
    assert Slope(BBiasAt(c, i), d.bBias(i));
  }

  lemma CScaleSlope(c: real -> Block, d: Tangent, i: int)
    requires Curve(c, d)
    ensures Slope(CScaleAt(c, i), d.cScale(i))
  {
    hide Slope, CScaleAt;
    assert Slope(CScaleAt(c, i), d.cScale(i));
  }

  lemma CBiasSlope(c: real -> Block, d: Tangent, i: int)
    requires Curve(c, d)
    ensures Slope(CBiasAt(c, i), d.cBias(i))
  {
    hide Slope, CBiasAt;
    assert Slope(CBiasAt(c, i), d.cBias(i));
  }

  lemma SkipSlope(c: real -> Block, d: Tangent, i: int)
    requires Curve(c, d)
    ensures Slope(SkipAt(c, i), d.skip(i))
  {
    hide Slope, SkipAt;
    assert Slope(SkipAt(c, i), d.skip(i));
  }

  lemma H0Slope(c: real -> Block, d: Tangent, i: int, j: int)
    requires Curve(c, d)
    ensures Slope(H0At(c, i, j), d.h0(i, j))
  {
    hide Slope, H0At;
    assert Slope(H0At(c, i, j), d.h0(i, j));
  }

  lemma OutWSlope(c: real -> Block, d: Tangent, i: int, j: int)
    requires Curve(c, d)
    ensures Slope(OutWAt(c, i, j), d.outW(i, j))
  {
    hide Slope, OutWAt;
    assert Slope(OutWAt(c, i, j), d.outW(i, j));
  }

  /** The straight path from `m` along `d`. */
  ghost function Line(m: Block, d: Tangent): (c: real -> Block)
    ensures forall e {:trigger c(e)} :: c(e) == Shifted(m, d, e)
  {
    hide Shifted;
    (e: real) => Shifted(m, d, e)
  }

  ghost function Shifted(m: Block, d: Tangent, e: real): Block {
    hide Shift, Shift2;
    m.(u := Shift2(m.u, d.u, e), inW := Shift2(m.inW, d.inW, e), convW := Shift2(m.convW, d.convW, e),
       convB := Shift(m.convB, d.convB, e), dtBias := Shift(m.dtBias, d.dtBias, e),
       bScale := Shift(m.bScale, d.bScale, e), bBias := Shift(m.bBias, d.bBias, e),
       cScale := Shift(m.cScale, d.cScale, e), cBias := Shift(m.cBias, d.cBias, e),
       skip := Shift(m.skip, d.skip, e), h0 := Shift2(m.h0, d.h0, e), outW := Shift2(m.outW, d.outW, e))
  }

  lemma LineIsCurve(m: Block, d: Tangent)
    ensures Curve(Line(m, d), d) && Line(m, d)(0.0) == Shifted(m, d, 0.0)
  {
    hide Slope, Line, Shift, Shift2, Mul;
    var c := Line(m, d);
    forall i, j ensures Slope(UAt(c, i, j), d.u(i, j)) {
      SlopeLine(UAt(c, i, j), m.u(i, j), d.u(i, j));
    }
    forall i, j ensures Slope(InWAt(c, i, j), d.inW(i, j)) {
      SlopeLine(InWAt(c, i, j), m.inW(i, j), d.inW(i, j));
    }
    forall i, j ensures Slope(ConvWAt(c, i, j), d.convW(i, j)) {
      SlopeLine(ConvWAt(c, i, j), m.convW(i, j), d.convW(i, j));
    }
    forall i ensures Slope(ConvBAt(c, i), d.convB(i)) {
      SlopeLine(ConvBAt(c, i), m.convB(i), d.convB(i));
    }
    forall i ensures Slope(DtBiasAt(c, i), d.dtBias(i)) {
      SlopeLine(DtBiasAt(c, i), m.dtBias(i), d.dtBias(i));
    }
    forall i ensures Slope(BScaleAt(c, i), d.bScale(i)) {
      SlopeLine(BScaleAt(c, i), m.bScale(i), d.bScale(i));
    }
    forall i ensures Slope(BBiasAt(c, i), d.bBias(i)) {
      SlopeLine(BBiasAt(c, i), m.bBias(i), d.bBias(i));
    }
    forall i ensures Slope(CScaleAt(c, i), d.cScale(i)) {
      SlopeLine(CScaleAt(c, i), m.cScale(i), d.cScale(i));
    }
    forall i ensures Slope(CBiasAt(c, i), d.cBias(i)) {
      SlopeLine(CBiasAt(c, i), m.cBias(i), d.cBias(i));
    }
    forall i ensures Slope(SkipAt(c, i), d.skip(i)) {
      SlopeLine(SkipAt(c, i), m.skip(i), d.skip(i));
    }
    forall i, j ensures Slope(H0At(c, i, j), d.h0(i, j)) {
      SlopeLine(H0At(c, i, j), m.h0(i, j), d.h0(i, j));
    }
    forall i, j ensures Slope(OutWAt(c, i, j), d.outW(i, j)) {
      SlopeLine(OutWAt(c, i, j), m.outW(i, j), d.outW(i, j));
    }
  }

  // ---- the block's values along a path ----

  ghost function ProjAt(c: real -> Block, t: int, p: int): (v: real -> real)
    ensures forall e {:trigger v(e)} :: v(e) == Proj(c(e), t, p)
  {
    hide Proj;
    (e: real) => Proj(c(e), t, p)
  }

  ghost function TapAt(c: real -> Block, s: int, x: int): (v: real -> real)
    ensures forall e {:trigger v(e)} :: v(e) == Tap(c(e), s, x)
  {
    hide Tap;
    (e: real) => Tap(c(e), s, x)
  }

  ghost function ConvPreAt(c: real -> Block, t: int, x: int): (v: real -> real)
    ensures forall e {:trigger v(e)} :: v(e) == ConvPre(c(e), t, x)
  {
    hide ConvPre;
    (e: real) => ConvPre(c(e), t, x)
  }

  ghost function ConvAlong(c: real -> Block, t: int, x: int): (v: real -> real)
    ensures forall e {:trigger v(e)} :: v(e) == Conv(c(e), t, x)
  {
    hide Conv;
    (e: real) => Conv(c(e), t, x)
  }

  ghost function DtPreAt(c: real -> Block, t: int, h: int): (v: real -> real)
    ensures forall e {:trigger v(e)} :: v(e) == DtPre(c(e), t, h)
  {
    hide DtPre;
    (e: real) => DtPre(c(e), t, h)
  }

  ghost function DtAlong(c: real -> Block, t: int, h: int): (v: real -> real)
    ensures forall e {:trigger v(e)} :: v(e) == Dt(c(e), t, h)
  {
    hide Dt;
    (e: real) => Dt(c(e), t, h)
  }

  ghost function DecayAlong(c: real -> Block, t: int, h: int): (v: real -> real)
    ensures forall e {:trigger v(e)} :: v(e) == Decay(c(e), t, h)
  {
    hide Decay;
    (e: real) => Decay(c(e), t, h)
  }

  ghost function AngleAlong(c: real -> Block, t: int, h: int, j: int): (v: real -> real)
    ensures forall e {:trigger v(e)} :: v(e) == Angle(c(e), t, h, j)
  {
    hide Angle;
    (e: real) => Angle(c(e), t, h, j)
  }

  ghost function NextDtAt(c: real -> Block, t: int, h: int): (v: real -> real)
    ensures forall e {:trigger v(e)} :: v(e) == NextDt(c(e), t, h)
  {
    hide NextDt;
    (e: real) => NextDt(c(e), t, h)
  }

  ghost function NextTrapAt(c: real -> Block, t: int, h: int): (v: real -> real)
    ensures forall e {:trigger v(e)} :: v(e) == NextTrap(c(e), t, h)
  {
    hide NextTrap;
    (e: real) => NextTrap(c(e), t, h)
  }

  ghost function TrapTermAt(c: real -> Block, t: int, h: int): (v: real -> real)
    ensures forall e {:trigger v(e)} :: v(e) == TrapTerm(c(e), t, h)
  {
    hide TrapTerm;
    (e: real) => TrapTerm(c(e), t, h)
  }

  ghost function TrapAlong(c: real -> Block, t: int, g: int): (v: real -> real)
    ensures forall e {:trigger v(e)} :: v(e) == Trap(c(e), t, g)
  {
    hide Trap;
    (e: real) => Trap(c(e), t, g)
  }

  ghost function BMeanAt(c: real -> Block, t: int, g: int, n: int): (v: real -> real)
    ensures forall e {:trigger v(e)} :: v(e) == BMean(c(e), t, g, n)
  {
    hide BMean;
    (e: real) => BMean(c(e), t, g, n)
  }

  ghost function CRawAt(c: real -> Block, t: int, g: int, n: int): (v: real -> real)
    ensures forall e {:trigger v(e)} :: v(e) == CRaw(c(e), t, g, n)
  {
    hide CRaw;
    (e: real) => CRaw(c(e), t, g, n)
  }

  ghost function BRawAt(c: real -> Block, t: int, g: int, n: int): (v: real -> real)
    ensures forall e {:trigger v(e)} :: v(e) == BRaw(c(e), t, g, n)
  {
    hide BRaw;
    (e: real) => BRaw(c(e), t, g, n)
  }

  ghost function BRotAt(c: real -> Block, t: int, g: int, n: int): (v: real -> real)
    ensures forall e {:trigger v(e)} :: v(e) == BRot(c(e), t, g, n)
  {
    hide BRot;
    (e: real) => BRot(c(e), t, g, n)
  }

  ghost function CRotAt(c: real -> Block, t: int, g: int, n: int): (v: real -> real)
    ensures forall e {:trigger v(e)} :: v(e) == CRot(c(e), t, g, n)
  {
    hide CRot;
    (e: real) => CRot(c(e), t, g, n)
  }

  ghost function KeepAt(c: real -> Block, t: int, h: int): (v: real -> real)
    ensures forall e {:trigger v(e)} :: v(e) == Keep(c(e), t, h)
  {
    hide Keep;
    (e: real) => Keep(c(e), t, h)
  }

  ghost function StateAt(c: real -> Block, t: int, f: int, n: int): (v: real -> real)
    ensures forall e {:trigger v(e)} :: v(e) == State(c(e), t, f, n)
  {
    hide State;
    (e: real) => State(c(e), t, f, n)
  }

  ghost function ScanOutAt(c: real -> Block, t: int, f: int): (v: real -> real)
    ensures forall e {:trigger v(e)} :: v(e) == ScanOut(c(e), t, f)
  {
    hide ScanOut;
    (e: real) => ScanOut(c(e), t, f)
  }

  ghost function GatedAt(c: real -> Block, t: int, f: int): (v: real -> real)
    ensures forall e {:trigger v(e)} :: v(e) == Gated(c(e), t, f)
  {
    hide Gated;
    (e: real) => Gated(c(e), t, f)
  }

  ghost function OutAt(c: real -> Block, t: int, o: int): (v: real -> real)
    ensures forall e {:trigger v(e)} :: v(e) == Out(c(e), t, o)
  {
    hide Out;
    (e: real) => Out(c(e), t, o)
  }

  ghost function InvRmsAt(c: real -> Block, t: int, at: int, r: int, g: int): (v: real -> real)
    ensures forall e {:trigger v(e)} :: v(e) == InvRms(c(e), t, at, r, g)
  {
    hide InvRms;
    (e: real) => InvRms(c(e), t, at, r, g)
  }
}
