/** Paths through the M2RNN block's inputs and parameters, and its values along the way. */
module RnnBlockPaths {
  import opened Sums
  import opened Slopes
  import opened RnnModel
  import opened RnnBlockModel
  import opened RnnBlockGradient
  import RmsNorm

  /** The same sizes, functions, saved history and upstream gradient; only inputs and parameters differ. */
  ghost predicate Alike(b: Block, n: Block) {
    n == b.(u := n.u, inW := n.inW, convW := n.convW, convB := n.convB, w := n.w, logRate := n.logRate, bias := n.bias,
            skip := n.skip, h0 := n.h0, scale := n.scale, outW := n.outW)
  }

  // ---- inputs and parameters along a path ----

  ghost function UAt(c: real -> Block, i: int, j: int): (f: real -> real)
    ensures forall e {:trigger f(e)} :: f(e) == c(e).u(i, j)
  {
    (e: real) => c(e).u(i, j)
  }

  ghost function InWAt(c: real -> Block, i: int, j: int): (f: real -> real)
    ensures forall e {:trigger f(e)} :: f(e) == c(e).inW(i, j)
  {
    (e: real) => c(e).inW(i, j)
  }

  ghost function ConvWAt(c: real -> Block, i: int, j: int): (f: real -> real)
    ensures forall e {:trigger f(e)} :: f(e) == c(e).convW(i, j)
  {
    (e: real) => c(e).convW(i, j)
  }

  ghost function ConvBAt(c: real -> Block, i: int): (f: real -> real)
    ensures forall e {:trigger f(e)} :: f(e) == c(e).convB(i)
  {
    (e: real) => c(e).convB(i)
  }

  ghost function WAt(c: real -> Block, i: int, j: int, k: int): (f: real -> real)
    ensures forall e {:trigger f(e)} :: f(e) == c(e).w(i, j, k)
  {
    (e: real) => c(e).w(i, j, k)
  }

  ghost function LogRateAt(c: real -> Block, i: int): (f: real -> real)
    ensures forall e {:trigger f(e)} :: f(e) == c(e).logRate(i)
  {
    (e: real) => c(e).logRate(i)
  }

  ghost function BiasAt(c: real -> Block, i: int): (f: real -> real)
    ensures forall e {:trigger f(e)} :: f(e) == c(e).bias(i)
  {
    (e: real) => c(e).bias(i)
  }

  ghost function SkipAt(c: real -> Block, i: int, j: int): (f: real -> real)
    ensures forall e {:trigger f(e)} :: f(e) == c(e).skip(i, j)
  {
    (e: real) => c(e).skip(i, j)
  }

  ghost function H0At(c: real -> Block, i: int, j: int): (f: real -> real)
    ensures forall e {:trigger f(e)} :: f(e) == c(e).h0(i, j)
  {
    (e: real) => c(e).h0(i, j)
  }

  ghost function ScaleAt(c: real -> Block, i: int): (f: real -> real)
    ensures forall e {:trigger f(e)} :: f(e) == c(e).scale(i)
  {
    (e: real) => c(e).scale(i)
  }

  ghost function OutWAt(c: real -> Block, i: int, j: int): (f: real -> real)
    ensures forall e {:trigger f(e)} :: f(e) == c(e).outW(i, j)
  {
    (e: real) => c(e).outW(i, j)
  }

  /** `c` is a path through blocks that moves with velocity `d` at zero. */
  ghost predicate Curve(c: real -> Block, d: Moves) {
    && (forall e {:trigger c(e)} :: Alike(c(0.0), c(e)))
    && (forall i, j {:trigger UAt(c, i, j)} :: Slope(UAt(c, i, j), d.u(i, j)))
    && (forall i, j {:trigger InWAt(c, i, j)} :: Slope(InWAt(c, i, j), d.inW(i, j)))
    && (forall i, j {:trigger ConvWAt(c, i, j)} :: Slope(ConvWAt(c, i, j), d.convW(i, j)))
    && (forall i {:trigger ConvBAt(c, i)} :: Slope(ConvBAt(c, i), d.convB(i)))
    && (forall i, j, k {:trigger WAt(c, i, j, k)} :: Slope(WAt(c, i, j, k), d.w(i, j, k)))
    && (forall i {:trigger LogRateAt(c, i)} :: Slope(LogRateAt(c, i), d.logRate(i)))
    && (forall i {:trigger BiasAt(c, i)} :: Slope(BiasAt(c, i), d.bias(i)))
    && (forall i, j {:trigger SkipAt(c, i, j)} :: Slope(SkipAt(c, i, j), d.skip(i, j)))
    && (forall i, j {:trigger H0At(c, i, j)} :: Slope(H0At(c, i, j), d.h0(i, j)))
    && (forall i {:trigger ScaleAt(c, i)} :: Slope(ScaleAt(c, i), d.scale(i)))
    && (forall i, j {:trigger OutWAt(c, i, j)} :: Slope(OutWAt(c, i, j), d.outW(i, j)))
  }

  lemma USlope(c: real -> Block, d: Moves, i: int, j: int)
    requires Curve(c, d)
    ensures Slope(UAt(c, i, j), d.u(i, j))
  {
    hide Slope, UAt;
    assert Slope(UAt(c, i, j), d.u(i, j));
  }

  lemma InWSlope(c: real -> Block, d: Moves, i: int, j: int)
    requires Curve(c, d)
    ensures Slope(InWAt(c, i, j), d.inW(i, j))
  {
    hide Slope, InWAt;
    assert Slope(InWAt(c, i, j), d.inW(i, j));
  }

  lemma ConvWSlope(c: real -> Block, d: Moves, i: int, j: int)
    requires Curve(c, d)
    ensures Slope(ConvWAt(c, i, j), d.convW(i, j))
  {
    hide Slope, ConvWAt;
    assert Slope(ConvWAt(c, i, j), d.convW(i, j));
  }

  lemma ConvBSlope(c: real -> Block, d: Moves, i: int)
    requires Curve(c, d)
    ensures Slope(ConvBAt(c, i), d.convB(i))
  {
    hide Slope, ConvBAt;
    assert Slope(ConvBAt(c, i), d.convB(i));
  }

  lemma WSlope(c: real -> Block, d: Moves, i: int, j: int, k: int)
    requires Curve(c, d)
    ensures Slope(WAt(c, i, j, k), d.w(i, j, k))
  {
    hide Slope, WAt;
    assert Slope(WAt(c, i, j, k), d.w(i, j, k));
  }

  lemma LogRateSlope(c: real -> Block, d: Moves, i: int)
    requires Curve(c, d)
    ensures Slope(LogRateAt(c, i), d.logRate(i))
  {
    hide Slope, LogRateAt;
    assert Slope(LogRateAt(c, i), d.logRate(i));
  }

  lemma BiasSlope(c: real -> Block, d: Moves, i: int)
    requires Curve(c, d)
    ensures Slope(BiasAt(c, i), d.bias(i))
  {
    hide Slope, BiasAt;
    assert Slope(BiasAt(c, i), d.bias(i));
  }

  lemma SkipSlope(c: real -> Block, d: Moves, i: int, j: int)
    requires Curve(c, d)
    ensures Slope(SkipAt(c, i, j), d.skip(i, j))
  {
    hide Slope, SkipAt;
    assert Slope(SkipAt(c, i, j), d.skip(i, j));
  }

  lemma H0Slope(c: real -> Block, d: Moves, i: int, j: int)
    requires Curve(c, d)
    ensures Slope(H0At(c, i, j), d.h0(i, j))
  {
    hide Slope, H0At;
    assert Slope(H0At(c, i, j), d.h0(i, j));
  }

  lemma ScaleSlope(c: real -> Block, d: Moves, i: int)
    requires Curve(c, d)
    ensures Slope(ScaleAt(c, i), d.scale(i))
  {
    hide Slope, ScaleAt;
    assert Slope(ScaleAt(c, i), d.scale(i));
  }

  lemma OutWSlope(c: real -> Block, d: Moves, i: int, j: int)
    requires Curve(c, d)
    ensures Slope(OutWAt(c, i, j), d.outW(i, j))
  {
    hide Slope, OutWAt;
    assert Slope(OutWAt(c, i, j), d.outW(i, j));
  }

  // ---- the block's values along a path ----

  ghost function ProjAt(c: real -> Block, t: int, p: int): (v: real -> real)
    ensures forall e {:trigger v(e)} :: v(e) == Proj(c(e), t, p)
  {
    hide Proj;
    (e: real) => Proj(c(e), t, p)
  }

  ghost function TapAt(c: real -> Block, t: int, k: int, x: int): (v: real -> real)
    ensures forall e {:trigger v(e)} :: v(e) == Tap(c(e), t, k, x)
  {
    hide Tap;
    (e: real) => Tap(c(e), t, k, x)
  }

  ghost function ConvPreAt(c: real -> Block, t: int, x: int): (v: real -> real)
    ensures forall e {:trigger v(e)} :: v(e) == ConvPre(c(e), t, x)
  {
    hide ConvPre;
    (e: real) => ConvPre(c(e), t, x)
  }

  ghost function ConvAt(c: real -> Block, t: int, x: int): (v: real -> real)
    ensures forall e {:trigger v(e)} :: v(e) == Conv(c(e), t, x)
  {
    hide Conv;
    (e: real) => Conv(c(e), t, x)
  }

  ghost function ReadoutAt(c: real -> Block, t: int, f: int): (v: real -> real)
    ensures forall e {:trigger v(e)} :: v(e) == Readout(c(e), t, f)
  {
    hide Readout;
    (e: real) => Readout(c(e), t, f)
  }

  ghost function GateAlong(c: real -> Block, t: int, f: int): (v: real -> real)
    ensures forall e {:trigger v(e)} :: v(e) == Gate(c(e), t, f)
  {
    hide Gate;
    (e: real) => Gate(c(e), t, f)
  }

  ghost function PostAt(c: real -> Block, t: int, f: int): (v: real -> real)
    ensures forall e {:trigger v(e)} :: v(e) == Post(c(e), t, f)
  {
    hide Post;
    (e: real) => Post(c(e), t, f)
  }

  ghost function NormedAt(c: real -> Block, t: int, f: int): (v: real -> real)
    ensures forall e {:trigger v(e)} :: v(e) == Normed(c(e), t, f)
  {
    hide Normed;
    (e: real) => Normed(c(e), t, f)
  }

  ghost function OutAt(c: real -> Block, t: int, o: int): (v: real -> real)
    ensures forall e {:trigger v(e)} :: v(e) == Out(c(e), t, o)
  {
    hide Out;
    (e: real) => Out(c(e), t, o)
  }

  /** The recurrence, and the rows of the norm, along a path. */
  ghost function PlainAt(c: real -> Block): (v: real -> Rnn)
    ensures forall e {:trigger v(e)} :: v(e) == Plain(c(e))
  {
    hide Plain;
    (e: real) => Plain(c(e))
  }

  ghost function NormAt(c: real -> Block): (v: real -> RmsNorm.Norm)
    ensures forall e {:trigger v(e)} :: v(e) == Norm(c(e))
  {
    hide Norm;
    (e: real) => Norm(c(e))
  }

  // ---- the straight path ----

  /** From `b` along `d`. */
  ghost function Line(b: Block, d: Moves): (c: real -> Block)
    ensures forall e {:trigger c(e)} :: c(e) == Shifted(b, d, e)
  {
    hide Shifted;
    (e: real) => Shifted(b, d, e)
  }

  ghost function Shifted(b: Block, d: Moves, e: real): Block {
    hide Shift, Shift2, Shift3, Shared;
    b.(u := Shift2(b.u, d.u, e), inW := Shift2(b.inW, d.inW, e), convW := Shift2(b.convW, d.convW, e),
       convB := Shift(b.convB, d.convB, e), w := Shift3(b.w, d.w, e), logRate := Shift(b.logRate, d.logRate, e),
       bias := Shift(b.bias, d.bias, e), skip := Shift2(b.skip, d.skip, e), h0 := Shift2(b.h0, d.h0, e),
       scale := Shift(b.scale, d.scale, e), outW := Shift2(b.outW, d.outW, e))
  }

  lemma LineIsCurve(b: Block, d: Moves)
    ensures Curve(Line(b, d), d)
  {
    hide Slope, Line, Shift, Shift2, Shift3, Mul, Shared, Sound;
    var c := Line(b, d);
    forall i, j ensures Slope(UAt(c, i, j), d.u(i, j)) {
      SlopeLine(UAt(c, i, j), b.u(i, j), d.u(i, j));
    }
    forall i, j ensures Slope(InWAt(c, i, j), d.inW(i, j)) {
      SlopeLine(InWAt(c, i, j), b.inW(i, j), d.inW(i, j));
    }
    forall i, j ensures Slope(ConvWAt(c, i, j), d.convW(i, j)) {
      SlopeLine(ConvWAt(c, i, j), b.convW(i, j), d.convW(i, j));
    }
    forall i ensures Slope(ConvBAt(c, i), d.convB(i)) {
      SlopeLine(ConvBAt(c, i), b.convB(i), d.convB(i));
    }
    forall i, j, k ensures Slope(WAt(c, i, j, k), d.w(i, j, k)) {
      SlopeLine(WAt(c, i, j, k), b.w(i, j, k), d.w(i, j, k));
    }
    forall i ensures Slope(LogRateAt(c, i), d.logRate(i)) {
      SlopeLine(LogRateAt(c, i), b.logRate(i), d.logRate(i));
    }
    forall i ensures Slope(BiasAt(c, i), d.bias(i)) {
      SlopeLine(BiasAt(c, i), b.bias(i), d.bias(i));
    }
    forall i, j ensures Slope(SkipAt(c, i, j), d.skip(i, j)) {
      SlopeLine(SkipAt(c, i, j), b.skip(i, j), d.skip(i, j));
    }
    forall i, j ensures Slope(H0At(c, i, j), d.h0(i, j)) {
      SlopeLine(H0At(c, i, j), b.h0(i, j), d.h0(i, j));
    }
    forall i ensures Slope(ScaleAt(c, i), d.scale(i)) {
      SlopeLine(ScaleAt(c, i), b.scale(i), d.scale(i));
    }
    forall i, j ensures Slope(OutWAt(c, i, j), d.outW(i, j)) {
      SlopeLine(OutWAt(c, i, j), b.outW(i, j), d.outW(i, j));
    }
  }
}
