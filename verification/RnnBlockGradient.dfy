/** The whole M2RNN block's linearised forward pass, and what its reverse sweep leaves in each buffer. */
module RnnBlockGradient {
  import opened Sums
  import opened Functions
  import opened RingHistory
  import opened ProjectionSegments
  import opened RnnBlockModel
  import RmsNorm
  import G = RnnGradient

  // ---- tangents ----

  datatype Moves = Moves(
    u: (int, int) -> real, inW: (int, int) -> real, convW: (int, int) -> real, convB: int -> real,
    w: (int, int, int) -> real, logRate: int -> real, bias: int -> real, skip: (int, int) -> real,
    h0: (int, int) -> real,
    scale: int -> real, outW: (int, int) -> real)

  /** The input projection. */
  ghost function In(b: Block, d: Moves): Dense { Dense(b.rows, b.width, b.u, b.inW, d.u, d.inW) }

  ghost function TProj(b: Block, d: Moves, t: int, p: int): real { Move(In(b, d), t, p) }

  /** Tap `k` of row `t`, the row's own projection being the last; the saved history does not move. */
  function Tap(b: Block, t: int, k: int, c: int): real { DirectTap(TAPS, b.history, Projected(b), t, k, c) }

  ghost function TTap(b: Block, d: Moves, t: int, k: int, c: int): real {
    if t - TAPS + k >= 0 then TProj(b, d, t - TAPS + k, c) else 0.0
  }

  ghost function TConvTerm(b: Block, d: Moves, t: int, c: int, k: int): real {
    Mul(TTap(b, d, t, k, c), b.convW(c, k)) + Mul(Tap(b, t, k, c), d.convW(c, k))
  }

  ghost function TConvPre(b: Block, d: Moves, t: int, c: int): real {
    d.convB(c) + Sum(TAPS + 1, k => TConvTerm(b, d, t, c, k))
  }

  ghost function TConv(b: Block, d: Moves, t: int, c: int): real {
    Mul(DSilu(b.fns, ConvPre(b, t, c)), TConvPre(b, d, t, c))
  }

  /** What moves in the recurrence. */
  ghost function Inner(b: Block, d: Moves): G.Tangent {
    G.Tangent((t, s) => TConv(b, d, t, s), (t, s) => TConv(b, d, t, KeyAt(b) + s),
              (t, s, j) => TConv(b, d, t, ValueAt(b) + s * b.vals + j), (t, s) => TProj(b, d, t, Channels(b) + s),
              d.w, d.logRate, d.bias, d.skip, d.h0)
  }

  ghost function TReadout(b: Block, d: Moves, t: int, f: int): real {
    G.TRead(Plain(b), Inner(b, d), t, f / b.vals, f % b.vals)
  }

  ghost function TPost(b: Block, d: Moves, t: int, f: int): real {
    Mul(TReadout(b, d, t, f), Silu(b.fns, Gate(b, t, f)))
    + Mul(Readout(b, t, f), Mul(DSilu(b.fns, Gate(b, t, f)), TProj(b, d, t, GateAt(b) + f)))
  }

  ghost function TNormed(b: Block, d: Moves, t: int, f: int): real {
    RmsNorm.TOut(Norm(b), (t, f) => TPost(b, d, t, f), d.scale, t, f)
  }

  ghost function TOutTerm(b: Block, d: Moves, t: int, o: int, f: int): real {
    Mul(TNormed(b, d, t, f), b.outW(o, f)) + Mul(Normed(b, t, f), d.outW(o, f))
  }

  ghost function TOut(b: Block, d: Moves, t: int, o: int): real { Sum(Features(b), f => TOutTerm(b, d, t, o, f)) }

  // ---- what row t sends back through the gate, the convolution and the projection ----

  function GateGrad(b: Block, t: int, f: int): real {
    Mul(Mul(PostGrad(b, t, f), Readout(b, t, f)), DSilu(b.fns, Gate(b, t, f)))
  }

  /** The convolution's channels hold the queries, the keys and the values. */
  ghost function ConvGrad(b: Block, t: int, c: int): real {
    if c < KeyAt(b) then G.QueryGrad(Core(b), t, c)
    else if c < ValueAt(b) then G.KeyGrad(Core(b), t, c - KeyAt(b))
    else G.ValueGrad(Core(b), t, (c - ValueAt(b)) / b.vals, (c - ValueAt(b)) % b.vals)
  }

  ghost function ConvPreGrad(b: Block, t: int, c: int): real {
    Mul(ConvGrad(b, t, c), DSilu(b.fns, ConvPre(b, t, c)))
  }

  ghost function TapCoef(b: Block, t: int, k: int, c: int): real { Mul(ConvPreGrad(b, t, c), b.convW(c, k)) }

  ghost function ProjGrad(b: Block, t: int, p: int): real {
    if p < Channels(b) then TapCoef(b, t, TAPS, p)
    else if p < GateAt(b) then G.ForgetGrad(Core(b), t, p - Channels(b))
    else GateGrad(b, t, p - GateAt(b))
  }

  /** What row `t` projects back: to an earlier row through each of the three earlier taps, and to itself. */
  ghost function Back(b: Block, t: int, k: int): Segment {
    if k < TAPS then Segment(t - TAPS + k >= 0, Channels(b), 0, t - TAPS + k, c => TapCoef(b, t, k, c))
    else Segment(true, Dims(b), 0, t, p => ProjGrad(b, t, p))
  }

  ghost function Backs(b: Block, t: int): int -> Segment { k => Back(b, t, k) }

  // ---- what row t adds to each gradient ----

  ghost function HiddenTerm(b: Block, r: int, i: int, t: int): real {
    SegsInput(b.inW, TAPS + 1, Backs(b, t), r, i)
  }

  ghost function InWTerm(b: Block, p: int, i: int, t: int): real {
    SegsWeight(b.u, TAPS + 1, Backs(b, t), p, i)
  }

  ghost function ConvWTerm(b: Block, c: int, k: int, t: int): real {
    Mul(ConvPreGrad(b, t, c), Tap(b, t, k, c))
  }

  ghost function ConvBTerm(b: Block, c: int, t: int): real { ConvPreGrad(b, t, c) }

  ghost function ScaleTerm(b: Block, f: int, t: int): real { RmsNorm.WTerm(Norm(b), t, f) }

  ghost function OutWTerm(b: Block, o: int, f: int, t: int): real { Mul(b.up(t, o), Normed(b, t, f)) }

  // ---- the gradients once rows `t` and later have been reversed ----

  ghost function HiddenGrad(b: Block, t: int, r: int, i: int): real {
    SumFrom(t, b.rows, s => HiddenTerm(b, r, i, s))
  }

  ghost function InWGrad(b: Block, t: int, p: int, i: int): real { SumFrom(t, b.rows, s => InWTerm(b, p, i, s)) }
  ghost function ConvWGrad(b: Block, t: int, c: int, k: int): real { SumFrom(t, b.rows, s => ConvWTerm(b, c, k, s)) }
  ghost function ConvBGrad(b: Block, t: int, c: int): real { SumFrom(t, b.rows, s => ConvBTerm(b, c, s)) }
  ghost function ScaleGrad(b: Block, t: int, f: int): real { SumFrom(t, b.rows, s => ScaleTerm(b, f, s)) }
  ghost function OutWGrad(b: Block, t: int, o: int, f: int): real { SumFrom(t, b.rows, s => OutWTerm(b, o, f, s)) }
}
