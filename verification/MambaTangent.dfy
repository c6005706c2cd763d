/** The linearised forward pass of the Mamba3 block: how every value of MambaModel moves, to first
    order, when the inputs and parameters move by a `Tangent`.

    Each function is the product and chain rule applied to its namesake in MambaModel.  The rules for
    the uninterpreted functions are exp' = exp, log'(1 + exp x) = sigmoid x, sigmoid' = s(1 - s),
    cos' = -sin, sin' = cos, rsqrt' = -rsqrt^3 / 2, and the decay's minimum passes its tangent on
    exactly when the kernel's guard takes the unclamped branch. */
module MambaTangent {
  import opened Sums
  import opened Functions
  import opened MambaModel

  datatype Tangent = Tangent(
    u: (int, int) -> real, inW: (int, int) -> real, convW: (int, int) -> real, convB: int -> real,
    dtBias: int -> real, bScale: int -> real, bBias: int -> real, cScale: int -> real, cBias: int -> real,
    skip: int -> real, h0: (int, int) -> real, outW: (int, int) -> real)

  ghost function TProjTerm(m: Block, d: Tangent, t: int, p: int, i: int): real {
    d.u(t, i) * m.inW(p, i) + m.u(t, i) * d.inW(p, i)
  }

  ghost function TProj(m: Block, d: Tangent, t: int, p: int): real {
    Sum(m.width, i => TProjTerm(m, d, t, p, i))
  }

  ghost function TTap(m: Block, d: Tangent, s: int, c: int): real {
    if s >= 0 then TProj(m, d, s, ConvAt(m) + c) else 0.0
  }

  ghost function TConvPre(m: Block, d: Tangent, t: int, c: int): real {
    d.convB(c)
    + (TTap(m, d, t - 2, c) * m.convW(c, 0) + Tap(m, t - 2, c) * d.convW(c, 0))
    + (TTap(m, d, t - 1, c) * m.convW(c, 1) + Tap(m, t - 1, c) * d.convW(c, 1))
    + (TProj(m, d, t, ConvAt(m) + c) * m.convW(c, 2) + Proj(m, t, ConvAt(m) + c) * d.convW(c, 2))
  }

  ghost function TConv(m: Block, d: Tangent, t: int, c: int): real {
    DSilu(m.fns, ConvPre(m, t, c)) * TConvPre(m, d, t, c)
  }

  ghost function TDtPre(m: Block, d: Tangent, t: int, h: int): real {
    TProj(m, d, t, DtAt(m) + h) + d.dtBias(h)
  }

  ghost function TDt(m: Block, d: Tangent, t: int, h: int): real {
    Sigmoid(m.fns, DtPre(m, t, h)) * TDtPre(m, d, t, h)
  }

  ghost function TDecay(m: Block, d: Tangent, t: int, h: int): real {
    if -Softplus(m.fns, Proj(m, t, DecayAt(m) + h)) < -0.01
    then -Sigmoid(m.fns, Proj(m, t, DecayAt(m) + h)) * TProj(m, d, t, DecayAt(m) + h)
    else 0.0
  }

  ghost function TAngle(m: Block, d: Tangent, t: int, h: int, j: int): real
    decreases t
  {
    if t <= 0 then 0.0
    else
      TAngle(m, d, t - 1, h, j)
      + (TProj(m, d, t - 1, AngleAt(m) + j) * Dt(m, t - 1, h) + Proj(m, t - 1, AngleAt(m) + j) * TDt(m, d, t - 1, h))
  }

  ghost function TNextDt(m: Block, d: Tangent, t: int, h: int): real {
    if t + 1 < m.rows then Sigmoid(m.fns, NextDtPre(m, t, h)) * TDtPre(m, d, t + 1, h) else 0.0
  }

  ghost function TNextTrap(m: Block, d: Tangent, t: int, h: int): real {
    if t + 1 < m.rows then TProj(m, d, t + 1, TrapAt(m) + h) else 0.0
  }

  ghost function TTrapTerm(m: Block, d: Tangent, t: int, h: int): real {
    (TNextDt(m, d, t, h) * (1.0 - Sigmoid(m.fns, NextTrap(m, t, h)))
     + NextDt(m, t, h) * (-(DSigmoid(m.fns, NextTrap(m, t, h)) * TNextTrap(m, d, t, h))))
    + (TDt(m, d, t, h) * Sigmoid(m.fns, Proj(m, t, TrapAt(m) + h))
       + Dt(m, t, h) * (DSigmoid(m.fns, Proj(m, t, TrapAt(m) + h)) * TProj(m, d, t, TrapAt(m) + h)))
  }

  ghost function TTrap(m: Block, d: Tangent, t: int, g: int): real {
    Sum(m.perGroup, k => TTrapTerm(m, d, t, GroupHead(m, g, k))) / m.perGroup as real
  }

  ghost function TSquares(m: Block, d: Tangent, t: int, at: int, r: int, g: int): real {
    Sum(m.state, n => Mul(Conv(m, t, at + Flat(m, r, g, n)), TConv(m, d, t, at + Flat(m, r, g, n))))
  }

  ghost function TInvRms(m: Block, d: Tangent, t: int, at: int, r: int, g: int): real {
    InvTangent(InvRms(m, t, at, r, g), TSquares(m, d, t, at, r, g), m.state as real)
  }

  /** One rank's share of the tangent of the normalised, scaled and shifted mean. */
  ghost function TMeanTerm(m: Block, d: Tangent, t: int, at: int, scale: int -> real, dScale: int -> real,
                           dBias: int -> real, g: int, n: int, r: int): real
  {
    NormTangent(Conv(m, t, at + Flat(m, r, g, n)), TConv(m, d, t, at + Flat(m, r, g, n)), InvRms(m, t, at, r, g),
                TInvRms(m, d, t, at, r, g), scale(Flat(m, r, g, n)), dScale(Flat(m, r, g, n)), dBias(Flat(m, r, g, n)))
  }

  ghost function TMean(m: Block, d: Tangent, t: int, at: int, scale: int -> real, dScale: int -> real,
                       dBias: int -> real, g: int, n: int): real
  {
    Sum(m.ranks, r => TMeanTerm(m, d, t, at, scale, dScale, dBias, g, n, r)) / m.ranks as real
  }

  ghost function TBMean(m: Block, d: Tangent, t: int, g: int, n: int): real {
    TMean(m, d, t, BAt(m), m.bScale, d.bScale, d.bBias, g, n)
  }

  ghost function TCRaw(m: Block, d: Tangent, t: int, g: int, n: int): real {
    TMean(m, d, t, CAt(m), m.cScale, d.cScale, d.cBias, g, n)
  }

  ghost function TBRaw(m: Block, d: Tangent, t: int, g: int, n: int): real {
    TBMean(m, d, t, g, n) * Trap(m, t, g) + BMean(m, t, g, n) * TTrap(m, d, t, g)
  }

  /** The tangent of a rotated pair: (tx, ty) moves the pair and `ta` the angle. */
  ghost function TTurnFirst(c: real, s: real, x: real, y: real, tx: real, ty: real, ta: real): real {
    (tx * c - x * s * ta) - (ty * s + y * c * ta)
  }

  ghost function TTurnSecond(c: real, s: real, x: real, y: real, tx: real, ty: real, ta: real): real {
    (tx * s + x * c * ta) + (ty * c - y * s * ta)
  }

  ghost function TRotate(m: Block, raw: int -> real, angle: int -> real, tRaw: int -> real, tAngle: int -> real,
                         n: int): real
  {
    if n < 2 * m.angles then
      if n % 2 == 0 then
        TTurnFirst(m.fns.cos(angle(n / 2)), m.fns.sin(angle(n / 2)), raw(n), raw(n + 1), tRaw(n), tRaw(n + 1),
                   tAngle(n / 2))
      else
        TTurnSecond(m.fns.cos(angle(n / 2)), m.fns.sin(angle(n / 2)), raw(n - 1), raw(n), tRaw(n - 1), tRaw(n),
                    tAngle(n / 2))
    else tRaw(n)
  }

  ghost function TBRot(m: Block, d: Tangent, t: int, g: int, n: int): real {
    TRotate(m, i => BRaw(m, t, g, i), j => Angle(m, t + 1, g, j), i => TBRaw(m, d, t, g, i),
            j => TAngle(m, d, t + 1, g, j), n)
  }

  ghost function TCRot(m: Block, d: Tangent, t: int, g: int, n: int): real {
    TRotate(m, i => CRaw(m, t, g, i), j => Angle(m, t + 1, g, j), i => TCRaw(m, d, t, g, i),
            j => TAngle(m, d, t + 1, g, j), n)
  }

  ghost function TKeep(m: Block, d: Tangent, t: int, h: int): real {
    Keep(m, t, h) * (TDecay(m, d, t, h) * Dt(m, t, h) + Decay(m, t, h) * TDt(m, d, t, h))
  }

  ghost function TState(m: Block, d: Tangent, t: int, f: int, n: int): real
    decreases t
  {
    if t <= 0 then d.h0(f, n)
    else
      (TKeep(m, d, t - 1, Head(m, f)) * State(m, t - 1, f, n) + Keep(m, t - 1, Head(m, f)) * TState(m, d, t - 1, f, n))
      + (TConv(m, d, t - 1, f) * BRot(m, t - 1, Group(m, f), n)
         + Conv(m, t - 1, f) * TBRot(m, d, t - 1, Group(m, f), n))
  }

  ghost function TReadTerm(m: Block, d: Tangent, t: int, f: int, n: int): real {
    TState(m, d, t + 1, f, n) * CRot(m, t, Group(m, f), n) + State(m, t + 1, f, n) * TCRot(m, d, t, Group(m, f), n)
  }

  ghost function TRead(m: Block, d: Tangent, t: int, f: int): real {
    Sum(m.state, n => TReadTerm(m, d, t, f, n))
  }

  ghost function TScanOut(m: Block, d: Tangent, t: int, f: int): real {
    TRead(m, d, t, f)
    + (d.skip(Head(m, f)) * Conv(m, t, f) + m.skip(Head(m, f)) * TConv(m, d, t, f))
  }

  ghost function TGated(m: Block, d: Tangent, t: int, f: int): real {
    TScanOut(m, d, t, f) * Silu(m.fns, Proj(m, t, f))
    + ScanOut(m, t, f) * (DSilu(m.fns, Proj(m, t, f)) * TProj(m, d, t, f))
  }

  ghost function TOutTerm(m: Block, d: Tangent, t: int, o: int, f: int): real {
    TGated(m, d, t, f) * m.outW(o, f) + Gated(m, t, f) * d.outW(o, f)
  }

  ghost function TOut(m: Block, d: Tangent, t: int, o: int): real {
    Sum(m.features, f => TOutTerm(m, d, t, o, f))
  }
}
