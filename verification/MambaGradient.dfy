/** What the reverse loop of the Mamba3 block leaves in each of its buffers, as functions of the row.

    `StateGrad` and `AngleGrad` are the two cotangents carried from row to row; the other functions are
    row-local.  The module MambaAdjoint proves that together they are the exact adjoint of
    MambaTangent, and MambaBackward that the kernel computes them. */
module MambaGradient {
  import opened Sums
  import opened Functions
  import opened Indices
  import opened MambaModel

  // ---- output projection, gate and scan ----

  ghost function GatedGrad(m: Block, t: int, f: int): real {
    Sum(m.width, o => m.up(t, o) * m.outW(o, f))
  }

  /** The gate y * z * sigmoid(z), reversed: towards y and towards z. */
  function GateToY(k: Fns, grad: real, z: real): real {
    grad * z * Sigmoid(k, z)
  }

  function GateToZ(k: Fns, grad: real, y: real, z: real): real {
    grad * y * Sigmoid(k, z) * (1.0 + z * (1.0 - Sigmoid(k, z)))
  }

  ghost function ScanOutGrad(m: Block, t: int, f: int): real {
    GateToY(m.fns, GatedGrad(m, t, f), Proj(m, t, f))
  }

  ghost function GateGrad(m: Block, t: int, f: int): real {
    GateToZ(m.fns, GatedGrad(m, t, f), ScanOut(m, t, f), Proj(m, t, f))
  }

  /** The carried cotangent of the state after `t` rows, once every row from `t` on has been reversed. */
  ghost function StateGrad(m: Block, t: int, f: int, n: int): real
    decreases m.rows - t
  {
    if t >= m.rows then 0.0
    else (StateGrad(m, t + 1, f, n) + ScanOutGrad(m, t, f) * CRot(m, t, Group(m, f), n)) * Keep(m, t, Head(m, f))
  }

  /** The cotangent of the state after row `t`: what later rows want plus what the row's output wants. */
  ghost function FullStateGrad(m: Block, t: int, f: int, n: int): real {
    StateGrad(m, t + 1, f, n) + ScanOutGrad(m, t, f) * CRot(m, t, Group(m, f), n)
  }

  ghost function CRotGrad(m: Block, t: int, g: int, n: int): real {
    Keyed(m.features, f => Group(m, f), f => ScanOutGrad(m, t, f) * State(m, t + 1, f, n), g)
  }

  ghost function BRotGrad(m: Block, t: int, g: int, n: int): real {
    Keyed(m.features, f => Group(m, f), f => FullStateGrad(m, t, f, n) * Conv(m, t, f), g)
  }

  ghost function XRow(m: Block, t: int, f: int): real {
    Sum(m.state, n => FullStateGrad(m, t, f, n) * BRot(m, t, Group(m, f), n))
  }

  ghost function XGrad(m: Block, t: int, f: int): real {
    ScanOutGrad(m, t, f) * m.skip(Head(m, f)) + XRow(m, t, f)
  }

  ghost function DecayTerm(m: Block, t: int, f: int, n: int): real {
    FullStateGrad(m, t, f, n) * State(m, t, f, n) * Keep(m, t, Head(m, f)) * Dt(m, t, Head(m, f))
  }

  ghost function StepTerm(m: Block, t: int, f: int, n: int): real {
    FullStateGrad(m, t, f, n) * State(m, t, f, n) * Keep(m, t, Head(m, f)) * Decay(m, t, Head(m, f))
  }

  ghost function DecayRow(m: Block, t: int, f: int): real { Sum(m.state, n => DecayTerm(m, t, f, n)) }
  ghost function StepRow(m: Block, t: int, f: int): real { Sum(m.state, n => StepTerm(m, t, f, n)) }

  ghost function DecayGrad(m: Block, t: int, h: int): real {
    Keyed(m.features, f => Head(m, f), f => DecayRow(m, t, f), h)
  }

  ghost function ScanDtGrad(m: Block, t: int, h: int): real {
    Keyed(m.features, f => Head(m, f), f => StepRow(m, t, f), h)
  }

  // ---- rotation, mean and trapezoid ----

  /** A rotated pair's cotangent (g, k), turned back, and the angle's share of it. */
  function UnturnFirst(c: real, s: real, g: real, k: real): real { g * c + k * s }
  function UnturnSecond(c: real, s: real, g: real, k: real): real { -g * s + k * c }

  function TurnGrad(c: real, s: real, g: real, k: real, x: real, y: real): real {
    g * (-x * s - y * c) + k * (x * c - y * s)
  }

  ghost function Unrotate(m: Block, grad: int -> real, angle: int -> real, n: int): real {
    if n < 2 * m.angles then
      if n % 2 == 0 then UnturnFirst(m.fns.cos(angle(n / 2)), m.fns.sin(angle(n / 2)), grad(n), grad(n + 1))
      else UnturnSecond(m.fns.cos(angle(n / 2)), m.fns.sin(angle(n / 2)), grad(n - 1), grad(n))
    else grad(n)
  }

  ghost function RotationGrad(m: Block, grad: int -> real, raw: int -> real, angle: int -> real, j: int): real {
    TurnGrad(m.fns.cos(angle(j)), m.fns.sin(angle(j)), grad(2 * j), grad(2 * j + 1), raw(2 * j), raw(2 * j + 1))
  }

  ghost function BRawGrad(m: Block, t: int, g: int, n: int): real {
    Unrotate(m, i => BRotGrad(m, t, g, i), j => Angle(m, t + 1, g, j), n)
  }

  ghost function CRawGrad(m: Block, t: int, g: int, n: int): real {
    Unrotate(m, i => CRotGrad(m, t, g, i), j => Angle(m, t + 1, g, j), n)
  }

  ghost function BTurn(m: Block, t: int, g: int, j: int): real {
    RotationGrad(m, i => BRotGrad(m, t, g, i), i => BRaw(m, t, g, i), a => Angle(m, t + 1, g, a), j)
  }

  ghost function CTurn(m: Block, t: int, g: int, j: int): real {
    RotationGrad(m, i => CRotGrad(m, t, g, i), i => CRaw(m, t, g, i), a => Angle(m, t + 1, g, a), j)
  }

  /** What row `t`'s two rotations add to the angle cotangent of head `h`: only the first `groups` heads
      are read by a rotation. */
  ghost function AngleTerm(m: Block, t: int, h: int, j: int): real {
    if h < m.groups then BTurn(m, t, h, j) + CTurn(m, t, h, j) else 0.0
  }

  /** The carried cotangent of the angle after row `t`: the suffix sum of the rotations' derivatives. */
  ghost function AngleGrad(m: Block, t: int, h: int, j: int): real
    decreases m.rows - t
  {
    if t >= m.rows then 0.0 else AngleGrad(m, t + 1, h, j) + AngleTerm(m, t, h, j)
  }

  ghost function TrapGrad(m: Block, t: int, g: int): real {
    Sum(m.state, n => BRawGrad(m, t, g, n) * BMean(m, t, g, n))
  }

  ghost function BMeanGrad(m: Block, t: int, g: int, n: int): real {
    BRawGrad(m, t, g, n) * Trap(m, t, g)
  }

  /** The cotangent of one rank's share of the B mean, and of the C mean. */
  ghost function BShare(m: Block, t: int, g: int, n: int): real {
    BMeanGrad(m, t, g, n) / m.ranks as real
  }

  ghost function CShare(m: Block, t: int, g: int, n: int): real {
    CRawGrad(m, t, g, n) / m.ranks as real
  }

  /** The normalisation of rank `r` and group `g`, reversed; B and C differ in `at`, `share` and `scale`. */
  ghost function NormDot(m: Block, t: int, at: int, share: (int, int) -> real, scale: int -> real, r: int,
                         g: int): real {
    Sum(m.state, n => NormDotTerm(share(g, n), scale(Flat(m, r, g, n)), Conv(m, t, at + Flat(m, r, g, n))))
  }

  ghost function NormGrad(m: Block, t: int, at: int, share: (int, int) -> real, scale: int -> real,
                          r: int, g: int, n: int): real
  {
    NormBackward(InvRms(m, t, at, r, g), share(g, n), scale(Flat(m, r, g, n)), Conv(m, t, at + Flat(m, r, g, n)),
                 NormDot(m, t, at, share, scale, r, g), m.state as real)
  }

  function RankOf(m: Block, c: int): int { c / m.state / m.groups }
  function GroupOf(m: Block, c: int): int { c / m.state % m.groups }
  function StateOf(m: Block, c: int): int { c % m.state }

  lemma FlatParts(m: Block, r: int, g: int, n: int)
    requires 0 <= g < m.groups && 0 <= n < m.state
    ensures RankOf(m, Flat(m, r, g, n)) == r && GroupOf(m, Flat(m, r, g, n)) == g && StateOf(m, Flat(m, r, g, n)) == n
  {
    DivMod(r * m.groups + g, n, m.state);
    DivMod(r, g, m.groups);
  }

  /** The same three gradients by channel: of the convolution value, of the scale and of the bias. */
  ghost function ChannelGrad(m: Block, t: int, at: int, share: (int, int) -> real, scale: int -> real, c: int): real {
    NormGrad(m, t, at, share, scale, RankOf(m, c), GroupOf(m, c), StateOf(m, c))
  }

  ghost function ScaleGrad(m: Block, t: int, at: int, share: (int, int) -> real, c: int): real {
    Mul(Mul(share(GroupOf(m, c), StateOf(m, c)), Conv(m, t, at + c)), InvRms(m, t, at, RankOf(m, c), GroupOf(m, c)))
  }

  ghost function BConvGrad(m: Block, t: int, c: int): real {
    ChannelGrad(m, t, BAt(m), (g, n) => BShare(m, t, g, n), m.bScale, c)
  }

  ghost function CConvGrad(m: Block, t: int, c: int): real {
    ChannelGrad(m, t, CAt(m), (g, n) => CShare(m, t, g, n), m.cScale, c)
  }

  ghost function ConvGrad(m: Block, t: int, c: int): real {
    if c < m.features then XGrad(m, t, c)
    else if c < CAt(m) then BConvGrad(m, t, c - BAt(m))
    else CConvGrad(m, t, c - CAt(m))
  }

  ghost function ConvPreGrad(m: Block, t: int, c: int): real {
    ConvGrad(m, t, c) * Sigmoid(m.fns, ConvPre(m, t, c))
    * (1.0 + ConvPre(m, t, c) * (1.0 - Sigmoid(m.fns, ConvPre(m, t, c))))
  }

  // ---- step size, decay, trapezoid and angle projections ----

  ghost function HeadTrapGrad(m: Block, t: int, h: int): real {
    TrapGrad(m, t, h / m.perGroup) / m.perGroup as real
  }

  ghost function TrapDtGrad(m: Block, t: int, h: int): real {
    HeadTrapGrad(m, t, h) * Sigmoid(m.fns, Proj(m, t, TrapAt(m) + h))
  }

  ghost function TrapProjGrad(m: Block, t: int, h: int): real {
    HeadTrapGrad(m, t, h) * Dt(m, t, h) * DSigmoid(m.fns, Proj(m, t, TrapAt(m) + h))
  }

  /** Look-ahead: what row `t` wants of row `t + 1`'s step and trapezoid projections. */
  ghost function NextDtGrad(m: Block, t: int, h: int): real {
    if t + 1 < m.rows then
      HeadTrapGrad(m, t, h) * (1.0 - Sigmoid(m.fns, NextTrap(m, t, h))) * Sigmoid(m.fns, NextDtPre(m, t, h))
    else 0.0
  }

  ghost function NextTrapGrad(m: Block, t: int, h: int): real {
    if t + 1 < m.rows then HeadTrapGrad(m, t, h) * NextDt(m, t, h) * (-DSigmoid(m.fns, NextTrap(m, t, h))) else 0.0
  }

  ghost function AngleProjGrad(m: Block, t: int, j: int): real {
    Sum(m.heads, h => AngleGrad(m, t, h, j) * Dt(m, t, h))
  }

  ghost function AngleDtGrad(m: Block, t: int, h: int): real {
    Sum(m.angles, j => AngleGrad(m, t, h, j) * Proj(m, t, AngleAt(m) + j))
  }

  ghost function DtGrad(m: Block, t: int, h: int): real {
    ScanDtGrad(m, t, h) + TrapDtGrad(m, t, h) + AngleDtGrad(m, t, h)
  }

  ghost function DtProjGrad(m: Block, t: int, h: int): real {
    DtGrad(m, t, h) * Sigmoid(m.fns, DtPre(m, t, h))
  }

  ghost function DecayProjGrad(m: Block, t: int, h: int): real {
    if -Softplus(m.fns, Proj(m, t, DecayAt(m) + h)) < -0.01
    then DecayGrad(m, t, h) * -Sigmoid(m.fns, Proj(m, t, DecayAt(m) + h))
    else 0.0
  }

  /** Row `t`'s cotangent of its own projection. */
  ghost function ProjGrad(m: Block, t: int, p: int): real {
    if p < ConvAt(m) then GateGrad(m, t, p)
    else if p < DtAt(m) then ConvPreGrad(m, t, p - ConvAt(m)) * m.convW(p - ConvAt(m), 2)
    else if p < DecayAt(m) then DtProjGrad(m, t, p - DtAt(m))
    else if p < TrapAt(m) then DecayProjGrad(m, t, p - DecayAt(m))
    else if p < AngleAt(m) then TrapProjGrad(m, t, p - TrapAt(m))
    else AngleProjGrad(m, t, p - AngleAt(m))
  }

  // ---- what row t adds to each gradient buffer ----

  /** What a projection's cotangent `coef` adds to one input weight, and what it sends back to one hidden
      entry. */
  function WeightTerm(m: Block, row: int, i: int, coef: real): real { m.u(row, i) * coef }
  function HiddenBack(m: Block, p: int, i: int, coef: real): real { coef * m.inW(p, i) }

  ghost function OwnHidden(m: Block, t: int, i: int): real {
    Sum(ProjDims(m), p => ProjGrad(m, t, p) * m.inW(p, i))
  }

  /** Convolution tap `k` of row `t` reaches back to row `t - 2 + k`. */
  ghost function TapHidden(m: Block, t: int, k: int, i: int): real {
    Sum(Channels(m), c => ConvPreGrad(m, t, c) * m.convW(c, k) * m.inW(ConvAt(m) + c, i))
  }

  ghost function AheadHidden(m: Block, t: int, i: int): real {
    Sum(m.heads, h => NextDtGrad(m, t, h) * m.inW(DtAt(m) + h, i) + NextTrapGrad(m, t, h) * m.inW(TrapAt(m) + h, i))
  }

  /** What the iteration of row `t` adds to the hidden gradient of row `r`. */
  ghost function HiddenTerm(m: Block, r: int, i: int, t: int): real {
    if r == t then OwnHidden(m, t, i)
    else if r == t + 1 then AheadHidden(m, t, i)
    else if r == t - 1 then TapHidden(m, t, 1, i)
    else if r == t - 2 then TapHidden(m, t, 0, i)
    else 0.0
  }

  ghost function TapWeightTerm(m: Block, t: int, k: int, c: int, i: int): real {
    if t - 2 + k >= 0 then m.u(t - 2 + k, i) * ConvPreGrad(m, t, c) * m.convW(c, k) else 0.0
  }

  ghost function AheadWeightTerm(m: Block, p: int, i: int, t: int): real {
    if DtAt(m) <= p < DecayAt(m) then m.u(t + 1, i) * NextDtGrad(m, t, p - DtAt(m))
    else if TrapAt(m) <= p < AngleAt(m) then m.u(t + 1, i) * NextTrapGrad(m, t, p - TrapAt(m))
    else 0.0
  }

  ghost function InWTerm(m: Block, p: int, i: int, t: int): real {
    AheadWeightTerm(m, p, i, t)
    + (if ConvAt(m) <= p < DtAt(m) then TapWeightTerm(m, t, 0, p - ConvAt(m), i)
       + TapWeightTerm(m, t, 1, p - ConvAt(m), i)
       else 0.0)
    + m.u(t, i) * ProjGrad(m, t, p)
  }

  ghost function ConvWTerm(m: Block, c: int, k: int, t: int): real {
    ConvPreGrad(m, t, c) * Tap(m, t - 2 + k, c)
  }

  ghost function DtBiasTerm(m: Block, h: int, t: int): real {
    NextDtGrad(m, t, h) + DtProjGrad(m, t, h)
  }

  ghost function BScaleTerm(m: Block, c: int, t: int): real {
    ScaleGrad(m, t, BAt(m), (g, n) => BShare(m, t, g, n), c)
  }

  ghost function BBiasTerm(m: Block, c: int, t: int): real { BShare(m, t, GroupOf(m, c), StateOf(m, c)) }

  ghost function CScaleTerm(m: Block, c: int, t: int): real {
    ScaleGrad(m, t, CAt(m), (g, n) => CShare(m, t, g, n), c)
  }

  ghost function CBiasTerm(m: Block, c: int, t: int): real { CShare(m, t, GroupOf(m, c), StateOf(m, c)) }

  ghost function SkipTerm(m: Block, h: int, t: int): real {
    Keyed(m.features, f => Head(m, f), f => ScanOutGrad(m, t, f) * Conv(m, t, f), h)
  }

  ghost function OutWTerm(m: Block, o: int, f: int, t: int): real { m.up(t, o) * Gated(m, t, f) }

  ghost function ConvBTerm(m: Block, c: int, t: int): real { ConvPreGrad(m, t, c) }

  // ---- the gradient buffers once rows `t` and later have been reversed; `t == 0` is the end ----

  ghost function HiddenGrad(m: Block, t: int, r: int, i: int): real { SumFrom(t, m.rows, s => HiddenTerm(m, r, i, s)) }
  ghost function InWGrad(m: Block, t: int, p: int, i: int): real { SumFrom(t, m.rows, s => InWTerm(m, p, i, s)) }
  ghost function ConvWGrad(m: Block, t: int, c: int, k: int): real { SumFrom(t, m.rows, s => ConvWTerm(m, c, k, s)) }
  ghost function ConvBGrad(m: Block, t: int, c: int): real { SumFrom(t, m.rows, s => ConvBTerm(m, c, s)) }
  ghost function DtBiasGrad(m: Block, t: int, h: int): real { SumFrom(t, m.rows, s => DtBiasTerm(m, h, s)) }
  ghost function BScaleGrad(m: Block, t: int, c: int): real { SumFrom(t, m.rows, s => BScaleTerm(m, c, s)) }
  ghost function BBiasGrad(m: Block, t: int, c: int): real { SumFrom(t, m.rows, s => BBiasTerm(m, c, s)) }
  ghost function CScaleGrad(m: Block, t: int, c: int): real { SumFrom(t, m.rows, s => CScaleTerm(m, c, s)) }
  ghost function CBiasGrad(m: Block, t: int, c: int): real { SumFrom(t, m.rows, s => CBiasTerm(m, c, s)) }
  ghost function SkipGrad(m: Block, t: int, h: int): real { SumFrom(t, m.rows, s => SkipTerm(m, h, s)) }
  ghost function OutWGrad(m: Block, t: int, o: int, f: int): real { SumFrom(t, m.rows, s => OutWTerm(m, o, f, s)) }
}
