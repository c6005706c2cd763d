/** The Mamba3 block: its inputs and, row by row, the values its forward pass computes.

    Everything is a function of the immutable inputs and a row number; the kernels in the modules
    MambaForward and MambaBackward compute these values in place. */
module MambaModel {
  import opened Sums
  import opened Functions
  import opened Indices

  /** Sizes, inputs, parameters and upstream gradient of one launch.  The in-projection's output is laid
      out as gate | convolution channels | dt | A | trapezoid | angles, and the convolution channels as
      x | B | C with B and C indexed by rank, group and state. */
  datatype Raw = Raw(
    rows: nat, width: nat, groups: nat, perGroup: nat, heads: nat, headDim: nat, features: nat,
    state: nat, ranks: nat, bc: nat, angles: nat,
    fns: Fns,
    u: (int, int) -> real,
    inW: (int, int) -> real,
    convW: (int, int) -> real, convB: int -> real,
    dtBias: int -> real,
    bScale: int -> real, bBias: int -> real, cScale: int -> real, cBias: int -> real,
    skip: int -> real,
    h0: (int, int) -> real,
    outW: (int, int) -> real,
    up: (int, int) -> real)

  ghost predicate Valid(m: Raw) {
    && 0 < m.groups && 0 < m.perGroup && 0 < m.headDim && 0 < m.state && 0 < m.ranks
    && m.heads == m.groups * m.perGroup && m.groups <= m.heads
    && m.features == m.heads * m.headDim
    && m.bc == m.ranks * m.groups * m.state
    && 2 * m.angles <= m.state
  }

  type Block = m: Raw | Valid(m)
    ghost witness Raw(0, 0, 1, 1, 1, 1, 1, 1, 1, 1, 0, NOFNS, (i, j) => 0.0, (i, j) => 0.0, (i, j) => 0.0, i => 0.0,
                      i => 0.0, i => 0.0, i => 0.0, i => 0.0, i => 0.0, i => 0.0, (i, j) => 0.0, (i, j) => 0.0,
                      (i, j) => 0.0)

  // ---- index layout ----

  function Channels(m: Block): nat { m.features + 2 * m.bc }
  function ConvAt(m: Block): nat { m.features }
  function DtAt(m: Block): nat { m.features + Channels(m) }
  function DecayAt(m: Block): nat { DtAt(m) + m.heads }
  function TrapAt(m: Block): nat { DtAt(m) + 2 * m.heads }
  function AngleAt(m: Block): nat { DtAt(m) + 3 * m.heads }
  function ProjDims(m: Block): nat { DtAt(m) + 3 * m.heads + m.angles }

  function Head(m: Block, f: int): (h: int)
    ensures 0 <= f < m.features ==> 0 <= h < m.heads
  {
    DivRange(f, m.heads, m.headDim);
    f / m.headDim
  }

  function Group(m: Block, f: int): (g: int)
    ensures 0 <= f < m.features ==> 0 <= g < m.groups
  {
    DivRange(Head(m, f), m.groups, m.perGroup);
    Head(m, f) / m.perGroup
  }

  /** Head `k` of group `g`. */
  function GroupHead(m: Block, g: int, k: int): (h: int)
    ensures 0 <= g < m.groups && 0 <= k < m.perGroup ==> 0 <= h < m.heads
  {
    FlatRange(g, m.groups, k, m.perGroup);
    g * m.perGroup + k
  }

  /** Rank `r`, group `g`, state `n` among the `bc` channels of B, and of C. */
  function Flat(m: Block, r: int, g: int, n: int): (c: int)
    ensures 0 <= r < m.ranks && 0 <= g < m.groups && 0 <= n < m.state ==> 0 <= c < m.bc
  {
    FlatRange(r, m.ranks, g, m.groups);
    FlatRange(r * m.groups + g, m.ranks * m.groups, n, m.state);
    (r * m.groups + g) * m.state + n
  }

  // ---- forward row values ----

  ghost function Proj(m: Block, t: int, p: int): real {
    Sum(m.width, i => m.u(t, i) * m.inW(p, i))
  }

  /** The convolution input of channel `c` at row `s`; rows before the first are zero. */
  ghost function Tap(m: Block, s: int, c: int): real {
    if s >= 0 then Proj(m, s, ConvAt(m) + c) else 0.0
  }

  ghost function ConvPre(m: Block, t: int, c: int): real {
    m.convB(c) + Tap(m, t - 2, c) * m.convW(c, 0) + Tap(m, t - 1, c) * m.convW(c, 1)
    + Proj(m, t, ConvAt(m) + c) * m.convW(c, 2)
  }

  ghost function Conv(m: Block, t: int, c: int): real {
    Silu(m.fns, ConvPre(m, t, c))
  }

  ghost function DtPre(m: Block, t: int, h: int): real {
    Proj(m, t, DtAt(m) + h) + m.dtBias(h)
  }

  ghost function Dt(m: Block, t: int, h: int): real {
    Softplus(m.fns, DtPre(m, t, h))
  }

  ghost function Decay(m: Block, t: int, h: int): real {
    Min(-Softplus(m.fns, Proj(m, t, DecayAt(m) + h)), -0.01)
  }

  /** The rotation angle after `t` rows. */
  ghost function Angle(m: Block, t: int, h: int, j: int): real
    decreases t
  {
    if t <= 0 then 0.0 else Angle(m, t - 1, h, j) + Proj(m, t - 1, AngleAt(m) + j) * Dt(m, t - 1, h)
  }

  ghost function NextDtPre(m: Block, t: int, h: int): real {
    if t + 1 < m.rows then DtPre(m, t + 1, h) else 0.0
  }

  ghost function NextDt(m: Block, t: int, h: int): real {
    if t + 1 < m.rows then Softplus(m.fns, NextDtPre(m, t, h)) else 0.0
  }

  ghost function NextTrap(m: Block, t: int, h: int): real {
    if t + 1 < m.rows then Proj(m, t + 1, TrapAt(m) + h) else 0.0
  }

  /** What head `h` adds to its group's trapezoid weight: this row's step and the look-ahead to the next. */
  ghost function TrapTerm(m: Block, t: int, h: int): real {
    NextDt(m, t, h) * (1.0 - Sigmoid(m.fns, NextTrap(m, t, h)))
    + Dt(m, t, h) * Sigmoid(m.fns, Proj(m, t, TrapAt(m) + h))
  }

  ghost function Trap(m: Block, t: int, g: int): real {
    Sum(m.perGroup, k => TrapTerm(m, t, GroupHead(m, g, k))) / m.perGroup as real
  }

  /** B and C share one normalisation; `at` is the first channel of the one meant. */
  ghost function InvRms(m: Block, t: int, at: int, r: int, g: int): real {
    m.fns.rsqrt(Sum(m.state, n => Conv(m, t, at + Flat(m, r, g, n)) * Conv(m, t, at + Flat(m, r, g, n)))
                / m.state as real + 0.00001)
  }

  ghost function Mean(m: Block, t: int, at: int, scale: int -> real, bias: int -> real, g: int, n: int): real {
    Sum(m.ranks, r => Conv(m, t, at + Flat(m, r, g, n)) * InvRms(m, t, at, r, g) * scale(Flat(m, r, g, n))
                      + bias(Flat(m, r, g, n)))
    / m.ranks as real
  }

  function BAt(m: Block): nat { m.features }
  function CAt(m: Block): nat { m.features + m.bc }

  ghost function BMean(m: Block, t: int, g: int, n: int): real { Mean(m, t, BAt(m), m.bScale, m.bBias, g, n) }
  ghost function CRaw(m: Block, t: int, g: int, n: int): real { Mean(m, t, CAt(m), m.cScale, m.cBias, g, n) }
  ghost function BRaw(m: Block, t: int, g: int, n: int): real { BMean(m, t, g, n) * Trap(m, t, g) }

  /** Rotation of the pair (x, y) by the angle with cosine `c` and sine `s`. */
  function TurnFirst(c: real, s: real, x: real, y: real): real { x * c - y * s }
  function TurnSecond(c: real, s: real, x: real, y: real): real { x * s + y * c }

  /** The rotary embedding of one group: the first `2 * angles` states are rotated in pairs. */
  ghost function Rotate(m: Block, raw: int -> real, angle: int -> real, n: int): real {
    if n < 2 * m.angles then
      if n % 2 == 0 then TurnFirst(m.fns.cos(angle(n / 2)), m.fns.sin(angle(n / 2)), raw(n), raw(n + 1))
      else TurnSecond(m.fns.cos(angle(n / 2)), m.fns.sin(angle(n / 2)), raw(n - 1), raw(n))
    else raw(n)
  }

  ghost function BRot(m: Block, t: int, g: int, n: int): real {
    Rotate(m, i => BRaw(m, t, g, i), j => Angle(m, t + 1, g, j), n)
  }

  ghost function CRot(m: Block, t: int, g: int, n: int): real {
    Rotate(m, i => CRaw(m, t, g, i), j => Angle(m, t + 1, g, j), n)
  }

  function KeepOf(k: Fns, decay: real, dt: real): real {
    k.exp(decay * dt)
  }

  ghost function Keep(m: Block, t: int, h: int): real {
    KeepOf(m.fns, Decay(m, t, h), Dt(m, t, h))
  }

  /** The scan state after `t` rows. */
  ghost function State(m: Block, t: int, f: int, n: int): real
    decreases t
  {
    if t <= 0 then m.h0(f, n)
    else Keep(m, t - 1, Head(m, f)) * State(m, t - 1, f, n) + Conv(m, t - 1, f) * BRot(m, t - 1, Group(m, f), n)
  }

  ghost function ScanOut(m: Block, t: int, f: int): real {
    Sum(m.state, n => State(m, t + 1, f, n) * CRot(m, t, Group(m, f), n)) + m.skip(Head(m, f)) * Conv(m, t, f)
  }

  function GateOf(k: Fns, y: real, z: real): real {
    y * z * Sigmoid(k, z)
  }

  ghost function Gated(m: Block, t: int, f: int): real {
    GateOf(m.fns, ScanOut(m, t, f), Proj(m, t, f))
  }

  ghost function Out(m: Block, t: int, o: int): real {
    Sum(m.features, f => Gated(m, t, f) * m.outW(o, f))
  }
}
