/** The whole M2RNN block around the recurrence: input projection, a four-tap causal convolution that starts from
    a saved history, the recurrence, a gated readout, a root-mean-square norm and the output projection. */
module RnnBlockModel {
  import opened Sums
  import opened Functions
  import opened Indices
  import opened RingHistory
  import opened RnnModel
  import RmsNorm

  /** `u` are the hidden rows, `up` the gradient of the output rows.  The projection's dimensions are the
      convolution's channels (queries, keys, values), the forget projections, and one gate per feature. */
  datatype Layer = Layer(
    rows: nat, width: nat, heads: nat, keys: nat, vals: nat,
    qkHeads: nat, qkShare: nat, vHeads: nat, vShare: nat, fHeads: nat, fShare: nat, wHeads: nat, wShare: nat,
    fns: Fns,
    u: (int, int) -> real, inW: (int, int) -> real,
    history: (int, int) -> real, convW: (int, int) -> real, convB: int -> real,
    w: (int, int, int) -> real, logRate: int -> real, bias: int -> real, skip: (int, int) -> real,
    h0: (int, int) -> real,
    scale: int -> real, outW: (int, int) -> real,
    up: (int, int) -> real)

  ghost predicate Sound(b: Layer) {
    && 0 < b.heads && 0 < b.vals && 0 < b.keys
    && Shared(b.heads, b.qkHeads, b.qkShare) && Shared(b.heads, b.vHeads, b.vShare)
    && Shared(b.heads, b.fHeads, b.fShare) && Shared(b.heads, b.wHeads, b.wShare)
  }

  type Block = b: Layer | Sound(b)
    ghost witness Layer(0, 0, 1, 1, 1, 1, 1, 1, 1, 1, 1, 1, 1, NOFNS, (t, i) => 0.0, (p, i) => 0.0, (k, c) => 0.0,
                        (c, k) => 0.0, c => 0.0, (s, i, j) => 0.0, h => 0.0, h => 0.0, (h, j) => 0.0, (r, j) => 0.0,
                        f => 0.0, (o, f) => 0.0, (t, o) => 0.0)

  // ---- layout ----

  const TAPS := 3

  function KeyAt(b: Block): nat { b.qkHeads * b.keys }
  function ValueAt(b: Block): nat { KeyAt(b) + KeyAt(b) }

  function Channels(b: Block): (n: nat)
    ensures ValueAt(b) <= n
  {
    ValueAt(b) + b.vHeads * b.vals
  }

  function GateAt(b: Block): nat { Channels(b) + b.fHeads }

  function Features(b: Block): (n: nat)
    ensures 0 < n
  {
    MulMono(1, b.heads, b.vals);
    b.heads * b.vals
  }

  function Dims(b: Block): nat { GateAt(b) + Features(b) }

  // ---- forward ----

  function Proj(b: Block, t: int, p: int): real { Sum(b.width, i => Mul(b.u(t, i), b.inW(p, i))) }

  function Projected(b: Block): (int, int) -> real { (t, c) => Proj(b, t, c) }

  function ConvPre(b: Block, t: int, c: int): real {
    DirectConv(TAPS, b.history, Projected(b), b.convW, b.convB, t, c)
  }

  function Conv(b: Block, t: int, c: int): real { Silu(b.fns, ConvPre(b, t, c)) }

  /** The recurrence, its inputs taken from the convolution and the projection. */
  function Plain(b: Block): Rnn {
    hide Shared, Conv, Proj;
    Raw(b.rows, b.heads, b.keys, b.vals, b.qkHeads, b.qkShare, b.vHeads, b.vShare, b.fHeads, b.fShare, b.wHeads,
        b.wShare, b.fns, (t, s) => Conv(b, t, s), (t, s) => Conv(b, t, KeyAt(b) + s),
        (t, s, j) => Conv(b, t, ValueAt(b) + s * b.vals + j), (t, s) => Proj(b, t, Channels(b) + s),
        b.w, b.logRate, b.bias, b.skip, b.h0, (t, h, j) => 0.0)
  }

  function Gate(b: Block, t: int, f: int): real { Proj(b, t, GateAt(b) + f) }

  /** Feature `f` is column `f % vals` of head `f / vals`. */
  function Readout(b: Block, t: int, f: int): real { Read(Plain(b), t, f / b.vals, f % b.vals) }

  function Post(b: Block, t: int, f: int): real { Mul(Readout(b, t, f), Silu(b.fns, Gate(b, t, f))) }

  /** The gradient of the normalised features. */
  function PostUp(b: Block, t: int, f: int): real { Sum(b.width, o => Mul(b.up(t, o), b.outW(o, f))) }

  function Norm(b: Block): RmsNorm.Norm {
    hide Post, PostUp;
    RmsNorm.Raw(b.rows, Features(b), b.fns, (t, f) => Post(b, t, f), b.scale, (t, f) => PostUp(b, t, f),
                (t, f) => 0.0)
  }

  function Normed(b: Block, t: int, f: int): real { RmsNorm.Out(Norm(b), t, f) }

  function Out(b: Block, t: int, o: int): real { Sum(Features(b), f => Mul(Normed(b, t, f), b.outW(o, f))) }

  // ---- what reaches the recurrence from above ----

  function PostGrad(b: Block, t: int, f: int): real { RmsNorm.XGrad(Norm(b), t, f) }

  function ReadUp(b: Block, t: int, f: int): real { Mul(PostGrad(b, t, f), Silu(b.fns, Gate(b, t, f))) }

  /** The recurrence with the gradient of its readouts. */
  function Core(b: Block): Rnn { Plain(b).(up := (t, h, j) => ReadUp(b, t, h * b.vals + j)) }
}
