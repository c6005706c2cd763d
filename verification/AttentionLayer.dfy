/** The whole sparse-attention layer: query and key-value projections with split-half rotary embedding, one sliding
    window of softmax attention per head over the quantised queries and key-values, and the output projection; its
    linearisation and the gradients its backward leaves. */
module AttentionLayer {
  import opened Sums
  import opened Indices
  import opened AttentionModel
  import R = RotaryProjection
  import A = AttentionAdjoint
  import S = AttentionScatter

  /** `u` are the hidden rows, `up` the gradient of the output rows.  Component `d` of head `h` is column
      `h * 2 * half + d`; the stored codes have one scale per row and head. */
  datatype Sizes = Sizes(
    rows: nat, slots: nat, width: nat, heads: nat, half: nat, exp: real -> real, log: real -> real,
    cos: real -> real, sin: real -> real,
    u: (int, int) -> real, qW: (int, int) -> real, kvW: (int, int) -> real, freq: int -> real,
    qRaw: (int, int) -> real, qScale: (int, int) -> real, kvRaw: (int, int) -> real, kvScale: (int, int) -> real,
    scale: real, sink: bool, sinkLogit: int -> real,
    outW: (int, int) -> real, up: (int, int) -> real)

  type Layer = b: Sizes | 0 < b.slots && 0 < b.half
    ghost witness Sizes(0, 1, 0, 0, 1, x => 0.0, x => 0.0, x => 0.0, x => 0.0, (r, i) => 0.0, (p, i) => 0.0,
                        (p, i) => 0.0, e => 0.0, (r, p) => 0.0, (r, h) => 0.0, (r, p) => 0.0, (r, h) => 0.0, 0.0,
                        false, h => 0.0, (o, p) => 0.0, (r, o) => 0.0)

  function Dims(b: Layer): (n: nat)
    ensures 0 < n
  {
    2 * b.half
  }

  function Wide(b: Layer): nat { b.heads * Dims(b) }

  // ---- forward ----

  /** The projection that prepares the queries, or the key-values. */
  function Side(b: Layer, kv: bool): R.Rotary {
    R.Raw(b.rows, b.width, b.heads, b.half, b.cos, b.sin, b.u, if kv then b.kvW else b.qW, b.freq)
  }

  /** The gradient of the contexts. */
  function ContextUp(b: Layer, r: int, p: int): real { Sum(b.width, o => Mul(b.up(r, o), b.outW(o, p))) }

  /** Head `h`'s attention. */
  function Head(b: Layer, h: int): Attention {
    hide ContextUp;
    Raw(b.rows, b.slots, Dims(b), b.exp, (r, d) => b.qRaw(r, h * Dims(b) + d), r => b.qScale(r, h),
        (r, d) => b.kvRaw(r, h * Dims(b) + d), r => b.kvScale(r, h), b.scale, b.sink, b.sinkLogit(h),
        (r, d) => ContextUp(b, r, h * Dims(b) + d))
  }

  ghost function Context(b: Layer, r: int, p: int): real { A.Context(Head(b, p / Dims(b)), r, p % Dims(b)) }
  ghost function Out(b: Layer, r: int, o: int): real { Sum(Wide(b), p => Mul(Context(b, r, p), b.outW(o, p))) }

  // ---- tangents; the quantised values move with the values that were quantised ----

  datatype Moves = Moves(u: (int, int) -> real, qW: (int, int) -> real, kvW: (int, int) -> real, freq: int -> real,
                         sink: int -> real, outW: (int, int) -> real)

  ghost function SideMoves(d: Moves, kv: bool): R.Moves { R.Moves(d.u, if kv then d.kvW else d.qW, d.freq) }

  ghost function TPrepared(b: Layer, d: Moves, kv: bool, r: int, p: int): real {
    R.TPrepared(Side(b, kv), SideMoves(d, kv), r, p)
  }

  ghost function HeadMoves(b: Layer, d: Moves, h: int): A.Tangent {
    A.Tangent((r, c) => TPrepared(b, d, false, r, h * Dims(b) + c), (r, c) => TPrepared(b, d, true, r, h * Dims(b) + c),
              d.sink(h))
  }

  /** The tangent of a context, whatever the subtracted maximum of its head and row does. */
  ghost function TContext(b: Layer, d: Moves, shift: (int, int) -> real, r: int, p: int): real {
    A.TContext(Head(b, p / Dims(b)), HeadMoves(b, d, p / Dims(b)), shift(p / Dims(b), r), r, p % Dims(b))
  }

  ghost function TOutTerm(b: Layer, d: Moves, shift: (int, int) -> real, r: int, o: int, p: int): real {
    Mul(TContext(b, d, shift, r, p), b.outW(o, p)) + Mul(Context(b, r, p), d.outW(o, p))
  }

  ghost function TOut(b: Layer, d: Moves, shift: (int, int) -> real, r: int, o: int): real {
    Sum(Wide(b), p => TOutTerm(b, d, shift, r, o, p))
  }

  // ---- gradients ----

  /** The gradient of head `h`'s queries, or of its key-values. */
  ghost function HeadGrad(b: Layer, kv: bool, h: int, r: int, c: int): real {
    if kv then S.Dkv(Head(b, h), r, c) else A.Dq(Head(b, h), r, c)
  }

  ghost function Prepared(b: Layer, kv: bool): (int, int) -> real {
    (r, p) => HeadGrad(b, kv, p / Dims(b), r, p % Dims(b))
  }

  ghost function OutWTerm(b: Layer, o: int, p: int, r: int): real { Mul(b.up(r, o), Context(b, r, p)) }
  ghost function OutWGrad(b: Layer, o: int, p: int): real { Sum(b.rows, r => OutWTerm(b, o, p, r)) }

  // ---- what the two projections get ----

  ghost function SideW(b: Layer, kv: bool, p: int, i: int): real { R.WGrad(Side(b, kv), Prepared(b, kv), p, i) }

  ghost function SideHidden(b: Layer, kv: bool, r: int, i: int): real {
    R.HiddenGrad(Side(b, kv), Prepared(b, kv), r, i)
  }

  ghost function SideFreq(b: Layer, kv: bool, e: int): real { R.FreqGrad(Side(b, kv), Prepared(b, kv), e) }

  ghost function HiddenGrad(b: Layer, r: int, i: int): real {
    SideHidden(b, false, r, i) + SideHidden(b, true, r, i)
  }

  ghost function FreqGrad(b: Layer, e: int): real {
    SideFreq(b, false, e) + SideFreq(b, true, e)
  }

  ghost function SinkGrad(b: Layer, h: int): real { Sum(b.rows, r => A.DSink(Head(b, h), r)) }

  // ---- columns are heads and components ----

  lemma ColumnOf(b: Layer, h: int, c: int)
    requires 0 <= c < Dims(b)
    ensures (h * Dims(b) + c) / Dims(b) == h && (h * Dims(b) + c) % Dims(b) == c
  {
    DivMod(h, c, Dims(b));
  }

  /** Column `p` belongs to head `h`. */
  predicate InHead(b: Layer, h: int, p: int) { h * Dims(b) <= p < h * Dims(b) + Dims(b) }

  lemma HeadColumns(b: Layer, h: int)
    ensures forall p {:trigger InHead(b, h, p)} :: InHead(b, h, p) ==>
            p / Dims(b) == h && p % Dims(b) == p - h * Dims(b)
    ensures 0 <= h < b.heads ==> 0 <= h * Dims(b) && h * Dims(b) + Dims(b) <= Wide(b)
  {
    forall p | InHead(b, h, p) ensures p / Dims(b) == h && p % Dims(b) == p - h * Dims(b) {
      ColumnOf(b, h, p - h * Dims(b));
    }
    if 0 <= h < b.heads {
      MulMono(h + 1, b.heads, Dims(b));
    }
  }

  lemma HeadSteps(b: Layer, h: nat)
    ensures forall p {:trigger InHead(b, h, p)} :: 0 <= p ==>
            (p < (h + 1) * Dims(b) <==> p < h * Dims(b) || InHead(b, h, p))
    ensures forall p {:trigger InHead(b, h, p)} :: InHead(b, h, p) ==> !(p < h * Dims(b))
  {
    assert (h + 1) * Dims(b) == h * Dims(b) + Dims(b);
  }

  lemma HeadSizes(b: Layer, h: int)
    ensures Head(b, h).rows == b.rows && Head(b, h).dims == Dims(b) && Head(b, h).slots == b.slots
  {
    hide ContextUp;
  }
}
