/** The M2RNN block's row buffers: the projection of a row, its convolution recomputed from earlier hidden rows and
    the saved history, the cut of both into the recurrence's inputs, and the replay from the initial state. */
module RnnBlockKernel {
  import opened Sums
  import opened Functions
  import opened Indices
  import opened Buffers
  import opened RingHistory
  import opened RnnModel
  import opened RnnKernel
  import opened RnnBlockModel
  import opened RnnBlockGradient
  import LaneReduction
  import RmsNorm
  import Up = RnnUpstream

  // ---- projection ----

  method ProjectDim(b: Block, t: nat, p: nat) returns (accum: real)
    ensures accum == Proj(b, t, p)
  {
    hide Mul;
    accum := 0.0;
    for i := 0 to b.width
      invariant accum == Sum(i, k => Mul(b.u(t, k), b.inW(p, k)))
    {
      accum := accum + Mul(b.u(t, i), b.inW(p, i));
    }
  }

  method Project(b: Block, t: nat) returns (projected: array<real>)
    ensures fresh(projected) && Vector(projected, Dims(b), p => Proj(b, t, p))
  {
    hide Proj, Dims;
    projected := new real[Dims(b)];
    for p := 0 to Dims(b)
      invariant forall q :: 0 <= q < p ==> projected[q] == Proj(b, t, q)
    {
      projected[p] := ProjectDim(b, t, p);
    }
  }

  // ---- convolution ----

  /** Tap `k` of row `t`: an earlier row's projection, recomputed, or a slot of the saved history. */
  method TapValue(b: Block, t: nat, k: nat, c: nat) returns (tap: real)
    requires k < TAPS
    ensures tap == Tap(b, t, k, c)
  {
    hide Proj;
    if t - TAPS + k >= 0 {
      tap := ProjectDim(b, t - TAPS + k, c);
    } else {
      tap := b.history(t + k, c);
    }
  }

  method ConvChannel(b: Block, t: nat, own: real, c: nat) returns (pre: real)
    requires own == Proj(b, t, c)
    ensures pre == ConvPre(b, t, c)
  {
    hide Mul, Proj, Tap, ConvPre;
    TapForm(b, t, c);
    pre := b.convB(c);
    for k := 0 to TAPS
      invariant pre == b.convB(c) + Sum(k, i => Mul(Tap(b, t, i, c), b.convW(c, i)))
    {
      var tap := TapValue(b, t, k, c);
      pre := pre + Mul(tap, b.convW(c, k));
    }
    pre := pre + Mul(own, b.convW(c, TAPS));
  }

  lemma TapForm(b: Block, t: int, c: int)
    ensures ConvPre(b, t, c) == b.convB(c) + Sum(TAPS, i => Mul(Tap(b, t, i, c), b.convW(c, i)))
                                + Mul(Proj(b, t, c), b.convW(c, TAPS))
  {
    hide Sum, Mul, Proj, DirectTap;
    var direct := (k: int) => Mul(DirectTap(TAPS, b.history, Projected(b), t, k, c), b.convW(c, k));
    var taps := (i: int) => Mul(Tap(b, t, i, c), b.convW(c, i));
    forall k ensures direct(k) == taps(k) {
      assert Tap(b, t, k, c) == DirectTap(TAPS, b.history, Projected(b), t, k, c);
    }
    SumEq(TAPS, direct, taps);
  }

  method Convolve(b: Block, t: nat, projected: array<real>) returns (pre: array<real>, conv: array<real>)
    requires Vector(projected, Dims(b), p => Proj(b, t, p))
    ensures fresh(pre) && Vector(pre, Channels(b), c => ConvPre(b, t, c))
    ensures fresh(conv) && Vector(conv, Channels(b), c => Conv(b, t, c))
  {
    hide Proj, ConvPre, Silu, Channels;
    pre, conv := new real[Channels(b)], new real[Channels(b)];
    for c := 0 to Channels(b)
      invariant forall i :: 0 <= i < c ==> pre[i] == ConvPre(b, t, i) && conv[i] == Conv(b, t, i)
    {
      pre[c] := ConvChannel(b, t, projected[c], c);
      conv[c] := Silu(b.fns, pre[c]);
    }
  }

  // ---- the recurrence's inputs ----

  /** One row's buffers. */
  datatype RowBuffers = RowBuffers(projected: array<real>, pre: array<real>, conv: array<real>) {
    ghost function Repr(): set<object> { {projected, pre, conv} }

    ghost predicate Holds(b: Block, t: int)
      reads Repr()
    {
      && Vector(projected, Dims(b), p => Proj(b, t, p)) && Vector(pre, Channels(b), c => ConvPre(b, t, c))
      && Vector(conv, Channels(b), c => Conv(b, t, c))
    }

    /** The convolution's channels are the queries, the keys and the values; then come the forget projections. */
    function Cut(b: Block, ghost t: int, ghost m: Rnn): (x: RowIn)
      requires Holds(b, t) && Up.SameForward(Plain(b), m)
      reads Repr()
      ensures x.Reads(m, t)
    {
      hide Proj, ConvPre, Conv, CutOf;
      CutReads(b, t, m, projected[..], conv[..]);
      CutOf(b, projected[..], conv[..])
    }
  }

  function CutOf(b: Block, projected: seq<real>, conv: seq<real>): RowIn
    requires |projected| == Dims(b) && |conv| == Channels(b)
  {
    hide KeyAt, Channels;
    RowIn(conv[..KeyAt(b)], conv[KeyAt(b)..ValueAt(b)], conv[ValueAt(b)..], projected[Channels(b)..GateAt(b)])
  }

  lemma CutReads(b: Block, t: int, m: Rnn, projected: seq<real>, conv: seq<real>)
    requires Up.SameForward(Plain(b), m)
    requires |projected| == Dims(b) && forall p :: 0 <= p < Dims(b) ==> projected[p] == Proj(b, t, p)
    requires |conv| == Channels(b) && forall c :: 0 <= c < Channels(b) ==> conv[c] == Conv(b, t, c)
    ensures CutOf(b, projected, conv).Reads(m, t)
  {
    hide Proj, Conv;
    var x := CutOf(b, projected, conv);
    forall s, j | 0 <= s < m.vHeads && 0 <= j < m.vals ensures x.value[ValueSlot(m, s, j)] == m.value(t, s, j) {
      FlatRange(s, b.vHeads, j, b.vals);
    }
  }

  method RowInputs(b: Block, t: nat) returns (row: RowBuffers)
    ensures fresh(row.Repr()) && row.Holds(b, t)
  {
    hide Proj, ConvPre, Conv, Dims, Channels;
    var projected := Project(b, t);
    var pre, conv := Convolve(b, t, projected);
    row := RowBuffers(projected, pre, conv);
  }

  // ---- replay ----

  method NewRow(b: Block) returns (row: RowBuffers)
    ensures fresh(row.Repr())
  {
    var projected := new real[Dims(b)];
    var pre, conv := new real[Channels(b)], new real[Channels(b)];
    row := RowBuffers(projected, pre, conv);
  }

  /** Replay from the initial state: `prev` ends as the state before row `t`, `next` as the state after, and the row
      buffers as row `t`'s. */
  method Replay(b: Block, t: nat, m: Rnn, prev: array2<real>, next: array2<real>) returns (row: RowBuffers)
    requires t < b.rows && prev != next && Up.SameForward(Plain(b), m)
    requires prev.Length0 == Cells(m) && prev.Length1 == m.vals && next.Length0 == Cells(m) && next.Length1 == m.vals
    modifies prev, next
    ensures RnnKernel.Holds(m, t, prev) && RnnKernel.Holds(m, t + 1, next) && fresh(row.Repr()) && row.Holds(b, t)
  {
    hide RnnKernel.Holds, RowBuffers.Holds, RowBuffers.Cut, RowIn.Reads, Cells, Plain;
    Load(m, prev);
    Load(m, next);
    row := NewRow(b);
    for s := 0 to b.rows
      invariant RnnKernel.Holds(m, Least(s, t), prev) && RnnKernel.Holds(m, Least(s, t + 1), next)
      invariant fresh(row.Repr()) && (t < s ==> row.Holds(b, t))
    {
      if s <= t {
        row := RowInputs(b, s);
        Advance(m, s, row.Cut(b, s, m), prev, next);
      }
      if s < t {
        CopyState(m, s + 1, next, prev);
      }
    }
  }

  method CopyState(m: Rnn, t: nat, from: array2<real>, to: array2<real>)
    requires RnnKernel.Holds(m, t, from) && to.Length0 == Cells(m) && to.Length1 == m.vals && from != to
    modifies to
    ensures RnnKernel.Holds(m, t, to) && RnnKernel.Holds(m, t, from)
  {
    hide State, Cells;
    CopyMatrix(from, to);
  }

  // ---- the gated readout and its norm ----

  lemma FeatureRange(b: Block, f: int)
    requires 0 <= f < Features(b)
    ensures 0 <= f / b.vals < b.heads && 0 <= f % b.vals < b.vals
  {
    DivRange(f, b.heads, b.vals);
  }

  /** The ungated readout of feature `f`. */
  method ReadFeature(b: Block, t: nat, m: Rnn, x: RowIn, f: nat, next: array2<real>) returns (y: real)
    requires f < Features(b) && Up.SameForward(Plain(b), m) && x.Reads(m, t) && RnnKernel.Holds(m, t + 1, next)
    ensures y == Readout(b, t, f)
  {
    hide RnnKernel.Holds, RowIn.Reads, Plain, Read;
    FeatureRange(b, f);
    HeadsOf(b, m);
    y := ReadCell(m, t, x, f / b.vals, f % b.vals, next);
    Up.ReadUp(Plain(b), m, t, f / b.vals, f % b.vals);
  }

  lemma HeadsOf(b: Block, m: Rnn)
    requires Up.SameForward(Plain(b), m)
    ensures m.heads == b.heads && m.vals == b.vals
  {
    hide Shared;
  }

  method PostRow(b: Block, t: nat, m: Rnn, x: RowIn, projected: array<real>, next: array2<real>)
    returns (post: array<real>)
    requires Up.SameForward(Plain(b), m) && x.Reads(m, t) && RnnKernel.Holds(m, t + 1, next)
    requires Vector(projected, Dims(b), p => Proj(b, t, p))
    ensures fresh(post) && Vector(post, Features(b), f => Post(b, t, f))
  {
    hide RnnKernel.Holds, RowIn.Reads, Plain, Readout, Proj, Silu, Mul, Features;
    post := new real[Features(b)];
    for f := 0 to Features(b)
      invariant forall i :: 0 <= i < f ==> post[i] == Post(b, t, i)
    {
      var y := ReadFeature(b, t, m, x, f, next);
      post[f] := Mul(y, Silu(b.fns, projected[GateAt(b) + f]));
    }
  }

  /** The inverse root mean square of a row's features, its squares summed by any number of lanes. */
  method InverseRms(b: Block, t: nat, lanes: nat, post: array<real>) returns (inv: real)
    requires 0 < lanes && Vector(post, Features(b), f => Post(b, t, f))
    ensures inv == RmsNorm.Inv(Norm(b), t)
  {
    hide Sum, Mul, Post, Features, RmsNorm.Inv, RmsNorm.InvOf;
    var row := post[..];
    var squares := (i: int) => if 0 <= i < |row| then Mul(row[i], row[i]) else 0.0;
    var sum := LaneReduction.Reduce(lanes, Features(b), squares);
    SquaresForm(b, t, squares);
    inv := RmsNorm.InvOf(b.fns, sum, Features(b));
  }

  lemma SquaresForm(b: Block, t: int, squares: int -> real)
    requires forall f {:trigger squares(f)} :: 0 <= f < Features(b) ==> squares(f) == Mul(Post(b, t, f), Post(b, t, f))
    ensures RmsNorm.Inv(Norm(b), t) == RmsNorm.InvOf(b.fns, Sum(Features(b), squares), Features(b))
  {
    hide Sum, Mul, Post, PostUp, Features, RmsNorm.InvOf;
    var m := Norm(b);
    var own := (i: int) => Mul(m.x(t, i), m.x(t, i));
    forall i | 0 <= i < Features(b) ensures squares(i) == own(i) {
      assert m.x(t, i) == Post(b, t, i);
    }
    SumEq(Features(b), squares, own);
  }

  lemma NormedForm(b: Block, t: int, f: int)
    ensures Normed(b, t, f) == RmsNorm.Entry(Post(b, t, f), RmsNorm.Inv(Norm(b), t), b.scale(f))
  {
    hide Post, PostUp, RmsNorm.Inv;
  }
}
