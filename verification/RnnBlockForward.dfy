/** The M2RNN block's forward kernel: one thread block runs every row, the convolution reading a ring of the last
    three projections that starts as the saved history, the state carried in place. */
module RnnBlockForward {
  import opened Sums
  import opened Functions
  import opened Buffers
  import opened RingHistory
  import opened RnnModel
  import opened RnnKernel
  import opened RnnBlockModel
  import opened RnnBlockKernel
  import RmsNorm
  import RnnUpstream

  /** The ring holds the stream that starts with the saved history and goes on with the projected channels. */
  ghost predicate Ring(b: Block, t: int, history: array2<real>)
    reads history
  {
    RingHistory.Holds(history, TAPS, Channels(b), b.history, Projected(b), t)
  }

  /** The row's convolution, from the ring. */
  method Convolve(b: Block, t: nat, projected: array<real>, history: array2<real>)
    returns (pre: array<real>, conv: array<real>)
    requires Vector(projected, Dims(b), p => Proj(b, t, p)) && Ring(b, t, history)
    ensures fresh(pre) && Vector(pre, Channels(b), c => ConvPre(b, t, c))
    ensures fresh(conv) && Vector(conv, Channels(b), c => Conv(b, t, c))
  {
    hide Proj, DirectConv, Silu, Channels, RingHistory.Holds;
    pre, conv := new real[Channels(b)], new real[Channels(b)];
    for c := 0 to Channels(b)
      invariant forall i :: 0 <= i < c ==> pre[i] == ConvPre(b, t, i) && conv[i] == Conv(b, t, i)
    {
      pre[c] := RingConv(history, TAPS, Channels(b), projected[c], b.convW, b.convB, c, b.history, Projected(b), t);
      conv[c] := Silu(b.fns, pre[c]);
    }
  }

  method OutCell(b: Block, t: nat, inv: real, post: array<real>, o: nat) returns (accum: real)
    requires inv == RmsNorm.Inv(Norm(b), t) && Vector(post, Features(b), f => Post(b, t, f))
    ensures accum == Out(b, t, o)
  {
    hide Post, Normed, RmsNorm.Inv, RmsNorm.Entry, Mul, Features;
    accum := 0.0;
    for f := 0 to Features(b)
      invariant accum == Sum(f, i => Mul(Normed(b, t, i), b.outW(o, i)))
    {
      NormedForm(b, t, f);
      accum := accum + Mul(RmsNorm.Entry(post[f], inv, b.scale(f)), b.outW(o, f));
    }
  }

  /** The output row: the normalised features through the output projection. */
  method OutRow(b: Block, t: nat, lanes: nat, post: array<real>, out: array2<real>)
    requires 0 < lanes && t < b.rows && Vector(post, Features(b), f => Post(b, t, f))
    requires out.Length0 == b.rows && out.Length1 == b.width
    modifies out
    ensures forall s, o :: 0 <= s < b.rows && 0 <= o < b.width ==>
              out[s, o] == if s == t then Out(b, t, o) else old(out[s, o])
  {
    hide Post, Out, RmsNorm.Inv, Features;
    var inv := InverseRms(b, t, lanes, post);
    for o := 0 to b.width
      invariant forall s, i :: 0 <= s < b.rows && 0 <= i < b.width ==>
                  out[s, i] == if s == t && i < o then Out(b, t, i) else old(out[s, i])
    {
      out[t, o] := OutCell(b, t, inv, post, o);
    }
  }

  method PushRow(b: Block, t: nat, projected: array<real>, history: array2<real>)
    requires Vector(projected, Dims(b), p => Proj(b, t, p)) && Ring(b, t, history)
    modifies history
    ensures Ring(b, t + 1, history)
  {
    hide Proj, RingHistory.Holds;
    Push(history, TAPS, Channels(b), projected, 0, b.history, Projected(b), t);
  }

  /** One row: its output, the state, and the ring for the next row. */
  method Row(b: Block, t: nat, lanes: nat, state: array2<real>, next: array2<real>, history: array2<real>,
             out: array2<real>)
    requires 0 < lanes && t < b.rows && RnnKernel.Holds(Plain(b), t, state) && Ring(b, t, history)
    requires state.Length0 == Cells(Plain(b)) && state.Length1 == b.vals
    requires next.Length0 == Cells(Plain(b)) && next.Length1 == b.vals && out.Length0 == b.rows
             && out.Length1 == b.width
    requires state !in {next, history, out} && next !in {history, out} && history != out
    modifies state, next, history, out
    ensures RnnKernel.Holds(Plain(b), t + 1, state) && Ring(b, t + 1, history)
    ensures forall s, o :: 0 <= s < b.rows && 0 <= o < b.width ==>
              out[s, o] == if s == t then Out(b, t, o) else old(out[s, o])
  {
    hide Proj, ConvPre, Conv, Post, Out, Plain, Cells, Channels, Features, Dims, Ring, RnnKernel.Holds, RowIn.Reads,
         RowBuffers.Cut;
    var m := Plain(b);
    SamePlain(b);
    var projected := Project(b, t);
    var pre, conv := Convolve(b, t, projected, history);
    var x := RowBuffers(projected, pre, conv).Cut(b, t, m);
    Advance(m, t, x, state, next);
    var post := PostRow(b, t, m, x, projected, next);
    OutRow(b, t, lanes, post, out);
    CopyState(m, t + 1, next, state);
    PushRow(b, t, projected, history);
  }

  lemma SamePlain(b: Block)
    ensures RnnUpstream.SameForward(Plain(b), Plain(b)) && Plain(b).vals == b.vals
  {
    hide Shared;
  }

  /** The whole forward run, for any number of lanes: every output row, the state after the last row, and the ring's
      last three projections. */
  method Forward(b: Block, lanes: nat, history: array2<real>) returns (out: array2<real>, state: array2<real>)
    requires 0 < lanes && Matrix(history, TAPS, Channels(b), b.history)
    modifies history
    ensures Matrix(out, b.rows, b.width, (t, o) => Out(b, t, o))
    ensures RnnKernel.Holds(Plain(b), b.rows, state) && Ring(b, b.rows, history)
  {
    hide Out, Plain, Cells, RnnKernel.Holds, RingHistory.Holds;
    RingStart(history, TAPS, Channels(b), b.history, Projected(b));
    SamePlain(b);
    out := new real[b.rows, b.width];
    state := new real[Cells(Plain(b)), b.vals];
    var next := new real[Cells(Plain(b)), b.vals];
    Load(Plain(b), state);
    for t := 0 to b.rows
      invariant RnnKernel.Holds(Plain(b), t, state) && Ring(b, t, history)
      invariant forall s, o :: 0 <= s < t && 0 <= o < b.width ==> out[s, o] == Out(b, s, o)
    {
      Row(b, t, lanes, state, next, history, out);
    }
  }
}
