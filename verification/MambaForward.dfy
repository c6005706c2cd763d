/** The Mamba3 forward kernel: one block runs every row, the convolution reading a zero-padded ring of the
    last two projections, the scan state and the angles carried in place. */
module MambaForward {
  import opened Sums
  import opened Functions
  import opened Buffers
  import opened MambaModel
  import opened MambaRowKernel
  import Ring = RingHistory

  /** The stream the ring runs over: no history before the first row, then the projected channels. */
  ghost function Rows(m: Block): (int, int) -> real { (t, c) => Proj(m, t, ConvAt(m) + c) }
  ghost function Empty(): (int, int) -> real { (j, c) => 0.0 }

  /** The ring's convolution is the one the backward kernel recomputes from the hidden rows. */
  lemma RingIsRecomputation(m: Block, t: int, c: int)
    ensures Ring.DirectConv(2, Empty(), Rows(m), m.convW, m.convB, t, c) == ConvPre(m, t, c)
  {
    hide Proj;
    var taps := (k: int) => Mul(Ring.DirectTap(2, Empty(), Rows(m), t, k, c), m.convW(c, k));
    assert Sum(2, taps) == Sum(1, taps) + taps(1);
    assert Sum(1, taps) == Sum(0, taps) + taps(0);
  }

  method Convolve(m: Block, t: nat, proj: array<real>, history: array2<real>) returns (conv: array<real>)
    requires Vector(proj, ProjDims(m), p => Proj(m, t, p)) && Ring.Holds(history, 2, Channels(m), Empty(), Rows(m), t)
    ensures fresh(conv) && Vector(conv, Channels(m), c => Conv(m, t, c))
  {
    hide Proj, ConvPre, Sigmoid, Ring.Holds, Ring.DirectConv, Empty;
    conv := new real[Channels(m)];
    for c := 0 to Channels(m)
      invariant forall i :: 0 <= i < c ==> conv[i] == Conv(m, t, i)
    {
      RingIsRecomputation(m, t, c);
      var value := Ring.RingConv(history, 2, Channels(m), proj[ConvAt(m) + c], m.convW, m.convB, c, Empty(), Rows(m),
                                 t);
      conv[c] := value * Sigmoid(m.fns, value);
    }
  }

  method OutProject(m: Block, t: nat, gated: array<real>, out: array2<real>)
    requires t < m.rows && Vector(gated, m.features, f => Gated(m, t, f)) && out.Length0 == m.rows
             && out.Length1 == m.width
    modifies out
    ensures forall s, o :: 0 <= s < m.rows && 0 <= o < m.width ==>
            out[s, o] == if s == t then Out(m, t, o) else old(out[s, o])
  {
    hide Gated;
    for o := 0 to m.width
      invariant forall s, i :: 0 <= s < m.rows && 0 <= i < m.width ==>
                  out[s, i] == if s == t && i < o then Out(m, t, i) else old(out[s, i])
    {
      var accum := 0.0;
      for f := 0 to m.features
        invariant accum == Sum(f, i => Gated(m, t, i) * m.outW(o, i))
      {
        accum := accum + gated[f] * m.outW(o, f);
      }
      out[t, o] := accum;
    }
  }

  /** One row: its output, the carried state and angles, and the ring for the next row. */
  method Row(m: Block, t: nat, state: array2<real>, angle: array2<real>, history: array2<real>, out: array2<real>)
    requires t < m.rows && AtRow(m, t, state, angle) && Ring.Holds(history, 2, Channels(m), Empty(), Rows(m), t)
    requires out.Length0 == m.rows && out.Length1 == m.width && state !in {angle, history, out}
             && angle !in {history, out} && history != out
    modifies state, angle, history, out
    ensures AtRow(m, t + 1, state, angle) && Ring.Holds(history, 2, Channels(m), Empty(), Rows(m), t + 1)
    ensures forall s, o :: 0 <= s < m.rows && 0 <= o < m.width ==>
            out[s, o] == if s == t then Out(m, t, o) else old(out[s, o])
  {
    hide Proj, Conv, Dt, Decay, NextDtPre, NextDt, NextTrap, Trap, InvRms, BMean, BRaw, CRaw, BRot, CRot, ScanOut,
         Gated, Out, State, Angle, Ring.Holds, Matrix, Empty;
    var proj := Project(m, t);
    var conv := Convolve(m, t, proj, history);
    var dt, decay, nextDtPre, nextDt, nextTrap, trap := HeadInputs(m, t, proj, angle);
    var bInv, cInv, bMean, bRaw, cRaw, bRot, cRot := GroupInputs(m, t, conv, trap, angle);
    var scanOut, gated := Scan(m, t, proj, conv, dt, decay, bRot, cRot, state);
    OutProject(m, t, gated, out);
    Ring.Push(history, 2, Channels(m), proj, ConvAt(m), Empty(), Rows(m), t);
  }

  /** The whole forward run: every output row, and the scan state after the last row. */
  method Forward(m: Block) returns (out: array2<real>, state: array2<real>)
    ensures Matrix(out, m.rows, m.width, (t, o) => Out(m, t, o))
    ensures Matrix(state, m.features, m.state, (f, n) => State(m, m.rows, f, n))
  {
    hide Out, Ring.Holds, State, Angle;
    out := new real[m.rows, m.width];
    var history := ZeroMatrix(2, Channels(m));
    Ring.RingStart(history, 2, Channels(m), Empty(), Rows(m));
    var angle;
    state, angle := Start(m);
    for t := 0 to m.rows
      invariant AtRow(m, t, state, angle) && Ring.Holds(history, 2, Channels(m), Empty(), Rows(m), t)
      invariant forall s, o :: 0 <= s < t && 0 <= o < m.width ==> out[s, o] == Out(m, s, o)
    {
      Row(m, t, state, angle, history, out);
    }
  }
}
