/** The Mamba3 block in two kernels: the forward kernel writes the checkpoints while it computes the outputs,
    and the backward kernel reads them. */
module MambaTraining {
  import opened Indices
  import opened Buffers
  import opened MambaModel
  import opened MambaGradient
  import opened MambaRowKernel
  import opened MambaBackward
  import opened MambaLaneBuffers
  import MambaForward
  import Ring = RingHistory

  /** The buffers of the forward kernel. */
  datatype Run = Run(state: array2<real>, angle: array2<real>, history: array2<real>, out: array2<real>,
                     states: array3<real>, angles: array3<real>)
  {
    ghost function Repr(): set<object> { {state, angle, history, out, states, angles} }

    ghost predicate Apart() {
      && state !in {angle, history, out} && angle !in {history, out} && history != out && states != angles
    }

    /** The outputs of the rows before `t`, and everything that is carried to row `t`. */
    ghost predicate Carries(m: Block, t: int)
      reads state, angle, history, out
    {
      && AtRow(m, t, state, angle)
      && Ring.Holds(history, 2, Channels(m), MambaForward.Empty(), MambaForward.Rows(m), t)
      && out.Length0 == m.rows && out.Length1 == m.width
      && forall s, o :: 0 <= s < t && s < m.rows && 0 <= o < m.width ==> out[s, o] == Out(m, s, o)
    }

    /** The checkpoints due before row `t`. */
    ghost predicate Stores(m: Block, interval: nat, t: int)
      requires 0 < interval
      reads states, angles
    {
      && states.Length0 == angles.Length0 == m.rows / interval + 1
      && states.Length1 == m.features && states.Length2 == m.state
      && angles.Length1 == m.heads && angles.Length2 == m.angles
      && Checkpoints(m, interval, states, angles, t / interval + 1)
    }
  }

  method Begin(m: Block, interval: nat) returns (run: Run)
    requires 0 < interval
    ensures fresh(run.Repr()) && run.Apart() && run.Carries(m, 0) && run.Stores(m, interval, 0)
  {
    hide Out, Ring.Holds, State, Angle, Checkpoints;
    var slots := m.rows / interval + 1;
    var states, angles := new real[slots, m.features, m.state], new real[slots, m.heads, m.angles];
    var out := new real[m.rows, m.width];
    var history := ZeroMatrix(2, Channels(m));
    Ring.RingStart(history, 2, Channels(m), MambaForward.Empty(), MambaForward.Rows(m));
    var state, angle := Start(m);
    NoCheckpoints(m, interval, states, angles);
    Store(m, interval, 0, 0, state, angle, states, angles);
    run := Run(state, angle, history, out, states, angles);
  }

  method RunRow(m: Block, t: nat, run: Run)
    requires t < m.rows && run.Apart() && run.Carries(m, t)
    modifies run.state, run.angle, run.history, run.out
    ensures run.Carries(m, t + 1)
  {
    hide Out, Ring.Holds, State, Angle, AtRow;
    MambaForward.Row(m, t, run.state, run.angle, run.history, run.out);
  }

  /** After row `t`: a checkpoint if one is due. */
  method StoreIfDue(m: Block, interval: nat, t: nat, run: Run)
    requires 0 < interval && t < m.rows && run.Apart() && run.Carries(m, t + 1) && run.Stores(m, interval, t)
    modifies run.states, run.angles
    ensures run.Stores(m, interval, t + 1)
  {
    hide Out, Ring.Holds, AtRow, Checkpoints;
    SlotOf(t, interval);
    SlotBound(t + 1, m.rows, interval);
    if (t + 1) % interval == 0 {
      Store(m, interval, (t + 1) / interval, t + 1, run.state, run.angle, run.states, run.angles);
    }
  }

  /** The forward kernel: all outputs, the last state, and every checkpoint. */
  method Forward(m: Block, interval: nat) returns (run: Run)
    requires 0 < interval
    ensures run.Carries(m, m.rows) && run.Stores(m, interval, m.rows)
  {
    hide Run.Carries, Run.Stores;
    run := Begin(m, interval);
    for t := 0 to m.rows
      invariant run.Carries(m, t) && run.Stores(m, interval, t)
    {
      RunRow(m, t, run);
      StoreIfDue(m, interval, t, run);
    }
  }

  /** Forward, then backward from the checkpoints the forward wrote: the outputs, the same gradients as when the
      backward kernel scans for itself, and what every run of the parallel lanes ends with. */
  method Train(m: Block, interval: nat) returns (out: array2<real>, scan: ScanSide, head: HeadSide, h0: array2<real>)
    requires 0 < interval
    ensures Matrix(out, m.rows, m.width, (t, o) => Out(m, t, o))
    ensures scan.Holds(m, 0) && head.Holds(m, 0) && Matrix(h0, m.features, m.state, (f, n) => StateGrad(m, 0, f, n))
    ensures forall mem {:trigger LanesEnd(m, mem)} :: LanesEnd(m, mem) ==>
              ScanMatches(m, mem, scan) && HeadMatches(m, mem, head)
  {
    hide Out, StateGrad, AtRow, Ring.Holds, Checkpoints, ScanSide.Holds, HeadSide.Holds, LanesEnd, ScanMatches,
         HeadMatches;
    var run := Forward(m, interval);
    out := run.out;
    scan, head, h0 := ReverseSweep(m, interval, run.states, run.angles);
    forall mem | LanesEnd(m, mem) ensures ScanMatches(m, mem, scan) && HeadMatches(m, mem, head) {
      LanesMatchLoop(m, mem, scan, head);
    }
  }
}
