/** The M2RNN block in two kernels: the forward kernel writes the state after every `interval` rows while it computes
    the outputs, and the backward kernel reloads the last one before a row and replays from there. */
module RnnBlockTraining {
  import opened Functions
  import opened Indices
  import opened Buffers
  import opened RnnModel
  import opened RnnKernel
  import opened RnnBlockModel
  import opened RnnBlockKernel
  import opened RnnBlockForward
  import opened RnnBlockBackwardOut
  import opened RnnBlockBackward
  import Up = RnnUpstream

  /** The first `slots` slots hold the states after 0, interval, 2 * interval... rows. */
  ghost predicate Checkpoints(m: Rnn, interval: nat, states: array3<real>, slots: int)
    reads states
  {
    forall s {:trigger Stored(m, interval, states, s)} :: 0 <= s < slots ==> Stored(m, interval, states, s)
  }

  ghost predicate Stored(m: Rnn, interval: nat, states: array3<real>, s: int)
    reads states
  {
    SlotHolds(states, s, Cells(m), m.vals, (r, j) => State(m, s * interval, r, j))
  }

  /** A region with a slot for every multiple of the interval up to the last row. */
  ghost predicate Region(b: Block, interval: nat, states: array3<real>)
    requires 0 < interval
  {
    states.Length0 == b.rows / interval + 1 && states.Length1 == Cells(Plain(b)) && states.Length2 == b.vals
  }

  // ---- forward ----

  method Store(m: Rnn, interval: nat, s: nat, t: nat, state: array2<real>, states: array3<real>)
    requires t == s * interval && s < states.Length0 && states.Length1 == Cells(m) && states.Length2 == m.vals
    requires RnnKernel.Holds(m, t, state) && Checkpoints(m, interval, states, s)
    modifies states
    ensures Checkpoints(m, interval, states, s + 1)
  {
    hide State, Cells;
    StoreSlot(state, states, s);
    forall x | 0 <= x < s ensures Stored(m, interval, states, x) {
      assert old(Stored(m, interval, states, x));
    }
  }

  /** After row `t`: a checkpoint if one is due. */
  method StoreIfDue(b: Block, interval: nat, t: nat, state: array2<real>, states: array3<real>)
    requires 0 < interval && t < b.rows && Region(b, interval, states)
    requires RnnKernel.Holds(Plain(b), t + 1, state) && Checkpoints(Plain(b), interval, states, t / interval + 1)
    modifies states
    ensures Checkpoints(Plain(b), interval, states, (t + 1) / interval + 1)
  {
    hide RnnKernel.Holds, Checkpoints, Plain, Cells;
    SamePlain(b);
    SlotOf(t, interval);
    SlotBound(t + 1, b.rows, interval);
    if (t + 1) % interval == 0 {
      Store(Plain(b), interval, (t + 1) / interval, t + 1, state, states);
    }
  }

  lemma NoCheckpoints(m: Rnn, interval: nat, states: array3<real>)
    ensures Checkpoints(m, interval, states, 0)
  {
  }

  /** The initial state, and the checkpoint of no rows. */
  method Begin(b: Block, interval: nat) returns (state: array2<real>, states: array3<real>)
    requires 0 < interval
    ensures fresh(state) && state.Length0 == Cells(Plain(b)) && state.Length1 == b.vals
    ensures fresh(states) && Region(b, interval, states)
    ensures RnnKernel.Holds(Plain(b), 0, state) && Checkpoints(Plain(b), interval, states, 1)
  {
    hide RnnKernel.Holds, Checkpoints, Plain, Cells;
    SamePlain(b);
    state := new real[Cells(Plain(b)), b.vals];
    states := new real[b.rows / interval + 1, Cells(Plain(b)), b.vals];
    Load(Plain(b), state);
    NoCheckpoints(Plain(b), interval, states);
    Store(Plain(b), interval, 0, 0, state, states);
  }

  /** The forward kernel: every output row, the last state, the ring, and every checkpoint. */
  method Forward(b: Block, lanes: nat, interval: nat, history: array2<real>)
    returns (out: array2<real>, state: array2<real>, states: array3<real>)
    requires 0 < lanes && 0 < interval && Matrix(history, TAPS, Channels(b), b.history)
    modifies history
    ensures Matrix(out, b.rows, b.width, (t, o) => Out(b, t, o))
    ensures RnnKernel.Holds(Plain(b), b.rows, state) && Ring(b, b.rows, history)
    ensures Region(b, interval, states) && Checkpoints(Plain(b), interval, states, b.rows / interval + 1)
  {
    hide Out, Plain, Cells, RnnKernel.Holds, Ring, Checkpoints, Region;
    RingBegins(b, history);
    out := new real[b.rows, b.width];
    state, states := Begin(b, interval);
    var next := new real[Cells(Plain(b)), b.vals];
    for t := 0 to b.rows
      invariant RnnKernel.Holds(Plain(b), t, state) && Ring(b, t, history)
      invariant forall s, o :: 0 <= s < t && 0 <= o < b.width ==> out[s, o] == Out(b, s, o)
      invariant Region(b, interval, states) && Checkpoints(Plain(b), interval, states, t / interval + 1)
    {
      RnnBlockForward.Row(b, t, lanes, state, next, history, out);
      StoreIfDue(b, interval, t, state, states);
    }
  }

  lemma RingBegins(b: Block, history: array2<real>)
    requires Matrix(history, TAPS, Channels(b), b.history)
    ensures Ring(b, 0, history)
  {
    RingHistory.RingStart(history, TAPS, Channels(b), b.history, Projected(b));
  }

  // ---- backward ----

  /** The backward's recurrence has the forward's states. */
  lemma CheckpointsUp(m: Rnn, n: Rnn, interval: nat, states: array3<real>, slots: int)
    requires Up.SameForward(m, n) && Checkpoints(m, interval, states, slots)
    ensures Checkpoints(n, interval, states, slots)
  {
    hide State;
    forall s | 0 <= s < slots ensures Stored(n, interval, states, s) {
      assert Stored(m, interval, states, s);
      forall r, j ensures State(n, s * interval, r, j) == State(m, s * interval, r, j) {
        Up.StateUp(m, n, s * interval, r, j);
      }
    }
  }

  method LoadState(m: Rnn, interval: nat, slot: nat, states: array3<real>, state: array2<real>)
    requires Stored(m, interval, states, slot) && state.Length0 == Cells(m) && state.Length1 == m.vals
    modifies state
    ensures RnnKernel.Holds(m, slot * interval, state)
  {
    hide State, Cells;
    LoadSlot(states, slot, state);
  }

  /** Reload the last checkpoint at or before row `t` and replay from there: exactly the states around the row that a
      replay from the initial state gives. */
  method ReplayFrom(b: Block, interval: nat, t: nat, m: Rnn, states: array3<real>, prev: array2<real>,
                    next: array2<real>)
    returns (row: RowBuffers)
    requires 0 < interval && t < b.rows && prev != next && Up.SameForward(Plain(b), m)
    requires Checkpoints(m, interval, states, b.rows / interval + 1)
    requires prev.Length0 == Cells(m) && prev.Length1 == m.vals && next.Length0 == Cells(m) && next.Length1 == m.vals
    modifies prev, next
    ensures RnnKernel.Holds(m, t, prev) && RnnKernel.Holds(m, t + 1, next) && fresh(row.Repr()) && row.Holds(b, t)
  {
    hide RnnKernel.Holds, RowBuffers.Holds, RowBuffers.Cut, RowIn.Reads, Cells, Plain, Stored;
    var slot := t / interval;
    var start := slot * interval;
    SlotOf(t, interval);
    SlotBound(t, b.rows, interval);
    assert Stored(m, interval, states, slot);
    LoadState(m, interval, slot, states, prev);
    LoadState(m, interval, slot, states, next);
    row := NewRow(b);
    for offset := 0 to interval
      invariant RnnKernel.Holds(m, Least(start + offset, t), prev)
      invariant RnnKernel.Holds(m, Least(start + offset, t + 1), next)
      invariant fresh(row.Repr()) && (t < start + offset ==> row.Holds(b, t))
    {
      var s := start + offset;
      if s <= t {
        row := RowInputs(b, s);
        Advance(m, s, row.Cut(b, s, m), prev, next);
      }
      if s < t {
        CopyState(m, s + 1, next, prev);
      }
    }
  }

  /** Row `t`, replayed from its checkpoint and reversed.  The carried cotangent is kept in the gradient of the initial
      state between rows. */
  method RowBack(b: Block, interval: nat, t: nat, recover: bool, states: array3<real>, prev: array2<real>,
                 next: array2<real>, stateGrad: array2<real>, h0: array2<real>, to: Grads)
    requires 0 < interval && t < b.rows && (recover ==> Contracting(b.fns))
    requires Checkpoints(Core(b), interval, states, b.rows / interval + 1)
    requires prev.Length0 == Cells(Core(b)) && prev.Length1 == b.vals
    requires next.Length0 == Cells(Core(b)) && next.Length1 == b.vals
    requires stateGrad.Length0 == Cells(Core(b)) && stateGrad.Length1 == b.vals
    requires to.Apart() && {prev, next, stateGrad, h0} !! to.Repr() && prev != next
             && stateGrad !in {prev, next, h0} && h0 !in {prev, next}
    requires to.Holds(b, t + 1) && Carried(b, t + 1, h0)
    modifies prev, next, stateGrad, h0, to.Repr()
    ensures to.Holds(b, t) && Carried(b, t, h0)
  {
    hide RowBuffers.Holds, RnnKernel.Holds, Grads.Holds, Grads.Apart, Carried, Contracting, Core, Plain, Cells,
         Checkpoints;
    CoreHeads(b);
    CarriedFits(b, t + 1, h0);
    CopyCarried(b, t + 1, h0, stateGrad);
    var row := ReplayFrom(b, interval, t, Core(b), states, prev, next);
    Reverse(b, t, recover, row, prev, next, stateGrad, to);
    CopyCarried(b, t, stateGrad, h0);
  }

  lemma CarriedFits(b: Block, t: int, a: array2<real>)
    requires Carried(b, t, a)
    ensures a.Length0 == Cells(Core(b)) && a.Length1 == b.vals
  {
    hide Core, Cells;
  }

  method CopyCarried(b: Block, t: nat, from: array2<real>, to: array2<real>)
    requires Carried(b, t, from) && to.Length0 == Cells(Core(b)) && to.Length1 == b.vals && from != to
    modifies to
    ensures Carried(b, t, to) && Carried(b, t, from)
  {
    hide Core, Cells;
    CopyMatrix(from, to);
  }

  /** The reverse sweep from stored states, whatever the interval: the same gradients as the sweep that replays from the
      initial state. */
  method Backward(b: Block, interval: nat, recover: bool, states: array3<real>) returns (to: Grads, h0: array2<real>)
    requires 0 < interval && (recover ==> Contracting(b.fns))
    requires Checkpoints(Core(b), interval, states, b.rows / interval + 1)
    ensures to.Holds(b, 0) && Carried(b, 0, h0)
  {
    hide Grads.Holds, Grads.Apart, Carried, Contracting, Core, Cells, Checkpoints;
    var prev, next := new real[Cells(Core(b)), b.vals], new real[Cells(Core(b)), b.vals];
    var stateGrad := new real[Cells(Core(b)), b.vals];
    to, h0 := Start(b);
    for t := b.rows downto 0
      invariant to.Holds(b, t) && Carried(b, t, h0)
    {
      RowBack(b, interval, t, recover, states, prev, next, stateGrad, h0, to);
    }
  }

  /** Forward, then backward from the states the forward stored. */
  method Train(b: Block, lanes: nat, interval: nat, recover: bool, history: array2<real>)
    returns (out: array2<real>, to: Grads, h0: array2<real>)
    requires 0 < lanes && 0 < interval && Matrix(history, TAPS, Channels(b), b.history)
    requires recover ==> Contracting(b.fns)
    modifies history
    ensures Matrix(out, b.rows, b.width, (t, o) => Out(b, t, o))
    ensures to.Holds(b, 0) && Carried(b, 0, h0)
  {
    hide Out, Plain, Core, RnnKernel.Holds, Ring, Checkpoints, Grads.Holds, Carried, Contracting;
    var state, states;
    out, state, states := Forward(b, lanes, interval, history);
    CoreHeads(b);
    CheckpointsUp(Plain(b), Core(b), interval, states, b.rows / interval + 1);
    to, h0 := Backward(b, interval, recover, states);
  }
}
