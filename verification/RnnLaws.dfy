/** What the values of the M2RNN are, said without their definitions: laws that hold wherever the transcendental
    functions are what their names say. */
module RnnLaws {
  import opened Sums
  import opened Functions
  import opened FunctionSlopes
  import opened Indices
  import opened RnnModel
  import opened RnnProperties
  import RmsNorm
  import B = RnnBlockModel
  import R = RingHistory

  // ---- layout ----

  /** Key `k` of head `h`, and the query slot its group of heads shares. */
  lemma CellOf(m: Rnn, h: int, k: int)
    requires 0 <= k < m.keys
    ensures Head(m, CellRow(m, h, k)) == h && Slot(m, CellRow(m, h, k)) == h / m.qkShare * m.keys + k
  {
    DivMod(h, k, m.keys);
    hide Valid;
  }

  // ---- decays ----

  /** Two steps decay as their sum does, and no step does not decay. */
  lemma DecayOfSum(k: Fns, rate: real, x: real, y: real)
    requires Additive(k.exp)
    ensures DecayOf(k, rate, x + y) == Mul(DecayOf(k, rate, x), DecayOf(k, rate, y)) && DecayOf(k, rate, 0.0) == 1.0
  {
    hide Mul;
    assert Adds(k.exp, -rate * x, -rate * y);
    assert -rate * (x + y) == -rate * x + -rate * y;
    ExpZero(k.exp);
  }

  /** A head that takes no step keeps its state, whatever the row brings. */
  lemma NoStepKeeps(m: Rnn, t: nat, r: int, j: int)
    requires m.fns.exp(0.0) == 1.0 && Step(m, t, Head(m, r)) == 0.0
    ensures State(m, t + 1, r, j) == State(m, t, r, j)
  {
    hide Valid, Step, State, Tanh, Head, Decay, Blend;
    NextState(m, t, r, j);
    NoStepNoDecay(m, t, Head(m, r));
    AllKept(State(m, t, r, j), Tanh(m, t, r, j));
  }

  lemma NoStepNoDecay(m: Rnn, t: int, h: int)
    requires m.fns.exp(0.0) == 1.0 && Step(m, t, h) == 0.0
    ensures Decay(m, t, h) == 1.0
  {
    hide Valid, Step;
  }

  lemma AllKept(state: real, tanh: real)
    ensures Blend(1.0, state, tanh) == state
  {
  }

  /** No initial state, no keys, and a tanh through the origin. */
  ghost predicate Empty(m: Rnn) {
    && m.fns.tanh(0.0) == 0.0 && (forall r, j {:trigger m.h0(r, j)} :: m.h0(r, j) == 0.0)
    && (forall t, s {:trigger m.key(t, s)} :: m.key(t, s) == 0.0)
  }

  /** From nothing, rows without keys make nothing. */
  lemma {:induction false} NothingFromNothing(m: Rnn, t: nat, r: int, j: int)
    requires Empty(m)
    ensures State(m, t, r, j) == 0.0
    decreases t
  {
    hide Valid, Mix, Drive, Decay, Head;
    if t > 0 {
      hide State, Empty, Tanh;
      var u := t - 1;
      forall i ensures State(m, u, r, i) == 0.0 {
        NothingFromNothing(m, u, r, i);
      }
      NothingMixed(m, u, r, j);
      NextState(m, u, r, j);
      StillNothing(Decay(m, u, Head(m, r)));
    }
  }

  lemma StillNothing(decay: real)
    ensures Blend(decay, 0.0, 0.0) == 0.0
  {
  }

  lemma NothingMixed(m: Rnn, t: nat, r: int, j: int)
    requires Empty(m) && forall i {:trigger State(m, t, r, i)} :: State(m, t, r, i) == 0.0
    ensures Tanh(m, t, r, j) == 0.0
  {
    hide Valid, State, Sum, Slot, Head, VHead, WHead;
    var state := (i: int) => State(m, t, r, i);
    var terms := (i: int) => Mul(state(i), m.w(WHead(m, Head(m, r)), i, j));
    forall i ensures terms(i) == 0.0 {
      ZeroTimes(m.w(WHead(m, Head(m, r)), i, j));
    }
    SumZero(m.vals, terms);
    ZeroTimes(m.value(t, VHead(m, Head(m, r)), j));
  }

  lemma ZeroTimes(x: real)
    ensures Mul(0.0, x) == 0.0 && Mul(x, 0.0) == 0.0
  {
  }

  /** With no query a head reads its value's skip connection alone. */
  lemma ReadOfNoQuery(m: Rnn, t: int, h: int, j: int)
    requires forall s {:trigger m.query(t, s)} :: m.query(t, s) == 0.0
    ensures Read(m, t, h, j) == Mul(m.value(t, VHead(m, h), j), m.skip(h, j))
  {
    hide Valid, State, Sum, Slot, CellRow, VHead;
    var terms := (k: int) => Mul(m.query(t, Slot(m, CellRow(m, h, k))), State(m, t + 1, CellRow(m, h, k), j));
    forall k ensures terms(k) == 0.0 {
      ZeroTimes(State(m, t + 1, CellRow(m, h, k), j));
    }
    SumZero(m.keys, terms);
  }

  // ---- the block ----

  /** Queries, keys and values are convolved; forget projections and gates follow. */
  lemma ChannelsInOrder(b: B.Block)
    ensures B.KeyAt(b) == b.qkHeads * b.keys && B.ValueAt(b) == B.KeyAt(b) + b.qkHeads * b.keys
    ensures B.Channels(b) == B.ValueAt(b) + b.vHeads * b.vals && B.GateAt(b) == B.Channels(b) + b.fHeads
    ensures B.Dims(b) == B.GateAt(b) + b.heads * b.vals
  {
    hide B.Sound;
  }

  /** The convolution has four taps: the row itself and the three rows before it. */
  lemma FourTaps(b: B.Block, t: int, c: int)
    requires t >= 3
    ensures B.ConvPre(b, t, c)
         == b.convB(c) + Mul(B.Proj(b, t - 3, c), b.convW(c, 0)) + Mul(B.Proj(b, t - 2, c), b.convW(c, 1))
            + Mul(B.Proj(b, t - 1, c), b.convW(c, 2)) + Mul(B.Proj(b, t, c), b.convW(c, 3))
  {
    hide B.Sound, B.Proj, Mul;
    var f := (k: int) => Mul(B.Proj(b, t - 3 + k, c), b.convW(c, k));
    TapSum(b, t, c, f);
    SumOfThree(f);
  }

  lemma SumOfThree(f: int -> real)
    ensures Sum(3, f) == f(0) + f(1) + f(2)
  {
    assert Sum(1, f) == f(0);
    assert Sum(2, f) == f(0) + f(1);
  }

  lemma TapSum(b: B.Block, t: int, c: int, f: int -> real)
    requires t >= 3 && forall k {:trigger f(k)} :: f(k) == Mul(B.Proj(b, t - 3 + k, c), b.convW(c, k))
    ensures B.ConvPre(b, t, c) == b.convB(c) + Sum(3, f) + Mul(B.Proj(b, t, c), b.convW(c, 3))
  {
    hide B.Sound, B.Proj, Mul, Sum;
    SumEq(3, k => Mul(R.DirectTap(B.TAPS, b.history, B.Projected(b), t, k, c), b.convW(c, k)), f);
  }

  /** A gated readout times 1 + exp(-gate) is the readout times the gate. */
  lemma GateLaw(b: B.Block, t: int, f: int)
    ensures Mul(B.Post(b, t, f), 1.0 + b.fns.exp(-B.Gate(b, t, f))) == Mul(B.Readout(b, t, f), B.Gate(b, t, f))
  {
    hide B.Sound, B.Readout, B.Gate, Silu, Mul;
    SiluLaw(b.fns, B.Gate(b, t, f));
    Regroup(B.Readout(b, t, f), Silu(b.fns, B.Gate(b, t, f)), 1.0 + b.fns.exp(-B.Gate(b, t, f)));
  }

  lemma Regroup(x: real, y: real, z: real)
    ensures Mul(Mul(x, y), z) == Mul(x, Mul(y, z))
  {
  }

  /** A hidden row of zeros has an output row of zeros, whatever the state and the history hold. */
  lemma ZeroRowIsSilent(b: B.Block, t: int, o: int)
    requires forall i {:trigger b.u(t, i)} :: b.u(t, i) == 0.0
    ensures B.Out(b, t, o) == 0.0
  {
    hide B.Sound, B.Normed, Sum, Mul;
    var terms := (f: int) => Mul(B.Normed(b, t, f), b.outW(o, f));
    forall f ensures terms(f) == 0.0 {
      SilentFeature(b, t, f);
      ZeroTimes(b.outW(o, f));
    }
    SumZero(B.Features(b), terms);
  }

  lemma SilentFeature(b: B.Block, t: int, f: int)
    requires forall i {:trigger b.u(t, i)} :: b.u(t, i) == 0.0
    ensures B.Normed(b, t, f) == 0.0
  {
    hide B.Sound, B.Post, B.PostUp, RmsNorm.Inv;
    SilentGate(b, t, f);
  }

  lemma SilentGate(b: B.Block, t: int, f: int)
    requires forall i {:trigger b.u(t, i)} :: b.u(t, i) == 0.0
    ensures B.Post(b, t, f) == 0.0
  {
    hide B.Sound, B.Readout, Sum, Sigmoid;
    var terms := (i: int) => Mul(b.u(t, i), b.inW(B.GateAt(b) + f, i));
    SumZero(b.width, terms);
    SumEq(b.width, terms, i => Mul(b.u(t, i), b.inW(B.GateAt(b) + f, i)));
  }
}
