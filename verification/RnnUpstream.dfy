/** The M2RNN's forward pass and its tangent do not read the upstream gradient. */
module RnnUpstream {
  import opened Sums
  import opened Functions
  import opened RnnModel
  import opened RnnGradient
  import opened RnnProperties
  import opened RnnRowAdjoint

  ghost predicate SameForward(m: Rnn, n: Rnn) { n == m.(up := n.up) }

  lemma LayoutUp(m: Rnn, n: Rnn, r: int)
    requires SameForward(m, n)
    ensures Head(n, r) == Head(m, r) && WHead(n, Head(n, r)) == WHead(m, Head(m, r)) && Slot(n, r) == Slot(m, r)
  {
    hide Valid;
  }

  lemma StepUp(m: Rnn, n: Rnn, t: int, h: int)
    requires SameForward(m, n)
    ensures Step(n, t, h) == Step(m, t, h)
  {
    hide Valid, Softplus;
    assert FHead(n, h) == FHead(m, h);
  }

  lemma HeadUp(m: Rnn, n: Rnn, t: int, h: int)
    requires SameForward(m, n)
    ensures Decay(n, t, h) == Decay(m, t, h) && VHead(n, h) == VHead(m, h)
  {
    hide Valid, Softplus, Step;
    StepUp(m, n, t, h);
  }

  lemma DriveUp(m: Rnn, n: Rnn, t: int, r: int, j: int)
    requires SameForward(m, n)
    ensures Drive(n, t, r, j) == Drive(m, t, r, j)
  {
    hide Valid, Head, VHead, Slot;
    LayoutUp(m, n, r);
    HeadUp(m, n, t, Head(m, r));
  }

  lemma {:induction false} StateUp(m: Rnn, n: Rnn, t: int, r: int, j: int)
    requires SameForward(m, n)
    ensures State(n, t, r, j) == State(m, t, r, j)
    decreases if t > 0 then t else 0, 0
  {
    if t > 0 {
      NextUp(m, n, t - 1, r, j);
    } else {
      hide Valid;
    }
  }

  lemma {:induction false} NextUp(m: Rnn, n: Rnn, t: nat, r: int, j: int)
    requires SameForward(m, n)
    ensures State(n, t + 1, r, j) == State(m, t + 1, r, j)
    decreases t, 3
  {
    hide *;
    NextState(m, t, r, j);
    NextState(n, t, r, j);
    LayoutUp(m, n, r);
    HeadUp(m, n, t, Head(m, r));
    StateUp(m, n, t, r, j);
    TanhUp(m, n, t, r, j);
  }

  lemma {:induction false} TanhUp(m: Rnn, n: Rnn, t: int, r: int, j: int)
    requires SameForward(m, n)
    ensures Tanh(n, t, r, j) == Tanh(m, t, r, j)
    decreases if t > 0 then t else 0, 2
  {
    hide Valid, Mix, State, Drive;
    MixUp(m, n, t, r, j);
    DriveUp(m, n, t, r, j);
  }

  lemma {:induction false} MixUp(m: Rnn, n: Rnn, t: int, r: int, j: int)
    requires SameForward(m, n)
    ensures Mix(n, i => State(n, t, r, i), r, j) == Mix(m, i => State(m, t, r, i), r, j)
    decreases if t > 0 then t else 0, 1
  {
    hide Valid, Sum, Mul, State, Head, WHead;
    LayoutUp(m, n, r);
    var s, u := (i: int) => State(m, t, r, i), (i: int) => State(n, t, r, i);
    var x, y := (i: int) => Mul(s(i), m.w(WHead(m, Head(m, r)), i, j)),
        (i: int) => Mul(u(i), n.w(WHead(n, Head(n, r)), i, j));
    forall i ensures x(i) == y(i) {
      StateUp(m, n, t, r, i);
    }
    SumEq(m.vals, x, y);
  }

  // ---- the readout and the tangents ----

  lemma ReadUp(m: Rnn, n: Rnn, t: int, h: int, j: int)
    requires SameForward(m, n)
    ensures Read(n, t, h, j) == Read(m, t, h, j)
  {
    hide Valid, Sum, Mul, State, Slot, VHead, CellRow;
    HeadUp(m, n, t, h);
    var x, y := (k: int) => Mul(m.query(t, Slot(m, CellRow(m, h, k))), State(m, t + 1, CellRow(m, h, k), j)),
        (k: int) => Mul(n.query(t, Slot(n, CellRow(n, h, k))), State(n, t + 1, CellRow(n, h, k), j));
    forall k ensures x(k) == y(k) {
      CellUp(m, n, h, k);
      StateUp(m, n, t + 1, CellRow(m, h, k), j);
    }
    SumEq(m.keys, x, y);
  }

  lemma CellUp(m: Rnn, n: Rnn, h: int, k: int)
    requires SameForward(m, n)
    ensures CellRow(n, h, k) == CellRow(m, h, k) && Slot(n, CellRow(n, h, k)) == Slot(m, CellRow(m, h, k))
  {
    hide Valid, Slot;
    LayoutUp(m, n, CellRow(m, h, k));
  }

  lemma TDecayUp(m: Rnn, n: Rnn, d: Tangent, t: int, h: int)
    requires SameForward(m, n)
    ensures TDecay(n, d, t, h) == TDecay(m, d, t, h)
  {
    hide Valid, Decay, Step, Sigmoid, TDecayOf;
    HeadUp(m, n, t, h);
    StepUp(m, n, t, h);
    assert FHead(n, h) == FHead(m, h);
  }

  lemma TDriveUp(m: Rnn, n: Rnn, d: Tangent, t: int, r: int, j: int)
    requires SameForward(m, n)
    ensures TDrive(n, d, t, r, j) == TDrive(m, d, t, r, j)
  {
    hide Valid, Slot, Head, VHead, Mul;
    LayoutUp(m, n, r);
    HeadUp(m, n, t, Head(m, r));
  }

  lemma {:induction false} TStateUp(m: Rnn, n: Rnn, d: Tangent, t: int, r: int, j: int)
    requires SameForward(m, n)
    ensures TState(n, d, t, r, j) == TState(m, d, t, r, j)
    decreases if t > 0 then t else 0, 0
  {
    if t > 0 {
      TNextUp(m, n, d, t - 1, r, j);
    }
  }

  lemma {:induction false} TNextUp(m: Rnn, n: Rnn, d: Tangent, t: nat, r: int, j: int)
    requires SameForward(m, n)
    ensures TState(n, d, t + 1, r, j) == TState(m, d, t + 1, r, j)
    decreases t, 2
  {
    hide *;
    NextTangent(m, d, t, r, j);
    NextTangent(n, d, t, r, j);
    LayoutUp(m, n, r);
    HeadUp(m, n, t, Head(m, r));
    TDecayUp(m, n, d, t, Head(m, r));
    TDriveUp(m, n, d, t, r, j);
    StateUp(m, n, t, r, j);
    TanhUp(m, n, t, r, j);
    TStateUp(m, n, d, t, r, j);
    TMixUp(m, n, d, t, r, j);
  }

  lemma {:induction false} TMixUp(m: Rnn, n: Rnn, d: Tangent, t: nat, r: int, j: int)
    requires SameForward(m, n)
    ensures TMixAt(n, d, t, r, j) == TMixAt(m, d, t, r, j)
    decreases t, 1
  {
    hide Valid, Sum, Mul, State, TState, Head, WHead;
    LayoutUp(m, n, r);
    var s, u := (i: int) => State(m, t, r, i), (i: int) => State(n, t, r, i);
    var ts, tu := (i: int) => TState(m, d, t, r, i), (i: int) => TState(n, d, t, r, i);
    var x, y := (i: int) => TMixTerm(m, d, s, ts, r, j, i), (i: int) => TMixTerm(n, d, u, tu, r, j, i);
    forall i ensures x(i) == y(i) {
      StateUp(m, n, t, r, i);
      TStateUp(m, n, d, t, r, i);
    }
    SumEq(m.vals, x, y);
  }

  lemma TReadUp(m: Rnn, n: Rnn, d: Tangent, t: int, h: int, j: int)
    requires SameForward(m, n)
    ensures TRead(n, d, t, h, j) == TRead(m, d, t, h, j)
  {
    hide Valid, Sum, Mul, VHead, CellRow, TReadTerm;
    HeadUp(m, n, t, h);
    var x, y := (k: int) => TReadTerm(m, d, t, CellRow(m, h, k), j),
        (k: int) => TReadTerm(n, d, t, CellRow(n, h, k), j);
    forall k ensures x(k) == y(k) {
      CellUp(m, n, h, k);
      TTermUp(m, n, d, t, CellRow(m, h, k), j);
    }
    SumEq(m.keys, x, y);
  }

  lemma TTermUp(m: Rnn, n: Rnn, d: Tangent, t: int, r: int, j: int)
    requires SameForward(m, n)
    ensures TReadTerm(n, d, t, r, j) == TReadTerm(m, d, t, r, j)
  {
    hide Valid, Mul, State, TState, Slot;
    LayoutUp(m, n, r);
    StateUp(m, n, t + 1, r, j);
    TStateUp(m, n, d, t + 1, r, j);
  }
}
