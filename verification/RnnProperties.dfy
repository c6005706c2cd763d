/** Facts about every reachable state of the M2RNN: the tanh can be recovered from two consecutive states,
    and the state never leaves the unit range or the range it started in. */
module RnnProperties {
  import opened Functions
  import opened RnnModel

  lemma DecayRange(m: Rnn, t: int, h: int)
    requires Contracting(m.fns)
    ensures 0.0 < Decay(m, t, h) < 1.0
  {
    hide Softplus, FHead;
    var step := Softplus(m.fns, m.forget(t, FHead(m, h)) + m.bias(h));
    Negative(-m.fns.exp(m.logRate(h)), step);
  }

  lemma NextState(m: Rnn, t: nat, r: int, j: int)
    ensures State(m, t + 1, r, j) == Blend(Decay(m, t, Head(m, r)), State(m, t, r, j), Tanh(m, t, r, j))
  {
    hide Decay, Mix, Drive, Blend, Head;
  }

  /** The algebraic form of one kernel: what the state moved by, over the share the tanh had. */
  function RecoveredTanh(next: real, prev: real, decay: real): real
    requires decay != 1.0
  {
    (next - decay * prev) / (1.0 - decay)
  }

  /** Over a whole run the recovered tanh is the tanh of the forward step. */
  lemma RecoveryIsExact(m: Rnn, t: nat, r: int, j: int)
    requires Decay(m, t, Head(m, r)) != 1.0
    ensures RecoveredTanh(State(m, t + 1, r, j), State(m, t, r, j), Decay(m, t, Head(m, r))) == Tanh(m, t, r, j)
  {
    hide Decay, Tanh, State, Head;
    NextState(m, t, r, j);
    Divide(Decay(m, t, Head(m, r)), State(m, t, r, j), Tanh(m, t, r, j));
  }

  lemma Divide(d: real, s: real, tanh: real)
    requires d != 1.0
    ensures RecoveredTanh(Blend(d, s, tanh), s, d) == tanh
  {
    var share := 1.0 - d;
    assert Blend(d, s, tanh) - d * s == share * tanh;
    Cancel(share, tanh);
  }

  lemma Cancel(share: real, x: real)
    requires share != 0.0
    ensures share * x / share == x
  {
  }

  ghost predicate UnitTanh(k: Fns) { forall x {:trigger k.tanh(x)} :: -1.0 <= k.tanh(x) <= 1.0 }

  /** Every state stays within any bound of at least one that holds for the initial state. */
  lemma {:induction false} StateBound(m: Rnn, t: nat, r: int, j: int, bound: real)
    requires Contracting(m.fns) && UnitTanh(m.fns) && bound >= 1.0 && Abs(m.h0(r, j)) <= bound
    ensures Abs(State(m, t, r, j)) <= bound
  {
    hide *;
    if t == 0 {
      StartState(m, r, j);
    } else {
      StateBound(m, t - 1, r, j, bound);
      NextState(m, t - 1, r, j);
      DecayRange(m, t - 1, Head(m, r));
      TanhRange(m, t - 1, r, j);
      Convex(Decay(m, t - 1, Head(m, r)), State(m, t - 1, r, j), Tanh(m, t - 1, r, j), bound);
    }
  }

  lemma StartState(m: Rnn, r: int, j: int)
    ensures State(m, 0, r, j) == m.h0(r, j)
  {
  }

  lemma TanhRange(m: Rnn, t: int, r: int, j: int)
    requires UnitTanh(m.fns)
    ensures -1.0 <= Tanh(m, t, r, j) <= 1.0
  {
    hide Mix, Drive;
  }

  lemma Convex(d: real, s: real, tanh: real, bound: real)
    requires 0.0 < d < 1.0 && Abs(s) <= bound && -1.0 <= tanh <= 1.0 && bound >= 1.0
    ensures Abs(Blend(d, s, tanh)) <= bound
  {
    NotPositive(s - bound, d);
    NotPositive(tanh - bound, 1.0 - d);
    NotPositive(-bound - s, d);
    NotPositive(-bound - tanh, 1.0 - d);
    assert Blend(d, s, tanh) - bound == (s - bound) * d + (tanh - bound) * (1.0 - d);
    assert -bound - Blend(d, s, tanh) == (-bound - s) * d + (-bound - tanh) * (1.0 - d);
  }
}
