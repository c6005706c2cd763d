/** What the reverse loop's buffers and the scan's states are, once the loops are over. */
module MambaProperties {
  import opened Sums
  import opened Functions
  import opened MambaModel
  import opened MambaGradient

  /** Scatter equals gather: although the iterations of the rows `r + 2`, `r + 1`, `r` and `r - 1` all write to
      it, the hidden gradient of row `r` ends as its own projection's, the taps of the two rows after it that
      exist, and the look-ahead of the row before it that exists. */
  lemma ScatterIsGather(m: Block, r: nat, i: int)
    requires r < m.rows
    ensures HiddenGrad(m, 0, r, i)
         == OwnHidden(m, r, i)
            + (if r + 1 < m.rows then TapHidden(m, r + 1, 1, i) else 0.0)
            + (if r + 2 < m.rows then TapHidden(m, r + 2, 0, i) else 0.0)
            + (if r >= 1 then AheadHidden(m, r - 1, i) else 0.0)
  {
    hide OwnHidden, TapHidden, AheadHidden, Sum;
    var all := (t: int) => HiddenTerm(m, r, i, t);
    var own, ahead := (t: int) => if r == t then OwnHidden(m, t, i) else 0.0,
                      (t: int) => if r == t + 1 then AheadHidden(m, t, i) else 0.0;
    var tap1 := (t: int) => if r == t - 1 then TapHidden(m, t, 1, i) else 0.0;
    var tap0 := (t: int) => if r == t - 2 then TapHidden(m, t, 0, i) else 0.0;
    var taps := (t: int) => tap1(t) + tap0(t);
    SumFromAll(m.rows, all);
    SumAdd(m.rows, taps, tap1, tap0);
    SumAdd3(m.rows, all, own, taps, ahead);
    SumDelta(m.rows, r, own);
    SumDelta(m.rows, r - 1, ahead);
    SumDelta(m.rows, r + 1, tap1);
    SumDelta(m.rows, r + 2, tap0);
  }

  /** The running angle is the prefix sum of the rows' steps, so undoing one row's step gives back the angle
      before it. */
  lemma {:induction false} AngleIsPrefix(m: Block, t: nat, h: int, j: int)
    ensures Angle(m, t, h, j) == Sum(t, s => Proj(m, s, AngleAt(m) + j) * Dt(m, s, h))
    ensures Angle(m, t + 1, h, j) - Proj(m, t, AngleAt(m) + j) * Dt(m, t, h) == Angle(m, t, h, j)
  {
    hide Proj, Dt;
    if t > 0 {
      AngleIsPrefix(m, t - 1, h, j);
    }
  }

  // ---- the state never grows beyond its inputs ----

  /** The size of what row `s` feeds into a state cell. */
  ghost function InputSize(m: Block, s: int, f: int, n: int): real {
    Abs(Mul(Conv(m, s, f), BRot(m, s, Group(m, f), n)))
  }

  lemma KeepRange(m: Block, t: int, h: int)
    requires Contracting(m.fns)
    ensures 0.0 < Keep(m, t, h) < 1.0
  {
    hide Proj, Softplus;
    assert Softplus(m.fns, DtPre(m, t, h)) > 0.0;
    Negative(Decay(m, t, h), Dt(m, t, h));
  }

  /** Every state cell is bounded by the initial state and the sizes of the inputs so far. */
  lemma {:induction false} StateBound(m: Block, t: nat, f: int, n: int)
    requires Contracting(m.fns)
    ensures Abs(State(m, t, f, n)) <= Abs(m.h0(f, n)) + Sum(t, s => InputSize(m, s, f, n))
  {
    hide Keep, Conv, BRot, Group, Head, Contracting, Abs;
    var sizes := (s: int) => InputSize(m, s, f, n);
    if t == 0 {
      assert State(m, t, f, n) == m.h0(f, n);
      assert Sum(t, sizes) == 0.0;
    } else {
      StateBound(m, t - 1, f, n);
      KeepRange(m, t - 1, Head(m, f));
      var keep, prev, input := Keep(m, t - 1, Head(m, f)), State(m, t - 1, f, n),
          Mul(Conv(m, t - 1, f), BRot(m, t - 1, Group(m, f), n));
      assert State(m, t, f, n) == keep * prev + input;
      BoundStep(keep, prev, input, Abs(m.h0(f, n)) + Sum(t - 1, sizes));
    }
  }

  lemma BoundStep(keep: real, state: real, input: real, bound: real)
    requires 0.0 <= keep <= 1.0 && Abs(state) <= bound
    ensures Abs(keep * state + input) <= bound + Abs(input)
  {
    Shrink(keep, state);
    Triangle(keep * state, input);
  }

  lemma Shrink(e: real, x: real)
    requires 0.0 <= e <= 1.0
    ensures Abs(e * x) <= Abs(x)
  {
    assert e * x == x - (1.0 - e) * x;
    if x >= 0.0 {
      NotPositive(-e, x);
      NotPositive(e - 1.0, x);
    } else {
      NotPositive(x, e);
      NotPositive(x, 1.0 - e);
    }
  }
}
