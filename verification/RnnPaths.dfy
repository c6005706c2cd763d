/** Paths through the M2RNN recurrence's inputs and parameters, and its values along the way. */
module RnnPaths {
  import opened Slopes
  import opened RnnModel
  import G = RnnGradient

  /** The same sizes and functions; inputs and parameters differ, and the upstream gradient may. */
  ghost predicate Alike(m: Rnn, n: Rnn) {
    n == m.(query := n.query, key := n.key, value := n.value, forget := n.forget, w := n.w, logRate := n.logRate,
            bias := n.bias, skip := n.skip, h0 := n.h0, up := n.up)
  }

  // ---- inputs and parameters along a path ----

  ghost function QueryAt(c: real -> Rnn, i: int, j: int): (f: real -> real)
    ensures forall e {:trigger f(e)} :: f(e) == c(e).query(i, j)
  {
    (e: real) => c(e).query(i, j)
  }

  ghost function KeyAt(c: real -> Rnn, i: int, j: int): (f: real -> real)
    ensures forall e {:trigger f(e)} :: f(e) == c(e).key(i, j)
  {
    (e: real) => c(e).key(i, j)
  }

  ghost function ValueAt(c: real -> Rnn, i: int, j: int, k: int): (f: real -> real)
    ensures forall e {:trigger f(e)} :: f(e) == c(e).value(i, j, k)
  {
    (e: real) => c(e).value(i, j, k)
  }

  ghost function ForgetAt(c: real -> Rnn, i: int, j: int): (f: real -> real)
    ensures forall e {:trigger f(e)} :: f(e) == c(e).forget(i, j)
  {
    (e: real) => c(e).forget(i, j)
  }

  ghost function WAt(c: real -> Rnn, i: int, j: int, k: int): (f: real -> real)
    ensures forall e {:trigger f(e)} :: f(e) == c(e).w(i, j, k)
  {
    (e: real) => c(e).w(i, j, k)
  }

  ghost function LogRateAt(c: real -> Rnn, i: int): (f: real -> real)
    ensures forall e {:trigger f(e)} :: f(e) == c(e).logRate(i)
  {
    (e: real) => c(e).logRate(i)
  }

  ghost function BiasAt(c: real -> Rnn, i: int): (f: real -> real)
    ensures forall e {:trigger f(e)} :: f(e) == c(e).bias(i)
  {
    (e: real) => c(e).bias(i)
  }

  ghost function SkipAt(c: real -> Rnn, i: int, j: int): (f: real -> real)
    ensures forall e {:trigger f(e)} :: f(e) == c(e).skip(i, j)
  {
    (e: real) => c(e).skip(i, j)
  }

  ghost function H0At(c: real -> Rnn, i: int, j: int): (f: real -> real)
    ensures forall e {:trigger f(e)} :: f(e) == c(e).h0(i, j)
  {
    (e: real) => c(e).h0(i, j)
  }

  /** `c` is a path through recurrences that moves with velocity `d` at zero. */
  ghost predicate Curve(c: real -> Rnn, d: G.Tangent) {
    && (forall e {:trigger c(e)} :: Alike(c(0.0), c(e)))
    && (forall i, j {:trigger QueryAt(c, i, j)} :: 0 <= i ==> Slope(QueryAt(c, i, j), d.query(i, j)))
    && (forall i, j {:trigger KeyAt(c, i, j)} :: 0 <= i ==> Slope(KeyAt(c, i, j), d.key(i, j)))
    && (forall i, j, k {:trigger ValueAt(c, i, j, k)} :: 0 <= i ==> Slope(ValueAt(c, i, j, k), d.value(i, j, k)))
    && (forall i, j {:trigger ForgetAt(c, i, j)} :: 0 <= i ==> Slope(ForgetAt(c, i, j), d.forget(i, j)))
    && (forall i, j, k {:trigger WAt(c, i, j, k)} :: Slope(WAt(c, i, j, k), d.w(i, j, k)))
    && (forall i {:trigger LogRateAt(c, i)} :: Slope(LogRateAt(c, i), d.logRate(i)))
    && (forall i {:trigger BiasAt(c, i)} :: Slope(BiasAt(c, i), d.bias(i)))
    && (forall i, j {:trigger SkipAt(c, i, j)} :: Slope(SkipAt(c, i, j), d.skip(i, j)))
    && (forall i, j {:trigger H0At(c, i, j)} :: Slope(H0At(c, i, j), d.h0(i, j)))
  }

  lemma QuerySlope(c: real -> Rnn, d: G.Tangent, i: int, j: int)
    requires Curve(c, d) && 0 <= i
    ensures Slope(QueryAt(c, i, j), d.query(i, j))
  {
    hide Slope, QueryAt;
    assert Slope(QueryAt(c, i, j), d.query(i, j));
  }

  lemma KeySlope(c: real -> Rnn, d: G.Tangent, i: int, j: int)
    requires Curve(c, d) && 0 <= i
    ensures Slope(KeyAt(c, i, j), d.key(i, j))
  {
    hide Slope, KeyAt;
    assert Slope(KeyAt(c, i, j), d.key(i, j));
  }

  lemma ValueSlope(c: real -> Rnn, d: G.Tangent, i: int, j: int, k: int)
    requires Curve(c, d) && 0 <= i
    ensures Slope(ValueAt(c, i, j, k), d.value(i, j, k))
  {
    hide Slope, ValueAt;
    assert Slope(ValueAt(c, i, j, k), d.value(i, j, k));
  }

  lemma ForgetSlope(c: real -> Rnn, d: G.Tangent, i: int, j: int)
    requires Curve(c, d) && 0 <= i
    ensures Slope(ForgetAt(c, i, j), d.forget(i, j))
  {
    hide Slope, ForgetAt;
    assert Slope(ForgetAt(c, i, j), d.forget(i, j));
  }

  lemma WSlope(c: real -> Rnn, d: G.Tangent, i: int, j: int, k: int)
    requires Curve(c, d)
    ensures Slope(WAt(c, i, j, k), d.w(i, j, k))
  {
    hide Slope, WAt;
    assert Slope(WAt(c, i, j, k), d.w(i, j, k));
  }

  lemma LogRateSlope(c: real -> Rnn, d: G.Tangent, i: int)
    requires Curve(c, d)
    ensures Slope(LogRateAt(c, i), d.logRate(i))
  {
    hide Slope, LogRateAt;
    assert Slope(LogRateAt(c, i), d.logRate(i));
  }

  lemma BiasSlope(c: real -> Rnn, d: G.Tangent, i: int)
    requires Curve(c, d)
    ensures Slope(BiasAt(c, i), d.bias(i))
  {
    hide Slope, BiasAt;
    assert Slope(BiasAt(c, i), d.bias(i));
  }

  lemma SkipSlope(c: real -> Rnn, d: G.Tangent, i: int, j: int)
    requires Curve(c, d)
    ensures Slope(SkipAt(c, i, j), d.skip(i, j))
  {
    hide Slope, SkipAt;
    assert Slope(SkipAt(c, i, j), d.skip(i, j));
  }

  lemma H0Slope(c: real -> Rnn, d: G.Tangent, i: int, j: int)
    requires Curve(c, d)
    ensures Slope(H0At(c, i, j), d.h0(i, j))
  {
    hide Slope, H0At;
    assert Slope(H0At(c, i, j), d.h0(i, j));
  }

  // ---- the recurrence's values along a path ----

  ghost function StepAt(c: real -> Rnn, t: int, h: int): (v: real -> real)
    ensures forall e {:trigger v(e)} :: v(e) == Step(c(e), t, h)
  {
    hide Step;
    (e: real) => Step(c(e), t, h)
  }

  ghost function DecayAt(c: real -> Rnn, t: int, h: int): (v: real -> real)
    ensures forall e {:trigger v(e)} :: v(e) == Decay(c(e), t, h)
  {
    hide Decay;
    (e: real) => Decay(c(e), t, h)
  }

  ghost function DriveAt(c: real -> Rnn, t: int, r: int, j: int): (v: real -> real)
    ensures forall e {:trigger v(e)} :: v(e) == Drive(c(e), t, r, j)
  {
    hide Drive;
    (e: real) => Drive(c(e), t, r, j)
  }

  ghost function TanhAt(c: real -> Rnn, t: int, r: int, j: int): (v: real -> real)
    ensures forall e {:trigger v(e)} :: v(e) == Tanh(c(e), t, r, j)
  {
    hide Tanh;
    (e: real) => Tanh(c(e), t, r, j)
  }

  ghost function StateAt(c: real -> Rnn, t: int, r: int, j: int): (v: real -> real)
    ensures forall e {:trigger v(e)} :: v(e) == State(c(e), t, r, j)
  {
    hide State;
    (e: real) => State(c(e), t, r, j)
  }

  ghost function ReadAt(c: real -> Rnn, t: int, h: int, j: int): (v: real -> real)
    ensures forall e {:trigger v(e)} :: v(e) == Read(c(e), t, h, j)
  {
    hide Read;
    (e: real) => Read(c(e), t, h, j)
  }

  /** The path of a state row times a column of the recurrent weights. */
  ghost function MixAt(c: real -> Rnn, t: int, r: int, j: int): (v: real -> real)
    ensures forall e {:trigger v(e)} :: v(e) == Mixed(c(e), t, r, j)
  {
    hide Mixed;
    (e: real) => Mixed(c(e), t, r, j)
  }

  function Mixed(m: Rnn, t: int, r: int, j: int): real { Mix(m, i => State(m, t, r, i), r, j) }
}
