/** The M2RNN's linearised forward pass, and what its reverse sweep leaves in each buffer. */
module RnnGradient {
  import opened Sums
  import opened Functions
  import opened RnnModel

  // ---- tangents: the product and chain rule on RnnModel's functions, with tanh' = 1 - tanh^2 ----

  datatype Tangent = Tangent(
    query: (int, int) -> real, key: (int, int) -> real, value: (int, int, int) -> real, forget: (int, int) -> real,
    w: (int, int, int) -> real, logRate: int -> real, bias: int -> real, skip: (int, int) -> real,
    h0: (int, int) -> real)

  function Rate(m: Rnn, h: int): real { m.fns.exp(m.logRate(h)) }

  function Slope(m: Rnn, t: int, h: int): real { Sigmoid(m.fns, m.forget(t, FHead(m, h)) + m.bias(h)) }

  ghost function TDecay(m: Rnn, d: Tangent, t: int, h: int): real {
    TDecayOf(Decay(m, t, h), Rate(m, h), d.logRate(h), Step(m, t, h), Slope(m, t, h),
             d.forget(t, FHead(m, h)) + d.bias(h))
  }

  function TDecayOf(decay: real, rate: real, tRate: real, step: real, slope: real, tPre: real): real {
    decay * -(rate * tRate * step + rate * (slope * tPre))
  }

  ghost function TMixTerm(m: Rnn, d: Tangent, state: int -> real, tState: int -> real, r: int, j: int, i: int): real {
    Mul(tState(i), m.w(WHead(m, Head(m, r)), i, j)) + Mul(state(i), d.w(WHead(m, Head(m, r)), i, j))
  }

  ghost function TMix(m: Rnn, d: Tangent, state: int -> real, tState: int -> real, r: int, j: int): real {
    Sum(m.vals, i => TMixTerm(m, d, state, tState, r, j, i))
  }

  ghost function TDrive(m: Rnn, d: Tangent, t: int, r: int, j: int): real {
    Mul(d.key(t, Slot(m, r)), m.value(t, VHead(m, Head(m, r)), j))
      + Mul(m.key(t, Slot(m, r)), d.value(t, VHead(m, Head(m, r)), j))
  }

  /** The product rule on decay * state + (1 - decay) * tanh. */
  function TBlend(decay: real, tDecay: real, state: real, tState: real, tanh: real, tTanh: real): real {
    (tDecay * state + decay * tState) + (-tDecay * tanh + (1.0 - decay) * tTanh)
  }

  function TTanhOf(tanh: real, tPre: real): real { (1.0 - tanh * tanh) * tPre }

  ghost function TState(m: Rnn, d: Tangent, t: int, r: int, j: int): real
    decreases t
  {
    if t <= 0 then d.h0(r, j)
    else
      TBlend(Decay(m, t - 1, Head(m, r)), TDecay(m, d, t - 1, Head(m, r)), State(m, t - 1, r, j),
             TState(m, d, t - 1, r, j),
             Tanh(m, t - 1, r, j),
             TTanhOf(Tanh(m, t - 1, r, j),
                     TMix(m, d, i => State(m, t - 1, r, i), i => TState(m, d, t - 1, r, i), r, j)
                       + TDrive(m, d, t - 1, r, j)))
  }

  ghost function TReadTerm(m: Rnn, d: Tangent, t: int, r: int, j: int): real {
    Mul(d.query(t, Slot(m, r)), State(m, t + 1, r, j)) + Mul(m.query(t, Slot(m, r)), TState(m, d, t + 1, r, j))
  }

  ghost function TRead(m: Rnn, d: Tangent, t: int, h: int, j: int): real {
    Sum(m.keys, k => TReadTerm(m, d, t, CellRow(m, h, k), j))
    + (Mul(d.value(t, VHead(m, h), j), m.skip(h, j)) + Mul(m.value(t, VHead(m, h), j), d.skip(h, j)))
  }

  // ---- the reverse sweep ----

  /** The cotangent of the state after row `t`: what later rows want, and what the row's readout wants. */
  function FullOf(m: Rnn, t: int, r: int, j: int, later: real): real {
    later + Mul(m.up(t, Head(m, r), j), m.query(t, Slot(m, r)))
  }

  function PreGradOf(full: real, decay: real, tanh: real): real { full * (1.0 - decay) * (1.0 - tanh * tanh) }

  /** The cotangent of the tanh's argument, given what later rows want of the state. */
  ghost function PreGradFrom(m: Rnn, t: int, r: int, j: int, later: real): real {
    PreGradOf(FullOf(m, t, r, j, later), Decay(m, t, Head(m, r)), Tanh(m, t, r, j))
  }

  /** The carried cotangent of the state after `t` rows. */
  ghost function StateGrad(m: Rnn, t: int, r: int, i: int): real
    decreases m.rows - t
  {
    if t >= m.rows then 0.0
    else
      Mul(FullOf(m, t, r, i, StateGrad(m, t + 1, r, i)), Decay(m, t, Head(m, r)))
      + Sum(m.vals, j => Mul(PreGradFrom(m, t, r, j, StateGrad(m, t + 1, r, j)), m.w(WHead(m, Head(m, r)), i, j)))
  }

  ghost function Full(m: Rnn, t: int, r: int, j: int): real { FullOf(m, t, r, j, StateGrad(m, t + 1, r, j)) }

  /** The cotangent of the tanh's argument. */
  ghost function PreGrad(m: Rnn, t: int, r: int, j: int): real { PreGradFrom(m, t, r, j, StateGrad(m, t + 1, r, j)) }

  lemma PreGradForm(m: Rnn, t: int, r: int, j: int)
    ensures PreGrad(m, t, r, j) == PreGradOf(Full(m, t, r, j), Decay(m, t, Head(m, r)), Tanh(m, t, r, j))
  {
    hide Decay, Tanh, FullOf, PreGradOf;
  }

  /** What the tanh's argument sends back to the state before the row. */
  ghost function MixBack(m: Rnn, t: int, r: int, i: int): real {
    Sum(m.vals, j => Mul(PreGrad(m, t, r, j), m.w(WHead(m, Head(m, r)), i, j)))
  }

  lemma StateGradStep(m: Rnn, t: int, r: int, i: int)
    requires t < m.rows
    ensures StateGrad(m, t, r, i) == Mul(Full(m, t, r, i), Decay(m, t, Head(m, r))) + MixBack(m, t, r, i)
  {
    hide Decay, Tanh, FullOf, PreGradFrom, Mul;
    var x := (j: int) => Mul(PreGradFrom(m, t, r, j, StateGrad(m, t + 1, r, j)), m.w(WHead(m, Head(m, r)), i, j));
    var y := (j: int) => Mul(PreGrad(m, t, r, j), m.w(WHead(m, Head(m, r)), i, j));
    forall j ensures x(j) == y(j) {
      assert PreGrad(m, t, r, j) == PreGradFrom(m, t, r, j, StateGrad(m, t + 1, r, j));
    }
    SumEq(m.vals, x, y);
  }

  // ---- what row t sends to each input and parameter ----

  ghost function QueryRow(m: Rnn, t: int, r: int): real {
    Sum(m.vals, j => Mul(m.up(t, Head(m, r), j), State(m, t + 1, r, j)))
  }

  ghost function QueryGrad(m: Rnn, t: int, s: int): real { Keyed(Cells(m), r => Slot(m, r), r => QueryRow(m, t, r), s) }

  ghost function KeyRow(m: Rnn, t: int, r: int): real {
    Sum(m.vals, j => Mul(PreGrad(m, t, r, j), m.value(t, VHead(m, Head(m, r)), j)))
  }

  ghost function KeyGrad(m: Rnn, t: int, s: int): real { Keyed(Cells(m), r => Slot(m, r), r => KeyRow(m, t, r), s) }

  ghost function SkipValueGrad(m: Rnn, t: int, s: int, j: int): real {
    Keyed(m.heads, h => VHead(m, h), h => Mul(m.up(t, h, j), m.skip(h, j)), s)
  }

  ghost function DriveValueGrad(m: Rnn, t: int, s: int, j: int): real {
    Keyed(Cells(m), r => VHead(m, Head(m, r)), r => Mul(PreGrad(m, t, r, j), m.key(t, Slot(m, r))), s)
  }

  ghost function ValueGrad(m: Rnn, t: int, s: int, j: int): real {
    SkipValueGrad(m, t, s, j) + DriveValueGrad(m, t, s, j)
  }

  ghost function WTerm(m: Rnn, s: int, i: int, j: int, t: int): real {
    Keyed(Cells(m), r => WHead(m, Head(m, r)), r => Mul(State(m, t, r, i), PreGrad(m, t, r, j)), s)
  }

  ghost function DecayRow(m: Rnn, t: int, r: int): real {
    Sum(m.vals, j => Mul(Full(m, t, r, j), State(m, t, r, j) - Tanh(m, t, r, j)))
  }

  ghost function DecayGrad(m: Rnn, t: int, h: int): real { Keyed(Cells(m), r => Head(m, r), r => DecayRow(m, t, r), h) }

  function RateOf(grad: real, decay: real, rate: real, step: real): real { grad * decay * (-rate * step) }
  function BiasOf(grad: real, decay: real, rate: real, slope: real): real { grad * decay * -rate * slope }

  ghost function RateTerm(m: Rnn, h: int, t: int): real {
    RateOf(DecayGrad(m, t, h), Decay(m, t, h), Rate(m, h), Step(m, t, h))
  }

  ghost function BiasTerm(m: Rnn, h: int, t: int): real {
    BiasOf(DecayGrad(m, t, h), Decay(m, t, h), Rate(m, h), Slope(m, t, h))
  }

  ghost function ForgetGrad(m: Rnn, t: int, s: int): real {
    Keyed(m.heads, h => FHead(m, h), h => BiasTerm(m, h, t), s)
  }

  ghost function SkipTerm(m: Rnn, h: int, j: int, t: int): real { Mul(m.up(t, h, j), m.value(t, VHead(m, h), j)) }

  // ---- the parameter gradients once rows `t` and later have been reversed ----

  ghost function WGrad(m: Rnn, t: int, s: int, i: int, j: int): real { SumFrom(t, m.rows, u => WTerm(m, s, i, j, u)) }
  ghost function RateGrad(m: Rnn, t: int, h: int): real { SumFrom(t, m.rows, u => RateTerm(m, h, u)) }
  ghost function BiasGrad(m: Rnn, t: int, h: int): real { SumFrom(t, m.rows, u => BiasTerm(m, h, u)) }
  ghost function SkipGrad(m: Rnn, t: int, h: int, j: int): real { SumFrom(t, m.rows, u => SkipTerm(m, h, j, u)) }
}
