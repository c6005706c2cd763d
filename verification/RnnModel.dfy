/** The M2RNN recurrence: a matrix-valued state per head, decayed and driven by a gated tanh, read out by a
    query.  Its inputs are arbitrary sequences of queries, keys, values and forget projections. */
module RnnModel {
  import opened Sums
  import opened Functions
  import opened Indices

  /** Heads share queries, keys, values, forget projections and recurrent weights: head `h` uses those
      numbered `h / share`.  The state is stored by rows, row `r` being key `r % keys` of head `r / keys`. */
  datatype Raw = Raw(
    rows: nat, heads: nat, keys: nat, vals: nat,
    qkHeads: nat, qkShare: nat, vHeads: nat, vShare: nat, fHeads: nat, fShare: nat, wHeads: nat, wShare: nat,
    fns: Fns,
    query: (int, int) -> real, key: (int, int) -> real, value: (int, int, int) -> real, forget: (int, int) -> real,
    w: (int, int, int) -> real, logRate: int -> real, bias: int -> real, skip: (int, int) -> real,
    h0: (int, int) -> real,
    up: (int, int, int) -> real)

  /** `own` groups of `share` heads. */
  ghost predicate Shared(heads: nat, own: nat, share: nat) { 0 < share && heads == own * share }

  ghost predicate Valid(m: Raw) {
    && 0 < m.keys && Shared(m.heads, m.qkHeads, m.qkShare) && Shared(m.heads, m.vHeads, m.vShare)
    && Shared(m.heads, m.fHeads, m.fShare) && Shared(m.heads, m.wHeads, m.wShare)
  }

  type Rnn = m: Raw | Valid(m)
    ghost witness Raw(0, 0, 1, 0, 0, 1, 0, 1, 0, 1, 0, 1, NOFNS, (t, i) => 0.0, (t, i) => 0.0, (t, i, j) => 0.0,
                      (t, i) => 0.0,
                      (i, j, k) => 0.0, i => 0.0, i => 0.0, (i, j) => 0.0, (i, j) => 0.0, (t, i, j) => 0.0)

  // ---- index layout ----

  function Cells(m: Rnn): nat { m.heads * m.keys }
  function Slots(m: Rnn): nat { m.qkHeads * m.keys }

  function Head(m: Rnn, r: int): (h: int)
    ensures 0 <= r < Cells(m) ==> 0 <= h < m.heads
  {
    DivRange(r, m.heads, m.keys);
    r / m.keys
  }

  function VHead(m: Rnn, h: int): (s: int)
    ensures 0 <= h < m.heads ==> 0 <= s < m.vHeads
  {
    DivRange(h, m.vHeads, m.vShare);
    h / m.vShare
  }

  function FHead(m: Rnn, h: int): (s: int)
    ensures 0 <= h < m.heads ==> 0 <= s < m.fHeads
  {
    DivRange(h, m.fHeads, m.fShare);
    h / m.fShare
  }

  function WHead(m: Rnn, h: int): (s: int)
    ensures 0 <= h < m.heads ==> 0 <= s < m.wHeads
  {
    DivRange(h, m.wHeads, m.wShare);
    h / m.wShare
  }

  /** The query and key slot of state row `r`. */
  function Slot(m: Rnn, r: int): (s: int)
    ensures 0 <= r < Cells(m) ==> 0 <= s < Slots(m)
  {
    DivRange(Head(m, r), m.qkHeads, m.qkShare);
    FlatRange(Head(m, r) / m.qkShare, m.qkHeads, r % m.keys, m.keys);
    Head(m, r) / m.qkShare * m.keys + r % m.keys
  }

  // ---- the recurrence ----

  function Step(m: Rnn, t: int, h: int): real {
    Softplus(m.fns, m.forget(t, FHead(m, h)) + m.bias(h))
  }

  /** The decay of head `h` at row `t`: exp(-exp(logRate) * softplus). */
  function Decay(m: Rnn, t: int, h: int): real {
    DecayOf(m.fns, m.fns.exp(m.logRate(h)), Step(m, t, h))
  }

  function DecayOf(k: Fns, rate: real, step: real): real { k.exp(-rate * step) }

  /** A state row times one column of the recurrent weights. */
  function Mix(m: Rnn, state: int -> real, r: int, j: int): real {
    Sum(m.vals, i => Mul(state(i), m.w(WHead(m, Head(m, r)), i, j)))
  }

  function Drive(m: Rnn, t: int, r: int, j: int): real {
    Mul(m.key(t, Slot(m, r)), m.value(t, VHead(m, Head(m, r)), j))
  }

  function Blend(decay: real, state: real, tanh: real): real { decay * state + (1.0 - decay) * tanh }

  /** The state after `t` rows. */
  function State(m: Rnn, t: int, r: int, j: int): real
    decreases t
  {
    if t <= 0 then m.h0(r, j)
    else
      Blend(Decay(m, t - 1, Head(m, r)), State(m, t - 1, r, j),
            m.fns.tanh(Mix(m, i => State(m, t - 1, r, i), r, j) + Drive(m, t - 1, r, j)))
  }

  /** The tanh of row `t`, as the forward step computes it. */
  function Tanh(m: Rnn, t: int, r: int, j: int): real {
    m.fns.tanh(Mix(m, i => State(m, t, r, i), r, j) + Drive(m, t, r, j))
  }

  /** The readout of head `h`: its query against its state, and the value's skip connection. */
  function Read(m: Rnn, t: int, h: int, j: int): real {
    Sum(m.keys, k => Mul(m.query(t, Slot(m, CellRow(m, h, k))), State(m, t + 1, CellRow(m, h, k), j)))
    + Mul(m.value(t, VHead(m, h), j), m.skip(h, j))
  }

  function CellRow(m: Rnn, h: int, k: int): (r: int)
    ensures 0 <= h < m.heads && 0 <= k < m.keys ==> 0 <= r < Cells(m)
  {
    FlatRange(h, m.heads, k, m.keys);
    h * m.keys + k
  }
}
