/** The M2RNN's forward step on arrays, from the buffers that hold the row's projections and convolution. */
module RnnKernel {
  import opened Sums
  import opened Functions
  import opened Indices
  import opened Buffers
  import opened RnnModel
  import opened RnnGradient
  import opened RnnProperties

  // ---- the row's buffers ----

  /** What the kernels read of one row: the convolution's channels, cut into queries, keys and values, and the forget
      projections.  Value `j` of value head `s` is entry `s * vals + j`. */
  datatype RowIn = RowIn(query: seq<real>, key: seq<real>, value: seq<real>, forget: seq<real>) {
    ghost predicate Reads(m: Rnn, t: int) {
      && |query| == Slots(m) && (forall s :: 0 <= s < Slots(m) ==> query[s] == m.query(t, s))
      && |key| == Slots(m) && (forall s :: 0 <= s < Slots(m) ==> key[s] == m.key(t, s))
      && |forget| == m.fHeads && (forall s :: 0 <= s < m.fHeads ==> forget[s] == m.forget(t, s))
      && |value| == m.vHeads * m.vals
      && forall s, j :: 0 <= s < m.vHeads && 0 <= j < m.vals ==> value[ValueSlot(m, s, j)] == m.value(t, s, j)
    }

    function Value(m: Rnn, ghost t: int, s: int, j: int): (v: real)
      requires Reads(m, t) && 0 <= s < m.vHeads && 0 <= j < m.vals
      ensures v == m.value(t, s, j)
    {
      value[ValueSlot(m, s, j)]
    }

    function Key(m: Rnn, ghost t: int, s: int): (v: real)
      requires Reads(m, t) && 0 <= s < Slots(m)
      ensures v == m.key(t, s)
    {
      key[s]
    }

    function Query(m: Rnn, ghost t: int, s: int): (v: real)
      requires Reads(m, t) && 0 <= s < Slots(m)
      ensures v == m.query(t, s)
    {
      query[s]
    }

    function Drive(m: Rnn, ghost t: int, r: int, j: int): (v: real)
      requires Reads(m, t) && 0 <= r < Cells(m) && 0 <= j < m.vals
      ensures v == RnnModel.Drive(m, t, r, j)
    {
      Mul(Key(m, t, Slot(m, r)), Value(m, t, VHead(m, Head(m, r)), j))
    }

    function Step(m: Rnn, ghost t: int, h: int): (v: real)
      requires Reads(m, t) && 0 <= h < m.heads
      ensures v == RnnModel.Step(m, t, h)
    {
      hide Softplus;
      Softplus(m.fns, forget[FHead(m, h)] + m.bias(h))
    }

    function Decay(m: Rnn, ghost t: int, h: int): (v: real)
      requires Reads(m, t) && 0 <= h < m.heads
      ensures v == RnnModel.Decay(m, t, h)
    {
      DecayOf(m.fns, m.fns.exp(m.logRate(h)), Step(m, t, h))
    }

    function Slope(m: Rnn, ghost t: int, h: int): (v: real)
      requires Reads(m, t) && 0 <= h < m.heads
      ensures v == RnnGradient.Slope(m, t, h)
    {
      hide Sigmoid;
      Sigmoid(m.fns, forget[FHead(m, h)] + m.bias(h))
    }
  }

  function ValueSlot(m: Rnn, s: int, j: int): (i: int)
    ensures 0 <= s < m.vHeads && 0 <= j < m.vals ==> 0 <= i < m.vHeads * m.vals
  {
    FlatRange(s, m.vHeads, j, m.vals);
    s * m.vals + j
  }

  // ---- forward ----

  /** The state before row `t`. */
  ghost predicate Holds(m: Rnn, t: int, state: array2<real>)
    reads state
  {
    Matrix(state, Cells(m), m.vals, (r, i) => State(m, t, r, i))
  }

  /** A state row times a column of the recurrent weights. */
  method MixFrom(m: Rnn, t: nat, r: nat, j: nat, prev: array2<real>) returns (accum: real)
    requires r < Cells(m) && j < m.vals && Holds(m, t, prev)
    ensures accum == Sum(m.vals, x => Mul(State(m, t, r, x), m.w(WHead(m, Head(m, r)), x, j)))
  {
    hide State, Mul, Head, WHead, Cells;
    accum := 0.0;
    for i := 0 to m.vals
      invariant accum == Sum(i, x => Mul(State(m, t, r, x), m.w(WHead(m, Head(m, r)), x, j)))
    {
      accum := accum + Mul(prev[r, i], m.w(WHead(m, Head(m, r)), i, j));
    }
  }

  /** The tanh of one cell, from the state before the row. */
  method TanhFrom(m: Rnn, t: nat, x: RowIn, r: nat, j: nat, prev: array2<real>) returns (tanh: real)
    requires x.Reads(m, t) && r < Cells(m) && j < m.vals && Holds(m, t, prev)
    ensures tanh == Tanh(m, t, r, j)
  {
    hide *;
    var accum := MixFrom(m, t, r, j, prev);
    TanhForm(m, t, r, j);
    tanh := m.fns.tanh(accum + x.Drive(m, t, r, j));
  }

  lemma TanhForm(m: Rnn, t: int, r: int, j: int)
    ensures Tanh(m, t, r, j) == m.fns.tanh(Sum(m.vals, x => Mul(State(m, t, r, x), m.w(WHead(m, Head(m, r)), x, j)))
                                           + Drive(m, t, r, j))
  {
    hide Sum, State, Mul, Mix, Drive, Head, WHead;
    MixForm(m, t, r, j);
  }

  lemma MixForm(m: Rnn, t: int, r: int, j: int)
    ensures Mix(m, i => State(m, t, r, i), r, j)
            == Sum(m.vals, x => Mul(State(m, t, r, x), m.w(WHead(m, Head(m, r)), x, j)))
  {
    hide Sum, State, Mul;
    var s := (i: int) => State(m, t, r, i);
    SumEq(m.vals, i => Mul(s(i), m.w(WHead(m, Head(m, r)), i, j)),
          x => Mul(State(m, t, r, x), m.w(WHead(m, Head(m, r)), x, j)));
  }

  /** One row: every cell of `next` from `prev`. */
  method Advance(m: Rnn, t: nat, x: RowIn, prev: array2<real>, next: array2<real>)
    requires Holds(m, t, prev) && next.Length0 == Cells(m) && next.Length1 == m.vals
    requires prev != next && x.Reads(m, t)
    modifies next
    ensures Holds(m, t + 1, next)
  {
    hide State, Tanh, Decay, Head, Blend, Cells, RowIn.Reads, RowIn.Decay;
    for r := 0 to Cells(m)
      invariant forall q, j :: 0 <= q < r && 0 <= j < m.vals ==> next[q, j] == State(m, t + 1, q, j)
    {
      var decay := x.Decay(m, t, Head(m, r));
      for j := 0 to m.vals
        invariant forall q, y :: 0 <= q <= r && 0 <= y < m.vals && (q < r || y < j) ==>
                  next[q, y] == State(m, t + 1, q, y)
      {
        var tanh := TanhFrom(m, t, x, r, j, prev);
        NextState(m, t, r, j);
        next[r, j] := Blend(decay, prev[r, j], tanh);
      }
    }
  }

  method Load(m: Rnn, to: array2<real>)
    requires to.Length0 == Cells(m) && to.Length1 == m.vals
    modifies to
    ensures Holds(m, 0, to)
  {
    for r := 0 to Cells(m)
      invariant forall x, j :: 0 <= x < r && 0 <= j < m.vals ==> to[x, j] == m.h0(x, j)
    {
      for j := 0 to m.vals
        invariant forall x, y :: 0 <= x <= r && 0 <= y < m.vals && (x < r || y < j) ==> to[x, y] == m.h0(x, y)
      {
        to[r, j] := m.h0(r, j);
      }
    }
  }

  /** Readout entry (h, j): the query against the state after the row, and the value's skip connection. */
  method ReadCell(m: Rnn, t: nat, x: RowIn, h: nat, j: nat, next: array2<real>) returns (value: real)
    requires x.Reads(m, t) && h < m.heads && j < m.vals && Holds(m, t + 1, next)
    ensures value == Read(m, t, h, j)
  {
    hide State, Mul, Slot, VHead, CellRow, Cells, RowIn.Reads;
    value := 0.0;
    for k := 0 to m.keys
      invariant value == Sum(k, i => Mul(m.query(t, Slot(m, CellRow(m, h, i))), State(m, t + 1, CellRow(m, h, i), j)))
    {
      value := value + Mul(x.Query(m, t, Slot(m, CellRow(m, h, k))), next[CellRow(m, h, k), j]);
    }
    value := value + Mul(x.Value(m, t, VHead(m, h), j), m.skip(h, j));
  }
}
