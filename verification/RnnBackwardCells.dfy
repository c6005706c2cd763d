/** The reversal of the state update of one M2RNN row, cell by cell, in either of the two emitted forms. */
module RnnBackwardCells {
  import opened Sums
  import opened Functions
  import opened Buffers
  import opened Indices
  import opened RnnModel
  import opened RnnGradient
  import opened RnnProperties
  import opened RnnKernel

  /** The tanh of a cell, recovered from the two states or recomputed from the one before. */
  method TanhBack(m: Rnn, t: nat, x: RowIn, r: nat, j: nat, recover: bool, decay: real, prev: array2<real>,
                  next: array2<real>)
    returns (tanh: real)
    requires x.Reads(m, t) && r < Cells(m) && j < m.vals && Holds(m, t, prev) && Holds(m, t + 1, next)
    requires decay == Decay(m, t, Head(m, r)) && (recover ==> Contracting(m.fns))
    ensures tanh == Tanh(m, t, r, j)
  {
    hide State, Tanh, Decay, Head, Cells, RecoveredTanh, Contracting, RowIn.Reads;
    if recover {
      DecayRange(m, t, Head(m, r));
      RecoveryIsExact(m, t, r, j);
      tanh := RecoveredTanh(next[r, j], prev[r, j], decay);
    } else {
      tanh := TanhFrom(m, t, x, r, j, prev);
    }
  }

  // ---- what the cells before (r, j) have added ----

  ghost function MixTerm(m: Rnn, t: int, r: int, i: int, j: int): real {
    Mul(PreGrad(m, t, r, j), m.w(WHead(m, Head(m, r)), i, j))
  }

  ghost function CarryTerm(m: Rnn, t: int, r: int, i: int): real { Mul(Full(m, t, r, i), Decay(m, t, Head(m, r))) }

  ghost function WeightTerm(m: Rnn, t: int, r: int, i: int, j: int): real {
    Mul(State(m, t, r, i), PreGrad(m, t, r, j))
  }

  ghost function KeyTerm(m: Rnn, t: int, r: int, j: int): real {
    Mul(PreGrad(m, t, r, j), m.value(t, VHead(m, Head(m, r)), j))
  }

  ghost function ValueTerm(m: Rnn, t: int, r: int, j: int): real { Mul(PreGrad(m, t, r, j), m.key(t, Slot(m, r))) }

  ghost function DecayTerm(m: Rnn, t: int, r: int, j: int): real {
    Mul(Full(m, t, r, j), State(m, t, r, j) - Tanh(m, t, r, j))
  }

  /** The state cotangent of row `r` from its first `j` columns. */
  ghost function RowPart(m: Rnn, t: int, r: int, j: int, i: int): real {
    (if i < j then CarryTerm(m, t, r, i) else 0.0) + Sum(j, c => MixTerm(m, t, r, i, c))
  }

  ghost function PrevPart(m: Rnn, t: int, r: int, j: int, x: int, i: int): real {
    if x < r then StateGrad(m, t, x, i) else if x == r then RowPart(m, t, r, j, i) else 0.0
  }

  ghost function WPart(m: Rnn, t: int, r: int, j: int, s: int, i: int, c: int): real {
    Keyed(r, x => WHead(m, Head(m, x)), x => WeightTerm(m, t, x, i, c), s)
    + if s == WHead(m, Head(m, r)) && c < j then WeightTerm(m, t, r, i, c) else 0.0
  }

  ghost function KeyPart(m: Rnn, t: int, r: int, j: int, s: int): real {
    Keyed(r, x => Slot(m, x), x => KeyRow(m, t, x), s) + if s == Slot(m, r) then Sum(j, c => KeyTerm(m, t, r, c))
      else 0.0
  }

  ghost function ValuePart(m: Rnn, t: int, r: int, j: int, s: int, c: int): real {
    Keyed(r, x => VHead(m, Head(m, x)), x => ValueTerm(m, t, x, c), s)
    + if s == VHead(m, Head(m, r)) && c < j then ValueTerm(m, t, r, c) else 0.0
  }

  /** The buffers' contents before the cells are reversed. */
  datatype Before = Before(w: (int, int, int) -> real, value: (int, int) -> real)

  /** The buffers the cells' reversal adds to. */
  datatype CellBuffers = CellBuffers(prevGrad: array2<real>, w: array3<real>, key: array<real>, value: array2<real>) {
    ghost predicate Apart() { prevGrad != value }

    ghost function Repr(): set<object> { {prevGrad, w, key, value} }

    ghost predicate Fits(m: Rnn) {
      && prevGrad.Length0 == Cells(m) && prevGrad.Length1 == m.vals
      && w.Length0 == m.wHeads && w.Length1 == m.vals && w.Length2 == m.vals
      && key.Length == Slots(m) && value.Length0 == m.vHeads && value.Length1 == m.vals
    }

    /** All rows before `r`, and the first `j` columns of row `r`, have been added. */
    ghost predicate Done(m: Rnn, t: int, r: int, j: int, was: Before)
      reads prevGrad, w, key, value
    {
      && Fits(m)
      && (forall x, i :: 0 <= x < Cells(m) && 0 <= i < m.vals ==> prevGrad[x, i] == PrevPart(m, t, r, j, x, i))
      && (forall s, i, c :: 0 <= s < m.wHeads && 0 <= i < m.vals && 0 <= c < m.vals ==>
          w[s, i, c] == was.w(s, i, c) + WPart(m, t, r, j, s, i, c))
      && (forall s :: 0 <= s < Slots(m) ==> key[s] == KeyPart(m, t, r, j, s))
      && (forall s, c :: 0 <= s < m.vHeads && 0 <= c < m.vals ==>
          value[s, c] == was.value(s, c) + ValuePart(m, t, r, j, s, c))
    }
  }

  lemma ColumnStep(m: Rnn, t: int, r: int, j: nat)
    ensures forall x, i | 0 <= i ::
              PrevPart(m, t, r, j + 1, x, i)
              == PrevPart(m, t, r, j, x, i) + (if x == r && i == j then CarryTerm(m, t, r, i) else 0.0)
                 + if x == r then MixTerm(m, t, r, i, j) else 0.0
    ensures forall s, i, c | 0 <= c ::
              WPart(m, t, r, j + 1, s, i, c)
              == WPart(m, t, r, j, s, i, c) + if s == WHead(m, Head(m, r)) && c == j then WeightTerm(m, t, r, i, j)
                 else 0.0
    ensures forall s ::
              KeyPart(m, t, r, j + 1, s)
              == KeyPart(m, t, r, j, s) + if s == Slot(m, r) then KeyTerm(m, t, r, j) else 0.0
    ensures forall s, c | 0 <= c ::
              ValuePart(m, t, r, j + 1, s, c)
              == ValuePart(m, t, r, j, s, c) + if s == VHead(m, Head(m, r)) && c == j then ValueTerm(m, t, r, j)
                 else 0.0
  {
    hide StateGrad, CarryTerm, MixTerm, WeightTerm, KeyTerm, ValueTerm, KeyRow, Keyed, WHead, VHead, Head, Slot;
  }

  /** The recurrent weights' share of one cell: the state cotangent of the whole row, and a weight column. */
  method SpreadMix(m: Rnn, t: nat, r: nat, j: nat, pre: real, prev: array2<real>, prevGrad: array2<real>,
                   w: array3<real>)
    requires r < Cells(m) && j < m.vals && pre == PreGrad(m, t, r, j) && Holds(m, t, prev)
    requires prevGrad.Length0 == Cells(m) && prevGrad.Length1 == m.vals && prevGrad != prev
    requires w.Length0 == m.wHeads && w.Length1 == m.vals && w.Length2 == m.vals
    modifies prevGrad, w
    ensures forall x, i :: 0 <= x < Cells(m) && 0 <= i < m.vals ==>
              prevGrad[x, i] == old(prevGrad[x, i]) + if x == r then MixTerm(m, t, r, i, j) else 0.0
    ensures forall s, i, c :: 0 <= s < m.wHeads && 0 <= i < m.vals && 0 <= c < m.vals ==>
              w[s, i, c] == old(w[s, i, c])
                            + if s == WHead(m, Head(m, r)) && c == j then WeightTerm(m, t, r, i, j) else 0.0
  {
    hide PreGrad, State, Mul, Cells, Head, WHead;
    var s := WHead(m, Head(m, r));
    for i := 0 to m.vals
      invariant Holds(m, t, prev)
      invariant forall x, y :: 0 <= x < Cells(m) && 0 <= y < m.vals ==>
                  prevGrad[x, y] == old(prevGrad[x, y]) + if x == r && y < i then MixTerm(m, t, r, y, j) else 0.0
      invariant forall z, y, c :: 0 <= z < m.wHeads && 0 <= y < m.vals && 0 <= c < m.vals ==>
                  w[z, y, c] == old(w[z, y, c]) + if z == s && y < i && c == j then WeightTerm(m, t, r, y, j) else 0.0
    {
      AddCell(prevGrad, r, i, Mul(pre, m.w(s, i, j)));
      AddCube(w, s, i, j, Mul(prev[r, i], pre));
    }
  }

  method AddCube(a: array3<real>, x: nat, y: nat, z: nat, v: real)
    requires x < a.Length0 && y < a.Length1 && z < a.Length2
    modifies a
    ensures forall i, j, k :: 0 <= i < a.Length0 && 0 <= j < a.Length1 && 0 <= k < a.Length2 ==>
              a[i, j, k] == old(a[i, j, k]) + if i == x && j == y && k == z then v else 0.0
  {
    a[x, y, z] := a[x, y, z] + v;
  }

  /** Cell (r, j), reversed. */
  method CellBack(m: Rnn, t: nat, x: RowIn, r: nat, j: nat, recover: bool, decay: real, prev: array2<real>,
                  next: array2<real>,
                  full: real, to: CellBuffers)
    returns (decayTerm: real)
    requires x.Reads(m, t) && r < Cells(m) && j < m.vals && Holds(m, t, prev) && Holds(m, t + 1, next)
    requires recover ==> Contracting(m.fns)
    requires decay == Decay(m, t, Head(m, r)) && full == Full(m, t, r, j)
    requires to.Fits(m) && to.Apart() && {to.prevGrad, to.value} !! {prev, next}
    modifies to.prevGrad, to.w, to.key, to.value
    ensures decayTerm == DecayTerm(m, t, r, j)
    ensures forall q, i :: 0 <= q < Cells(m) && 0 <= i < m.vals ==>
              to.prevGrad[q, i] == old(to.prevGrad[q, i]) + (if q == r && i == j then CarryTerm(m, t, r, i) else 0.0)
                                   + if q == r then MixTerm(m, t, r, i, j) else 0.0
    ensures forall s, i, c :: 0 <= s < m.wHeads && 0 <= i < m.vals && 0 <= c < m.vals ==>
              to.w[s, i, c] == old(to.w[s, i, c])
                + if s == WHead(m, Head(m, r)) && c == j then WeightTerm(m, t, r, i, j) else 0.0
    ensures forall s :: 0 <= s < Slots(m) ==>
            to.key[s] == old(to.key[s]) + if s == Slot(m, r) then KeyTerm(m, t, r, j) else 0.0
    ensures forall s, c :: 0 <= s < m.vHeads && 0 <= c < m.vals ==>
              to.value[s, c] == old(to.value[s, c])
                                + if s == VHead(m, Head(m, r)) && c == j then ValueTerm(m, t, r, j) else 0.0
  {
    hide State, Tanh, Decay, Full, PreGrad, PreGradOf, Mul, Cells, Slots, Head, VHead, WHead, Slot, MixTerm, WeightTerm,
         Contracting, Holds, RowIn.Reads;
    var tanh := TanhBack(m, t, x, r, j, recover, decay, prev, next);
    PreGradForm(m, t, r, j);
    var pre := PreGradOf(full, decay, tanh);
    decayTerm := DecayTermFrom(m, t, r, j, full, tanh, prev);
    AddCell(to.prevGrad, r, j, Mul(full, decay));
    SpreadMix(m, t, r, j, pre, prev, to.prevGrad, to.w);
    AddEntry(to.key, Slot(m, r), Mul(pre, x.Value(m, t, VHead(m, Head(m, r)), j)));
    AddCell(to.value, VHead(m, Head(m, r)), j, Mul(pre, x.Key(m, t, Slot(m, r))));
  }

  method DecayTermFrom(m: Rnn, t: nat, r: nat, j: nat, full: real, tanh: real, prev: array2<real>) returns (term: real)
    requires r < Cells(m) && j < m.vals && Holds(m, t, prev) && full == Full(m, t, r, j) && tanh == Tanh(m, t, r, j)
    ensures term == DecayTerm(m, t, r, j)
  {
    hide State, Tanh, Full, Mul, Cells;
    term := Mul(full, prev[r, j] - tanh);
  }

  // ---- rows and heads ----

  lemma RowStep(m: Rnn, t: int, r: nat)
    requires t < m.rows
    ensures forall x, i | 0 <= i < m.vals :: PrevPart(m, t, r + 1, 0, x, i) == PrevPart(m, t, r, m.vals, x, i)
    ensures forall s, i, c | 0 <= c < m.vals :: WPart(m, t, r + 1, 0, s, i, c) == WPart(m, t, r, m.vals, s, i, c)
    ensures forall s :: KeyPart(m, t, r + 1, 0, s) == KeyPart(m, t, r, m.vals, s)
    ensures forall s, c | 0 <= c < m.vals :: ValuePart(m, t, r + 1, 0, s, c) == ValuePart(m, t, r, m.vals, s, c)
  {
    hide StateGrad, CarryTerm, WeightTerm, ValueTerm, WHead, VHead, Head, Slot, KeyRow, KeyTerm, MixTerm;
    StateRows(m, t, r);
    KeyRowForm(m, t, r);
  }

  lemma StateRows(m: Rnn, t: int, r: int)
    requires t < m.rows
    ensures forall i | i < m.vals :: StateGrad(m, t, r, i) == RowPart(m, t, r, m.vals, i)
  {
    hide Sum, StateGrad, PreGrad, Full, Mul, Decay, WHead, Head;
    forall i | i < m.vals ensures StateGrad(m, t, r, i) == RowPart(m, t, r, m.vals, i) {
      StateGradStep(m, t, r, i);
      SumEq(m.vals, j => Mul(PreGrad(m, t, r, j), m.w(WHead(m, Head(m, r)), i, j)), c => MixTerm(m, t, r, i, c));
    }
  }

  lemma KeyRowForm(m: Rnn, t: int, r: int)
    ensures KeyRow(m, t, r) == Sum(m.vals, c => KeyTerm(m, t, r, c))
  {
    hide Sum, PreGrad, Mul, VHead, Head;
    SumEq(m.vals, j => Mul(PreGrad(m, t, r, j), m.value(t, VHead(m, Head(m, r)), j)), c => KeyTerm(m, t, r, c));
  }

  /** State row `r`, reversed, column by column. */
  method RowBack(m: Rnn, t: nat, x: RowIn, r: nat, recover: bool, decay: real, prev: array2<real>, next: array2<real>,
                 stateGrad: array2<real>, to: CellBuffers, ghost was: Before)
    returns (decayRow: real)
    requires x.Reads(m, t) && t < m.rows && r < Cells(m) && Holds(m, t, prev) && Holds(m, t + 1, next)
    requires recover ==> Contracting(m.fns)
    requires decay == Decay(m, t, Head(m, r)) && Matrix(stateGrad, Cells(m), m.vals, (r, j) => Full(m, t, r, j))
    requires to.Apart() && {to.prevGrad, to.value} !! {prev, next, stateGrad} && to.Done(m, t, r, 0, was)
    modifies to.prevGrad, to.w, to.key, to.value
    ensures decayRow == DecayRow(m, t, r) && to.Done(m, t, r + 1, 0, was)
  {
    hide State, Decay, Full, Cells, Head, Contracting, Holds, RowIn.Reads, CellBuffers.Done, DecayTerm;
    decayRow := 0.0;
    for j := 0 to m.vals
      invariant to.Done(m, t, r, j, was) && Holds(m, t, prev) && Holds(m, t + 1, next)
      invariant decayRow == Sum(j, c => DecayTerm(m, t, r, c))
    {
      var term := ColumnBack(m, t, x, r, j, recover, decay, prev, next, stateGrad[r, j], to, was);
      decayRow := decayRow + term;
    }
    RowDone(m, t, r, to, was);
    DecayRowForm(m, t, r);
  }

  method ColumnBack(m: Rnn, t: nat, x: RowIn, r: nat, j: nat, recover: bool, decay: real, prev: array2<real>,
                    next: array2<real>, full: real, to: CellBuffers, ghost was: Before)
    returns (decayTerm: real)
    requires x.Reads(m, t) && r < Cells(m) && j < m.vals && Holds(m, t, prev) && Holds(m, t + 1, next)
    requires recover ==> Contracting(m.fns)
    requires decay == Decay(m, t, Head(m, r)) && full == Full(m, t, r, j)
    requires to.Apart() && {to.prevGrad, to.value} !! {prev, next} && to.Done(m, t, r, j, was)
    modifies to.prevGrad, to.w, to.key, to.value
    ensures decayTerm == DecayTerm(m, t, r, j) && to.Done(m, t, r, j + 1, was)
  {
    hide State, Decay, Full, Cells, Slots, Head, VHead, WHead, Slot, Contracting, Holds, RowIn.Reads, PrevPart, WPart,
         KeyPart, ValuePart, DecayTerm, CarryTerm, MixTerm, WeightTerm, KeyTerm, ValueTerm;
    ColumnStep(m, t, r, j);
    decayTerm := CellBack(m, t, x, r, j, recover, decay, prev, next, full, to);
  }

  lemma RowDone(m: Rnn, t: int, r: nat, to: CellBuffers, was: Before)
    requires t < m.rows && to.Done(m, t, r, m.vals, was)
    ensures to.Done(m, t, r + 1, 0, was)
  {
    hide Cells, Slots, PrevPart, WPart, KeyPart, ValuePart;
    RowStep(m, t, r);
  }

  lemma DecayRowForm(m: Rnn, t: int, r: int)
    ensures DecayRow(m, t, r) == Sum(m.vals, c => DecayTerm(m, t, r, c))
  {
    hide Sum, Full, State, Tanh, Mul;
    SumEq(m.vals, j => Mul(Full(m, t, r, j), State(m, t, r, j) - Tanh(m, t, r, j)), c => DecayTerm(m, t, r, c));
  }

  /** Key `k` of head `h`, reversed. */
  method KeyBack(m: Rnn, t: nat, x: RowIn, h: nat, k: nat, recover: bool, decay: real, prev: array2<real>,
                 next: array2<real>, stateGrad: array2<real>, to: CellBuffers, ghost was: Before)
    returns (decayRow: real)
    requires x.Reads(m, t) && t < m.rows && h < m.heads && k < m.keys && Holds(m, t, prev) && Holds(m, t + 1, next)
    requires recover ==> Contracting(m.fns)
    requires decay == Decay(m, t, h) && Matrix(stateGrad, Cells(m), m.vals, (r, j) => Full(m, t, r, j))
    requires to.Apart() && {to.prevGrad, to.value} !! {prev, next, stateGrad} && to.Done(m, t, h * m.keys + k, 0, was)
    modifies to.prevGrad, to.w, to.key, to.value
    ensures decayRow == DecayRow(m, t, CellRow(m, h, k)) && to.Done(m, t, h * m.keys + (k + 1), 0, was)
  {
    hide Decay, Full, Contracting, Holds, RowIn.Reads, CellBuffers.Done, DecayRow, Matrix, Head, CellRow;
    CellOfHead(m, h, k);
    decayRow := RowBack(m, t, x, h * m.keys + k, recover, decay, prev, next, stateGrad, to, was);
  }

  /** All keys of head `h`, reversed; returns the head's decay gradient. */
  method HeadCells(m: Rnn, t: nat, x: RowIn, h: nat, recover: bool, prev: array2<real>, next: array2<real>,
                   stateGrad: array2<real>, to: CellBuffers, ghost was: Before)
    returns (decayGrad: real)
    requires x.Reads(m, t) && t < m.rows && h < m.heads && Holds(m, t, prev) && Holds(m, t + 1, next)
    requires recover ==> Contracting(m.fns)
    requires Matrix(stateGrad, Cells(m), m.vals, (r, j) => Full(m, t, r, j))
    requires to.Apart() && {to.prevGrad, to.value} !! {prev, next, stateGrad} && to.Done(m, t, h * m.keys, 0, was)
    modifies to.prevGrad, to.w, to.key, to.value
    ensures decayGrad == DecayGrad(m, t, h) && to.Done(m, t, (h + 1) * m.keys, 0, was)
  {
    hide Decay, Full, Contracting, Holds, RowIn.Reads, RowIn.Decay, CellBuffers.Done, DecayRow, DecayGrad, Matrix, Head,
         CellRow;
    var decay := x.Decay(m, t, h);
    decayGrad := 0.0;
    for k := 0 to m.keys
      invariant to.Done(m, t, h * m.keys + k, 0, was) && Holds(m, t, prev) && Holds(m, t + 1, next)
      invariant Matrix(stateGrad, Cells(m), m.vals, (r, j) => Full(m, t, r, j))
      invariant decayGrad == Sum(k, i => DecayRow(m, t, CellRow(m, h, i)))
    {
      var term := KeyBack(m, t, x, h, k, recover, decay, prev, next, stateGrad, to, was);
      decayGrad := decayGrad + term;
    }
    assert h * m.keys + m.keys == (h + 1) * m.keys;
    DecayGradForm(m, t, h);
  }

  lemma CellOfHead(m: Rnn, h: nat, k: nat)
    requires h < m.heads && k < m.keys
    ensures CellRow(m, h, k) == h * m.keys + k && 0 <= h * m.keys + k < Cells(m) && Head(m, h * m.keys + k) == h
  {
    FlatRange(h, m.heads, k, m.keys);
    DivMod(h, k, m.keys);
  }

  /** The decay gradient of a head gathers exactly the head's own rows. */
  lemma DecayGradForm(m: Rnn, t: int, h: int)
    requires 0 <= h < m.heads
    ensures DecayGrad(m, t, h) == Sum(m.keys, k => DecayRow(m, t, CellRow(m, h, k)))
  {
    hide Sum, DecayRow, Head, CellRow;
    var key, w := (r: int) => Head(m, r), (r: int) => DecayRow(m, t, r);
    var f := (i: int) => if key(i) == h then w(i) else 0.0;
    assert DecayGrad(m, t, h) == Keyed(Cells(m), key, w, h);
    SumFlatten(m.heads, m.keys, f);
    var heads := (x: int) => Sum(m.keys, k => f(x * m.keys + k));
    var own := (k: int) => DecayRow(m, t, CellRow(m, h, k));
    forall x | 0 <= x < m.heads ensures heads(x) == if x == h then Sum(m.keys, own) else 0.0 {
      HeadShare(m, t, h, x, k => f(x * m.keys + k));
    }
    SumDelta(m.heads, h, heads);
  }

  lemma HeadShare(m: Rnn, t: int, h: int, x: int, cells: int -> real)
    requires 0 <= x < m.heads
    requires forall k {:trigger cells(k)} ::
             cells(k) == if Head(m, x * m.keys + k) == h then DecayRow(m, t, x * m.keys + k) else 0.0
    ensures Sum(m.keys, cells) == if x == h then Sum(m.keys, k => DecayRow(m, t, CellRow(m, h, k))) else 0.0
  {
    hide Sum, DecayRow, Head, CellRow;
    if x == h {
      var own := (k: int) => DecayRow(m, t, CellRow(m, h, k));
      forall k | 0 <= k < m.keys ensures cells(k) == own(k) {
        CellOfHead(m, x, k);
      }
      SumEq(m.keys, cells, own);
    } else {
      forall k | 0 <= k < m.keys ensures cells(k) == 0.0 {
        CellOfHead(m, x, k);
      }
      SumZero(m.keys, cells);
    }
  }
}
