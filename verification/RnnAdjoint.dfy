/** The M2RNN's reverse sweep over all rows is the exact adjoint of its linearised forward pass. */
module RnnAdjoint {
  import opened Sums
  import opened Stages
  import opened Indices
  import opened RnnModel
  import opened RnnGradient
  import opened RnnRowAdjoint

  // ---- readout ----

  /** The upstream gradient paired with the tangent of row `t`'s readout. */
  ghost function ReadPair(m: Rnn, d: Tangent, t: int): real {
    Pair2(m.heads, m.vals, (h, j) => m.up(t, h, j), (h, j) => TRead(m, d, t, h, j))
  }

  ghost function ReadCell(m: Rnn, d: Tangent, t: int, r: int, j: int): real {
    Mul(m.up(t, Head(m, r), j), TReadTerm(m, d, t, r, j))
  }

  ghost function QueryCell(m: Rnn, t: int, r: int, j: int): real { Mul(m.up(t, Head(m, r), j), State(m, t + 1, r, j)) }

  ghost function ViaQuery(m: Rnn, d: Tangent, t: int, r: int, j: int): real {
    QueryCell(m, t, r, j) * d.query(t, Slot(m, r))
  }

  ghost function UpCell(m: Rnn, t: int, r: int, j: int): real { Mul(m.up(t, Head(m, r), j), m.query(t, Slot(m, r))) }

  ghost function ViaUp(m: Rnn, d: Tangent, t: int, r: int, j: int): real {
    Mul(UpCell(m, t, r, j), TState(m, d, t + 1, r, j))
  }

  ghost function SkipCell(m: Rnn, d: Tangent, t: int, h: int, j: int): real {
    Mul(m.up(t, h, j), Mul(d.value(t, VHead(m, h), j), m.skip(h, j)) + Mul(m.value(t, VHead(m, h), j), d.skip(h, j)))
  }

  ghost function ViaSkipValue(m: Rnn, d: Tangent, t: int, h: int, j: int): real {
    Mul(m.up(t, h, j), m.skip(h, j)) * d.value(t, VHead(m, h), j)
  }

  ghost function ViaSkip(m: Rnn, d: Tangent, t: int, h: int, j: int): real { Mul(SkipTerm(m, h, j, t), d.skip(h, j)) }

  /** Column `j` of the readouts: heads and keys are the state rows. */
  lemma ReadColumn(m: Rnn, d: Tangent, t: int, j: int)
    ensures Sum(m.heads, h => Mul(m.up(t, h, j), Sum(m.keys, k => TReadTerm(m, d, t, CellRow(m, h, k), j))))
         == Sum(Cells(m), r => ReadCell(m, d, t, r, j))
  {
    hide Sum, TReadTerm;
    var f := (r: int) => ReadCell(m, d, t, r, j);
    SumFlatten(m.heads, m.keys, f);
    var heads := (h: int) => Mul(m.up(t, h, j), Sum(m.keys, k => TReadTerm(m, d, t, CellRow(m, h, k), j)));
    var flat := (h: int) => Sum(m.keys, k => f(h * m.keys + k));
    forall h ensures heads(h) == flat(h) {
      ReadHead(m, d, t, h, j, k => f(h * m.keys + k));
    }
    SumEq(m.heads, heads, flat);
  }

  lemma ReadHead(m: Rnn, d: Tangent, t: int, h: int, j: int, cells: int -> real)
    requires forall k {:trigger cells(k)} :: cells(k) == ReadCell(m, d, t, h * m.keys + k, j)
    ensures Mul(m.up(t, h, j), Sum(m.keys, k => TReadTerm(m, d, t, CellRow(m, h, k), j))) == Sum(m.keys, cells)
  {
    hide Sum, TReadTerm;
    forall k | 0 <= k < m.keys ensures cells(k) == Mul(m.up(t, h, j), TReadTerm(m, d, t, CellRow(m, h, k), j)) {
      DivMod(h, k, m.keys);
    }
    SumScaleMul(m.keys, cells, m.up(t, h, j), k => TReadTerm(m, d, t, CellRow(m, h, k), j));
  }

  lemma ReadSplit(m: Rnn, d: Tangent, t: int)
    ensures ReadPair(m, d, t)
         == Sum2(Cells(m), m.vals, (r, j) => ReadCell(m, d, t, r, j))
            + Sum2(m.heads, m.vals, (h, j) => SkipCell(m, d, t, h, j))
  {
    hide Sum, Sum2, SkipCell, ReadCell, TRead, TReadTerm;
    var all := (h: int, j: int) => m.up(t, h, j) * TRead(m, d, t, h, j);
    var readouts := (h: int, j: int) => Mul(m.up(t, h, j), Sum(m.keys, k => TReadTerm(m, d, t, CellRow(m, h, k), j)));
    var skips := (h: int, j: int) => SkipCell(m, d, t, h, j);
    forall h, j ensures all(h, j) == readouts(h, j) + skips(h, j) {
      ReadForm(m, d, t, h, j);
    }
    Sum2Add(m.heads, m.vals, all, readouts, skips);
    Pair2Form(m.heads, m.vals, (h, j) => m.up(t, h, j), (h, j) => TRead(m, d, t, h, j), all);
    ReadColumns(m, d, t, readouts);
  }

  lemma ReadForm(m: Rnn, d: Tangent, t: int, h: int, j: int)
    ensures m.up(t, h, j) * TRead(m, d, t, h, j)
         == Mul(m.up(t, h, j), Sum(m.keys, k => TReadTerm(m, d, t, CellRow(m, h, k), j))) + SkipCell(m, d, t, h, j)
  {
    hide Sum, TReadTerm;
  }

  lemma ReadColumns(m: Rnn, d: Tangent, t: int, readouts: (int, int) -> real)
    requires forall h, j {:trigger readouts(h, j)} ::
               readouts(h, j) == Mul(m.up(t, h, j), Sum(m.keys, k => TReadTerm(m, d, t, CellRow(m, h, k), j)))
    ensures Sum2(m.heads, m.vals, readouts) == Sum2(Cells(m), m.vals, (r, j) => ReadCell(m, d, t, r, j))
  {
    hide Sum, ReadCell, TReadTerm, Mul, CellRow;
    var columns, cells := (j: int, h: int) => readouts(h, j), (j: int, r: int) => ReadCell(m, d, t, r, j);
    Sum2Swap(m.heads, m.vals, readouts, columns);
    forall j ensures Row(m.heads, columns, j) == Row(Cells(m), cells, j) {
      ReadColumn(m, d, t, j);
      SumEq(m.heads, h => columns(j, h),
            h => Mul(m.up(t, h, j), Sum(m.keys, k => TReadTerm(m, d, t, CellRow(m, h, k), j))));
      SumEq(Cells(m), r => cells(j, r), r => ReadCell(m, d, t, r, j));
    }
    RowsEq(m.vals, m.heads, Cells(m), columns, cells);
    Sum2Swap(m.vals, Cells(m), cells, (r, j) => ReadCell(m, d, t, r, j));
  }

  lemma ReadCells(m: Rnn, d: Tangent, t: int)
    ensures Sum2(Cells(m), m.vals, (r, j) => ReadCell(m, d, t, r, j))
         == Pair(Slots(m), s => QueryGrad(m, t, s), s => d.query(t, s))
            + Sum2(Cells(m), m.vals, (r, j) => ViaUp(m, d, t, r, j))
  {
    hide Sum, Sum2, Slot, Head, State, TState, Pair;
    var all := (r: int, j: int) => ReadCell(m, d, t, r, j);
    forall r, j ensures all(r, j) == ViaQuery(m, d, t, r, j) + ViaUp(m, d, t, r, j) {
      ReadCellForm(m.up(t, Head(m, r), j), d.query(t, Slot(m, r)), State(m, t + 1, r, j), m.query(t, Slot(m, r)),
                   TState(m, d, t + 1, r, j));
    }
    Sum2Add(Cells(m), m.vals, all, (r, j) => ViaQuery(m, d, t, r, j), (r, j) => ViaUp(m, d, t, r, j));
    QuerySum(m, d, t);
  }

  lemma ReadCellForm(up: real, tq: real, s: real, q: real, ts: real)
    ensures up * (Mul(tq, s) + Mul(q, ts)) == Mul(up, s) * tq + Mul(up, q) * ts
  {
  }

  lemma QuerySum(m: Rnn, d: Tangent, t: int)
    ensures Sum2(Cells(m), m.vals, (r, j) => ViaQuery(m, d, t, r, j))
            == Pair(Slots(m), s => QueryGrad(m, t, s), s => d.query(t, s))
  {
    hide Sum, QueryCell, Slot, QueryRow;
    forall r ensures QueryRow(m, t, r) == Row(m.vals, (r, j) => QueryCell(m, t, r, j), r) {
      QueryRowForm(m, t, r);
    }
    KeyedRows(Slots(m), Cells(m), m.vals, r => Slot(m, r), (r, j) => QueryCell(m, t, r, j), s => d.query(t, s),
              (r, j) => ViaQuery(m, d, t, r, j), r => QueryRow(m, t, r), s => QueryGrad(m, t, s));
  }

  lemma QueryRowForm(m: Rnn, t: int, r: int)
    ensures QueryRow(m, t, r) == Row(m.vals, (r, j) => QueryCell(m, t, r, j), r)
  {
    hide Sum, State, Mul;
    var f := (r: int, j: int) => QueryCell(m, t, r, j);
    SumEq(m.vals, j => Mul(m.up(t, Head(m, r), j), State(m, t + 1, r, j)), j => f(r, j));
  }

  lemma SkipSum(m: Rnn, d: Tangent, t: int)
    ensures Sum2(m.heads, m.vals, (h, j) => SkipCell(m, d, t, h, j))
         == Pair2(m.vHeads, m.vals, (s, j) => SkipValueGrad(m, t, s, j), (s, j) => d.value(t, s, j))
            + Pair2(m.heads, m.vals, (h, j) => SkipTerm(m, h, j, t), d.skip)
  {
    hide Sum, Sum2, VHead, Pair2, SkipCell, ViaSkipValue, SkipTerm;
    var all, viaSkip := (h: int, j: int) => SkipCell(m, d, t, h, j), (h: int, j: int) => ViaSkip(m, d, t, h, j);
    forall h, j ensures all(h, j) == ViaSkipValue(m, d, t, h, j) + viaSkip(h, j) {
      SkipCellForm(m, d, t, h, j);
    }
    Sum2Add(m.heads, m.vals, all, (h, j) => ViaSkipValue(m, d, t, h, j), viaSkip);
    Pair2Form(m.heads, m.vals, (h, j) => SkipTerm(m, h, j, t), d.skip, viaSkip);
    SkipValues(m, d, t);
  }

  lemma SkipCellForm(m: Rnn, d: Tangent, t: int, h: int, j: int)
    ensures SkipCell(m, d, t, h, j) == ViaSkipValue(m, d, t, h, j) + ViaSkip(m, d, t, h, j)
  {
    hide VHead;
    SkipForm(m.up(t, h, j), d.value(t, VHead(m, h), j), m.skip(h, j), m.value(t, VHead(m, h), j), d.skip(h, j));
  }

  lemma SkipForm(up: real, tv: real, skip: real, v: real, ts: real)
    ensures Mul(up, Mul(tv, skip) + Mul(v, ts)) == Mul(up, skip) * tv + Mul(up, v) * ts
  {
  }

  lemma SkipValues(m: Rnn, d: Tangent, t: int)
    ensures Sum2(m.heads, m.vals, (h, j) => ViaSkipValue(m, d, t, h, j))
         == Pair2(m.vHeads, m.vals, (s, j) => SkipValueGrad(m, t, s, j), (s, j) => d.value(t, s, j))
  {
    hide Sum, Mul, VHead, Pair2;
    var w := (h: int, j: int) => Mul(m.up(t, h, j), m.skip(h, j));
    forall s, j ensures SkipValueGrad(m, t, s, j) == Keyed(m.heads, h => VHead(m, h), h => w(h, j), s) {
      KeyedEq(m.heads, h => VHead(m, h), h => Mul(m.up(t, h, j), m.skip(h, j)), h => w(h, j), s);
    }
    KeyedCells(m.vHeads, m.heads, m.vals, h => VHead(m, h), w, (s, j) => d.value(t, s, j),
               (h, j) => ViaSkipValue(m, d, t, h, j),
               (s, j) => SkipValueGrad(m, t, s, j));
  }

  // ---- one row ----

  ghost function StatePair(m: Rnn, d: Tangent, t: int): real {
    Pair2(Cells(m), m.vals, (r, i) => StateGrad(m, t, r, i), (r, i) => TState(m, d, t, r, i))
  }

  lemma FullSum(m: Rnn, d: Tangent, t: nat)
    ensures Sum2(Cells(m), m.vals, (r, j) => Next(m, d, t, r, j))
         == StatePair(m, d, t + 1) + Sum2(Cells(m), m.vals, (r, j) => ViaUp(m, d, t, r, j))
  {
    hide Sum2, StateGrad, TState, UpCell, Mul, Full;
    var all, carry := (r: int, j: int) => Next(m, d, t, r, j),
        (r: int, j: int) => Mul(StateGrad(m, t + 1, r, j), TState(m, d, t + 1, r, j));
    forall r, j ensures all(r, j) == carry(r, j) + ViaUp(m, d, t, r, j) {
      FullForm(m, t, r, j);
      MulAdd(Full(m, t, r, j), StateGrad(m, t + 1, r, j), UpCell(m, t, r, j), TState(m, d, t + 1, r, j));
    }
    Sum2Add(Cells(m), m.vals, all, carry, (r, j) => ViaUp(m, d, t, r, j));
    PairsForm(m, carry, (r, j) => StateGrad(m, t + 1, r, j), (r, j) => TState(m, d, t + 1, r, j));
  }

  lemma FullForm(m: Rnn, t: int, r: int, j: int)
    ensures Full(m, t, r, j) == StateGrad(m, t + 1, r, j) + UpCell(m, t, r, j)
  {
    hide StateGrad, Mul;
  }

  /** Row `t`'s gradients paired with the tangents of the row's own inputs. */
  ghost function InputPairs(m: Rnn, d: Tangent, t: int): real {
    Pair(Slots(m), s => QueryGrad(m, t, s), s => d.query(t, s))
      + Pair(Slots(m), s => KeyGrad(m, t, s), s => d.key(t, s))
    + Pair2(m.vHeads, m.vals, (s, j) => ValueGrad(m, t, s, j), (s, j) => d.value(t, s, j))
    + Pair(m.fHeads, s => ForgetGrad(m, t, s), s => d.forget(t, s))
  }

  /** What row `t` adds to the parameters' gradients, paired with the parameters' tangents. */
  ghost function ParamPairs(m: Rnn, d: Tangent, t: int): real {
    WPair(m, d, t) + Pair(m.heads, h => RateTerm(m, h, t), d.logRate) + Pair(m.heads, h => BiasTerm(m, h, t), d.bias)
    + Pair2(m.heads, m.vals, (h, j) => SkipTerm(m, h, j, t), d.skip)
  }

  lemma ValuePair(m: Rnn, d: Tangent, t: int)
    ensures Pair2(m.vHeads, m.vals, (s, j) => ValueGrad(m, t, s, j), (s, j) => d.value(t, s, j))
         == Pair2(m.vHeads, m.vals, (s, j) => SkipValueGrad(m, t, s, j), (s, j) => d.value(t, s, j))
            + Pair2(m.vHeads, m.vals, (s, j) => DriveValueGrad(m, t, s, j), (s, j) => d.value(t, s, j))
  {
    hide Sum2, SkipValueGrad, DriveValueGrad;
    var v := (s: int, j: int) => d.value(t, s, j);
    var a, b, c := (s: int, j: int) => ValueGrad(m, t, s, j), (s: int, j: int) => SkipValueGrad(m, t, s, j),
        (s: int, j: int) => DriveValueGrad(m, t, s, j);
    var p, q, x := (s: int, j: int) => Mul(a(s, j), v(s, j)), (s: int, j: int) => Mul(b(s, j), v(s, j)),
        (s: int, j: int) => Mul(c(s, j), v(s, j));
    forall s, j ensures p(s, j) == q(s, j) + x(s, j) {
      MulAdd(a(s, j), b(s, j), c(s, j), v(s, j));
    }
    Sum2Add(m.vHeads, m.vals, p, q, x);
    Pair2Form(m.vHeads, m.vals, a, v, p);
    Pair2Form(m.vHeads, m.vals, b, v, q);
    Pair2Form(m.vHeads, m.vals, c, v, x);
  }

  lemma RowStage(m: Rnn, d: Tangent, t: nat)
    requires t < m.rows
    ensures ReadPair(m, d, t) + StatePair(m, d, t + 1) == StatePair(m, d, t) + InputPairs(m, d, t) + ParamPairs(m, d, t)
  {
    hide Sum2, Pair2, Pair, WPair, ReadPair, DecayGrad, TDecay;
    ReadSplit(m, d, t);
    ReadCells(m, d, t);
    SkipSum(m, d, t);
    FullSum(m, d, t);
    NextSum(m, d, t);
    DecaySum(m, d, t);
    DecayParams(m, d, t);
    MixSum(m, d, t);
    KeySum(m, d, t);
    ValueSum(m, d, t);
    ValuePair(m, d, t);
    CarrySum(m, d, t);
  }

  // ---- all rows ----

  lemma {:induction false} Suffix(m: Rnn, d: Tangent, t: nat)
    requires t <= m.rows
    ensures SumFrom(t, m.rows, s => ReadPair(m, d, s))
         == StatePair(m, d, t) + SumFrom(t, m.rows, s => InputPairs(m, d, s))
            + SumFrom(t, m.rows, s => ParamPairs(m, d, s))
    decreases m.rows - t
  {
    hide ReadPair, StatePair, InputPairs, ParamPairs;
    if t == m.rows {
      NoCarry(m, d);
    } else {
      Suffix(m, d, t + 1);
      RowStage(m, d, t);
    }
  }

  lemma NoCarry(m: Rnn, d: Tangent)
    ensures StatePair(m, d, m.rows) == 0.0
  {
    hide TState, Sum2;
    Pair2Zero(Cells(m), m.vals, (r, i) => StateGrad(m, m.rows, r, i), (r, i) => TState(m, d, m.rows, r, i));
  }

  lemma StartState(m: Rnn, d: Tangent)
    ensures StatePair(m, d, 0) == Pair2(Cells(m), m.vals, (r, i) => StateGrad(m, 0, r, i), d.h0)
  {
    hide StateGrad, Sum2;
    var g, s := (r: int, i: int) => StateGrad(m, 0, r, i), (r: int, i: int) => TState(m, d, 0, r, i);
    Pair2Eq(Cells(m), m.vals, g, s, g, d.h0);
  }

  ghost function WTotalPair(m: Rnn, d: Tangent): real { Sum(m.vals, i => WTotalSlice(m, d, i)) }

  ghost function WTotalSlice(m: Rnn, d: Tangent, i: int): real {
    Pair2(m.wHeads, m.vals, (s, j) => WGrad(m, 0, s, i, j), (s, j) => d.w(s, i, j))
  }

  lemma WTotal(m: Rnn, d: Tangent)
    ensures Sum(m.rows, t => WPair(m, d, t)) == WTotalPair(m, d)
  {
    hide Sum, WSlice, WTotalSlice;
    var cells, flipped := (t: int, i: int) => WSlice(m, d, t, i), (i: int, t: int) => WSlice(m, d, t, i);
    forall t ensures WPair(m, d, t) == Row(m.vals, cells, t) {
      SumEq(m.vals, i => WSlice(m, d, t, i), i => cells(t, i));
    }
    SumEq(m.rows, t => WPair(m, d, t), t => Row(m.vals, cells, t));
    Sum2Swap(m.rows, m.vals, cells, flipped);
    forall i ensures Row(m.rows, flipped, i) == WTotalSlice(m, d, i) {
      WSliceTotal(m, d, i);
      SumEq(m.rows, t => flipped(i, t), t => WSlice(m, d, t, i));
    }
    SumEq(m.vals, i => Row(m.rows, flipped, i), i => WTotalSlice(m, d, i));
  }

  lemma WSliceTotal(m: Rnn, d: Tangent, i: int)
    ensures Sum(m.rows, t => WSlice(m, d, t, i)) == WTotalSlice(m, d, i)
  {
    hide Sum, SumFrom, Pair2, WTerm;
    Rows2Total(m.rows, m.wHeads, m.vals, t => (s, j) => WTerm(m, s, i, j, t), (s, j) => t => WTerm(m, s, i, j, t),
               (s, j) => WGrad(m, 0, s, i, j), (s, j) => d.w(s, i, j), t => WSlice(m, d, t, i));
  }

  lemma ParamTotal(m: Rnn, d: Tangent)
    ensures Sum(m.rows, t => ParamPairs(m, d, t))
         == WTotalPair(m, d) + Pair(m.heads, h => RateGrad(m, 0, h), d.logRate)
            + Pair(m.heads, h => BiasGrad(m, 0, h), d.bias)
            + Pair2(m.heads, m.vals, (h, j) => SkipGrad(m, 0, h, j), d.skip)
  {
    hide Sum, SumFrom, Pair, Pair2, WPair, WTotalPair, RateTerm, BiasTerm, SkipTerm;
    var w, a, b := (t: int) => WPair(m, d, t), (t: int) => Pair(m.heads, h => RateTerm(m, h, t), d.logRate),
                   (t: int) => Pair(m.heads, h => BiasTerm(m, h, t), d.bias);
    var s := (t: int) => Pair2(m.heads, m.vals, (h, j) => SkipTerm(m, h, j, t), d.skip);
    var first := (t: int) => w(t) + a(t) + b(t);
    SumAdd3(m.rows, first, w, a, b);
    SumAdd(m.rows, t => ParamPairs(m, d, t), first, s);
    WTotal(m, d);
    RowsTotal(m.rows, m.heads, t => h => RateTerm(m, h, t), h => t => RateTerm(m, h, t), h => RateGrad(m, 0, h),
              d.logRate, a);
    RowsTotal(m.rows, m.heads, t => h => BiasTerm(m, h, t), h => t => BiasTerm(m, h, t), h => BiasGrad(m, 0, h),
              d.bias, b);
    Rows2Total(m.rows, m.heads, m.vals, t => (h, j) => SkipTerm(m, h, j, t), (h, j) => t => SkipTerm(m, h, j, t),
               (h, j) => SkipGrad(m, 0, h, j), d.skip, s);
  }

  /** The reverse sweep is the exact adjoint of the recurrence: for every upstream gradient of the readouts
      and every tangent of the queries, keys, values and forget projections of every row, of the recurrent
      weights, decay rates, decay biases and skip weights, and of the initial state. */
  lemma SweepIsAdjoint(m: Rnn, d: Tangent)
    ensures Sum(m.rows, t => ReadPair(m, d, t))
         == Sum(m.rows, t => InputPairs(m, d, t))
            + WTotalPair(m, d) + Pair(m.heads, h => RateGrad(m, 0, h), d.logRate)
              + Pair(m.heads, h => BiasGrad(m, 0, h), d.bias)
            + Pair2(m.heads, m.vals, (h, j) => SkipGrad(m, 0, h, j), d.skip)
            + Pair2(Cells(m), m.vals, (r, i) => StateGrad(m, 0, r, i), d.h0)
  {
    hide Sum, Pair, Pair2, ReadPair, InputPairs, ParamPairs, StatePair, WTotalPair;
    Suffix(m, d, 0);
    StartState(m, d);
    SumFromAll(m.rows, t => ReadPair(m, d, t));
    SumFromAll(m.rows, t => InputPairs(m, d, t));
    SumFromAll(m.rows, t => ParamPairs(m, d, t));
    ParamTotal(m, d);
  }
}
