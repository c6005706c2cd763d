/** The attention layer's backward is the exact adjoint of its linearisation. */
module AttentionLayerAdjoint {
  import opened Sums
  import opened Stages
  import opened AttentionModel
  import opened AttentionLayer
  import R = RotaryProjection
  import RA = RotaryAdjoint
  import A = AttentionAdjoint
  import S = AttentionScatter

  // ---- columns are heads and components ----

  lemma Flat(b: Layer, columns: int -> real, cells: (int, int) -> real)
    requires forall h, c {:trigger cells(h, c)} :: 0 <= c < Dims(b) ==> cells(h, c) == columns(h * Dims(b) + c)
    ensures Sum(Wide(b), columns) == Sum2(b.heads, Dims(b), cells)
  {
    hide Sum, Dims;
    SumFlatten(b.heads, Dims(b), columns);
    var rows := (h: int) => Sum(Dims(b), k => columns(h * Dims(b) + k));
    forall h ensures rows(h) == Row(Dims(b), cells, h) {
      SumEq(Dims(b), k => columns(h * Dims(b) + k), k => cells(h, k));
    }
    SumEq(b.heads, rows, h => Row(Dims(b), cells, h));
  }

  // ---- output projection ----

  lemma OutStage(b: Layer, d: Moves, shift: (int, int) -> real, r: int)
    ensures Pair(b.width, o => b.up(r, o), o => TOut(b, d, shift, r, o))
         == Pair(Wide(b), p => ContextUp(b, r, p), p => TContext(b, d, shift, r, p))
            + Pair2(b.width, Wide(b), (o, p) => OutWTerm(b, o, p, r), d.outW)
  {
    hide Sum, Mul, TContext, Context, Wide;
    var terms := (o: int, p: int) => TOutTerm(b, d, shift, r, o, p);
    var back := (p: int, o: int) => Mul(b.up(r, o), b.outW(o, p));
    forall o ensures TOut(b, d, shift, r, o) == Row(Wide(b), terms, o) {
      SumEq(Wide(b), p => TOutTerm(b, d, shift, r, o, p), p => terms(o, p));
    }
    forall p ensures ContextUp(b, r, p) == Row(b.width, back, p) {
      SumEq(b.width, o => Mul(b.up(r, o), b.outW(o, p)), o => back(p, o));
    }
    Linear(b.width, Wide(b), o => b.up(r, o), p => Context(b, r, p), p => TContext(b, d, shift, r, p), b.outW, d.outW,
           terms, o => TOut(b, d, shift, r, o), back, p => ContextUp(b, r, p), (o, p) => OutWTerm(b, o, p, r));
  }

  /** Component `c` of head `h`, its context's move paired with its gradient. */
  ghost function ContextCell(b: Layer, d: Moves, shift: (int, int) -> real, r: int, h: int, c: int): real {
    Mul(Head(b, h).up(r, c), A.TContext(Head(b, h), HeadMoves(b, d, h), shift(h, r), r, c))
  }

  ghost function HeadRow(b: Layer, d: Moves, shift: (int, int) -> real, h: int, r: int): real {
    Sum(Dims(b), c => ContextCell(b, d, shift, r, h, c))
  }

  lemma ContextColumn(b: Layer, d: Moves, shift: (int, int) -> real, r: int, h: int, c: int)
    requires 0 <= c < Dims(b)
    ensures ContextCell(b, d, shift, r, h, c)
            == Mul(ContextUp(b, r, h * Dims(b) + c), TContext(b, d, shift, r, h * Dims(b) + c))
  {
    hide Mul, ContextUp, A.TContext, HeadMoves, Dims;
    ColumnOf(b, h, c);
  }

  lemma RowHeads(b: Layer, d: Moves, shift: (int, int) -> real, r: int)
    ensures Pair(Wide(b), p => ContextUp(b, r, p), p => TContext(b, d, shift, r, p))
            == Sum(b.heads, h => HeadRow(b, d, shift, h, r))
  {
    hide Sum, Mul, ContextUp, TContext, ContextCell, Dims, Wide;
    var columns := (p: int) => Mul(ContextUp(b, r, p), TContext(b, d, shift, r, p));
    var cells := (h: int, c: int) => ContextCell(b, d, shift, r, h, c);
    PairMul(Wide(b), p => ContextUp(b, r, p), p => TContext(b, d, shift, r, p), columns);
    forall h, c | 0 <= c < Dims(b) ensures cells(h, c) == columns(h * Dims(b) + c) {
      ContextColumn(b, d, shift, r, h, c);
    }
    Flat(b, columns, cells);
    forall h ensures Row(Dims(b), cells, h) == HeadRow(b, d, shift, h, r) {
      SumEq(Dims(b), c => cells(h, c), c => ContextCell(b, d, shift, r, h, c));
    }
    SumEq(b.heads, h => Row(Dims(b), cells, h), h => HeadRow(b, d, shift, h, r));
  }

  // ---- the heads ----

  /** Head `h`'s gradient of a prepared value, paired with the value's move. */
  ghost function SideCell(b: Layer, d: Moves, kv: bool, r: int, h: int, c: int): real {
    Mul(HeadGrad(b, kv, h, r, c), TPrepared(b, d, kv, r, h * Dims(b) + c))
  }

  ghost function SideTotal(b: Layer, d: Moves, kv: bool, r: int): real {
    Sum(Wide(b), p => RA.Moved(Side(b, kv), SideMoves(d, kv), Prepared(b, kv), r, p))
  }

  lemma SideColumn(b: Layer, d: Moves, kv: bool, r: int, h: int, c: int)
    requires 0 <= c < Dims(b)
    ensures SideCell(b, d, kv, r, h, c)
            == RA.Moved(Side(b, kv), SideMoves(d, kv), Prepared(b, kv), r, h * Dims(b) + c)
  {
    hide Mul, HeadGrad, Side, SideMoves, R.TPrepared, Dims;
    ColumnOf(b, h, c);
  }

  lemma SideHeads(b: Layer, d: Moves, kv: bool, r: int)
    ensures SideTotal(b, d, kv, r) == Sum2(b.heads, Dims(b), (h, c) => SideCell(b, d, kv, r, h, c))
  {
    hide Sum, Sum2, RA.Moved, Side, SideMoves, Prepared, SideCell, Dims;
    var columns := (p: int) => RA.Moved(Side(b, kv), SideMoves(d, kv), Prepared(b, kv), r, p);
    var cells := (h: int, c: int) => SideCell(b, d, kv, r, h, c);
    forall h, c | 0 <= c < Dims(b) ensures cells(h, c) == columns(h * Dims(b) + c) {
      SideColumn(b, d, kv, r, h, c);
    }
    Flat(b, columns, cells);
  }

  /** Head by head and row by row, or row by row and head by head. */
  lemma SwapHeads(b: Layer, heads: int -> real, totals: int -> real, cells: (int, int, int) -> real)
    requires forall h {:trigger heads(h)} :: 0 <= h < b.heads ==>
             heads(h) == Sum2(b.rows, Dims(b), (r, c) => cells(r, h, c))
    requires forall r {:trigger totals(r)} :: totals(r) == Sum2(b.heads, Dims(b), (h, c) => cells(r, h, c))
    ensures Sum(b.heads, heads) == Sum(b.rows, totals)
  {
    hide Sum, Dims;
    var byHead := (h: int, r: int) => Sum(Dims(b), c => cells(r, h, c));
    var byRow := (r: int, h: int) => byHead(h, r);
    forall h | 0 <= h < b.heads ensures heads(h) == Row(b.rows, byHead, h) {
      var part := (r: int, c: int) => cells(r, h, c);
      forall r ensures Row(Dims(b), part, r) == byHead(h, r) {
        SumEq(Dims(b), c => part(r, c), c => cells(r, h, c));
      }
      SumEq(b.rows, r => Row(Dims(b), part, r), r => byHead(h, r));
    }
    SumEq(b.heads, heads, h => Row(b.rows, byHead, h));
    Sum2Swap(b.heads, b.rows, byHead, byRow);
    forall r ensures totals(r) == Row(b.heads, byRow, r) {
      var part := (h: int, c: int) => cells(r, h, c);
      forall h ensures Row(Dims(b), part, h) == byRow(r, h) {
        SumEq(Dims(b), c => part(h, c), c => cells(r, h, c));
      }
      SumEq(b.heads, h => Row(Dims(b), part, h), h => byRow(r, h));
    }
    SumEq(b.rows, totals, r => Row(b.heads, byRow, r));
  }

  /** The head's rows, cell by cell. */
  lemma HeadRows(b: Layer, d: Moves, shift: (int, int) -> real, h: int, moved: int -> real)
    requires forall r {:trigger moved(r)} :: moved(r) == shift(h, r)
    ensures Sum(b.rows, r => HeadRow(b, d, shift, h, r))
         == Sum(b.rows, r => Sum(Head(b, h).dims, c => Mul(Head(b, h).up(r, c),
                                                           A.TContext(Head(b, h), HeadMoves(b, d, h), moved(r), r, c))))
  {
    hide Sum, Mul, ContextUp, A.TContext, TPrepared, Dims;
    var m, t := Head(b, h), HeadMoves(b, d, h);
    var rows, own := (r: int) => HeadRow(b, d, shift, h, r),
        (r: int) => Sum(m.dims, c => Mul(m.up(r, c), A.TContext(m, t, moved(r), r, c)));
    forall r ensures rows(r) == own(r) {
      SumEq(Dims(b), c => ContextCell(b, d, shift, r, h, c), c => Mul(m.up(r, c), A.TContext(m, t, moved(r), r, c)));
    }
    SumEq(b.rows, rows, own);
  }

  /** The two sides of a head, cell by cell. */
  lemma SidePairs(b: Layer, d: Moves, h: int)
    ensures Pair2(b.rows, Dims(b), (r, c) => A.Dq(Head(b, h), r, c), HeadMoves(b, d, h).q)
         == Sum2(b.rows, Dims(b), (r, c) => SideCell(b, d, false, r, h, c))
    ensures Pair2(b.rows, Dims(b), (j, c) => S.Dkv(Head(b, h), j, c), HeadMoves(b, d, h).kv)
         == Sum2(b.rows, Dims(b), (r, c) => SideCell(b, d, true, r, h, c))
  {
    hide Sum2, Pair2, Mul, Healthy, ContextUp, A.Dq, S.Dkv, TPrepared, Dims;
    var m, t := Head(b, h), HeadMoves(b, d, h);
    Pair2Mul(b.rows, Dims(b), (r, c) => A.Dq(m, r, c), t.q, (r, c) => SideCell(b, d, false, r, h, c));
    Pair2Mul(b.rows, Dims(b), (j, c) => S.Dkv(m, j, c), t.kv, (r, c) => SideCell(b, d, true, r, h, c));
  }

  /** All rows of head `h`: its attention is adjoint. */
  lemma HeadStage(b: Layer, d: Moves, shift: (int, int) -> real, h: int)
    requires Healthy(Head(b, h))
    ensures Sum(b.rows, r => HeadRow(b, d, shift, h, r))
         == Sum2(b.rows, Dims(b), (r, c) => SideCell(b, d, false, r, h, c))
            + Sum2(b.rows, Dims(b), (r, c) => SideCell(b, d, true, r, h, c)) + SinkGrad(b, h) * d.sink(h)
  {
    hide Sum, Sum2, Mul, Healthy, ContextUp, A.TContext, A.Dq, S.Dkv, A.DSink, TPrepared, Dims, HeadRow, Pair2,
         SideCell;
    var m, t, moved := Head(b, h), HeadMoves(b, d, h), (r: int) => shift(h, r);
    S.AllRowsAreAdjoint(m, t, moved);
    HeadRows(b, d, shift, h, moved);
    SidePairs(b, d, h);
    SinkTotal(b, d, h, r => A.DSink(m, r) * t.sink);
  }

  lemma SinkTotal(b: Layer, d: Moves, h: int, sinks: int -> real)
    requires forall r {:trigger sinks(r)} :: sinks(r) == A.DSink(Head(b, h), r) * d.sink(h)
    ensures Sum(b.rows, sinks) == SinkGrad(b, h) * d.sink(h)
  {
    hide Sum, A.DSink, Head;
    SumScale(b.rows, sinks, d.sink(h), r => A.DSink(Head(b, h), r));
  }

  // ---- the layer ----

  /** Every head's attention is healthy. */
  ghost predicate AllHealthy(b: Layer) { forall h {:trigger Head(b, h)} :: 0 <= h < b.heads ==> Healthy(Head(b, h)) }

  /** All heads: the prepared queries' and key-values' gradients against their moves. */
  lemma Heads(b: Layer, d: Moves, shift: (int, int) -> real)
    requires AllHealthy(b)
    ensures Sum(b.heads, h => Sum(b.rows, r => HeadRow(b, d, shift, h, r)))
         == Sum(b.rows, r => SideTotal(b, d, false, r)) + Sum(b.rows, r => SideTotal(b, d, true, r))
            + Pair(b.heads, h => SinkGrad(b, h), d.sink)
  {
    hide Sum, Sum2, HeadRow, SideCell, SideTotal, SinkGrad, Healthy, Head, Dims;
    var all := (h: int) => Sum(b.rows, r => HeadRow(b, d, shift, h, r));
    var q := (h: int) => Sum2(b.rows, Dims(b), (r, c) => SideCell(b, d, false, r, h, c));
    var kv := (h: int) => Sum2(b.rows, Dims(b), (r, c) => SideCell(b, d, true, r, h, c));
    var sink := (h: int) => SinkGrad(b, h) * d.sink(h);
    forall h | 0 <= h < b.heads ensures all(h) == q(h) + kv(h) + sink(h) {
      HeadStage(b, d, shift, h);
    }
    SumAdd3(b.heads, all, q, kv, sink);
    PairForm(b.heads, h => SinkGrad(b, h), d.sink, sink);
    SideSwap(b, d, false, q);
    SideSwap(b, d, true, kv);
  }

  lemma SideSwap(b: Layer, d: Moves, kv: bool, heads: int -> real)
    requires forall h {:trigger heads(h)} :: heads(h) == Sum2(b.rows, Dims(b), (r, c) => SideCell(b, d, kv, r, h, c))
    ensures Sum(b.heads, heads) == Sum(b.rows, r => SideTotal(b, d, kv, r))
  {
    hide Sum, SideCell, SideTotal, Dims;
    var cells, totals := (r: int, h: int, c: int) => SideCell(b, d, kv, r, h, c), (r: int) => SideTotal(b, d, kv, r);
    forall h | 0 <= h < b.heads ensures heads(h) == Sum2(b.rows, Dims(b), (r, c) => cells(r, h, c)) {
      Sum2Eq(b.rows, Dims(b), (r, c) => SideCell(b, d, kv, r, h, c), (r, c) => cells(r, h, c));
    }
    forall r ensures totals(r) == Sum2(b.heads, Dims(b), (h, c) => cells(r, h, c)) {
      SideHeads(b, d, kv, r);
      Sum2Eq(b.heads, Dims(b), (h, c) => SideCell(b, d, kv, r, h, c), (h, c) => cells(r, h, c));
    }
    SwapHeads(b, heads, totals, cells);
  }

  /** The output projection over all rows. */
  lemma Outs(b: Layer, d: Moves, shift: (int, int) -> real)
    ensures Sum(b.rows, r => Pair(b.width, o => b.up(r, o), o => TOut(b, d, shift, r, o)))
         == Sum(b.heads, h => Sum(b.rows, r => HeadRow(b, d, shift, h, r)))
            + Pair2(b.width, Wide(b), (o, p) => OutWGrad(b, o, p), d.outW)
  {
    hide Sum, SumFrom, Pair, Pair2, HeadRow, TOut, OutWTerm, ContextUp, TContext, Wide;
    var all := (r: int) => Pair(b.width, o => b.up(r, o), o => TOut(b, d, shift, r, o));
    var contexts := (r: int) => Sum(b.heads, h => HeadRow(b, d, shift, h, r));
    var weights := (r: int) => Pair2(b.width, Wide(b), (o, p) => OutWTerm(b, o, p, r), d.outW);
    forall r ensures all(r) == contexts(r) + weights(r) {
      OutStage(b, d, shift, r);
      RowHeads(b, d, shift, r);
    }
    SumAdd(b.rows, all, contexts, weights);
    HeadsSwap(b, d, shift, contexts);
    forall o, p ensures OutWGrad(b, o, p) == SumFrom(0, b.rows, r => OutWTerm(b, o, p, r)) {
      SumFromAll(b.rows, r => OutWTerm(b, o, p, r));
    }
    Rows2Total(b.rows, b.width, Wide(b), r => (o, p) => OutWTerm(b, o, p, r), (o, p) => r => OutWTerm(b, o, p, r),
               (o, p) => OutWGrad(b, o, p), d.outW, weights);
  }

  lemma HeadsSwap(b: Layer, d: Moves, shift: (int, int) -> real, rows: int -> real)
    requires forall r {:trigger rows(r)} :: rows(r) == Sum(b.heads, h => HeadRow(b, d, shift, h, r))
    ensures Sum(b.rows, rows) == Sum(b.heads, h => Sum(b.rows, r => HeadRow(b, d, shift, h, r)))
  {
    hide Sum, HeadRow;
    var byRow, byHead := (r: int, h: int) => HeadRow(b, d, shift, h, r), (h: int, r: int) => HeadRow(b, d, shift, h, r);
    forall r ensures rows(r) == Row(b.heads, byRow, r) {
      SumEq(b.heads, h => HeadRow(b, d, shift, h, r), h => byRow(r, h));
    }
    SumEq(b.rows, rows, r => Row(b.heads, byRow, r));
    Sum2Swap(b.rows, b.heads, byRow, byHead);
    var heads := (h: int) => Sum(b.rows, r => HeadRow(b, d, shift, h, r));
    forall h ensures Row(b.rows, byHead, h) == heads(h) {
      SumEq(b.rows, r => byHead(h, r), r => HeadRow(b, d, shift, h, r));
    }
    SumEq(b.heads, h => Row(b.rows, byHead, h), heads);
  }

  /** The layer's backward is exact: for every tangent of the hidden rows, of the query, key-value and output weights,
      of the rotary frequencies and of the sinks, and however the subtracted maxima move. */
  lemma LayerIsAdjoint(b: Layer, d: Moves, shift: (int, int) -> real)
    requires AllHealthy(b)
    ensures Sum(b.rows, r => Pair(b.width, o => b.up(r, o), o => TOut(b, d, shift, r, o)))
         == Pair2(b.rows, b.width, (r, i) => HiddenGrad(b, r, i), d.u)
            + Pair2(Wide(b), b.width, (p, i) => SideW(b, false, p, i), d.qW)
            + Pair2(Wide(b), b.width, (p, i) => SideW(b, true, p, i), d.kvW)
            + Pair(b.half, e => FreqGrad(b, e), d.freq)
            + Pair2(b.width, Wide(b), (o, p) => OutWGrad(b, o, p), d.outW)
            + Pair(b.heads, h => SinkGrad(b, h), d.sink)
  {
    hide Sum, Pair, Pair2, AllHealthy, TOut, HeadRow, HiddenGrad, FreqGrad, OutWGrad, SinkGrad, SideHidden, SideW,
         SideFreq, SideTotal, Wide;
    Outs(b, d, shift);
    Heads(b, d, shift);
    SideStage(b, d, false);
    SideStage(b, d, true);
    Shared(b, d);
  }

  lemma SideStage(b: Layer, d: Moves, kv: bool)
    ensures Sum(b.rows, r => SideTotal(b, d, kv, r))
         == Pair2(b.rows, b.width, (r, i) => SideHidden(b, kv, r, i), d.u)
            + Pair2(Wide(b), b.width, (p, i) => SideW(b, kv, p, i), if kv then d.kvW else d.qW)
            + Pair(b.half, e => SideFreq(b, kv, e), d.freq)
  {
    hide Sum, Pair, Sum2, R.HiddenGrad, R.WGrad, R.FreqGrad, RA.Moved, Prepared;
    var s, m, g := Side(b, kv), SideMoves(d, kv), Prepared(b, kv);
    RA.SideIsAdjoint(s, m, g);
    SumEq(b.rows, r => SideTotal(b, d, kv, r), r => Sum(R.Wide(s), p => RA.Moved(s, m, g, r, p)));
    Pair2Eq(b.rows, b.width, (r, i) => R.HiddenGrad(s, g, r, i), m.u, (r, i) => SideHidden(b, kv, r, i), d.u);
    Pair2Eq(Wide(b), b.width, (p, i) => R.WGrad(s, g, p, i), m.w, (p, i) => SideW(b, kv, p, i),
            if kv then d.kvW else d.qW);
    PairEq(b.half, e => R.FreqGrad(s, g, e), e => SideFreq(b, kv, e), d.freq);
  }

  /** The hidden rows and the frequencies are shared by queries and key-values. */
  lemma Shared(b: Layer, d: Moves)
    ensures Pair2(b.rows, b.width, (r, i) => HiddenGrad(b, r, i), d.u)
         == Pair2(b.rows, b.width, (r, i) => SideHidden(b, false, r, i), d.u)
            + Pair2(b.rows, b.width, (r, i) => SideHidden(b, true, r, i), d.u)
    ensures Pair(b.half, e => FreqGrad(b, e), d.freq)
         == Pair(b.half, e => SideFreq(b, false, e), d.freq)
            + Pair(b.half, e => SideFreq(b, true, e), d.freq)
  {
    hide Sum2, Pair, SideHidden, SideFreq;
    var q, k := (r: int, i: int) => SideHidden(b, false, r, i),
        (r: int, i: int) => SideHidden(b, true, r, i);
    var all := (r: int, i: int) => HiddenGrad(b, r, i);
    var x, y, z := (r: int, i: int) => Mul(all(r, i), d.u(r, i)), (r: int, i: int) => Mul(q(r, i), d.u(r, i)),
        (r: int, i: int) => Mul(k(r, i), d.u(r, i));
    forall r, i ensures x(r, i) == y(r, i) + z(r, i) {
      MulAdd(all(r, i), q(r, i), k(r, i), d.u(r, i));
    }
    Sum2Add(b.rows, b.width, x, y, z);
    Pair2Form(b.rows, b.width, all, d.u, x);
    Pair2Form(b.rows, b.width, q, d.u, y);
    Pair2Form(b.rows, b.width, k, d.u, z);
    PairAdd(b.half, e => FreqGrad(b, e), e => SideFreq(b, false, e),
            e => SideFreq(b, true, e), d.freq);
  }
}
