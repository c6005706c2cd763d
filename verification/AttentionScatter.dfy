/** The key-value gradients over all rows: every row scatters to its window, and what has been scattered is
    exactly what a gather over the window would give. */
module AttentionScatter {
  import opened Sums
  import opened Stages
  import opened AttentionModel
  import opened AttentionAdjoint

  /** What row `r` adds to key-value row `j`: its slot of that distance, if it has one. */
  ghost function RowShare(m: Attention, r: int, j: int, d: int): real {
    if 0 <= r - j < m.slots then DkvTerm(m, r, r - j, d) else 0.0
  }

  /** The key-value gradients after all rows. */
  ghost function Dkv(m: Attention, j: int, d: int): real { Sum(m.rows, r => RowShare(m, r, j, d)) }

  /** A row's atomic additions, slot by slot, are its share. */
  lemma RowScatter(m: Attention, r: nat, j: nat, d: int)
    requires r < m.rows
    ensures Keyed(m.slots, k => Index(r, k), k => DkvTerm(m, r, k, d), j) == RowShare(m, r, j, d)
  {
    hide Sum, DkvTerm;
    var key, w := (k: int) => Index(r, k), (k: int) => DkvTerm(m, r, k, d);
    SumDelta(m.slots, r - j, i => if key(i) == j then w(i) else 0.0);
  }

  /** The gradient of key-value row `j` sums exactly the rows of its window: those from `j` on that are
      fewer than `slots` rows later and exist. */
  lemma DkvIsWindow(m: Attention, j: nat, d: int)
    requires j < m.rows
    ensures Dkv(m, j, d)
            == SumFrom(j, if j + m.slots < m.rows then j + m.slots else m.rows, r => DkvTerm(m, r, r - j, d))
  {
    hide Sum, SumFrom, DkvTerm;
    var share, term := (r: int) => RowShare(m, r, j, d), (r: int) => DkvTerm(m, r, r - j, d);
    var end := if j + m.slots < m.rows then j + m.slots else m.rows;
    SumSplit(end, m.rows - end, share);
    SumZero(m.rows - end, x => share(end + x));
    SumFromSplit(j, end, share);
    SumZero(j, share);
    SumFromEq(j, end, share, term);
  }

  lemma KvPairForm(m: Attention, t: Tangent, r: nat)
    requires r < m.rows
    ensures KvPair(m, t, r) == Pair2(m.rows, m.dims, (j, d) => RowShare(m, r, j, d), t.kv)
  {
    hide Sum, DkvTerm, Pair2;
    var key := (k: int) => if k <= r then r - k else 0;
    var w := (k: int, d: int) => if k <= r then DkvTerm(m, r, k, d) else 0.0;
    forall j, d | 0 <= j < m.rows && 0 <= d < m.dims
      ensures RowShare(m, r, j, d) == Keyed(m.slots, key, k => w(k, d), j)
    {
      ShareForm(m, r, j, d, key, k => w(k, d));
    }
    KeyedCells(m.rows, m.slots, m.dims, key, w, t.kv, (k, d) => KvCell(m, t, r, k, d), (j, d) => RowShare(m, r, j, d));
  }

  lemma ShareForm(m: Attention, r: nat, j: nat, d: int, key: int -> int, w: int -> real)
    requires r < m.rows && j < m.rows
    requires forall k {:trigger key(k)} :: key(k) == if k <= r then r - k else 0
    requires forall k {:trigger w(k)} :: w(k) == if k <= r then DkvTerm(m, r, k, d) else 0.0
    ensures RowShare(m, r, j, d) == Keyed(m.slots, key, w, j)
  {
    hide Sum, DkvTerm;
    SumDelta(m.slots, r - j, i => if key(i) == j then w(i) else 0.0);
  }

  /** Over all rows the backward is the exact vector-Jacobian product of all contexts. */
  lemma AllRowsAreAdjoint(m: Attention, t: Tangent, shift: int -> real)
    requires Healthy(m)
    ensures Sum(m.rows, r => Sum(m.dims, d => Mul(m.up(r, d), TContext(m, t, shift(r), r, d))))
         == Pair2(m.rows, m.dims, (r, d) => Dq(m, r, d), t.q) + Pair2(m.rows, m.dims, (j, d) => Dkv(m, j, d), t.kv)
            + Sum(m.rows, r => DSink(m, r) * t.sink)
  {
    hide Sum, TContext, Dq, KvPair, DSink, Pair, Pair2, PairRow, Healthy, SumExp, Mul;
    var all, q, kv, s := (r: int) => Sum(m.dims, d => Mul(m.up(r, d), TContext(m, t, shift(r), r, d))),
                         (r: int) => Pair(m.dims, d => Dq(m, r, d), d => t.q(r, d)), (r: int) => KvPair(m, t, r),
                         (r: int) => DSink(m, r) * t.sink;
    forall r | 0 <= r < m.rows ensures all(r) == q(r) + kv(r) + s(r) {
      SumExpAtLeastOne(m, r);
      RowIsAdjoint(m, t, shift(r), r);
    }
    SumAdd3(m.rows, all, q, kv, s);
    QTotal(m, t, q);
    KvTotal(m, t, kv);
  }

  lemma QTotal(m: Attention, t: Tangent, rows: int -> real)
    requires forall r {:trigger rows(r)} :: rows(r) == Pair(m.dims, d => Dq(m, r, d), d => t.q(r, d))
    ensures Sum(m.rows, rows) == Pair2(m.rows, m.dims, (r, d) => Dq(m, r, d), t.q)
  {
    hide Sum, Dq, Pair, PairRow;
    var g := (r: int, d: int) => Dq(m, r, d);
    forall r ensures rows(r) == PairRow(m.dims, g, t.q, r) {
      PairRowForm(m.dims, g, t.q, r, d => Dq(m, r, d), d => t.q(r, d));
    }
    SumEq(m.rows, rows, r => PairRow(m.dims, g, t.q, r));
    Pair2Rows(m.rows, m.dims, g, t.q);
  }

  lemma KvTotal(m: Attention, t: Tangent, rows: int -> real)
    requires forall r {:trigger rows(r)} :: rows(r) == KvPair(m, t, r)
    ensures Sum(m.rows, rows) == Pair2(m.rows, m.dims, (j, d) => Dkv(m, j, d), t.kv)
  {
    hide Sum, SumFrom, KvPair, Pair2, RowShare;
    var term, total := (j: int, d: int, r: int) => RowShare(m, r, j, d), (j: int, d: int) => Dkv(m, j, d);
    forall r | 0 <= r < m.rows ensures rows(r) == Pair2(m.rows, m.dims, (j, d) => term(j, d, r), t.kv) {
      KvPairForm(m, t, r);
      Pair2Eq(m.rows, m.dims, (j, d) => RowShare(m, r, j, d), t.kv, (j, d) => term(j, d, r), t.kv);
    }
    forall j, d ensures total(j, d) == SumFrom(0, m.rows, r => term(j, d, r)) {
      SumFromAll(m.rows, r => term(j, d, r));
      SumEq(m.rows, r => term(j, d, r), r => RowShare(m, r, j, d));
    }
    Pair2OverRows(m.rows, m.rows, m.dims, term, total, t.kv, rows);
  }
}
