/** The reversal of one M2RNN row's readouts on arrays. */
module RnnBackwardRow {
  import opened Sums
  import opened Indices
  import opened Buffers
  import opened RnnModel
  import opened RnnGradient
  import opened RnnKernel

  // ---- readout ----

  lemma SlotOfCell(m: Rnn, h: int, k: int)
    requires 0 <= k < m.keys
    ensures Head(m, CellRow(m, h, k)) == h && Slot(m, CellRow(m, h, k)) == Base(m, h) + k
  {
    DivMod(h, k, m.keys);
  }

  /** The first query slot of head `h`. */
  function Base(m: Rnn, h: int): int { h / m.qkShare * m.keys }

  ghost function UpTerm(m: Rnn, t: int, r: int, j: int): real { Mul(m.up(t, Head(m, r), j), m.query(t, Slot(m, r))) }

  ghost function QueryTerm(m: Rnn, t: int, h: int, k: int, j: int): real {
    Mul(m.up(t, h, j), State(m, t + 1, CellRow(m, h, k), j))
  }

  /** What the first `k` rows of head `h` give query slot `s` in column `j`. */
  ghost function QueryShare(m: Rnn, t: int, h: int, k: int, s: int, j: int): real {
    if 0 <= s - Base(m, h) < k then QueryTerm(m, t, h, s - Base(m, h), j) else 0.0
  }

  /** Row `r` is one of the first `k` rows of head `h`. */
  predicate InHead(m: Rnn, h: int, k: int, r: int) { h * m.keys <= r < h * m.keys + k }

  /** The gradients of the row's readouts, feature `h * vals + j` being column `j` of head `h`. */
  datatype RowUp = RowUp(up: seq<real>) {
    ghost predicate Reads(m: Rnn, t: int) {
      && |up| == m.heads * m.vals
      && forall h, j :: 0 <= h < m.heads && 0 <= j < m.vals ==> up[Feature(m, h, j)] == m.up(t, h, j)
    }

    function At(m: Rnn, ghost t: int, h: int, j: int): (v: real)
      requires Reads(m, t) && 0 <= h < m.heads && 0 <= j < m.vals
      ensures v == m.up(t, h, j)
    {
      up[Feature(m, h, j)]
    }
  }

  function Feature(m: Rnn, h: int, j: int): (f: int)
    ensures 0 <= h < m.heads && 0 <= j < m.vals ==> 0 <= f < m.heads * m.vals
  {
    FlatRange(h, m.heads, j, m.vals);
    h * m.vals + j
  }

  /** Readout entry (h, j): the query's gradient from every key, and the state's. */
  method ReadEntryBack(m: Rnn, t: nat, x: RowIn, up: real, h: nat, j: nat, next: array2<real>, query: array<real>,
                       stateGrad: array2<real>)
    requires x.Reads(m, t) && up == m.up(t, h, j)
    requires h < m.heads && j < m.vals && Holds(m, t + 1, next) && query.Length == Slots(m)
    requires stateGrad.Length0 == Cells(m) && stateGrad.Length1 == m.vals && stateGrad != next
    modifies query, stateGrad
    ensures forall s :: 0 <= s < Slots(m) ==>
              query[s] == old(query[s]) + QueryShare(m, t, h, m.keys, s, j)
    ensures forall r, c :: 0 <= r < Cells(m) && 0 <= c < m.vals ==>
              stateGrad[r, c] == old(stateGrad[r, c])
                                 + if InHead(m, h, m.keys, r) && c == j then UpTerm(m, t, r, j) else 0.0
  {
    hide State, Mul, Head, Slot, QueryTerm, QueryShare, UpTerm, Base, Cells, Slots, CellRow, InHead, RowIn.Reads;
    NoRows(m, t, h, j);
    for k := 0 to m.keys
      invariant Holds(m, t + 1, next)
      invariant forall s :: 0 <= s < Slots(m) ==>
                  query[s] == old(query[s]) + QueryShare(m, t, h, k, s, j)
      invariant forall r, c :: 0 <= r < Cells(m) && 0 <= c < m.vals ==>
                  stateGrad[r, c] == old(stateGrad[r, c])
                                     + if InHead(m, h, k, r) && c == j then UpTerm(m, t, r, j) else 0.0
    {
      var r, s := CellRow(m, h, k), Slot(m, CellRow(m, h, k));
      SlotOfCell(m, h, k);
      EntryForms(m, t, h, k, j);
      QueryShareStep(m, t, h, k, s, j);
      assert Mul(up, next[r, j]) == QueryTerm(m, t, h, k, j);
      AddEntry(query, s, Mul(up, next[r, j]));
      AddCell(stateGrad, r, j, Mul(up, x.Query(m, t, s)));
    }
  }

  lemma NoRows(m: Rnn, t: int, h: int, j: int)
    ensures forall r {:trigger InHead(m, h, 0, r)} :: !InHead(m, h, 0, r)
    ensures forall s {:trigger QueryShare(m, t, h, 0, s, j)} :: QueryShare(m, t, h, 0, s, j) == 0.0
  {
  }

  lemma QueryShareStep(m: Rnn, t: int, h: int, k: nat, slot: int, j: int)
    requires slot == Base(m, h) + k
    ensures forall s {:trigger QueryShare(m, t, h, k + 1, s, j)} ::
              QueryShare(m, t, h, k + 1, s, j)
                == QueryShare(m, t, h, k, s, j) + if s == slot then QueryTerm(m, t, h, k, j) else 0.0
  {
    hide QueryTerm, Base;
  }

  lemma EntryForms(m: Rnn, t: int, h: int, k: nat, j: int)
    requires k < m.keys
    ensures QueryTerm(m, t, h, k, j) == Mul(m.up(t, h, j), State(m, t + 1, CellRow(m, h, k), j))
    ensures UpTerm(m, t, CellRow(m, h, k), j) == Mul(m.up(t, h, j), m.query(t, Slot(m, CellRow(m, h, k))))
    ensures forall r {:trigger InHead(m, h, k + 1, r)} ::
            InHead(m, h, k + 1, r) == (InHead(m, h, k, r) || r == CellRow(m, h, k))
    ensures !InHead(m, h, k, CellRow(m, h, k))
  {
    hide State, Mul, Head, Slot;
    SlotOfCell(m, h, k);
  }

  /** What the first `n` columns of head `h` give the query slots. */
  ghost function HeadQuery(m: Rnn, t: int, h: int, n: int, s: int): real {
    if 0 <= s - Base(m, h) < m.keys then Sum(n, j => QueryTerm(m, t, h, s - Base(m, h), j)) else 0.0
  }

  lemma HeadQueryStep(m: Rnn, t: int, h: int, n: nat)
    ensures forall s :: HeadQuery(m, t, h, n + 1, s)
                     == HeadQuery(m, t, h, n, s)
                        + if 0 <= s - Base(m, h) < m.keys then QueryTerm(m, t, h, s - Base(m, h), n) else 0.0
    ensures forall s :: HeadQuery(m, t, h, 0, s) == 0.0
  {
    hide QueryTerm, Base;
  }

  /** Head `h`'s readout, reversed: query, state, skip weights and, through the skip, the value. */
  method ReadHeadBack(m: Rnn, t: nat, x: RowIn, ups: RowUp, h: nat, next: array2<real>, query: array<real>,
                      stateGrad: array2<real>, skip: array2<real>, value: array2<real>)
    requires x.Reads(m, t) && ups.Reads(m, t)
    requires h < m.heads && Holds(m, t + 1, next) && query.Length == Slots(m)
    requires stateGrad.Length0 == Cells(m) && stateGrad.Length1 == m.vals
    requires skip.Length0 == m.heads && skip.Length1 == m.vals && value.Length0 == m.vHeads && value.Length1 == m.vals
    requires stateGrad !in {next, skip, value} && skip !in {next, value} && value != next
    modifies query, stateGrad, skip, value
    ensures forall s :: 0 <= s < Slots(m) ==> query[s] == old(query[s]) + HeadQuery(m, t, h, m.vals, s)
    ensures forall r, c :: 0 <= r < Cells(m) && 0 <= c < m.vals ==>
              stateGrad[r, c] == old(stateGrad[r, c]) + if InHead(m, h, m.keys, r) then UpTerm(m, t, r, c) else 0.0
    ensures forall i, c :: 0 <= i < m.heads && 0 <= c < m.vals ==>
            skip[i, c] == old(skip[i, c]) + if i == h then SkipTerm(m, h, c, t) else 0.0
    ensures forall s, c :: 0 <= s < m.vHeads && 0 <= c < m.vals ==>
              value[s, c] == old(value[s, c]) + if s == VHead(m, h) then Mul(m.up(t, h, c), m.skip(h, c)) else 0.0
  {
    hide State, Mul, Head, VHead, QueryTerm, UpTerm, Base, Cells, Slots, InHead, HeadQuery, SkipTerm, RowIn.Reads,
         RowUp.Reads;
    HeadQueryStep(m, t, h, 0);
    for j := 0 to m.vals
      invariant Holds(m, t + 1, next)
      invariant forall s :: 0 <= s < Slots(m) ==> query[s] == old(query[s]) + HeadQuery(m, t, h, j, s)
      invariant forall r, c :: 0 <= r < Cells(m) && 0 <= c < m.vals ==>
                  stateGrad[r, c] == old(stateGrad[r, c])
                                     + if InHead(m, h, m.keys, r) && c < j then UpTerm(m, t, r, c) else 0.0
      invariant forall i, c :: 0 <= i < m.heads && 0 <= c < m.vals ==>
                  skip[i, c] == old(skip[i, c]) + if i == h && c < j then SkipTerm(m, h, c, t) else 0.0
      invariant forall s, c :: 0 <= s < m.vHeads && 0 <= c < m.vals ==>
                  value[s, c] == old(value[s, c])
                                 + if s == VHead(m, h) && c < j then Mul(m.up(t, h, c), m.skip(h, c)) else 0.0
    {
      HeadQueryStep(m, t, h, j);
      SkipForm(m, t, h, j);
      var up := ups.At(m, t, h, j);
      AddCell(skip, h, j, Mul(up, x.Value(m, t, VHead(m, h), j)));
      AddCell(value, VHead(m, h), j, Mul(up, m.skip(h, j)));
      ReadEntryBack(m, t, x, up, h, j, next, query, stateGrad);
    }
  }

  lemma SkipForm(m: Rnn, t: int, h: int, j: int)
    ensures SkipTerm(m, h, j, t) == Mul(m.up(t, h, j), m.value(t, VHead(m, h), j))
  {
  }

  // ---- every head's readout ----

  ghost function QueryUpto(m: Rnn, t: int, h: int, s: int): real { Sum(h, x => HeadQuery(m, t, x, m.vals, s)) }

  ghost function ValueUpto(m: Rnn, t: int, h: int, s: int, j: int): real {
    Keyed(h, x => VHead(m, x), x => Mul(m.up(t, x, j), m.skip(x, j)), s)
  }

  /** The rows of heads before `h` have what their readouts want; the others only what later rows want. */
  ghost function StateUpto(m: Rnn, t: int, h: int, r: int, j: int): real {
    StateGrad(m, t + 1, r, j) + if r < h * m.keys then UpTerm(m, t, r, j) else 0.0
  }

  lemma ReadSteps(m: Rnn, t: int, h: nat)
    ensures forall s :: QueryUpto(m, t, h + 1, s) == QueryUpto(m, t, h, s) + HeadQuery(m, t, h, m.vals, s)
    ensures forall s, j ::
              ValueUpto(m, t, h + 1, s, j)
              == ValueUpto(m, t, h, s, j) + if s == VHead(m, h) then Mul(m.up(t, h, j), m.skip(h, j)) else 0.0
    ensures forall r, j :: 0 <= r ==>
            StateUpto(m, t, h + 1, r, j)
            == StateUpto(m, t, h, r, j) + if InHead(m, h, m.keys, r) then UpTerm(m, t, r, j) else 0.0
    ensures h == 0 ==> forall s :: QueryUpto(m, t, 0, s) == 0.0
    ensures h == 0 ==> forall s, j :: ValueUpto(m, t, 0, s, j) == 0.0
    ensures h == 0 ==> forall r, j :: 0 <= r ==> StateUpto(m, t, 0, r, j) == StateGrad(m, t + 1, r, j)
  {
    hide HeadQuery, VHead, Mul, UpTerm, StateGrad;
    assert (h + 1) * m.keys == h * m.keys + m.keys;
  }

  /** Every slot's contributions, head by head, are its contributions row by row. */
  lemma QueryAll(m: Rnn, t: int, s: int)
    ensures QueryUpto(m, t, m.heads, s) == QueryGrad(m, t, s)
  {
    hide Sum, QueryRow, HeadQuery, Slot;
    var key, w := (r: int) => Slot(m, r), (r: int) => QueryRow(m, t, r);
    var f := (i: int) => if key(i) == s then w(i) else 0.0;
    assert QueryGrad(m, t, s) == Keyed(Cells(m), key, w, s);
    SumFlatten(m.heads, m.keys, f);
    var heads := (h: int) => Sum(m.keys, k => f(h * m.keys + k));
    forall h ensures heads(h) == HeadQuery(m, t, h, m.vals, s) {
      QueryHead(m, t, h, s, k => f(h * m.keys + k));
    }
    SumEq(m.heads, heads, h => HeadQuery(m, t, h, m.vals, s));
  }

  lemma QueryHead(m: Rnn, t: int, h: int, s: int, cells: int -> real)
    requires forall k {:trigger cells(k)} ::
             cells(k) == if Slot(m, h * m.keys + k) == s then QueryRow(m, t, h * m.keys + k) else 0.0
    ensures Sum(m.keys, cells) == HeadQuery(m, t, h, m.vals, s)
  {
    hide Sum, QueryRow, QueryTerm, Slot, Base;
    forall k | 0 <= k < m.keys
      ensures cells(k) == if k == s - Base(m, h) then QueryRow(m, t, CellRow(m, h, k)) else 0.0
    {
      SlotOfCell(m, h, k);
    }
    SumDelta(m.keys, s - Base(m, h), cells);
    if 0 <= s - Base(m, h) < m.keys {
      QueryRowForm(m, t, h, s - Base(m, h));
    }
  }

  lemma QueryRowForm(m: Rnn, t: int, h: int, k: int)
    requires 0 <= k < m.keys
    ensures QueryRow(m, t, CellRow(m, h, k)) == Sum(m.vals, j => QueryTerm(m, t, h, k, j))
  {
    hide Sum, State, Mul, CellRow, Head;
    SlotOfCell(m, h, k);
    SumEq(m.vals, j => Mul(m.up(t, Head(m, CellRow(m, h, k)), j), State(m, t + 1, CellRow(m, h, k), j)),
          j => QueryTerm(m, t, h, k, j));
  }

  lemma ReadTotals(m: Rnn, t: int)
    ensures forall s :: QueryUpto(m, t, m.heads, s) == QueryGrad(m, t, s)
    ensures forall s, j :: ValueUpto(m, t, m.heads, s, j) == SkipValueGrad(m, t, s, j)
    ensures forall r, j :: r < Cells(m) ==> StateUpto(m, t, m.heads, r, j) == Full(m, t, r, j)
  {
    hide QueryUpto, QueryGrad, VHead, Mul, StateGrad;
    forall s ensures QueryUpto(m, t, m.heads, s) == QueryGrad(m, t, s) {
      QueryAll(m, t, s);
    }
  }

  lemma SkipTotals(m: Rnn, t: int)
    requires t < m.rows
    ensures forall h, j :: SkipGrad(m, t, h, j) == SkipGrad(m, t + 1, h, j) + SkipTerm(m, h, j, t)
  {
    hide SkipTerm;
  }

  /** The readouts of row `t`, reversed: `stateGrad` takes the carried cotangent to the full one. */
  method ReadBack(m: Rnn, t: nat, x: RowIn, ups: RowUp, next: array2<real>, query: array<real>,
                  stateGrad: array2<real>, skip: array2<real>, value: array2<real>)
    requires x.Reads(m, t) && ups.Reads(m, t)
    requires t < m.rows && Holds(m, t + 1, next) && Vector(query, Slots(m), s => 0.0)
             && Matrix(value, m.vHeads, m.vals, (s, j) => 0.0)
    requires Matrix(stateGrad, Cells(m), m.vals, (r, j) => StateGrad(m, t + 1, r, j))
    requires Matrix(skip, m.heads, m.vals, (h, j) => SkipGrad(m, t + 1, h, j))
    requires stateGrad !in {next, skip, value} && skip !in {next, value} && value != next
    modifies query, stateGrad, skip, value
    ensures Vector(query, Slots(m), s => QueryGrad(m, t, s))
            && Matrix(value, m.vHeads, m.vals, (s, j) => SkipValueGrad(m, t, s, j))
    ensures Matrix(stateGrad, Cells(m), m.vals, (r, j) => Full(m, t, r, j))
    ensures Matrix(skip, m.heads, m.vals, (h, j) => SkipGrad(m, t, h, j))
  {
    hide Holds, QueryUpto, ValueUpto, StateUpto, HeadQuery, UpTerm, SkipTerm, VHead, InHead, Mul, Cells, Slots,
         QueryGrad, SkipValueGrad, Full, SkipGrad, StateGrad, RowIn.Reads, RowUp.Reads;
    ReadSteps(m, t, 0);
    for h := 0 to m.heads
      invariant Holds(m, t + 1, next)
      invariant Vector(query, Slots(m), s => QueryUpto(m, t, h, s))
      invariant Matrix(value, m.vHeads, m.vals, (s, j) => ValueUpto(m, t, h, s, j))
      invariant Matrix(stateGrad, Cells(m), m.vals, (r, j) => StateUpto(m, t, h, r, j))
      invariant Matrix(skip, m.heads, m.vals, (i, j) => SkipGrad(m, t + 1, i, j) + if i < h then SkipTerm(m, i, j, t)
                       else 0.0)
    {
      ReadSteps(m, t, h);
      ReadHeadBack(m, t, x, ups, h, next, query, stateGrad, skip, value);
    }
    ReadTotals(m, t);
    SkipTotals(m, t);
  }
}
