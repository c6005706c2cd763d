/** The attention layer's whole backward: first the attention of all rows, then, from the prepared values' gradients,
    the query and key-value projections of all rows.  Each phase takes the rows in any order, and each row its pairs. */
module AttentionTraining {
  import opened Sums
  import opened Buffers
  import opened AnyOrder
  import opened AttentionLayer
  import opened AttentionLayerAdjoint
  import opened AttentionLayerBackward
  import RotaryKernel
  import R = RotaryProjection

  /** The order in which row `r`'s query pairs, or its key-value pairs, are taken. */
  type Orders = (int, bool) -> seq<int>

  ghost predicate Orderly(b: Layer, pairs: Orders) {
    forall r, kv :: 0 <= r < b.rows ==> Permutation(pairs(r, kv), R.Pairs(Side(b, kv)))
  }

  // ---- the projections' buffers ----

  datatype Projections = Projections(qW: array2<real>, kvW: array2<real>, hidden: array2<real>, freq: array<real>) {
    ghost function Repr(): set<object> { {qW, kvW, hidden, freq} }

    ghost predicate Apart() { qW != kvW && hidden !in {qW, kvW} }

    ghost predicate Fits(b: Layer) {
      && qW.Length0 == Wide(b) && qW.Length1 == b.width && kvW.Length0 == Wide(b) && kvW.Length1 == b.width
      && hidden.Length0 == b.rows && hidden.Length1 == b.width && freq.Length == b.half
    }

    /** The first `n` rows of `order` have been reversed. */
    ghost predicate Done(b: Layer, order: seq<int>, n: int)
      requires 0 <= n <= |order|
      reads Repr()
    {
      && Fits(b)
      && (forall p, i :: 0 <= p < Wide(b) && 0 <= i < b.width ==> qW[p, i] == WeightUpto(b, false, order, n, p, i))
      && (forall p, i :: 0 <= p < Wide(b) && 0 <= i < b.width ==> kvW[p, i] == WeightUpto(b, true, order, n, p, i))
      && (forall r, i :: 0 <= r < b.rows && 0 <= i < b.width && r in order[..n] ==> hidden[r, i] == HiddenGrad(b, r, i))
      && (forall e :: 0 <= e < b.half ==> freq[e] == TurnUpto(b, order, n, e))
    }

    /** All rows have been reversed. */
    ghost predicate Holds(b: Layer)
      reads Repr()
    {
      && Matrix(qW, Wide(b), b.width, (p, i) => SideW(b, false, p, i))
      && Matrix(kvW, Wide(b), b.width, (p, i) => SideW(b, true, p, i))
      && Matrix(hidden, b.rows, b.width, (r, i) => HiddenGrad(b, r, i)) && Vector(freq, b.half, e => FreqGrad(b, e))
    }
  }

  ghost function RowW(b: Layer, kv: bool, p: int, i: int, r: int): real {
    R.WTerm(Side(b, kv), Prepared(b, kv), p, i, r)
  }

  ghost function RowFreq(b: Layer, kv: bool, e: int, r: int): real { R.FreqTerm(Side(b, kv), Prepared(b, kv), e, r) }

  ghost function WeightUpto(b: Layer, kv: bool, order: seq<int>, n: int, p: int, i: int): real
    requires 0 <= n <= |order|
  {
    SeqSum(order[..n], r => RowW(b, kv, p, i, r))
  }

  ghost function TurnUpto(b: Layer, order: seq<int>, n: int, e: int): real
    requires 0 <= n <= |order|
  {
    SeqSum(order[..n], r => RowFreq(b, false, e, r)) + SeqSum(order[..n], r => RowFreq(b, true, e, r))
  }

  lemma RowSteps(b: Layer, order: seq<int>, n: nat)
    requires n < |order|
    ensures forall kv, p, i {:trigger WeightUpto(b, kv, order, n + 1, p, i)} ::
              WeightUpto(b, kv, order, n + 1, p, i) == WeightUpto(b, kv, order, n, p, i) + RowW(b, kv, p, i, order[n])
    ensures forall e {:trigger TurnUpto(b, order, n + 1, e)} ::
              TurnUpto(b, order, n + 1, e)
              == TurnUpto(b, order, n, e) + RowFreq(b, false, e, order[n]) + RowFreq(b, true, e, order[n])
    ensures order[..n + 1] == order[..n] + [order[n]]
  {
    hide RowW, RowFreq, SeqSum;
    forall kv, p, i
      ensures WeightUpto(b, kv, order, n + 1, p, i) == WeightUpto(b, kv, order, n, p, i) + RowW(b, kv, p, i, order[n])
    {
      TermStep(order, n, r => RowW(b, kv, p, i, r));
    }
    forall e
      ensures TurnUpto(b, order, n + 1, e)
              == TurnUpto(b, order, n, e) + RowFreq(b, false, e, order[n]) + RowFreq(b, true, e, order[n])
    {
      TermStep(order, n, r => RowFreq(b, false, e, r));
      TermStep(order, n, r => RowFreq(b, true, e, r));
    }
  }

  lemma RowsStart(b: Layer, order: seq<int>)
    ensures forall kv, p, i :: WeightUpto(b, kv, order, 0, p, i) == 0.0
    ensures forall e :: TurnUpto(b, order, 0, e) == 0.0
  {
    hide RowW, RowFreq;
  }

  lemma RowsEnd(b: Layer, order: seq<int>)
    requires Permutation(order, b.rows)
    ensures forall kv, p, i {:trigger WeightUpto(b, kv, order, |order|, p, i)} ::
              WeightUpto(b, kv, order, |order|, p, i) == SideW(b, kv, p, i)
    ensures forall e {:trigger TurnUpto(b, order, |order|, e)} :: TurnUpto(b, order, |order|, e) == FreqGrad(b, e)
    ensures forall r :: 0 <= r < b.rows ==> r in order[..|order|]
  {
    hide R.WTerm, R.FreqTerm, SeqSum, Sum, Permutation, Prepared;
    assert order[..|order|] == order;
    forall kv, p, i ensures WeightUpto(b, kv, order, |order|, p, i) == SideW(b, kv, p, i) {
      var f := (r: int) => RowW(b, kv, p, i, r);
      SumAnyOrder(order, b.rows, f);
      SumEq(b.rows, f, r => R.WTerm(Side(b, kv), Prepared(b, kv), p, i, r));
    }
    forall e ensures TurnUpto(b, order, |order|, e) == FreqGrad(b, e) {
      SideFreqEnd(b, order, false, e);
      SideFreqEnd(b, order, true, e);
    }
    forall r | 0 <= r < b.rows ensures r in order[..|order|] {
      VisitsAll(order, b.rows, r);
    }
  }

  lemma SideFreqEnd(b: Layer, order: seq<int>, kv: bool, e: int)
    requires Permutation(order, b.rows)
    ensures SeqSum(order, r => RowFreq(b, kv, e, r)) == SideFreq(b, kv, e)
  {
    hide R.FreqTerm, SeqSum, Sum, Permutation, Prepared;
    var f := (r: int) => RowFreq(b, kv, e, r);
    SumAnyOrder(order, b.rows, f);
    SumEq(b.rows, f, r => R.FreqTerm(Side(b, kv), Prepared(b, kv), e, r));
  }

  // ---- one row ----

  method ClearRow(hidden: array2<real>, r: nat)
    requires r < hidden.Length0
    modifies hidden
    ensures forall q, i :: 0 <= q < hidden.Length0 && 0 <= i < hidden.Length1 ==>
              hidden[q, i] == if q == r then 0.0 else old(hidden[q, i])
  {
    for i := 0 to hidden.Length1
      invariant forall q, k :: 0 <= q < hidden.Length0 && 0 <= k < hidden.Length1 ==>
                  hidden[q, k] == if q == r && k < i then 0.0 else old(hidden[q, k])
    {
      hidden[r, i] := 0.0;
    }
  }

  /** Both projections of row `r`, reversed. */
  method ProjectRow(b: Layer, r: nat, pairs: Orders, dq: array2<real>, dkv: array2<real>, to: Projections)
    requires r < b.rows && Orderly(b, pairs) && to.Fits(b) && to.Apart() && to.Repr() !! {dq, dkv}
    requires Matrix(dq, b.rows, Wide(b), Prepared(b, false)) && Matrix(dkv, b.rows, Wide(b), Prepared(b, true))
    modifies to.qW, to.kvW, to.hidden, to.freq
    ensures forall p, i :: 0 <= p < Wide(b) && 0 <= i < b.width ==>
              to.qW[p, i] == old(to.qW[p, i]) + RowW(b, false, p, i, r)
    ensures forall p, i :: 0 <= p < Wide(b) && 0 <= i < b.width ==>
              to.kvW[p, i] == old(to.kvW[p, i]) + RowW(b, true, p, i, r)
    ensures forall q, i :: 0 <= q < b.rows && 0 <= i < b.width ==>
              to.hidden[q, i] == if q == r then HiddenGrad(b, r, i) else old(to.hidden[q, i])
    ensures forall e :: 0 <= e < b.half ==>
              to.freq[e] == old(to.freq[e]) + RowFreq(b, false, e, r) + RowFreq(b, true, e, r)
  {
    hide Prepared, R.WTerm, R.FreqTerm, R.HiddenGrad, R.Pairs, Permutation;
    ClearRow(to.hidden, r);
    RotaryKernel.SideRow(Side(b, false), Prepared(b, false), r, pairs(r, false), dq, to.qW, to.hidden, to.freq);
    RotaryKernel.SideRow(Side(b, true), Prepared(b, true), r, pairs(r, true), dkv, to.kvW, to.hidden, to.freq);
  }

  method Start(b: Layer, ghost order: seq<int>) returns (to: Projections)
    ensures fresh(to.Repr()) && to.Apart() && to.Done(b, order, 0)
  {
    hide WeightUpto, TurnUpto, HiddenGrad, Wide;
    RowsStart(b, order);
    var qW := ZeroMatrix(Wide(b), b.width);
    var kvW := ZeroMatrix(Wide(b), b.width);
    var hidden := ZeroMatrix(b.rows, b.width);
    var freq := ZeroVector(b.half);
    to := Projections(qW, kvW, hidden, freq);
  }

  method RowStep(b: Layer, order: seq<int>, n: nat, pairs: Orders, dq: array2<real>, dkv: array2<real>,
                 to: Projections)
    requires n < |order| && 0 <= order[n] < b.rows && Orderly(b, pairs) && to.Apart() && to.Repr() !! {dq, dkv}
    requires Matrix(dq, b.rows, Wide(b), Prepared(b, false)) && Matrix(dkv, b.rows, Wide(b), Prepared(b, true))
    requires to.Done(b, order, n)
    modifies to.qW, to.kvW, to.hidden, to.freq
    ensures to.Done(b, order, n + 1)
  {
    hide Orderly, Prepared, RowW, RowFreq, WeightUpto, TurnUpto, HiddenGrad, Wide, Matrix;
    RowSteps(b, order, n);
    ProjectRow(b, order[n], pairs, dq, dkv, to);
  }

  lemma Finished(b: Layer, order: seq<int>, to: Projections)
    requires Permutation(order, b.rows) && to.Done(b, order, |order|)
    ensures to.Holds(b)
  {
    hide Permutation, WeightUpto, TurnUpto, HiddenGrad, FreqGrad, SideW, Wide;
    RowsEnd(b, order);
  }

  /** The projections of all rows, reversed. */
  method ProjectionsBack(b: Layer, order: seq<int>, pairs: Orders, dq: array2<real>, dkv: array2<real>)
    returns (to: Projections)
    requires Permutation(order, b.rows) && Orderly(b, pairs)
    requires Matrix(dq, b.rows, Wide(b), Prepared(b, false)) && Matrix(dkv, b.rows, Wide(b), Prepared(b, true))
    ensures fresh(to.Repr()) && to.Holds(b)
  {
    hide Permutation, Orderly, Prepared, Projections.Done, Projections.Holds, Wide, Matrix;
    to := Start(b, order);
    for n := 0 to |order|
      invariant to.Done(b, order, n)
    {
      InRange(order, b.rows, n);
      RowStep(b, order, n, pairs, dq, dkv, to);
    }
    Finished(b, order, to);
  }

  /** The whole backward, in any orders: the gradients of the hidden rows, of the three weight matrices and of the
      frequencies end as the functions `LayerIsAdjoint` speaks of. */
  method Backward(b: Layer, rows: seq<int>, again: seq<int>, pairs: Orders)
    returns (to: Projections, outW: array2<real>)
    requires AllHealthy(b) && Permutation(rows, b.rows) && Permutation(again, b.rows) && Orderly(b, pairs)
    ensures to.Holds(b) && Matrix(outW, b.width, Wide(b), (o, p) => OutWGrad(b, o, p))
  {
    hide AllHealthy, Permutation, Orderly, Prepared, Projections.Holds, Wide, Matrix;
    var dq, dkv;
    dq, dkv, outW := AttentionBack(b, rows);
    to := ProjectionsBack(b, again, pairs, dq, dkv);
  }
}
