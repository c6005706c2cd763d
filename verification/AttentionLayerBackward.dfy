/** The attention layer's backward up to the prepared values: for every row and head the statistics, the gradient of
    the context through the output projection, and the scatter over the window.  Rows are taken in any order. */
module AttentionLayerBackward {
  import opened Sums
  import opened Buffers
  import opened AnyOrder
  import opened AttentionModel
  import opened AttentionKernel
  import opened AttentionBackward
  import opened AttentionLayer
  import opened AttentionLayerAdjoint
  import opened AttentionLayerForward
  import A = AttentionAdjoint
  import S = AttentionScatter

  // ---- one head of one row ----

  /** Component `c` of head `h`: the context's gradient, and its column of the output weights' gradient. */
  method OutColumn(b: Layer, r: nat, p: nat, context: real, outW: array2<real>) returns (up: real)
    requires r < b.rows && p < Wide(b) && context == Context(b, r, p)
    requires outW.Length0 == b.width && outW.Length1 == Wide(b)
    modifies outW
    ensures up == ContextUp(b, r, p)
    ensures forall o, q :: 0 <= o < b.width && 0 <= q < Wide(b) ==>
              outW[o, q] == old(outW[o, q]) + if q == p then OutWTerm(b, o, p, r) else 0.0
  {
    hide Context, Mul, Wide;
    up := 0.0;
    for o := 0 to b.width
      invariant up == Sum(o, i => Mul(b.up(r, i), b.outW(i, p)))
      invariant forall i, q :: 0 <= i < b.width && 0 <= q < Wide(b) ==>
                  outW[i, q] == old(outW[i, q]) + if q == p && i < o then OutWTerm(b, i, p, r) else 0.0
    {
      up := up + Mul(b.up(r, o), b.outW(o, p));
      AddCell(outW, o, p, Mul(b.up(r, o), context));
    }
  }

  lemma HeadContext(b: Layer, h: int, r: int, c: int)
    requires 0 <= c < Dims(b)
    ensures Context(b, r, h * Dims(b) + c) == A.Context(Head(b, h), r, c)
    ensures Head(b, h).up(r, c) == ContextUp(b, r, h * Dims(b) + c) && Head(b, h).dims == Dims(b)
  {
    hide A.Context, ContextUp;
    ColumnOf(b, h, c);
  }

  /** Head `h`'s context gradient. */
  method OutHead(b: Layer, h: nat, r: nat, m: Attention, indices: array2<int>, weights: array<real>, sumexp: real,
                 outW: array2<real>)
    returns (up: array<real>)
    requires h < b.heads && r < b.rows && m == Head(b, h) && Healthy(m) && Table(m, indices)
    requires Vector(weights, m.slots, k => Weight(m, r, k)) && sumexp == SumExp(m, r)
    requires outW.Length0 == b.width && outW.Length1 == Wide(b)
    modifies outW
    ensures fresh(up) && Vector(up, m.dims, d => m.up(r, d))
    ensures forall o, p :: 0 <= o < b.width && 0 <= p < Wide(b) ==>
              outW[o, p] == old(outW[o, p]) + if InHead(b, h, p) then OutWTerm(b, o, p, r) else 0.0
  {
    hide Healthy, Table, Weight, SumExp, A.Context, ContextUp, Context, OutWTerm, Wide, Dims;
    HeadColumns(b, h);
    HeadSizes(b, h);
    up := new real[Dims(b)];
    for c := 0 to Dims(b)
      invariant forall d :: 0 <= d < c ==> up[d] == m.up(r, d)
      invariant forall o, p :: 0 <= o < b.width && 0 <= p < Wide(b) ==>
                  outW[o, p] == old(outW[o, p])
                                + if h * Dims(b) <= p < h * Dims(b) + c then OutWTerm(b, o, p, r) else 0.0
      invariant Table(m, indices) && Vector(weights, m.slots, k => Weight(m, r, k))
    {
      HeadContext(b, h, r, c);
      var context := ContextBack(m, r, c, indices, weights, sumexp);
      up[c] := OutColumn(b, r, h * Dims(b) + c, context, outW);
    }
  }

  /** What row `r` adds to column `p` of key-value row `j`. */
  ghost function ShareAt(b: Layer, r: int, j: int, p: int): real {
    S.RowShare(Head(b, p / Dims(b)), r, j, p % Dims(b))
  }

  lemma HeadForms(b: Layer, h: int, r: int)
    ensures forall p {:trigger InHead(b, h, p)} :: InHead(b, h, p) ==>
            Prepared(b, false)(r, p) == A.Dq(Head(b, h), r, p - h * Dims(b))
    ensures forall j, p {:trigger ShareAt(b, r, j, p)} :: InHead(b, h, p) ==>
            ShareAt(b, r, j, p) == S.RowShare(Head(b, h), r, j, p - h * Dims(b))
  {
    hide A.Dq, S.RowShare, Head, InHead, Dims;
    HeadColumns(b, h);
  }

  /** Head `h` of row `r`, reversed. */
  method HeadBack(b: Layer, h: nat, r: nat, indices: array2<int>, dq: array2<real>, dkv: array2<real>,
                  outW: array2<real>)
    requires h < b.heads && r < b.rows && Healthy(Head(b, h)) && Table(Head(b, h), indices)
    requires dq.Length0 == b.rows && dq.Length1 == Wide(b) && dkv.Length0 == b.rows && dkv.Length1 == Wide(b)
    requires outW.Length0 == b.width && outW.Length1 == Wide(b) && dq != dkv && outW !in {dq, dkv}
    modifies dq, dkv, outW
    ensures forall q, p :: 0 <= q < b.rows && 0 <= p < Wide(b) ==>
              dq[q, p] == if q == r && InHead(b, h, p) then Prepared(b, false)(r, p) else old(dq[q, p])
    ensures forall j, p :: 0 <= j < b.rows && 0 <= p < Wide(b) ==>
              dkv[j, p] == old(dkv[j, p]) + if InHead(b, h, p) then ShareAt(b, r, j, p) else 0.0
    ensures forall o, p :: 0 <= o < b.width && 0 <= p < Wide(b) ==>
              outW[o, p] == old(outW[o, p]) + if InHead(b, h, p) then OutWTerm(b, o, p, r) else 0.0
  {
    hide Healthy, Table, Q, Weight, SumExp, Row.Holds, A.Dq, S.RowShare, ShareAt, Prepared, OutWTerm, Head, Wide, Dims;
    HeadColumns(b, h);
    HeadSizes(b, h);
    HeadForms(b, h, r);
    var m := Head(b, h);
    var q := Dequantise(m, r);
    var weights, sumexp := WeighBackward(m, r, indices, q);
    var up := OutHead(b, h, r, m, indices, weights, sumexp, outW);
    var row := Statistics(m, r, indices, q, weights, sumexp, up);
    RowBack(m, r, h * Dims(b), indices, row, dq, dkv);
  }

  // ---- one row ----

  /** All heads of row `r`. */
  method HeadsBack(b: Layer, r: nat, indices: array2<int>, dq: array2<real>, dkv: array2<real>, outW: array2<real>)
    requires r < b.rows && AllHealthy(b) && forall h :: 0 <= h < b.heads ==> Table(Head(b, h), indices)
    requires dq.Length0 == b.rows && dq.Length1 == Wide(b) && dkv.Length0 == b.rows && dkv.Length1 == Wide(b)
    requires outW.Length0 == b.width && outW.Length1 == Wide(b) && dq != dkv && outW !in {dq, dkv}
    modifies dq, dkv, outW
    ensures forall q, p :: 0 <= q < b.rows && 0 <= p < Wide(b) ==>
              dq[q, p] == if q == r then Prepared(b, false)(r, p) else old(dq[q, p])
    ensures forall j, p :: 0 <= j < b.rows && 0 <= p < Wide(b) ==> dkv[j, p] == old(dkv[j, p]) + ShareAt(b, r, j, p)
    ensures forall o, p :: 0 <= o < b.width && 0 <= p < Wide(b) ==>
              outW[o, p] == old(outW[o, p]) + OutWTerm(b, o, p, r)
  {
    hide Healthy, Table, ShareAt, Prepared, OutWTerm, Head, Dims, InHead;
    assert 0 * Dims(b) == 0;
    for h := 0 to b.heads
      invariant forall q, p :: 0 <= q < b.rows && 0 <= p < Wide(b) ==>
                  dq[q, p] == if q == r && p < h * Dims(b) then Prepared(b, false)(r, p) else old(dq[q, p])
      invariant forall j, p :: 0 <= j < b.rows && 0 <= p < Wide(b) ==>
                  dkv[j, p] == old(dkv[j, p]) + if p < h * Dims(b) then ShareAt(b, r, j, p) else 0.0
      invariant forall o, p :: 0 <= o < b.width && 0 <= p < Wide(b) ==>
                  outW[o, p] == old(outW[o, p]) + if p < h * Dims(b) then OutWTerm(b, o, p, r) else 0.0
    {
      HeadSteps(b, h);
      HeadBack(b, h, r, indices, dq, dkv, outW);
    }
  }

  // ---- all rows, in any order ----

  /** What the first `n` rows of `order` have added. */
  ghost function KvUpto(b: Layer, order: seq<int>, n: int, j: int, p: int): real
    requires 0 <= n <= |order|
  {
    SeqSum(order[..n], r => ShareAt(b, r, j, p))
  }

  ghost function OutUpto(b: Layer, order: seq<int>, n: int, o: int, p: int): real
    requires 0 <= n <= |order|
  {
    SeqSum(order[..n], r => OutWTerm(b, o, p, r))
  }

  lemma OrderSteps(b: Layer, order: seq<int>, n: nat)
    requires n < |order|
    ensures forall j, p {:trigger KvUpto(b, order, n + 1, j, p)} ::
              KvUpto(b, order, n + 1, j, p) == KvUpto(b, order, n, j, p) + ShareAt(b, order[n], j, p)
    ensures forall o, p {:trigger OutUpto(b, order, n + 1, o, p)} ::
              OutUpto(b, order, n + 1, o, p) == OutUpto(b, order, n, o, p) + OutWTerm(b, o, p, order[n])
    ensures order[..n + 1] == order[..n] + [order[n]]
  {
    hide ShareAt, OutWTerm, SeqSum;
    forall j, p ensures KvUpto(b, order, n + 1, j, p) == KvUpto(b, order, n, j, p) + ShareAt(b, order[n], j, p) {
      TermStep(order, n, r => ShareAt(b, r, j, p));
    }
    forall o, p ensures OutUpto(b, order, n + 1, o, p) == OutUpto(b, order, n, o, p) + OutWTerm(b, o, p, order[n]) {
      TermStep(order, n, r => OutWTerm(b, o, p, r));
    }
  }

  lemma OrderStart(b: Layer, order: seq<int>)
    ensures forall j, p :: KvUpto(b, order, 0, j, p) == 0.0
    ensures forall o, p :: OutUpto(b, order, 0, o, p) == 0.0
  {
  }

  lemma OrderEnd(b: Layer, order: seq<int>)
    requires Permutation(order, b.rows)
    ensures forall j, p {:trigger KvUpto(b, order, |order|, j, p)} ::
              KvUpto(b, order, |order|, j, p) == Prepared(b, true)(j, p)
    ensures forall o, p {:trigger OutUpto(b, order, |order|, o, p)} ::
              OutUpto(b, order, |order|, o, p) == OutWGrad(b, o, p)
    ensures forall r :: 0 <= r < b.rows ==> r in order[..|order|]
  {
    hide ShareAt, OutWTerm, SeqSum, Sum, Permutation, S.Dkv;
    assert order[..|order|] == order;
    forall j, p ensures KvUpto(b, order, |order|, j, p) == Prepared(b, true)(j, p) {
      SumAnyOrder(order, b.rows, r => ShareAt(b, r, j, p));
      KvForm(b, j, p, r => ShareAt(b, r, j, p));
    }
    forall o, p ensures OutUpto(b, order, |order|, o, p) == OutWGrad(b, o, p) {
      SumAnyOrder(order, b.rows, r => OutWTerm(b, o, p, r));
    }
    forall r | 0 <= r < b.rows ensures r in order[..|order|] {
      VisitsAll(order, b.rows, r);
    }
  }

  lemma KvForm(b: Layer, j: int, p: int, shares: int -> real)
    requires forall r {:trigger shares(r)} :: shares(r) == ShareAt(b, r, j, p)
    ensures Prepared(b, true)(j, p) == Sum(b.rows, shares)
  {
    hide Sum, S.RowShare, ContextUp;
    SumEq(b.rows, shares, r => S.RowShare(Head(b, p / Dims(b)), r, j, p % Dims(b)));
  }

  /** The attention of all rows and heads, reversed over zeroed gradients, the rows in any order: the prepared queries'
      and key-values' gradients, and the output weights'. */
  method AttentionBack(b: Layer, order: seq<int>) returns (dq: array2<real>, dkv: array2<real>, outW: array2<real>)
    requires AllHealthy(b) && Permutation(order, b.rows)
    ensures fresh({dq, dkv, outW}) && Matrix(dq, b.rows, Wide(b), Prepared(b, false))
    ensures Matrix(dkv, b.rows, Wide(b), Prepared(b, true))
    ensures Matrix(outW, b.width, Wide(b), (o, p) => OutWGrad(b, o, p))
  {
    hide AllHealthy, Permutation, Table, SeqSum, ShareAt, OutWTerm, KvUpto, OutUpto, OutWGrad, Prepared, Head, Wide;
    var indices := Tables(b);
    dq := ZeroMatrix(b.rows, Wide(b));
    dkv := ZeroMatrix(b.rows, Wide(b));
    outW := ZeroMatrix(b.width, Wide(b));
    OrderStart(b, order);
    for n := 0 to |order|
      invariant forall h :: 0 <= h < b.heads ==> Table(Head(b, h), indices)
      invariant forall r, p :: 0 <= r < b.rows && 0 <= p < Wide(b) && r in order[..n] ==>
                  dq[r, p] == Prepared(b, false)(r, p)
      invariant forall j, p :: 0 <= j < b.rows && 0 <= p < Wide(b) ==> dkv[j, p] == KvUpto(b, order, n, j, p)
      invariant forall o, p :: 0 <= o < b.width && 0 <= p < Wide(b) ==> outW[o, p] == OutUpto(b, order, n, o, p)
    {
      InRange(order, b.rows, n);
      OrderSteps(b, order, n);
      HeadsBack(b, order[n], indices, dq, dkv, outW);
    }
    OrderEnd(b, order);
  }
}
