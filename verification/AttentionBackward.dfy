/** The backward kernel of one head and row of sparse attention: the row sets its query gradient and adds to the
    key-value gradients of its window. */
module AttentionBackward {
  import opened Sums
  import opened Buffers
  import opened AttentionModel
  import opened AttentionAdjoint
  import opened AttentionScatter
  import opened AttentionKernel

  function Floored(z: real): real { if z > 0.00000000000000000001 then z else 0.00000000000000000001 }

  /** The guarded quotients are the probabilities: neither the guard nor the floor is ever in force. */
  lemma GuardsAreIdle(m: Attention, r: nat, k: int)
    requires Healthy(m) && r < m.rows
    ensures SumExp(m, r) > 0.0 && Floored(SumExp(m, r)) == SumExp(m, r)
    ensures Weight(m, r, k) / Floored(SumExp(m, r)) == P(m, r, k) && Weight(m, r, k) / SumExp(m, r) == P(m, r, k)
  {
    hide Healthy, Weight, SumExp;
    SumExpAtLeastOne(m, r);
  }

  method Dequantise(m: Attention, r: nat) returns (q: array<real>)
    ensures fresh(q) && Vector(q, m.dims, d => Q(m, r, d))
  {
    hide Mul;
    q := new real[m.dims];
    for d := 0 to m.dims
      invariant forall x :: 0 <= x < d ==> q[x] == Q(m, r, x)
    {
      q[d] := Mul(m.qRaw(r, d), m.qScale(r));
    }
  }

  // ---- probabilities' gradients ----

  method DpCell(m: Attention, r: nat, k: nat, index: int, up: array<real>) returns (dp: real)
    requires index == Index(r, k) && Vector(up, m.dims, d => m.up(r, d))
    ensures dp == Dp(m, r, k)
  {
    hide Kv, Mul;
    dp := 0.0;
    if index >= 0 && index < m.rows {
      for d := 0 to m.dims
        invariant dp == Sum(d, x => Mul(m.up(r, x), SlotKv(m, r, k, x)))
      {
        assert SlotKv(m, r, k, d) == Kv(m, index, d);
        dp := dp + Mul(up[d], Kv(m, index, d));
      }
    } else {
      NoDp(m, r, k);
    }
  }

  lemma NoDp(m: Attention, r: int, k: int)
    requires !Present(m, r, k)
    ensures Dp(m, r, k) == 0.0
  {
    hide Sum, Mul;
    var f := (d: int) => Mul(m.up(r, d), SlotKv(m, r, k, d));
    forall d ensures f(d) == 0.0 {
      MulZero(m.up(r, d));
    }
    SumZero(m.dims, f);
  }

  method DpValues(m: Attention, r: nat, indices: array2<int>, sumexp: real, up: array<real>)
    returns (dp: array<real>)
    requires Healthy(m) && r < m.rows && Table(m, indices) && sumexp == SumExp(m, r)
    requires Vector(up, m.dims, d => m.up(r, d))
    ensures fresh(dp) && Vector(dp, m.slots, k => Dp(m, r, k))
  {
    hide Dp, SumExp, Index, Healthy;
    SumExpAtLeastOne(m, r);
    dp := new real[m.slots];
    for k := 0 to m.slots
      invariant forall x :: 0 <= x < k ==> dp[x] == Dp(m, r, x)
    {
      var value := DpCell(m, r, k, indices[r, k], up);
      dp[k] := 0.0;
      if sumexp > 0.0 {
        dp[k] := value;
      }
    }
  }

  method MeanOf(m: Attention, r: nat, weights: array<real>, dp: array<real>, sumexp: real) returns (mean: real)
    requires Healthy(m) && r < m.rows && sumexp == SumExp(m, r)
    requires Vector(weights, m.slots, k => Weight(m, r, k)) && Vector(dp, m.slots, k => Dp(m, r, k))
    ensures mean == Mean(m, r)
  {
    hide Dp, SumExp, Weight, Healthy, P, Mul, Floored;
    GuardsAreIdle(m, r, 0);
    mean := 0.0;
    for k := 0 to m.slots
      invariant mean == Sum(k, x => Mul(P(m, r, x), Dp(m, r, x)))
    {
      GuardsAreIdle(m, r, k);
      mean := mean + Mul(weights[k] / Floored(sumexp), dp[k]);
    }
  }

  /** A row's statistics as the backward kernel holds them; `up` is the gradient of the row's context. */
  datatype Row = Row(q: array<real>, weights: array<real>, up: array<real>, dp: array<real>, sumexp: real, mean: real)
  {
    ghost predicate Holds(m: Attention, r: int)
      reads q, weights, up, dp
    {
      && Vector(q, m.dims, d => Q(m, r, d)) && Vector(weights, m.slots, k => Weight(m, r, k))
      && Vector(up, m.dims, d => m.up(r, d)) && Vector(dp, m.slots, k => Dp(m, r, k))
      && sumexp == SumExp(m, r) && mean == Mean(m, r)
    }
  }

  method Statistics(m: Attention, r: nat, indices: array2<int>, q: array<real>, weights: array<real>, sumexp: real,
                    up: array<real>)
    returns (row: Row)
    requires Healthy(m) && r < m.rows && Table(m, indices) && Vector(q, m.dims, d => Q(m, r, d))
    requires Vector(weights, m.slots, k => Weight(m, r, k)) && sumexp == SumExp(m, r)
    requires Vector(up, m.dims, d => m.up(r, d))
    ensures row.Holds(m, r) && row.q == q && row.weights == weights && row.up == up && fresh({row.dp})
  {
    hide Healthy, Table, Q, Weight, Dp, SumExp, Mean;
    var dp := DpValues(m, r, indices, sumexp, up);
    var mean := MeanOf(m, r, weights, dp, sumexp);
    row := Row(q, weights, up, dp, sumexp, mean);
  }

  /** A context value as the backward kernel recomputes it. */
  method ContextBack(m: Attention, r: nat, d: nat, indices: array2<int>, weights: array<real>, sumexp: real)
    returns (value: real)
    requires Healthy(m) && r < m.rows && d < m.dims && Table(m, indices)
    requires Vector(weights, m.slots, k => Weight(m, r, k)) && sumexp == SumExp(m, r)
    ensures value == Context(m, r, d)
  {
    hide Healthy, ForwardWeight, SumExp, Kv, Context;
    WeightedMean(m, r, d);
    var accum := 0.0;
    for k := 0 to m.slots
      invariant accum == Sum(k, x => ValueTerm(m, r, d, x))
    {
      var index := indices[r, k];
      if index >= 0 && index < m.rows {
        accum := accum + Mul(weights[k], Kv(m, index, d));
      }
    }
    value := 0.0;
    if sumexp > 0.0 {
      value := accum / sumexp;
    }
  }

  // ---- the scatter of one row ----

  /** Slot `k`'s contributions to component `d`: to the query, and to the slot's key-value. */
  method SlotTerms(m: Attention, r: nat, k: nat, d: nat, index: nat, row: Row) returns (dq: real, dkv: real)
    requires Healthy(m) && r < m.rows && k < m.slots && d < m.dims && index == Index(r, k) && index < m.rows
             && row.Holds(m, r)
    ensures dq == Mul(Ds(m, r, k), SlotKv(m, r, k, d)) && dkv == DkvTerm(m, r, k, d)
  {
    hide Healthy, Q, Weight, Dp, SumExp, Mean, Kv, P, Mul, Floored;
    GuardsAreIdle(m, r, k);
    var ds := 0.0;
    if row.sumexp > 0.0 {
      ds := Mul(row.weights[k] / row.sumexp, row.dp[k] - row.mean);
    }
    dq := Mul(ds, Kv(m, index, d));
    dkv := Mul(Mul(m.scale, ds), row.q[d]) + Mul(row.weights[k] / Floored(row.sumexp), row.up[d]);
  }

  /** What the first `k` slots of row `r` add to component `d` of key-value row `j`. */
  ghost function SharePart(m: Attention, r: int, k: int, j: int, d: int): real {
    Keyed(k, x => Index(r, x), x => DkvTerm(m, r, x, d), j)
  }

  lemma PartStep(m: Attention, r: int, k: nat, d: int)
    ensures forall j ::
              SharePart(m, r, k + 1, j, d)
              == SharePart(m, r, k, j, d) + if Index(r, k) == j then DkvTerm(m, r, k, d) else 0.0
    ensures forall j :: SharePart(m, r, 0, j, d) == 0.0
  {
    hide DkvTerm, Index;
  }

  lemma PartAll(m: Attention, r: nat, d: int)
    requires r < m.rows
    ensures forall j | 0 <= j :: SharePart(m, r, m.slots, j, d) == RowShare(m, r, j, d)
  {
    hide SharePart, RowShare;
    forall j | 0 <= j ensures SharePart(m, r, m.slots, j, d) == RowShare(m, r, j, d) {
      PartIsShare(m, r, j, d);
    }
  }

  lemma PartIsShare(m: Attention, r: nat, j: nat, d: int)
    requires r < m.rows
    ensures SharePart(m, r, m.slots, j, d) == RowShare(m, r, j, d)
  {
    hide RowShare, DkvTerm, Index;
    RowScatter(m, r, j, d);
  }

  lemma AbsentTerm(m: Attention, r: int, k: int, d: int)
    requires !Present(m, r, k)
    ensures Mul(Ds(m, r, k), SlotKv(m, r, k, d)) == 0.0
  {
    hide Ds;
  }

  /** Component `d`, which is column `at + d` of the layer's gradients. */
  method ColumnBack(m: Attention, r: nat, d: nat, at: nat, indices: array2<int>, row: Row, dkv: array2<real>)
    returns (dq: real)
    requires Healthy(m) && r < m.rows && d < m.dims && Table(m, indices) && row.Holds(m, r)
    requires dkv.Length0 == m.rows && at + m.dims <= dkv.Length1
    modifies dkv
    ensures dq == Dq(m, r, d)
    ensures forall j, p :: 0 <= j < m.rows && 0 <= p < dkv.Length1 ==>
              dkv[j, p] == old(dkv[j, p]) + if p == at + d then RowShare(m, r, j, d) else 0.0
  {
    hide Healthy, Row.Holds, Ds, SlotKv, Mul, DkvTerm, SharePart, RowShare;
    dq := 0.0;
    PartStep(m, r, 0, d);
    for k := 0 to m.slots
      invariant dq == Sum(k, x => Mul(Ds(m, r, x), SlotKv(m, r, x, d)))
      invariant forall j, p :: 0 <= j < m.rows && 0 <= p < dkv.Length1 ==>
                  dkv[j, p] == old(dkv[j, p]) + if p == at + d then SharePart(m, r, k, j, d) else 0.0
    {
      PartStep(m, r, k, d);
      var index := indices[r, k];
      if index >= 0 && index < m.rows {
        var toQuery, toKv := SlotTerms(m, r, k, d, index, row);
        dq := dq + toQuery;
        AddCell(dkv, index, at + d, toKv);
      } else {
        AbsentTerm(m, r, k, d);
      }
    }
    PartAll(m, r, d);
    dq := Mul(dq, m.scale);
  }

  /** The head's row, reversed, into columns `at ..` of the layer's gradients. */
  method RowBack(m: Attention, r: nat, at: nat, indices: array2<int>, row: Row, dq: array2<real>, dkv: array2<real>)
    requires Healthy(m) && r < m.rows && Table(m, indices) && row.Holds(m, r) && dq != dkv
    requires dq.Length0 == m.rows && at + m.dims <= dq.Length1 && dkv.Length0 == m.rows && dkv.Length1 == dq.Length1
    modifies dq, dkv
    ensures forall q, p :: 0 <= q < m.rows && 0 <= p < dq.Length1 ==>
              dq[q, p] == if q == r && at <= p < at + m.dims then Dq(m, r, p - at) else old(dq[q, p])
    ensures forall j, p :: 0 <= j < m.rows && 0 <= p < dq.Length1 ==>
              dkv[j, p] == old(dkv[j, p]) + if at <= p < at + m.dims then RowShare(m, r, j, p - at) else 0.0
  {
    hide Healthy, Row.Holds, Dq, RowShare, Table;
    for d := 0 to m.dims
      invariant row.Holds(m, r)
      invariant forall q, p :: 0 <= q < m.rows && 0 <= p < dq.Length1 ==>
                  dq[q, p] == if q == r && at <= p < at + d then Dq(m, r, p - at) else old(dq[q, p])
      invariant forall j, p :: 0 <= j < m.rows && 0 <= p < dq.Length1 ==>
                  dkv[j, p] == old(dkv[j, p]) + if at <= p < at + d then RowShare(m, r, j, p - at) else 0.0
    {
      var value := ColumnBack(m, r, d, at, indices, row, dkv);
      dq[r, at + d] := value;
    }
  }
}
