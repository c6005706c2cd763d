/** The sparse attention kernels of one head: the index table, both kernels' softmax statistics, and the forward
    context. */
module AttentionKernel {
  import opened Sums
  import opened Buffers
  import opened AttentionModel
  import opened AttentionAdjoint

  // ---- index table ----

  ghost predicate Table(m: Attention, indices: array2<int>)
    reads indices
  {
    indices.Length0 == m.rows && indices.Length1 == m.slots
    && forall r, k :: 0 <= r < m.rows && 0 <= k < m.slots ==> indices[r, k] == Index(r, k)
  }

  method BuildTable(m: Attention) returns (indices: array2<int>)
    ensures fresh(indices) && Table(m, indices)
  {
    indices := new int[m.rows, m.slots];
    for r := 0 to m.rows
      invariant forall q, k :: 0 <= q < r && 0 <= k < m.slots ==> indices[q, k] == Index(q, k)
    {
      for k := 0 to m.slots
        invariant forall q, l :: 0 <= q <= r && 0 <= l < m.slots && (q < r || l < k) ==> indices[q, l] == Index(q, l)
      {
        if r >= k {
          indices[r, k] := r - k;
        } else {
          indices[r, k] := -1;
        }
      }
    }
  }

  // ---- scores ----

  /** The forward score: raw codes first, scales after. */
  method ScoreForward(m: Attention, r: nat, j: nat) returns (score: real)
    ensures score == Score(m, r, j)
  {
    hide Mul, Score;
    var accum := 0.0;
    for d := 0 to m.dims
      invariant accum == Sum(d, x => Mul(m.qRaw(r, x), m.kvRaw(j, x)))
    {
      accum := accum + Mul(m.qRaw(r, d), m.kvRaw(j, d));
    }
    score := Mul(Mul(Mul(accum, m.qScale(r)), m.kvScale(j)), m.scale);
    ScoresAgree(m, r, j);
  }

  /** The backward score: the query is dequantised before the dot product. */
  method ScoreBackward(m: Attention, r: nat, j: nat, q: array<real>) returns (score: real)
    requires Vector(q, m.dims, d => Q(m, r, d))
    ensures score == Score(m, r, j)
  {
    hide Mul, Score, Q;
    var accum := 0.0;
    for d := 0 to m.dims
      invariant accum == Sum(d, x => Mul(Q(m, r, x), m.kvRaw(j, x)))
    {
      accum := accum + Mul(q[d], m.kvRaw(j, d));
    }
    score := Mul(Mul(accum, m.kvScale(j)), m.scale);
    ScoresAgree(m, r, j);
  }

  method SlotForward(m: Attention, r: nat, k: nat, index: int) returns (score: real)
    requires index == Index(r, k)
    ensures score == SlotScore(m, r, k)
  {
    hide Score;
    if index >= 0 && index < m.rows {
      score := ScoreForward(m, r, index);
    } else {
      score := SENTINEL;
    }
  }

  method SlotBackward(m: Attention, r: nat, k: nat, index: int, q: array<real>) returns (score: real)
    requires index == Index(r, k) && Vector(q, m.dims, d => Q(m, r, d))
    ensures score == SlotScore(m, r, k)
  {
    hide Score;
    if index >= 0 && index < m.rows {
      score := ScoreBackward(m, r, index, q);
    } else {
      score := SENTINEL;
    }
  }

  // ---- statistics ----

  method TopForward(m: Attention, r: nat, indices: array2<int>) returns (top: real)
    requires r < m.rows && Table(m, indices)
    ensures top == Top(m, r)
  {
    hide SlotScore, Index;
    top := SENTINEL;
    for k := 0 to m.slots
      invariant top == SlotMax(m, r, k)
    {
      var score := SlotForward(m, r, k, indices[r, k]);
      if score > top {
        top := score;
      }
    }
    if m.sink && m.sinkLogit > top {
      top := m.sinkLogit;
    }
  }

  method TopBackward(m: Attention, r: nat, indices: array2<int>, q: array<real>) returns (top: real)
    requires r < m.rows && Table(m, indices) && Vector(q, m.dims, d => Q(m, r, d))
    ensures top == Top(m, r)
  {
    hide SlotScore, Index, Q;
    top := SENTINEL;
    for k := 0 to m.slots
      invariant top == SlotMax(m, r, k)
    {
      var score := SlotBackward(m, r, k, indices[r, k], q);
      if score > top {
        top := score;
      }
    }
    if m.sink && m.sinkLogit > top {
      top := m.sinkLogit;
    }
  }

  method SinkOf(m: Attention, r: nat, top: real) returns (weight: real)
    requires top == Top(m, r)
    ensures weight == SinkWeight(m, r)
  {
    hide Top;
    weight := 0.0;
    if m.sink {
      weight := m.exp(m.sinkLogit - top);
    }
  }

  method WeightForward(m: Attention, r: nat, k: nat, index: int, top: real) returns (weight: real)
    requires index == Index(r, k) && top == Top(m, r)
    ensures weight == ForwardWeight(m, r, k)
  {
    hide SlotScore, Top;
    var score := SlotForward(m, r, k, index);
    weight := m.exp(score - top);
  }

  method WeightBackward(m: Attention, r: nat, k: nat, index: int, q: array<real>, top: real) returns (weight: real)
    requires index == Index(r, k) && top == Top(m, r) && Vector(q, m.dims, d => Q(m, r, d))
    ensures weight == Weight(m, r, k)
  {
    hide Score, Top, Q;
    weight := 0.0;
    if index >= 0 && index < m.rows {
      var score := ScoreBackward(m, r, index, q);
      weight := m.exp(score - top);
    }
  }

  /** The forward kernel's weights, absent slots included. */
  method WeighForward(m: Attention, r: nat, indices: array2<int>)
    returns (weights: array<real>, sumexp: real, top: real)
    requires r < m.rows && Table(m, indices)
    ensures fresh(weights) && Vector(weights, m.slots, k => ForwardWeight(m, r, k)) && sumexp == ForwardSumExp(m, r)
    ensures top == Top(m, r)
  {
    hide ForwardWeight, SinkWeight, Index, Top;
    top := TopForward(m, r, indices);
    weights := new real[m.slots];
    sumexp := 0.0;
    for k := 0 to m.slots
      invariant sumexp == Sum(k, x => ForwardWeight(m, r, x))
      invariant forall x :: 0 <= x < k ==> weights[x] == ForwardWeight(m, r, x)
    {
      weights[k] := WeightForward(m, r, k, indices[r, k], top);
      sumexp := sumexp + weights[k];
    }
    var sink := SinkOf(m, r, top);
    sumexp := sumexp + sink;
  }

  /** The backward kernel's weights, absent slots skipped. */
  method WeighBackward(m: Attention, r: nat, indices: array2<int>, q: array<real>)
    returns (weights: array<real>, sumexp: real)
    requires r < m.rows && Table(m, indices) && Vector(q, m.dims, d => Q(m, r, d))
    ensures fresh(weights) && Vector(weights, m.slots, k => Weight(m, r, k)) && sumexp == SumExp(m, r)
  {
    hide Weight, SinkWeight, Index, Top, Q;
    var top := TopBackward(m, r, indices, q);
    weights := new real[m.slots];
    sumexp := 0.0;
    for k := 0 to m.slots
      invariant sumexp == Sum(k, x => Weight(m, r, x))
      invariant forall x :: 0 <= x < k ==> weights[x] == Weight(m, r, x)
    {
      weights[k] := WeightBackward(m, r, k, indices[r, k], q, top);
      sumexp := sumexp + weights[k];
    }
    var sink := SinkOf(m, r, top);
    sumexp := sumexp + sink;
  }

  // ---- forward context ----

  /** A weighted value, zero for an absent slot. */
  ghost function ValueTerm(m: Attention, r: int, d: int, k: int): real {
    Mul(ForwardWeight(m, r, k), SlotKv(m, r, k, d))
  }

  /** What the forward kernel writes for the context. */
  ghost function ForwardContext(m: Attention, r: int, d: int): real {
    if ForwardSumExp(m, r) > 0.0 then Sum(m.slots, k => ValueTerm(m, r, d, k)) / ForwardSumExp(m, r) else 0.0
  }

  /** A row's context, and the log-sum-exp stored beside it. */
  method ContextForward(m: Attention, log: real -> real, r: nat, indices: array2<int>)
    returns (context: array<real>, stored: real)
    requires r < m.rows && Table(m, indices)
    ensures fresh(context) && Vector(context, m.dims, d => ForwardContext(m, r, d)) && stored == LogSumExp(m, log, r)
  {
    hide ForwardWeight, ForwardSumExp, ValueTerm, Table, Top;
    var weights, sumexp, top := WeighForward(m, r, indices);
    stored := 0.0;
    if sumexp > 0.0 {
      stored := top + log(sumexp);
    }
    context := new real[m.dims];
    for d := 0 to m.dims
      invariant forall x :: 0 <= x < d ==> context[x] == ForwardContext(m, r, x)
      invariant Vector(weights, m.slots, k => ForwardWeight(m, r, k))
    {
      var value := ValueForward(m, r, d, indices, weights);
      context[d] := 0.0;
      if sumexp > 0.0 {
        context[d] := value / sumexp;
      }
    }
  }

  method ValueForward(m: Attention, r: nat, d: nat, indices: array2<int>, weights: array<real>) returns (value: real)
    requires r < m.rows && Table(m, indices) && Vector(weights, m.slots, k => ForwardWeight(m, r, k))
    ensures value == Sum(m.slots, k => ValueTerm(m, r, d, k))
  {
    hide ForwardWeight, Kv;
    value := 0.0;
    for k := 0 to m.slots
      invariant value == Sum(k, x => ValueTerm(m, r, d, x))
    {
      var index := indices[r, k];
      if index >= 0 && index < m.rows {
        value := value + Mul(weights[k], Kv(m, index, d));
      }
    }
  }

  /** The weighted values over the backward kernel's sum of exponentials are the softmax-weighted mean. */
  lemma WeightedMean(m: Attention, r: int, d: int)
    ensures Context(m, r, d)
            == if SumExp(m, r) > 0.0 then Sum(m.slots, k => ValueTerm(m, r, d, k)) / SumExp(m, r) else 0.0
  {
    hide Sum, ForwardWeight, SumExp, SlotKv, Mul, P;
    var z := SumExp(m, r);
    var values, weighted := (k: int) => ValueTerm(m, r, d, k), (k: int) => Mul(P(m, r, k), SlotKv(m, r, k, d));
    if z > 0.0 {
      forall k ensures values(k) == Mul(z, weighted(k)) {
        ValueForm(m, r, d, k);
      }
      SumScaleMul(m.slots, values, z, weighted);
      Cancel(z, Sum(m.slots, weighted));
    } else {
      forall k ensures weighted(k) == 0.0 {
        NoShare(m, r, d, k);
      }
      SumZero(m.slots, weighted);
    }
  }

  /** Where the sums agree the forward kernel's context is the softmax-weighted mean that the backward
      kernel differentiates. */
  lemma ContextsAgree(m: Attention, r: nat, d: int)
    requires r < m.rows && ForwardSumExp(m, r) == SumExp(m, r)
    ensures ForwardContext(m, r, d) == Context(m, r, d)
  {
    hide Sum, SumExp, ForwardSumExp, ValueTerm, Context;
    WeightedMean(m, r, d);
  }

  lemma ValueForm(m: Attention, r: int, d: int, k: int)
    requires SumExp(m, r) > 0.0
    ensures ValueTerm(m, r, d, k) == Mul(SumExp(m, r), Mul(P(m, r, k), SlotKv(m, r, k, d)))
  {
    hide ForwardWeight, SumExp, P, Kv;
    WeightForm(m, r, k);
    ShareForms(SumExp(m, r), P(m, r, k), SlotKv(m, r, k, d), Weight(m, r, k));
  }

  lemma ShareForms(z: real, p: real, v: real, w: real)
    requires w == Mul(z, p)
    ensures Mul(w, v) == Mul(z, Mul(p, v))
    ensures v == 0.0 ==> Mul(z, Mul(p, v)) == 0.0
  {
  }

  lemma NoShare(m: Attention, r: int, d: int, k: int)
    requires SumExp(m, r) <= 0.0
    ensures Mul(P(m, r, k), SlotKv(m, r, k, d)) == 0.0
  {
    hide SumExp, SlotKv;
  }
}
