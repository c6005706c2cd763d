/** The attention backward is the exact vector-Jacobian product of the softmax-weighted context, with the sink
    on or off and absent slots contributing nothing. */
module AttentionAdjoint {
  import opened Sums
  import opened Stages
  import opened AttentionModel

  // ---- the forward context and the backward's quantities ----

  /** Softmax weight of slot `k`, and of the sink. */
  ghost function P(m: Attention, r: int, k: int): real {
    if SumExp(m, r) > 0.0 then Weight(m, r, k) / SumExp(m, r) else 0.0
  }

  ghost function PSink(m: Attention, r: int): real {
    if SumExp(m, r) > 0.0 then SinkWeight(m, r) / SumExp(m, r) else 0.0
  }

  /** Slot `k`'s value, zero if absent. */
  function SlotKv(m: Attention, r: int, k: int, d: int): real {
    if Present(m, r, k) then Kv(m, Index(r, k), d) else 0.0
  }

  ghost function Context(m: Attention, r: int, d: int): real { Sum(m.slots, k => Mul(P(m, r, k), SlotKv(m, r, k, d))) }

  ghost function Dp(m: Attention, r: int, k: int): real { Sum(m.dims, d => Mul(m.up(r, d), SlotKv(m, r, k, d))) }
  ghost function Mean(m: Attention, r: int): real { Sum(m.slots, k => Mul(P(m, r, k), Dp(m, r, k))) }

  /** The gradient of a slot's score, and of the sink's. */
  ghost function Ds(m: Attention, r: int, k: int): real { Mul(P(m, r, k), Dp(m, r, k) - Mean(m, r)) }
  ghost function DSink(m: Attention, r: int): real { -Mul(PSink(m, r), Mean(m, r)) }

  ghost function Dq(m: Attention, r: int, d: int): real {
    Mul(Sum(m.slots, k => Mul(Ds(m, r, k), SlotKv(m, r, k, d))), m.scale)
  }

  /** What row `r` sends to the key-value row of its slot `k`: as a key and as a value. */
  ghost function DkvTerm(m: Attention, r: int, k: int, d: int): real {
    Mul(Mul(m.scale, Ds(m, r, k)), Q(m, r, d)) + Mul(P(m, r, k), m.up(r, d))
  }

  // ---- tangents ----

  datatype Tangent = Tangent(q: (int, int) -> real, kv: (int, int) -> real, sink: real)

  ghost function TSlotKv(m: Attention, t: Tangent, r: int, k: int, d: int): real {
    if Present(m, r, k) then t.kv(Index(r, k), d) else 0.0
  }

  ghost function TScore(m: Attention, t: Tangent, r: int, k: int): real {
    Mul(Sum(m.dims, d => Mul(t.q(r, d), SlotKv(m, r, k, d)) + Mul(Q(m, r, d), TSlotKv(m, t, r, k, d))), m.scale)
  }

  /** The weights move with their scores and with the maximum that is subtracted, by any amount `shift`. */
  ghost function TWeight(m: Attention, t: Tangent, shift: real, r: int, k: int): real {
    Mul(Weight(m, r, k), TScore(m, t, r, k) - shift)
  }

  ghost function TSinkWeight(m: Attention, t: Tangent, shift: real, r: int): real {
    Mul(SinkWeight(m, r), t.sink - shift)
  }

  ghost function TSumExp(m: Attention, t: Tangent, shift: real, r: int): real {
    Sum(m.slots, k => TWeight(m, t, shift, r, k)) + TSinkWeight(m, t, shift, r)
  }

  /** The quotient rule. */
  ghost function TP(m: Attention, t: Tangent, shift: real, r: int, k: int): real {
    if SumExp(m, r) > 0.0 then
      (Mul(TWeight(m, t, shift, r, k), SumExp(m, r)) - Mul(Weight(m, r, k), TSumExp(m, t, shift, r))) / SumExp(m, r)
        / SumExp(m, r)
    else 0.0
  }

  ghost function TContext(m: Attention, t: Tangent, shift: real, r: int, d: int): real {
    Sum(m.slots, k => Mul(TP(m, t, shift, r, k), SlotKv(m, r, k, d)) + Mul(P(m, r, k), TSlotKv(m, t, r, k, d)))
  }

  // ---- probabilities ----

  lemma DivForms(w: real, z: real)
    requires z > 0.0
    ensures w / z * z == w
  {
  }

  lemma WeightForm(m: Attention, r: int, k: int)
    requires SumExp(m, r) > 0.0
    ensures Weight(m, r, k) == Mul(SumExp(m, r), P(m, r, k))
  {
    hide Weight, SumExp;
    DivForms(Weight(m, r, k), SumExp(m, r));
  }

  /** Slots and sink together have probability one. */
  lemma ProbabilitiesSumToOne(m: Attention, r: int)
    requires SumExp(m, r) > 0.0
    ensures Sum(m.slots, k => P(m, r, k)) + PSink(m, r) == 1.0
  {
    hide Sum, Weight, SinkWeight, P, Mul;
    var z := SumExp(m, r);
    var w, p := (k: int) => Weight(m, r, k), (k: int) => P(m, r, k);
    forall k ensures w(k) == Mul(z, p(k)) {
      WeightForm(m, r, k);
    }
    SumScaleMul(m.slots, w, z, p);
    OneForm(z, Sum(m.slots, p), SinkWeight(m, r), PSink(m, r));
  }

  lemma OneForm(z: real, p: real, sink: real, psink: real)
    requires z > 0.0 && z == z * p + sink && psink == sink / z
    ensures p + psink == 1.0
  {
    assert sink == z * (1.0 - p);
    Cancel(z, 1.0 - p);
  }

  lemma Cancel(z: real, x: real)
    requires z != 0.0
    ensures z * x / z == x
  {
  }

  // ---- the softmax ----

  /** The mean move of the scores under the softmax, the sink's included. */
  ghost function TMean(m: Attention, t: Tangent, r: int): real {
    Sum(m.slots, k => Mul(P(m, r, k), TScore(m, t, r, k))) + Mul(PSink(m, r), t.sink)
  }

  lemma SumExpMove(m: Attention, t: Tangent, shift: real, r: int)
    requires SumExp(m, r) > 0.0
    ensures TSumExp(m, t, shift, r) == Mul(SumExp(m, r), TMean(m, t, r) - shift)
  {
    hide Sum, Weight, SinkWeight, SumExp, P, PSink, TScore, TMean, TSumExp, TWeight, Mul;
    var z := SumExp(m, r);
    var c := -(z * shift);
    var moves, a, p := (k: int) => TWeight(m, t, shift, r, k), (k: int) => Mul(P(m, r, k), TScore(m, t, r, k)),
        (k: int) => P(m, r, k);
    var scaled, shifted := (k: int) => Mul(z, a(k)), (k: int) => Mul(c, p(k));
    forall k ensures moves(k) == scaled(k) + shifted(k) {
      WeightMove(m, t, shift, r, k, c);
    }
    SumAdd(m.slots, moves, scaled, shifted);
    SumScaleMul(m.slots, scaled, z, a);
    SumScaleMul(m.slots, shifted, c, p);
    ProbabilitiesForm(m, r, p);
    SinkForm(m, r);
    SumExpMoveForm(m, t, shift, r, moves);
    TMeanForm(m, t, r, a);
    TotalMove(z, c, Sum(m.slots, a), Sum(m.slots, p), PSink(m, r), SinkWeight(m, r), t.sink, shift);
    assert TMean(m, t, r) - shift == Sum(m.slots, a) + Mul(PSink(m, r), t.sink) - shift;
  }

  lemma WeightMove(m: Attention, t: Tangent, shift: real, r: int, k: int, c: real)
    requires SumExp(m, r) > 0.0 && c == -(SumExp(m, r) * shift)
    ensures TWeight(m, t, shift, r, k) == Mul(SumExp(m, r), Mul(P(m, r, k), TScore(m, t, r, k))) + Mul(c, P(m, r, k))
  {
    hide Weight, SumExp, P, TScore;
    WeightForm(m, r, k);
    MoveForm(SumExp(m, r), P(m, r, k), TScore(m, t, r, k), shift);
  }

  lemma ProbabilitiesForm(m: Attention, r: int, p: int -> real)
    requires SumExp(m, r) > 0.0 && forall k {:trigger p(k)} :: p(k) == P(m, r, k)
    ensures Sum(m.slots, p) + PSink(m, r) == 1.0
  {
    hide Sum, P, PSink, SumExp;
    ProbabilitiesSumToOne(m, r);
    SumEq(m.slots, p, k => P(m, r, k));
  }

  lemma SinkForm(m: Attention, r: int)
    requires SumExp(m, r) > 0.0
    ensures SinkWeight(m, r) == Mul(SumExp(m, r), PSink(m, r))
  {
    hide SinkWeight, SumExp;
    DivForms(SinkWeight(m, r), SumExp(m, r));
  }

  lemma SumExpMoveForm(m: Attention, t: Tangent, shift: real, r: int, moves: int -> real)
    requires forall k {:trigger moves(k)} :: moves(k) == TWeight(m, t, shift, r, k)
    ensures TSumExp(m, t, shift, r) == Sum(m.slots, moves) + Mul(SinkWeight(m, r), t.sink - shift)
  {
    hide Sum, Mul, SinkWeight, TWeight;
    SumEq(m.slots, k => TWeight(m, t, shift, r, k), moves);
  }

  lemma MoveForm(z: real, p: real, ts: real, shift: real)
    ensures Mul(Mul(z, p), ts - shift) == Mul(z, Mul(p, ts)) + Mul(-(z * shift), p)
  {
  }

  lemma TotalMove(z: real, c: real, a: real, p: real, ps: real, sw: real, ts: real, shift: real)
    requires p + ps == 1.0 && sw == Mul(z, ps) && c == -(z * shift)
    ensures Mul(z, a) + Mul(c, p) + Mul(sw, ts - shift) == Mul(z, a + Mul(ps, ts) - shift)
  {
    assert sw * (ts - shift) == z * (ps * ts) - z * shift * ps;
    assert z * shift * p + z * shift * ps == z * shift * (p + ps);
  }

  /** The softmax's tangent does not depend on the subtracted maximum. */
  lemma {:induction false} SoftmaxMove(m: Attention, t: Tangent, shift: real, r: int, k: int)
    requires SumExp(m, r) > 0.0
    ensures TP(m, t, shift, r, k) == Mul(P(m, r, k), TScore(m, t, r, k) - TMean(m, t, r))
  {
    hide Sum, Weight, SumExp, P, TScore, TMean, TSumExp, Mul;
    WeightForm(m, r, k);
    SumExpMove(m, t, shift, r);
    Quotient(SumExp(m, r), P(m, r, k), TScore(m, t, r, k), TMean(m, t, r), shift);
  }

  lemma Quotient(z: real, p: real, ts: real, mean: real, shift: real)
    requires z > 0.0
    ensures (Mul(Mul(Mul(z, p), ts - shift), z) - Mul(Mul(z, p), Mul(z, mean - shift))) / z / z == Mul(p, ts - mean)
  {
    var n := Mul(Mul(Mul(z, p), ts - shift), z) - Mul(Mul(z, p), Mul(z, mean - shift));
    assert n == z * (z * Mul(p, ts - mean)) by {
      QuotientForm(z, p, ts, mean, shift);
    }
    DivideTwice(n, z, Mul(p, ts - mean));
  }

  lemma DivideTwice(n: real, z: real, x: real)
    requires z != 0.0 && n == z * (z * x)
    ensures n / z / z == x
  {
    var y := z * x;
    Cancel(z, y);
    assert n / z == y;
    Cancel(z, x);
  }

  lemma QuotientForm(z: real, p: real, ts: real, mean: real, shift: real)
    ensures z * p * (ts - shift) * z - z * p * (z * (mean - shift)) == z * (z * (p * (ts - mean)))
  {
  }

  // ---- score gradients ----

  /** The scores' gradients and the sink's sum to zero: shifting all scores moves nothing. */
  lemma ScoreGradsSumToZero(m: Attention, r: int)
    requires SumExp(m, r) > 0.0
    ensures Sum(m.slots, k => Ds(m, r, k)) + DSink(m, r) == 0.0
  {
    hide Sum, P, PSink, Dp, Mean, Mul;
    var mean := Mean(m, r);
    var ds, pdp, p := (k: int) => Ds(m, r, k), (k: int) => Mul(P(m, r, k), Dp(m, r, k)), (k: int) => P(m, r, k);
    var rest := (k: int) => Mul(mean, p(k));
    forall k ensures pdp(k) == ds(k) + rest(k) {
      DsForm(P(m, r, k), Dp(m, r, k), mean);
    }
    SumAdd(m.slots, pdp, ds, rest);
    SumScaleMul(m.slots, rest, mean, p);
    ProbabilitiesSumToOne(m, r);
    MeanForm(m, r, pdp);
    ZeroForm(mean, Sum(m.slots, p), PSink(m, r));
  }

  lemma DsForm(p: real, dp: real, mean: real)
    ensures Mul(p, dp) == Mul(p, dp - mean) + Mul(mean, p)
  {
  }

  lemma MeanForm(m: Attention, r: int, pdp: int -> real)
    requires forall k {:trigger pdp(k)} :: pdp(k) == Mul(P(m, r, k), Dp(m, r, k))
    ensures Sum(m.slots, pdp) == Mean(m, r)
  {
    hide Sum, P, Dp, Mul;
    SumEq(m.slots, pdp, k => Mul(P(m, r, k), Dp(m, r, k)));
  }

  lemma ZeroForm(mean: real, p: real, ps: real)
    requires p + ps == 1.0
    ensures mean - mean * p == Mul(ps, mean)
  {
    assert mean * p + mean * ps == mean * (p + ps);
  }

  // ---- one row ----

  ghost function ViaP(m: Attention, t: Tangent, shift: real, r: int, k: int): real {
    Mul(TP(m, t, shift, r, k), Dp(m, r, k))
  }

  ghost function AsValue(m: Attention, t: Tangent, r: int, k: int, d: int): real {
    Mul(Mul(P(m, r, k), m.up(r, d)), TSlotKv(m, t, r, k, d))
  }

  ghost function AsKey(m: Attention, t: Tangent, r: int, k: int, d: int): real {
    Mul(Mul(Mul(m.scale, Ds(m, r, k)), Q(m, r, d)), TSlotKv(m, t, r, k, d))
  }

  ghost function ScoreMove(m: Attention, t: Tangent, r: int, k: int): real { Mul(Ds(m, r, k), TScore(m, t, r, k)) }

  /** Towards the probabilities and towards the values. */
  lemma ContextMove(m: Attention, t: Tangent, shift: real, r: int)
    ensures Sum(m.dims, d => Mul(m.up(r, d), TContext(m, t, shift, r, d)))
         == Sum(m.slots, k => ViaP(m, t, shift, r, k)) + Sum2(m.slots, m.dims, (k, d) => AsValue(m, t, r, k, d))
  {
    hide Sum, TP, P, Dp, TContext, SlotKv, TSlotKv, Mul, Row;
    var cells := (d: int, k: int) => Mul(m.up(r, d), Mul(TP(m, t, shift, r, k), SlotKv(m, r, k, d))
                                         + Mul(P(m, r, k), TSlotKv(m, t, r, k, d)));
    var a, b := (k: int, d: int) => Mul(TP(m, t, shift, r, k), Mul(m.up(r, d), SlotKv(m, r, k, d))),
        (k: int, d: int) => AsValue(m, t, r, k, d);
    var flipped := (k: int, d: int) => cells(d, k);
    var rows := (d: int) => Mul(m.up(r, d), TContext(m, t, shift, r, d));
    forall d ensures rows(d) == Row(m.slots, cells, d) {
      ContextRow(m, t, shift, r, d, cells);
    }
    SumEq(m.dims, rows, d => Row(m.slots, cells, d));
    Sum2Swap(m.dims, m.slots, cells, flipped);
    forall k, d ensures flipped(k, d) == a(k, d) + b(k, d) {
      ContextCell(m.up(r, d), TP(m, t, shift, r, k), SlotKv(m, r, k, d), P(m, r, k), TSlotKv(m, t, r, k, d));
    }
    Sum2Add(m.slots, m.dims, flipped, a, b);
    forall k ensures Row(m.dims, a, k) == ViaP(m, t, shift, r, k) {
      DpRow(m, t, shift, r, k, a);
    }
    SumEq(m.slots, k => Row(m.dims, a, k), k => ViaP(m, t, shift, r, k));
  }

  lemma ContextRow(m: Attention, t: Tangent, shift: real, r: int, d: int, cells: (int, int) -> real)
    requires forall k {:trigger cells(d, k)} ::
               cells(d, k) == Mul(m.up(r, d), Mul(TP(m, t, shift, r, k), SlotKv(m, r, k, d))
                                  + Mul(P(m, r, k), TSlotKv(m, t, r, k, d)))
    ensures Mul(m.up(r, d), TContext(m, t, shift, r, d)) == Row(m.slots, cells, d)
  {
    hide Sum, TP, P, SlotKv, TSlotKv, Mul;
    SumScaleMul(m.slots, k => cells(d, k), m.up(r, d),
                k => Mul(TP(m, t, shift, r, k), SlotKv(m, r, k, d)) + Mul(P(m, r, k), TSlotKv(m, t, r, k, d)));
    ScaleForm(m.up(r, d), TContext(m, t, shift, r, d));
  }

  lemma ScaleForm(x: real, y: real)
    ensures Mul(x, y) == x * y
  {
  }

  lemma ContextCell(up: real, tp: real, v: real, p: real, tv: real)
    ensures Mul(up, Mul(tp, v) + Mul(p, tv)) == Mul(tp, Mul(up, v)) + Mul(Mul(p, up), tv)
  {
    assert up * (tp * v + p * tv) == up * (tp * v) + up * (p * tv);
    assert up * (tp * v) == tp * (up * v) && up * (p * tv) == p * up * tv;
  }

  lemma DpRow(m: Attention, t: Tangent, shift: real, r: int, k: int, a: (int, int) -> real)
    requires forall d {:trigger a(k, d)} :: a(k, d) == Mul(TP(m, t, shift, r, k), Mul(m.up(r, d), SlotKv(m, r, k, d)))
    ensures Row(m.dims, a, k) == ViaP(m, t, shift, r, k)
  {
    hide Sum, TP, SlotKv, Mul;
    SumScaleMul(m.dims, d => a(k, d), TP(m, t, shift, r, k), d => Mul(m.up(r, d), SlotKv(m, r, k, d)));
    ScaleForm(TP(m, t, shift, r, k), Dp(m, r, k));
  }

  /** Through the softmax: the probabilities' moves are the scores' and the sink's. */
  lemma SoftmaxAdjoint(m: Attention, t: Tangent, shift: real, r: int)
    requires SumExp(m, r) > 0.0
    ensures Sum(m.slots, k => ViaP(m, t, shift, r, k))
            == Sum(m.slots, k => ScoreMove(m, t, r, k)) + DSink(m, r) * t.sink
  {
    hide Sum, P, PSink, TP, Dp, TScore, Mul, Mean, TMean;
    var mean, tMean := Mean(m, r), TMean(m, t, r);
    var viaP, moves := (k: int) => ViaP(m, t, shift, r, k), (k: int) => ScoreMove(m, t, r, k);
    var pts, pdp := (k: int) => Mul(P(m, r, k), TScore(m, t, r, k)), (k: int) => Mul(P(m, r, k), Dp(m, r, k));
    var a, b := (k: int) => Mul(mean, pts(k)), (k: int) => Mul(-tMean, pdp(k));
    var ab := (k: int) => a(k) + b(k);
    forall k ensures viaP(k) == moves(k) + ab(k) {
      SoftmaxMove(m, t, shift, r, k);
      SoftmaxCell(P(m, r, k), TScore(m, t, r, k), Dp(m, r, k), mean, tMean);
    }
    SumAdd(m.slots, viaP, moves, ab);
    SumAdd(m.slots, ab, a, b);
    SumScaleMul(m.slots, a, mean, pts);
    SumScaleMul(m.slots, b, -tMean, pdp);
    MeanForm(m, r, pdp);
    TMeanForm(m, t, r, pts);
    SoftmaxTotal(mean, tMean, Sum(m.slots, pts), PSink(m, r), t.sink);
  }

  lemma SoftmaxCell(p: real, ts: real, dp: real, mean: real, tMean: real)
    ensures Mul(Mul(p, ts - tMean), dp)
            == Mul(Mul(p, dp - mean), ts) + (Mul(mean, Mul(p, ts)) + Mul(-tMean, Mul(p, dp)))
  {
  }

  lemma TMeanForm(m: Attention, t: Tangent, r: int, pts: int -> real)
    requires forall k {:trigger pts(k)} :: pts(k) == Mul(P(m, r, k), TScore(m, t, r, k))
    ensures TMean(m, t, r) == Sum(m.slots, pts) + Mul(PSink(m, r), t.sink)
  {
    hide Sum, P, PSink, TScore, Mul;
    SumEq(m.slots, pts, k => Mul(P(m, r, k), TScore(m, t, r, k)));
  }

  lemma SoftmaxTotal(mean: real, tMean: real, pts: real, ps: real, ts: real)
    requires tMean == pts + Mul(ps, ts)
    ensures mean * pts + -tMean * mean == -Mul(ps, mean) * ts
  {
    assert mean * (pts + ps * ts) == mean * pts + mean * (ps * ts);
    assert mean * (ps * ts) == ps * mean * ts;
  }

  /** Through the scores: towards the query and, as keys, towards the key-values. */
  lemma ScoreAdjoint(m: Attention, t: Tangent, r: int)
    ensures Sum(m.slots, k => ScoreMove(m, t, r, k))
         == Pair(m.dims, d => Dq(m, r, d), d => t.q(r, d)) + Sum2(m.slots, m.dims, (k, d) => AsKey(m, t, r, k, d))
  {
    hide Sum, Ds, SlotKv, TSlotKv, Mul, Row, TScore, Q, Pair, Dq;
    var cells := (k: int, d: int) => Mul(Mul(Ds(m, r, k), m.scale), Mul(t.q(r, d), SlotKv(m, r, k, d))
                                         + Mul(Q(m, r, d), TSlotKv(m, t, r, k, d)));
    var a, b := (k: int, d: int) => Mul(Mul(Mul(Ds(m, r, k), SlotKv(m, r, k, d)), m.scale), t.q(r, d)),
        (k: int, d: int) => AsKey(m, t, r, k, d);
    var moves := (k: int) => ScoreMove(m, t, r, k);
    forall k ensures moves(k) == Row(m.dims, cells, k) {
      ScoreRow(m, t, r, k, cells);
    }
    SumEq(m.slots, moves, k => Row(m.dims, cells, k));
    forall k, d ensures cells(k, d) == a(k, d) + b(k, d) {
      ScoreCell(Ds(m, r, k), m.scale, t.q(r, d), SlotKv(m, r, k, d), Q(m, r, d), TSlotKv(m, t, r, k, d));
    }
    Sum2Add(m.slots, m.dims, cells, a, b);
    var flipped, products := (d: int, k: int) => a(k, d), (d: int) => Mul(Dq(m, r, d), t.q(r, d));
    Sum2Swap(m.slots, m.dims, a, flipped);
    forall d ensures Row(m.slots, flipped, d) == products(d) {
      DqColumn(m, t, r, d, flipped);
    }
    SumEq(m.dims, d => Row(m.slots, flipped, d), products);
    PairMul(m.dims, d => Dq(m, r, d), d => t.q(r, d), products);
  }

  lemma ScoreRow(m: Attention, t: Tangent, r: int, k: int, cells: (int, int) -> real)
    requires forall d {:trigger cells(k, d)} ::
               cells(k, d) == Mul(Mul(Ds(m, r, k), m.scale), Mul(t.q(r, d), SlotKv(m, r, k, d))
                                  + Mul(Q(m, r, d), TSlotKv(m, t, r, k, d)))
    ensures ScoreMove(m, t, r, k) == Row(m.dims, cells, k)
  {
    hide Sum, Ds, SlotKv, TSlotKv, Mul, Q;
    var f := (d: int) => Mul(t.q(r, d), SlotKv(m, r, k, d)) + Mul(Q(m, r, d), TSlotKv(m, t, r, k, d));
    SumScaleMul(m.dims, d => cells(k, d), Mul(Ds(m, r, k), m.scale), f);
    ScoreScale(Ds(m, r, k), m.scale, Sum(m.dims, f));
  }

  lemma ScoreScale(ds: real, scale: real, x: real)
    ensures Mul(ds, Mul(x, scale)) == Mul(ds, scale) * x
  {
  }

  lemma ScoreCell(ds: real, scale: real, tq: real, kv: real, q: real, tkv: real)
    ensures Mul(Mul(ds, scale), Mul(tq, kv) + Mul(q, tkv))
            == Mul(Mul(Mul(ds, kv), scale), tq) + Mul(Mul(Mul(scale, ds), q), tkv)
  {
    assert ds * scale * (tq * kv + q * tkv) == ds * scale * (tq * kv) + ds * scale * (q * tkv);
    assert ds * scale * (tq * kv) == ds * kv * scale * tq && ds * scale * (q * tkv) == scale * ds * q * tkv;
  }

  lemma DqColumn(m: Attention, t: Tangent, r: int, d: int, cells: (int, int) -> real)
    requires forall k {:trigger cells(d, k)} ::
             cells(d, k) == Mul(Mul(Mul(Ds(m, r, k), SlotKv(m, r, k, d)), m.scale), t.q(r, d))
    ensures Row(m.slots, cells, d) == Mul(Dq(m, r, d), t.q(r, d))
  {
    hide Sum, Ds, SlotKv, Mul;
    var f := (k: int) => Mul(Ds(m, r, k), SlotKv(m, r, k, d));
    var g := (k: int) => cells(d, k);
    forall k ensures g(k) == Mul(Mul(m.scale, t.q(r, d)), f(k)) {
      DqScale(f(k), m.scale, t.q(r, d));
    }
    SumScaleMul(m.slots, g, Mul(m.scale, t.q(r, d)), f);
    DqScale2(Sum(m.slots, f), m.scale, t.q(r, d));
  }

  lemma DqScale(x: real, scale: real, tq: real)
    ensures Mul(Mul(x, scale), tq) == Mul(Mul(scale, tq), x)
  {
  }

  lemma DqScale2(x: real, scale: real, tq: real)
    ensures Mul(Mul(x, scale), tq) == Mul(scale, tq) * x
  {
  }

  /** What row `r` sends to the key-values of its slots, paired with their tangents. */
  ghost function KvPair(m: Attention, t: Tangent, r: int): real {
    Sum2(m.slots, m.dims, (k, d) => KvCell(m, t, r, k, d))
  }

  ghost function KvCell(m: Attention, t: Tangent, r: int, k: int, d: int): real {
    Mul(DkvTerm(m, r, k, d), TSlotKv(m, t, r, k, d))
  }

  lemma KvSplit(m: Attention, t: Tangent, r: int)
    ensures KvPair(m, t, r)
         == Sum2(m.slots, m.dims, (k, d) => AsKey(m, t, r, k, d))
            + Sum2(m.slots, m.dims, (k, d) => AsValue(m, t, r, k, d))
  {
    hide Sum2, Ds, P, Q, TSlotKv, Mul;
    var all, a, b := (k: int, d: int) => KvCell(m, t, r, k, d), (k: int, d: int) => AsKey(m, t, r, k, d),
        (k: int, d: int) => AsValue(m, t, r, k, d);
    forall k, d ensures all(k, d) == a(k, d) + b(k, d) {
      MulAdd(DkvTerm(m, r, k, d), Mul(Mul(m.scale, Ds(m, r, k)), Q(m, r, d)), Mul(P(m, r, k), m.up(r, d)),
             TSlotKv(m, t, r, k, d));
    }
    Sum2Add(m.slots, m.dims, all, a, b);
  }

  /** A row's backward is the exact vector-Jacobian product of its context: for every tangent of the query,
      of the key-values and of the sink, and however the subtracted maximum moves. */
  lemma RowIsAdjoint(m: Attention, t: Tangent, shift: real, r: int)
    requires SumExp(m, r) > 0.0
    ensures Sum(m.dims, d => Mul(m.up(r, d), TContext(m, t, shift, r, d)))
         == Pair(m.dims, d => Dq(m, r, d), d => t.q(r, d)) + KvPair(m, t, r) + DSink(m, r) * t.sink
  {
    hide *;
    ContextMove(m, t, shift, r);
    SoftmaxAdjoint(m, t, shift, r);
    ScoreAdjoint(m, t, r);
    KvSplit(m, t, r);
  }
}
