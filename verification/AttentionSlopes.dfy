/** The linearised attention of one head is its derivative.  The subtracted maximum, which has no derivative where two
    scores tie, drops out of the context. */
module AttentionSlopes {
  import opened Sums
  import opened Slopes
  import opened FunctionSlopes
  import opened AttentionModel
  import opened AttentionAdjoint

  /** What the softmax needs of its exponential. */
  ghost predicate Exponential(exp: real -> real) {
    && Grows(exp) && (forall x {:trigger exp(x)} :: exp(x) > 0.0) && (forall x, y :: Scales(exp, x, y))
  }

  // ---- probabilities without the maximum ----

  ghost function PlainWeight(m: Attention, r: int, k: int): real {
    if Present(m, r, k) then m.exp(Score(m, r, Index(r, k))) else 0.0
  }

  ghost function PlainSum(m: Attention, r: int): real { Sum(m.slots, k => PlainWeight(m, r, k)) + PlainSink(m) }

  lemma WeightScales(m: Attention, r: int, k: int)
    requires Exponential(m.exp)
    ensures PlainWeight(m, r, k) == Mul(m.exp(Top(m, r)), Weight(m, r, k)) && Weight(m, r, k) >= 0.0
    ensures Present(m, r, k) ==> Weight(m, r, k) > 0.0
  {
    hide Score, Top, Mul, Grows;
    var top := Top(m, r);
    if Present(m, r, k) {
      assert Scales(m.exp, Score(m, r, Index(r, k)), top);
      MulSwap(m.exp(top), Weight(m, r, k));
    } else {
      MulZero(m.exp(top));
    }
  }

  lemma SumScales(m: Attention, r: nat)
    requires Exponential(m.exp) && r < m.rows
    ensures PlainSum(m, r) == Mul(m.exp(Top(m, r)), SumExp(m, r)) && SumExp(m, r) > 0.0
  {
    hide Top, Mul, Sum, PlainWeight, Weight, SinkWeight, PlainSink, Grows;
    var top := m.exp(Top(m, r));
    var plain, weights := (k: int) => PlainWeight(m, r, k), (k: int) => Weight(m, r, k);
    forall k ensures plain(k) == Mul(top, weights(k)) && weights(k) >= 0.0 {
      WeightScales(m, r, k);
    }
    SumScaleMul(m.slots, plain, top, weights);
    SinkScales(m, r);
    ScaledTotal(Sum(m.slots, weights), SinkWeight(m, r), top);
    MulSwap(SinkWeight(m, r), top);
    MulSwap(SumExp(m, r), top);
    WeightScales(m, r, 0);
    SumAtLeast(m.slots, weights, 0);
    SinkPositive(m, r);
  }

  lemma SinkPositive(m: Attention, r: int)
    requires Exponential(m.exp)
    ensures SinkWeight(m, r) >= 0.0
  {
    hide Top, Grows;
  }

  /** A slot's probability is its plain exponential over the plain sum. */
  lemma PlainProbability(m: Attention, r: nat, k: int)
    requires Exponential(m.exp) && r < m.rows
    ensures PlainSum(m, r) > 0.0 && Mul(P(m, r, k), PlainSum(m, r)) == PlainWeight(m, r, k)
  {
    hide Top, Mul, Sum, PlainWeight, Weight, SumExp, PlainSum, Grows;
    SumScales(m, r);
    WeightScales(m, r, k);
    ProbabilityForm(m.exp(Top(m, r)), SumExp(m, r), Weight(m, r, k), P(m, r, k));
  }

  lemma ProbabilityForm(e: real, z: real, w: real, p: real)
    requires e > 0.0 && z > 0.0 && p == w / z
    ensures Mul(e, z) > 0.0 && Mul(p, Mul(e, z)) == Mul(e, w)
  {
    assert p * z == w;
    assert p * (e * z) == e * (p * z);
  }

  /** The context stays within any bound of the key-values: its weights are not negative and add up to at most one. */
  lemma ContextBound(m: Attention, r: nat, d: int, bound: real)
    requires Exponential(m.exp) && r < m.rows
    requires forall j {:trigger Kv(m, j, d)} :: 0 <= j < m.rows ==> -bound <= Kv(m, j, d) <= bound
    requires bound >= 0.0
    ensures -bound <= Context(m, r, d) <= bound
  {
    hide P, PSink, Sum, Mul, Kv, Exponential;
    var terms, p := (k: int) => Mul(P(m, r, k), SlotKv(m, r, k, d)), (k: int) => P(m, r, k);
    forall k ensures Mul(-bound, p(k)) <= terms(k) <= Mul(bound, p(k)) {
      ProbabilityPositive(m, r, k);
      Weighed(p(k), SlotKv(m, r, k, d), bound);
    }
    SumBetween(m.slots, terms, p, bound);
    PositiveSum(m, r);
    SinkPositive(m, r);
    ProbabilitiesSumToOne(m, r);
    SinkShare(m, r);
    MulBelow(Sum(m.slots, p), 1.0, bound);
    AtMost(Sum(m.slots, p), bound);
  }

  lemma AtMost(p: real, bound: real)
    requires p <= 1.0 && bound >= 0.0
    ensures Mul(bound, p) <= bound && -bound <= Mul(-bound, p)
  {
  }

  lemma SinkShare(m: Attention, r: int)
    requires SumExp(m, r) > 0.0 && SinkWeight(m, r) >= 0.0
    ensures PSink(m, r) >= 0.0
  {
    hide SumExp, SinkWeight;
  }

  lemma ProbabilityPositive(m: Attention, r: nat, k: int)
    requires Exponential(m.exp)
    ensures P(m, r, k) >= 0.0
  {
    hide SumExp, Weight, Exponential;
    WeightScales(m, r, k);
  }

  lemma Weighed(p: real, x: real, bound: real)
    requires p >= 0.0 && -bound <= x <= bound
    ensures Mul(-bound, p) <= Mul(p, x) <= Mul(bound, p)
  {
  }

  lemma {:induction false} SumBetween(n: int, terms: int -> real, p: int -> real, bound: real)
    requires forall k {:trigger terms(k)} :: Mul(-bound, p(k)) <= terms(k) <= Mul(bound, p(k))
    ensures Mul(-bound, Sum(n, p)) <= Sum(n, terms) <= Mul(bound, Sum(n, p))
    decreases n
  {
    hide Mul;
    if n <= 0 {
      MulZero(bound);
      MulZero(-bound);
    } else {
      SumBetween(n - 1, terms, p, bound);
      assert Mul(-bound, p(n - 1)) <= terms(n - 1) <= Mul(bound, p(n - 1));
      Spread(bound, Sum(n - 1, p), p(n - 1));
    }
  }

  lemma Spread(bound: real, x: real, y: real)
    ensures Mul(bound, x + y) == Mul(bound, x) + Mul(bound, y) && Mul(-bound, x + y) == Mul(-bound, x) + Mul(-bound, y)
  {
  }

  /** A zero query scores every row alike, at zero. */
  lemma ZeroQuery(m: Attention, r: int, j: int)
    requires forall d {:trigger m.qRaw(r, d)} :: m.qRaw(r, d) == 0.0
    ensures Score(m, r, j) == 0.0
  {
    hide Sum;
    SumZero(m.dims, d => Mul(Q(m, r, d), Kv(m, j, d)));
  }

  // ---- paths ----

  ghost function QAt(c: real -> Attention, r: int, d: int): (f: real -> real)
    ensures forall e {:trigger f(e)} :: f(e) == Q(c(e), r, d)
  {
    (e: real) => Q(c(e), r, d)
  }

  ghost function KvAt(c: real -> Attention, j: int, d: int): (f: real -> real)
    ensures forall e {:trigger f(e)} :: f(e) == Kv(c(e), j, d)
  {
    (e: real) => Kv(c(e), j, d)
  }

  ghost function SinkAt(c: real -> Attention): (f: real -> real)
    ensures forall e {:trigger f(e)} :: f(e) == c(e).sinkLogit
  {
    (e: real) => c(e).sinkLogit
  }

  ghost predicate Sized(m: Attention, n: Attention) {
    n.rows == m.rows && n.slots == m.slots && n.dims == m.dims && n.exp == m.exp && n.scale == m.scale
      && n.sink == m.sink
  }

  /** `c` is a path through heads whose dequantised queries and key-values, and whose sink, move with velocity `t` at
      zero. */
  ghost predicate Curve(c: real -> Attention, t: Tangent) {
    && (forall e {:trigger c(e)} :: Sized(c(0.0), c(e)))
    && (forall r, d {:trigger QAt(c, r, d)} :: 0 <= d < c(0.0).dims ==> Slope(QAt(c, r, d), t.q(r, d)))
    && (forall j, d {:trigger KvAt(c, j, d)} :: 0 <= d < c(0.0).dims ==> Slope(KvAt(c, j, d), t.kv(j, d)))
    && Slope(SinkAt(c), t.sink)
  }

  lemma SameSizes(c: real -> Attention, t: Tangent, e: real)
    requires Curve(c, t)
    ensures Sized(c(0.0), c(e))
  {
  }

  lemma CodeSlopes(c: real -> Attention, t: Tangent, r: int, j: int, d: int)
    requires Curve(c, t) && 0 <= d < c(0.0).dims
    ensures Slope(QAt(c, r, d), t.q(r, d)) && Slope(KvAt(c, j, d), t.kv(j, d))
  {
    hide Slope, QAt, KvAt;
    assert Slope(QAt(c, r, d), t.q(r, d)) && Slope(KvAt(c, j, d), t.kv(j, d));
  }

  ghost function ScoreAt(c: real -> Attention, r: int, j: int): (f: real -> real)
    ensures forall e {:trigger f(e)} :: f(e) == Score(c(e), r, j)
  {
    hide Score;
    (e: real) => Score(c(e), r, j)
  }

  ghost function WeightAt(c: real -> Attention, r: int, k: int): (f: real -> real)
    ensures forall e {:trigger f(e)} :: f(e) == PlainWeight(c(e), r, k)
  {
    hide PlainWeight;
    (e: real) => PlainWeight(c(e), r, k)
  }

  ghost function SinkWeightAt(c: real -> Attention): (f: real -> real)
    ensures forall e {:trigger f(e)} :: f(e) == PlainSink(c(e))
  {
    hide PlainSink;
    (e: real) => PlainSink(c(e))
  }

  ghost function SumAt(c: real -> Attention, r: int): (f: real -> real)
    ensures forall e {:trigger f(e)} :: f(e) == PlainSum(c(e), r)
  {
    hide PlainSum;
    (e: real) => PlainSum(c(e), r)
  }

  ghost function InverseAt(c: real -> Attention, r: int): (f: real -> real)
    ensures forall e {:trigger f(e)} :: f(e) == Inverse(PlainSum(c(e), r))
  {
    hide PlainSum, Inverse;
    (e: real) => Inverse(PlainSum(c(e), r))
  }

  ghost function PAt(c: real -> Attention, r: int, k: int): (f: real -> real)
    ensures forall e {:trigger f(e)} :: f(e) == P(c(e), r, k)
  {
    hide P;
    (e: real) => P(c(e), r, k)
  }

  ghost function SlotAt(c: real -> Attention, r: int, k: int, d: int): (f: real -> real)
    ensures forall e {:trigger f(e)} :: f(e) == SlotKv(c(e), r, k, d)
  {
    hide SlotKv;
    (e: real) => SlotKv(c(e), r, k, d)
  }

  ghost function ContextAt(c: real -> Attention, r: int, d: int): (f: real -> real)
    ensures forall e {:trigger f(e)} :: f(e) == Context(c(e), r, d)
  {
    hide Context;
    (e: real) => Context(c(e), r, d)
  }

  // ---- scores and weights ----

  ghost function DotParts(c: real -> Attention, r: int, j: int): (f: int -> real -> real)
    ensures forall d {:trigger f(d)} :: f(d) == Times(QAt(c, r, d), KvAt(c, j, d))
  {
    (d: int) => Times(QAt(c, r, d), KvAt(c, j, d))
  }

  lemma ScorePath(c: real -> Attention, t: Tangent, r: int, j: int, e: real)
    requires Curve(c, t)
    ensures ScoreAt(c, r, j)(e) == Mul(c(0.0).scale, Partial(c(0.0).dims, DotParts(c, r, j))(e))
  {
    hide Curve, ScoreAt, QAt, KvAt, Q, Kv, DotParts, Partial, Slice, Times, Mul, Sum;
    SameSizes(c, t, e);
    SumEq(c(e).dims, Slice(DotParts(c, r, j), e), d => Mul(Q(c(e), r, d), Kv(c(e), j, d)));
    MulSwap(c(e).scale, Partial(c(0.0).dims, DotParts(c, r, j))(e));
  }

  lemma ScoreSlope(c: real -> Attention, t: Tangent, r: int, k: int, j: int)
    requires Curve(c, t) && Present(c(0.0), r, k) && j == Index(r, k)
    ensures Slope(ScoreAt(c, r, j), TScore(c(0.0), t, r, k))
  {
    hide Slope, Curve, ScoreAt, Score, QAt, KvAt, Q, Kv, DotParts, Partial, Times, Mul, Sum;
    var m := c(0.0);
    var slopes := (d: int) => Mul(t.q(r, d), Kv(m, j, d)) + Mul(Q(m, r, d), t.kv(j, d));
    forall d | 0 <= d < m.dims ensures Slope(DotParts(c, r, j)(d), slopes(d)) {
      CodeSlopes(c, t, r, j, d);
      SlopeMul(DotParts(c, r, j)(d), slopes(d), QAt(c, r, d), t.q(r, d), KvAt(c, j, d), t.kv(j, d));
    }
    var dot := Partial(m.dims, DotParts(c, r, j));
    SlopeSum(m.dims, dot, Sum(m.dims, slopes), DotParts(c, r, j), slopes);
    forall e ensures ScoreAt(c, r, j)(e) == Mul(m.scale, dot(e)) {
      ScorePath(c, t, r, j, e);
    }
    TScoreForm(m, t, r, k, j, slopes);
    SlopeScale(ScoreAt(c, r, j), TScore(m, t, r, k), m.scale, dot, Sum(m.dims, slopes));
  }

  lemma TScoreForm(m: Attention, t: Tangent, r: int, k: int, j: int, f: int -> real)
    requires Present(m, r, k) && j == Index(r, k)
    requires forall d {:trigger f(d)} :: f(d) == Mul(t.q(r, d), Kv(m, j, d)) + Mul(Q(m, r, d), t.kv(j, d))
    ensures TScore(m, t, r, k) == Mul(m.scale, Sum(m.dims, f))
  {
    hide Sum, Mul, Q, Kv;
    SumEq(m.dims, d => Mul(t.q(r, d), SlotKv(m, r, k, d)) + Mul(Q(m, r, d), TSlotKv(m, t, r, k, d)), f);
    MulSwap(m.scale, Sum(m.dims, f));
  }

  lemma WeightPath(c: real -> Attention, t: Tangent, r: int, k: int, e: real)
    requires Curve(c, t)
    ensures WeightAt(c, r, k)(e) == if Present(c(0.0), r, k) then c(0.0).exp(ScoreAt(c, r, Index(r, k))(e)) else 0.0
  {
    hide Curve, WeightAt, ScoreAt, Score;
    SameSizes(c, t, e);
  }

  /** Every slot's weight moves by its score's move, times itself. */
  lemma WeightSlope(c: real -> Attention, t: Tangent, r: int, k: int)
    requires Curve(c, t) && Exponential(c(0.0).exp)
    ensures Slope(WeightAt(c, r, k), Mul(PlainWeight(c(0.0), r, k), TScore(c(0.0), t, r, k)))
  {
    hide Slope, Curve, Grows, WeightAt, ScoreAt, Score, TScore, PlainWeight, Mul;
    var m, j := c(0.0), Index(r, k);
    forall e ensures WeightAt(c, r, k)(e) == if Present(m, r, k) then m.exp(ScoreAt(c, r, j)(e)) else 0.0 {
      WeightPath(c, t, r, k, e);
    }
    if Present(m, r, k) {
      ScoreSlope(c, t, r, k, j);
      SlopeGrown(m.exp, WeightAt(c, r, k), Mul(PlainWeight(m, r, k), TScore(m, t, r, k)), ScoreAt(c, r, j),
                 TScore(m, t, r, k));
    } else {
      assert WeightAt(c, r, k)(0.0) == 0.0;
      ZeroMul(TScore(m, t, r, k));
      SlopeConst(WeightAt(c, r, k), 0.0);
    }
  }

  lemma SinkPath(c: real -> Attention, t: Tangent, e: real)
    requires Curve(c, t)
    ensures SinkWeightAt(c)(e) == if c(0.0).sink then c(0.0).exp(SinkAt(c)(e)) else 0.0
  {
    hide Curve, SinkWeightAt, SinkAt;
    SameSizes(c, t, e);
  }

  lemma SinkSlope(c: real -> Attention, t: Tangent)
    requires Curve(c, t) && Exponential(c(0.0).exp)
    ensures Slope(SinkWeightAt(c), Mul(PlainSink(c(0.0)), t.sink))
  {
    hide Slope, Grows, SinkWeightAt, PlainSink, SinkAt, Mul;
    var m := c(0.0);
    assert Slope(SinkAt(c), t.sink);
    forall e ensures SinkWeightAt(c)(e) == if m.sink then m.exp(SinkAt(c)(e)) else 0.0 {
      SinkPath(c, t, e);
    }
    hide Curve;
    if m.sink {
      SlopeGrown(m.exp, SinkWeightAt(c), Mul(PlainSink(m), t.sink), SinkAt(c), t.sink);
    } else {
      assert SinkWeightAt(c)(0.0) == 0.0;
      ZeroMul(t.sink);
      SlopeConst(SinkWeightAt(c), 0.0);
    }
  }

  // ---- probabilities ----

  ghost function WeightParts(c: real -> Attention, r: int): (f: int -> real -> real)
    ensures forall k {:trigger f(k)} :: f(k) == WeightAt(c, r, k)
  {
    hide WeightAt;
    (k: int) => WeightAt(c, r, k)
  }

  /** How the plain sum moves. */
  ghost function TSum(m: Attention, t: Tangent, r: int): real {
    Sum(m.slots, k => Mul(PlainWeight(m, r, k), TScore(m, t, r, k))) + Mul(PlainSink(m), t.sink)
  }

  lemma SumPath(c: real -> Attention, t: Tangent, r: int, e: real)
    requires Curve(c, t)
    ensures SumAt(c, r)(e) == Partial(c(0.0).slots, WeightParts(c, r))(e) + SinkWeightAt(c)(e)
  {
    hide Curve, SumAt, WeightAt, PlainWeight, WeightParts, Partial, Slice, SinkWeightAt, PlainSink, Sum;
    SameSizes(c, t, e);
    SumEq(c(e).slots, Slice(WeightParts(c, r), e), k => PlainWeight(c(e), r, k));
  }

  lemma SumSlope(c: real -> Attention, t: Tangent, r: int)
    requires Curve(c, t) && Exponential(c(0.0).exp)
    ensures Slope(SumAt(c, r), TSum(c(0.0), t, r))
  {
    hide Slope, Curve, Exponential, SumAt, WeightAt, PlainWeight, TScore, WeightParts, Partial, SinkWeightAt, PlainSink,
         Sum, Mul;
    var m := c(0.0);
    var slopes := (k: int) => Mul(PlainWeight(m, r, k), TScore(m, t, r, k));
    forall k ensures Slope(WeightParts(c, r)(k), slopes(k)) {
      WeightSlope(c, t, r, k);
    }
    SlopeSum(m.slots, Partial(m.slots, WeightParts(c, r)), Sum(m.slots, slopes), WeightParts(c, r), slopes);
    SinkSlope(c, t);
    forall e ensures SumAt(c, r)(e) == Partial(m.slots, WeightParts(c, r))(e) + SinkWeightAt(c)(e) {
      SumPath(c, t, r, e);
    }
    SlopeAdd(SumAt(c, r), TSum(m, t, r), Partial(m.slots, WeightParts(c, r)), Sum(m.slots, slopes), SinkWeightAt(c),
             Mul(PlainSink(m), t.sink));
  }

  lemma InverseForms(m: Attention, r: nat, k: int)
    requires Exponential(m.exp) && r < m.rows
    ensures Mul(Inverse(PlainSum(m, r)), PlainSum(m, r)) == 1.0
    ensures P(m, r, k) == Mul(PlainWeight(m, r, k), Inverse(PlainSum(m, r)))
  {
    hide P, PlainSum, PlainWeight, Exponential;
    PlainProbability(m, r, k);
    var z, p := PlainSum(m, r), P(m, r, k);
    assert z * (1.0 / z) == 1.0;
    assert p * z * (1.0 / z) == p * (z * (1.0 / z));
  }

  lemma PPath(c: real -> Attention, t: Tangent, r: nat, k: int, e: real)
    requires Curve(c, t) && Exponential(c(0.0).exp) && r < c(0.0).rows
    ensures Mul(InverseAt(c, r)(e), SumAt(c, r)(e)) == 1.0
    ensures PAt(c, r, k)(e) == Mul(WeightAt(c, r, k)(e), InverseAt(c, r)(e))
  {
    hide Curve, Exponential, SumAt, PlainSum, InverseAt, PAt, P, WeightAt, PlainWeight, Mul, Inverse;
    SameSizes(c, t, e);
    InverseForms(c(e), r, k);
  }

  /** The mean move of the scores is the plain sum's move over the plain sum. */
  lemma TMeanForm(m: Attention, t: Tangent, r: nat)
    requires Exponential(m.exp) && r < m.rows
    ensures TMean(m, t, r) == Mul(Inverse(PlainSum(m, r)), TSum(m, t, r))
  {
    hide Exponential, PlainSum, P, PSink, TScore, PlainWeight, PlainSink, Inverse, Mul, Sum;
    var i := Inverse(PlainSum(m, r));
    var moves, own := (k: int) => Mul(PlainWeight(m, r, k), TScore(m, t, r, k)),
        (k: int) => Mul(P(m, r, k), TScore(m, t, r, k));
    forall k ensures own(k) == Mul(i, moves(k)) {
      InverseForms(m, r, k);
      Rescale(PlainWeight(m, r, k), i, TScore(m, t, r, k));
    }
    SumScaleMul(m.slots, own, i, moves);
    SinkForm(m, r);
    Rescale(PlainSink(m), i, t.sink);
    ScaledTotal(Sum(m.slots, moves), Mul(PlainSink(m), t.sink), i);
    MulSwap(Sum(m.slots, moves) + Mul(PlainSink(m), t.sink), i);
    MulSwap(Mul(PlainSink(m), t.sink), i);
  }

  lemma SinkForm(m: Attention, r: nat)
    requires Exponential(m.exp) && r < m.rows
    ensures PSink(m, r) == Mul(PlainSink(m), Inverse(PlainSum(m, r)))
  {
    hide Top, Mul, Sum, SinkWeight, PlainSink, SumExp, PlainSum, Grows, Inverse;
    SumScales(m, r);
    SinkScales(m, r);
    SinkQuotient(m.exp(Top(m, r)), SumExp(m, r), SinkWeight(m, r), PlainSink(m), PlainSum(m, r));
  }

  lemma SinkQuotient(e: real, z: real, w: real, sink: real, sum: real)
    requires e > 0.0 && z > 0.0 && sum == Mul(e, z) && sink == Mul(w, e)
    ensures w / z == Mul(sink, Inverse(sum))
  {
    var p, i := w / z, 1.0 / (e * z);
    assert e * z > 0.0;
    assert p * z == w && i * (e * z) == 1.0;
    assert w * e * i == p * (i * (e * z));
  }

  lemma Rescale(w: real, i: real, x: real)
    ensures Mul(Mul(w, i), x) == Mul(i, Mul(w, x))
  {
  }

  lemma PSlope(c: real -> Attention, t: Tangent, shift: real, r: nat, k: int)
    requires Curve(c, t) && Exponential(c(0.0).exp) && r < c(0.0).rows
    ensures Slope(PAt(c, r, k), TP(c(0.0), t, shift, r, k))
  {
    hide Slope, Curve, Exponential, SumAt, PlainSum, InverseAt, PAt, P, TP, WeightAt, PlainWeight, TScore, TMean, TSum,
         Mul, Inverse, SumExp;
    var m := c(0.0);
    var i, z, w := InverseAt(c, r)(0.0), TSum(m, t, r), Mul(PlainWeight(m, r, k), TScore(m, t, r, k));
    var a := -Mul(Mul(i, i), z);
    WeightSlope(c, t, r, k);
    SumSlope(c, t, r);
    forall e ensures Mul(InverseAt(c, r)(e), SumAt(c, r)(e)) == 1.0
                     && PAt(c, r, k)(e) == Mul(WeightAt(c, r, k)(e), InverseAt(c, r)(e)) {
      PPath(c, t, r, k, e);
    }
    SlopeInverse(InverseAt(c, r), a, SumAt(c, r), z);
    PositiveSum(m, r);
    SoftmaxMove(m, t, shift, r, k);
    TMeanForm(m, t, r);
    PMove(PlainWeight(m, r, k), i, TScore(m, t, r, k), z, P(m, r, k), TMean(m, t, r));
    SlopeMul(PAt(c, r, k), TP(m, t, shift, r, k), WeightAt(c, r, k), w, InverseAt(c, r), a);
  }

  lemma PositiveSum(m: Attention, r: nat)
    requires Exponential(m.exp) && r < m.rows
    ensures SumExp(m, r) > 0.0
  {
    hide Exponential, SumExp, PlainSum, Top;
    SumScales(m, r);
  }

  lemma PMove(w: real, i: real, x: real, z: real, p: real, mean: real)
    requires p == Mul(w, i) && mean == Mul(i, z)
    ensures Mul(p, x - mean) == Mul(Mul(w, x), i) + Mul(w, -Mul(Mul(i, i), z))
  {
    assert w * i * (x - i * z) == w * x * i - w * i * (i * z);
    assert w * (i * i * z) == w * i * (i * z);
  }

  // ---- the context ----

  lemma SlotSlope(c: real -> Attention, t: Tangent, r: int, k: int, d: int)
    requires Curve(c, t) && 0 <= d < c(0.0).dims
    ensures Slope(SlotAt(c, r, k, d), TSlotKv(c(0.0), t, r, k, d))
  {
    hide Slope, Curve, SlotAt, KvAt, Kv;
    var m, j := c(0.0), Index(r, k);
    forall e ensures SlotAt(c, r, k, d)(e) == if Present(m, r, k) then KvAt(c, j, d)(e) else 0.0 {
      SameSizes(c, t, e);
    }
    if Present(m, r, k) {
      CodeSlopes(c, t, r, j, d);
      SlopeEq(KvAt(c, j, d), SlotAt(c, r, k, d), t.kv(j, d));
    } else {
      SlopeConst(SlotAt(c, r, k, d), 0.0);
    }
  }

  ghost function ContextParts(c: real -> Attention, r: int, d: int): (f: int -> real -> real)
    ensures forall k {:trigger f(k)} :: f(k) == Times(PAt(c, r, k), SlotAt(c, r, k, d))
  {
    (k: int) => Times(PAt(c, r, k), SlotAt(c, r, k, d))
  }

  lemma ContextPath(c: real -> Attention, t: Tangent, r: int, d: int, e: real)
    requires Curve(c, t)
    ensures ContextAt(c, r, d)(e) == Sum(c(0.0).slots, Slice(ContextParts(c, r, d), e))
  {
    hide Curve, ContextAt, PAt, P, SlotAt, SlotKv, ContextParts, Slice, Times, Mul, Sum;
    SameSizes(c, t, e);
    SumEq(c(e).slots, Slice(ContextParts(c, r, d), e), k => Mul(P(c(e), r, k), SlotKv(c(e), r, k, d)));
  }

  /** Every context component moves, to first order, by its tangent, whatever is assumed of the maximum's move. */
  lemma ContextSlope(c: real -> Attention, t: Tangent, shift: real, r: nat, d: int)
    requires Curve(c, t) && Exponential(c(0.0).exp) && r < c(0.0).rows && 0 <= d < c(0.0).dims
    ensures Slope(ContextAt(c, r, d), TContext(c(0.0), t, shift, r, d))
  {
    hide Slope, Curve, Exponential, ContextAt, Context, PAt, P, TP, SlotAt, SlotKv, TSlotKv, ContextParts, Slice, Times,
         Mul, Sum;
    var m := c(0.0);
    var slopes := (k: int) => Mul(TP(m, t, shift, r, k), SlotKv(m, r, k, d)) + Mul(P(m, r, k), TSlotKv(m, t, r, k, d));
    forall k ensures Slope(ContextParts(c, r, d)(k), slopes(k)) {
      PSlope(c, t, shift, r, k);
      SlotSlope(c, t, r, k, d);
      SlopeMul(ContextParts(c, r, d)(k), slopes(k), PAt(c, r, k), TP(m, t, shift, r, k), SlotAt(c, r, k, d),
               TSlotKv(m, t, r, k, d));
    }
    forall e ensures ContextAt(c, r, d)(e) == Sum(m.slots, Slice(ContextParts(c, r, d), e)) {
      ContextPath(c, t, r, d, e);
    }
    SlopeSum(m.slots, ContextAt(c, r, d), TContext(m, t, shift, r, d), ContextParts(c, r, d), slopes);
  }
}
