/** Sliding-window sparse attention, one head: the index table, the softmax statistics of the forward and of
    the backward kernel, and when they agree. */
module AttentionModel {
  import opened Sums

  /** Queries and shared key-values are stored as raw codes with one scale per row.  `up` is the gradient of
      the context. */
  datatype Raw = Raw(rows: nat, slots: nat, dims: nat, exp: real -> real,
                     qRaw: (int, int) -> real, qScale: int -> real, kvRaw: (int, int) -> real, kvScale: int -> real,
                     scale: real, sink: bool, sinkLogit: real, up: (int, int) -> real)

  type Attention = m: Raw | 0 < m.slots
    ghost witness Raw(0, 1, 0, x => 0.0, (r, d) => 0.0, r => 0.0, (r, d) => 0.0, r => 0.0, 0.0, false, 0.0,
                      (r, d) => 0.0)

  /** The score of an absent slot: the most negative single-precision number. */
  const SENTINEL := -340282346638528860000000000000000000000.0

  /** It is -(2^128 - 2^104), to the seventeen digits the source prints. */
  lemma SentinelIsLowestFloat()
    ensures -5000000000000000000000.0 <= SENTINEL + (TWO_64 * TWO_64 - TWO_52 * TWO_52) <= 5000000000000000000000.0
  {
    assert TWO_64 * TWO_64 == 340282366920938463463374607431768211456.0;
    assert TWO_52 * TWO_52 == 20282409603651670423947251286016.0;
  }

  const TWO_64 := 18446744073709551616.0
  const TWO_52 := 4503599627370496.0

  // ---- the index table ----

  function Index(r: int, k: int): int { if r >= k then r - k else -1 }

  predicate Present(m: Attention, r: int, k: int) { 0 <= Index(r, k) < m.rows }

  /** Row `r`'s table lists each causal row of its window once, in the slot of its distance, and marks the
      rest absent. */
  lemma TableIsWindow(m: Attention, r: nat, k: int, j: int)
    requires r < m.rows && 0 <= k < m.slots && 0 <= j
    ensures Present(m, r, k) <==> k <= r
    ensures (Present(m, r, k) && Index(r, k) == j) <==> (j <= r < j + m.slots && k == r - j)
  {
  }

  // ---- scores ----

  function Q(m: Attention, r: int, d: int): real { Mul(m.qRaw(r, d), m.qScale(r)) }
  function Kv(m: Attention, j: int, d: int): real { Mul(m.kvRaw(j, d), m.kvScale(j)) }

  ghost function Score(m: Attention, r: int, j: int): real {
    Mul(Sum(m.dims, d => Mul(Q(m, r, d), Kv(m, j, d))), m.scale)
  }

  /** The forward kernel scales after the dot product; the backward kernel scales the query before it. */
  ghost function ForwardScore(m: Attention, r: int, j: int): real {
    Mul(Mul(Mul(Sum(m.dims, d => Mul(m.qRaw(r, d), m.kvRaw(j, d))), m.qScale(r)), m.kvScale(j)), m.scale)
  }

  ghost function BackwardScore(m: Attention, r: int, j: int): real {
    Mul(Mul(Sum(m.dims, d => Mul(Q(m, r, d), m.kvRaw(j, d))), m.kvScale(j)), m.scale)
  }

  lemma ScoresAgree(m: Attention, r: int, j: int)
    ensures ForwardScore(m, r, j) == Score(m, r, j) && BackwardScore(m, r, j) == Score(m, r, j)
  {
    hide Sum, Mul;
    var raw, back, score := (d: int) => Mul(m.qRaw(r, d), m.kvRaw(j, d)), (d: int) => Mul(Q(m, r, d), m.kvRaw(j, d)),
                            (d: int) => Mul(Q(m, r, d), Kv(m, j, d));
    forall d ensures score(d) == Mul(m.kvScale(j), back(d)) && back(d) == Mul(m.qScale(r), raw(d)) {
      ScaleOut(m.qRaw(r, d), m.qScale(r), m.kvRaw(j, d), m.kvScale(j));
    }
    SumScaleMul(m.dims, score, m.kvScale(j), back);
    SumScaleMul(m.dims, back, m.qScale(r), raw);
    Reorder(Sum(m.dims, raw), m.qScale(r), m.kvScale(j), Sum(m.dims, back), Sum(m.dims, score));
  }

  lemma ScaleOut(q: real, qs: real, k: real, ks: real)
    ensures Mul(Mul(q, qs), Mul(k, ks)) == Mul(ks, Mul(Mul(q, qs), k))
    ensures Mul(Mul(q, qs), k) == Mul(qs, Mul(q, k))
  {
  }

  lemma Reorder(raw: real, qs: real, ks: real, back: real, score: real)
    requires back == qs * raw && score == ks * back
    ensures Mul(Mul(raw, qs), ks) == score && Mul(back, ks) == score
  {
  }

  // ---- softmax statistics ----

  ghost function SlotScore(m: Attention, r: int, k: int): real {
    if Present(m, r, k) then Score(m, r, Index(r, k)) else SENTINEL
  }

  /** The running maximum over the first `n` slots. */
  ghost function SlotMax(m: Attention, r: int, n: int): real
    decreases n
  {
    if n <= 0 then SENTINEL
    else if SlotScore(m, r, n - 1) > SlotMax(m, r, n - 1) then SlotScore(m, r, n - 1) else SlotMax(m, r, n - 1)
  }

  ghost function Top(m: Attention, r: int): real {
    if m.sink && m.sinkLogit > SlotMax(m, r, m.slots) then m.sinkLogit else SlotMax(m, r, m.slots)
  }

  ghost function SinkWeight(m: Attention, r: int): real { if m.sink then m.exp(m.sinkLogit - Top(m, r)) else 0.0 }

  /** The forward kernel weighs every slot, the backward kernel skips the absent ones. */
  ghost function ForwardWeight(m: Attention, r: int, k: int): real { m.exp(SlotScore(m, r, k) - Top(m, r)) }
  ghost function Weight(m: Attention, r: int, k: int): real { if Present(m, r, k) then ForwardWeight(m, r, k) else 0.0 }

  ghost function ForwardSumExp(m: Attention, r: int): real {
    Sum(m.slots, k => ForwardWeight(m, r, k)) + SinkWeight(m, r)
  }

  ghost function SumExp(m: Attention, r: int): real { Sum(m.slots, k => Weight(m, r, k)) + SinkWeight(m, r) }

  /** What the forward kernel stores per row and head. */
  ghost function LogSumExp(m: Attention, log: real -> real, r: int): real {
    if ForwardSumExp(m, r) > 0.0 then Top(m, r) + log(ForwardSumExp(m, r)) else 0.0
  }

  /** How many of row `r`'s first `n` slots are absent. */
  function Absent(r: int, n: int): int { if n <= r + 1 then 0 else n - (r + 1) }

  lemma {:induction false} AbsentSlots(m: Attention, r: nat, n: nat, e: real, f: int -> real, b: int -> real)
    requires r < m.rows && e == m.exp(SENTINEL - Top(m, r))
    requires forall k {:trigger f(k)} :: f(k) == ForwardWeight(m, r, k)
    requires forall k {:trigger b(k)} :: b(k) == Weight(m, r, k)
    ensures Sum(n, f) == Sum(n, b) + Absent(r, n) as real * e
    decreases n
  {
    hide Score, Top;
    if n > 0 {
      AbsentSlots(m, r, n - 1, e, f, b);
      if n > r + 1 {
        assert Absent(r, n) as real * e == Absent(r, n - 1) as real * e + e;
      }
    }
  }

  /** The two kernels' sums of exponentials are equal exactly when the row's window is full or the
      exponential flushes to zero at the sentinel. */
  lemma SumsAgree(m: Attention, r: nat)
    requires r < m.rows
    ensures ForwardSumExp(m, r) == SumExp(m, r) <==> (m.slots <= r + 1 || m.exp(SENTINEL - Top(m, r)) == 0.0)
  {
    hide Sum, ForwardWeight, Weight, SinkWeight, Top;
    var e := m.exp(SENTINEL - Top(m, r));
    AbsentSlots(m, r, m.slots, e, k => ForwardWeight(m, r, k), k => Weight(m, r, k));
    if m.slots > r + 1 {
      NonZero(Absent(r, m.slots) as real, e);
    }
  }

  lemma NonZero(n: real, e: real)
    requires n > 0.0
    ensures n * e == 0.0 <==> e == 0.0
  {
  }

  // ---- the statistics are never degenerate ----

  /** What the softmax needs of its exponential and of its scores. */
  ghost predicate Healthy(m: Attention) {
    && (forall x {:trigger m.exp(x)} :: m.exp(x) >= 0.0) && m.exp(0.0) == 1.0
    && forall r {:trigger Score(m, r, r)} :: 0 <= r < m.rows ==> Score(m, r, r) > SENTINEL
  }

  lemma {:induction false} MaxIsUpper(m: Attention, r: int, n: int, k: int)
    requires 0 <= k < n
    ensures SlotScore(m, r, k) <= SlotMax(m, r, n)
    decreases n
  {
    hide SlotScore;
    if k < n - 1 {
      MaxIsUpper(m, r, n - 1, k);
    }
  }

  /** A maximum above the sentinel is some present slot's score. */
  lemma {:induction false} MaxIsAttained(m: Attention, r: int, n: int) returns (k: int)
    requires SlotMax(m, r, n) > SENTINEL
    ensures 0 <= k < n && Present(m, r, k) && SlotScore(m, r, k) == SlotMax(m, r, n)
    decreases n
  {
    hide Score;
    if SlotScore(m, r, n - 1) > SlotMax(m, r, n - 1) {
      k := n - 1;
    } else {
      k := MaxIsAttained(m, r, n - 1);
    }
  }

  lemma {:induction false} SumAtLeast(n: int, f: int -> real, k: int)
    requires 0 <= k < n && forall i {:trigger f(i)} :: f(i) >= 0.0
    ensures Sum(n, f) >= f(k)
    decreases n
  {
    if k < n - 1 {
      SumAtLeast(n - 1, f, k);
    } else {
      SumNonNegative(n - 1, f);
    }
  }

  /** The sum of exponentials is at least one: the maximum is attained, by a slot or by the sink.  So the
      kernels' positivity guards and their 1e-20 floors never change a result. */
  lemma SumExpAtLeastOne(m: Attention, r: nat)
    requires Healthy(m) && r < m.rows
    ensures SumExp(m, r) >= 1.0
  {
    hide Sum, Score;
    var w := (k: int) => Weight(m, r, k);
    MaxIsUpper(m, r, m.slots, 0);
    assert SlotScore(m, r, 0) == Score(m, r, r);
    SumNonNegative(m.slots, w);
    if Top(m, r) == SlotMax(m, r, m.slots) {
      var k := MaxIsAttained(m, r, m.slots);
      SumAtLeast(m.slots, w, k);
    }
  }

  // ---- the stored log-sum-exp ----

  /** Shifting a score scales its exponential, and the logarithm takes the scale back out. */
  ghost predicate Scales(exp: real -> real, x: real, y: real) { Mul(exp(x - y), exp(y)) == exp(x) }
  ghost predicate Unscales(exp: real -> real, log: real -> real, s: real, y: real) {
    s > 0.0 ==> log(Mul(s, exp(y))) == log(s) + y
  }

  ghost function PlainSink(m: Attention): real { if m.sink then m.exp(m.sinkLogit) else 0.0 }

  /** The subtracted maximum does not show in what is stored: it is the logarithm of the plain sum of the scores'
      exponentials. */
  lemma LogSumExpIsPlain(m: Attention, log: real -> real, r: int)
    requires forall x, y :: Scales(m.exp, x, y)
    requires forall s, y :: Unscales(m.exp, log, s, y)
    requires ForwardSumExp(m, r) > 0.0
    ensures LogSumExp(m, log, r) == log(Sum(m.slots, k => m.exp(SlotScore(m, r, k))) + PlainSink(m))
  {
    hide Sum, Mul, SlotScore, Top;
    var top := Top(m, r);
    var plain, weights := (k: int) => m.exp(SlotScore(m, r, k)), (k: int) => ForwardWeight(m, r, k);
    forall k ensures plain(k) == Mul(m.exp(top), weights(k)) {
      assert Scales(m.exp, SlotScore(m, r, k), top);
      MulSwap(m.exp(top), weights(k));
    }
    SumScaleMul(m.slots, plain, m.exp(top), weights);
    SinkScales(m, r);
    ScaledTotal(Sum(m.slots, weights), SinkWeight(m, r), m.exp(top));
    assert Unscales(m.exp, log, ForwardSumExp(m, r), top);
  }

  lemma MulSwap(x: real, y: real)
    ensures Mul(x, y) == Mul(y, x)
  {
  }

  lemma SinkScales(m: Attention, r: int)
    requires forall x, y :: Scales(m.exp, x, y)
    ensures PlainSink(m) == Mul(SinkWeight(m, r), m.exp(Top(m, r)))
  {
    hide Top;
    assert Scales(m.exp, m.sinkLogit, Top(m, r));
  }

  lemma ScaledTotal(sum: real, sink: real, e: real)
    ensures Mul(sum + sink, e) == Mul(e, sum) + Mul(sink, e)
  {
  }
}
