/** The backward kernel of a rotary projection: pair by pair, in any order, a row adds to the weights' gradient, to the
    hidden row's and to the frequencies'. */
module RotaryKernel {
  import opened Sums
  import opened Buffers
  import opened AnyOrder
  import opened Indices
  import opened RotaryProjection
  import opened RotaryAdjoint

  method ProjectDim(s: Rotary, r: nat, p: nat) returns (accum: real)
    ensures accum == Proj(s, r, p)
  {
    hide Mul;
    accum := 0.0;
    for i := 0 to s.width
      invariant accum == Sum(i, k => Mul(s.u(r, k), s.w(p, k)))
    {
      accum := accum + Mul(s.u(r, i), s.w(p, i));
    }
  }

  /** The forward kernel's preparation of head `h`: every component of the head's projection, then the rotation. */
  method PrepareHead(s: Rotary, r: nat, h: nat) returns (prepared: array<real>)
    requires h < s.heads
    ensures fresh(prepared) && Vector(prepared, Dims(s), d => Prepared(s, r, h * Dims(s) + d))
  {
    hide Proj, LowAt, PairOf, Low, Prepared, Phase, First, Second;
    var projected := new real[Dims(s)];
    for d := 0 to Dims(s)
      invariant forall k :: 0 <= k < d ==> projected[k] == Proj(s, r, h * Dims(s) + k)
    {
      projected[d] := ProjectDim(s, r, h * Dims(s) + d);
    }
    prepared := new real[Dims(s)];
    for d := 0 to Dims(s)
      invariant forall k :: 0 <= k < Dims(s) ==> projected[k] == Proj(s, r, h * Dims(s) + k)
      invariant forall k :: 0 <= k < d ==> prepared[k] == Prepared(s, r, h * Dims(s) + k)
    {
      if d < s.half {
        PreparedForms(s, r, h, d);
        prepared[d] := First(projected[d], projected[s.half + d], s.cos(Phase(s, r, d)), s.sin(Phase(s, r, d)));
      } else {
        PreparedForms(s, r, h, d - s.half);
        assert s.half + (d - s.half) == d;
        prepared[d] := Second(projected[d - s.half], projected[d], s.cos(Phase(s, r, d - s.half)),
                              s.sin(Phase(s, r, d - s.half)));
      }
    }
  }

  lemma PreparedForms(s: Rotary, r: int, h: nat, e: nat)
    requires e < s.half
    ensures Prepared(s, r, h * Dims(s) + e)
            == First(Proj(s, r, h * Dims(s) + e), Proj(s, r, h * Dims(s) + (s.half + e)), s.cos(Phase(s, r, e)),
                     s.sin(Phase(s, r, e)))
    ensures Prepared(s, r, h * Dims(s) + (s.half + e))
            == Second(Proj(s, r, h * Dims(s) + e), Proj(s, r, h * Dims(s) + (s.half + e)), s.cos(Phase(s, r, e)),
                      s.sin(Phase(s, r, e)))
  {
    hide Proj, LowAt, HighAt, PairOf, Low, Dims, Phase, First, Second;
    PairForms(s, h, e);
  }

  // ---- one pair ----

  /** What pair `x` adds to input `i` of the hidden row. */
  ghost function PairHidden(s: Rotary, g: (int, int) -> real, r: int, i: int, x: int): real {
    Mul(LowBack(s, g, r, x), s.w(LowAt(s, x), i)) + Mul(HighBack(s, g, r, x), s.w(HighAt(s, x), i))
  }

  /** What it adds to weight (p, i): its own two rows only. */
  ghost function PairWeight(s: Rotary, g: (int, int) -> real, r: int, p: int, i: int, x: int): real {
    if PairOf(s, p) == x then WTerm(s, g, p, i, r) else 0.0
  }

  ghost function PairFreq(s: Rotary, g: (int, int) -> real, r: int, x: int): real { Mul(Swing(s, g, r, x), r as real) }

  /** What it adds to frequency `e`: its own only. */
  ghost function PairTurn(s: Rotary, g: (int, int) -> real, r: int, e: int, x: int): real {
    if x % s.half == e then PairFreq(s, g, r, x) else 0.0
  }

  /** The pair's gradients through the rotation. */
  method PairBack(s: Rotary, ghost g: (int, int) -> real, r: nat, x: nat, grad: array2<real>)
    returns (low: real, high: real, turn: real)
    requires r < s.rows && x < Pairs(s) && Matrix(grad, s.rows, Wide(s), g)
    ensures low == LowBack(s, g, r, x) && high == HighBack(s, g, r, x) && turn == PairFreq(s, g, r, x)
  {
    hide Mul, Proj, Pairs, Wide, LowAt, LowBackOf, HighBackOf, SwingOf;
    var p0 := ProjectDim(s, r, LowAt(s, x));
    var p1 := ProjectDim(s, r, HighAt(s, x));
    var c, z := Cos(s, r, x), Sin(s, r, x);
    var g0, g1 := grad[r, LowAt(s, x)], grad[r, HighAt(s, x)];
    low, high := LowBackOf(g0, g1, c, z), HighBackOf(g0, g1, c, z);
    turn := Mul(SwingOf(g0, g1, p0, p1, c, z), r as real);
  }

  lemma PairWeights(s: Rotary, g: (int, int) -> real, r: int, x: int)
    requires 0 <= x < Pairs(s)
    ensures forall i :: WTerm(s, g, LowAt(s, x), i, r) == Mul(LowBack(s, g, r, x), s.u(r, i))
    ensures forall i :: WTerm(s, g, HighAt(s, x), i, r) == Mul(HighBack(s, g, r, x), s.u(r, i))
    ensures forall p {:trigger PairOf(s, p)} :: 0 <= p < Wide(s) ==>
            (PairOf(s, p) == x <==> p == LowAt(s, x) || p == HighAt(s, x))
    ensures LowAt(s, x) != HighAt(s, x)
  {
    hide Mul, LowBack, HighBack, LowAt, PairOf, Low, Pairs, Wide;
    AtPair(s, x);
    forall p | 0 <= p < Wide(s) && PairOf(s, p) == x ensures p == LowAt(s, x) || p == HighAt(s, x) {
      BackToComponent(s, p);
    }
  }

  /** A component is one of its pair's two. */
  lemma BackToComponent(s: Rotary, p: int)
    requires 0 <= p < Wide(s)
    ensures p == LowAt(s, PairOf(s, p)) || p == HighAt(s, PairOf(s, p))
    ensures 0 <= PairOf(s, p) < Pairs(s)
  {
    hide Dims, LowAt, HighAt, PairOf, Low;
    var h, d := p / Dims(s), p % Dims(s);
    DivRange(p, s.heads, Dims(s));
    Components(s, h, d);
    assert p == h * Dims(s) + d;
  }

  lemma Components(s: Rotary, h: nat, d: nat)
    requires h < s.heads && d < Dims(s)
    ensures h * Dims(s) + d == LowAt(s, PairOf(s, h * Dims(s) + d))
            || h * Dims(s) + d == HighAt(s, PairOf(s, h * Dims(s) + d))
    ensures 0 <= PairOf(s, h * Dims(s) + d) < Pairs(s)
  {
    hide LowAt, HighAt, PairOf, Low;
    var e := if d < s.half then d else d - s.half;
    PairForms(s, h, e);
    FlatRange(h, s.heads, e, s.half);
  }

  /** Pair `x` of row `r`, reversed. */
  method PairScatter(s: Rotary, ghost g: (int, int) -> real, r: nat, x: nat, grad: array2<real>, w: array2<real>,
                     hidden: array2<real>, freq: array<real>)
    requires r < s.rows && x < Pairs(s) && Matrix(grad, s.rows, Wide(s), g)
    requires w.Length0 == Wide(s) && w.Length1 == s.width && hidden.Length0 == s.rows && hidden.Length1 == s.width
    requires freq.Length == s.half && grad !in {w, hidden} && w != hidden
    modifies w, hidden, freq
    ensures forall p, i :: 0 <= p < Wide(s) && 0 <= i < s.width ==>
              w[p, i] == old(w[p, i]) + PairWeight(s, g, r, p, i, x)
    ensures forall q, i :: 0 <= q < s.rows && 0 <= i < s.width ==>
              hidden[q, i] == old(hidden[q, i]) + if q == r then PairHidden(s, g, r, i, x) else 0.0
    ensures forall e :: 0 <= e < s.half ==>
              freq[e] == old(freq[e]) + PairTurn(s, g, r, e, x)
  {
    hide Mul, LowBack, HighBack, LowAt, PairOf, Pairs, Wide, WTerm, PairFreq;
    var low, high, turn := PairBack(s, g, r, x, grad);
    PairWeights(s, g, r, x);
    AddEntry(freq, x % s.half, turn);
    for i := 0 to s.width
      invariant forall e :: 0 <= e < s.half ==>
                freq[e] == old(freq[e]) + PairTurn(s, g, r, e, x)
      invariant forall p, k :: 0 <= p < Wide(s) && 0 <= k < s.width ==>
                  w[p, k] == old(w[p, k])
                             + if (p == LowAt(s, x) || p == HighAt(s, x)) && k < i then WTerm(s, g, p, k, r) else 0.0
      invariant forall q, k :: 0 <= q < s.rows && 0 <= k < s.width ==>
                  hidden[q, k] == old(hidden[q, k]) + if q == r && k < i then PairHidden(s, g, r, k, x) else 0.0
    {
      AddCell(w, LowAt(s, x), i, Mul(low, s.u(r, i)));
      AddCell(w, HighAt(s, x), i, Mul(high, s.u(r, i)));
      AddCell(hidden, r, i, Mul(low, s.w(LowAt(s, x), i)) + Mul(high, s.w(HighAt(s, x), i)));
    }
  }

  // ---- one row, its pairs in any order ----

  /** What the first `n` pairs of `order` have added. */
  ghost function WUpto(s: Rotary, g: (int, int) -> real, r: int, order: seq<int>, n: int, p: int, i: int): real
    requires 0 <= n <= |order|
  {
    SeqSum(order[..n], x => PairWeight(s, g, r, p, i, x))
  }

  ghost function HiddenUpto(s: Rotary, g: (int, int) -> real, r: int, order: seq<int>, n: int, i: int): real
    requires 0 <= n <= |order|
  {
    SeqSum(order[..n], x => PairHidden(s, g, r, i, x))
  }

  ghost function FreqUpto(s: Rotary, g: (int, int) -> real, r: int, order: seq<int>, n: int, e: int): real
    requires 0 <= n <= |order|
  {
    SeqSum(order[..n], x => PairTurn(s, g, r, e, x))
  }

  lemma UptoSteps(s: Rotary, g: (int, int) -> real, r: int, order: seq<int>, n: nat)
    requires n < |order|
    ensures forall p, i {:trigger WUpto(s, g, r, order, n + 1, p, i)} ::
              WUpto(s, g, r, order, n + 1, p, i)
              == WUpto(s, g, r, order, n, p, i) + PairWeight(s, g, r, p, i, order[n])
    ensures forall i {:trigger HiddenUpto(s, g, r, order, n + 1, i)} ::
              HiddenUpto(s, g, r, order, n + 1, i)
              == HiddenUpto(s, g, r, order, n, i) + PairHidden(s, g, r, i, order[n])
    ensures forall e {:trigger FreqUpto(s, g, r, order, n + 1, e)} ::
              FreqUpto(s, g, r, order, n + 1, e)
              == FreqUpto(s, g, r, order, n, e) + PairTurn(s, g, r, e, order[n])
  {
    hide PairHidden, PairTurn, PairWeight, SeqSum;
    forall p, i
      ensures WUpto(s, g, r, order, n + 1, p, i)
              == WUpto(s, g, r, order, n, p, i) + PairWeight(s, g, r, p, i, order[n])
    {
      TermStep(order, n, x => PairWeight(s, g, r, p, i, x));
    }
    forall i ensures HiddenUpto(s, g, r, order, n + 1, i)
                     == HiddenUpto(s, g, r, order, n, i) + PairHidden(s, g, r, i, order[n]) {
      TermStep(order, n, x => PairHidden(s, g, r, i, x));
    }
    forall e
      ensures FreqUpto(s, g, r, order, n + 1, e)
              == FreqUpto(s, g, r, order, n, e) + PairTurn(s, g, r, e, order[n])
    {
      TermStep(order, n, x => PairTurn(s, g, r, e, x));
    }
  }

  lemma UptoStart(s: Rotary, g: (int, int) -> real, r: int, order: seq<int>)
    ensures forall p, i :: WUpto(s, g, r, order, 0, p, i) == 0.0
    ensures forall i :: HiddenUpto(s, g, r, order, 0, i) == 0.0
    ensures forall e :: FreqUpto(s, g, r, order, 0, e) == 0.0
  {
    hide PairHidden, PairFreq, WTerm, PairOf;
  }

  lemma UptoEnd(s: Rotary, g: (int, int) -> real, r: int, order: seq<int>)
    requires Permutation(order, Pairs(s))
    ensures forall p, i {:trigger WUpto(s, g, r, order, |order|, p, i)} :: 0 <= p < Wide(s) ==>
              WUpto(s, g, r, order, |order|, p, i) == WTerm(s, g, p, i, r)
    ensures forall i {:trigger HiddenUpto(s, g, r, order, |order|, i)} ::
              HiddenUpto(s, g, r, order, |order|, i) == HiddenGrad(s, g, r, i)
    ensures forall e {:trigger FreqUpto(s, g, r, order, |order|, e)} ::
              FreqUpto(s, g, r, order, |order|, e) == FreqTerm(s, g, e, r)
  {
    hide PairHidden, PairTurn, WTerm, HiddenGrad, FreqTerm, PairOf, Pairs, Wide, SeqSum, Sum, Permutation;
    assert order[..|order|] == order;
    forall p, i | 0 <= p < Wide(s) ensures WUpto(s, g, r, order, |order|, p, i) == WTerm(s, g, p, i, r) {
      var f := (x: int) => PairWeight(s, g, r, p, i, x);
      SumAnyOrder(order, Pairs(s), f);
      BackToComponent(s, p);
      SumDelta(Pairs(s), PairOf(s, p), f);
    }
    forall i ensures HiddenUpto(s, g, r, order, |order|, i) == HiddenGrad(s, g, r, i) {
      SumAnyOrder(order, Pairs(s), x => PairHidden(s, g, r, i, x));
      HiddenPairs(s, g, r, i, x => PairHidden(s, g, r, i, x));
    }
    forall e ensures FreqUpto(s, g, r, order, |order|, e) == FreqTerm(s, g, e, r) {
      SumAnyOrder(order, Pairs(s), x => PairTurn(s, g, r, e, x));
      FreqPairs(s, g, r, e, x => PairTurn(s, g, r, e, x));
    }
  }

  lemma HiddenPairs(s: Rotary, g: (int, int) -> real, r: int, i: int, pairs: int -> real)
    requires forall x {:trigger pairs(x)} :: pairs(x) == PairHidden(s, g, r, i, x)
    ensures Sum(Pairs(s), pairs) == HiddenGrad(s, g, r, i)
  {
    hide Sum, Mul, LowBack, HighBack, LowAt, PairOf, Low, Pairs, Wide;
    var f := (p: int) => Mul(ProjGrad(s, g, r, p), s.w(p, i));
    forall x | 0 <= x < Pairs(s) ensures pairs(x) == f(LowAt(s, x)) + f(HighAt(s, x)) {
      AtPair(s, x);
    }
    SumOfPairs(s, f, pairs);
    SumEq(Wide(s), f, p => Mul(ProjGrad(s, g, r, p), s.w(p, i)));
  }

  lemma FreqPairs(s: Rotary, g: (int, int) -> real, r: int, e: int, pairs: int -> real)
    requires forall x {:trigger pairs(x)} :: pairs(x) == PairTurn(s, g, r, e, x)
    ensures Sum(Pairs(s), pairs) == FreqTerm(s, g, e, r)
  {
    hide Sum, Mul, Swing, Pairs;
    var key, w := (x: int) => x % s.half, (x: int) => Mul(Swing(s, g, r, x), r as real);
    assert FreqTerm(s, g, e, r) == Keyed(Pairs(s), key, w, e);
    SumEq(Pairs(s), pairs, x => if key(x) == e then w(x) else 0.0);
  }

  /** Row `r`, its pairs in any order. */
  method SideRow(s: Rotary, ghost g: (int, int) -> real, r: nat, order: seq<int>, grad: array2<real>, w: array2<real>,
                 hidden: array2<real>, freq: array<real>)
    requires r < s.rows && Permutation(order, Pairs(s)) && Matrix(grad, s.rows, Wide(s), g)
    requires w.Length0 == Wide(s) && w.Length1 == s.width && hidden.Length0 == s.rows && hidden.Length1 == s.width
    requires freq.Length == s.half && grad !in {w, hidden} && w != hidden
    modifies w, hidden, freq
    ensures forall p, i :: 0 <= p < Wide(s) && 0 <= i < s.width ==> w[p, i] == old(w[p, i]) + WTerm(s, g, p, i, r)
    ensures forall q, i :: 0 <= q < s.rows && 0 <= i < s.width ==>
              hidden[q, i] == old(hidden[q, i]) + if q == r then HiddenGrad(s, g, r, i) else 0.0
    ensures forall e :: 0 <= e < s.half ==> freq[e] == old(freq[e]) + FreqTerm(s, g, e, r)
  {
    hide PairHidden, PairTurn, PairWeight, WTerm, HiddenGrad, FreqTerm, Pairs, Wide, WUpto, HiddenUpto, FreqUpto,
         Permutation;
    UptoStart(s, g, r, order);
    for n := 0 to |order|
      invariant forall p, i :: 0 <= p < Wide(s) && 0 <= i < s.width ==>
                  w[p, i] == old(w[p, i]) + WUpto(s, g, r, order, n, p, i)
      invariant forall q, i :: 0 <= q < s.rows && 0 <= i < s.width ==>
                  hidden[q, i] == old(hidden[q, i]) + if q == r then HiddenUpto(s, g, r, order, n, i) else 0.0
      invariant forall e :: 0 <= e < s.half ==> freq[e] == old(freq[e]) + FreqUpto(s, g, r, order, n, e)
    {
      InRange(order, Pairs(s), n);
      UptoSteps(s, g, r, order, n);
      PairScatter(s, g, r, order[n], grad, w, hidden, freq);
    }
    UptoEnd(s, g, r, order);
  }
}
