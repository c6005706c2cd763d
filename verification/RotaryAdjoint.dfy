/** The backward of a rotary projection is the exact adjoint of its linearisation: for every gradient of the prepared
    values and every tangent of the hidden rows, the weights and the frequencies. */
module RotaryAdjoint {
  import opened Sums
  import opened Stages
  import opened Indices
  import opened ProjectionSegments
  import opened RotaryProjection

  // ---- one pair ----

  lemma PairForm(g0: real, g1: real, p0: real, p1: real, t0: real, t1: real, c: real, z: real, turn: real)
    ensures Mul(g0, First(t0, t1, c, z) + Mul(FirstTurn(p0, p1, c, z), turn))
            + Mul(g1, Second(t0, t1, c, z) + Mul(SecondTurn(p0, p1, c, z), turn))
         == Mul(LowBackOf(g0, g1, c, z), t0) + Mul(HighBackOf(g0, g1, c, z), t1)
            + Mul(SwingOf(g0, g1, p0, p1, c, z), turn)
  {
  }

  /** Where the cosine and the sine are a point of the unit circle, the backward's rotation undoes the forward's. */
  lemma InverseRotation(p0: real, p1: real, c: real, z: real)
    requires c * c + z * z == 1.0
    ensures LowBackOf(First(p0, p1, c, z), Second(p0, p1, c, z), c, z) == p0
    ensures HighBackOf(First(p0, p1, c, z), Second(p0, p1, c, z), c, z) == p1
  {
    assert (p0 * c + p1 * z) * c - (p1 * c - p0 * z) * z == p0 * (c * c + z * z);
    assert (p0 * c + p1 * z) * z + (p1 * c - p0 * z) * c == p1 * (c * c + z * z);
  }

  lemma AtPair(s: Rotary, x: int)
    requires 0 <= x < Pairs(s)
    ensures Low(s, LowAt(s, x)) && PairOf(s, LowAt(s, x)) == x && !Low(s, HighAt(s, x)) && PairOf(s, HighAt(s, x)) == x
  {
    hide Dims, LowAt, HighAt, PairOf, Low;
    DivRange(x, s.heads, s.half);
    PairForms(s, x / s.half, x % s.half);
    assert x / s.half * s.half + x % s.half == x;
  }

  ghost function Moved(s: Rotary, d: Moves, g: (int, int) -> real, r: int, p: int): real {
    Mul(g(r, p), TPrepared(s, d, r, p))
  }

  ghost function Projected(s: Rotary, d: Moves, g: (int, int) -> real, r: int, p: int): real {
    Mul(ProjGrad(s, g, r, p), TProj(s, d, r, p))
  }

  ghost function Turned(s: Rotary, d: Moves, g: (int, int) -> real, r: int, x: int): real {
    Mul(Swing(s, g, r, x), TPhase(s, d, r, x))
  }

  lemma PairCell(s: Rotary, d: Moves, g: (int, int) -> real, r: int, x: int)
    requires 0 <= x < Pairs(s)
    ensures Moved(s, d, g, r, LowAt(s, x)) + Moved(s, d, g, r, HighAt(s, x))
         == Projected(s, d, g, r, LowAt(s, x)) + Projected(s, d, g, r, HighAt(s, x)) + Turned(s, d, g, r, x)
  {
    hide Mul, LowAt, HighAt, PairOf, Low, Pairs, Proj, TProj, Cos, Sin, TPhase, First, Second, FirstTurn, SecondTurn,
         LowBackOf, HighBackOf, SwingOf;
    AtPair(s, x);
    PairForm(g(r, LowAt(s, x)), g(r, HighAt(s, x)), Proj(s, r, LowAt(s, x)), Proj(s, r, HighAt(s, x)),
             TProj(s, d, r, LowAt(s, x)), TProj(s, d, r, HighAt(s, x)), Cos(s, r, x), Sin(s, r, x), TPhase(s, d, r, x));
  }

  // ---- one row ----

  /** The row's gradient against its prepared tangent: the projection's share and the phases'. */
  lemma RowPairs(s: Rotary, d: Moves, g: (int, int) -> real, r: int)
    ensures Sum(Wide(s), p => Moved(s, d, g, r, p))
         == Sum(Wide(s), p => Projected(s, d, g, r, p)) + Sum(Pairs(s), x => Turned(s, d, g, r, x))
  {
    hide Sum, Moved, Projected, Turned, LowAt, HighAt, Wide, Pairs;
    var moved, projected := (p: int) => Moved(s, d, g, r, p), (p: int) => Projected(s, d, g, r, p);
    var turned := (x: int) => Turned(s, d, g, r, x);
    var moves := (x: int) => moved(LowAt(s, x)) + moved(HighAt(s, x));
    var shares := (x: int) => projected(LowAt(s, x)) + projected(HighAt(s, x));
    forall x | 0 <= x < Pairs(s) ensures moves(x) == shares(x) + turned(x) {
      PairCell(s, d, g, r, x);
    }
    SumOfPairs(s, moved, moves);
    SumOfPairs(s, projected, shares);
    SumAdd(Pairs(s), moves, shares, turned);
  }

  /** The phases' share goes to the frequencies, which all heads share. */
  lemma RowTurns(s: Rotary, d: Moves, g: (int, int) -> real, r: int)
    ensures Sum(Pairs(s), x => Turned(s, d, g, r, x)) == Pair(s.half, e => FreqTerm(s, g, e, r), d.freq)
  {
    hide Sum, Swing, Pairs, Keyed;
    var key, w := (x: int) => x % s.half, (x: int) => Mul(Swing(s, g, r, x), r as real);
    var turned := (x: int) => Turned(s, d, g, r, x);
    forall x ensures turned(x) == w(x) * d.freq(key(x)) {
      TurnForm(Swing(s, g, r, x), r as real, d.freq(x % s.half));
    }
    forall e ensures FreqTerm(s, g, e, r) == Keyed(Pairs(s), key, w, e) {
      KeyedEq(Pairs(s), key, x => Mul(Swing(s, g, r, x), r as real), w, e);
    }
    SumByKey(s.half, Pairs(s), key, w, d.freq, e => FreqTerm(s, g, e, r), turned);
  }

  lemma TurnForm(swing: real, row: real, t: real)
    ensures Mul(swing, row * t) == Mul(swing, row) * t
  {
  }

  /** The projection's share goes to the hidden row and to the weights. */
  lemma RowLinear(s: Rotary, d: Moves, g: (int, int) -> real, r: int)
    ensures Sum(Wide(s), p => Projected(s, d, g, r, p))
         == Pair(s.width, i => HiddenGrad(s, g, r, i), i => d.u(r, i))
            + Pair2(Wide(s), s.width, (p, i) => WTerm(s, g, p, i, r), d.w)
  {
    hide Sum, Mul, ProjGrad, Move, Wide, Sum2;
    var m, seg := In(s, d), Segment(true, Wide(s), 0, r, p => ProjGrad(s, g, r, p));
    SegLinear(m, seg);
    SumEq(Wide(s), p => Projected(s, d, g, r, p), q => Mul(seg.coef(q), Move(m, seg.row, seg.at + q)));
    forall i ensures HiddenGrad(s, g, r, i) == SegHidden(s.w, seg, i) {
      SumEq(Wide(s), p => Mul(ProjGrad(s, g, r, p), s.w(p, i)), q => Mul(seg.coef(q), s.w(seg.at + q, i)));
    }
    var products := (i: int) => Mul(HiddenGrad(s, g, r, i), d.u(r, i));
    PairMul(s.width, i => HiddenGrad(s, g, r, i), i => d.u(r, i), products);
    PairMul(s.width, i => SegHidden(m.w, seg, i), i => m.du(seg.row, i), products);
    Pair2Eq(Wide(s), s.width, (q, i) => Mul(seg.coef(q), m.u(seg.row, i)), (q, i) => m.dw(seg.at + q, i),
            (p, i) => WTerm(s, g, p, i, r), d.w);
  }

  lemma RowStage(s: Rotary, d: Moves, g: (int, int) -> real, r: int)
    ensures Sum(Wide(s), p => Moved(s, d, g, r, p))
         == Pair(s.width, i => HiddenGrad(s, g, r, i), i => d.u(r, i))
            + Pair2(Wide(s), s.width, (p, i) => WTerm(s, g, p, i, r), d.w)
            + Pair(s.half, e => FreqTerm(s, g, e, r), d.freq)
  {
    hide *;
    RowPairs(s, d, g, r);
    RowTurns(s, d, g, r);
    RowLinear(s, d, g, r);
  }

  // ---- all rows ----

  lemma SideIsAdjoint(s: Rotary, d: Moves, g: (int, int) -> real)
    ensures Sum(s.rows, r => Sum(Wide(s), p => Moved(s, d, g, r, p)))
         == Pair2(s.rows, s.width, (r, i) => HiddenGrad(s, g, r, i), d.u)
            + Pair2(Wide(s), s.width, (p, i) => WGrad(s, g, p, i), d.w)
            + Pair(s.half, e => FreqGrad(s, g, e), d.freq)
  {
    hide Sum, Pair, Pair2, Moved, Wide, HiddenGrad, WTerm, FreqTerm, PairRow;
    var all := (r: int) => Sum(Wide(s), p => Moved(s, d, g, r, p));
    var u := (r: int) => Pair(s.width, i => HiddenGrad(s, g, r, i), i => d.u(r, i));
    var w := (r: int) => Pair2(Wide(s), s.width, (p, i) => WTerm(s, g, p, i, r), d.w);
    var f := (r: int) => Pair(s.half, e => FreqTerm(s, g, e, r), d.freq);
    forall r ensures all(r) == u(r) + w(r) + f(r) {
      RowStage(s, d, g, r);
    }
    SumAdd3(s.rows, all, u, w, f);
    HiddenTotal(s, d, g, u);
    WeightTotals(s, d, g, w, f);
  }

  lemma HiddenTotal(s: Rotary, d: Moves, g: (int, int) -> real, rows: int -> real)
    requires forall r {:trigger rows(r)} :: rows(r) == Pair(s.width, i => HiddenGrad(s, g, r, i), i => d.u(r, i))
    ensures Sum(s.rows, rows) == Pair2(s.rows, s.width, (r, i) => HiddenGrad(s, g, r, i), d.u)
  {
    hide Sum, Pair, PairRow, HiddenGrad;
    var h := (r: int, i: int) => HiddenGrad(s, g, r, i);
    forall r ensures rows(r) == PairRow(s.width, h, d.u, r) {
      PairRowForm(s.width, h, d.u, r, i => HiddenGrad(s, g, r, i), i => d.u(r, i));
    }
    SumEq(s.rows, rows, r => PairRow(s.width, h, d.u, r));
    Pair2Rows(s.rows, s.width, h, d.u);
  }

  lemma WeightTotals(s: Rotary, d: Moves, g: (int, int) -> real, w: int -> real, f: int -> real)
    requires forall r {:trigger w(r)} :: w(r) == Pair2(Wide(s), s.width, (p, i) => WTerm(s, g, p, i, r), d.w)
    requires forall r {:trigger f(r)} :: f(r) == Pair(s.half, e => FreqTerm(s, g, e, r), d.freq)
    ensures Sum(s.rows, w) == Pair2(Wide(s), s.width, (p, i) => WGrad(s, g, p, i), d.w)
    ensures Sum(s.rows, f) == Pair(s.half, e => FreqGrad(s, g, e), d.freq)
  {
    hide Sum, SumFrom, Pair, Pair2, Wide, WTerm, FreqTerm;
    forall p, i ensures WGrad(s, g, p, i) == SumFrom(0, s.rows, r => WTerm(s, g, p, i, r)) {
      SumFromAll(s.rows, r => WTerm(s, g, p, i, r));
    }
    forall e ensures FreqGrad(s, g, e) == SumFrom(0, s.rows, r => FreqTerm(s, g, e, r)) {
      SumFromAll(s.rows, r => FreqTerm(s, g, e, r));
    }
    Rows2Total(s.rows, Wide(s), s.width, r => (p, i) => WTerm(s, g, p, i, r), (p, i) => r => WTerm(s, g, p, i, r),
               (p, i) => WGrad(s, g, p, i), d.w, w);
    RowsTotal(s.rows, s.half, r => e => FreqTerm(s, g, e, r), e => r => FreqTerm(s, g, e, r), e => FreqGrad(s, g, e),
              d.freq, f);
  }
}
