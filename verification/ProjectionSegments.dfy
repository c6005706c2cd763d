/** A dense projection of every row, and the reversal of a run of its output dimensions: what it scatters into the
    input rows' gradient and the weights' gradient. */
module ProjectionSegments {
  import opened Sums
  import opened Stages

  /** Inputs `u` and weights `w` of a projection, and their tangents. */
  datatype Dense = Dense(rows: nat, width: nat, u: (int, int) -> real, w: (int, int) -> real, du: (int, int) -> real,
                         dw: (int, int) -> real)

  ghost function MoveTerm(p: Dense, row: int, q: int, i: int): real {
    Mul(p.du(row, i), p.w(q, i)) + Mul(p.u(row, i), p.dw(q, i))
  }

  /** The tangent of output dimension `q` of a row. */
  ghost function Move(p: Dense, row: int, q: int): real { Sum(p.width, i => MoveTerm(p, row, q, i)) }

  /** A run of output dimensions of row `row` with their cotangents; `on` is false when the row does not exist. */
  datatype Segment = Segment(on: bool, size: nat, at: nat, row: int, coef: int -> real)

  ghost function SegMove(p: Dense, s: Segment): real {
    if s.on then Sum(s.size, q => Mul(s.coef(q), Move(p, s.row, s.at + q))) else 0.0
  }

  ghost function SegHidden(w: (int, int) -> real, s: Segment, i: int): real {
    Sum(s.size, q => Mul(s.coef(q), w(s.at + q, i)))
  }

  ghost function SegWeight(u: (int, int) -> real, s: Segment, q: int, i: int): real {
    if s.on && s.at <= q < s.at + s.size then Mul(s.coef(q - s.at), u(s.row, i)) else 0.0
  }

  /** What the segment scatters to input `i` of row `r`. */
  ghost function SegInput(w: (int, int) -> real, s: Segment, r: int, i: int): real {
    if s.on && r == s.row then SegHidden(w, s, i) else 0.0
  }

  ghost function SegRow(p: Dense, s: Segment, r: int): real {
    if s.on && r == s.row then Pair(p.width, i => SegHidden(p.w, s, i), i => p.du(r, i)) else 0.0
  }

  lemma SegLinear(p: Dense, s: Segment)
    ensures Sum(s.size, q => Mul(s.coef(q), Move(p, s.row, s.at + q)))
         == Pair(p.width, i => SegHidden(p.w, s, i), i => p.du(s.row, i))
            + Pair2(s.size, p.width, (q, i) => Mul(s.coef(q), p.u(s.row, i)), (q, i) => p.dw(s.at + q, i))
  {
    hide Sum, Mul, Move, Pair2;
    PairMul(s.size, s.coef, q => Move(p, s.row, s.at + q), q => Mul(s.coef(q), Move(p, s.row, s.at + q)));
    SegProduct(p, s, q => Move(p, s.row, s.at + q), i => SegHidden(p.w, s, i), i => p.du(s.row, i),
               (q, i) => Mul(s.coef(q), p.u(s.row, i)), (q, i) => p.dw(s.at + q, i));
  }

  lemma SegProduct(p: Dense, s: Segment, moves: int -> real, hidden: int -> real, du: int -> real,
                   weight: (int, int) -> real, dw: (int, int) -> real)
    requires forall q {:trigger moves(q)} :: moves(q) == Move(p, s.row, s.at + q)
    requires forall i {:trigger hidden(i)} :: hidden(i) == SegHidden(p.w, s, i)
    requires forall i {:trigger du(i)} :: du(i) == p.du(s.row, i)
    requires forall q, i {:trigger weight(q, i)} :: weight(q, i) == Mul(s.coef(q), p.u(s.row, i))
    requires forall q, i {:trigger dw(q, i)} :: dw(q, i) == p.dw(s.at + q, i)
    ensures Pair(s.size, s.coef, moves) == Pair(p.width, hidden, du) + Pair2(s.size, p.width, weight, dw)
  {
    hide Sum, Mul, MoveTerm, Move, SegHidden, Row, Pair, Pair2;
    var u, w := (i: int) => p.u(s.row, i), (q: int, i: int) => p.w(s.at + q, i);
    var terms, back := (q: int, i: int) => Mul(du(i), w(q, i)) + Mul(u(i), dw(q, i)),
                       (i: int, q: int) => Mul(s.coef(q), w(q, i));
    SegRows(p, s, moves, hidden, terms, back);
    Linear(s.size, p.width, s.coef, u, du, w, dw, terms, moves, back, hidden, weight);
  }

  lemma SegRows(p: Dense, s: Segment, moves: int -> real, hidden: int -> real, terms: (int, int) -> real,
                back: (int, int) -> real)
    requires forall q {:trigger moves(q)} :: moves(q) == Move(p, s.row, s.at + q)
    requires forall i {:trigger hidden(i)} :: hidden(i) == SegHidden(p.w, s, i)
    requires forall q, i {:trigger terms(q, i)} ::
               terms(q, i) == Mul(p.du(s.row, i), p.w(s.at + q, i)) + Mul(p.u(s.row, i), p.dw(s.at + q, i))
    requires forall i, q {:trigger back(i, q)} :: back(i, q) == Mul(s.coef(q), p.w(s.at + q, i))
    ensures forall q {:trigger moves(q)} :: moves(q) == Row(p.width, terms, q)
    ensures forall i {:trigger hidden(i)} :: hidden(i) == Row(s.size, back, i)
  {
    hide Sum, Mul;
    forall q ensures moves(q) == Row(p.width, terms, q) {
      SumEq(p.width, i => MoveTerm(p, s.row, s.at + q, i), i => terms(q, i));
    }
    forall i ensures hidden(i) == Row(s.size, back, i) {
      SumEq(s.size, q => Mul(s.coef(q), p.w(s.at + q, i)), q => back(i, q));
    }
  }

  /** A sum over the segment's dimensions as a sum over all of them. */
  lemma SumPad(n: nat, at: nat, size: nat, f: int -> real, g: int -> real)
    requires at + size <= n
    requires forall p {:trigger f(p)} :: 0 <= p < n ==> f(p) == if at <= p < at + size then g(p - at) else 0.0
    ensures Sum(n, f) == Sum(size, g)
  {
    hide Sum;
    var inside, after := (q: int) => f(at + q), (i: int) => f(at + size + i);
    SumSplit(at + size, n - at - size, f);
    SumSplit(at, size, f);
    SumZero(at, f);
    forall q | 0 <= q < size ensures inside(q) == g(q) {
      assert f(at + q) == g(at + q - at);
    }
    SumEq(size, inside, g);
    SumZero(n - at - size, after);
  }

  lemma SegWeights(p: Dense, dims: nat, s: Segment)
    requires s.at + s.size <= dims
    ensures Pair2(dims, p.width, (q, i) => SegWeight(p.u, s, q, i), p.dw)
         == if s.on then Pair2(s.size, p.width, (q, i) => Mul(s.coef(q), p.u(s.row, i)), (q, i) => p.dw(s.at + q, i))
            else 0.0
  {
    hide Sum, Mul;
    var w := (q: int, i: int) => SegWeight(p.u, s, q, i);
    var c, e := (q: int, i: int) => Mul(s.coef(q), p.u(s.row, i)), (q: int, i: int) => p.dw(s.at + q, i);
    var all, part := (k: int) => PairRow(p.width, w, p.dw, k), (q: int) => PairRow(p.width, c, e, q);
    Pair2Rows(dims, p.width, w, p.dw);
    Pair2Rows(s.size, p.width, c, e);
    forall k ensures all(k) == if s.on && s.at <= k < s.at + s.size then part(k - s.at) else 0.0 {
      var x := (i: int) => Mul(w(k, i), p.dw(k, i));
      PairRowMul(p.width, w, p.dw, k, x);
      if s.on && s.at <= k < s.at + s.size {
        PairRowMul(p.width, c, e, k - s.at, x);
      } else {
        forall i ensures x(i) == 0.0 {
          MulAdd(w(k, i), 0.0, 0.0, p.dw(k, i));
        }
        SumZero(p.width, x);
      }
    }
    if s.on {
      SumPad(dims, s.at, s.size, all, part);
    } else {
      SumZero(dims, all);
    }
  }

  /** A segment's move is what it scatters, paired with the tangents of what it scatters to. */
  lemma SegStage(p: Dense, dims: nat, s: Segment)
    requires s.at + s.size <= dims && (s.on ==> 0 <= s.row < p.rows)
    ensures SegMove(p, s)
         == Sum(p.rows, r => SegRow(p, s, r)) + Pair2(dims, p.width, (q, i) => SegWeight(p.u, s, q, i), p.dw)
  {
    hide Sum, Pair, Pair2, Move;
    SegLinear(p, s);
    SegWeights(p, dims, s);
    SumDelta(p.rows, s.row, r => SegRow(p, s, r));
  }

  // ---- several segments at once ----

  ghost function SegsMove(p: Dense, n: nat, segs: int -> Segment): real { Sum(n, k => SegMove(p, segs(k))) }

  ghost function SegsInput(w: (int, int) -> real, n: nat, segs: int -> Segment, r: int, i: int): real {
    Sum(n, k => SegInput(w, segs(k), r, i))
  }

  ghost function SegsWeight(u: (int, int) -> real, n: nat, segs: int -> Segment, q: int, i: int): real {
    Sum(n, k => SegWeight(u, segs(k), q, i))
  }

  lemma SegsStep(p: Dense, n: nat, segs: int -> Segment)
    ensures SegsMove(p, n + 1, segs) == SegsMove(p, n, segs) + SegMove(p, segs(n))
  {
    hide SegMove;
  }

  /** `n` segments: their moves together are what they scatter together. */
  lemma SegTotal(p: Dense, dims: nat, n: nat, segs: int -> Segment)
    requires forall k {:trigger segs(k)} :: 0 <= k < n ==>
             segs(k).at + segs(k).size <= dims && (segs(k).on ==> 0 <= segs(k).row < p.rows)
    ensures SegsMove(p, n, segs)
         == Pair2(p.rows, p.width, (r, i) => SegsInput(p.w, n, segs, r, i), p.du)
            + Pair2(dims, p.width, (q, i) => SegsWeight(p.u, n, segs, q, i), p.dw)
  {
    hide Sum, SumFrom, Pair2, SegMove, SegInput, SegWeight;
    var moves := (k: int) => SegMove(p, segs(k));
    var inputs := (k: int) => Pair2(p.rows, p.width, (r, i) => SegInput(p.w, segs(k), r, i), p.du);
    var weights := (k: int) => Pair2(dims, p.width, (q, i) => SegWeight(p.u, segs(k), q, i), p.dw);
    forall k | 0 <= k < n ensures moves(k) == inputs(k) + weights(k) {
      SegStage(p, dims, segs(k));
      SegInputs(p, segs(k));
    }
    SumAdd(n, moves, inputs, weights);
    forall r, i ensures SegsInput(p.w, n, segs, r, i) == SumFrom(0, n, k => SegInput(p.w, segs(k), r, i)) {
      SumFromAll(n, k => SegInput(p.w, segs(k), r, i));
    }
    Rows2Total(n, p.rows, p.width, k => (r, i) => SegInput(p.w, segs(k), r, i),
               (r, i) => k => SegInput(p.w, segs(k), r, i), (r, i) => SegsInput(p.w, n, segs, r, i), p.du, inputs);
    forall q, i ensures SegsWeight(p.u, n, segs, q, i) == SumFrom(0, n, k => SegWeight(p.u, segs(k), q, i)) {
      SumFromAll(n, k => SegWeight(p.u, segs(k), q, i));
    }
    Rows2Total(n, dims, p.width, k => (q, i) => SegWeight(p.u, segs(k), q, i),
               (q, i) => k => SegWeight(p.u, segs(k), q, i), (q, i) => SegsWeight(p.u, n, segs, q, i), p.dw, weights);
  }

  lemma SegInputs(p: Dense, s: Segment)
    ensures Sum(p.rows, r => SegRow(p, s, r)) == Pair2(p.rows, p.width, (r, i) => SegInput(p.w, s, r, i), p.du)
  {
    hide Sum, SegHidden;
    var a, rows := (r: int, i: int) => SegInput(p.w, s, r, i), (r: int) => SegRow(p, s, r);
    forall r ensures rows(r) == PairRow(p.width, a, p.du, r) {
      PairRowForm(p.width, a, p.du, r, i => a(r, i), i => p.du(r, i));
      if s.on && r == s.row {
        PairEq(p.width, i => a(r, i), i => SegHidden(p.w, s, i), i => p.du(r, i));
      } else {
        PairZero(p.width, i => a(r, i), i => p.du(r, i));
      }
    }
    Pair2Rows(p.rows, p.width, a, p.du);
    SumEq(p.rows, rows, r => PairRow(p.width, a, p.du, r));
  }
}
