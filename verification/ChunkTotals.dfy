/** The chunk-scan backward block as a whole: adjointness, the transposed triangle, and conservation. */
module ChunkTotals {
  import opened Sums
  import opened Stages
  import opened ChunkModel
  import opened ChunkReal
  import opened ChunkAdjoint

  // ---- the diagonal, over all pairs of rows ----

  lemma DiagRow(k: Chunk<real>, t: Tangent, l: int)
    ensures Sum(k.dims, p => Mul(DY(k, l, p), TDiag(k, t, l, p))) == Sum(k.len, s => DiagPair(k, t, l, s))
  {
    hide Sum, DY, TDiagTerm, Mul, DiagPair, TDiag;
    var cells, flipped := (p: int, s: int) => Mul(DY(k, l, p), TDiagTerm(k, t, l, p, s)),
        (s: int, p: int) => Mul(DY(k, l, p), TDiagTerm(k, t, l, p, s));
    var rows := (p: int) => Mul(DY(k, l, p), TDiag(k, t, l, p));
    forall p ensures rows(p) == Row(k.len, cells, p) {
      DiagCells(k, t, l, p, s => cells(p, s));
    }
    SumEq(k.dims, rows, p => Row(k.len, cells, p));
    Sum2Swap(k.dims, k.len, cells, flipped);
    forall s ensures Row(k.dims, flipped, s) == DiagPair(k, t, l, s) {
      DiagColumn(k, t, l, s, p => flipped(s, p));
    }
    SumEq(k.len, s => Row(k.dims, flipped, s), s => DiagPair(k, t, l, s));
  }

  lemma DiagCells(k: Chunk<real>, t: Tangent, l: int, p: int, cells: int -> real)
    requires forall s {:trigger cells(s)} :: cells(s) == Mul(DY(k, l, p), TDiagTerm(k, t, l, p, s))
    ensures Mul(DY(k, l, p), TDiag(k, t, l, p)) == Sum(k.len, cells)
  {
    hide Sum, DY, TDiagTerm, Mul;
    TimesRow(k.len, cells, DY(k, l, p), s => TDiagTerm(k, t, l, p, s));
  }

  lemma DiagColumn(k: Chunk<real>, t: Tangent, l: int, s: int, column: int -> real)
    requires forall p {:trigger column(p)} :: column(p) == Mul(DY(k, l, p), TDiagTerm(k, t, l, p, s))
    ensures Sum(k.dims, column) == DiagPair(k, t, l, s)
  {
    hide Sum, DY, TDiagTerm, Mul;
    SumEq(k.dims, column, p => Mul(DY(k, l, p), TDiagTerm(k, t, l, p, s)));
  }

  // ---- the segment scatter ----

  /** What the segment scatter leaves at `l`: added by the pairs it closes, taken by the pairs it opens. */
  ghost function SegNet(k: Chunk<real>, l: int): real {
    Sum(k.len, s => Dseg(k, l, s)) - Sum(k.len, s => Dseg(k, s, l))
  }

  /** The gradient of the cumulative decay at `l`. */
  ghost function DAcs(k: Chunk<real>, l: int): real { OffSum(k, l) + SegNet(k, l) }

  lemma SegMoveForm(k: Chunk<real>, t: Tangent, l: int, s: int)
    requires Real(k.ops)
    ensures SegMove(k, t, l, s) == Mul(Dseg(k, l, s), t.dacs(l)) - Mul(Dseg(k, l, s), t.dacs(s))
  {
    hide Dseg, Lmat, Outer;
    DsegForm(k, l, s);
    Difference(Seg(k, l, s), t.dacs(l), t.dacs(s));
    if s > l {
      NoWeight(k.dt(s), Outer(k, l, s), k.cb(l, s));
    }
  }

  lemma Difference(x: real, a: real, b: real)
    ensures Mul(x, a - b) == Mul(x, a) - Mul(x, b)
  {
  }

  lemma NoWeight(dt: real, o: real, cb: real)
    ensures Mul(Mul(Mul(0.0, dt), o), cb) == 0.0
  {
  }

  lemma SegTotal(k: Chunk<real>, t: Tangent)
    requires Real(k.ops)
    ensures Sum2(k.len, k.len, (l, s) => SegMove(k, t, l, s)) == Sum(k.len, l => Mul(SegNet(k, l), t.dacs(l)))
  {
    hide Sum, Sum2, Dseg, Mul, SegMove, Row;
    var moves := (l: int, s: int) => SegMove(k, t, l, s);
    var plus, minus := (l: int, s: int) => Mul(Dseg(k, l, s), t.dacs(l)),
        (l: int, s: int) => Mul(Dseg(k, l, s), t.dacs(s));
    var flipped := (s: int, l: int) => minus(l, s);
    forall l, s ensures plus(l, s) == moves(l, s) + minus(l, s) {
      SegMoveForm(k, t, l, s);
    }
    Sum2Add(k.len, k.len, plus, moves, minus);
    Sum2Swap(k.len, k.len, minus, flipped);
    var net, a, b := (l: int) => Mul(SegNet(k, l), t.dacs(l)), (l: int) => Row(k.len, plus, l),
        (l: int) => Row(k.len, flipped, l);
    forall l ensures a(l) == net(l) + b(l) {
      SegRow(k, t, l, s => plus(l, s), s => flipped(l, s));
      RowIs(k.len, plus, l, s => plus(l, s));
      RowIs(k.len, flipped, l, s => flipped(l, s));
    }
    SumAdd(k.len, a, net, b);
    Sum2Is(k.len, k.len, plus, a);
    Sum2Is(k.len, k.len, flipped, b);
  }

  lemma RowIs(n: int, f: (int, int) -> real, i: int, row: int -> real)
    requires forall j {:trigger row(j)} :: row(j) == f(i, j)
    ensures Row(n, f, i) == Sum(n, row)
  {
    hide Sum;
    SumEq(n, row, j => f(i, j));
  }

  lemma Sum2Is(n: int, k: int, f: (int, int) -> real, rows: int -> real)
    requires forall i {:trigger rows(i)} :: rows(i) == Row(k, f, i)
    ensures Sum2(n, k, f) == Sum(n, rows)
  {
    hide Sum, Row;
    SumEq(n, rows, i => Row(k, f, i));
  }

  lemma SegRow(k: Chunk<real>, t: Tangent, l: int, plus: int -> real, minus: int -> real)
    requires forall s {:trigger plus(s)} :: plus(s) == Mul(Dseg(k, l, s), t.dacs(l))
    requires forall s {:trigger minus(s)} :: minus(s) == Mul(Dseg(k, s, l), t.dacs(l))
    ensures Sum(k.len, plus) == Mul(SegNet(k, l), t.dacs(l)) + Sum(k.len, minus)
  {
    hide Sum, Dseg;
    RowTimes(k.len, plus, s => Dseg(k, l, s), t.dacs(l));
    RowTimes(k.len, minus, s => Dseg(k, s, l), t.dacs(l));
  }

  /** The scatter only moves: over the chunk it sums to zero. */
  lemma {:induction false} SegConserves(k: Chunk<real>)
    ensures Sum(k.len, l => SegNet(k, l)) == 0.0
  {
    hide Sum, Dseg, Sum2;
    var f, g := (l: int, s: int) => Dseg(k, l, s), (s: int, l: int) => Dseg(k, l, s);
    Sum2Swap(k.len, k.len, f, g);
    var a, b, net := (l: int) => Row(k.len, f, l), (l: int) => Row(k.len, g, l), (l: int) => SegNet(k, l);
    forall l ensures a(l) == net(l) + b(l) {
      RowIs(k.len, f, l, s => Dseg(k, l, s));
      RowIs(k.len, g, l, s => Dseg(k, s, l));
    }
    SumAdd(k.len, a, net, b);
    Sum2Is(k.len, k.len, f, a);
    Sum2Is(k.len, k.len, g, b);
  }

  // ---- gradient of C ----

  ghost function CTotal(k: Chunk<real>, t: Tangent, l: int, n: int): real { Mul(DC(k, l, n), t.c(l, n)) }

  /** Row `l`'s share of C's gradient: the off-diagonal part and the diagonal parts of every row `s`. */
  lemma CRow(k: Chunk<real>, t: Tangent, l: nat)
    requires Real(k.ops) && l < k.len
    ensures Sum(k.states, n => CTotal(k, t, l, n))
            == Sum(k.states, n => CViaOff(k, t, l, n)) + Sum(k.len, s => CMove(k, t, l, s))
  {
    hide Sum, DiagShare, Mul, CViaOff, CTotal, Row;
    var cells, flipped := (s: int, n: int) => Mul(DiagShare(k, l, n, s), t.c(l, n)),
        (n: int, s: int) => Mul(DiagShare(k, l, n, s), t.c(l, n));
    var all, off, diag := (n: int) => CTotal(k, t, l, n), (n: int) => CViaOff(k, t, l, n),
        (n: int) => Row(k.len, flipped, n);
    forall n ensures all(n) == off(n) + diag(n) {
      CCell(k, t, l, n, s => flipped(n, s));
      RowIs(k.len, flipped, n, s => flipped(n, s));
    }
    SumAdd(k.states, all, off, diag);
    Sum2Is(k.states, k.len, flipped, diag);
    Sum2Swap(k.len, k.states, cells, flipped);
    forall s ensures CMove(k, t, l, s) == Row(k.states, cells, s) {
      RowIs(k.states, cells, s, n => Mul(DiagShare(k, l, n, s), t.c(l, n)));
    }
    Sum2Is(k.len, k.states, cells, s => CMove(k, t, l, s));
  }

  lemma CCell(k: Chunk<real>, t: Tangent, l: nat, n: int, cells: int -> real)
    requires Real(k.ops) && l < k.len
    requires forall s {:trigger cells(s)} :: cells(s) == Mul(DiagShare(k, l, n, s), t.c(l, n))
    ensures CTotal(k, t, l, n) == CViaOff(k, t, l, n) + Sum(k.len, cells)
  {
    hide Sum, DiagShare, DC, Accn, Sd;
    DCForm(k, l, n);
    RowTimes(k.len, cells, s => DiagShare(k, l, n, s), t.c(l, n));
    MulAdd(DC(k, l, n), Mul(Accn(k, l, n), Sd(k, l)), Sum(k.len, s => DiagShare(k, l, n, s)), t.c(l, n));
  }

  // ---- gradient of the chunk's inputs: the transposed triangle ----

  /** The input gradients paired with any `v`. */
  ghost function InpPair(k: Chunk<real>, v: (int, int, int) -> real): real { Sum(k.len, s => InpSlice(k, v, s)) }

  ghost function InpSlice(k: Chunk<real>, v: (int, int, int) -> real, s: int): real {
    Pair2(k.dims, k.states, (p, n) => DInp(k, s, p, n), (p, n) => v(s, p, n))
  }

  lemma InpTotal(k: Chunk<real>, t: Tangent)
    requires Real(k.ops)
    ensures Sum2(k.len, k.len, (l, s) => InpMove(k, t, l, s)) == InpPair(k, t.inp)
  {
    hide Sum, InpMove, InpSlice, Row, Sum2;
    var moves, flipped := (l: int, s: int) => InpMove(k, t, l, s), (s: int, l: int) => InpMove(k, t, l, s);
    Sum2Swap(k.len, k.len, moves, flipped);
    var rows, slices := (s: int) => Row(k.len, flipped, s), (s: int) => InpSlice(k, t.inp, s);
    forall s | 0 <= s < k.len ensures rows(s) == slices(s) {
      RowIs(k.len, flipped, s, l => flipped(s, l));
      InpRow(k, t, s, l => flipped(s, l));
    }
    SumEq(k.len, rows, slices);
    Sum2Is(k.len, k.len, flipped, rows);
  }

  lemma InpRow(k: Chunk<real>, t: Tangent, s: nat, moves: int -> real)
    requires Real(k.ops)
    requires forall l {:trigger moves(l)} :: moves(l) == InpMove(k, t, l, s)
    ensures Sum(k.len, moves) == InpSlice(k, t.inp, s)
  {
    hide Sum, Sum2, SumFrom, InpShare, Pair2, DInp;
    var term, g, v := (p: int, n: int, l: int) => InpShare(k, s, p, n, l), (p: int, n: int) => DInp(k, s, p, n),
        (p: int, n: int) => t.inp(s, p, n);
    forall l ensures moves(l) == Pair2(k.dims, k.states, (p, n) => term(p, n, l), v) {
      Pair2Form(k.dims, k.states, (p, n) => term(p, n, l), v, (p, n) => InpCell(k, t, l, s, p, n));
    }
    forall p, n ensures g(p, n) == SumFrom(0, k.len, l => term(p, n, l)) {
      DInpForm(k, s, p, n);
      SumFromAll(k.len, l => term(p, n, l));
      SumEq(k.len, l => term(p, n, l), l => InpShare(k, s, p, n, l));
    }
    Pair2OverRows(k.len, k.dims, k.states, term, g, v, moves);
  }

  // ---- gradient of the carried state ----

  lemma PrevTotal(k: Chunk<real>, v: (int, int) -> real, moves: int -> real)
    requires Real(k.ops)
    requires forall l {:trigger moves(l)} ::
             moves(l) == Sum2(k.dims, k.states, (p, n) => Mul(ChunkShare(k, p, n, l), v(p, n)))
    ensures Sum(k.len, moves) == Pair2(k.dims, k.states, (p, n) => DChunk(k, p, n), v)
  {
    hide Sum, Sum2, SumFrom, ChunkShare, Pair2, DChunk;
    var term, g := (p: int, n: int, l: int) => ChunkShare(k, p, n, l), (p: int, n: int) => DChunk(k, p, n);
    forall l ensures moves(l) == Pair2(k.dims, k.states, (p, n) => term(p, n, l), v) {
      Pair2Form(k.dims, k.states, (p, n) => term(p, n, l), v, (p, n) => Mul(ChunkShare(k, p, n, l), v(p, n)));
    }
    forall p, n ensures g(p, n) == SumFrom(0, k.len, l => term(p, n, l)) {
      DChunkForm(k, p, n);
      SumFromAll(k.len, l => term(p, n, l));
      SumEq(k.len, l => term(p, n, l), l => ChunkShare(k, p, n, l));
    }
    Pair2OverRows(k.len, k.dims, k.states, term, g, v, moves);
  }

  // ---- the transposed triangle, for any v ----

  /** The forward triangle applied to `v`: rows up to `l`, decayed, against C. */
  ghost function Apply(k: Chunk<real>, v: (int, int, int) -> real, l: int, p: int): real {
    Sum(k.len, s => Mul(Weight(k, l, s), Against(k, v, l, s, p)))
  }

  ghost function Against(k: Chunk<real>, v: (int, int, int) -> real, l: int, s: int, p: int): real {
    Sum(k.states, n => Mul(k.c(l, n), v(s, p, n)))
  }

  lemma AgainstRow(k: Chunk<real>, v: (int, int, int) -> real, t: Tangent, l: int, s: int)
    requires t.inp == v
    ensures Sum(k.dims, p => Mul(DY(k, l, p), Mul(Weight(k, l, s), Against(k, v, l, s, p)))) == InpMove(k, t, l, s)
  {
    hide Sum, Weight, DY, InpMove, Against, Mul;
    var w := Weight(k, l, s);
    var cells := (p: int, n: int) => ThroughViaInp(k, t, l, s, p, n);
    var rows, outer := (p: int) => Mul(DY(k, l, p), Against(k, v, l, s, p)),
        (p: int) => Mul(DY(k, l, p), Mul(w, Against(k, v, l, s, p)));
    forall p ensures rows(p) == Row(k.states, cells, p) {
      AgainstCells(k, v, t, l, s, p, n => cells(p, n));
      RowIs(k.states, cells, p, n => cells(p, n));
    }
    Sum2Is(k.dims, k.states, cells, rows);
    forall p ensures outer(p) == Mul(w, rows(p)) {
      MulSwap3(DY(k, l, p), w, Against(k, v, l, s, p));
    }
    TimesRow(k.dims, outer, w, rows);
    InpMoveForm(k, t, l, s);
  }

  lemma AgainstCells(k: Chunk<real>, v: (int, int, int) -> real, t: Tangent, l: int, s: int, p: int, cells: int -> real)
    requires t.inp == v
    requires forall n {:trigger cells(n)} :: cells(n) == ThroughViaInp(k, t, l, s, p, n)
    ensures Mul(DY(k, l, p), Against(k, v, l, s, p)) == Sum(k.states, cells)
  {
    hide Sum, DY;
    forall n ensures cells(n) == Mul(DY(k, l, p), Mul(k.c(l, n), v(s, p, n))) {
      MulAssoc(DY(k, l, p), k.c(l, n), v(s, p, n));
    }
    TimesRow(k.states, cells, DY(k, l, p), n => Mul(k.c(l, n), v(s, p, n)));
  }

  lemma ApplyRow(k: Chunk<real>, v: (int, int, int) -> real, t: Tangent, l: int)
    requires t.inp == v
    ensures Sum(k.dims, p => Mul(DY(k, l, p), Apply(k, v, l, p))) == Sum(k.len, s => InpMove(k, t, l, s))
  {
    hide Sum, DY, Weight, Against, Mul, InpMove, Row, Apply;
    var cells, flipped := (p: int, s: int) => Mul(DY(k, l, p), Mul(Weight(k, l, s), Against(k, v, l, s, p))),
                          (s: int, p: int) => Mul(DY(k, l, p), Mul(Weight(k, l, s), Against(k, v, l, s, p)));
    var rows := (p: int) => Mul(DY(k, l, p), Apply(k, v, l, p));
    forall p ensures rows(p) == Row(k.len, cells, p) {
      ApplyCells(k, v, l, p, s => cells(p, s));
      RowIs(k.len, cells, p, s => cells(p, s));
    }
    Sum2Is(k.dims, k.len, cells, rows);
    Sum2Swap(k.dims, k.len, cells, flipped);
    var moves := (s: int) => InpMove(k, t, l, s);
    forall s ensures moves(s) == Row(k.dims, flipped, s) {
      AgainstRow(k, v, t, l, s);
      RowIs(k.dims, flipped, s, p => Mul(DY(k, l, p), Mul(Weight(k, l, s), Against(k, v, l, s, p))));
    }
    Sum2Is(k.len, k.dims, flipped, moves);
  }

  lemma ApplyCells(k: Chunk<real>, v: (int, int, int) -> real, l: int, p: int, cells: int -> real)
    requires forall s {:trigger cells(s)} :: cells(s) == Mul(DY(k, l, p), Mul(Weight(k, l, s), Against(k, v, l, s, p)))
    ensures Mul(DY(k, l, p), Apply(k, v, l, p)) == Sum(k.len, cells)
  {
    hide Sum, DY, Weight, Against, Mul;
    TimesRow(k.len, cells, DY(k, l, p), s => Mul(Weight(k, l, s), Against(k, v, l, s, p)));
  }

  /** The kernel's loop over l >= s is the transpose of the forward triangle over s <= l: for every `v`. */
  lemma TransposedTriangle(k: Chunk<real>, v: (int, int, int) -> real)
    requires Real(k.ops)
    ensures InpPair(k, v) == Sum(k.len, l => Sum(k.dims, p => Mul(DY(k, l, p), Apply(k, v, l, p))))
  {
    hide Sum, DY, Apply, InpMove, Row, Sum2, Mul, InpPair;
    var t := Tangent((l, n) => 0.0, v, (p, n) => 0.0, l => 0.0, (l, p) => 0.0, 0.0, (l, p) => 0.0);
    var moves := (l: int, s: int) => InpMove(k, t, l, s);
    var rows := (l: int) => Sum(k.dims, p => Mul(DY(k, l, p), Apply(k, v, l, p)));
    forall l ensures rows(l) == Row(k.len, moves, l) {
      ApplyRow(k, v, t, l);
      RowIs(k.len, moves, l, s => InpMove(k, t, l, s));
    }
    Sum2Is(k.len, k.len, moves, rows);
    InpTotal(k, t);
  }
}
