/** The main results about the chunk-scan backward block over the reals. */
module ChunkTheorem {
  import opened Sums
  import opened Stages
  import opened ChunkModel
  import opened ChunkReal
  import opened ChunkAdjoint
  import opened ChunkTotals

  ghost function DD(k: Chunk<real>): real { Sum2(k.len, k.dims, (l, p) => Mul(DY(k, l, p), k.x(l, p))) }

  // ---- gate and skip ----

  ghost function OutCell(k: Chunk<real>, t: Tangent, l: int, p: int): real { k.dout(l, p) * TOut(k, t, l, p) }
  ghost function OffCells(k: Chunk<real>, t: Tangent, l: int, p: int): real { Mul(DY(k, l, p), TOff(k, t, l, p)) }
  ghost function DiagCells(k: Chunk<real>, t: Tangent, l: int, p: int): real { Mul(DY(k, l, p), TDiag(k, t, l, p)) }
  ghost function DCells(k: Chunk<real>, t: Tangent, l: int, p: int): real { Mul(Mul(DY(k, l, p), k.x(l, p)), t.d) }
  ghost function XCells(k: Chunk<real>, t: Tangent, l: int, p: int): real { DX(k, l, p) * t.x(l, p) }
  ghost function ZCells(k: Chunk<real>, t: Tangent, l: int, p: int): real { DZ(k, l, p) * t.z(l, p) }

  lemma GateForm(dout: real, gate: real, y: real, slope: real, off: real, diag: real, td: real, x: real, d: real,
                 tx: real, tz: real)
    ensures dout * (Mul(off + diag + (Mul(td, x) + Mul(d, tx)), gate) + Mul(y, Mul(slope, tz)))
         == Mul(Mul(dout, gate), off) + Mul(Mul(dout, gate), diag) + Mul(Mul(Mul(dout, gate), x), td)
            + Mul(d, Mul(dout, gate)) * tx + Mul(Mul(dout, y), slope) * tz
  {
    var g := dout * gate;
    assert dout * ((off + diag + (td * x + d * tx)) * gate + y * (slope * tz))
        == g * (off + diag + (td * x + d * tx)) + dout * y * slope * tz;
    assert g * (off + diag + (td * x + d * tx)) == g * off + g * diag + g * (td * x) + g * (d * tx);
    assert g * (td * x) == g * x * td && g * (d * tx) == d * g * tx;
  }

  lemma OutForm(k: Chunk<real>, t: Tangent, l: int, p: int)
    requires Saved(k)
    ensures OutCell(k, t, l, p)
         == OffCells(k, t, l, p) + DiagCells(k, t, l, p) + DCells(k, t, l, p) + XCells(k, t, l, p) + ZCells(k, t, l, p)
  {
    hide Gate, SiluGrad, TOff, TDiag, Y;
    GateForm(k.dout(l, p), Gate(k, l, p), k.y(l, p), SiluGrad(k.ops, k.z(l, p)), TOff(k, t, l, p), TDiag(k, t, l, p),
             t.d, k.x(l, p), k.d,
             t.x(l, p), t.z(l, p));
  }

  lemma OutSum(k: Chunk<real>, t: Tangent)
    requires Saved(k)
    ensures Sum2(k.len, k.dims, (l, p) => OutCell(k, t, l, p))
         == Sum2(k.len, k.dims, (l, p) => OffCells(k, t, l, p)) + Sum2(k.len, k.dims, (l, p) => DiagCells(k, t, l, p))
            + Mul(DD(k), t.d) + Pair2(k.len, k.dims, (l, p) => DX(k, l, p), t.x)
              + Pair2(k.len, k.dims, (l, p) => DZ(k, l, p), t.z)
  {
    hide Sum2, Pair2, Row, Mul, DY, OutCell, OffCells, DiagCells, DCells, DD, DX, DZ, Saved;
    var all := (l: int, p: int) => OutCell(k, t, l, p);
    var off, diag, d := (l: int, p: int) => OffCells(k, t, l, p), (l: int, p: int) => DiagCells(k, t, l, p),
        (l: int, p: int) => DCells(k, t, l, p);
    var x, z := (l: int, p: int) => XCells(k, t, l, p), (l: int, p: int) => ZCells(k, t, l, p);
    forall l, p ensures all(l, p) == off(l, p) + diag(l, p) + d(l, p) + x(l, p) + z(l, p) {
      OutForm(k, t, l, p);
    }
    Sum2Add5(k.len, k.dims, all, off, diag, d, x, z);
    Pair2Form(k.len, k.dims, (l, p) => DX(k, l, p), t.x, x);
    Pair2Form(k.len, k.dims, (l, p) => DZ(k, l, p), t.z, z);
    SkipTotal(k, t);
  }

  lemma SkipTotal(k: Chunk<real>, t: Tangent)
    ensures Sum2(k.len, k.dims, (l, p) => DCells(k, t, l, p)) == Mul(DD(k), t.d)
  {
    hide Sum, DY, Mul, Row;
    var cells, f := (l: int, p: int) => DCells(k, t, l, p), (l: int, p: int) => Mul(DY(k, l, p), k.x(l, p));
    var rows, totals := (l: int) => Row(k.dims, cells, l), (l: int) => Row(k.dims, f, l);
    forall l ensures rows(l) == Mul(totals(l), t.d) {
      RowIs(k.dims, cells, l, p => cells(l, p));
      RowIs(k.dims, f, l, p => f(l, p));
      RowTimes(k.dims, p => cells(l, p), p => f(l, p), t.d);
    }
    RowTimes(k.len, rows, totals, t.d);
    Sum2Is(k.len, k.dims, cells, rows);
    Sum2Is(k.len, k.dims, f, totals);
  }

  // ---- the scan, row by row ----

  lemma OffTotal(k: Chunk<real>, t: Tangent)
    requires Real(k.ops)
    ensures Sum2(k.len, k.dims, (l, p) => OffCells(k, t, l, p))
         == Sum(k.len, l => Sum(k.states, n => CViaOff(k, t, l, n))) + Sum(k.len, l => Mul(OffSum(k, l), t.dacs(l)))
            + Pair2(k.dims, k.states, (p, n) => DChunk(k, p, n), t.prev)
  {
    hide Sum, Sum2, DY, TOff, CViaOff, OffSum, OffViaPrev, Mul, Row, Pair2, DChunk;
    var cells := (l: int, p: int) => OffCells(k, t, l, p);
    var rows, c, a, e := (l: int) => Row(k.dims, cells, l), (l: int) => Sum(k.states, n => CViaOff(k, t, l, n)),
                         (l: int) => Mul(OffSum(k, l), t.dacs(l)),
                         (l: int) => Sum2(k.dims, k.states, (p, n) => OffViaPrev(k, t, l, p, n));
    forall l ensures rows(l) == c(l) + a(l) + e(l) {
      OffRow(k, t, l);
      RowIs(k.dims, cells, l, p => Mul(DY(k, l, p), TOff(k, t, l, p)));
    }
    SumAdd3(k.len, rows, c, a, e);
    Sum2Is(k.len, k.dims, cells, rows);
    forall l ensures e(l) == Sum2(k.dims, k.states, (p, n) => Mul(ChunkShare(k, p, n, l), t.prev(p, n))) {
      PrevForm(k, t, l);
    }
    PrevTotal(k, t.prev, e);
  }

  lemma PrevForm(k: Chunk<real>, t: Tangent, l: int)
    ensures Sum2(k.dims, k.states, (p, n) => OffViaPrev(k, t, l, p, n))
         == Sum2(k.dims, k.states, (p, n) => Mul(ChunkShare(k, p, n, l), t.prev(p, n)))
  {
    hide Sum2, ChunkShare, Mul;
    Sum2Eq(k.dims, k.states, (p, n) => OffViaPrev(k, t, l, p, n), (p, n) => Mul(ChunkShare(k, p, n, l), t.prev(p, n)));
  }

  lemma DiagTotal(k: Chunk<real>, t: Tangent)
    requires Saved(k)
    ensures Sum2(k.len, k.dims, (l, p) => DiagCells(k, t, l, p))
         == Sum(k.len, l => Mul(SegNet(k, l), t.dacs(l))) + Sum(k.len, l => Sum(k.len, s => CMove(k, t, l, s)))
            + InpPair(k, t.inp)
  {
    hide Sum, Sum2, DY, TDiag, Mul, Row, SegMove, CMove, InpMove, DiagPair, Saved, InpPair, SegNet;
    var cells, pairs := (l: int, p: int) => DiagCells(k, t, l, p), (l: int, s: int) => DiagPair(k, t, l, s);
    var rows := (l: int) => Row(k.dims, cells, l);
    forall l ensures rows(l) == Row(k.len, pairs, l) {
      DiagRow(k, t, l);
      RowIs(k.dims, cells, l, p => Mul(DY(k, l, p), TDiag(k, t, l, p)));
      RowIs(k.len, pairs, l, s => DiagPair(k, t, l, s));
    }
    Sum2Is(k.len, k.dims, cells, rows);
    Sum2Is(k.len, k.len, pairs, rows);
    var segs, cs, inps := (l: int, s: int) => SegMove(k, t, l, s), (l: int, s: int) => CMove(k, t, l, s),
        (l: int, s: int) => InpMove(k, t, l, s);
    var rest := (l: int, s: int) => cs(l, s) + inps(l, s);
    forall l, s ensures pairs(l, s) == segs(l, s) + rest(l, s) {
      DiagPairForm(k, t, l, s);
    }
    Sum2Add(k.len, k.len, pairs, segs, rest);
    Sum2Add(k.len, k.len, rest, cs, inps);
    SavedReal(k);
    SegTotal(k, t);
    InpTotal(k, t);
    var crows := (l: int) => Sum(k.len, s => CMove(k, t, l, s));
    forall l ensures crows(l) == Row(k.len, cs, l) {
      RowIs(k.len, cs, l, s => CMove(k, t, l, s));
    }
    Sum2Is(k.len, k.len, cs, crows);
  }

  lemma SavedReal(k: Chunk<real>)
    requires Saved(k)
    ensures Real(k.ops)
  {
    hide Y;
  }

  lemma CTotals(k: Chunk<real>, t: Tangent)
    requires Real(k.ops)
    ensures Sum(k.len, l => Sum(k.states, n => CViaOff(k, t, l, n)))
            + Sum(k.len, l => Sum(k.len, s => CMove(k, t, l, s)))
         == Pair2(k.len, k.states, (l, n) => DC(k, l, n), t.c)
  {
    hide Sum, Mul, DC, CViaOff, CMove, Row, Pair2;
    var cells := (l: int, n: int) => CTotal(k, t, l, n);
    var rows, off, diag := (l: int) => Row(k.states, cells, l), (l: int) => Sum(k.states, n => CViaOff(k, t, l, n)),
                           (l: int) => Sum(k.len, s => CMove(k, t, l, s));
    forall l | 0 <= l < k.len ensures rows(l) == off(l) + diag(l) {
      CRow(k, t, l);
      RowIs(k.states, cells, l, n => CTotal(k, t, l, n));
    }
    SumAdd(k.len, rows, off, diag);
    Sum2Is(k.len, k.states, cells, rows);
    CPairs(k, t, cells);
  }

  lemma CPairs(k: Chunk<real>, t: Tangent, cells: (int, int) -> real)
    requires forall l, n {:trigger cells(l, n)} :: cells(l, n) == CTotal(k, t, l, n)
    ensures Sum2(k.len, k.states, cells) == Pair2(k.len, k.states, (l, n) => DC(k, l, n), t.c)
  {
    hide Sum2, DC;
    Pair2Form(k.len, k.states, (l, n) => DC(k, l, n), t.c, cells);
  }

  lemma DecayTotals(k: Chunk<real>, t: Tangent)
    ensures Sum(k.len, l => Mul(OffSum(k, l), t.dacs(l))) + Sum(k.len, l => Mul(SegNet(k, l), t.dacs(l)))
         == Pair(k.len, l => DAcs(k, l), t.dacs)
  {
    hide Sum, OffSum, SegNet, Pair;
    var all, a, b := (l: int) => Mul(DAcs(k, l), t.dacs(l)), (l: int) => Mul(OffSum(k, l), t.dacs(l)),
        (l: int) => Mul(SegNet(k, l), t.dacs(l));
    forall l ensures all(l) == a(l) + b(l) {
      MulAdd(DAcs(k, l), OffSum(k, l), SegNet(k, l), t.dacs(l));
    }
    SumAdd(k.len, all, a, b);
    PairMul(k.len, l => DAcs(k, l), t.dacs, all);
  }

  /** The block is the exact adjoint of the linearised forward block: for every upstream gradient and every
      perturbation of C, the rank-one inputs, the carried state, the cumulative decays, x, D and z. */
  lemma BlockIsAdjoint(k: Chunk<real>, t: Tangent)
    requires Saved(k)
    ensures Sum2(k.len, k.dims, (l, p) => OutCell(k, t, l, p))
         == Pair2(k.len, k.states, (l, n) => DC(k, l, n), t.c) + InpPair(k, t.inp)
            + Pair2(k.dims, k.states, (p, n) => DChunk(k, p, n), t.prev) + Pair(k.len, l => DAcs(k, l), t.dacs)
            + Pair2(k.len, k.dims, (l, p) => DX(k, l, p), t.x) + Mul(DD(k), t.d)
              + Pair2(k.len, k.dims, (l, p) => DZ(k, l, p), t.z)
  {
    hide *;
    SavedReal(k);
    OutSum(k, t);
    OffTotal(k, t);
    DiagTotal(k, t);
    CTotals(k, t);
    DecayTotals(k, t);
  }

  // ---- conservation ----

  /** The off-diagonal part of C's gradient paired with C. */
  ghost function OffC(k: Chunk<real>): real {
    Sum2(k.len, k.states, (l, n) => Mul(Mul(Accn(k, l, n), Sd(k, l)), k.c(l, n)))
  }

  lemma OffCRows(k: Chunk<real>)
    requires Real(k.ops)
    ensures OffC(k) == Sum(k.len, l => OffSum(k, l))
  {
    hide Sum, OffTerm, Accn, Sd, Mul, Row;
    var cells, rows := (l: int, n: int) => Mul(Mul(Accn(k, l, n), Sd(k, l)), k.c(l, n)), (l: int) => OffSum(k, l);
    forall l ensures rows(l) == Row(k.states, cells, l) {
      RowIs(k.states, cells, l, n => cells(l, n));
      forall n ensures cells(l, n) == OffTerm(k, l, n) {
        OffTermSwap(k, l, n);
      }
      SumEq(k.states, n => cells(l, n), n => OffTerm(k, l, n));
    }
    Sum2Is(k.len, k.states, cells, rows);
  }

  lemma OffTermSwap(k: Chunk<real>, l: int, n: int)
    requires Real(k.ops)
    ensures OffTerm(k, l, n) == Mul(Mul(Accn(k, l, n), Sd(k, l)), k.c(l, n))
  {
    hide Accn, Sd;
    SwapLast(Accn(k, l, n), k.c(l, n), Sd(k, l));
  }

  lemma SwapLast(x: real, y: real, z: real)
    ensures x * y * z == x * z * y
  {
  }

  /** Conservation across the three loops: the total gradient of the cumulative decays is the carried state's
      gradient paired with the state, and the off-diagonal part of C's gradient paired with C. */
  lemma DecayConserves(k: Chunk<real>)
    requires Real(k.ops)
    ensures Sum(k.len, l => DAcs(k, l)) == OffC(k)
    ensures Sum(k.len, l => DAcs(k, l)) == Pair2(k.dims, k.states, (p, n) => DChunk(k, p, n), k.prev)
  {
    hide Sum, OffSum, SegNet, Sum2, Pair2, DChunk, Mul, OffC, Row;
    SumAdd(k.len, l => DAcs(k, l), l => OffSum(k, l), l => SegNet(k, l));
    SegConserves(k);
    OffCRows(k);
    var moves := (l: int) => Sum2(k.dims, k.states, (p, n) => Mul(ChunkShare(k, p, n, l), k.prev(p, n)));
    forall l ensures moves(l) == OffSum(k, l) {
      PrevRow(k, l, moves(l));
    }
    SumEq(k.len, moves, l => OffSum(k, l));
    PrevTotal(k, k.prev, moves);
  }

  lemma PrevRow(k: Chunk<real>, l: int, total: real)
    requires Real(k.ops)
    requires total == Sum2(k.dims, k.states, (p, n) => Mul(ChunkShare(k, p, n, l), k.prev(p, n)))
    ensures total == OffSum(k, l)
  {
    hide Sum, Accn, Sd, Mul, OffTerm, ChunkShare, DyPrev;
    var cells, f := (p: int, n: int) => Mul(ChunkShare(k, p, n, l), k.prev(p, n)),
        (p: int, n: int) => DyPrev(k, l, p, n);
    var c, columns := (n: int) => Mul(k.c(l, n), Sd(k, l)), (n: int) => OffTerm(k, l, n);
    forall p, n ensures cells(p, n) == Mul(f(p, n), c(n)) {
      PrevCell(k, l, p, n);
    }
    forall n ensures columns(n) == Mul(Sum(k.dims, p => f(p, n)), c(n)) {
      AccnRow(k, l, n);
      SumEq(k.dims, p => f(p, n), p => DyPrev(k, l, p, n));
      OffTermAssoc(k, l, n);
    }
    ColumnTimes(k.dims, k.states, cells, f, c, columns);
  }

  lemma PrevCell(k: Chunk<real>, l: int, p: int, n: int)
    ensures Mul(ChunkShare(k, p, n, l), k.prev(p, n)) == Mul(DyPrev(k, l, p, n), Mul(k.c(l, n), Sd(k, l)))
  {
    hide DY, Sd;
    PrevProduct(DY(k, l, p), k.c(l, n), Sd(k, l), k.prev(p, n));
  }

  lemma PrevProduct(g: real, c: real, sd: real, prev: real)
    ensures g * c * sd * prev == g * prev * (c * sd)
  {
  }

  lemma OffTermAssoc(k: Chunk<real>, l: int, n: int)
    requires Real(k.ops)
    ensures OffTerm(k, l, n) == Mul(Accn(k, l, n), Mul(k.c(l, n), Sd(k, l)))
  {
    hide Accn, Sd;
    MulAssoc(Accn(k, l, n), k.c(l, n), Sd(k, l));
  }

  // ---- the factored reduction ----

  /** One term of the unfactored triple sum: decay, dY and a whole rank-one input. */
  ghost function TripleTerm(k: Chunk<real>, l: int, n: int, s: int, p: int): real {
    Mul(Mul(Weight(k, l, s), DY(k, l, p)), Inp(k, s, p, n))
  }

  /** Factoring the head dimension out into dY x^T leaves dC what it was. */
  lemma FactoredIsTriple(k: Chunk<real>, l: nat, n: int)
    requires Real(k.ops) && l < k.len
    ensures DC(k, l, n) == Mul(Accn(k, l, n), Sd(k, l)) + Sum(k.len, s => Sum(k.dims, p => TripleTerm(k, l, n, s, p)))
  {
    hide Sum, TripleTerm, DiagShare, Accn, Sd, DC, Mul;
    DCForm(k, l, n);
    var shares, triples := (s: int) => DiagShare(k, l, n, s), (s: int) => Sum(k.dims, p => TripleTerm(k, l, n, s, p));
    forall s ensures shares(s) == triples(s) {
      FactorOut(k, l, n, s);
    }
    SumEq(k.len, shares, triples);
  }

  lemma FactorOut(k: Chunk<real>, l: int, n: int, s: int)
    ensures DiagShare(k, l, n, s) == Sum(k.dims, p => TripleTerm(k, l, n, s, p))
  {
    hide Sum, Weight, DY;
    var w := Mul(Mul(Weight(k, l, s), k.dt(s)), k.b(s, n));
    var f, terms := (p: int) => Mul(DY(k, l, p), k.x(s, p)), (p: int) => TripleTerm(k, l, n, s, p);
    forall p ensures terms(p) == Mul(w, f(p)) {
      FactorCell(Weight(k, l, s), DY(k, l, p), k.dt(s), k.x(s, p), k.b(s, n));
    }
    TimesRow(k.dims, terms, w, f);
    SwapLast(Mul(Weight(k, l, s), k.dt(s)), Outer(k, l, s), k.b(s, n));
  }

  lemma FactorCell(w: real, g: real, dt: real, x: real, b: real)
    ensures w * g * (dt * x * b) == w * dt * b * (g * x)
  {
  }
}
