/** The chunk-scan backward block is the exact adjoint of the linearised forward block, and its scatter
    conserves the gradient of the cumulative decays. */
module ChunkAdjoint {
  import opened Sums
  import opened Stages
  import opened ChunkModel
  import opened ChunkReal

  // ---- sums with a common factor ----

  lemma RowTimes(n: int, cells: int -> real, f: int -> real, c: real)
    requires forall i {:trigger cells(i)} :: 0 <= i < n ==> cells(i) == Mul(f(i), c)
    ensures Sum(n, cells) == Mul(Sum(n, f), c)
  {
    SumScale(n, cells, c, f);
  }

  lemma TimesRow(n: int, cells: int -> real, c: real, f: int -> real)
    requires forall i {:trigger cells(i)} :: 0 <= i < n ==> cells(i) == Mul(c, f(i))
    ensures Sum(n, cells) == Mul(c, Sum(n, f))
  {
    SumScale(n, cells, c, f);
  }

  /** Columns of a double sum that share a factor. */
  lemma ColumnTimes(n: int, k: int, cells: (int, int) -> real, f: (int, int) -> real, c: int -> real,
                    columns: int -> real)
    requires forall i, j {:trigger cells(i, j)} :: cells(i, j) == Mul(f(i, j), c(j))
    requires forall j {:trigger columns(j)} :: columns(j) == Mul(Sum(n, i => f(i, j)), c(j))
    ensures Sum2(n, k, cells) == Sum(k, columns)
  {
    hide Sum, Mul;
    var flipped := (j: int, i: int) => cells(i, j);
    Sum2Swap(n, k, cells, flipped);
    forall j ensures Row(n, flipped, j) == columns(j) {
      RowTimes(n, i => flipped(j, i), i => f(i, j), c(j));
    }
    SumEq(k, j => Row(n, flipped, j), columns);
  }

  // ---- the off-diagonal part of row l ----

  ghost function OffCell(k: Chunk<real>, t: Tangent, l: int, p: int, n: int): real {
    Mul(DY(k, l, p), TOffTerm(k, t, l, p, n))
  }

  ghost function DyPrev(k: Chunk<real>, l: int, p: int, n: int): real { Mul(DY(k, l, p), k.prev(p, n)) }

  ghost function OffViaC(k: Chunk<real>, t: Tangent, l: int, p: int, n: int): real {
    Mul(DyPrev(k, l, p, n), Mul(Sd(k, l), t.c(l, n)))
  }

  ghost function OffViaDecay(k: Chunk<real>, t: Tangent, l: int, p: int, n: int): real {
    Mul(DyPrev(k, l, p, n), Mul(Mul(k.c(l, n), Sd(k, l)), t.dacs(l)))
  }

  ghost function OffViaPrev(k: Chunk<real>, t: Tangent, l: int, p: int, n: int): real {
    Mul(ChunkShare(k, p, n, l), t.prev(p, n))
  }

  lemma OffForm(g: real, tc: real, sd: real, prev: real, c: real, ta: real, tp: real)
    ensures g * (Mul(Mul(tc, sd), prev) + Mul(Mul(c, Mul(sd, ta)), prev) + Mul(Mul(c, sd), tp))
         == Mul(Mul(g, prev), Mul(sd, tc)) + Mul(Mul(g, prev), Mul(Mul(c, sd), ta)) + Mul(Mul(Mul(g, c), sd), tp)
  {
    var a, b, e := tc * sd * prev, c * (sd * ta) * prev, c * sd * tp;
    assert g * (a + b + e) == g * a + g * b + g * e;
    assert g * a == g * prev * (sd * tc);
    assert g * b == g * prev * (c * sd * ta);
    assert g * e == g * c * sd * tp;
  }

  ghost function CViaOff(k: Chunk<real>, t: Tangent, l: int, n: int): real {
    Mul(Mul(Accn(k, l, n), Sd(k, l)), t.c(l, n))
  }

  ghost function OffSum(k: Chunk<real>, l: int): real { Sum(k.states, n => OffTerm(k, l, n)) }

  lemma OffRow(k: Chunk<real>, t: Tangent, l: int)
    requires Real(k.ops)
    ensures Sum(k.dims, p => Mul(DY(k, l, p), TOff(k, t, l, p)))
         == Sum(k.states, n => CViaOff(k, t, l, n)) + Mul(OffSum(k, l), t.dacs(l))
            + Sum2(k.dims, k.states, (p, n) => OffViaPrev(k, t, l, p, n))
  {
    hide Sum, OffCell, OffViaC, OffViaDecay, OffViaPrev, CViaOff, OffSum, DY, TOff, Mul;
    var cells := (p: int, n: int) => OffCell(k, t, l, p, n);
    var c, a, e := (p: int, n: int) => OffViaC(k, t, l, p, n), (p: int, n: int) => OffViaDecay(k, t, l, p, n),
                   (p: int, n: int) => OffViaPrev(k, t, l, p, n);
    var rows := (p: int) => Mul(DY(k, l, p), TOff(k, t, l, p));
    forall p ensures rows(p) == Row(k.states, cells, p) {
      OffRowCells(k, t, l, p, n => cells(p, n));
    }
    SumEq(k.dims, rows, p => Row(k.states, cells, p));
    forall p, n ensures cells(p, n) == c(p, n) + (a(p, n) + e(p, n)) {
      OffCellForm(k, t, l, p, n);
    }
    var ae := (p: int, n: int) => a(p, n) + e(p, n);
    Sum2Add(k.dims, k.states, cells, c, ae);
    Sum2Add(k.dims, k.states, ae, a, e);
    OffColumnsC(k, t, l);
    OffColumnsDecay(k, t, l);
  }

  lemma OffRowCells(k: Chunk<real>, t: Tangent, l: int, p: int, cells: int -> real)
    requires forall n {:trigger cells(n)} :: cells(n) == OffCell(k, t, l, p, n)
    ensures Mul(DY(k, l, p), TOff(k, t, l, p)) == Sum(k.states, cells)
  {
    hide Sum, DY, TOffTerm, Mul;
    TimesRow(k.states, cells, DY(k, l, p), n => TOffTerm(k, t, l, p, n));
  }

  lemma OffCellForm(k: Chunk<real>, t: Tangent, l: int, p: int, n: int)
    ensures OffCell(k, t, l, p, n) == OffViaC(k, t, l, p, n) + (OffViaDecay(k, t, l, p, n) + OffViaPrev(k, t, l, p, n))
  {
    hide DY, Sd;
    OffForm(DY(k, l, p), t.c(l, n), Sd(k, l), k.prev(p, n), k.c(l, n), t.dacs(l), t.prev(p, n));
  }

  lemma OffColumnsC(k: Chunk<real>, t: Tangent, l: int)
    requires Real(k.ops)
    ensures Sum2(k.dims, k.states, (p, n) => OffViaC(k, t, l, p, n)) == Sum(k.states, n => CViaOff(k, t, l, n))
  {
    hide Sum, DyPrev, Accn, Sd, Mul;
    forall n ensures CViaOff(k, t, l, n) == Mul(Sum(k.dims, p => DyPrev(k, l, p, n)), Mul(Sd(k, l), t.c(l, n))) {
      AccnRow(k, l, n);
      MulAssoc(Accn(k, l, n), Sd(k, l), t.c(l, n));
    }
    var f := (p: int, n: int) => DyPrev(k, l, p, n);
    var columns := (n: int) => CViaOff(k, t, l, n);
    forall n ensures columns(n) == Mul(Sum(k.dims, p => f(p, n)), Mul(Sd(k, l), t.c(l, n))) {
      SumEq(k.dims, p => f(p, n), p => DyPrev(k, l, p, n));
    }
    ColumnTimes(k.dims, k.states, (p, n) => OffViaC(k, t, l, p, n), f, n => Mul(Sd(k, l), t.c(l, n)), columns);
  }

  lemma AccnRow(k: Chunk<real>, l: int, n: int)
    requires Real(k.ops)
    ensures Accn(k, l, n) == Sum(k.dims, p => DyPrev(k, l, p, n))
  {
    hide Sum, DY, Mul, Accn;
    AccnForm(k, l, n);
    SumEq(k.dims, p => Mul(DY(k, l, p), k.prev(p, n)), p => DyPrev(k, l, p, n));
  }

  lemma MulAssoc(x: real, y: real, z: real)
    ensures Mul(Mul(x, y), z) == Mul(x, Mul(y, z))
  {
  }

  lemma OffColumnsDecay(k: Chunk<real>, t: Tangent, l: int)
    requires Real(k.ops)
    ensures Sum2(k.dims, k.states, (p, n) => OffViaDecay(k, t, l, p, n)) == Mul(OffSum(k, l), t.dacs(l))
  {
    hide Sum, DyPrev, Accn, Sd, Mul, OffTerm;
    var f, columns := (p: int, n: int) => DyPrev(k, l, p, n), (n: int) => Mul(OffTerm(k, l, n), t.dacs(l));
    forall n ensures columns(n) == Mul(Sum(k.dims, p => f(p, n)), Mul(Mul(k.c(l, n), Sd(k, l)), t.dacs(l))) {
      AccnRow(k, l, n);
      SumEq(k.dims, p => f(p, n), p => DyPrev(k, l, p, n));
      OffTermForm(k, l, n, t.dacs(l));
    }
    ColumnTimes(k.dims, k.states, (p, n) => OffViaDecay(k, t, l, p, n), f,
                n => Mul(Mul(k.c(l, n), Sd(k, l)), t.dacs(l)), columns);
    RowTimes(k.states, columns, n => OffTerm(k, l, n), t.dacs(l));
  }

  lemma OffTermForm(k: Chunk<real>, l: int, n: int, ta: real)
    requires Real(k.ops)
    ensures Mul(OffTerm(k, l, n), ta) == Mul(Accn(k, l, n), Mul(Mul(k.c(l, n), Sd(k, l)), ta))
  {
    hide Accn, Sd;
    MulAssoc(Accn(k, l, n), Mul(k.c(l, n), Sd(k, l)), ta);
    MulAssoc(Accn(k, l, n), k.c(l, n), Sd(k, l));
  }

  // ---- the diagonal part of rows l and s ----

  ghost function DyX(k: Chunk<real>, l: int, s: int, p: int): real { Mul(DY(k, l, p), k.x(s, p)) }

  /** What rows `l` and `s` exchange through the chunk's state, without the decay. */
  ghost function Mass(k: Chunk<real>, l: int, s: int): real { Mul(Mul(k.dt(s), Outer(k, l, s)), k.cb(l, s)) }

  lemma ThroughForm(k: Chunk<real>, l: int, s: int, p: int)
    requires Saved(k)
    ensures Through(k, l, s, p) == Mul(Mul(k.dt(s), k.x(s, p)), k.cb(l, s))
  {
    hide Sum, Y, Real;
    var f, g := (n: int) => Mul(k.c(l, n), Inp(k, s, p, n)), (n: int) => Mul(k.c(l, n), k.b(s, n));
    forall n ensures f(n) == Mul(Mul(k.dt(s), k.x(s, p)), g(n)) {
      MulSwap3(k.c(l, n), Mul(k.dt(s), k.x(s, p)), k.b(s, n));
    }
    TimesRow(k.states, f, Mul(k.dt(s), k.x(s, p)), g);
  }

  lemma MulSwap3(x: real, y: real, z: real)
    ensures Mul(x, Mul(y, z)) == Mul(y, Mul(x, z))
  {
  }

  lemma MassForm(k: Chunk<real>, l: int, s: int)
    requires Saved(k)
    ensures Sum(k.dims, p => Mul(DY(k, l, p), Through(k, l, s, p))) == Mass(k, l, s)
  {
    hide Sum, DY, Through, Saved, Mul;
    var cells, f := (p: int) => Mul(DY(k, l, p), Through(k, l, s, p)), (p: int) => DyX(k, l, s, p);
    forall p ensures cells(p) == Mul(f(p), Mul(k.dt(s), k.cb(l, s))) {
      ThroughForm(k, l, s, p);
      MassCell(DY(k, l, p), k.dt(s), k.x(s, p), k.cb(l, s));
    }
    RowTimes(k.dims, cells, f, Mul(k.dt(s), k.cb(l, s)));
    SumEq(k.dims, f, p => Mul(DY(k, l, p), k.x(s, p)));
    MassCell2(Outer(k, l, s), k.dt(s), k.cb(l, s));
  }

  lemma MassCell(g: real, dt: real, x: real, cb: real)
    ensures Mul(g, Mul(Mul(dt, x), cb)) == Mul(Mul(g, x), Mul(dt, cb))
  {
  }

  lemma MassCell2(o: real, dt: real, cb: real)
    ensures Mul(o, Mul(dt, cb)) == Mul(Mul(dt, o), cb)
  {
  }

  ghost function ThroughCell(k: Chunk<real>, t: Tangent, l: int, s: int, p: int, n: int): real {
    Mul(DY(k, l, p), Mul(t.c(l, n), Inp(k, s, p, n)) + Mul(k.c(l, n), t.inp(s, p, n)))
  }

  ghost function ThroughViaC(k: Chunk<real>, t: Tangent, l: int, s: int, p: int, n: int): real {
    Mul(DyX(k, l, s, p), Mul(Mul(k.dt(s), k.b(s, n)), t.c(l, n)))
  }

  ghost function ThroughViaInp(k: Chunk<real>, t: Tangent, l: int, s: int, p: int, n: int): real {
    Mul(Mul(DY(k, l, p), k.c(l, n)), t.inp(s, p, n))
  }

  ghost function CShare(k: Chunk<real>, t: Tangent, l: int, s: int, n: int): real {
    Mul(Outer(k, l, s), Mul(Mul(k.dt(s), k.b(s, n)), t.c(l, n)))
  }

  lemma ThroughCellForm(g: real, tc: real, dt: real, x: real, b: real, c: real, ti: real)
    ensures g * (Mul(tc, Mul(Mul(dt, x), b)) + Mul(c, ti)) == Mul(Mul(g, x), Mul(Mul(dt, b), tc)) + Mul(Mul(g, c), ti)
  {
    assert g * (tc * (dt * x * b)) == g * x * (dt * b * tc);
    assert g * (c * ti) == g * c * ti;
  }

  lemma ThroughSum(k: Chunk<real>, t: Tangent, l: int, s: int)
    ensures Sum(k.dims, p => Mul(DY(k, l, p), TThrough(k, t, l, s, p)))
         == Sum(k.states, n => CShare(k, t, l, s, n))
            + Sum2(k.dims, k.states, (p, n) => ThroughViaInp(k, t, l, s, p, n))
  {
    hide Sum, DY, TThrough, Mul, ThroughCell, ThroughViaC, ThroughViaInp, CShare;
    var cells := (p: int, n: int) => ThroughCell(k, t, l, s, p, n);
    var c, i := (p: int, n: int) => ThroughViaC(k, t, l, s, p, n), (p: int, n: int) => ThroughViaInp(k, t, l, s, p, n);
    var rows := (p: int) => Mul(DY(k, l, p), TThrough(k, t, l, s, p));
    forall p ensures rows(p) == Row(k.states, cells, p) {
      ThroughRow(k, t, l, s, p, n => cells(p, n));
    }
    SumEq(k.dims, rows, p => Row(k.states, cells, p));
    forall p, n ensures cells(p, n) == c(p, n) + i(p, n) {
      ThroughSplit(k, t, l, s, p, n);
    }
    Sum2Add(k.dims, k.states, cells, c, i);
    ThroughColumns(k, t, l, s);
  }

  lemma ThroughRow(k: Chunk<real>, t: Tangent, l: int, s: int, p: int, cells: int -> real)
    requires forall n {:trigger cells(n)} :: cells(n) == ThroughCell(k, t, l, s, p, n)
    ensures Mul(DY(k, l, p), TThrough(k, t, l, s, p)) == Sum(k.states, cells)
  {
    hide Sum, DY, Mul, Inp;
    TimesRow(k.states, cells, DY(k, l, p), n => Mul(t.c(l, n), Inp(k, s, p, n)) + Mul(k.c(l, n), t.inp(s, p, n)));
  }

  lemma ThroughSplit(k: Chunk<real>, t: Tangent, l: int, s: int, p: int, n: int)
    ensures ThroughCell(k, t, l, s, p, n) == ThroughViaC(k, t, l, s, p, n) + ThroughViaInp(k, t, l, s, p, n)
  {
    hide DY;
    ThroughCellForm(DY(k, l, p), t.c(l, n), k.dt(s), k.x(s, p), k.b(s, n), k.c(l, n), t.inp(s, p, n));
  }

  lemma ThroughColumns(k: Chunk<real>, t: Tangent, l: int, s: int)
    ensures Sum2(k.dims, k.states, (p, n) => ThroughViaC(k, t, l, s, p, n)) == Sum(k.states, n => CShare(k, t, l, s, n))
  {
    hide Sum, DyX, Mul;
    var f, columns := (p: int, n: int) => DyX(k, l, s, p), (n: int) => CShare(k, t, l, s, n);
    forall n ensures columns(n) == Mul(Sum(k.dims, p => f(p, n)), Mul(Mul(k.dt(s), k.b(s, n)), t.c(l, n))) {
      OuterForm(k, l, s, p => f(p, n));
    }
    ColumnTimes(k.dims, k.states, (p, n) => ThroughViaC(k, t, l, s, p, n), f,
                n => Mul(Mul(k.dt(s), k.b(s, n)), t.c(l, n)), columns);
  }

  lemma OuterForm(k: Chunk<real>, l: int, s: int, f: int -> real)
    requires forall p {:trigger f(p)} :: f(p) == DyX(k, l, s, p)
    ensures Outer(k, l, s) == Sum(k.dims, f)
  {
    hide Sum, Mul, DY;
    SumEq(k.dims, f, p => Mul(DY(k, l, p), k.x(s, p)));
  }

  // ---- one pair of rows ----

  ghost function DiagPair(k: Chunk<real>, t: Tangent, l: int, s: int): real {
    Sum(k.dims, p => Mul(DY(k, l, p), TDiagTerm(k, t, l, p, s)))
  }

  ghost function SegMove(k: Chunk<real>, t: Tangent, l: int, s: int): real { Mul(Seg(k, l, s), t.dacs(l) - t.dacs(s)) }

  ghost function CMove(k: Chunk<real>, t: Tangent, l: int, s: int): real {
    Sum(k.states, n => Mul(DiagShare(k, l, n, s), t.c(l, n)))
  }

  ghost function InpCell(k: Chunk<real>, t: Tangent, l: int, s: int, p: int, n: int): real {
    Mul(InpShare(k, s, p, n, l), t.inp(s, p, n))
  }

  ghost function InpMove(k: Chunk<real>, t: Tangent, l: int, s: int): real {
    Sum2(k.dims, k.states, (p, n) => InpCell(k, t, l, s, p, n))
  }

  lemma DiagPairForm(k: Chunk<real>, t: Tangent, l: int, s: int)
    requires Saved(k)
    ensures DiagPair(k, t, l, s) == SegMove(k, t, l, s) + CMove(k, t, l, s) + InpMove(k, t, l, s)
  {
    hide Sum, Sum2, DY, Through, TThrough, Saved, Weight, Mul, Seg, CShare, ThroughViaInp, Mass;
    var w, delta := Weight(k, l, s), t.dacs(l) - t.dacs(s);
    var f, g := (p: int) => Mul(DY(k, l, p), Through(k, l, s, p)),
        (p: int) => Mul(DY(k, l, p), TThrough(k, t, l, s, p));
    var cells, a, b := (p: int) => Mul(DY(k, l, p), TDiagTerm(k, t, l, p, s)), (p: int) => Mul(Mul(w, delta), f(p)),
        (p: int) => Mul(w, g(p));
    forall p ensures cells(p) == a(p) + b(p) {
      PairCell(DY(k, l, p), w, delta, Through(k, l, s, p), TThrough(k, t, l, s, p));
    }
    SumAdd(k.dims, cells, a, b);
    TimesRow(k.dims, a, Mul(w, delta), f);
    TimesRow(k.dims, b, w, g);
    MassForm(k, l, s);
    ThroughSum(k, t, l, s);
    SegForm(k, l, s, delta);
    CMoveForm(k, t, l, s);
    InpMoveForm(k, t, l, s);
    Distribute(w, Sum(k.states, n => CShare(k, t, l, s, n)),
               Sum2(k.dims, k.states, (p, n) => ThroughViaInp(k, t, l, s, p, n)));
  }

  lemma PairCell(g: real, w: real, delta: real, th: real, tth: real)
    ensures Mul(g, Mul(Mul(w, delta), th) + Mul(w, tth)) == Mul(Mul(w, delta), Mul(g, th)) + Mul(w, Mul(g, tth))
  {
    assert g * (w * delta * th + w * tth) == g * (w * delta * th) + g * (w * tth);
    assert g * (w * delta * th) == w * delta * (g * th);
    assert g * (w * tth) == w * (g * tth);
  }

  lemma Distribute(w: real, x: real, y: real)
    ensures Mul(w, x + y) == Mul(w, x) + Mul(w, y)
  {
  }

  lemma SegForm(k: Chunk<real>, l: int, s: int, delta: real)
    ensures Mul(Mul(Weight(k, l, s), delta), Mass(k, l, s)) == Mul(Seg(k, l, s), delta)
  {
    hide Weight, Outer;
    SegCell(Weight(k, l, s), delta, k.dt(s), Outer(k, l, s), k.cb(l, s));
  }

  lemma SegCell(w: real, delta: real, dt: real, o: real, cb: real)
    ensures w * delta * (dt * o * cb) == w * dt * o * cb * delta
  {
  }

  lemma CMoveForm(k: Chunk<real>, t: Tangent, l: int, s: int)
    ensures Mul(Weight(k, l, s), Sum(k.states, n => CShare(k, t, l, s, n))) == CMove(k, t, l, s)
  {
    hide Sum, Weight, Outer;
    var f, moves := (n: int) => CShare(k, t, l, s, n), (n: int) => Mul(DiagShare(k, l, n, s), t.c(l, n));
    forall n ensures moves(n) == Mul(Weight(k, l, s), f(n)) {
      CMoveCell(Weight(k, l, s), k.dt(s), Outer(k, l, s), k.b(s, n), t.c(l, n));
    }
    TimesRow(k.states, moves, Weight(k, l, s), f);
  }

  lemma CMoveCell(w: real, dt: real, o: real, b: real, tc: real)
    ensures w * dt * o * b * tc == w * (o * (dt * b * tc))
  {
  }

  lemma InpMoveForm(k: Chunk<real>, t: Tangent, l: int, s: int)
    ensures Mul(Weight(k, l, s), Sum2(k.dims, k.states, (p, n) => ThroughViaInp(k, t, l, s, p, n)))
            == InpMove(k, t, l, s)
  {
    hide Sum, Weight, DY;
    var w := Weight(k, l, s);
    var f, moves := (p: int, n: int) => ThroughViaInp(k, t, l, s, p, n), (p: int, n: int) => InpCell(k, t, l, s, p, n);
    forall p ensures Row(k.states, moves, p) == Mul(w, Row(k.states, f, p)) {
      forall n ensures moves(p, n) == Mul(w, f(p, n)) {
        InpMoveCell(w, DY(k, l, p), k.c(l, n), t.inp(s, p, n));
      }
      TimesRow(k.states, n => moves(p, n), w, n => f(p, n));
    }
    TimesRow(k.dims, p => Row(k.states, moves, p), w, p => Row(k.states, f, p));
  }

  lemma InpMoveCell(w: real, g: real, c: real, ti: real)
    ensures g * c * w * ti == w * (g * c * ti)
  {
  }
}
