/** Adjoint identities for the building blocks of the kernels, over arbitrary functions.

    Each lemma has the same shape: the pairing of an output cotangent with an output tangent equals the
    pairings of the input cotangents the backward code forms with the input tangents.  `tx` is always the
    tangent of `x`. */
module Stages {
  import opened Sums
  import opened Functions

  /** Row `i` of a double sum. */
  ghost function Row(k: int, f: (int, int) -> real, i: int): real {
    Sum(k, j => f(i, j))
  }

  ghost function Sum2(n: int, k: int, f: (int, int) -> real): real {
    Sum(n, i => Row(k, f, i))
  }

  ghost function Pair2(n: int, k: int, a: (int, int) -> real, b: (int, int) -> real): real {
    Sum2(n, k, (i, j) => a(i, j) * b(i, j))
  }

  /** Equal factors have equal products. */
  lemma Factors(a: real, b: real, x: real, y: real)
    requires a == b && x == y
    ensures a * x == b * y
  {
  }

  lemma RowsEq(n: int, k: int, l: int, f: (int, int) -> real, g: (int, int) -> real)
    requires forall i {:trigger Row(k, f, i)} :: 0 <= i < n ==> Row(k, f, i) == Row(l, g, i)
    ensures Sum2(n, k, f) == Sum2(n, l, g)
  {
    SumEq(n, i => Row(k, f, i), i => Row(l, g, i));
  }

  lemma Sum2Eq(n: int, k: int, f: (int, int) -> real, g: (int, int) -> real)
    requires forall i, j {:trigger f(i, j)} :: 0 <= i < n && 0 <= j < k ==> f(i, j) == g(i, j)
    ensures Sum2(n, k, f) == Sum2(n, k, g)
  {
    forall i | 0 <= i < n ensures Row(k, f, i) == Row(k, g, i) {
      SumEq(k, j => f(i, j), j => g(i, j));
    }
    RowsEq(n, k, k, f, g);
  }

  lemma Sum2Add(n: int, k: int, h: (int, int) -> real, f: (int, int) -> real, g: (int, int) -> real)
    requires forall i, j {:trigger h(i, j)} :: 0 <= i < n && 0 <= j < k ==> h(i, j) == f(i, j) + g(i, j)
    ensures Sum2(n, k, h) == Sum2(n, k, f) + Sum2(n, k, g)
  {
    forall i | 0 <= i < n ensures Row(k, h, i) == Row(k, f, i) + Row(k, g, i) {
      SumAdd(k, j => h(i, j), j => f(i, j), j => g(i, j));
    }
    SumAdd(n, i => Row(k, h, i), i => Row(k, f, i), i => Row(k, g, i));
  }

  lemma Sum2Add5(n: int, k: int, h: (int, int) -> real, f1: (int, int) -> real, f2: (int, int) -> real,
                 f3: (int, int) -> real, f4: (int, int) -> real, f5: (int, int) -> real)
    requires forall i, j {:trigger h(i, j)} :: 0 <= i < n && 0 <= j < k ==>
               h(i, j) == f1(i, j) + f2(i, j) + f3(i, j) + f4(i, j) + f5(i, j)
    ensures Sum2(n, k, h) == Sum2(n, k, f1) + Sum2(n, k, f2) + Sum2(n, k, f3) + Sum2(n, k, f4) + Sum2(n, k, f5)
  {
    var s2 := (i: int, j: int) => f1(i, j) + f2(i, j);
    var s3 := (i: int, j: int) => s2(i, j) + f3(i, j);
    var s4 := (i: int, j: int) => s3(i, j) + f4(i, j);
    Sum2Add(n, k, s2, f1, f2);
    Sum2Add(n, k, s3, s2, f3);
    Sum2Add(n, k, s4, s3, f4);
    Sum2Add(n, k, h, s4, f5);
  }

  /** Rows of a double sum that share a factor. */
  lemma Sum2Rows(n: int, k: int, f: (int, int) -> real, c: int -> real, g: (int, int) -> real, rows: int -> real)
    requires forall i, j {:trigger f(i, j)} :: 0 <= i < n && 0 <= j < k ==> f(i, j) == c(i) * g(i, j)
    requires forall i {:trigger rows(i)} :: 0 <= i < n ==> rows(i) == Row(k, g, i)
    ensures Sum2(n, k, f) == Pair(n, c, rows)
  {
    var totals, products := (i: int) => Row(k, f, i), (i: int) => c(i) * rows(i);
    forall i | 0 <= i < n ensures totals(i) == products(i) {
      RowScale(k, j => f(i, j), c(i), j => g(i, j), rows(i));
    }
    SumEq(n, totals, products);
  }

  lemma Sum2Swap(n: int, k: int, f: (int, int) -> real, g: (int, int) -> real)
    requires forall i, j {:trigger g(j, i)} :: 0 <= i < n && 0 <= j < k ==> g(j, i) == f(i, j)
    ensures Sum2(n, k, f) == Sum2(k, n, g)
  {
    SumSwap(n, k, f);
    SumEq(n, i => Row(k, f, i), i => Sum(k, j => f(i, j)));
    var fColumn, gRow := (j: int) => Sum(n, i => f(i, j)), (j: int) => Row(n, g, j);
    forall j | 0 <= j < k ensures fColumn(j) == gRow(j) {
      SumEq(n, i => f(i, j), i => g(j, i));
    }
    SumEq(k, fColumn, gRow);
  }

  /** Row `i` of a pairing. */
  ghost function PairRow(k: int, a: (int, int) -> real, b: (int, int) -> real, i: int): real {
    Row(k, (i, j) => a(i, j) * b(i, j), i)
  }

  lemma PairRowForm(k: int, a: (int, int) -> real, b: (int, int) -> real, i: int, x: int -> real, y: int -> real)
    requires forall j {:trigger x(j)} :: 0 <= j < k ==> x(j) == a(i, j) && y(j) == b(i, j)
    ensures PairRow(k, a, b, i) == Pair(k, x, y)
  {
    var cells := (i: int, j: int) => a(i, j) * b(i, j);
    var row, pairs := (j: int) => cells(i, j), (j: int) => x(j) * y(j);
    forall j | 0 <= j < k ensures row(j) == pairs(j) {
      Factors(x(j), a(i, j), y(j), b(i, j));
    }
    SumEq(k, row, pairs);
  }

  lemma PairRowMul(k: int, a: (int, int) -> real, b: (int, int) -> real, i: int, products: int -> real)
    requires forall j {:trigger products(j)} :: 0 <= j < k ==> products(j) == Mul(a(i, j), b(i, j))
    ensures PairRow(k, a, b, i) == Sum(k, products)
  {
    PairRowForm(k, a, b, i, j => a(i, j), j => b(i, j));
    var x, y := (j: int) => a(i, j), (j: int) => b(i, j);
    forall j | 0 <= j < k ensures products(j) == Mul(x(j), y(j)) {
    }
    PairMul(k, x, y, products);
  }

  lemma Pair2Form(n: int, k: int, a: (int, int) -> real, b: (int, int) -> real, products: (int, int) -> real)
    requires forall i, j {:trigger products(i, j)} :: 0 <= i < n && 0 <= j < k ==> products(i, j) == a(i, j) * b(i, j)
    ensures Sum2(n, k, products) == Pair2(n, k, a, b)
  {
    Sum2Eq(n, k, products, (i, j) => a(i, j) * b(i, j));
  }

  lemma Pair2Mul(n: int, k: int, a: (int, int) -> real, b: (int, int) -> real, products: (int, int) -> real)
    requires forall i, j {:trigger products(i, j)} :: 0 <= i < n && 0 <= j < k ==>
             products(i, j) == Mul(a(i, j), b(i, j))
    ensures Sum2(n, k, products) == Pair2(n, k, a, b)
  {
    hide Sum2, Pair2;
    Pair2Form(n, k, a, b, products);
  }

  lemma Pair2Eq(n: int, k: int, a: (int, int) -> real, b: (int, int) -> real, a': (int, int) -> real,
                b': (int, int) -> real)
    requires forall i, j {:trigger a(i, j)} :: 0 <= i < n && 0 <= j < k ==> a(i, j) == a'(i, j)
    requires forall i, j {:trigger b(i, j)} :: 0 <= i < n && 0 <= j < k ==> b(i, j) == b'(i, j)
    ensures Pair2(n, k, a, b) == Pair2(n, k, a', b')
  {
    var x, y := (i: int, j: int) => a(i, j) * b(i, j), (i: int, j: int) => a'(i, j) * b'(i, j);
    forall i, j | 0 <= i < n && 0 <= j < k ensures x(i, j) == y(i, j) {
      Factors(a(i, j), a'(i, j), b(i, j), b'(i, j));
    }
    Sum2Eq(n, k, x, y);
  }

  lemma Pair2Add5(n: int, k: int, h: (int, int) -> real, f1: (int, int) -> real, f2: (int, int) -> real,
                  f3: (int, int) -> real, f4: (int, int) -> real, f5: (int, int) -> real, v: (int, int) -> real)
    requires forall i, j {:trigger h(i, j)} :: 0 <= i < n && 0 <= j < k ==>
               h(i, j) == f1(i, j) + f2(i, j) + f3(i, j) + f4(i, j) + f5(i, j)
    ensures Pair2(n, k, h, v)
         == Pair2(n, k, f1, v) + Pair2(n, k, f2, v) + Pair2(n, k, f3, v) + Pair2(n, k, f4, v) + Pair2(n, k, f5, v)
  {
    hide Sum2;
    var p := (i: int, j: int) => h(i, j) * v(i, j);
    var p1, p2 := (i: int, j: int) => f1(i, j) * v(i, j), (i: int, j: int) => f2(i, j) * v(i, j);
    var p3, p4, p5 := (i: int, j: int) => f3(i, j) * v(i, j), (i: int, j: int) => f4(i, j)
        * v(i, j), (i: int, j: int) => f5(i, j) * v(i, j);
    forall i, j | 0 <= i < n && 0 <= j < k ensures p(i, j) == p1(i, j) + p2(i, j) + p3(i, j) + p4(i, j) + p5(i, j) {
      MulAdd5(h(i, j), f1(i, j), f2(i, j), f3(i, j), f4(i, j), f5(i, j), v(i, j));
    }
    Sum2Add5(n, k, p, p1, p2, p3, p4, p5);
  }

  lemma MulAdd5(h: real, f1: real, f2: real, f3: real, f4: real, f5: real, v: real)
    requires h == f1 + f2 + f3 + f4 + f5
    ensures h * v == f1 * v + f2 * v + f3 * v + f4 * v + f5 * v
  {
  }

  lemma Pair2Zero(n: int, k: int, a: (int, int) -> real, b: (int, int) -> real)
    requires forall i, j {:trigger a(i, j)} :: 0 <= i < n && 0 <= j < k ==> a(i, j) == 0.0
    ensures Pair2(n, k, a, b) == 0.0
  {
    Pair2Rows(n, k, a, b);
    var rows := (i: int) => PairRow(k, a, b, i);
    forall i | 0 <= i < n ensures rows(i) == 0.0 {
      PairRowForm(k, a, b, i, j => a(i, j), j => b(i, j));
      PairZero(k, j => a(i, j), j => b(i, j));
    }
    SumZero(n, rows);
  }

  lemma Pair2Swap(n: int, k: int, a: (int, int) -> real, b: (int, int) -> real)
    ensures Pair2(n, k, a, b) == Pair2(n, k, b, a)
  {
    Sum2Eq(n, k, (i, j) => a(i, j) * b(i, j), (i, j) => b(i, j) * a(i, j));
  }

  lemma PairRowsAdd(n: int, k: int, a: (int, int) -> real, b: (int, int) -> real, k': int, a': (int, int) -> real,
                    b': (int, int) -> real, l: int, c: (int, int) -> real, e: (int, int) -> real)
    requires forall i {:trigger PairRow(k, a, b, i)} :: 0 <= i < n ==>
               PairRow(k, a, b, i) == PairRow(k', a', b', i) + PairRow(l, c, e, i)
    ensures Pair2(n, k, a, b) == Pair2(n, k', a', b') + Pair2(n, l, c, e)
  {
    SumAdd(n, i => PairRow(k, a, b, i), i => PairRow(k', a', b', i), i => PairRow(l, c, e, i));
    Pair2Rows(n, k, a, b);
    Pair2Rows(n, k', a', b');
    Pair2Rows(n, l, c, e);
  }

  lemma Pair2Rows(n: int, k: int, a: (int, int) -> real, b: (int, int) -> real)
    ensures Pair2(n, k, a, b) == Sum(n, i => PairRow(k, a, b, i))
  {
    var cells := (i: int, j: int) => a(i, j) * b(i, j);
    SumEq(n, i => Row(k, cells, i), i => PairRow(k, a, b, i));
  }

  /** Pairings accumulated over `rows` time steps. */
  lemma PairOverRows(rows: nat, n: int, term: (int, int) -> real, total: int -> real, v: int -> real,
                     pairs: int -> real)
    requires forall t {:trigger pairs(t)} :: 0 <= t < rows ==> pairs(t) == Pair(n, c => term(c, t), v)
    requires forall c {:trigger total(c)} :: total(c) == SumFrom(0, rows, t => term(c, t))
    ensures Sum(rows, pairs) == Pair(n, total, v)
  {
    hide Sum, Mul, SumFrom, Pair;
    var cells := (t: int, c: int) => Mul(term(c, t), v(c));
    var flipped := (c: int, t: int) => Mul(term(c, t), v(c));
    forall t | 0 <= t < rows ensures pairs(t) == Row(n, cells, t) {
      PairMul(n, c => term(c, t), v, c => cells(t, c));
    }
    SumEq(rows, pairs, t => Row(n, cells, t));
    Sum2Swap(rows, n, cells, flipped);
    var rowTotals, products := (c: int) => Row(rows, flipped, c), (c: int) => Mul(total(c), v(c));
    forall c ensures rowTotals(c) == products(c) {
      TotalRow(rows, t => flipped(c, t), v(c), t => term(c, t), total(c));
    }
    SumEq(n, rowTotals, products);
    PairMul(n, total, v, products);
  }

  lemma TotalRow(rows: nat, cells: int -> real, v: real, terms: int -> real, total: real)
    requires forall t {:trigger cells(t)} :: cells(t) == Mul(terms(t), v)
    requires total == SumFrom(0, rows, terms)
    ensures Sum(rows, cells) == Mul(total, v)
  {
    hide Sum, SumFrom;
    SumFromAll(rows, terms);
    SumScale(rows, cells, v, terms);
  }

  /** A gradient that sums one row's terms `row(t)` over all rows, each entry's terms being `column(i)`: pairing the
      rows' terms one by one is pairing the gradient. */
  lemma RowsTotal(rows: nat, n: int, row: int -> int -> real, column: int -> int -> real, total: int -> real,
                  v: int -> real, pairs: int -> real)
    requires forall t, i {:trigger row(t)(i)} :: row(t)(i) == column(i)(t)
    requires forall t {:trigger pairs(t)} :: pairs(t) == Pair(n, row(t), v)
    requires forall i {:trigger total(i)} :: total(i) == SumFrom(0, rows, column(i))
    ensures Sum(rows, pairs) == Pair(n, total, v)
  {
    hide Sum, SumFrom, Pair;
    var term := (i: int, t: int) => row(t)(i);
    forall t ensures pairs(t) == Pair(n, i => term(i, t), v) {
      PairEq(n, row(t), i => term(i, t), v);
    }
    forall i ensures total(i) == SumFrom(0, rows, t => term(i, t)) {
      SumFromEq(0, rows, column(i), t => term(i, t));
    }
    PairOverRows(rows, n, term, total, v, pairs);
  }

  lemma Rows2Total(rows: nat, n: int, k: int, row: int -> (int, int) -> real, column: (int, int) -> int -> real,
                   total: (int, int) -> real, v: (int, int) -> real, pairs: int -> real)
    requires forall t, i, j {:trigger row(t)(i, j)} :: row(t)(i, j) == column(i, j)(t)
    requires forall t {:trigger pairs(t)} :: pairs(t) == Pair2(n, k, row(t), v)
    requires forall i, j {:trigger total(i, j)} :: total(i, j) == SumFrom(0, rows, column(i, j))
    ensures Sum(rows, pairs) == Pair2(n, k, total, v)
  {
    hide Sum, SumFrom, Pair2;
    var term := (i: int, j: int, t: int) => row(t)(i, j);
    forall t ensures pairs(t) == Pair2(n, k, (i, j) => term(i, j, t), v) {
      Pair2Eq(n, k, row(t), v, (i, j) => term(i, j, t), v);
    }
    forall i, j ensures total(i, j) == SumFrom(0, rows, t => term(i, j, t)) {
      SumFromEq(0, rows, column(i, j), t => term(i, j, t));
    }
    Pair2OverRows(rows, n, k, term, total, v, pairs);
  }

  lemma Pair2OverRows(rows: nat, n: int, k: int, term: (int, int, int) -> real, total: (int, int) -> real,
                      v: (int, int) -> real, pairs: int -> real)
    requires forall t {:trigger pairs(t)} :: 0 <= t < rows ==> pairs(t) == Pair2(n, k, (i, j) => term(i, j, t), v)
    requires forall i, j {:trigger total(i, j)} :: total(i, j) == SumFrom(0, rows, t => term(i, j, t))
    ensures Sum(rows, pairs) == Pair2(n, k, total, v)
  {
    hide Sum, SumFrom, Pair, Pair2, PairRow;
    var cells := (t: int, i: int) => Pair(k, j => term(i, j, t), j => v(i, j));
    forall t | 0 <= t < rows ensures pairs(t) == Row(n, cells, t) {
      var a, at := (i: int, j: int) => term(i, j, t), (i: int) => cells(t, i);
      forall i ensures PairRow(k, a, v, i) == at(i) {
        PairRowForm(k, a, v, i, j => term(i, j, t), j => v(i, j));
      }
      Pair2Rows(n, k, a, v);
      SumEq(n, i => PairRow(k, a, v, i), at);
    }
    SumEq(rows, pairs, t => Row(n, cells, t));
    Sum2Swap(rows, n, cells, (i, t) => cells(t, i));
    Pair2Columns(rows, n, k, term, total, v, (i, t) => cells(t, i));
  }

  lemma Pair2Columns(rows: nat, n: int, k: int, term: (int, int, int) -> real, total: (int, int) -> real,
                     v: (int, int) -> real, cells: (int, int) -> real)
    requires forall i, t {:trigger cells(i, t)} :: cells(i, t) == Pair(k, j => term(i, j, t), j => v(i, j))
    requires forall i, j {:trigger total(i, j)} :: total(i, j) == SumFrom(0, rows, t => term(i, j, t))
    ensures Sum2(n, rows, cells) == Pair2(n, k, total, v)
  {
    hide Sum, SumFrom, Pair, Pair2, PairRow;
    forall i ensures Row(rows, cells, i) == PairRow(k, total, v, i) {
      var terms := (j: int, t: int) => term(i, j, t);
      forall j ensures total(i, j) == SumFrom(0, rows, t => terms(j, t)) {
        SumFromEq(0, rows, t => term(i, j, t), t => terms(j, t));
      }
      forall t ensures cells(i, t) == Pair(k, j => terms(j, t), j => v(i, j)) {
        PairEq(k, j => term(i, j, t), j => terms(j, t), j => v(i, j));
      }
      PairOverRows(rows, k, terms, j => total(i, j), j => v(i, j), t => cells(i, t));
      PairRowForm(k, total, v, i, j => total(i, j), j => v(i, j));
    }
    SumEq(n, i => Row(rows, cells, i), i => PairRow(k, total, v, i));
    Pair2Rows(n, k, total, v);
  }

  // ---- matrix-vector product ----

  /** y(o) = sum over f of x(f) * w(o, f). */
  lemma Linear(no: int, nf: int, gy: int -> real, x: int -> real, tx: int -> real, w: (int, int) -> real,
               tw: (int, int) -> real, terms: (int, int) -> real, ty: int -> real, back: (int, int) -> real,
               gx: int -> real, gw: (int, int) -> real)
    requires forall o, f {:trigger terms(o, f)} :: terms(o, f) == Mul(tx(f), w(o, f)) + Mul(x(f), tw(o, f))
    requires forall o {:trigger ty(o)} :: 0 <= o < no ==> ty(o) == Row(nf, terms, o)
    requires forall f, o {:trigger back(f, o)} :: back(f, o) == Mul(gy(o), w(o, f))
    requires forall f {:trigger gx(f)} :: 0 <= f < nf ==> gx(f) == Row(no, back, f)
    requires forall o, f {:trigger gw(o, f)} :: gw(o, f) == Mul(gy(o), x(f))
    ensures Pair(no, gy, ty) == Pair(nf, gx, tx) + Pair2(no, nf, gw, tw)
  {
    hide Sum, Row, Pair;
    var viaX := (o: int, f: int) => gy(o) * (tx(f) * w(o, f));
    var viaW := (o: int, f: int) => gw(o, f) * tw(o, f);
    var cells := (o: int, f: int) => gy(o) * terms(o, f);
    Sum2Rows(no, nf, cells, gy, terms, ty);
    forall o, f ensures cells(o, f) == viaX(o, f) + viaW(o, f) {
      LinearCell(gy(o), x(f), tx(f), w(o, f), tw(o, f), terms(o, f), gw(o, f));
    }
    Sum2Add(no, nf, cells, viaX, viaW);
    LinearColumns(no, nf, tx, back, gx, viaX, gy, w);
  }

  lemma LinearCell(gy: real, x: real, tx: real, w: real, tw: real, term: real, gw: real)
    requires term == tx * w + x * tw && gw == gy * x
    ensures gy * term == gy * (tx * w) + gw * tw
  {
  }

  lemma LinearColumns(no: int, nf: int, tx: int -> real, back: (int, int) -> real, gx: int -> real,
                      viaX: (int, int) -> real, gy: int -> real, w: (int, int) -> real)
    requires forall f, o {:trigger back(f, o)} :: back(f, o) == Mul(gy(o), w(o, f))
    requires forall f {:trigger gx(f)} :: 0 <= f < nf ==> gx(f) == Row(no, back, f)
    requires forall o, f {:trigger viaX(o, f)} :: viaX(o, f) == gy(o) * (tx(f) * w(o, f))
    ensures Sum2(no, nf, viaX) == Pair(nf, gx, tx)
  {
    var flipped := (f: int, o: int) => viaX(o, f);
    Sum2Swap(no, nf, viaX, flipped);
    forall f, o ensures flipped(f, o) == tx(f) * back(f, o) {
    }
    Sum2Rows(nf, no, flipped, tx, back, gx);
    SumEq(nf, f => tx(f) * gx(f), f => gx(f) * tx(f));
  }

  // ---- scatter by key ----

  /** Pairing a double sum with a value that depends on the key of the row and on the column. */
  lemma KeyedCells(slots: int, n: int, k: int, key: int -> int, w: (int, int) -> real, v: (int, int) -> real,
                   cells: (int, int) -> real, scattered: (int, int) -> real)
    requires forall i :: 0 <= i < n ==> 0 <= key(i) < slots
    requires forall i, j {:trigger cells(i, j)} :: 0 <= i < n ==> cells(i, j) == w(i, j) * v(key(i), j)
    requires forall g, j {:trigger scattered(g, j)} :: 0 <= g < slots && 0 <= j < k ==>
               scattered(g, j) == Keyed(n, key, i => w(i, j), g)
    ensures Sum2(n, k, cells) == Pair2(slots, k, scattered, v)
  {
    hide Sum, Keyed;
    var columns, pairs := (j: int, i: int) => cells(i, j), (j: int, g: int) => scattered(g, j) * v(g, j);
    Sum2Swap(n, k, cells, columns);
    forall j | 0 <= j < k ensures Row(n, columns, j) == Row(slots, pairs, j) {
      KeyedColumn(slots, n, key, i => w(i, j), g => v(g, j), g => scattered(g, j), i => columns(j, i),
                  g => pairs(j, g));
    }
    RowsEq(k, n, slots, columns, pairs);
    Sum2Swap(k, slots, pairs, (g, j) => scattered(g, j) * v(g, j));
  }

  lemma KeyedColumn(slots: int, n: int, key: int -> int, w: int -> real, v: int -> real, scattered: int -> real,
                    cells: int -> real, pairs: int -> real)
    requires forall i :: 0 <= i < n ==> 0 <= key(i) < slots
    requires forall g {:trigger scattered(g)} :: 0 <= g < slots ==> scattered(g) == Keyed(n, key, w, g)
    requires forall i {:trigger cells(i)} :: 0 <= i < n ==> cells(i) == w(i) * v(key(i))
    requires forall g {:trigger pairs(g)} :: pairs(g) == scattered(g) * v(g)
    ensures Sum(n, cells) == Sum(slots, pairs)
  {
    SumByKey(slots, n, key, w, v, scattered, cells);
    SumEq(slots, pairs, g => scattered(g) * v(g));
  }

  lemma RowScale(k: int, cells: int -> real, c: real, w: int -> real, total: real)
    requires forall j {:trigger cells(j)} :: 0 <= j < k ==> cells(j) == w(j) * c
    requires total == Sum(k, w)
    ensures Sum(k, cells) == total * c
  {
    SumScale(k, cells, c, w);
  }

  /** Pairing a double sum with a value that depends on the key of the row only. */
  lemma KeyedRows(slots: int, n: int, k: int, key: int -> int, w: (int, int) -> real, v: int -> real,
                  cells: (int, int) -> real, rows: int -> real, scattered: int -> real)
    requires forall i :: 0 <= i < n ==> 0 <= key(i) < slots
    requires forall i, j {:trigger cells(i, j)} :: 0 <= i < n && 0 <= j < k ==> cells(i, j) == w(i, j) * v(key(i))
    requires forall i {:trigger rows(i)} :: 0 <= i < n ==> rows(i) == Row(k, w, i)
    requires forall g {:trigger scattered(g)} :: 0 <= g < slots ==> scattered(g) == Keyed(n, key, rows, g)
    ensures Sum2(n, k, cells) == Pair(slots, scattered, v)
  {
    var totals := (i: int) => Row(k, cells, i);
    forall i | 0 <= i < n ensures totals(i) == rows(i) * v(key(i)) {
      RowScale(k, j => cells(i, j), v(key(i)), j => w(i, j), rows(i));
    }
    SumByKey(slots, n, key, rows, v, scattered, totals);
  }

  // ---- normalisation by the root mean square ----

  /** A normalised row, reversed: `gv` and `gscale` are what the code forms from the output cotangent
      `share`. */
  lemma NormRow(size: nat, share: int -> real, scale: int -> real, tscale: int -> real, tbias: int -> real,
                v: int -> real, tv: int -> real, inv: real, tinv: real, dot: real, terms: int -> real,
                dots: int -> real, moves: int -> real, gv: int -> real, gscale: int -> real)
    requires 0 < size
    requires forall n {:trigger terms(n)} :: 0 <= n < size ==>
               terms(n) == Mul(share(n), NormTangent(v(n), tv(n), inv, tinv, scale(n), tscale(n), tbias(n)))
    requires forall n {:trigger dots(n)} :: 0 <= n < size ==> dots(n) == NormDotTerm(share(n), scale(n), v(n))
    requires forall n {:trigger moves(n)} :: 0 <= n < size ==> moves(n) == Mul(v(n), tv(n))
    requires dot == Sum(size, dots) && tinv == InvTangent(inv, Sum(size, moves), size as real)
    requires forall n {:trigger gv(n)} :: 0 <= n < size ==>
               gv(n) == NormBackward(inv, share(n), scale(n), v(n), dot, size as real)
    requires forall n {:trigger gscale(n)} :: 0 <= n < size ==> gscale(n) == Mul(Mul(share(n), v(n)), inv)
    ensures Sum(size, terms) == Pair(size, gv, tv) + Pair(size, gscale, tscale) + Pair(size, share, tbias)
  {
    hide Sum, Pair, Mul, NormTangent, InvTangent, NormDotTerm, NormBackward, Pull;
    var pull := Pull(inv, dot, size as real);
    var direct, viaInv := (n: int) => Mul(Mul(inv, Mul(share(n), scale(n))), tv(n)), (n: int) => Mul(tinv, dots(n));
    var viaScale, viaBias := (n: int) => Mul(gscale(n), tscale(n)), (n: int) => Mul(share(n), tbias(n));
    var back, value := (n: int) => Mul(pull, moves(n)), (n: int) => Mul(gv(n), tv(n));
    forall n | 0 <= n < size ensures terms(n) == direct(n) + viaInv(n) + (viaScale(n) + viaBias(n)) {
      NormCell(share(n), scale(n), tscale(n), tbias(n), v(n), tv(n), inv, tinv);
    }
    forall n | 0 <= n < size ensures value(n) == direct(n) + back(n) {
      NormBack(share(n), scale(n), v(n), tv(n), inv, dot, size as real);
    }
    NormPull(inv, dot, Sum(size, moves), size as real);
    NormSum(size, tinv, pull, terms, dots, moves, direct, viaInv, viaScale, viaBias, back, value);
    PairMul(size, gv, tv, value);
    PairMul(size, gscale, tscale, viaScale);
    PairMul(size, share, tbias, viaBias);
  }

  lemma NormCell(share: real, scale: real, tscale: real, tbias: real, v: real, tv: real, inv: real, tinv: real)
    ensures Mul(share, NormTangent(v, tv, inv, tinv, scale, tscale, tbias))
         == Mul(Mul(inv, Mul(share, scale)), tv) + Mul(tinv, NormDotTerm(share, scale, v))
            + (Mul(Mul(Mul(share, v), inv), tscale) + Mul(share, tbias))
  {
  }

  /** What the mean square sends back to each v(n), per unit of v(n). */
  ghost function Pull(inv: real, dot: real, size: real): real
    requires size != 0.0
  {
    -(dot * inv * inv * inv / size)
  }

  lemma NormBack(share: real, scale: real, v: real, tv: real, inv: real, dot: real, size: real)
    requires size != 0.0
    ensures Mul(NormBackward(inv, share, scale, v, dot, size), tv)
         == Mul(Mul(inv, Mul(share, scale)), tv) + Mul(Pull(inv, dot, size), Mul(v, tv))
  {
    var q := 1.0 / size;
    assert v * dot * inv * inv / size == v * dot * inv * inv * q;
    assert dot * inv * inv * inv / size == dot * inv * inv * inv * q;
  }

  lemma NormPull(inv: real, dot: real, move: real, size: real)
    requires size != 0.0
    ensures Mul(InvTangent(inv, move, size), dot) == Mul(Pull(inv, dot, size), move)
  {
    var q := 1.0 / size;
    assert InvTangent(inv, move, size) == -inv * inv * inv * move * q;
    assert dot * inv * inv * inv / size == dot * inv * inv * inv * q;
  }

  lemma NormSum(size: nat, tinv: real, pull: real, terms: int -> real, dots: int -> real, moves: int -> real,
                direct: int -> real, viaInv: int -> real, viaScale: int -> real, viaBias: int -> real,
                back: int -> real, value: int -> real)
    requires Mul(tinv, Sum(size, dots)) == Mul(pull, Sum(size, moves))
    requires forall n {:trigger terms(n)} :: 0 <= n < size ==>
             terms(n) == direct(n) + viaInv(n) + (viaScale(n) + viaBias(n))
    requires forall n {:trigger value(n)} :: 0 <= n < size ==> value(n) == direct(n) + back(n)
    requires forall n {:trigger viaInv(n)} :: 0 <= n < size ==> viaInv(n) == Mul(tinv, dots(n))
    requires forall n {:trigger back(n)} :: 0 <= n < size ==> back(n) == Mul(pull, moves(n))
    ensures Sum(size, terms) == Sum(size, value) + Sum(size, viaScale) + Sum(size, viaBias)
  {
    hide Sum;
    var rest := (n: int) => viaScale(n) + viaBias(n);
    SumAdd(size, rest, viaScale, viaBias);
    SumAdd3(size, terms, direct, viaInv, rest);
    SumAdd(size, value, direct, back);
    SumScaleMul(size, viaInv, tinv, dots);
    SumScaleMul(size, back, pull, moves);
  }

  // ---- pairs of neighbours ----

  lemma {:induction false} SumPairs(n: nat, f: int -> real)
    ensures Sum(2 * n, f) == Sum(n, j => f(2 * j) + f(2 * j + 1))
    decreases n
  {
    if n > 0 {
      SumPairs(n - 1, f);
      assert Sum(2 * n, f) == Sum(2 * n - 1, f) + f(2 * n - 1);
      assert Sum(2 * n - 1, f) == Sum(2 * n - 2, f) + f(2 * n - 2);
    }
  }
}
