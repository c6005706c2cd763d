/** Finite sums of reals: the algebra every adjoint proof of the project rests on.

    A sum over `n` indices is `Sum(n, f)`.  The lemmas are stated in relational form (the summand of
    the result is a parameter with a pointwise hypothesis) so that a caller names its own summands. */
module Sums {

  function Sum(n: int, f: int -> real): real
    decreases n
  {
    if n <= 0 then 0.0 else Sum(n - 1, f) + f(n - 1)
  }

  /** The sum of `f` over `lo..hi`, peeled from the low end: what a loop that runs backwards in time
      has accumulated when it has handled the rows `lo..hi`. */
  ghost function SumFrom(lo: int, hi: int, f: int -> real): real
    decreases hi - lo
  {
    if hi <= lo then 0.0 else SumFrom(lo + 1, hi, f) + f(lo)
  }

  lemma {:induction false} SumEq(n: int, f: int -> real, g: int -> real)
    requires forall i :: 0 <= i < n ==> f(i) == g(i)
    ensures Sum(n, f) == Sum(n, g)
    decreases n
  {
    if n > 0 {
      SumEq(n - 1, f, g);
    }
  }

  lemma {:induction false} SumAdd(n: int, h: int -> real, f: int -> real, g: int -> real)
    requires forall i :: 0 <= i < n ==> h(i) == f(i) + g(i)
    ensures Sum(n, h) == Sum(n, f) + Sum(n, g)
    decreases n
  {
    if n > 0 {
      SumAdd(n - 1, h, f, g);
    }
  }

  lemma SumAdd3(n: int, h: int -> real, f: int -> real, g: int -> real, k: int -> real)
    requires forall i :: 0 <= i < n ==> h(i) == f(i) + g(i) + k(i)
    ensures Sum(n, h) == Sum(n, f) + Sum(n, g) + Sum(n, k)
  {
    var fg := (i: int) => f(i) + g(i);
    SumAdd(n, fg, f, g);
    SumAdd(n, h, fg, k);
  }

  lemma SumAdd11(n: int, h: int -> real, f1: int -> real, f2: int -> real, f3: int -> real, f4: int -> real,
                 f5: int -> real, f6: int -> real, f7: int -> real, f8: int -> real, f9: int -> real,
                 f10: int -> real, f11: int -> real)
    requires forall i {:trigger h(i)} :: 0 <= i < n ==>
               h(i) == f1(i) + f2(i) + f3(i) + f4(i) + f5(i) + f6(i) + f7(i) + f8(i) + f9(i) + f10(i) + f11(i)
    ensures Sum(n, h) == Sum(n, f1) + Sum(n, f2) + Sum(n, f3) + Sum(n, f4) + Sum(n, f5) + Sum(n, f6) + Sum(n, f7)
                         + Sum(n, f8) + Sum(n, f9) + Sum(n, f10) + Sum(n, f11)
  {
    hide Sum;
    var a, b := (i: int) => f1(i) + f2(i) + f3(i), (i: int) => f4(i) + f5(i) + f6(i);
    var c, e := (i: int) => f7(i) + f8(i) + f9(i), (i: int) => f10(i) + f11(i);
    var abc := (i: int) => a(i) + b(i) + c(i);
    SumAdd3(n, a, f1, f2, f3);
    SumAdd3(n, b, f4, f5, f6);
    SumAdd3(n, c, f7, f8, f9);
    SumAdd(n, e, f10, f11);
    SumAdd3(n, abc, a, b, c);
    SumAdd(n, h, abc, e);
  }

  lemma {:induction false} SumScale(n: int, h: int -> real, c: real, f: int -> real)
    requires forall i :: 0 <= i < n ==> h(i) == c * f(i)
    ensures Sum(n, h) == c * Sum(n, f)
    decreases n
  {
    if n > 0 {
      SumScale(n - 1, h, c, f);
    }
  }

  lemma {:induction false} SumZero(n: int, f: int -> real)
    requires forall i :: 0 <= i < n ==> f(i) == 0.0
    ensures Sum(n, f) == 0.0
    decreases n
  {
    if n > 0 {
      SumZero(n - 1, f);
    }
  }

  lemma {:induction false} SumNonNegative(n: int, f: int -> real)
    requires forall i {:trigger f(i)} :: f(i) >= 0.0
    ensures Sum(n, f) >= 0.0
    decreases n
  {
    if n > 0 {
      SumNonNegative(n - 1, f);
    }
  }

  /** Only index `k` contributes. */
  lemma {:induction false} SumDelta(n: int, k: int, f: int -> real)
    requires forall i :: 0 <= i < n && i != k ==> f(i) == 0.0
    ensures Sum(n, f) == if 0 <= k < n then f(k) else 0.0
    decreases n
  {
    if n > 0 {
      SumDelta(n - 1, k, f);
    }
  }

  lemma {:induction false} SumSwap(n: int, k: int, g: (int, int) -> real)
    ensures Sum(n, i => Sum(k, j => g(i, j))) == Sum(k, j => Sum(n, i => g(i, j)))
    decreases n
  {
    if n <= 0 {
      SumZero(k, j => Sum(n, i => g(i, j)));
    } else {
      SumSwap(n - 1, k, g);
      SumAdd(k, j => Sum(n, i => g(i, j)), j => Sum(n - 1, i => g(i, j)), j => g(n - 1, j));
    }
  }

  lemma {:induction false} SumSplit(a: nat, b: nat, f: int -> real)
    ensures Sum(a + b, f) == Sum(a, f) + Sum(b, i => f(a + i))
    decreases b
  {
    if b > 0 {
      SumSplit(a, b - 1, f);
    }
  }

  /** A double loop over `(g, k)` visits the flat index `g * w + k` once each. */
  lemma {:induction false} SumFlatten(n: nat, w: nat, f: int -> real)
    ensures Sum(n * w, f) == Sum(n, g => Sum(w, k => f(g * w + k)))
    decreases n
  {
    if n > 0 {
      SumFlatten(n - 1, w, f);
      assert n * w == (n - 1) * w + w;
      SumSplit((n - 1) * w, w, f);
    } else {
      assert n * w == 0;
    }
  }

  /** The contribution that one loop iteration scatters to slot `g`. */
  ghost function Keyed(n: int, key: int -> int, w: int -> real, g: int): real {
    Sum(n, i => if key(i) == g then w(i) else 0.0)
  }

  lemma KeyedEq(n: int, key: int -> int, w: int -> real, v: int -> real, g: int)
    requires forall i {:trigger v(i)} :: 0 <= i < n ==> w(i) == v(i)
    ensures Keyed(n, key, w, g) == Keyed(n, key, v, g)
  {
    SumEq(n, i => if key(i) == g then w(i) else 0.0, i => if key(i) == g then v(i) else 0.0);
  }

  /** A product as a function symbol, so that equal factors give equal products by congruence. */
  function Mul(x: real, y: real): real {
    x * y
  }

  lemma NonNegative(x: real)
    ensures Mul(x, x) >= 0.0
  {
  }

  lemma MulZero(x: real)
    ensures Mul(x, 0.0) == 0.0
  {
  }

  lemma MulAdd(a: real, b: real, c: real, x: real)
    requires a == b + c
    ensures Mul(a, x) == Mul(b, x) + Mul(c, x)
    ensures a == 0.0 ==> Mul(a, x) == 0.0
  {
  }

  ghost function Pair(n: int, a: int -> real, b: int -> real): real {
    Sum(n, i => a(i) * b(i))
  }

  lemma PairForm(n: int, a: int -> real, b: int -> real, products: int -> real)
    requires forall i {:trigger products(i)} :: 0 <= i < n ==> products(i) == a(i) * b(i)
    ensures Sum(n, products) == Pair(n, a, b)
  {
    SumEq(n, products, i => a(i) * b(i));
  }

  lemma PairMul(n: int, a: int -> real, b: int -> real, products: int -> real)
    requires forall i {:trigger products(i)} :: 0 <= i < n ==> products(i) == Mul(a(i), b(i))
    ensures Sum(n, products) == Pair(n, a, b)
  {
    PairForm(n, a, b, products);
  }

  lemma PairEq(n: int, a: int -> real, b: int -> real, v: int -> real)
    requires forall i {:trigger a(i)} :: 0 <= i < n ==> a(i) == b(i)
    ensures Pair(n, a, v) == Pair(n, b, v)
  {
    hide Mul;
    var p := (i: int) => Mul(a(i), v(i));
    PairMul(n, a, v, p);
    PairMul(n, b, v, p);
  }

  lemma PairSame(n: int, a: int -> real, x: int -> real, y: int -> real)
    requires forall i {:trigger x(i)} :: x(i) == y(i)
    ensures Pair(n, a, x) == Pair(n, a, y)
  {
    hide Mul;
    var p := (i: int) => Mul(a(i), x(i));
    PairMul(n, a, x, p);
    PairMul(n, a, y, p);
  }

  lemma PairZero(n: int, a: int -> real, v: int -> real)
    requires forall i {:trigger a(i)} :: 0 <= i < n ==> a(i) == 0.0
    ensures Pair(n, a, v) == 0.0
  {
    var p := (i: int) => Mul(a(i), v(i));
    PairMul(n, a, v, p);
    forall i | 0 <= i < n ensures p(i) == 0.0 {
      MulAdd(a(i), 0.0, 0.0, v(i));
    }
    SumZero(n, p);
  }

  lemma PairAdd(n: int, h: int -> real, a: int -> real, b: int -> real, v: int -> real)
    requires forall i {:trigger h(i)} :: 0 <= i < n ==> h(i) == a(i) + b(i)
    ensures Pair(n, h, v) == Pair(n, a, v) + Pair(n, b, v)
  {
    hide Mul;
    var p, x, y := (i: int) => Mul(h(i), v(i)), (i: int) => Mul(a(i), v(i)), (i: int) => Mul(b(i), v(i));
    PairMul(n, h, v, p);
    PairMul(n, a, v, x);
    PairMul(n, b, v, y);
    forall i | 0 <= i < n ensures p(i) == x(i) + y(i) {
      MulAdd(h(i), a(i), b(i), v(i));
    }
    SumAdd(n, p, x, y);
  }

  lemma SumScaleMul(n: int, h: int -> real, c: real, f: int -> real)
    requires forall i {:trigger h(i)} :: 0 <= i < n ==> h(i) == Mul(c, f(i))
    ensures Sum(n, h) == c * Sum(n, f) == Mul(c, Sum(n, f))
  {
    SumScale(n, h, c, f);
  }

  /** Scatter equals gather: pairing scattered sums with `v` pairs each contribution with the `v` of
      its own slot. */
  lemma SumByKey(slots: int, n: int, key: int -> int, w: int -> real, v: int -> real, scattered: int -> real,
                 cells: int -> real)
    requires forall i :: 0 <= i < n ==> 0 <= key(i) < slots
    requires forall g {:trigger scattered(g)} :: 0 <= g < slots ==> scattered(g) == Keyed(n, key, w, g)
    requires forall i {:trigger cells(i)} :: 0 <= i < n ==> cells(i) == w(i) * v(key(i))
    ensures Pair(slots, scattered, v) == Sum(n, cells)
  {
    var cell := (g: int, i: int) => if key(i) == g then w(i) * v(g) else 0.0;
    ScatteredCells(slots, n, key, w, v, scattered, cell);
    SumSwap(slots, n, cell);
    GatheredCells(slots, n, key, w, v, cells, cell);
  }

  lemma ScatteredCells(slots: int, n: int, key: int -> int, w: int -> real, v: int -> real, scattered: int -> real,
                       cell: (int, int) -> real)
    requires forall g {:trigger scattered(g)} :: 0 <= g < slots ==> scattered(g) == Keyed(n, key, w, g)
    requires forall g, i {:trigger cell(g, i)} :: cell(g, i) == if key(i) == g then w(i) * v(g) else 0.0
    ensures Pair(slots, scattered, v) == Sum(slots, g => Sum(n, i => cell(g, i)))
  {
    hide Sum, Keyed;
    var pairs, rows := (g: int) => scattered(g) * v(g), (g: int) => Sum(n, i => cell(g, i));
    forall g | 0 <= g < slots ensures pairs(g) == rows(g) {
      KeyedRow(n, key, w, v(g), g, scattered(g), i => cell(g, i));
    }
    SumEq(slots, pairs, rows);
  }

  lemma GatheredCells(slots: int, n: int, key: int -> int, w: int -> real, v: int -> real, cells: int -> real,
                      cell: (int, int) -> real)
    requires forall i :: 0 <= i < n ==> 0 <= key(i) < slots
    requires forall i {:trigger cells(i)} :: 0 <= i < n ==> cells(i) == w(i) * v(key(i))
    requires forall g, i {:trigger cell(g, i)} :: cell(g, i) == if key(i) == g then w(i) * v(g) else 0.0
    ensures Sum(n, cells) == Sum(n, i => Sum(slots, g => cell(g, i)))
  {
    var columns := (i: int) => Sum(slots, g => cell(g, i));
    forall i | 0 <= i < n ensures cells(i) == columns(i) {
      SumDelta(slots, key(i), g => cell(g, i));
    }
    SumEq(n, cells, columns);
  }

  lemma KeyedRow(n: int, key: int -> int, w: int -> real, v: real, g: int, scattered: real, row: int -> real)
    requires scattered == Keyed(n, key, w, g)
    requires forall i {:trigger row(i)} :: row(i) == if key(i) == g then w(i) * v else 0.0
    ensures scattered * v == Sum(n, row)
  {
    SumScale(n, row, v, i => if key(i) == g then w(i) else 0.0);
  }

  lemma {:induction false} SumFromEq(lo: int, hi: int, f: int -> real, g: int -> real)
    requires forall i :: lo <= i < hi ==> f(i) == g(i)
    ensures SumFrom(lo, hi, f) == SumFrom(lo, hi, g)
    decreases hi - lo
  {
    if lo < hi {
      SumFromEq(lo + 1, hi, f, g);
    }
  }

  lemma {:induction false} SumFromSplit(lo: int, n: int, f: int -> real)
    requires 0 <= lo <= n
    ensures Sum(n, f) == Sum(lo, f) + SumFrom(lo, n, f)
    decreases n - lo
  {
    if lo < n {
      SumFromSplit(lo + 1, n, f);
    }
  }

  /** A time-reversed accumulation over all rows is the plain sum. */
  lemma SumFromAll(n: nat, f: int -> real)
    ensures SumFrom(0, n, f) == Sum(n, f)
  {
    SumFromSplit(0, n, f);
  }
}
