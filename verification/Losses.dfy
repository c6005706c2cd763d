/** A loss: rows of outputs against an upstream gradient, and how it moves. */
module Losses {
  import opened Sums
  import opened Slopes

  ghost function LossOf(rows: int, width: int, up: (int, int) -> real, out: (int, int) -> real): real {
    Sum(rows, t => Pair(width, o => up(t, o), o => out(t, o)))
  }

  lemma LossEq(rows: int, width: int, up: (int, int) -> real, x: (int, int) -> real, y: (int, int) -> real)
    requires forall t, o {:trigger x(t, o)} :: x(t, o) == y(t, o)
    ensures LossOf(rows, width, up, x) == LossOf(rows, width, up, y)
  {
    hide Sum, Pair;
    var a, b := (t: int) => Pair(width, o => up(t, o), o => x(t, o)),
        (t: int) => Pair(width, o => up(t, o), o => y(t, o));
    forall t ensures a(t) == b(t) {
      PairSame(width, o => up(t, o), o => x(t, o), o => y(t, o));
    }
    SumEq(rows, a, b);
  }

  /** The outputs at one point of their paths. */
  ghost function Slice2(paths: (int, int) -> real -> real, e: real): (x: (int, int) -> real)
    ensures forall t, o {:trigger x(t, o)} :: x(t, o) == paths(t, o)(e)
  {
    (t: int, o: int) => paths(t, o)(e)
  }

  ghost function UpParts(up: (int, int) -> real, paths: (int, int) -> real -> real, t: int): (v: int -> real -> real)
    ensures forall o {:trigger v(o)} :: v(o) == Times(Const(up(t, o)), paths(t, o))
  {
    (o: int) => Times(Const(up(t, o)), paths(t, o))
  }

  ghost function RowParts(width: int, up: (int, int) -> real,
                          paths: (int, int) -> real -> real): (v: int -> real -> real)
    ensures forall t {:trigger v(t)} :: v(t) == Partial(width, UpParts(up, paths, t))
  {
    hide UpParts, Partial;
    (t: int) => Partial(width, UpParts(up, paths, t))
  }

  lemma RowSlope(width: int, up: (int, int) -> real, paths: (int, int) -> real -> real, slopes: (int, int) -> real,
                 t: int)
    requires forall o {:trigger slopes(t, o)} :: Slope(paths(t, o), slopes(t, o))
    ensures Slope(RowParts(width, up, paths)(t), Pair(width, o => up(t, o), o => slopes(t, o)))
  {
    hide Slope, Times, Const, Mul, Sum, Pair, UpParts, Partial, RowParts;
    var moves := (o: int) => Mul(up(t, o), slopes(t, o));
    forall o ensures Slope(UpParts(up, paths, t)(o), moves(o)) {
      assert Slope(paths(t, o), slopes(t, o));
      SlopeScale(UpParts(up, paths, t)(o), moves(o), up(t, o), paths(t, o), slopes(t, o));
    }
    PairMul(width, o => up(t, o), o => slopes(t, o), moves);
    SlopeSum(width, RowParts(width, up, paths)(t), Pair(width, o => up(t, o), o => slopes(t, o)), UpParts(up, paths, t),
             moves);
  }

  lemma RowForm(width: int, up: (int, int) -> real, paths: (int, int) -> real -> real, t: int, e: real)
    ensures RowParts(width, up, paths)(t)(e) == Pair(width, o => up(t, o), o => Slice2(paths, e)(t, o))
  {
    hide Times, Const, Mul, Sum, Pair, UpParts, Partial, RowParts, Slice, Slice2;
    var cell := Slice2(paths, e);
    var x, p := (o: int) => Slice2(paths, e)(t, o), Slice(UpParts(up, paths, t), e);
    forall o ensures p(o) == Mul(up(t, o), x(o)) {
      assert x(o) == cell(t, o) && p(o) == UpParts(up, paths, t)(o)(e);
    }
    PairMul(width, o => up(t, o), x, p);
  }

  lemma LossSlope(h: real -> real, s: real, rows: int, width: int, up: (int, int) -> real,
                  paths: (int, int) -> real -> real, slopes: (int, int) -> real)
    requires forall t, o {:trigger slopes(t, o)} :: 0 <= t < rows ==> Slope(paths(t, o), slopes(t, o))
    requires forall e {:trigger h(e)} :: h(e) == LossOf(rows, width, up, Slice2(paths, e))
    requires s == LossOf(rows, width, up, slopes)
    ensures Slope(h, s)
  {
    hide Slope, Sum, Pair, Partial, RowParts, Slice, Slice2;
    var moves := (t: int) => Pair(width, o => up(t, o), o => slopes(t, o));
    forall t | 0 <= t < rows ensures Slope(RowParts(width, up, paths)(t), moves(t)) {
      RowSlope(width, up, paths, slopes, t);
    }
    forall e ensures h(e) == Sum(rows, Slice(RowParts(width, up, paths), e)) {
      forall t ensures Slice(RowParts(width, up, paths), e)(t)
                    == Pair(width, o => up(t, o), o => Slice2(paths, e)(t, o)) {
        RowForm(width, up, paths, t, e);
      }
      SumEq(rows, Slice(RowParts(width, up, paths), e), t => Pair(width, o => up(t, o), o => Slice2(paths, e)(t, o)));
    }
    SlopeSum(rows, h, s, RowParts(width, up, paths), moves);
  }
}
