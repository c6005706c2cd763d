/** The RMS normalisation of a row and its backward, with lane-wise reductions. */
module RmsNorm {
  import opened Sums
  import opened Stages
  import opened Functions
  import opened Buffers
  import opened LaneReduction

  /** The rows of one launch.  `up` is the gradient of the normalised rows, `residual` what the residual
      connection already carries towards the inputs. */
  datatype Raw = Raw(rows: nat, size: nat, fns: Fns, x: (int, int) -> real, weight: int -> real,
                     up: (int, int) -> real, residual: (int, int) -> real)

  type Norm = m: Raw | 0 < m.size
    ghost witness Raw(0, 1, NOFNS, (r, i) => 0.0, i => 0.0, (r, i) => 0.0, (r, i) => 0.0)

  const EPS := 0.00001

  function Squares(m: Norm, r: int): real { Sum(m.size, i => Mul(m.x(r, i), m.x(r, i))) }
  function Inv(m: Norm, r: int): real { InvOf(m.fns, Squares(m, r), m.size) }

  function InvOf(k: Fns, squares: real, size: nat): real
    requires 0 < size
  {
    k.rsqrt(squares / size as real + EPS)
  }

  function Out(m: Norm, r: int, i: int): real { Entry(m.x(r, i), Inv(m, r), m.weight(i)) }

  function Entry(x: real, inv: real, weight: real): real { x * inv * weight }

  function Dot(m: Norm, r: int): real { Sum(m.size, i => NormDotTerm(m.up(r, i), m.weight(i), m.x(r, i))) }

  /** The normalisation's own gradient, without the residual's. */
  function XGrad(m: Norm, r: int, i: int): real {
    NormBackward(Inv(m, r), m.up(r, i), m.weight(i), m.x(r, i), Dot(m, r), m.size as real)
  }

  ghost function WTerm(m: Norm, r: int, i: int): real { Mul(Mul(m.up(r, i), m.x(r, i)), Inv(m, r)) }

  // ---- kernels ----

  method InverseRms(m: Norm, lanes: nat, r: nat) returns (inv: real)
    requires 0 < lanes
    ensures inv == Inv(m, r)
  {
    hide Sum, Mul;
    var f := (i: int) => Mul(m.x(r, i), m.x(r, i));
    var sum := Reduce(lanes, m.size, f);
    SumEq(m.size, f, i => Mul(m.x(r, i), m.x(r, i)));
    inv := InvOf(m.fns, sum, m.size);
  }

  method Forward(m: Norm, lanes: nat) returns (out: array2<real>)
    requires 0 < lanes
    ensures fresh(out) && Matrix(out, m.rows, m.size, (r, i) => Out(m, r, i))
  {
    hide Inv;
    out := new real[m.rows, m.size];
    for r := 0 to m.rows
      invariant forall q, i :: 0 <= q < r && 0 <= i < m.size ==> out[q, i] == Out(m, q, i)
    {
      var inv := InverseRms(m, lanes, r);
      for i := 0 to m.size
        invariant forall q, j :: 0 <= q <= r && 0 <= j < m.size && (q < r || j < i) ==> out[q, j] == Out(m, q, j)
      {
        out[r, i] := Entry(m.x(r, i), inv, m.weight(i));
      }
    }
  }

  method RowDot(m: Norm, lanes: nat, r: nat) returns (dot: real)
    requires 0 < lanes
    ensures dot == Dot(m, r)
  {
    hide Sum, NormDotTerm;
    var f := (i: int) => NormDotTerm(m.up(r, i), m.weight(i), m.x(r, i));
    dot := Reduce(lanes, m.size, f);
    SumEq(m.size, f, i => NormDotTerm(m.up(r, i), m.weight(i), m.x(r, i)));
  }

  /** The backward of one row: the total gradient of the row, and its share of the weight gradient. */
  method RowBack(m: Norm, lanes: nat, r: nat, total: array2<real>, weight: array<real>)
    requires 0 < lanes && r < m.rows && total.Length0 == m.rows && total.Length1 == m.size && weight.Length == m.size
    modifies total, weight
    ensures forall q, i :: 0 <= q < m.rows && 0 <= i < m.size ==>
              total[q, i] == if q == r then m.residual(r, i) + XGrad(m, r, i) else old(total[q, i])
    ensures forall i :: 0 <= i < m.size ==> weight[i] == old(weight[i]) + WTerm(m, r, i)
  {
    hide Inv, Dot, NormBackward, Mul;
    var inv := InverseRms(m, lanes, r);
    var dot := RowDot(m, lanes, r);
    for i := 0 to m.size
      invariant forall q, j :: 0 <= q < m.rows && 0 <= j < m.size ==>
                  total[q, j] == if q == r && j < i then m.residual(r, j) + XGrad(m, r, j) else old(total[q, j])
      invariant forall j :: 0 <= j < m.size ==> weight[j] == old(weight[j]) + if j < i then WTerm(m, r, j) else 0.0
    {
      total[r, i] := m.residual(r, i) + NormBackward(inv, m.up(r, i), m.weight(i), m.x(r, i), dot, m.size as real);
      weight[i] := weight[i] + Mul(Mul(m.up(r, i), m.x(r, i)), inv);
    }
  }

  method Backward(m: Norm, lanes: nat) returns (total: array2<real>, weight: array<real>)
    requires 0 < lanes
    ensures Matrix(total, m.rows, m.size, (r, i) => m.residual(r, i) + XGrad(m, r, i))
    ensures Vector(weight, m.size, i => Sum(m.rows, r => WTerm(m, r, i)))
  {
    hide XGrad, WTerm;
    total := new real[m.rows, m.size];
    weight := ZeroVector(m.size);
    for r := 0 to m.rows
      invariant forall q, i :: 0 <= q < r && 0 <= i < m.size ==> total[q, i] == m.residual(q, i) + XGrad(m, q, i)
      invariant forall i :: 0 <= i < m.size ==> weight[i] == Sum(r, q => WTerm(m, q, i))
    {
      RowBack(m, lanes, r, total, weight);
    }
  }

  // ---- adjointness ----

  ghost function Move(m: Norm, tx: (int, int) -> real, r: int): real { Sum(m.size, i => Mul(m.x(r, i), tx(r, i))) }

  /** The output's tangent, with rsqrt' = -rsqrt^3 / 2. */
  ghost function TOut(m: Norm, tx: (int, int) -> real, tw: int -> real, r: int, i: int): real {
    NormTangent(m.x(r, i), tx(r, i), Inv(m, r), InvTangent(Inv(m, r), Move(m, tx, r), m.size as real), m.weight(i),
                tw(i), 0.0)
  }

  /** A row's backward is the exact vector-Jacobian product of the row, for every row length. */
  lemma RowIsAdjoint(m: Norm, tx: (int, int) -> real, tw: int -> real, r: int)
    ensures Sum(m.size, i => Mul(m.up(r, i), TOut(m, tx, tw, r, i)))
         == Pair(m.size, i => XGrad(m, r, i), i => tx(r, i)) + Pair(m.size, i => WTerm(m, r, i), tw)
  {
    hide Sum, Pair, Mul, NormTangent, InvTangent, NormDotTerm, NormBackward, Inv;
    var inv, size := Inv(m, r), m.size as real;
    var share, zero := (i: int) => m.up(r, i), (i: int) => 0.0;
    var terms := (i: int) => Mul(m.up(r, i), TOut(m, tx, tw, r, i));
    var dots, moves := (i: int) => NormDotTerm(m.up(r, i), m.weight(i), m.x(r, i)),
        (i: int) => Mul(m.x(r, i), tx(r, i));
    NormRow(m.size, share, m.weight, tw, zero, i => m.x(r, i), i => tx(r, i), inv,
            InvTangent(inv, Move(m, tx, r), size), Dot(m, r),
            terms, dots, moves, i => XGrad(m, r, i), i => WTerm(m, r, i));
    NoBias(m, r, share, zero);
  }

  lemma NoBias(m: Norm, r: int, share: int -> real, zero: int -> real)
    requires forall i {:trigger zero(i)} :: zero(i) == 0.0
    ensures Pair(m.size, share, zero) == 0.0
  {
    hide Mul;
    var p := (i: int) => Mul(share(i), zero(i));
    PairMul(m.size, share, zero, p);
    forall i ensures p(i) == 0.0 {
      MulZero(share(i));
    }
    SumZero(m.size, p);
  }

  /** Euler's identity: the gradient has no component along the row but for the epsilon. */
  lemma AlongTheRow(m: Norm, r: int)
    requires Inv(m, r) * Inv(m, r) * (Squares(m, r) / m.size as real + EPS) == 1.0
    ensures Sum(m.size, i => Mul(m.x(r, i), XGrad(m, r, i))) == EPS * (Inv(m, r) * Inv(m, r) * Inv(m, r)) * Dot(m, r)
  {
    hide Sum, Mul, Inv, Dot, NormBackward, NormDotTerm, Squares;
    var inv, dot, size := Inv(m, r), Dot(m, r), m.size as real;
    var all := (i: int) => Mul(m.x(r, i), XGrad(m, r, i));
    var dots, squares := (i: int) => NormDotTerm(m.up(r, i), m.weight(i), m.x(r, i)),
        (i: int) => Mul(m.x(r, i), m.x(r, i));
    var a, b := (i: int) => Mul(inv, dots(i)), (i: int) => Mul(Pull(inv, dot, size), squares(i));
    forall i ensures all(i) == a(i) + b(i) {
      AlongCell(m.x(r, i), m.up(r, i), m.weight(i), inv, dot, size);
    }
    SumAdd(m.size, all, a, b);
    SumScaleMul(m.size, a, inv, dots);
    SumScaleMul(m.size, b, Pull(inv, dot, size), squares);
    RowTotals(m, r, dots, squares);
    AlongTotal(inv, dot, size, Squares(m, r));
  }

  lemma RowTotals(m: Norm, r: int, dots: int -> real, squares: int -> real)
    requires forall i {:trigger dots(i)} :: dots(i) == NormDotTerm(m.up(r, i), m.weight(i), m.x(r, i))
    requires forall i {:trigger squares(i)} :: squares(i) == Mul(m.x(r, i), m.x(r, i))
    ensures Sum(m.size, dots) == Dot(m, r) && Sum(m.size, squares) == Squares(m, r)
  {
    hide Sum, NormDotTerm, Mul;
    SumEq(m.size, dots, i => NormDotTerm(m.up(r, i), m.weight(i), m.x(r, i)));
    SumEq(m.size, squares, i => Mul(m.x(r, i), m.x(r, i)));
  }

  lemma AlongCell(x: real, up: real, w: real, inv: real, dot: real, size: real)
    requires size != 0.0
    ensures Mul(x, NormBackward(inv, up, w, x, dot, size))
            == Mul(inv, NormDotTerm(up, w, x)) + Mul(Pull(inv, dot, size), Mul(x, x))
  {
    var q := 1.0 / size;
    assert x * dot * inv * inv / size == x * dot * inv * inv * q;
    assert dot * inv * inv * inv / size == dot * inv * inv * inv * q;
  }

  lemma AlongTotal(inv: real, dot: real, size: real, squares: real)
    requires size != 0.0 && inv * inv * (squares / size + EPS) == 1.0
    ensures inv * dot + Pull(inv, dot, size) * squares == EPS * (inv * inv * inv) * dot
  {
    var q := 1.0 / size;
    assert squares / size == squares * q;
    assert dot * inv * inv * inv / size == dot * inv * inv * inv * q;
    assert inv * dot == inv * dot * (inv * inv * (squares * q + EPS));
  }
}
