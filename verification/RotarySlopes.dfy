/** The linearised rotary projection is its derivative, and what fixes the rotation's angle. */
module RotarySlopes {
  import opened Sums
  import opened Slopes
  import opened FunctionSlopes
  import opened ProjectionSegments
  import opened RotaryProjection

  // ---- paths ----

  ghost function UAt(c: real -> Rotary, i: int, j: int): (f: real -> real)
    ensures forall e {:trigger f(e)} :: f(e) == c(e).u(i, j)
  {
    (e: real) => c(e).u(i, j)
  }

  ghost function WAt(c: real -> Rotary, i: int, j: int): (f: real -> real)
    ensures forall e {:trigger f(e)} :: f(e) == c(e).w(i, j)
  {
    (e: real) => c(e).w(i, j)
  }

  ghost function FreqAt(c: real -> Rotary, i: int): (f: real -> real)
    ensures forall e {:trigger f(e)} :: f(e) == c(e).freq(i)
  {
    (e: real) => c(e).freq(i)
  }

  /** The same sizes and functions. */
  ghost predicate Sized(s: Rotary, n: Rotary) {
    n.rows == s.rows && n.width == s.width && n.heads == s.heads && n.half == s.half && n.cos == s.cos && n.sin == s.sin
  }

  /** `c` is a path through projections that moves with velocity `d` at zero. */
  ghost predicate Curve(c: real -> Rotary, d: Moves) {
    && (forall e {:trigger c(e)} :: Sized(c(0.0), c(e)))
    && (forall i, j {:trigger UAt(c, i, j)} :: Slope(UAt(c, i, j), d.u(i, j)))
    && (forall i, j {:trigger WAt(c, i, j)} :: Slope(WAt(c, i, j), d.w(i, j)))
    && (forall i {:trigger FreqAt(c, i)} :: Slope(FreqAt(c, i), d.freq(i)))
  }

  lemma InputSlopes(c: real -> Rotary, d: Moves, t: int, p: int, i: int)
    requires Curve(c, d)
    ensures Slope(UAt(c, t, i), d.u(t, i)) && Slope(WAt(c, p, i), d.w(p, i))
  {
    hide Slope, UAt, WAt;
    assert Slope(UAt(c, t, i), d.u(t, i)) && Slope(WAt(c, p, i), d.w(p, i));
  }

  lemma FreqSlope(c: real -> Rotary, d: Moves, i: int)
    requires Curve(c, d)
    ensures Slope(FreqAt(c, i), d.freq(i))
  {
    hide Slope, FreqAt;
    assert Slope(FreqAt(c, i), d.freq(i));
  }

  ghost function ProjAt(c: real -> Rotary, r: int, p: int): (v: real -> real)
    ensures forall e {:trigger v(e)} :: v(e) == Proj(c(e), r, p)
  {
    hide Proj;
    (e: real) => Proj(c(e), r, p)
  }

  ghost function PhaseAt(c: real -> Rotary, r: int, x: int): (v: real -> real)
    ensures forall e {:trigger v(e)} :: v(e) == Phase(c(e), r, x)
  {
    hide Phase;
    (e: real) => Phase(c(e), r, x)
  }

  ghost function PreparedAt(c: real -> Rotary, r: int, p: int): (v: real -> real)
    ensures forall e {:trigger v(e)} :: v(e) == Prepared(c(e), r, p)
  {
    hide Prepared;
    (e: real) => Prepared(c(e), r, p)
  }

  // ---- projection and phase ----

  ghost function ProjParts(c: real -> Rotary, r: int, p: int): (f: int -> real -> real)
    ensures forall i {:trigger f(i)} :: f(i) == Times(UAt(c, r, i), WAt(c, p, i))
  {
    (i: int) => Times(UAt(c, r, i), WAt(c, p, i))
  }

  lemma ProjForm(s: Rotary, n: Rotary, r: int, p: int, f: int -> real)
    requires Sized(s, n) && forall i {:trigger f(i)} :: f(i) == Mul(n.u(r, i), n.w(p, i))
    ensures Proj(n, r, p) == Sum(s.width, f)
  {
    hide Sum, Mul;
    SumEq(n.width, i => Mul(n.u(r, i), n.w(p, i)), f);
  }

  lemma ProjSlope(c: real -> Rotary, d: Moves, r: int, p: int)
    requires Curve(c, d)
    ensures Slope(ProjAt(c, r, p), TProj(c(0.0), d, r, p))
  {
    hide Sized, Slope, ProjAt, Proj, ProjParts, UAt, WAt, Sum, Slice, Mul, Times;
    var s := c(0.0);
    var slopes := (i: int) => MoveTerm(In(s, d), r, p, i);
    forall e ensures ProjAt(c, r, p)(e) == Sum(s.width, Slice(ProjParts(c, r, p), e)) {
      ProjForm(s, c(e), r, p, Slice(ProjParts(c, r, p), e));
    }
    hide Curve;
    forall i ensures Slope(ProjParts(c, r, p)(i), slopes(i)) {
      InputSlopes(c, d, r, p, i);
      SlopeMul(ProjParts(c, r, p)(i), slopes(i), UAt(c, r, i), d.u(r, i), WAt(c, p, i), d.w(p, i));
    }
    SlopeSum(s.width, ProjAt(c, r, p), TProj(s, d, r, p), ProjParts(c, r, p), slopes);
  }

  lemma PhaseForm(s: Rotary, r: int, x: int)
    ensures Phase(s, r, x) == Mul(r as real, s.freq(x))
  {
  }

  lemma PhaseSlope(c: real -> Rotary, d: Moves, r: int, x: int, y: int)
    requires Curve(c, d) && y == x % c(0.0).half
    ensures Slope(PhaseAt(c, r, y), TPhase(c(0.0), d, r, x))
  {
    hide Slope, Curve, PhaseAt, Phase, FreqAt, Mul;
    FreqSlope(c, d, y);
    forall e ensures PhaseAt(c, r, y)(e) == Mul(r as real, FreqAt(c, y)(e)) {
      PhaseForm(c(e), r, y);
    }
    TPhaseForm(c(0.0), d, r, x, y);
    SlopeScale(PhaseAt(c, r, y), TPhase(c(0.0), d, r, x), r as real, FreqAt(c, y), d.freq(y));
  }

  lemma TPhaseForm(s: Rotary, d: Moves, r: int, x: int, y: int)
    requires y == x % s.half
    ensures TPhase(s, d, r, x) == Mul(r as real, d.freq(y))
  {
  }

  // ---- the rotated pair ----

  lemma TurnForms(p0: real, p1: real, t0: real, t1: real, c: real, z: real, turn: real)
    ensures First(p0, p1, c, z) == Mul(p1, z) + Mul(p0, c) && Second(p0, p1, c, z) == Mul(p1, c) - Mul(p0, z)
    ensures First(t0, t1, c, z) + Mul(FirstTurn(p0, p1, c, z), turn)
         == TBySin(c, z, p1, t1, turn) + TByCos(c, z, p0, t0, turn)
    ensures Second(t0, t1, c, z) + Mul(SecondTurn(p0, p1, c, z), turn)
         == TByCos(c, z, p1, t1, turn) - TBySin(c, z, p0, t0, turn)
  {
  }

  /** A component of pair `x`, whose two projections are `lo` and `hi` and whose frequency is `y`. */
  ghost function Turned(s: Rotary, first: bool, r: int, lo: int, hi: int, y: int): real {
    if first then
      Mul(Proj(s, r, hi), s.sin(Phase(s, r, y))) + Mul(Proj(s, r, lo), s.cos(Phase(s, r, y)))
    else
      Mul(Proj(s, r, hi), s.cos(Phase(s, r, y))) - Mul(Proj(s, r, lo), s.sin(Phase(s, r, y)))
  }

  lemma PreparedForm(s: Rotary, n: Rotary, r: int, p: int, lo: int, hi: int, y: int)
    requires Sized(s, n) && lo == LowAt(s, PairOf(s, p)) && hi == HighAt(s, PairOf(s, p)) && y == PairOf(s, p) % s.half
    ensures Prepared(n, r, p) == Turned(n, Low(s, p), r, lo, hi, y)
  {
    assert Low(n, p) == Low(s, p);
    assert LowAt(n, PairOf(n, p)) == lo && HighAt(n, PairOf(n, p)) == hi && PairOf(n, p) % n.half == y;
    hide LowAt, HighAt, PairOf, Low, Proj, Phase, Mul, First, Second;
    TurnForms(Proj(n, r, lo), Proj(n, r, hi), 0.0, 0.0, n.cos(Phase(n, r, y)), n.sin(Phase(n, r, y)), 0.0);
  }

  ghost function TTurned(s: Rotary, d: Moves, first: bool, r: int, lo: int, hi: int, x: int, c: real, z: real): real {
    if first then
      TBySin(c, z, Proj(s, r, hi), TProj(s, d, r, hi), TPhase(s, d, r, x))
      + TByCos(c, z, Proj(s, r, lo), TProj(s, d, r, lo), TPhase(s, d, r, x))
    else
      TByCos(c, z, Proj(s, r, hi), TProj(s, d, r, hi), TPhase(s, d, r, x))
      - TBySin(c, z, Proj(s, r, lo), TProj(s, d, r, lo), TPhase(s, d, r, x))
  }

  lemma TPreparedForm(s: Rotary, d: Moves, r: int, p: int, x: int, lo: int, hi: int, c: real, z: real)
    requires x == PairOf(s, p) && lo == LowAt(s, x) && hi == HighAt(s, x) && c == Cos(s, r, x) && z == Sin(s, r, x)
    ensures TPrepared(s, d, r, p) == TTurned(s, d, Low(s, p), r, lo, hi, x, c, z)
  {
    hide LowAt, HighAt, PairOf, Low, Proj, TProj, Cos, Sin, TPhase, Mul, First, Second, FirstTurn, SecondTurn, TByCos,
         TBySin;
    TurnForms(Proj(s, r, lo), Proj(s, r, hi), TProj(s, d, r, lo), TProj(s, d, r, hi), c, z, TPhase(s, d, r, x));
  }

  lemma PreparedPath(c: real -> Rotary, d: Moves, r: int, p: int, lo: int, hi: int, y: int, e: real)
    requires Curve(c, d) && lo == LowAt(c(0.0), PairOf(c(0.0), p)) && hi == HighAt(c(0.0), PairOf(c(0.0), p))
    requires y == PairOf(c(0.0), p) % c(0.0).half
    ensures PreparedAt(c, r, p)(e) == Turned(c(e), Low(c(0.0), p), r, lo, hi, y)
    ensures c(e).cos == c(0.0).cos && c(e).sin == c(0.0).sin
  {
    hide Slope, UAt, WAt, FreqAt, PreparedAt, Prepared, Turned, LowAt, HighAt, PairOf, Low;
    assert Sized(c(0.0), c(e));
    PreparedForm(c(0.0), c(e), r, p, lo, hi, y);
  }

  /** Every prepared component moves, to first order, by its tangent: with the hidden rows, the weights and the
      frequencies. */
  lemma PreparedSlope(c: real -> Rotary, d: Moves, r: int, p: int)
    requires Curve(c, d) && Turns(c(0.0).cos, c(0.0).sin)
    ensures Slope(PreparedAt(c, r, p), TPrepared(c(0.0), d, r, p))
  {
    hide Slope, Curve, Turns, PreparedAt, Prepared, TPrepared, ProjAt, Proj, TProj, PhaseAt, Phase, TPhase, LowAt,
         HighAt, PairOf, Low, TByCos, TBySin, Mul;
    var s, x := c(0.0), PairOf(c(0.0), p);
    var lo, hi, y := LowAt(s, x), HighAt(s, x), x % s.half;
    var co, z := Cos(s, r, x), Sin(s, r, x);
    ProjSlope(c, d, r, lo);
    ProjSlope(c, d, r, hi);
    PhaseSlope(c, d, r, x, y);
    TPreparedForm(s, d, r, p, x, lo, hi, co, z);
    if Low(s, p) {
      forall e ensures PreparedAt(c, r, p)(e) == Mul(ProjAt(c, r, hi)(e), s.sin(PhaseAt(c, r, y)(e)))
                                                + Mul(ProjAt(c, r, lo)(e), s.cos(PhaseAt(c, r, y)(e))) {
        PreparedPath(c, d, r, p, lo, hi, y, e);
      }
      SlopeTurnPlus(s.cos, s.sin, PreparedAt(c, r, p), TPrepared(s, d, r, p), ProjAt(c, r, hi), TProj(s, d, r, hi),
                    ProjAt(c, r, lo), TProj(s, d, r, lo), PhaseAt(c, r, y), TPhase(s, d, r, x), co, z);
    } else {
      forall e ensures PreparedAt(c, r, p)(e) == Mul(ProjAt(c, r, hi)(e), s.cos(PhaseAt(c, r, y)(e)))
                                                - Mul(ProjAt(c, r, lo)(e), s.sin(PhaseAt(c, r, y)(e))) {
        PreparedPath(c, d, r, p, lo, hi, y, e);
      }
      SlopeTurnMinus(s.cos, s.sin, PreparedAt(c, r, p), TPrepared(s, d, r, p), ProjAt(c, r, hi), TProj(s, d, r, hi),
                     ProjAt(c, r, lo), TProj(s, d, r, lo), PhaseAt(c, r, y), TPhase(s, d, r, x), co, z);
    }
  }

  // ---- the angle itself ----

  /** The first row is not rotated. */
  lemma FirstRowIsPlain(s: Rotary, p: int)
    requires s.cos(0.0) == 1.0 && s.sin(0.0) == 0.0 && 0 <= p < Wide(s)
    ensures Prepared(s, 0, p) == Proj(s, 0, p)
  {
    hide LowAt, HighAt, PairOf, Low, Proj, Dims;
    ComponentForms(s, p);
  }

  /** A component is the low or the high one of its pair. */
  lemma ComponentForms(s: Rotary, p: int)
    requires 0 <= p < Wide(s)
    ensures p == if Low(s, p) then LowAt(s, PairOf(s, p)) else HighAt(s, PairOf(s, p))
  {
    hide LowAt, HighAt, PairOf, Low, Wide;
    var h, k := Split(p, Dims(s));
    if k < s.half {
      PairForms(s, h, k);
    } else {
      PairForms(s, h, k - s.half);
    }
  }

  lemma Split(p: nat, n: nat) returns (h: nat, k: nat)
    requires 0 < n
    ensures p == h * n + k && k < n
  {
    h, k := p / n, p % n;
  }

  /** The pair (1, 0) turns to its cosine and minus its sine: components `e` and `half + e` of head `h`. */
  lemma UnitPair(s: Rotary, r: int, h: nat, e: nat, lo: int, hi: int)
    requires e < s.half && lo == h * Dims(s) + e && hi == h * Dims(s) + (s.half + e)
    requires Proj(s, r, lo) == 1.0 && Proj(s, r, hi) == 0.0
    ensures Prepared(s, r, lo) == s.cos(Phase(s, r, e)) && Prepared(s, r, hi) == -s.sin(Phase(s, r, e))
  {
    PairAt(s, h, e, lo, hi, h * s.half + e);
    hide LowAt, HighAt, PairOf, Low, Proj, Dims, Phase;
  }

  lemma PairAt(s: Rotary, h: nat, e: nat, lo: int, hi: int, x: int)
    requires e < s.half && lo == h * Dims(s) + e && hi == h * Dims(s) + (s.half + e) && x == h * s.half + e
    ensures LowAt(s, x) == lo && HighAt(s, x) == hi && PairOf(s, lo) == x && PairOf(s, hi) == x && x % s.half == e
    ensures Low(s, lo) && !Low(s, hi)
  {
    hide LowAt, HighAt, PairOf, Low, Dims;
    PairForms(s, h, e);
  }

  /** The phase starts at zero and gains its frequency in every row. */
  lemma PhaseAdvances(s: Rotary, r: int, e: int)
    ensures Phase(s, 0, e) == 0.0 && Phase(s, r + 1, e) == Phase(s, r, e) + s.freq(e)
  {
    assert (r + 1) as real * s.freq(e) == r as real * s.freq(e) + s.freq(e);
  }

  /** Moving the frequencies moves each phase by exactly its tangent. */
  lemma PhaseMoves(s: Rotary, d: Moves, r: int, x: int)
    ensures Phase(s.(freq := i => s.freq(i) + d.freq(i)), r, x % s.half) == Phase(s, r, x % s.half) + TPhase(s, d, r, x)
  {
  }

  /** Cosine and sine of a sum. */
  ghost predicate Addition(cos: real -> real, sin: real -> real, a: real, b: real) {
    && cos(a + b) == cos(a) * cos(b) - sin(a) * sin(b)
    && sin(a + b) == sin(a) * cos(b) + cos(a) * sin(b)
  }

  /** Turning on by `b` mixes each component with the one its phase turns it towards. */
  lemma TurningOn(cos: real -> real, sin: real -> real, p0: real, p1: real, a: real, b: real)
    requires Addition(cos, sin, a, b)
    ensures First(p0, p1, cos(a + b), sin(a + b))
         == First(p0, p1, cos(a), sin(a)) * cos(b) + FirstTurn(p0, p1, cos(a), sin(a)) * sin(b)
    ensures Second(p0, p1, cos(a + b), sin(a + b))
         == Second(p0, p1, cos(a), sin(a)) * cos(b) + SecondTurn(p0, p1, cos(a), sin(a)) * sin(b)
  {
    TurnBy(p0, p1, cos(a), sin(a), cos(b), sin(b), cos(a + b), sin(a + b));
  }

  lemma TurnBy(p0: real, p1: real, c: real, z: real, cb: real, zb: real, cs: real, zs: real)
    requires cs == c * cb - z * zb && zs == z * cb + c * zb
    ensures First(p0, p1, cs, zs) == First(p0, p1, c, z) * cb + FirstTurn(p0, p1, c, z) * zb
    ensures Second(p0, p1, cs, zs) == Second(p0, p1, c, z) * cb + SecondTurn(p0, p1, c, z) * zb
  {
  }
}
