/** A projection of every hidden row whose heads are rotated by split-half rotary embedding, as attention prepares
    its queries and its key-values; its linearisation, and what the backward kernel forms from a gradient of the
    prepared values. */
module RotaryProjection {
  import opened Sums
  import opened ProjectionSegments
  import opened Indices

  /** Head `h`'s components are `h * 2 * half ..`; component `e` of its first half is paired with component
      `half + e`.  Frequency `e` is shared by all heads. */
  datatype Raw = Raw(rows: nat, width: nat, heads: nat, half: nat, cos: real -> real, sin: real -> real,
                     u: (int, int) -> real, w: (int, int) -> real, freq: int -> real)

  type Rotary = s: Raw | 0 < s.half
    ghost witness Raw(0, 0, 0, 1, x => 0.0, x => 0.0, (r, i) => 0.0, (p, i) => 0.0, e => 0.0)

  function Dims(s: Rotary): (n: nat)
    ensures 0 < n
  {
    2 * s.half
  }

  function Wide(s: Rotary): nat { s.heads * Dims(s) }
  function Pairs(s: Rotary): nat { s.heads * s.half }

  /** The two components of pair `x`. */
  function LowAt(s: Rotary, x: int): (p: int)
    ensures 0 <= x < Pairs(s) ==> 0 <= p && p + s.half < Wide(s)
  {
    DivRange(x, s.heads, s.half);
    FlatRange(x / s.half, s.heads, x % s.half + s.half, Dims(s));
    FlatRange(x / s.half, s.heads, x % s.half, Dims(s));
    x / s.half * Dims(s) + x % s.half
  }

  function HighAt(s: Rotary, x: int): int { LowAt(s, x) + s.half }

  /** The pair of component `p`. */
  function PairOf(s: Rotary, p: int): int { p / Dims(s) * s.half + p % Dims(s) % s.half }

  predicate Low(s: Rotary, p: int) { p % Dims(s) < s.half }

  // ---- forward ----

  function Proj(s: Rotary, r: int, p: int): real { Sum(s.width, i => Mul(s.u(r, i), s.w(p, i))) }
  function Phase(s: Rotary, r: int, e: int): real { r as real * s.freq(e) }
  function Cos(s: Rotary, r: int, x: int): real { s.cos(Phase(s, r, x % s.half)) }
  function Sin(s: Rotary, r: int, x: int): real { s.sin(Phase(s, r, x % s.half)) }

  function First(p0: real, p1: real, c: real, z: real): real { p0 * c + p1 * z }
  function Second(p0: real, p1: real, c: real, z: real): real { p1 * c - p0 * z }

  /** The rotated projection, before it is quantised. */
  function Prepared(s: Rotary, r: int, p: int): real {
    var x := PairOf(s, p);
    if Low(s, p) then First(Proj(s, r, LowAt(s, x)), Proj(s, r, HighAt(s, x)), Cos(s, r, x), Sin(s, r, x))
    else Second(Proj(s, r, LowAt(s, x)), Proj(s, r, HighAt(s, x)), Cos(s, r, x), Sin(s, r, x))
  }

  // ---- tangents: cos' = -sin and sin' = cos ----

  datatype Moves = Moves(u: (int, int) -> real, w: (int, int) -> real, freq: int -> real)

  ghost function In(s: Rotary, d: Moves): Dense { Dense(s.rows, s.width, s.u, s.w, d.u, d.w) }
  ghost function TProj(s: Rotary, d: Moves, r: int, p: int): real { Move(In(s, d), r, p) }
  ghost function TPhase(s: Rotary, d: Moves, r: int, x: int): real { r as real * d.freq(x % s.half) }

  /** How the rotated components turn with the phase. */
  function FirstTurn(p0: real, p1: real, c: real, z: real): real { -p0 * z + p1 * c }
  function SecondTurn(p0: real, p1: real, c: real, z: real): real { -p1 * z - p0 * c }

  ghost function TFirst(s: Rotary, d: Moves, r: int, x: int): real {
    First(TProj(s, d, r, LowAt(s, x)), TProj(s, d, r, HighAt(s, x)), Cos(s, r, x), Sin(s, r, x))
    + Mul(FirstTurn(Proj(s, r, LowAt(s, x)), Proj(s, r, HighAt(s, x)), Cos(s, r, x), Sin(s, r, x)), TPhase(s, d, r, x))
  }

  ghost function TSecond(s: Rotary, d: Moves, r: int, x: int): real {
    Second(TProj(s, d, r, LowAt(s, x)), TProj(s, d, r, HighAt(s, x)), Cos(s, r, x), Sin(s, r, x))
    + Mul(SecondTurn(Proj(s, r, LowAt(s, x)), Proj(s, r, HighAt(s, x)), Cos(s, r, x), Sin(s, r, x)), TPhase(s, d, r, x))
  }

  ghost function TPrepared(s: Rotary, d: Moves, r: int, p: int): real {
    if Low(s, p) then TFirst(s, d, r, PairOf(s, p)) else TSecond(s, d, r, PairOf(s, p))
  }

  // ---- backward, from a gradient `g` of the prepared values ----

  function LowBackOf(g0: real, g1: real, c: real, z: real): real { g0 * c - g1 * z }
  function HighBackOf(g0: real, g1: real, c: real, z: real): real { g0 * z + g1 * c }

  function SwingOf(g0: real, g1: real, p0: real, p1: real, c: real, z: real): real {
    g0 * FirstTurn(p0, p1, c, z) + g1 * SecondTurn(p0, p1, c, z)
  }

  function LowBack(s: Rotary, g: (int, int) -> real, r: int, x: int): real {
    LowBackOf(g(r, LowAt(s, x)), g(r, HighAt(s, x)), Cos(s, r, x), Sin(s, r, x))
  }

  function HighBack(s: Rotary, g: (int, int) -> real, r: int, x: int): real {
    HighBackOf(g(r, LowAt(s, x)), g(r, HighAt(s, x)), Cos(s, r, x), Sin(s, r, x))
  }

  /** The gradient of pair `x`'s phase. */
  function Swing(s: Rotary, g: (int, int) -> real, r: int, x: int): real {
    SwingOf(g(r, LowAt(s, x)), g(r, HighAt(s, x)), Proj(s, r, LowAt(s, x)), Proj(s, r, HighAt(s, x)), Cos(s, r, x),
            Sin(s, r, x))
  }

  ghost function ProjGrad(s: Rotary, g: (int, int) -> real, r: int, p: int): real {
    if Low(s, p) then LowBack(s, g, r, PairOf(s, p)) else HighBack(s, g, r, PairOf(s, p))
  }

  ghost function HiddenGrad(s: Rotary, g: (int, int) -> real, r: int, i: int): real {
    Sum(Wide(s), p => Mul(ProjGrad(s, g, r, p), s.w(p, i)))
  }

  ghost function WTerm(s: Rotary, g: (int, int) -> real, p: int, i: int, r: int): real {
    Mul(ProjGrad(s, g, r, p), s.u(r, i))
  }

  ghost function FreqTerm(s: Rotary, g: (int, int) -> real, e: int, r: int): real {
    Keyed(Pairs(s), x => x % s.half, x => Mul(Swing(s, g, r, x), r as real), e)
  }

  ghost function WGrad(s: Rotary, g: (int, int) -> real, p: int, i: int): real {
    Sum(s.rows, r => WTerm(s, g, p, i, r))
  }

  ghost function FreqGrad(s: Rotary, g: (int, int) -> real, e: int): real { Sum(s.rows, r => FreqTerm(s, g, e, r)) }

  // ---- components as pairs ----

  lemma PairForms(s: Rotary, h: nat, e: nat)
    requires e < s.half
    ensures LowAt(s, h * s.half + e) == h * Dims(s) + e && HighAt(s, h * s.half + e) == h * Dims(s) + (s.half + e)
    ensures PairOf(s, h * Dims(s) + e) == h * s.half + e && Low(s, h * Dims(s) + e)
    ensures PairOf(s, h * Dims(s) + (s.half + e)) == h * s.half + e && !Low(s, h * Dims(s) + (s.half + e))
    ensures (h * s.half + e) % s.half == e
  {
    DivMod(h, e, s.half);
    DivMod(h, e, Dims(s));
    DivMod(h, s.half + e, Dims(s));
    DivMod(1, e, s.half);
    DivMod(0, e, s.half);
  }

  /** A sum over components is a sum over pairs of their two components. */
  lemma SumOfPairs(s: Rotary, f: int -> real, pairs: int -> real)
    requires forall x {:trigger pairs(x)} :: 0 <= x < Pairs(s) ==> pairs(x) == f(LowAt(s, x)) + f(HighAt(s, x))
    ensures Sum(Wide(s), f) == Sum(Pairs(s), pairs)
  {
    hide Sum, Dims, LowAt, HighAt, PairOf, Low;
    SumFlatten(s.heads, Dims(s), f);
    SumFlatten(s.heads, s.half, pairs);
    var wide, paired := (h: int) => Sum(Dims(s), k => f(h * Dims(s) + k)),
        (h: int) => Sum(s.half, k => pairs(h * s.half + k));
    forall h | 0 <= h < s.heads ensures wide(h) == paired(h) {
      HeadPairs(s, f, pairs, h, k => f(h * Dims(s) + k), k => pairs(h * s.half + k));
    }
    SumEq(s.heads, wide, paired);
  }

  lemma HeadPairs(s: Rotary, f: int -> real, pairs: int -> real, h: nat, all: int -> real, both: int -> real)
    requires h < s.heads
    requires forall x {:trigger pairs(x)} :: 0 <= x < Pairs(s) ==> pairs(x) == f(LowAt(s, x)) + f(HighAt(s, x))
    requires forall k {:trigger all(k)} :: all(k) == f(h * Dims(s) + k)
    requires forall k {:trigger both(k)} :: both(k) == pairs(h * s.half + k)
    ensures Sum(Dims(s), all) == Sum(s.half, both)
  {
    hide Sum, LowAt, HighAt, PairOf, Low;
    SumSplit(s.half, s.half, all);
    var low, high := (k: int) => all(k), (k: int) => all(s.half + k);
    SumEq(s.half, all, low);
    forall k | 0 <= k < s.half ensures both(k) == low(k) + high(k) {
      PairForms(s, h, k);
      FlatRange(h, s.heads, k, s.half);
    }
    SumAdd(s.half, both, low, high);
  }
}
