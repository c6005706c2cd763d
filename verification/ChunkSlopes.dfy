/** The gated chunk block as a function of everything that moves in it, written from exp and division alone; the
    linearised block is its derivative, and the backward kernel leaves the derivative of the loss. */
module ChunkSlopes {
  import opened Sums
  import opened Functions
  import opened Slopes
  import opened FunctionSlopes
  import opened ChunkModel
  import opened ChunkReal

  // ---- the forward block ----

  /** What moves: C, the rank-one inputs, the carried state, the cumulative decays, the skip's x and D, the gate's z. */
  datatype Point = Point(c: (int, int) -> real, inp: (int, int, int) -> real, prev: (int, int) -> real,
                         dacs: int -> real, x: (int, int) -> real, d: real, z: (int, int) -> real)

  /** Division and negation of the reals, an exponential that is its own slope, and a power of two that is one too once
      its exponent is scaled by log2 e. */
  ghost predicate Arithmetic(k: Chunk<real>) {
    && Real(k.ops) && (forall a, b {:trigger k.ops.div(a, b)} :: b != 0.0 ==> k.ops.div(a, b) == a / b)
    && (forall a {:trigger k.ops.neg(a)} :: k.ops.neg(a) == -a)
    && (forall a {:trigger k.ops.exp(a)} :: k.ops.exp(a) > 0.0)
    && Grows(k.ops.exp) && Grows(Growth(k))
  }

  ghost function Growth(k: Chunk<real>): (f: real -> real)
    ensures forall a {:trigger f(a)} :: f(a) == k.ops.exp2(Mul(a, k.log2e))
  {
    (a: real) => k.ops.exp2(Mul(a, k.log2e))
  }

  ghost function WeightOf(k: Chunk<real>, v: Point, l: int, s: int): real {
    if s <= l then Growth(k)(v.dacs(l) - v.dacs(s)) else 0.0
  }

  ghost function ThroughOf(k: Chunk<real>, v: Point, l: int, s: int, p: int): real {
    Sum(k.states, n => Mul(v.c(l, n), v.inp(s, p, n)))
  }

  ghost function OffOf(k: Chunk<real>, v: Point, l: int, p: int): real {
    Sum(k.states, n => Mul(Mul(v.c(l, n), Growth(k)(v.dacs(l))), v.prev(p, n)))
  }

  ghost function DiagOf(k: Chunk<real>, v: Point, l: int, p: int): real {
    Sum(k.len, s => Mul(WeightOf(k, v, l, s), ThroughOf(k, v, l, s, p)))
  }

  ghost function YOf(k: Chunk<real>, v: Point, l: int, p: int): real {
    OffOf(k, v, l, p) + DiagOf(k, v, l, p) + Mul(v.d, v.x(l, p))
  }

  /** 1 / (1 + exp(-z)) and z / (1 + exp(-z)). */
  ghost function SigmoidOf(exp: real -> real, z: real): real {
    if 1.0 + exp(-z) == 0.0 then 0.0 else 1.0 / (1.0 + exp(-z))
  }

  ghost function SiluOf(exp: real -> real, z: real): real { if 1.0 + exp(-z) == 0.0 then 0.0 else z / (1.0 + exp(-z)) }

  ghost function OutOf(k: Chunk<real>, v: Point, l: int, p: int): real {
    Mul(YOf(k, v, l, p), SiluOf(k.ops.exp, v.z(l, p)))
  }

  /** `v` is where the block's own inputs are. */
  ghost predicate At(k: Chunk<real>, v: Point) {
    && (forall l, n {:trigger v.c(l, n)} :: v.c(l, n) == k.c(l, n))
    && (forall s, p, n {:trigger v.inp(s, p, n)} :: v.inp(s, p, n) == Inp(k, s, p, n))
    && (forall p, n {:trigger v.prev(p, n)} :: v.prev(p, n) == k.prev(p, n))
    && (forall l {:trigger v.dacs(l)} :: v.dacs(l) == k.dacs(l))
    && (forall l, p {:trigger v.x(l, p)} :: v.x(l, p) == k.x(l, p)) && v.d == k.d
    && (forall l, p {:trigger v.z(l, p)} :: v.z(l, p) == k.z(l, p))
  }

  // ---- the block's own values ----

  lemma DecayForms(k: Chunk<real>, l: int, s: int)
    requires Real(k.ops)
    ensures Sd(k, l) == Growth(k)(k.dacs(l)) && Lmat(k, l, s) == Growth(k)(k.dacs(l) - k.dacs(s))
  {
    hide Mul;
  }

  /** Decays along a chunk compose: from `r` to `s` to `l`, from the chunk's start to `s` to `l`, and none in place. */
  lemma DecaysCompose(k: Chunk<real>, l: int, s: int, r: int)
    requires Real(k.ops) && Additive(Growth(k)) && Growth(k)(0.0) > 0.0
    ensures Lmat(k, l, r) == Mul(Lmat(k, l, s), Lmat(k, s, r)) && Sd(k, l) == Mul(Lmat(k, l, s), Sd(k, s))
    ensures Lmat(k, l, l) == 1.0
  {
    hide Real, Growth, Lmat, Sd, Mul, Additive;
    DecayForms(k, l, r);
    DecayForms(k, l, s);
    DecayForms(k, s, r);
    DecayForms(k, l, l);
    ExpZero(Growth(k));
    Composed(Growth(k), k.dacs(l) - k.dacs(s), k.dacs(s) - k.dacs(r));
    Composed(Growth(k), k.dacs(l) - k.dacs(s), k.dacs(s));
  }

  lemma Composed(exp: real -> real, x: real, y: real)
    requires Additive(exp)
    ensures exp(x + y) == Mul(exp(x), exp(y))
  {
    hide Mul;
    assert Adds(exp, x, y);
  }

  lemma WeightHere(k: Chunk<real>, v: Point, l: int, s: int)
    requires Real(k.ops) && At(k, v)
    ensures WeightOf(k, v, l, s) == Weight(k, l, s) && Growth(k)(v.dacs(l)) == Sd(k, l)
  {
    hide Real, Growth, Sd, Lmat;
    DecayForms(k, l, s);
  }

  lemma ThroughHere(k: Chunk<real>, v: Point, l: int, s: int, p: int)
    requires At(k, v)
    ensures ThroughOf(k, v, l, s, p) == Through(k, l, s, p)
  {
    hide Sum, Mul, Inp;
    SumEq(k.states, n => Mul(v.c(l, n), v.inp(s, p, n)), n => Mul(k.c(l, n), Inp(k, s, p, n)));
  }

  /** The block's forward output is the point's. */
  lemma YHere(k: Chunk<real>, v: Point, l: int, p: int)
    requires Real(k.ops) && At(k, v)
    ensures YOf(k, v, l, p) == Y(k, l, p)
  {
    hide Sum, Mul, Real, Growth, Sd, WeightOf, Weight, ThroughOf, Through;
    WeightHere(k, v, l, l);
    SumEq(k.states, n => Mul(Mul(v.c(l, n), Growth(k)(v.dacs(l))), v.prev(p, n)),
          n => Mul(Mul(k.c(l, n), Sd(k, l)), k.prev(p, n)));
    var a, b := (s: int) => Mul(WeightOf(k, v, l, s), ThroughOf(k, v, l, s, p)),
        (s: int) => Mul(Weight(k, l, s), Through(k, l, s, p));
    forall s ensures a(s) == b(s) {
      WeightHere(k, v, l, s);
      ThroughHere(k, v, l, s, p);
    }
    SumEq(k.len, a, b);
  }

  /** The functions that the gate is built from. */
  ghost function GateFns(k: Chunk<real>): (f: Functions.Fns)
    requires Arithmetic(k)
    ensures f.exp == k.ops.exp
  {
    hide Grows, Growth, Real;
    NOFNS.(exp := k.ops.exp)
  }

  lemma Acts(k: Chunk<real>, a: real, b: real)
    requires Arithmetic(k)
    ensures k.ops.one == 1.0 && k.ops.add(a, b) == a + b && k.ops.sub(a, b) == a - b && k.ops.mul(a, b) == Mul(a, b)
    ensures k.ops.neg(a) == -a && k.ops.exp(a) > 0.0 && (b != 0.0 ==> k.ops.div(a, b) == a / b)
  {
    hide Grows, Growth;
  }

  lemma ExpForms(f: Fns, z: real)
    ensures SiluOf(f.exp, z) == Silu(f, z) && SigmoidOf(f.exp, z) == Sigmoid(f, z)
  {
    var w := 1.0 + f.exp(-z);
    assert z / w == z * (1.0 / w);
  }

  lemma GateForms(k: Chunk<real>, f: Fns, z: real)
    requires f.exp == k.ops.exp
    ensures SiluOf(k.ops.exp, z) == Silu(f, z) && SigmoidOf(k.ops.exp, z) == Sigmoid(f, z)
  {
    hide *;
    ExpForms(f, z);
  }

  lemma SigmoidForm(k: Chunk<real>, z: real)
    requires Arithmetic(k)
    ensures k.ops.div(k.ops.one, k.ops.add(k.ops.one, k.ops.exp(k.ops.neg(z)))) == SigmoidOf(k.ops.exp, z)
  {
    hide Arithmetic;
    Acts(k, z, 0.0);
    Acts(k, -z, 0.0);
    var grown := k.ops.exp(-z);
    Acts(k, 1.0, grown);
    Acts(k, 1.0, 1.0 + grown);
  }

  ghost function Graded(s: real, z: real): real { Mul(s, 1.0 + Mul(z, 1.0 - s)) }

  lemma KernelGrad(k: Chunk<real>, z: real)
    requires Arithmetic(k)
    ensures SiluGrad(k.ops, z) == Graded(SigmoidOf(k.ops.exp, z), z)
  {
    hide Arithmetic, SigmoidOf, Mul;
    SigmoidForm(k, z);
    var s := SigmoidOf(k.ops.exp, z);
    Acts(k, 1.0, s);
    Acts(k, z, 1.0 - s);
    Acts(k, 1.0, Mul(z, 1.0 - s));
    Acts(k, s, 1.0 + Mul(z, 1.0 - s));
  }

  lemma DSiluForm(f: Fns, z: real)
    ensures Graded(Sigmoid(f, z), z) == DSilu(f, z)
  {
    hide Sigmoid;
  }

  lemma SiluGradForm(k: Chunk<real>, f: Fns, z: real)
    requires Arithmetic(k) && f.exp == k.ops.exp
    ensures SiluGrad(k.ops, z) == DSilu(f, z)
  {
    hide *;
    KernelGrad(k, z);
    GateForms(k, f, z);
    DSiluForm(f, z);
  }

  /** The kernel's gate is z / (1 + exp(-z)). */
  lemma GateHere(k: Chunk<real>, l: int, p: int)
    requires Arithmetic(k)
    ensures Gate(k, l, p) == SiluOf(k.ops.exp, k.z(l, p))
  {
    hide Arithmetic;
    var z := k.z(l, p);
    Acts(k, z, 0.0);
    Acts(k, -z, 0.0);
    var grown := k.ops.exp(-z);
    Acts(k, 1.0, grown);
    Acts(k, z, 1.0 + grown);
  }

  // ---- paths ----

  ghost function CAt(v: real -> Point, l: int, n: int): (f: real -> real)
    ensures forall e {:trigger f(e)} :: f(e) == v(e).c(l, n)
  {
    (e: real) => v(e).c(l, n)
  }

  ghost function InpAt(v: real -> Point, s: int, p: int, n: int): (f: real -> real)
    ensures forall e {:trigger f(e)} :: f(e) == v(e).inp(s, p, n)
  {
    (e: real) => v(e).inp(s, p, n)
  }

  ghost function PrevAt(v: real -> Point, p: int, n: int): (f: real -> real)
    ensures forall e {:trigger f(e)} :: f(e) == v(e).prev(p, n)
  {
    (e: real) => v(e).prev(p, n)
  }

  ghost function DacsAt(v: real -> Point, l: int): (f: real -> real)
    ensures forall e {:trigger f(e)} :: f(e) == v(e).dacs(l)
  {
    (e: real) => v(e).dacs(l)
  }

  ghost function XAt(v: real -> Point, l: int, p: int): (f: real -> real)
    ensures forall e {:trigger f(e)} :: f(e) == v(e).x(l, p)
  {
    (e: real) => v(e).x(l, p)
  }

  ghost function DAt(v: real -> Point): (f: real -> real)
    ensures forall e {:trigger f(e)} :: f(e) == v(e).d
  {
    (e: real) => v(e).d
  }

  ghost function ZAt(v: real -> Point, l: int, p: int): (f: real -> real)
    ensures forall e {:trigger f(e)} :: f(e) == v(e).z(l, p)
  {
    (e: real) => v(e).z(l, p)
  }

  /** `v` starts at the block's inputs and moves with velocity `t`. */
  ghost predicate Curve(v: real -> Point, k: Chunk<real>, t: Tangent) {
    && At(k, v(0.0))
    && (forall l, n {:trigger CAt(v, l, n)} :: Slope(CAt(v, l, n), t.c(l, n)))
    && (forall s, p, n {:trigger InpAt(v, s, p, n)} :: Slope(InpAt(v, s, p, n), t.inp(s, p, n)))
    && (forall p, n {:trigger PrevAt(v, p, n)} :: Slope(PrevAt(v, p, n), t.prev(p, n)))
    && (forall l {:trigger DacsAt(v, l)} :: Slope(DacsAt(v, l), t.dacs(l)))
    && (forall l, p {:trigger XAt(v, l, p)} :: Slope(XAt(v, l, p), t.x(l, p)))
    && Slope(DAt(v), t.d)
    && (forall l, p {:trigger ZAt(v, l, p)} :: Slope(ZAt(v, l, p), t.z(l, p)))
  }

  /** The straight path from the block's inputs along `t`. */
  ghost function Line(k: Chunk<real>, t: Tangent): (v: real -> Point)
    ensures forall e {:trigger v(e)} ::
              v(e) == Point(Shift2(k.c, t.c, e), Shift3((s, p, n) => Inp(k, s, p, n), t.inp, e),
                            Shift2(k.prev, t.prev, e),
                            Shift(k.dacs, t.dacs, e), Shift2(k.x, t.x, e), k.d + Mul(e, t.d), Shift2(k.z, t.z, e))
  {
    hide Shift, Shift2, Shift3, Inp, Mul;
    (e: real) => Point(Shift2(k.c, t.c, e), Shift3((s, p, n) => Inp(k, s, p, n), t.inp, e), Shift2(k.prev, t.prev, e),
                       Shift(k.dacs, t.dacs, e), Shift2(k.x, t.x, e), k.d + Mul(e, t.d), Shift2(k.z, t.z, e))
  }

  lemma LineStarts(k: Chunk<real>, t: Tangent)
    ensures At(k, Line(k, t)(0.0))
  {
    hide Shift, Shift2, Shift3, Inp, Line;
  }

  lemma LineIsCurve(k: Chunk<real>, t: Tangent)
    ensures Curve(Line(k, t), k, t)
  {
    hide Slope, At, Shift, Shift2, Shift3, Inp, Mul, Line;
    var v := Line(k, t);
    LineStarts(k, t);
    forall l, n ensures Slope(CAt(v, l, n), t.c(l, n)) {
      SlopeLine(CAt(v, l, n), k.c(l, n), t.c(l, n));
    }
    forall s, p, n ensures Slope(InpAt(v, s, p, n), t.inp(s, p, n)) {
      SlopeLine(InpAt(v, s, p, n), Inp(k, s, p, n), t.inp(s, p, n));
    }
    forall p, n ensures Slope(PrevAt(v, p, n), t.prev(p, n)) {
      SlopeLine(PrevAt(v, p, n), k.prev(p, n), t.prev(p, n));
    }
    forall l ensures Slope(DacsAt(v, l), t.dacs(l)) {
      SlopeLine(DacsAt(v, l), k.dacs(l), t.dacs(l));
    }
    forall l, p ensures Slope(XAt(v, l, p), t.x(l, p)) {
      SlopeLine(XAt(v, l, p), k.x(l, p), t.x(l, p));
    }
    SlopeLine(DAt(v), k.d, t.d);
    forall l, p ensures Slope(ZAt(v, l, p), t.z(l, p)) {
      SlopeLine(ZAt(v, l, p), k.z(l, p), t.z(l, p));
    }
  }

  lemma StateSlopes(v: real -> Point, k: Chunk<real>, t: Tangent, l: int, s: int, p: int, n: int)
    requires Curve(v, k, t)
    ensures Slope(CAt(v, l, n), t.c(l, n)) && Slope(InpAt(v, s, p, n), t.inp(s, p, n))
    ensures Slope(PrevAt(v, p, n), t.prev(p, n))
  {
    hide Slope, At, CAt, InpAt, PrevAt;
    assert Slope(CAt(v, l, n), t.c(l, n)) && Slope(InpAt(v, s, p, n), t.inp(s, p, n));
    assert Slope(PrevAt(v, p, n), t.prev(p, n));
  }

  lemma DacsSlope(v: real -> Point, k: Chunk<real>, t: Tangent, l: int)
    requires Curve(v, k, t)
    ensures Slope(DacsAt(v, l), t.dacs(l))
  {
    hide Slope, At, DacsAt;
    assert Slope(DacsAt(v, l), t.dacs(l));
  }

  lemma SkipSlopes(v: real -> Point, k: Chunk<real>, t: Tangent, l: int, p: int)
    requires Curve(v, k, t)
    ensures Slope(XAt(v, l, p), t.x(l, p)) && Slope(DAt(v), t.d) && Slope(ZAt(v, l, p), t.z(l, p))
  {
    hide Slope, At, XAt, DAt, ZAt;
    assert Slope(XAt(v, l, p), t.x(l, p)) && Slope(ZAt(v, l, p), t.z(l, p));
  }

  // ---- decays ----

  ghost function SdAt(v: real -> Point, k: Chunk<real>, l: int): (f: real -> real)
    ensures forall e {:trigger f(e)} :: f(e) == Growth(k)(v(e).dacs(l))
  {
    hide Growth;
    (e: real) => Growth(k)(v(e).dacs(l))
  }

  ghost function WeightAt(v: real -> Point, k: Chunk<real>, l: int, s: int): (f: real -> real)
    ensures forall e {:trigger f(e)} :: f(e) == WeightOf(k, v(e), l, s)
  {
    hide WeightOf;
    (e: real) => WeightOf(k, v(e), l, s)
  }

  lemma SdSlope(v: real -> Point, k: Chunk<real>, t: Tangent, l: int)
    requires Curve(v, k, t) && Arithmetic(k)
    ensures Slope(SdAt(v, k, l), Mul(Sd(k, l), t.dacs(l))) && SdAt(v, k, l)(0.0) == Sd(k, l)
  {
    hide Slope, At, CAt, InpAt, PrevAt, DacsAt, XAt, DAt, ZAt, SdAt, Growth, Grows, Sd, Mul, Real, Weight;
    WeightHere(k, v(0.0), l, l);
    DacsSlope(v, k, t, l);
    SlopeGrown(Growth(k), SdAt(v, k, l), Mul(Sd(k, l), t.dacs(l)), DacsAt(v, l), t.dacs(l));
  }

  ghost function Gap(v: real -> Point, l: int, s: int): real -> real { Plus(DacsAt(v, l), Opposite(DacsAt(v, s))) }

  lemma GapSlope(v: real -> Point, k: Chunk<real>, t: Tangent, l: int, s: int)
    requires Curve(v, k, t)
    ensures Slope(Gap(v, l, s), t.dacs(l) - t.dacs(s))
    ensures forall e {:trigger Gap(v, l, s)(e)} :: Gap(v, l, s)(e) == v(e).dacs(l) - v(e).dacs(s)
  {
    hide Slope, Curve, DacsAt, Plus, Opposite;
    DacsSlope(v, k, t, l);
    DacsSlope(v, k, t, s);
    SlopeSub(Gap(v, l, s), t.dacs(l) - t.dacs(s), DacsAt(v, l), t.dacs(l), DacsAt(v, s), t.dacs(s));
  }

  lemma WeightSlope(v: real -> Point, k: Chunk<real>, t: Tangent, l: int, s: int, a: real)
    requires Curve(v, k, t) && Arithmetic(k) && a == t.dacs(l) - t.dacs(s)
    ensures Slope(WeightAt(v, k, l, s), Mul(Weight(k, l, s), a)) && WeightAt(v, k, l, s)(0.0) == Weight(k, l, s)
  {
    hide Slope, At, CAt, InpAt, PrevAt, DacsAt, XAt, DAt, ZAt, WeightAt, Growth, Grows, Sd, Lmat, Mul, Real, Gap;
    WeightHere(k, v(0.0), l, s);
    if s <= l {
      GapSlope(v, k, t, l, s);
      forall e ensures WeightAt(v, k, l, s)(e) == Growth(k)(Gap(v, l, s)(e)) {
      }
      SlopeGrown(Growth(k), WeightAt(v, k, l, s), Mul(Weight(k, l, s), a), Gap(v, l, s), a);
    } else {
      ZeroMul(a);
      SlopeConst(WeightAt(v, k, l, s), 0.0);
    }
  }
}
