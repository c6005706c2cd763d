/** What the values of the Mamba3 block are, said without their definitions: laws that hold wherever the transcendental
    functions are what their names say. */
module MambaLaws {
  import opened Sums
  import opened Functions
  import opened FunctionSlopes
  import opened Indices
  import opened MambaModel

  // ---- layout ----

  /** The projection is gate, convolution, step, decay, trapezoid, angle, and the convolution x, B, C, with nothing
      between them. */
  lemma SegmentsInOrder(m: Block)
    ensures ConvAt(m) == m.features && DtAt(m) == ConvAt(m) + m.features + m.bc + m.bc
            && DecayAt(m) == DtAt(m) + m.heads
            && TrapAt(m) == DecayAt(m) + m.heads && AngleAt(m) == TrapAt(m) + m.heads
            && ProjDims(m) == AngleAt(m) + m.angles
    ensures BAt(m) == m.features && CAt(m) == BAt(m) + m.bc && Channels(m) == CAt(m) + m.bc
  {
    hide Valid;
  }

  /** Component `i` of head `k` of group `g` belongs to them. */
  lemma FeatureOf(m: Block, g: int, k: int, i: int)
    requires 0 <= k < m.perGroup && 0 <= i < m.headDim
    ensures Head(m, GroupHead(m, g, k) * m.headDim + i) == GroupHead(m, g, k)
    ensures Group(m, GroupHead(m, g, k) * m.headDim + i) == g
  {
    DivMod(GroupHead(m, g, k), i, m.headDim);
    DivMod(g, k, m.perGroup);
    hide Valid;
  }

  /** The channels of B, and of C, follow each other by rank, then by group, then by state. */
  lemma ChannelsInOrder(m: Block, r: int, g: int, n: int)
    ensures Flat(m, 0, 0, 0) == 0 && Flat(m, r, g, n + 1) == Flat(m, r, g, n) + 1
    ensures Flat(m, r, g + 1, 0) == Flat(m, r, g, m.state - 1) + 1
    ensures Flat(m, r + 1, 0, 0) == Flat(m, r, m.groups - 1, m.state - 1) + 1
  {
    hide Valid;
    assert (r + 1) * m.groups == r * m.groups + m.groups;
    assert (r * m.groups + g + 1) * m.state == (r * m.groups + g) * m.state + m.state;
    assert (r * m.groups + m.groups - 1) * m.state == (r + 1) * m.groups * m.state - m.state;
  }

  // ---- steps and decays ----

  /** The step is the number whose exponential is 1 + exp(projection) exp(bias). */
  lemma StepLaw(m: Block, t: int, h: int)
    requires Undoes(m.fns.exp, m.fns.log) && Additive(m.fns.exp)
    ensures m.fns.exp(Dt(m, t, h)) == 1.0 + Mul(m.fns.exp(Proj(m, t, DtAt(m) + h)), m.fns.exp(m.dtBias(h)))
  {
    hide Valid, Proj, Softplus, Undoes, Additive, Mul, DtAt;
    SoftplusOfSum(m.fns, Proj(m, t, DtAt(m) + h), m.dtBias(h));
  }

  /** The decay is never above -0.01; below it, it is minus the number whose exponential is 1 + exp(projection). */
  lemma DecayLaw(m: Block, t: int, h: int)
    requires Undoes(m.fns.exp, m.fns.log)
    ensures Decay(m, t, h) <= -0.01
    ensures Decay(m, t, h) < -0.01 ==> m.fns.exp(-Decay(m, t, h)) == 1.0 + m.fns.exp(Proj(m, t, DecayAt(m) + h))
    ensures Decay(m, t, h) == -0.01 <==> Softplus(m.fns, Proj(m, t, DecayAt(m) + h)) <= 0.01
  {
    hide Valid, Proj, Softplus, Undoes;
    SoftplusLaw(m.fns, Proj(m, t, DecayAt(m) + h));
  }

  /** The look-ahead is the next row's own step and trapezoid, and nothing after the last row. */
  lemma LookAhead(m: Block, t: int, h: int)
    ensures NextDt(m, t, h) == if t + 1 < m.rows then Dt(m, t + 1, h) else 0.0
    ensures NextTrap(m, t, h) == if t + 1 < m.rows then Proj(m, t + 1, TrapAt(m) + h) else 0.0
  {
    hide Valid, Proj, Softplus, DtPre;
  }

  // ---- trapezoids ----

  /** With both trapezoid projections at zero a head's weight is the plain trapezoid. */
  lemma TrapezoidAtZero(m: Block, t: int, h: int)
    requires m.fns.exp(0.0) == 1.0 && NextTrap(m, t, h) == 0.0 && Proj(m, t, TrapAt(m) + h) == 0.0
    ensures TrapTerm(m, t, h) == (NextDt(m, t, h) + Dt(m, t, h)) / 2.0
  {
    hide Valid, NextDt, Dt, NextTrap, Proj, TrapAt;
    assert Sigmoid(m.fns, 0.0) == 0.5;
  }

  /** A group's trapezoid weight is the mean of its heads': heads that agree agree with their group. */
  lemma TrapIsMean(m: Block, t: int, g: int, x: real)
    requires forall k {:trigger GroupHead(m, g, k)} :: 0 <= k < m.perGroup ==> TrapTerm(m, t, GroupHead(m, g, k)) == x
    ensures Trap(m, t, g) == x
  {
    hide Sum, TrapTerm, GroupHead;
    var f, ones := (k: int) => TrapTerm(m, t, GroupHead(m, g, k)), (k: int) => 1.0;
    TrapQuotient(m, t, g, f);
    hide Valid, Trap;
    SumScaleMul(m.perGroup, f, x, ones);
    SumOnes(m.perGroup, ones);
    Ratio(x, m.perGroup as real);
  }

  lemma TrapQuotient(m: Block, t: int, g: int, f: int -> real)
    requires forall k {:trigger f(k)} :: f(k) == TrapTerm(m, t, GroupHead(m, g, k))
    ensures m.perGroup as real > 0.0 && Trap(m, t, g) == Sum(m.perGroup, f) / m.perGroup as real
  {
    hide Sum, TrapTerm, GroupHead;
    SumEq(m.perGroup, f, k => TrapTerm(m, t, GroupHead(m, g, k)));
  }

  lemma {:induction false} SumOnes(n: nat, ones: int -> real)
    requires forall k {:trigger ones(k)} :: ones(k) == 1.0
    ensures Sum(n, ones) == n as real
  {
    if n > 0 {
      SumOnes(n - 1, ones);
    }
  }

  lemma Ratio(x: real, n: real)
    requires n > 0.0
    ensures Mul(x, n) / n == x
  {
  }

  // ---- normalisation ----

  ghost function MeanSquare(m: Block, t: int, at: int, r: int, g: int): real
    requires m.state as real > 0.0
  {
    Sum(m.state, n => Mul(Conv(m, t, at + Flat(m, r, g, n)), Conv(m, t, at + Flat(m, r, g, n)))) / m.state as real
  }

  lemma SomeState(m: Block)
    ensures m.state as real > 0.0
  {
  }

  lemma MeanSquareForm(m: Block, t: int, at: int, r: int, g: int)
    requires m.state as real > 0.0
    ensures InvRms(m, t, at, r, g) == m.fns.rsqrt(MeanSquare(m, t, at, r, g) + 0.00001)
  {
    hide Valid, Sum, Conv, Flat;
    SumEq(m.state, n => Conv(m, t, at + Flat(m, r, g, n)) * Conv(m, t, at + Flat(m, r, g, n)),
          n => Mul(Conv(m, t, at + Flat(m, r, g, n)), Conv(m, t, at + Flat(m, r, g, n))));
  }

  lemma MeanSquarePositive(m: Block, t: int, at: int, r: int, g: int)
    requires m.state as real > 0.0
    ensures MeanSquare(m, t, at, r, g) >= 0.0
  {
    hide Valid, Sum, Conv, Flat, Mul;
    var squares := (n: int) => Mul(Conv(m, t, at + Flat(m, r, g, n)), Conv(m, t, at + Flat(m, r, g, n)));
    forall n ensures squares(n) >= 0.0 {
      NonNegative(Conv(m, t, at + Flat(m, r, g, n)));
    }
    SumNonNegative(m.state, squares);
    Positive(Sum(m.state, squares), m.state as real);
  }

  /** The inverse root mean square, epsilon included. */
  lemma InvRmsLaw(m: Block, t: int, at: int, r: int, g: int)
    requires RootLaw(m.fns.rsqrt)
    ensures m.state as real > 0.0
    ensures InvRms(m, t, at, r, g) * InvRms(m, t, at, r, g) * (MeanSquare(m, t, at, r, g) + 0.00001) == 1.0
  {
    SomeState(m);
    hide Valid, InvRms, MeanSquare;
    MeanSquareForm(m, t, at, r, g);
    MeanSquarePositive(m, t, at, r, g);
  }

  lemma Positive(x: real, n: real)
    requires x >= 0.0 && n > 0.0
    ensures x / n >= 0.0
  {
  }

  // ---- rotations ----

  function Length2(x: real, y: real): real { x * x + y * y }

  /** Turning a pair keeps its length. */
  lemma RotationKeepsLength(m: Block, raw: int -> real, angle: int -> real, n: int)
    requires 0 <= n && n + 1 < 2 * m.angles && n % 2 == 0
    requires Length2(m.fns.cos(angle(n / 2)), m.fns.sin(angle(n / 2))) == 1.0
    ensures Length2(Rotate(m, raw, angle, n), Rotate(m, raw, angle, n + 1)) == Length2(raw(n), raw(n + 1))
  {
    hide Valid, Rotate, TurnFirst, TurnSecond, Length2;
    PairTurns(m, raw, angle, n);
    TurnKeepsLength(m.fns.cos(angle(n / 2)), m.fns.sin(angle(n / 2)), raw(n), raw(n + 1));
  }

  lemma PairTurns(m: Block, raw: int -> real, angle: int -> real, n: int)
    requires 0 <= n && n + 1 < 2 * m.angles && n % 2 == 0
    ensures Rotate(m, raw, angle, n) == TurnFirst(m.fns.cos(angle(n / 2)), m.fns.sin(angle(n / 2)), raw(n), raw(n + 1))
    ensures Rotate(m, raw, angle, n + 1)
         == TurnSecond(m.fns.cos(angle(n / 2)), m.fns.sin(angle(n / 2)), raw(n), raw(n + 1))
  {
    hide Valid, TurnFirst, TurnSecond;
    assert (n + 1) / 2 == n / 2 && (n + 1) % 2 == 1;
  }

  lemma TurnKeepsLength(c: real, s: real, x: real, y: real)
    requires Length2(c, s) == 1.0
    ensures Length2(TurnFirst(c, s, x, y), TurnSecond(c, s, x, y)) == Length2(x, y)
  {
    assert (x * c - y * s) * (x * c - y * s) + (x * s + y * c) * (x * s + y * c) == (x * x + y * y) * (c * c + s * s);
  }

  /** The pair (1, 0) turns to the cosine and the sine. */
  lemma UnitPair(m: Block, raw: int -> real, angle: int -> real, n: int)
    requires 0 <= n && n + 1 < 2 * m.angles && n % 2 == 0 && raw(n) == 1.0 && raw(n + 1) == 0.0
    ensures Rotate(m, raw, angle, n) == m.fns.cos(angle(n / 2))
            && Rotate(m, raw, angle, n + 1) == m.fns.sin(angle(n / 2))
  {
    hide Valid, Rotate;
    PairTurns(m, raw, angle, n);
  }

  /** A zero angle turns nothing, and the states after the last pair are passed on. */
  lemma NoTurn(m: Block, raw: int -> real, angle: int -> real, n: int)
    requires m.fns.cos(0.0) == 1.0 && m.fns.sin(0.0) == 0.0 && (angle(n / 2) == 0.0 || 2 * m.angles <= n)
    ensures Rotate(m, raw, angle, n) == raw(n)
  {
    hide Valid;
  }

  // ---- the scan, unrolled ----

  /** The exponent that head `h` has gathered before row `t`. */
  ghost function Power(m: Block, t: int, h: int): real { Sum(t, u => Mul(Decay(m, u, h), Dt(m, u, h))) }

  /** What row `s` fed into a cell, as it stands before row `t`. */
  ghost function Kept(m: Block, t: int, f: int, n: int, s: int): real {
    Mul(m.fns.exp(Power(m, t, Head(m, f)) - Power(m, s + 1, Head(m, f))),
        Mul(Conv(m, s, f), BRot(m, s, Group(m, f), n)))
  }

  /** The recurrence in closed form: the state is the initial state and every earlier row's input, each decayed by the
      exponential of what was gathered since. */
  lemma {:induction false} ScanUnrolled(m: Block, t: nat, f: int, n: int)
    requires Additive(m.fns.exp)
    ensures State(m, t, f, n) == Mul(m.fns.exp(Power(m, t, Head(m, f))), m.h0(f, n)) + Sum(t, s => Kept(m, t, f, n, s))
  {
    hide Valid, State, Sum, Power, Kept, Head, Additive, Mul;
    if t == 0 {
      NothingKept(m, f, n);
    } else {
      ScanUnrolled(m, t - 1, f, n);
      UnrollStep(m, t - 1, f, n);
    }
  }

  lemma NothingKept(m: Block, f: int, n: int)
    requires Additive(m.fns.exp)
    ensures State(m, 0, f, n) == Mul(m.fns.exp(Power(m, 0, Head(m, f))), m.h0(f, n)) + Sum(0, s => Kept(m, 0, f, n, s))
  {
    hide Valid, Head, Kept, Additive, Mul;
    ExpZero(m.fns.exp);
    One(m.h0(f, n));
  }

  lemma One(x: real)
    ensures Mul(1.0, x) == x
  {
  }

  lemma UnrollStep(m: Block, t: nat, f: int, n: int)
    requires Additive(m.fns.exp)
    requires State(m, t, f, n) == Mul(m.fns.exp(Power(m, t, Head(m, f))), m.h0(f, n)) + Sum(t, s => Kept(m, t, f, n, s))
    ensures State(m, t + 1, f, n)
         == Mul(m.fns.exp(Power(m, t + 1, Head(m, f))), m.h0(f, n)) + Sum(t + 1, s => Kept(m, t + 1, f, n, s))
  {
    hide Valid, Conv, BRot, Keep, Head, Group, Additive, Mul, State, Sum, Power, Kept;
    NextForm(m, t, f, n);
    PowerStep(m, t, Head(m, f));
    KeptTotal(m, t, f, n);
    Distribute(Keep(m, t, Head(m, f)), m.fns.exp(Power(m, t, Head(m, f))), m.h0(f, n),
               Sum(t, s => Kept(m, t, f, n, s)));
  }

  /** What was kept before is decayed by one more row, and the row's own input is new. */
  lemma KeptTotal(m: Block, t: nat, f: int, n: int)
    requires Additive(m.fns.exp)
    ensures Sum(t + 1, s => Kept(m, t + 1, f, n, s))
         == Mul(Keep(m, t, Head(m, f)), Sum(t, s => Kept(m, t, f, n, s)))
            + Mul(Conv(m, t, f), BRot(m, t, Group(m, f), n))
  {
    hide Valid, Conv, BRot, Keep, Head, Group, Additive, Mul, Sum, Kept;
    var before, after := (s: int) => Kept(m, t, f, n, s), (s: int) => Kept(m, t + 1, f, n, s);
    forall s ensures after(s) == Mul(Keep(m, t, Head(m, f)), before(s)) {
      KeptStep(m, t, f, n, s);
    }
    SumScaleMul(t, after, Keep(m, t, Head(m, f)), before);
    NewInput(m, t, f, n);
    SumLast(t, after);
  }

  lemma SumLast(n: nat, f: int -> real)
    ensures Sum(n + 1, f) == Sum(n, f) + f(n)
  {
  }

  lemma Distribute(keep: real, e: real, h0: real, sum: real)
    ensures Mul(keep, Mul(e, h0) + sum) == Mul(Mul(keep, e), h0) + Mul(keep, sum)
  {
  }

  lemma NextForm(m: Block, t: nat, f: int, n: int)
    ensures State(m, t + 1, f, n)
         == Mul(Keep(m, t, Head(m, f)), State(m, t, f, n)) + Mul(Conv(m, t, f), BRot(m, t, Group(m, f), n))
  {
    hide Valid, Conv, BRot, Keep, Head, Group;
  }

  /** One row's factor joins the exponential. */
  lemma KeepsPower(m: Block, t: nat, h: int, since: real)
    requires Additive(m.fns.exp)
    ensures m.fns.exp(Power(m, t + 1, h) - since) == Mul(Keep(m, t, h), m.fns.exp(Power(m, t, h) - since))
  {
    hide Valid, Decay, Dt, Sum;
    var a := Mul(Decay(m, t, h), Dt(m, t, h));
    SumLast(t, u => Mul(Decay(m, u, h), Dt(m, u, h)));
    assert Adds(m.fns.exp, a, Power(m, t, h) - since);
  }

  lemma PowerStep(m: Block, t: nat, h: int)
    requires Additive(m.fns.exp)
    ensures m.fns.exp(Power(m, t + 1, h)) == Mul(Keep(m, t, h), m.fns.exp(Power(m, t, h)))
  {
    hide Valid, Keep, Power, Mul, Additive;
    KeepsPower(m, t, h, 0.0);
  }

  lemma KeptStep(m: Block, t: nat, f: int, n: int, s: int)
    requires Additive(m.fns.exp)
    ensures Kept(m, t + 1, f, n, s) == Mul(Keep(m, t, Head(m, f)), Kept(m, t, f, n, s))
  {
    hide Valid, Conv, BRot, Keep, Head, Group, Additive, Mul, Power;
    KeepsPower(m, t, Head(m, f), Power(m, s + 1, Head(m, f)));
    Regroup(Keep(m, t, Head(m, f)), m.fns.exp(Power(m, t, Head(m, f)) - Power(m, s + 1, Head(m, f))),
            Mul(Conv(m, s, f), BRot(m, s, Group(m, f), n)));
  }

  lemma Regroup(x: real, y: real, z: real)
    ensures Mul(Mul(x, y), z) == Mul(x, Mul(y, z))
  {
  }

  lemma NewInput(m: Block, t: nat, f: int, n: int)
    requires Additive(m.fns.exp)
    ensures Kept(m, t + 1, f, n, t) == Mul(Conv(m, t, f), BRot(m, t, Group(m, f), n))
  {
    hide Valid, Conv, BRot, Head, Group, Additive, Mul, Power;
    ExpZero(m.fns.exp);
    One(Mul(Conv(m, t, f), BRot(m, t, Group(m, f), n)));
  }

  // ---- activations, gate and output ----

  /** A convolution's value times 1 + exp(-x) is x. */
  lemma ConvLaw(m: Block, t: int, c: int)
    ensures Mul(Conv(m, t, c), 1.0 + m.fns.exp(-ConvPre(m, t, c))) == ConvPre(m, t, c)
  {
    hide Valid, ConvPre, Silu, Mul;
    SiluLaw(m.fns, ConvPre(m, t, c));
  }

  /** A gated feature times 1 + exp(-z) is the scan's output times z. */
  lemma GateLaw(m: Block, t: int, f: int)
    ensures Mul(Gated(m, t, f), 1.0 + m.fns.exp(-Proj(m, t, f))) == Mul(ScanOut(m, t, f), Proj(m, t, f))
  {
    hide Valid, ScanOut, Proj, Sigmoid;
    var y, z := ScanOut(m, t, f), Proj(m, t, f);
    SigmoidLaw(m.fns, z);
    assert y * z * Sigmoid(m.fns, z) * (1.0 + m.fns.exp(-z)) == y * z * (Sigmoid(m.fns, z) * (1.0 + m.fns.exp(-z)));
  }

  /** A hidden row of zeros has an output row of zeros, whatever the state holds. */
  lemma ZeroRowIsSilent(m: Block, t: int, o: int)
    requires forall i {:trigger m.u(t, i)} :: 0 <= i < m.width ==> m.u(t, i) == 0.0
    ensures Out(m, t, o) == 0.0
  {
    hide Valid, Gated, Sum;
    forall f ensures Gated(m, t, f) == 0.0 {
      SilentGate(m, t, f);
    }
    SumZero(m.features, f => Gated(m, t, f) * m.outW(o, f));
  }

  lemma SilentGate(m: Block, t: int, f: int)
    requires forall i {:trigger m.u(t, i)} :: 0 <= i < m.width ==> m.u(t, i) == 0.0
    ensures Gated(m, t, f) == 0.0
  {
    hide Valid, ScanOut, Sum, Sigmoid;
    SumZero(m.width, i => m.u(t, i) * m.inW(f, i));
  }
}
