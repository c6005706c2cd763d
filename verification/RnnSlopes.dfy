/** The linearised recurrence of RnnGradient is the recurrence's derivative: along every path of inputs and parameters
    each value of RnnModel moves, to first order, by its tangent. */
module RnnSlopes {
  import opened Sums
  import opened Functions
  import opened Slopes
  import opened FunctionSlopes
  import opened RnnModel
  import opened RnnProperties
  import opened RnnPaths
  import G = RnnGradient

  /** The same sizes, so the same layout, and the same functions. */
  ghost predicate Sized(m: Rnn, n: Rnn) {
    && n.rows == m.rows && n.heads == m.heads && n.keys == m.keys && n.vals == m.vals && n.qkHeads == m.qkHeads
    && n.qkShare == m.qkShare && n.vHeads == m.vHeads && n.vShare == m.vShare && n.fHeads == m.fHeads
    && n.fShare == m.fShare && n.wHeads == m.wHeads && n.wShare == m.wShare && n.fns == m.fns
  }

  lemma SameSizes(c: real -> Rnn, d: G.Tangent, e: real)
    requires Curve(c, d)
    ensures Sized(c(0.0), c(e))
  {
    assert Alike(c(0.0), c(e));
    hide Valid;
  }

  // ---- step and decay ----

  /** The argument of the softplus. */
  ghost function PreAt(c: real -> Rnn, t: int, s: int, h: int): real -> real { Plus(ForgetAt(c, t, s), BiasAt(c, h)) }

  lemma StepForm(m: Rnn, n: Rnn, t: int, h: int, s: int)
    requires Sized(m, n) && s == FHead(m, h)
    ensures Step(n, t, h) == Softplus(m.fns, n.forget(t, s) + n.bias(h))
    ensures G.Slope(n, t, h) == Sigmoid(m.fns, n.forget(t, s) + n.bias(h))
  {
    hide Valid, Softplus, Sigmoid;
  }

  lemma PreSlope(c: real -> Rnn, d: G.Tangent, t: int, s: int, h: int, a: real)
    requires Curve(c, d) && t >= 0 && a == d.forget(t, s) + d.bias(h)
    ensures Slope(PreAt(c, t, s, h), a)
    ensures forall e {:trigger PreAt(c, t, s, h)(e)} :: PreAt(c, t, s, h)(e) == c(e).forget(t, s) + c(e).bias(h)
  {
    hide Valid, Slope, Curve, ForgetAt, BiasAt, Plus;
    ForgetSlope(c, d, t, s);
    BiasSlope(c, d, h);
    SlopeAdd(PreAt(c, t, s, h), a, ForgetAt(c, t, s), d.forget(t, s), BiasAt(c, h), d.bias(h));
  }

  /** The kernels' slope factor is the step's derivative in the forget projection and in the bias. */
  lemma StepSlope(c: real -> Rnn, d: G.Tangent, t: int, h: int, s: int)
    requires Curve(c, d) && t >= 0 && Smooth(c(0.0).fns) && s == FHead(c(0.0), h)
    ensures Slope(StepAt(c, t, h), Mul(G.Slope(c(0.0), t, h), d.forget(t, s) + d.bias(h)))
  {
    hide Valid, Sized, Slope, Curve, Smooth, StepAt, Step, PreAt, Softplus, Sigmoid, Mul, G.Slope, FHead;
    var m, a := c(0.0), d.forget(t, s) + d.bias(h);
    PreSlope(c, d, t, s, h, a);
    forall e ensures StepAt(c, t, h)(e) == Softplus(m.fns, PreAt(c, t, s, h)(e)) {
      SameSizes(c, d, e);
      StepForm(m, c(e), t, h, s);
    }
    SameSizes(c, d, 0.0);
    StepForm(m, m, t, h, s);
    SlopeSoftplus(m.fns, StepAt(c, t, h), Mul(G.Slope(m, t, h), a), PreAt(c, t, s, h), a);
  }

  /** Where exp undoes log and turns sums into products, forget projection and bias enter the step together. */
  lemma StepLaw(m: Rnn, t: int, h: int)
    requires Undoes(m.fns.exp, m.fns.log) && Additive(m.fns.exp)
    ensures m.fns.exp(Step(m, t, h)) == 1.0 + Mul(m.fns.exp(m.forget(t, FHead(m, h))), m.fns.exp(m.bias(h)))
  {
    hide Valid, FHead, Softplus, Additive, Undoes, Mul;
    SoftplusOfSum(m.fns, m.forget(t, FHead(m, h)), m.bias(h));
  }

  ghost function RateAt(c: real -> Rnn, h: int): real -> real { After(c(0.0).fns.exp, LogRateAt(c, h)) }

  lemma RateSlope(c: real -> Rnn, d: G.Tangent, h: int)
    requires Curve(c, d) && Smooth(c(0.0).fns)
    ensures Slope(RateAt(c, h), Mul(G.Rate(c(0.0), h), d.logRate(h)))
    ensures forall e {:trigger RateAt(c, h)(e)} :: RateAt(c, h)(e) == c(0.0).fns.exp(c(e).logRate(h))
  {
    hide Valid, Slope, Curve, Smooth, LogRateAt, After, Mul;
    LogRateSlope(c, d, h);
    SlopeExp(c(0.0).fns, RateAt(c, h), Mul(G.Rate(c(0.0), h), d.logRate(h)), LogRateAt(c, h), d.logRate(h));
  }

  lemma DecayForm(m: Rnn, n: Rnn, t: int, h: int)
    requires Sized(m, n)
    ensures Decay(n, t, h) == m.fns.exp(-Mul(m.fns.exp(n.logRate(h)), Step(n, t, h)))
  {
    hide Valid, Step, Mul, DecayOf;
    DecayOfForm(m.fns, m.fns.exp(n.logRate(h)), Step(n, t, h));
  }

  lemma DecayOfForm(k: Fns, rate: real, step: real)
    ensures DecayOf(k, rate, step) == k.exp(-Mul(rate, step))
  {
    assert -rate * step == -(rate * step);
  }

  lemma TDecayForm(m: Rnn, d: G.Tangent, t: int, h: int, a: real)
    requires a == d.forget(t, FHead(m, h)) + d.bias(h)
    ensures G.TDecay(m, d, t, h)
         == Mul(Decay(m, t, h), Minus(Mul(Mul(G.Rate(m, h), d.logRate(h)), Step(m, t, h))
                                      + Mul(G.Rate(m, h), Mul(G.Slope(m, t, h), a))))
  {
    hide Valid, Decay, G.Rate, Step, G.Slope, FHead, G.TDecayOf, Mul;
    TDecayOfForm(Decay(m, t, h), G.Rate(m, h), d.logRate(h), Step(m, t, h), G.Slope(m, t, h), a);
    assert G.TDecay(m, d, t, h)
      == G.TDecayOf(Decay(m, t, h), G.Rate(m, h), d.logRate(h), Step(m, t, h), G.Slope(m, t, h), a);
  }

  lemma TDecayOfForm(decay: real, rate: real, tRate: real, step: real, slope: real, a: real)
    ensures G.TDecayOf(decay, rate, tRate, step, slope, a)
         == Mul(decay, Minus(Mul(Mul(rate, tRate), step) + Mul(rate, Mul(slope, a))))
  {
  }

  /** The exponent, before its sign. */
  ghost function PowerAt(c: real -> Rnn, t: int, h: int): (f: real -> real)
    ensures forall e {:trigger f(e)} :: f(e) == Mul(c(0.0).fns.exp(c(e).logRate(h)), StepAt(c, t, h)(e))
  {
    hide Mul, StepAt, After;
    Times(After(c(0.0).fns.exp, LogRateAt(c, h)), StepAt(c, t, h))
  }

  lemma PowerSlope(c: real -> Rnn, d: G.Tangent, t: int, h: int, a: real, b: real)
    requires Curve(c, d) && t >= 0 && Smooth(c(0.0).fns) && a == d.forget(t, FHead(c(0.0), h)) + d.bias(h)
    requires b == Mul(Mul(G.Rate(c(0.0), h), d.logRate(h)), Step(c(0.0), t, h))
                  + Mul(G.Rate(c(0.0), h), Mul(G.Slope(c(0.0), t, h), a))
    ensures Slope(PowerAt(c, t, h), b)
  {
    hide Valid, Slope, Curve, Smooth, StepAt, Step, RateAt, G.Rate, G.Slope, FHead, Mul, PowerAt;
    var m := c(0.0);
    RateSlope(c, d, h);
    RateForm(m, h);
    StepSlope(c, d, t, h, FHead(m, h));
    SlopeMul(PowerAt(c, t, h), b, RateAt(c, h), Mul(G.Rate(m, h), d.logRate(h)), StepAt(c, t, h),
             Mul(G.Slope(m, t, h), a));
  }

  lemma DecayPath(c: real -> Rnn, d: G.Tangent, t: int, h: int, e: real)
    requires Curve(c, d)
    ensures DecayAt(c, t, h)(e) == c(0.0).fns.exp(Opposite(PowerAt(c, t, h))(e))
  {
    hide Valid, Sized, Curve, DecayAt, Decay, StepAt, Step, Mul, PowerAt, Opposite;
    SameSizes(c, d, e);
    DecayForm(c(0.0), c(e), t, h);
  }

  lemma DecaySlope(c: real -> Rnn, d: G.Tangent, t: int, h: int)
    requires Curve(c, d) && t >= 0 && Smooth(c(0.0).fns)
    ensures Slope(DecayAt(c, t, h), G.TDecay(c(0.0), d, t, h))
  {
    hide Valid, Slope, Curve, Smooth, DecayAt, Decay, G.TDecay, StepAt, Step, G.Rate, G.Slope, FHead, Mul, PowerAt,
         Opposite, Minus;
    var m := c(0.0);
    var a := d.forget(t, FHead(m, h)) + d.bias(h);
    var b := Mul(Mul(G.Rate(m, h), d.logRate(h)), Step(m, t, h)) + Mul(G.Rate(m, h), Mul(G.Slope(m, t, h), a));
    PowerSlope(c, d, t, h, a, b);
    OppositeSlope(PowerAt(c, t, h), b);
    forall e ensures DecayAt(c, t, h)(e) == m.fns.exp(Opposite(PowerAt(c, t, h))(e)) {
      DecayPath(c, d, t, h, e);
    }
    TDecayForm(m, d, t, h, a);
    SlopeExp(m.fns, DecayAt(c, t, h), G.TDecay(m, d, t, h), Opposite(PowerAt(c, t, h)), Minus(b));
  }

  lemma RateForm(m: Rnn, h: int)
    ensures G.Rate(m, h) == m.fns.exp(m.logRate(h))
  {
    hide Valid;
  }

  // ---- the tanh's argument ----

  lemma DriveForm(m: Rnn, n: Rnn, t: int, r: int, j: int, s: int, v: int)
    requires Sized(m, n) && s == Slot(m, r) && v == VHead(m, Head(m, r))
    ensures Drive(n, t, r, j) == Mul(n.key(t, s), n.value(t, v, j))
  {
    assert Slot(n, r) == s && VHead(n, Head(n, r)) == v;
    hide Valid, Slot, VHead, Head;
  }

  lemma DriveSlope(c: real -> Rnn, d: G.Tangent, t: int, r: int, j: int)
    requires Curve(c, d) && t >= 0
    ensures Slope(DriveAt(c, t, r, j), G.TDrive(c(0.0), d, t, r, j))
  {
    hide Valid, Sized, Slope, Curve, DriveAt, Drive, KeyAt, ValueAt, Mul, Slot, VHead, Head;
    var m, s, v := c(0.0), Slot(c(0.0), r), VHead(c(0.0), Head(c(0.0), r));
    KeySlope(c, d, t, s);
    ValueSlope(c, d, t, v, j);
    forall e ensures DriveAt(c, t, r, j)(e) == Mul(KeyAt(c, t, s)(e), ValueAt(c, t, v, j)(e)) {
      SameSizes(c, d, e);
      DriveForm(m, c(e), t, r, j, s, v);
    }
    SlopeMul(DriveAt(c, t, r, j), G.TDrive(m, d, t, r, j), KeyAt(c, t, s), d.key(t, s), ValueAt(c, t, v, j),
             d.value(t, v, j));
  }

  ghost function MixParts(c: real -> Rnn, t: int, r: int, j: int, w: int): (f: int -> real -> real)
    ensures forall i {:trigger f(i)} :: f(i) == Times(StateAt(c, t, r, i), WAt(c, w, i, j))
  {
    (i: int) => Times(StateAt(c, t, r, i), WAt(c, w, i, j))
  }

  lemma MixForm(m: Rnn, n: Rnn, t: int, r: int, j: int, w: int, f: int -> real)
    requires Sized(m, n) && w == WHead(m, Head(m, r))
    requires forall i {:trigger f(i)} :: f(i) == Mul(State(n, t, r, i), n.w(w, i, j))
    ensures Mixed(n, t, r, j) == Sum(m.vals, f)
  {
    hide Sum, State, Mul;
    assert WHead(n, Head(n, r)) == w;
    hide Valid, WHead, Head;
    var state := (i: int) => State(n, t, r, i);
    SumEq(n.vals, i => Mul(state(i), n.w(WHead(n, Head(n, r)), i, j)), f);
  }

  /** The tangent of the mixed state. */
  ghost function TMixed(m: Rnn, d: G.Tangent, t: int, r: int, j: int): real {
    G.TMix(m, d, i => State(m, t, r, i), i => G.TState(m, d, t, r, i), r, j)
  }

  lemma MixSlope(c: real -> Rnn, d: G.Tangent, t: int, r: int, j: int)
    requires Curve(c, d)
    requires forall i {:trigger StateAt(c, t, r, i)} :: Slope(StateAt(c, t, r, i), G.TState(c(0.0), d, t, r, i))
    ensures Slope(MixAt(c, t, r, j), TMixed(c(0.0), d, t, r, j))
  {
    hide Valid, Sized, Slope, Curve, MixAt, Mixed, MixParts, StateAt, State, G.TState, WAt, Times, Mul, Sum, Slice,
         WHead, Head;
    var m, w := c(0.0), WHead(c(0.0), Head(c(0.0), r));
    var slopes := (i: int) => Mul(G.TState(m, d, t, r, i), m.w(w, i, j)) + Mul(State(m, t, r, i), d.w(w, i, j));
    forall i ensures Slope(MixParts(c, t, r, j, w)(i), slopes(i)) {
      assert Slope(StateAt(c, t, r, i), G.TState(m, d, t, r, i));
      WSlope(c, d, w, i, j);
      SlopeMul(MixParts(c, t, r, j, w)(i), slopes(i), StateAt(c, t, r, i), G.TState(m, d, t, r, i), WAt(c, w, i, j),
               d.w(w, i, j));
    }
    forall e ensures MixAt(c, t, r, j)(e) == Sum(m.vals, Slice(MixParts(c, t, r, j, w), e)) {
      SameSizes(c, d, e);
      MixForm(m, c(e), t, r, j, w, Slice(MixParts(c, t, r, j, w), e));
    }
    TMixForm(m, d, t, r, j, w, slopes);
    SlopeSum(m.vals, MixAt(c, t, r, j), TMixed(m, d, t, r, j), MixParts(c, t, r, j, w), slopes);
  }

  lemma TMixForm(m: Rnn, d: G.Tangent, t: int, r: int, j: int, w: int, f: int -> real)
    requires w == WHead(m, Head(m, r))
    requires forall i {:trigger f(i)} ::
               f(i) == Mul(G.TState(m, d, t, r, i), m.w(w, i, j)) + Mul(State(m, t, r, i), d.w(w, i, j))
    ensures TMixed(m, d, t, r, j) == Sum(m.vals, f)
  {
    hide Valid, Sum, State, G.TState, Mul, WHead, Head;
    var state, tState := (i: int) => State(m, t, r, i), (i: int) => G.TState(m, d, t, r, i);
    SumEq(m.vals, i => G.TMixTerm(m, d, state, tState, r, j, i), f);
  }

  lemma TanhForm(m: Rnn, n: Rnn, t: int, r: int, j: int)
    requires Sized(m, n)
    ensures Tanh(n, t, r, j) == m.fns.tanh(Mixed(n, t, r, j) + Drive(n, t, r, j))
  {
    hide Valid, Mix, Drive, State;
  }

  ghost function TTanh(m: Rnn, d: G.Tangent, t: int, r: int, j: int): real {
    Mul(TanhSlope(Tanh(m, t, r, j)), TMixed(m, d, t, r, j) + G.TDrive(m, d, t, r, j))
  }

  ghost function TanhPre(c: real -> Rnn, t: int, r: int, j: int): real -> real {
    Plus(MixAt(c, t, r, j), DriveAt(c, t, r, j))
  }

  lemma TanhPath(c: real -> Rnn, d: G.Tangent, t: int, r: int, j: int, e: real)
    requires Curve(c, d)
    ensures TanhAt(c, t, r, j)(e) == c(0.0).fns.tanh(TanhPre(c, t, r, j)(e))
  {
    hide Valid, Sized, Curve, TanhAt, Tanh, MixAt, Mixed, DriveAt, Drive, Plus;
    SameSizes(c, d, e);
    TanhForm(c(0.0), c(e), t, r, j);
  }

  lemma PreMoves(c: real -> Rnn, d: G.Tangent, t: int, r: int, j: int, a: real)
    requires Curve(c, d) && t >= 0
    requires forall i {:trigger StateAt(c, t, r, i)} :: Slope(StateAt(c, t, r, i), G.TState(c(0.0), d, t, r, i))
    requires a == TMixed(c(0.0), d, t, r, j) + G.TDrive(c(0.0), d, t, r, j)
    ensures Slope(TanhPre(c, t, r, j), a)
  {
    hide Valid, Slope, Curve, MixAt, TMixed, DriveAt, G.TDrive, StateAt, G.TState, Plus;
    MixSlope(c, d, t, r, j);
    DriveSlope(c, d, t, r, j);
    SlopeAdd(TanhPre(c, t, r, j), a, MixAt(c, t, r, j), TMixed(c(0.0), d, t, r, j), DriveAt(c, t, r, j),
             G.TDrive(c(0.0), d, t, r, j));
  }

  lemma TanhMoves(c: real -> Rnn, d: G.Tangent, t: int, r: int, j: int)
    requires Curve(c, d) && t >= 0 && Smooth(c(0.0).fns)
    requires forall i {:trigger StateAt(c, t, r, i)} :: Slope(StateAt(c, t, r, i), G.TState(c(0.0), d, t, r, i))
    ensures Slope(TanhAt(c, t, r, j), TTanh(c(0.0), d, t, r, j))
  {
    hide Valid, Slope, Curve, Smooth, TanhAt, Tanh, TanhSlope, TanhPre, TMixed, G.TDrive, StateAt, G.TState, Mul;
    var m, a := c(0.0), TMixed(c(0.0), d, t, r, j) + G.TDrive(c(0.0), d, t, r, j);
    PreMoves(c, d, t, r, j, a);
    forall e ensures TanhAt(c, t, r, j)(e) == m.fns.tanh(TanhPre(c, t, r, j)(e)) {
      TanhPath(c, d, t, r, j, e);
    }
    SlopeTanh(m.fns, TanhAt(c, t, r, j), TTanh(m, d, t, r, j), TanhPre(c, t, r, j), a);
  }

  // ---- state and readout ----

  lemma StateForm(m: Rnn, n: Rnn, t: int, u: nat, r: int, j: int, h: int)
    requires Sized(m, n) && t == u + 1 && h == Head(m, r)
    ensures State(n, t, r, j) == Mul(Decay(n, u, h), State(n, u, r, j)) + Mul(1.0 - Decay(n, u, h), Tanh(n, u, r, j))
  {
    hide Valid, State, Tanh, Decay, Head, Blend, Mul;
    HeadSame(m, n, r);
    NextState(n, u, r, j);
    BlendForm(Decay(n, u, h), State(n, u, r, j), Tanh(n, u, r, j));
  }

  lemma HeadSame(m: Rnn, n: Rnn, r: int)
    requires Sized(m, n)
    ensures Head(n, r) == Head(m, r)
  {
    hide Valid;
  }

  lemma BlendForm(decay: real, state: real, tanh: real)
    ensures Blend(decay, state, tanh) == Mul(decay, state) + Mul(1.0 - decay, tanh)
  {
  }

  lemma TStateForm(m: Rnn, d: G.Tangent, t: int, r: int, j: int, h: int)
    requires t > 0 && h == Head(m, r)
    ensures G.TState(m, d, t, r, j)
         == Mul(G.TDecay(m, d, t - 1, h), State(m, t - 1, r, j)) + Mul(Decay(m, t - 1, h), G.TState(m, d, t - 1, r, j))
            + (Mul(Minus(G.TDecay(m, d, t - 1, h)), Tanh(m, t - 1, r, j))
               + Mul(1.0 - Decay(m, t - 1, h), TTanh(m, d, t - 1, r, j)))
  {
    hide Valid, Decay, Tanh, State, G.TDecay, G.TMix, G.TDrive, Head;
  }

  /** What the decay keeps, and what it lets in. */
  lemma KeptSlope(c: real -> Rnn, d: G.Tangent, t: int, r: int, j: int, h: int, s: real)
    requires Curve(c, d) && t >= 0 && Smooth(c(0.0).fns) && Slope(StateAt(c, t, r, j), G.TState(c(0.0), d, t, r, j))
    requires s == Mul(G.TDecay(c(0.0), d, t, h), State(c(0.0), t, r, j))
                  + Mul(Decay(c(0.0), t, h), G.TState(c(0.0), d, t, r, j))
    ensures Slope(Times(DecayAt(c, t, h), StateAt(c, t, r, j)), s)
  {
    hide Valid, Slope, Curve, Smooth, DecayAt, Decay, G.TDecay, StateAt, State, G.TState, Times, Mul;
    DecaySlope(c, d, t, h);
    SlopeMul(Times(DecayAt(c, t, h), StateAt(c, t, r, j)), s, DecayAt(c, t, h), G.TDecay(c(0.0), d, t, h),
             StateAt(c, t, r, j), G.TState(c(0.0), d, t, r, j));
  }

  lemma LetInSlope(c: real -> Rnn, d: G.Tangent, t: int, r: int, j: int, h: int, s: real)
    requires Curve(c, d) && t >= 0 && Smooth(c(0.0).fns) && Slope(TanhAt(c, t, r, j), TTanh(c(0.0), d, t, r, j))
    requires s == Mul(Minus(G.TDecay(c(0.0), d, t, h)), Tanh(c(0.0), t, r, j))
                  + Mul(1.0 - Decay(c(0.0), t, h), TTanh(c(0.0), d, t, r, j))
    ensures Slope(Times(Lower(1.0, DecayAt(c, t, h)), TanhAt(c, t, r, j)), s)
  {
    hide Valid, Slope, Curve, Smooth, DecayAt, Decay, G.TDecay, TanhAt, Tanh, TTanh, Times, Mul, Lower, Minus;
    DecaySlope(c, d, t, h);
    LowerSlope(1.0, DecayAt(c, t, h), G.TDecay(c(0.0), d, t, h));
    SlopeMul(Times(Lower(1.0, DecayAt(c, t, h)), TanhAt(c, t, r, j)), s, Lower(1.0, DecayAt(c, t, h)),
             Minus(G.TDecay(c(0.0), d, t, h)), TanhAt(c, t, r, j), TTanh(c(0.0), d, t, r, j));
  }

  lemma StatePath(c: real -> Rnn, d: G.Tangent, t: int, r: int, j: int, h: int, e: real)
    requires Curve(c, d) && t > 0 && h == Head(c(0.0), r)
    ensures StateAt(c, t, r, j)(e) == Times(DecayAt(c, t - 1, h), StateAt(c, t - 1, r, j))(e)
                                      + Times(Lower(1.0, DecayAt(c, t - 1, h)), TanhAt(c, t - 1, r, j))(e)
  {
    hide Valid, Sized, Curve, StateAt, State, DecayAt, Decay, TanhAt, Tanh, Times, Mul, Lower, Head;
    SameSizes(c, d, e);
    StateForm(c(0.0), c(e), t, t - 1, r, j, h);
  }

  lemma StateStep(c: real -> Rnn, d: G.Tangent, t: int, u: int, r: int, j: int, h: int)
    requires Curve(c, d) && Smooth(c(0.0).fns) && t > 0 && u == t - 1 && h == Head(c(0.0), r)
    requires Slope(StateAt(c, u, r, j), G.TState(c(0.0), d, u, r, j))
    requires Slope(TanhAt(c, u, r, j), TTanh(c(0.0), d, u, r, j))
    ensures Slope(StateAt(c, t, r, j), G.TState(c(0.0), d, t, r, j))
  {
    hide Valid, Slope, Curve, Smooth, StateAt, State, G.TState, DecayAt, Decay, G.TDecay, TanhAt, Tanh, TTanh, Times,
         Mul, Lower, Minus, Head;
    var m := c(0.0);
    var a := Mul(G.TDecay(m, d, u, h), State(m, u, r, j)) + Mul(Decay(m, u, h), G.TState(m, d, u, r, j));
    var b := Mul(Minus(G.TDecay(m, d, u, h)), Tanh(m, u, r, j))
             + Mul(1.0 - Decay(m, u, h), TTanh(m, d, u, r, j));
    KeptSlope(c, d, u, r, j, h, a);
    LetInSlope(c, d, u, r, j, h, b);
    forall e ensures StateAt(c, t, r, j)(e) == Times(DecayAt(c, u, h), StateAt(c, u, r, j))(e)
                                               + Times(Lower(1.0, DecayAt(c, u, h)), TanhAt(c, u, r, j))(e) {
      StatePath(c, d, t, r, j, h, e);
    }
    TStateForm(m, d, t, r, j, h);
    SlopeAdd(StateAt(c, t, r, j), G.TState(m, d, t, r, j), Times(DecayAt(c, u, h), StateAt(c, u, r, j)), a,
             Times(Lower(1.0, DecayAt(c, u, h)), TanhAt(c, u, r, j)), b);
  }

  lemma {:induction false} StateSlope(c: real -> Rnn, d: G.Tangent, t: int, r: int, j: int)
    requires Curve(c, d) && Smooth(c(0.0).fns)
    ensures Slope(StateAt(c, t, r, j), G.TState(c(0.0), d, t, r, j))
    decreases t
  {
    hide Valid, Slope, Curve, Smooth, StateAt, TanhAt, TTanh, Head;
    if t <= 0 {
      hide H0At;
      H0Slope(c, d, r, j);
      SlopeEq(H0At(c, r, j), StateAt(c, t, r, j), d.h0(r, j));
    } else {
      hide State, G.TState;
      var u := t - 1;
      forall i ensures Slope(StateAt(c, u, r, i), G.TState(c(0.0), d, u, r, i)) {
        StateSlope(c, d, u, r, i);
      }
      TanhMoves(c, d, u, r, j);
      assert Slope(StateAt(c, u, r, j), G.TState(c(0.0), d, u, r, j));
      StateStep(c, d, t, u, r, j, Head(c(0.0), r));
    }
  }

  /** One key's share of a readout. */
  ghost function ReadPart(c: real -> Rnn, t: int, r: int, s: int, j: int): real -> real {
    Times(QueryAt(c, t, s), StateAt(c, t + 1, r, j))
  }

  lemma ReadPartSlope(c: real -> Rnn, d: G.Tangent, t: int, r: int, s: int, j: int)
    requires Curve(c, d) && t >= 0 && Smooth(c(0.0).fns) && s == Slot(c(0.0), r)
    ensures Slope(ReadPart(c, t, r, s, j), G.TReadTerm(c(0.0), d, t, r, j))
  {
    hide Valid, Slope, Curve, Smooth, QueryAt, StateAt, State, G.TState, Times, Mul, Slot;
    QuerySlope(c, d, t, s);
    StateSlope(c, d, t + 1, r, j);
    SlopeMul(ReadPart(c, t, r, s, j), G.TReadTerm(c(0.0), d, t, r, j), QueryAt(c, t, s), d.query(t, s),
             StateAt(c, t + 1, r, j), G.TState(c(0.0), d, t + 1, r, j));
  }

  ghost function ReadParts(c: real -> Rnn, t: int, h: int, j: int): (f: int -> real -> real)
    ensures forall k {:trigger f(k)} ::
              f(k) == ReadPart(c, t, CellRow(c(0.0), h, k), Slot(c(0.0), CellRow(c(0.0), h, k)), j)
  {
    hide CellRow, Slot, ReadPart;
    (k: int) => ReadPart(c, t, CellRow(c(0.0), h, k), Slot(c(0.0), CellRow(c(0.0), h, k)), j)
  }

  lemma ReadForm(m: Rnn, n: Rnn, t: int, h: int, j: int, v: int, f: int -> real)
    requires Sized(m, n) && v == VHead(m, h)
    requires forall k {:trigger f(k)} ::
               f(k) == Mul(n.query(t, Slot(m, CellRow(m, h, k))), State(n, t + 1, CellRow(m, h, k), j))
    ensures Read(n, t, h, j) == Sum(m.keys, f) + Mul(n.value(t, v, j), n.skip(h, j))
  {
    hide Sum, State, Mul;
    assert VHead(n, h) == v;
    hide Valid, VHead, CellRow, Slot;
    var own := (k: int) => Mul(n.query(t, Slot(n, CellRow(n, h, k))), State(n, t + 1, CellRow(n, h, k), j));
    forall k ensures own(k) == f(k) {
      SlotSame(m, n, h, k);
    }
    SumEq(n.keys, own, f);
  }

  lemma SlotSame(m: Rnn, n: Rnn, h: int, k: int)
    requires Sized(m, n)
    ensures CellRow(n, h, k) == CellRow(m, h, k) && Slot(n, CellRow(m, h, k)) == Slot(m, CellRow(m, h, k))
  {
    hide Valid;
  }

  lemma ReadPath(c: real -> Rnn, d: G.Tangent, t: int, h: int, j: int, v: int, e: real)
    requires Curve(c, d) && v == VHead(c(0.0), h)
    ensures ReadAt(c, t, h, j)(e)
         == Partial(c(0.0).keys, ReadParts(c, t, h, j))(e) + Times(ValueAt(c, t, v, j), SkipAt(c, h, j))(e)
  {
    hide Valid, Sized, Curve, ReadAt, Read, QueryAt, StateAt, State, ValueAt, SkipAt, ReadParts, Partial, Slice, Sum,
         Times, Mul, VHead, CellRow, Slot;
    SameSizes(c, d, e);
    ReadForm(c(0.0), c(e), t, h, j, v, Slice(ReadParts(c, t, h, j), e));
  }

  lemma KeysSlope(c: real -> Rnn, d: G.Tangent, t: int, h: int, j: int, s: real)
    requires Curve(c, d) && t >= 0 && Smooth(c(0.0).fns)
    requires s == Sum(c(0.0).keys, k => G.TReadTerm(c(0.0), d, t, CellRow(c(0.0), h, k), j))
    ensures Slope(Partial(c(0.0).keys, ReadParts(c, t, h, j)), s)
  {
    hide Valid, Slope, Curve, Smooth, ReadParts, ReadPart, Partial, Sum, CellRow, Slot, G.TReadTerm;
    var m := c(0.0);
    var slopes := (k: int) => G.TReadTerm(m, d, t, CellRow(m, h, k), j);
    forall k ensures Slope(ReadParts(c, t, h, j)(k), slopes(k)) {
      ReadPartSlope(c, d, t, CellRow(m, h, k), Slot(m, CellRow(m, h, k)), j);
    }
    SlopeSum(m.keys, Partial(m.keys, ReadParts(c, t, h, j)), s, ReadParts(c, t, h, j), slopes);
  }

  /** Every readout of the recurrence moves, to first order, by its tangent. */
  lemma ReadSlope(c: real -> Rnn, d: G.Tangent, t: int, h: int, j: int)
    requires Curve(c, d) && t >= 0 && Smooth(c(0.0).fns)
    ensures Slope(ReadAt(c, t, h, j), G.TRead(c(0.0), d, t, h, j))
  {
    hide Valid, Slope, Curve, Smooth, ReadAt, ReadParts, Partial, Sum, ValueAt, SkipAt, Times, Mul, VHead, CellRow,
         G.TReadTerm;
    var m, v := c(0.0), VHead(c(0.0), h);
    var a := Sum(m.keys, k => G.TReadTerm(m, d, t, CellRow(m, h, k), j));
    var b := Mul(d.value(t, v, j), m.skip(h, j)) + Mul(m.value(t, v, j), d.skip(h, j));
    KeysSlope(c, d, t, h, j, a);
    ValueSlope(c, d, t, v, j);
    SkipSlope(c, d, h, j);
    SlopeMul(Times(ValueAt(c, t, v, j), SkipAt(c, h, j)), b, ValueAt(c, t, v, j), d.value(t, v, j), SkipAt(c, h, j),
             d.skip(h, j));
    forall e ensures ReadAt(c, t, h, j)(e)
                  == Partial(m.keys, ReadParts(c, t, h, j))(e) + Times(ValueAt(c, t, v, j), SkipAt(c, h, j))(e) {
      ReadPath(c, d, t, h, j, v, e);
    }
    SlopeAdd(ReadAt(c, t, h, j), G.TRead(m, d, t, h, j), Partial(m.keys, ReadParts(c, t, h, j)), a,
             Times(ValueAt(c, t, v, j), SkipAt(c, h, j)), b);
  }
}
