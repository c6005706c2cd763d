/** One row of the M2RNN's recurrence, reversed from the states before and after it: the readouts, every cell, the
    decay parameters, and the state's cotangent carried on. */
module RnnBackward {
  import opened Sums
  import opened Functions
  import opened Buffers
  import opened RnnModel
  import opened RnnGradient
  import opened RnnKernel
  import opened RnnBackwardRow
  import Cell = RnnBackwardCells

  // ---- decay parameters ----

  ghost function ForgetUpto(m: Rnn, t: int, h: int, s: int): real {
    Keyed(h, x => FHead(m, x), x => BiasTerm(m, x, t), s)
  }

  lemma HeadSteps(m: Rnn, t: int, h: nat)
    requires t < m.rows
    ensures forall s ::
              ForgetUpto(m, t, h + 1, s) == ForgetUpto(m, t, h, s) + if s == FHead(m, h) then BiasTerm(m, h, t) else 0.0
    ensures RateGrad(m, t, h) == RateGrad(m, t + 1, h) + RateTerm(m, h, t)
    ensures BiasGrad(m, t, h) == BiasGrad(m, t + 1, h) + BiasTerm(m, h, t)
  {
    hide BiasTerm, RateTerm, FHead;
  }

  /** The decay parameters' buffers, and the row's forget gradients. */
  datatype DecayBuffers = DecayBuffers(rate: array<real>, bias: array<real>, forget: array<real>) {
    ghost predicate Apart() { rate != bias && rate != forget && bias != forget }

    ghost function Repr(): set<object> { {rate, bias, forget} }

    /** The heads before `h` have been added. */
    ghost predicate Done(m: Rnn, t: int, h: int)
      reads rate, bias, forget
    {
      && Vector(rate, m.heads, i => RateGrad(m, if i < h then t else t + 1, i))
      && Vector(bias, m.heads, i => BiasGrad(m, if i < h then t else t + 1, i))
      && Vector(forget, m.fHeads, s => ForgetUpto(m, t, h, s))
    }
  }

  method DecayHead(m: Rnn, t: nat, x: RowIn, h: nat, grad: real, to: DecayBuffers)
    requires x.Reads(m, t) && t < m.rows && h < m.heads && grad == DecayGrad(m, t, h) && to.Apart() && to.Done(m, t, h)
    modifies to.rate, to.bias, to.forget
    ensures to.Done(m, t, h + 1)
  {
    hide DecayGrad, Decay, Rate, Step, Slope, RateOf, BiasOf, FHead, RateGrad, BiasGrad, ForgetUpto, RowIn.Reads,
         RowIn.Decay, RowIn.Step, RowIn.Slope;
    HeadSteps(m, t, h);
    var decay := x.Decay(m, t, h);
    var toBias := BiasOf(grad, decay, Rate(m, h), x.Slope(m, t, h));
    AddEntry(to.rate, h, RateOf(grad, decay, Rate(m, h), x.Step(m, t, h)));
    AddEntry(to.forget, FHead(m, h), toBias);
    AddEntry(to.bias, h, toBias);
  }

  /** All heads' cells and decay parameters, reversed. */
  method CellsBack(m: Rnn, t: nat, x: RowIn, recover: bool, prev: array2<real>, next: array2<real>,
                   stateGrad: array2<real>,
                   to: Cell.CellBuffers, decay: DecayBuffers, ghost was: Cell.Before)
    requires x.Reads(m, t) && t < m.rows && Holds(m, t, prev) && Holds(m, t + 1, next)
    requires recover ==> Contracting(m.fns)
    requires Matrix(stateGrad, Cells(m), m.vals, (r, j) => Full(m, t, r, j))
    requires to.Apart() && {to.prevGrad, to.value} !! {prev, next, stateGrad} && to.Done(m, t, 0, 0, was)
    requires decay.Apart() && decay.Done(m, t, 0) && decay.Repr() !! to.Repr()
    modifies to.prevGrad, to.w, to.key, to.value, decay.rate, decay.bias, decay.forget
    ensures to.Done(m, t, Cells(m), 0, was) && decay.Done(m, t, m.heads)
  {
    hide Full, Contracting, Holds, RowIn.Reads, Cell.CellBuffers.Done, DecayBuffers.Done, DecayGrad, Matrix;
    assert 0 * m.keys == 0;
    for h := 0 to m.heads
      invariant to.Done(m, t, h * m.keys, 0, was) && decay.Done(m, t, h)
      invariant Holds(m, t, prev) && Holds(m, t + 1, next)
                && Matrix(stateGrad, Cells(m), m.vals, (r, j) => Full(m, t, r, j))
    {
      var grad := Cell.HeadCells(m, t, x, h, recover, prev, next, stateGrad, to, was);
      DecayHead(m, t, x, h, grad, decay);
    }
  }

  // ---- one row ----

  /** The parameter gradients. */
  datatype Params = Params(w: array3<real>, rate: array<real>, bias: array<real>, skip: array2<real>) {
    ghost function Repr(): set<object> { {w, rate, bias, skip} }

    /** Rows `t` and later have been reversed. */
    ghost predicate Holds(m: Rnn, t: int)
      reads Repr()
    {
      && w.Length0 == m.wHeads && w.Length1 == m.vals && w.Length2 == m.vals
      && (forall s, i, j :: 0 <= s < m.wHeads && 0 <= i < m.vals && 0 <= j < m.vals ==>
          w[s, i, j] == WGrad(m, t, s, i, j))
      && Vector(rate, m.heads, h => RateGrad(m, t, h)) && Vector(bias, m.heads, h => BiasGrad(m, t, h))
      && Matrix(skip, m.heads, m.vals, (h, j) => SkipGrad(m, t, h, j))
    }
  }

  /** One row's input gradients. */
  datatype Inputs = Inputs(query: array<real>, key: array<real>, value: array2<real>, forget: array<real>) {
    ghost function Repr(): set<object> { {query, key, value, forget} }

    ghost predicate Holds(m: Rnn, t: int)
      reads Repr()
    {
      && Vector(query, Slots(m), s => QueryGrad(m, t, s)) && Vector(key, Slots(m), s => KeyGrad(m, t, s))
      && Matrix(value, m.vHeads, m.vals, (s, j) => ValueGrad(m, t, s, j))
      && Vector(forget, m.fHeads, s => ForgetGrad(m, t, s))
    }
  }

  lemma CellStart(m: Rnn, t: int)
    ensures forall x, i | 0 <= x && 0 <= i :: Cell.PrevPart(m, t, 0, 0, x, i) == 0.0
    ensures forall s, i, c | 0 <= c :: Cell.WPart(m, t, 0, 0, s, i, c) == 0.0
    ensures forall s :: Cell.KeyPart(m, t, 0, 0, s) == 0.0
    ensures forall s, c | 0 <= c :: Cell.ValuePart(m, t, 0, 0, s, c) == 0.0
  {
    hide StateGrad, KeyRow;
  }

  lemma CellTotals(m: Rnn, t: int)
    requires t < m.rows
    ensures forall x, i | x < Cells(m) :: Cell.PrevPart(m, t, Cells(m), 0, x, i) == StateGrad(m, t, x, i)
    ensures forall s, i, c | 0 <= c ::
            WGrad(m, t, s, i, c) == WGrad(m, t + 1, s, i, c) + Cell.WPart(m, t, Cells(m), 0, s, i, c)
    ensures forall s :: Cell.KeyPart(m, t, Cells(m), 0, s) == KeyGrad(m, t, s)
    ensures forall s, c | 0 <= c ::
            SkipValueGrad(m, t, s, c) + Cell.ValuePart(m, t, Cells(m), 0, s, c) == ValueGrad(m, t, s, c)
  {
    hide StateGrad, KeyRow, State, PreGrad, Mul, WHead, VHead, Head, Slot, SkipValueGrad;
    forall s, i, c | 0 <= c
      ensures WGrad(m, t, s, i, c) == WGrad(m, t + 1, s, i, c) + Cell.WPart(m, t, Cells(m), 0, s, i, c)
    {
      KeyedEq(Cells(m), x => WHead(m, Head(m, x)), x => Cell.WeightTerm(m, t, x, i, c),
              r => Mul(State(m, t, r, i), PreGrad(m, t, r, c)), s);
    }
    forall s, c | 0 <= c
      ensures SkipValueGrad(m, t, s, c) + Cell.ValuePart(m, t, Cells(m), 0, s, c) == ValueGrad(m, t, s, c)
    {
      KeyedEq(Cells(m), x => VHead(m, Head(m, x)), x => Cell.ValueTerm(m, t, x, c),
              r => Mul(PreGrad(m, t, r, c), m.key(t, Slot(m, r))), s);
    }
  }

  ghost predicate WHolds(m: Rnn, t: int, w: array3<real>)
    reads w
  {
    && w.Length0 == m.wHeads && w.Length1 == m.vals && w.Length2 == m.vals
    && forall s, i, j :: 0 <= s < m.wHeads && 0 <= i < m.vals && 0 <= j < m.vals ==> w[s, i, j] == WGrad(m, t, s, i, j)
  }

  lemma CellsStarted(m: Rnn, t: int, to: Cell.CellBuffers, was: Cell.Before)
    requires Matrix(to.prevGrad, Cells(m), m.vals, (r, i) => 0.0) && Vector(to.key, Slots(m), s => 0.0)
    requires WHolds(m, t + 1, to.w) && Matrix(to.value, m.vHeads, m.vals, (s, j) => SkipValueGrad(m, t, s, j))
    requires was == Cell.Before((s, i, j) => WGrad(m, t + 1, s, i, j), (s, j) => SkipValueGrad(m, t, s, j))
    ensures to.Done(m, t, 0, 0, was)
  {
    hide WGrad, SkipValueGrad, Cell.PrevPart, Cell.WPart, Cell.KeyPart, Cell.ValuePart, Cells, Slots;
    CellStart(m, t);
  }

  lemma CellsEnded(m: Rnn, t: int, to: Cell.CellBuffers, was: Cell.Before)
    requires t < m.rows && to.Done(m, t, Cells(m), 0, was)
    requires was == Cell.Before((s, i, j) => WGrad(m, t + 1, s, i, j), (s, j) => SkipValueGrad(m, t, s, j))
    ensures Matrix(to.prevGrad, Cells(m), m.vals, (r, i) => StateGrad(m, t, r, i))
            && Vector(to.key, Slots(m), s => KeyGrad(m, t, s))
    ensures WHolds(m, t, to.w) && Matrix(to.value, m.vHeads, m.vals, (s, j) => ValueGrad(m, t, s, j))
  {
    hide WGrad, SkipValueGrad, ValueGrad, KeyGrad, StateGrad, Cell.PrevPart, Cell.WPart, Cell.KeyPart, Cell.ValuePart,
         Cells, Slots;
    CellTotals(m, t);
  }

  lemma DecayStarted(m: Rnn, t: int, to: DecayBuffers)
    requires t < m.rows && Vector(to.rate, m.heads, h => RateGrad(m, t + 1, h))
             && Vector(to.bias, m.heads, h => BiasGrad(m, t + 1, h))
    requires Vector(to.forget, m.fHeads, s => 0.0)
    ensures to.Done(m, t, 0)
  {
    hide RateGrad, BiasGrad, ForgetUpto;
    ForgetTotals(m, t);
  }

  lemma DecayEnded(m: Rnn, t: int, to: DecayBuffers)
    requires t < m.rows && to.Done(m, t, m.heads)
    ensures Vector(to.rate, m.heads, h => RateGrad(m, t, h)) && Vector(to.bias, m.heads, h => BiasGrad(m, t, h))
    ensures Vector(to.forget, m.fHeads, s => ForgetGrad(m, t, s))
  {
    hide RateGrad, BiasGrad, ForgetUpto, ForgetGrad;
    ForgetTotals(m, t);
  }

  lemma ForgetTotals(m: Rnn, t: int)
    ensures forall s :: ForgetUpto(m, t, m.heads, s) == ForgetGrad(m, t, s)
    ensures forall s :: ForgetUpto(m, t, 0, s) == 0.0
  {
    hide BiasTerm;
  }

  lemma ZeroForms(m: Rnn, a: array2<real>, b: array<real>, c: array<real>)
    requires a.Length0 == Cells(m) && a.Length1 == m.vals && forall i, j :: 0 <= i < Cells(m) && 0 <= j < m.vals ==>
             a[i, j] == 0.0
    requires b.Length == Slots(m) && forall i :: 0 <= i < Slots(m) ==> b[i] == 0.0
    requires c.Length == m.fHeads && forall i :: 0 <= i < m.fHeads ==> c[i] == 0.0
    ensures Matrix(a, Cells(m), m.vals, (r, i) => 0.0) && Vector(b, Slots(m), s => 0.0) && Vector(c, m.fHeads, s => 0.0)
  {
  }

  /** The cells of row `t` into fresh row buffers and the parameter buffers. */
  method CellStage(m: Rnn, t: nat, x: RowIn, recover: bool, prev: array2<real>, next: array2<real>,
                   stateGrad: array2<real>,
                   value: array2<real>, w: array3<real>, rate: array<real>, bias: array<real>)
    returns (prevGrad: array2<real>, key: array<real>, forget: array<real>)
    requires x.Reads(m, t) && t < m.rows && Holds(m, t, prev) && Holds(m, t + 1, next)
    requires recover ==> Contracting(m.fns)
    requires Matrix(stateGrad, Cells(m), m.vals, (r, j) => Full(m, t, r, j))
    requires Matrix(value, m.vHeads, m.vals, (s, j) => SkipValueGrad(m, t, s, j)) && value !in {prev, next, stateGrad}
    requires WHolds(m, t + 1, w) && rate != bias
    requires Vector(rate, m.heads, h => RateGrad(m, t + 1, h)) && Vector(bias, m.heads, h => BiasGrad(m, t + 1, h))
    modifies value, w, rate, bias
    ensures fresh({prevGrad}) && fresh({key, forget})
    ensures Matrix(prevGrad, Cells(m), m.vals, (r, i) => StateGrad(m, t, r, i))
            && Vector(key, Slots(m), s => KeyGrad(m, t, s))
    ensures WHolds(m, t, w) && Matrix(value, m.vHeads, m.vals, (s, j) => ValueGrad(m, t, s, j))
    ensures Vector(rate, m.heads, h => RateGrad(m, t, h)) && Vector(bias, m.heads, h => BiasGrad(m, t, h))
    ensures Vector(forget, m.fHeads, s => ForgetGrad(m, t, s))
  {
    hide WHolds, Holds, RowIn.Reads, Contracting, Full, StateGrad, KeyGrad, ValueGrad, SkipValueGrad, RateGrad,
         BiasGrad, ForgetGrad, ForgetUpto, Cell.CellBuffers.Done, DecayBuffers.Done, Cells, Slots, Matrix, Vector;
    prevGrad := ZeroMatrix(Cells(m), m.vals);
    key := ZeroVector(Slots(m));
    forget := ZeroVector(m.fHeads);
    ZeroForms(m, prevGrad, key, forget);
    var to, decay := Cell.CellBuffers(prevGrad, w, key, value), DecayBuffers(rate, bias, forget);
    ghost var was := Cell.Before((s, i, j) => WGrad(m, t + 1, s, i, j), (s, j) => SkipValueGrad(m, t, s, j));
    CellsStarted(m, t, to, was);
    DecayStarted(m, t, decay);
    CellsBack(m, t, x, recover, prev, next, stateGrad, to, decay, was);
    CellsEnded(m, t, to, was);
    DecayEnded(m, t, decay);
  }

  /** Row `t`, reversed: its inputs' gradients, the parameters' buffers, and the carried state cotangent. */
  method ReverseRow(m: Rnn, t: nat, x: RowIn, ups: RowUp, recover: bool, prev: array2<real>, next: array2<real>,
                    stateGrad: array2<real>, params: Params)
    returns (row: Inputs)
    requires t < m.rows && x.Reads(m, t) && ups.Reads(m, t) && Holds(m, t, prev) && Holds(m, t + 1, next)
    requires recover ==> Contracting(m.fns)
    requires Matrix(stateGrad, Cells(m), m.vals, (r, j) => StateGrad(m, t + 1, r, j))
    requires params.Holds(m, t + 1) && params.rate != params.bias && {params.skip, stateGrad} !! {prev, next}
             && params.skip != stateGrad
    modifies stateGrad, params.w, params.rate, params.bias, params.skip
    ensures row.Holds(m, t) && params.Holds(m, t) && fresh({row.value}) && fresh({row.query, row.key, row.forget})
    ensures Matrix(stateGrad, Cells(m), m.vals, (r, j) => StateGrad(m, t, r, j))
  {
    hide Holds, RowIn.Reads, RowUp.Reads, Contracting, Full, StateGrad, QueryGrad, KeyGrad, ValueGrad, SkipValueGrad,
         RateGrad, BiasGrad, ForgetGrad, SkipGrad, WGrad, Cells, Slots;
    var query := ZeroVector(Slots(m));
    var value := ZeroMatrix(m.vHeads, m.vals);
    ReadBack(m, t, x, ups, next, query, stateGrad, params.skip, value);
    var prevGrad, key, forget :=
        CellStage(m, t, x, recover, prev, next, stateGrad, value, params.w, params.rate, params.bias);
    CopyMatrix(prevGrad, stateGrad);
    row := Inputs(query, key, value, forget);
  }

  // ---- before the first row is reversed, and after the last ----

  lemma NoTotals(m: Rnn)
    ensures forall s, i, j :: WGrad(m, m.rows, s, i, j) == 0.0
    ensures forall h :: RateGrad(m, m.rows, h) == 0.0 && BiasGrad(m, m.rows, h) == 0.0
    ensures forall h, j :: SkipGrad(m, m.rows, h, j) == 0.0 && StateGrad(m, m.rows, h, j) == 0.0
  {
    hide WTerm, RateTerm, BiasTerm, SkipTerm;
  }

  method NewParams(m: Rnn) returns (params: Params, stateGrad: array2<real>)
    ensures fresh(params.Repr()) && params.Holds(m, m.rows) && params.rate != params.bias && params.skip != stateGrad
    ensures fresh(stateGrad) && Matrix(stateGrad, Cells(m), m.vals, (r, j) => StateGrad(m, m.rows, r, j))
  {
    hide WGrad, RateGrad, BiasGrad, SkipGrad, StateGrad, Cells;
    NoTotals(m);
    var w := ZeroCube(m.wHeads, m.vals, m.vals);
    var rate := ZeroVector(m.heads);
    var bias := ZeroVector(m.heads);
    var skip := ZeroMatrix(m.heads, m.vals);
    params := Params(w, rate, bias, skip);
    stateGrad := ZeroMatrix(Cells(m), m.vals);
  }

  method StateTotal(m: Rnn, stateGrad: array2<real>) returns (h0: array2<real>)
    requires Matrix(stateGrad, Cells(m), m.vals, (r, j) => StateGrad(m, 0, r, j))
    ensures fresh(h0) && Matrix(h0, Cells(m), m.vals, (r, j) => StateGrad(m, 0, r, j))
  {
    hide StateGrad, Cells;
    h0 := ZeroMatrix(Cells(m), m.vals);
    AddMatrix(stateGrad, h0);
  }
}
