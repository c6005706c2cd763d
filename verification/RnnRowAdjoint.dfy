/** One row of the M2RNN's reverse sweep is the adjoint of one row of its linearised forward pass. */
module RnnRowAdjoint {
  import opened Sums
  import opened Stages
  import opened RnnModel
  import opened RnnGradient

  // ---- one state cell ----

  ghost function TMixAt(m: Rnn, d: Tangent, t: int, r: int, j: int): real {
    TMix(m, d, i => State(m, t, r, i), i => TState(m, d, t, r, i), r, j)
  }

  ghost function Next(m: Rnn, d: Tangent, t: int, r: int, j: int): real {
    Mul(Full(m, t, r, j), TState(m, d, t + 1, r, j))
  }

  ghost function DecayCell(m: Rnn, t: int, r: int, j: int): real {
    Mul(Full(m, t, r, j), State(m, t, r, j) - Tanh(m, t, r, j))
  }

  ghost function ViaDecay(m: Rnn, d: Tangent, t: int, r: int, j: int): real {
    DecayCell(m, t, r, j) * TDecay(m, d, t, Head(m, r))
  }

  ghost function Carry(m: Rnn, t: int, r: int, j: int): real { Mul(Full(m, t, r, j), Decay(m, t, Head(m, r))) }

  ghost function ViaCarry(m: Rnn, d: Tangent, t: int, r: int, j: int): real {
    Mul(Carry(m, t, r, j), TState(m, d, t, r, j))
  }

  ghost function ViaMix(m: Rnn, d: Tangent, t: int, r: int, j: int): real {
    Mul(PreGrad(m, t, r, j), TMixAt(m, d, t, r, j))
  }

  ghost function KeyCell(m: Rnn, t: int, r: int, j: int): real {
    Mul(PreGrad(m, t, r, j), m.value(t, VHead(m, Head(m, r)), j))
  }

  ghost function ValueCell(m: Rnn, t: int, r: int, j: int): real { Mul(PreGrad(m, t, r, j), m.key(t, Slot(m, r))) }
  ghost function ViaKey(m: Rnn, d: Tangent, t: int, r: int, j: int): real { KeyCell(m, t, r, j) * d.key(t, Slot(m, r)) }

  ghost function ViaValue(m: Rnn, d: Tangent, t: int, r: int, j: int): real {
    ValueCell(m, t, r, j) * d.value(t, VHead(m, Head(m, r)), j)
  }

  lemma NextTangent(m: Rnn, d: Tangent, t: nat, r: int, j: int)
    ensures TState(m, d, t + 1, r, j)
         == TBlend(Decay(m, t, Head(m, r)), TDecay(m, d, t, Head(m, r)), State(m, t, r, j), TState(m, d, t, r, j),
                   Tanh(m, t, r, j),
                   TTanhOf(Tanh(m, t, r, j), TMixAt(m, d, t, r, j) + TDrive(m, d, t, r, j)))
  {
    hide Decay, TDecay, State, Tanh, TMix, TDrive, TBlend, TTanhOf;
  }

  lemma CellForm(full: real, decay: real, tDecay: real, s: real, ts: real, tanh: real, mix: real, drive: real)
    ensures full * TBlend(decay, tDecay, s, ts, tanh, TTanhOf(tanh, mix + drive))
         == full * (s - tanh) * tDecay + full * decay * ts + PreGradOf(full, decay, tanh) * mix
            + PreGradOf(full, decay, tanh) * drive
  {
    var p := PreGradOf(full, decay, tanh);
    assert (1.0 - decay) * TTanhOf(tanh, mix + drive) == (1.0 - decay) * ((1.0 - tanh * tanh) * (mix + drive));
    assert p * (mix + drive) == full * ((1.0 - decay) * ((1.0 - tanh * tanh) * (mix + drive))) by {
      Associate(full, 1.0 - decay, 1.0 - tanh * tanh, mix + drive);
    }
    assert p * (mix + drive) == p * mix + p * drive;
  }

  lemma Associate(a: real, b: real, c: real, e: real)
    ensures a * b * c * e == a * (b * (c * e))
  {
  }

  lemma NextCell(m: Rnn, d: Tangent, t: nat, r: int, j: int)
    ensures Next(m, d, t, r, j)
         == ViaDecay(m, d, t, r, j) + ViaCarry(m, d, t, r, j) + ViaMix(m, d, t, r, j) + ViaKey(m, d, t, r, j)
            + ViaValue(m, d, t, r, j)
  {
    hide State, TState, Decay, TDecay, Tanh, TMixAt, Full, PreGrad, PreGradOf, TBlend, TTanhOf, Slot, VHead, Head;
    NextTangent(m, d, t, r, j);
    PreGradForm(m, t, r, j);
    var h := Head(m, r);
    CellForm(Full(m, t, r, j), Decay(m, t, h), TDecay(m, d, t, h), State(m, t, r, j), TState(m, d, t, r, j),
             Tanh(m, t, r, j),
             TMixAt(m, d, t, r, j), TDrive(m, d, t, r, j));
    DriveForm(PreGrad(m, t, r, j), d.key(t, Slot(m, r)), m.value(t, VHead(m, h), j), m.key(t, Slot(m, r)),
              d.value(t, VHead(m, h), j));
  }

  lemma DriveForm(p: real, tk: real, v: real, k: real, tv: real)
    ensures p * (Mul(tk, v) + Mul(k, tv)) == Mul(p, v) * tk + Mul(p, k) * tv
  {
  }

  lemma NextSum(m: Rnn, d: Tangent, t: nat)
    ensures Sum2(Cells(m), m.vals, (r, j) => Next(m, d, t, r, j))
         == Sum2(Cells(m), m.vals, (r, j) => ViaDecay(m, d, t, r, j))
            + Sum2(Cells(m), m.vals, (r, j) => ViaCarry(m, d, t, r, j))
            + Sum2(Cells(m), m.vals, (r, j) => ViaMix(m, d, t, r, j))
              + Sum2(Cells(m), m.vals, (r, j) => ViaKey(m, d, t, r, j))
            + Sum2(Cells(m), m.vals, (r, j) => ViaValue(m, d, t, r, j))
  {
    hide Sum2, Next, ViaDecay, ViaCarry, ViaMix, ViaKey, ViaValue;
    var all := (r: int, j: int) => Next(m, d, t, r, j);
    forall r, j ensures all(r, j) == ViaDecay(m, d, t, r, j) + ViaCarry(m, d, t, r, j) + ViaMix(m, d, t, r, j)
                                     + ViaKey(m, d, t, r, j) + ViaValue(m, d, t, r, j) {
      NextCell(m, d, t, r, j);
    }
    Sum2Add5(Cells(m), m.vals, all, (r, j) => ViaDecay(m, d, t, r, j), (r, j) => ViaCarry(m, d, t, r, j),
             (r, j) => ViaMix(m, d, t, r, j),
             (r, j) => ViaKey(m, d, t, r, j), (r, j) => ViaValue(m, d, t, r, j));
  }

  // ---- decay ----

  lemma DecaySum(m: Rnn, d: Tangent, t: int)
    ensures Sum2(Cells(m), m.vals, (r, j) => ViaDecay(m, d, t, r, j))
            == Pair(m.heads, h => DecayGrad(m, t, h), h => TDecay(m, d, t, h))
  {
    hide Sum, DecayCell, TDecay, Head, DecayRow;
    forall r ensures DecayRow(m, t, r) == Row(m.vals, (r, j) => DecayCell(m, t, r, j), r) {
      DecayRowForm(m, t, r);
    }
    KeyedRows(m.heads, Cells(m), m.vals, r => Head(m, r), (r, j) => DecayCell(m, t, r, j), h => TDecay(m, d, t, h),
              (r, j) => ViaDecay(m, d, t, r, j), r => DecayRow(m, t, r), h => DecayGrad(m, t, h));
  }

  lemma DecayRowForm(m: Rnn, t: int, r: int)
    ensures DecayRow(m, t, r) == Row(m.vals, (r, j) => DecayCell(m, t, r, j), r)
  {
    hide Sum, Full, State, Tanh, Mul;
    SumEq(m.vals, j => Mul(Full(m, t, r, j), State(m, t, r, j) - Tanh(m, t, r, j)), j => DecayCell(m, t, r, j));
    var f := (r: int, j: int) => DecayCell(m, t, r, j);
    SumEq(m.vals, j => f(r, j), j => DecayCell(m, t, r, j));
  }

  ghost function DecayMove(m: Rnn, d: Tangent, t: int, h: int): real { Mul(DecayGrad(m, t, h), TDecay(m, d, t, h)) }
  ghost function RateMove(m: Rnn, d: Tangent, t: int, h: int): real { Mul(RateTerm(m, h, t), d.logRate(h)) }
  ghost function ForgetMove(m: Rnn, d: Tangent, t: int, h: int): real { BiasTerm(m, h, t) * d.forget(t, FHead(m, h)) }
  ghost function BiasMove(m: Rnn, d: Tangent, t: int, h: int): real { Mul(BiasTerm(m, h, t), d.bias(h)) }

  lemma DecayMoveForm(g: real, decay: real, rate: real, ta: real, step: real, slope: real, tf: real, tb: real)
    ensures g * (decay * -(rate * ta * step + rate * (slope * (tf + tb))))
         == RateOf(g, decay, rate, step) * ta + BiasOf(g, decay, rate, slope) * tf + BiasOf(g, decay, rate, slope) * tb
  {
    var x := g * decay;
    assert g * (decay * -(rate * ta * step + rate * (slope * (tf + tb))))
      == x * -(rate * ta * step + rate * (slope * (tf + tb)));
    assert rate * (slope * (tf + tb)) == rate * slope * tf + rate * slope * tb;
    assert x * (rate * ta * step) == x * (rate * step) * ta;
    assert x * (rate * slope * tf) == x * rate * slope * tf && x * (rate * slope * tb) == x * rate * slope * tb;
  }

  lemma DecayParams(m: Rnn, d: Tangent, t: int)
    ensures Pair(m.heads, h => DecayGrad(m, t, h), h => TDecay(m, d, t, h))
         == Pair(m.heads, h => RateTerm(m, h, t), d.logRate)
            + Pair(m.fHeads, s => ForgetGrad(m, t, s), s => d.forget(t, s))
            + Pair(m.heads, h => BiasTerm(m, h, t), d.bias)
  {
    hide Sum, Pair, Mul, DecayGrad, TDecay, RateTerm, BiasTerm, FHead;
    var moves := (h: int) => DecayMove(m, d, t, h);
    PairMul(m.heads, h => DecayGrad(m, t, h), h => TDecay(m, d, t, h), moves);
    forall h ensures moves(h) == RateMove(m, d, t, h) + ForgetMove(m, d, t, h) + BiasMove(m, d, t, h) {
      DecayMoveCell(m, d, t, h);
    }
    SumAdd3(m.heads, moves, h => RateMove(m, d, t, h), h => ForgetMove(m, d, t, h), h => BiasMove(m, d, t, h));
    PairMul(m.heads, h => RateTerm(m, h, t), d.logRate, h => RateMove(m, d, t, h));
    PairMul(m.heads, h => BiasTerm(m, h, t), d.bias, h => BiasMove(m, d, t, h));
    SumByKey(m.fHeads, m.heads, h => FHead(m, h), h => BiasTerm(m, h, t), s => d.forget(t, s), s => ForgetGrad(m, t, s),
             h => ForgetMove(m, d, t, h));
  }

  lemma DecayMoveCell(m: Rnn, d: Tangent, t: int, h: int)
    ensures DecayMove(m, d, t, h) == RateMove(m, d, t, h) + ForgetMove(m, d, t, h) + BiasMove(m, d, t, h)
  {
    hide DecayGrad, Decay, Rate, Step, Slope, FHead;
    DecayMoveForm(DecayGrad(m, t, h), Decay(m, t, h), Rate(m, h), d.logRate(h), Step(m, t, h), Slope(m, t, h),
                  d.forget(t, FHead(m, h)),
                  d.bias(h));
  }

  // ---- the recurrent weights ----

  ghost function BackCell(m: Rnn, d: Tangent, t: int, r: int, i: int): real {
    Mul(MixBack(m, t, r, i), TState(m, d, t, r, i))
  }

  /** The weights' tangent in row `r`: state entry `i`, output column `j`. */
  ghost function WeightCell(m: Rnn, d: Tangent, t: int, i: int, r: int, j: int): real {
    Mul(State(m, t, r, i), PreGrad(m, t, r, j)) * d.w(WHead(m, Head(m, r)), i, j)
  }

  lemma MixRow(m: Rnn, d: Tangent, t: int, r: int)
    ensures Sum(m.vals, j => ViaMix(m, d, t, r, j))
         == Sum(m.vals, i => BackCell(m, d, t, r, i)) + Sum2(m.vals, m.vals, (i, j) => WeightCell(m, d, t, i, r, j))
  {
    hide Sum, State, TState, PreGrad, Mul, Pair, Pair2, Sum2;
    var s := WHead(m, Head(m, r));
    var gy, ty := (j: int) => PreGrad(m, t, r, j), (j: int) => TMixAt(m, d, t, r, j);
    var x, tx := (i: int) => State(m, t, r, i), (i: int) => TState(m, d, t, r, i);
    var w, tw := (j: int, i: int) => m.w(s, i, j), (j: int, i: int) => d.w(s, i, j);
    var terms, back := (j: int, i: int) => Mul(tx(i), w(j, i))
        + Mul(x(i), tw(j, i)), (i: int, j: int) => Mul(gy(j), w(j, i));
    var gx, gw := (i: int) => MixBack(m, t, r, i), (j: int, i: int) => Mul(gy(j), x(i));
    forall j ensures ty(j) == Row(m.vals, terms, j) {
      var a, b := (i: int) => TMixTerm(m, d, i => State(m, t, r, i), i => TState(m, d, t, r, i), r, j, i),
          (i: int) => terms(j, i);
      SumEq(m.vals, a, b);
    }
    forall i ensures gx(i) == Row(m.vals, back, i) {
      SumEq(m.vals, j => Mul(PreGrad(m, t, r, j), m.w(WHead(m, Head(m, r)), i, j)), j => back(i, j));
    }
    Linear(m.vals, m.vals, gy, x, tx, w, tw, terms, ty, back, gx, gw);
    PairMul(m.vals, gy, ty, j => ViaMix(m, d, t, r, j));
    PairMul(m.vals, gx, tx, i => BackCell(m, d, t, r, i));
    MixWeights(m, d, t, r, gw, tw);
  }

  lemma MixWeights(m: Rnn, d: Tangent, t: int, r: int, gw: (int, int) -> real, tw: (int, int) -> real)
    requires forall j, i {:trigger gw(j, i)} :: gw(j, i) == Mul(PreGrad(m, t, r, j), State(m, t, r, i))
    requires forall j, i {:trigger tw(j, i)} :: tw(j, i) == d.w(WHead(m, Head(m, r)), i, j)
    ensures Pair2(m.vals, m.vals, gw, tw) == Sum2(m.vals, m.vals, (i, j) => WeightCell(m, d, t, i, r, j))
  {
    hide Sum, State, PreGrad, Mul, Sum2;
    var cells, flipped := (j: int, i: int) => gw(j, i) * tw(j, i), (i: int, j: int) => WeightCell(m, d, t, i, r, j);
    forall i, j ensures flipped(i, j) == cells(j, i) {
      MulSwap(PreGrad(m, t, r, j), State(m, t, r, i));
      Factors(gw(j, i), Mul(State(m, t, r, i), PreGrad(m, t, r, j)), tw(j, i), d.w(WHead(m, Head(m, r)), i, j));
    }
    Sum2Swap(m.vals, m.vals, cells, flipped);
  }

  lemma MulSwap(x: real, y: real)
    ensures Mul(x, y) == Mul(y, x)
  {
  }

  /** The weight gradient of row `t` paired with the weights' tangent. */
  ghost function WPair(m: Rnn, d: Tangent, t: int): real { Sum(m.vals, i => WSlice(m, d, t, i)) }

  ghost function WSlice(m: Rnn, d: Tangent, t: int, i: int): real {
    Pair2(m.wHeads, m.vals, (s, j) => WTerm(m, s, i, j, t), (s, j) => d.w(s, i, j))
  }

  lemma WSum(m: Rnn, d: Tangent, t: int)
    ensures Sum(Cells(m), r => Sum2(m.vals, m.vals, (i, j) => WeightCell(m, d, t, i, r, j))) == WPair(m, d, t)
  {
    hide Sum, WeightCell, WSlice, Row;
    var rows := (r: int, i: int) => Sum(m.vals, j => WeightCell(m, d, t, i, r, j));
    var columns := (i: int, r: int) => rows(r, i);
    var outer := (r: int) => Sum2(m.vals, m.vals, (i, j) => WeightCell(m, d, t, i, r, j));
    forall r ensures outer(r) == Row(m.vals, rows, r) {
      WRow(m, d, t, r, i => rows(r, i), rows);
    }
    SumEq(Cells(m), outer, r => Row(m.vals, rows, r));
    Sum2Swap(Cells(m), m.vals, rows, columns);
    forall i ensures Row(Cells(m), columns, i) == WSlice(m, d, t, i) {
      WColumn(m, d, t, i, r => rows(r, i), columns);
    }
    SumEq(m.vals, i => Row(Cells(m), columns, i), i => WSlice(m, d, t, i));
  }

  lemma WRow(m: Rnn, d: Tangent, t: int, r: int, row: int -> real, rows: (int, int) -> real)
    requires forall i {:trigger row(i)} :: row(i) == Sum(m.vals, j => WeightCell(m, d, t, i, r, j))
    requires forall i {:trigger rows(r, i)} :: rows(r, i) == row(i)
    ensures Sum2(m.vals, m.vals, (i, j) => WeightCell(m, d, t, i, r, j)) == Row(m.vals, rows, r)
  {
    hide Sum, WeightCell;
    var f := (i: int, j: int) => WeightCell(m, d, t, i, r, j);
    forall i ensures Row(m.vals, f, i) == row(i) {
      SumEq(m.vals, j => f(i, j), j => WeightCell(m, d, t, i, r, j));
    }
    SumEq(m.vals, i => Row(m.vals, f, i), i => rows(r, i));
  }

  lemma WColumn(m: Rnn, d: Tangent, t: int, i: int, column: int -> real, columns: (int, int) -> real)
    requires forall r {:trigger column(r)} :: column(r) == Sum(m.vals, j => WeightCell(m, d, t, i, r, j))
    requires forall r {:trigger columns(i, r)} :: columns(i, r) == column(r)
    ensures Row(Cells(m), columns, i) == WSlice(m, d, t, i)
  {
    hide Sum, State, PreGrad, Mul, Head, WHead, Pair2;
    var cells := (r: int, j: int) => WeightCell(m, d, t, i, r, j);
    forall r ensures Row(m.vals, cells, r) == columns(i, r) {
      SumEq(m.vals, j => cells(r, j), j => WeightCell(m, d, t, i, r, j));
    }
    SumEq(Cells(m), r => columns(i, r), r => Row(m.vals, cells, r));
    var w := (r: int, j: int) => Mul(State(m, t, r, i), PreGrad(m, t, r, j));
    forall s, j ensures WTerm(m, s, i, j, t) == Keyed(Cells(m), r => WHead(m, Head(m, r)), r => w(r, j), s) {
      KeyedEq(Cells(m), r => WHead(m, Head(m, r)), r => Mul(State(m, t, r, i), PreGrad(m, t, r, j)), r => w(r, j), s);
    }
    KeyedCells(m.wHeads, Cells(m), m.vals, r => WHead(m, Head(m, r)), w, (s, j) => d.w(s, i, j), cells,
               (s, j) => WTerm(m, s, i, j, t));
  }

  lemma MixSum(m: Rnn, d: Tangent, t: int)
    ensures Sum2(Cells(m), m.vals, (r, j) => ViaMix(m, d, t, r, j))
         == Sum2(Cells(m), m.vals, (r, i) => BackCell(m, d, t, r, i)) + WPair(m, d, t)
  {
    hide Sum, ViaMix, BackCell, WeightCell, WPair;
    var mix, back := (r: int, j: int) => ViaMix(m, d, t, r, j), (r: int, i: int) => BackCell(m, d, t, r, i);
    var rows, weights := (r: int) => Row(m.vals, mix, r),
        (r: int) => Sum2(m.vals, m.vals, (i, j) => WeightCell(m, d, t, i, r, j));
    forall r ensures rows(r) == Row(m.vals, back, r) + weights(r) {
      MixRow(m, d, t, r);
      SumEq(m.vals, j => mix(r, j), j => ViaMix(m, d, t, r, j));
      SumEq(m.vals, i => back(r, i), i => BackCell(m, d, t, r, i));
    }
    SumAdd(Cells(m), rows, r => Row(m.vals, back, r), weights);
    SumEq(Cells(m), rows, r => Row(m.vals, mix, r));
    WSum(m, d, t);
  }

  // ---- keys and values ----

  lemma KeySum(m: Rnn, d: Tangent, t: int)
    ensures Sum2(Cells(m), m.vals, (r, j) => ViaKey(m, d, t, r, j))
            == Pair(Slots(m), s => KeyGrad(m, t, s), s => d.key(t, s))
  {
    hide Sum, KeyCell, Slot, KeyRow;
    forall r ensures KeyRow(m, t, r) == Row(m.vals, (r, j) => KeyCell(m, t, r, j), r) {
      KeyRowForm(m, t, r);
    }
    KeyedRows(Slots(m), Cells(m), m.vals, r => Slot(m, r), (r, j) => KeyCell(m, t, r, j), s => d.key(t, s),
              (r, j) => ViaKey(m, d, t, r, j), r => KeyRow(m, t, r), s => KeyGrad(m, t, s));
  }

  lemma KeyRowForm(m: Rnn, t: int, r: int)
    ensures KeyRow(m, t, r) == Row(m.vals, (r, j) => KeyCell(m, t, r, j), r)
  {
    hide Sum, PreGrad, Mul;
    var f := (r: int, j: int) => KeyCell(m, t, r, j);
    SumEq(m.vals, j => Mul(PreGrad(m, t, r, j), m.value(t, VHead(m, Head(m, r)), j)), j => f(r, j));
  }

  lemma ValueSum(m: Rnn, d: Tangent, t: int)
    ensures Sum2(Cells(m), m.vals, (r, j) => ViaValue(m, d, t, r, j))
         == Pair2(m.vHeads, m.vals, (s, j) => DriveValueGrad(m, t, s, j), (s, j) => d.value(t, s, j))
  {
    hide Sum, PreGrad, Mul, Slot, Head, VHead, Pair2;
    var w := (r: int, j: int) => ValueCell(m, t, r, j);
    forall s, j ensures DriveValueGrad(m, t, s, j) == Keyed(Cells(m), r => VHead(m, Head(m, r)), r => w(r, j), s) {
      KeyedEq(Cells(m), r => VHead(m, Head(m, r)), r => Mul(PreGrad(m, t, r, j), m.key(t, Slot(m, r))), r => w(r, j),
              s);
    }
    KeyedCells(m.vHeads, Cells(m), m.vals, r => VHead(m, Head(m, r)), w, (s, j) => d.value(t, s, j),
               (r, j) => ViaValue(m, d, t, r, j),
               (s, j) => DriveValueGrad(m, t, s, j));
  }

  // ---- the carried state ----

  lemma CarrySum(m: Rnn, d: Tangent, t: int)
    requires t < m.rows
    ensures Sum2(Cells(m), m.vals, (r, j) => ViaCarry(m, d, t, r, j))
            + Sum2(Cells(m), m.vals, (r, i) => BackCell(m, d, t, r, i))
         == Pair2(Cells(m), m.vals, (r, i) => StateGrad(m, t, r, i), (r, i) => TState(m, d, t, r, i))
  {
    hide Sum2, StateGrad, TState, Carry, MixBack, Mul;
    var all := (r: int, i: int) => Mul(StateGrad(m, t, r, i), TState(m, d, t, r, i));
    forall r, i ensures all(r, i) == ViaCarry(m, d, t, r, i) + BackCell(m, d, t, r, i) {
      StateGradCarry(m, t, r, i);
      MulAdd(StateGrad(m, t, r, i), Carry(m, t, r, i), MixBack(m, t, r, i), TState(m, d, t, r, i));
    }
    Sum2Add(Cells(m), m.vals, all, (r, j) => ViaCarry(m, d, t, r, j), (r, i) => BackCell(m, d, t, r, i));
    PairsForm(m, all, (r, i) => StateGrad(m, t, r, i), (r, i) => TState(m, d, t, r, i));
  }

  lemma StateGradCarry(m: Rnn, t: int, r: int, i: int)
    requires t < m.rows
    ensures StateGrad(m, t, r, i) == Carry(m, t, r, i) + MixBack(m, t, r, i)
  {
    hide StateGrad, Full, MixBack, Mul, Decay;
    StateGradStep(m, t, r, i);
  }

  lemma PairsForm(m: Rnn, all: (int, int) -> real, a: (int, int) -> real, b: (int, int) -> real)
    requires forall r, i {:trigger all(r, i)} :: all(r, i) == Mul(a(r, i), b(r, i))
    ensures Sum2(Cells(m), m.vals, all) == Pair2(Cells(m), m.vals, a, b)
  {
    hide Sum2;
    Pair2Form(Cells(m), m.vals, a, b, all);
  }
}
