/** The whole M2RNN block's reverse sweep is the exact adjoint of its linearised forward pass. */
module RnnBlockAdjoint {
  import opened Sums
  import opened Stages
  import opened Functions
  import opened Indices
  import opened ProjectionSegments
  import opened RnnModel
  import opened RnnBlockModel
  import opened RnnBlockGradient
  import RmsNorm
  import Up = RnnUpstream
  import G = RnnGradient
  import A = RnnAdjoint

  // ---- output projection and norm ----

  lemma OutStage(b: Block, d: Moves, t: int)
    ensures Pair(b.width, o => b.up(t, o), o => TOut(b, d, t, o))
         == Pair(Features(b), f => PostUp(b, t, f), f => TNormed(b, d, t, f))
            + Pair2(b.width, Features(b), (o, f) => OutWTerm(b, o, f, t), d.outW)
  {
    hide Sum, TNormed, Normed, Mul;
    var terms, back := (o: int, f: int) => TOutTerm(b, d, t, o, f), (f: int, o: int) => Mul(b.up(t, o), b.outW(o, f));
    forall o ensures TOut(b, d, t, o) == Row(Features(b), terms, o) {
      SumEq(Features(b), f => TOutTerm(b, d, t, o, f), f => terms(o, f));
    }
    forall f ensures PostUp(b, t, f) == Row(b.width, back, f) {
      SumEq(b.width, o => Mul(b.up(t, o), b.outW(o, f)), o => back(f, o));
    }
    Linear(b.width, Features(b), o => b.up(t, o), f => Normed(b, t, f), f => TNormed(b, d, t, f), b.outW, d.outW, terms,
           o => TOut(b, d, t, o), back, f => PostUp(b, t, f), (o, f) => OutWTerm(b, o, f, t));
  }

  lemma NormStage(b: Block, d: Moves, t: int)
    ensures Pair(Features(b), f => PostUp(b, t, f), f => TNormed(b, d, t, f))
         == Pair(Features(b), f => PostGrad(b, t, f), f => TPost(b, d, t, f))
            + Pair(Features(b), f => ScaleTerm(b, f, t), d.scale)
  {
    hide Sum, Mul, Pair, TPost, Post, PostUp, RmsNorm.TOut, RmsNorm.XGrad, RmsNorm.WTerm;
    var m, tx := Norm(b), (t: int, f: int) => TPost(b, d, t, f);
    RmsNorm.RowIsAdjoint(m, tx, d.scale, t);
    PairMul(Features(b), f => PostUp(b, t, f), f => TNormed(b, d, t, f),
            i => Mul(m.up(t, i), RmsNorm.TOut(m, tx, d.scale, t, i)));
    var moves := (f: int) => Mul(PostGrad(b, t, f), TPost(b, d, t, f));
    PairMul(Features(b), i => RmsNorm.XGrad(m, t, i), i => tx(t, i), moves);
    PairMul(Features(b), f => PostGrad(b, t, f), f => TPost(b, d, t, f), moves);
    PairEq(Features(b), f => ScaleTerm(b, f, t), i => RmsNorm.WTerm(m, t, i), d.scale);
  }

  // ---- gate ----

  lemma GateForm(g: real, y: real, ty: real, silu: real, slope: real, tz: real)
    ensures Mul(g, Mul(ty, silu) + Mul(y, Mul(slope, tz))) == Mul(Mul(g, silu), ty) + Mul(Mul(Mul(g, y), slope), tz)
  {
  }

  /** The gate: what the readouts and the gate projections get. */
  lemma GateStage(b: Block, d: Moves, t: int)
    ensures Pair(Features(b), f => PostGrad(b, t, f), f => TPost(b, d, t, f))
         == Sum(Features(b), f => Mul(ReadUp(b, t, f), TReadout(b, d, t, f)))
            + Sum(Features(b), f => Mul(GateGrad(b, t, f), TProj(b, d, t, GateAt(b) + f)))
  {
    hide Sum, Mul, PostGrad, Readout, TReadout, TProj, Gate, Silu, DSilu;
    var all := (f: int) => Mul(PostGrad(b, t, f), TPost(b, d, t, f));
    var inner, gates := (f: int) => Mul(ReadUp(b, t, f), TReadout(b, d, t, f)),
        (f: int) => Mul(GateGrad(b, t, f), TProj(b, d, t, GateAt(b) + f));
    forall f ensures all(f) == inner(f) + gates(f) {
      GateForm(PostGrad(b, t, f), Readout(b, t, f), TReadout(b, d, t, f), Silu(b.fns, Gate(b, t, f)),
               DSilu(b.fns, Gate(b, t, f)), TProj(b, d, t, GateAt(b) + f));
    }
    PairMul(Features(b), f => PostGrad(b, t, f), f => TPost(b, d, t, f), all);
    SumAdd(Features(b), all, inner, gates);
  }

  // ---- features are heads and columns ----

  lemma ReadCell(b: Block, d: Moves, t: int, h: int, j: int)
    requires 0 <= j < b.vals
    ensures Mul(ReadUp(b, t, h * b.vals + j), TReadout(b, d, t, h * b.vals + j))
            == Mul(Core(b).up(t, h, j), G.TRead(Core(b), Inner(b, d), t, h, j))
  {
    hide Mul, ReadUp, Plain, Inner, G.TRead;
    DivMod(h, j, b.vals);
    SameInner(b);
    Up.TReadUp(Plain(b), Core(b), Inner(b, d), t, h, j);
  }

  lemma SameInner(b: Block)
    ensures Up.SameForward(Plain(b), Core(b))
  {
    hide Plain, ReadUp;
  }

  lemma ReadSum(b: Block, d: Moves, t: int)
    ensures Sum(Features(b), f => Mul(ReadUp(b, t, f), TReadout(b, d, t, f))) == A.ReadPair(Core(b), Inner(b, d), t)
  {
    hide Sum, Mul, ReadUp, TReadout, G.TRead, Inner;
    var m, dm := Core(b), Inner(b, d);
    var flat := (f: int) => Mul(ReadUp(b, t, f), TReadout(b, d, t, f));
    var cells := (h: int, j: int) => Mul(m.up(t, h, j), G.TRead(m, dm, t, h, j));
    SumFlatten(b.heads, b.vals, flat);
    var rows := (h: int) => Sum(b.vals, j => flat(h * b.vals + j));
    forall h ensures rows(h) == Row(b.vals, cells, h) {
      forall j | 0 <= j < b.vals ensures flat(h * b.vals + j) == cells(h, j) {
        ReadCell(b, d, t, h, j);
      }
      SumEq(b.vals, j => flat(h * b.vals + j), j => cells(h, j));
    }
    SumEq(b.heads, rows, h => Row(b.vals, cells, h));
    Pair2Mul(b.heads, b.vals, (h, j) => m.up(t, h, j), (h, j) => G.TRead(m, dm, t, h, j), cells);
  }

  // ---- the recurrence's inputs are the convolution's channels and the forget projections ----

  ghost function ConvMove(b: Block, d: Moves, t: int, c: int): real { Mul(ConvGrad(b, t, c), TConv(b, d, t, c)) }

  ghost function ForgetMove(b: Block, d: Moves, t: int, s: int): real {
    Mul(G.ForgetGrad(Core(b), t, s), TProj(b, d, t, Channels(b) + s))
  }

  lemma InputStage(b: Block, d: Moves, t: int)
    ensures A.InputPairs(Core(b), Inner(b, d), t)
         == Sum(Channels(b), c => ConvMove(b, d, t, c)) + Sum(b.fHeads, s => ForgetMove(b, d, t, s))
  {
    hide Sum, Mul, Inner, Plain, ConvMove, ForgetMove, ReadUp, G.QueryGrad, G.KeyGrad, G.ValueGrad, G.ForgetGrad, Pair,
         Pair2;
    CoreForm(b);
    var move := (c: int) => ConvMove(b, d, t, c);
    SumSplit(ValueAt(b), b.vHeads * b.vals, move);
    SumSplit(KeyAt(b), KeyAt(b), move);
    QueryMoves(b, d, t, move);
    KeyMoves(b, d, t, s => move(KeyAt(b) + s));
    ValueMoves(b, d, t, i => move(ValueAt(b) + i));
    ForgetMoves(b, d, t);
  }

  lemma QueryMoves(b: Block, d: Moves, t: int, moves: int -> real)
    requires forall s {:trigger moves(s)} :: moves(s) == ConvMove(b, d, t, s)
    ensures Sum(KeyAt(b), moves)
            == Pair(Slots(Core(b)), s => G.QueryGrad(Core(b), t, s), s => Inner(b, d).query(t, s))
  {
    hide Sum, Mul, TConv, Inner, Plain, Core, G.QueryGrad;
    var m, dm := Core(b), Inner(b, d);
    CoreForm(b);
    forall s | 0 <= s < KeyAt(b) ensures moves(s) == Mul(G.QueryGrad(m, t, s), dm.query(t, s)) {
      InnerForm(b, d, t, s, 0);
    }
    PairMul(KeyAt(b), s => G.QueryGrad(m, t, s), s => dm.query(t, s), moves);
  }

  lemma KeyMoves(b: Block, d: Moves, t: int, moves: int -> real)
    requires forall s {:trigger moves(s)} :: moves(s) == ConvMove(b, d, t, KeyAt(b) + s)
    ensures Sum(KeyAt(b), moves)
            == Pair(Slots(Core(b)), s => G.KeyGrad(Core(b), t, s), s => Inner(b, d).key(t, s))
  {
    hide Sum, Mul, TConv, Inner, Plain, Core, G.KeyGrad;
    var m, dm := Core(b), Inner(b, d);
    CoreForm(b);
    forall s | 0 <= s < KeyAt(b) ensures moves(s) == Mul(G.KeyGrad(m, t, s), dm.key(t, s)) {
      InnerForm(b, d, t, s, 0);
      assert KeyAt(b) + s - KeyAt(b) == s;
    }
    PairMul(KeyAt(b), s => G.KeyGrad(m, t, s), s => dm.key(t, s), moves);
  }

  lemma ValueMoves(b: Block, d: Moves, t: int, moves: int -> real)
    requires forall i {:trigger moves(i)} :: moves(i) == ConvMove(b, d, t, ValueAt(b) + i)
    ensures Sum(b.vHeads * b.vals, moves)
            == Pair2(b.vHeads, b.vals, (s, j) => G.ValueGrad(Core(b), t, s, j), (s, j) => Inner(b, d).value(t, s, j))
  {
    hide Sum, Mul, ConvMove, Inner, Plain, Core, G.ValueGrad;
    var m, dm := Core(b), Inner(b, d);
    var cells := (s: int, j: int) => Mul(G.ValueGrad(m, t, s, j), dm.value(t, s, j));
    SumFlatten(b.vHeads, b.vals, moves);
    var rows := (s: int) => Sum(b.vals, j => moves(s * b.vals + j));
    forall s | 0 <= s ensures rows(s) == Row(b.vals, cells, s) {
      forall j | 0 <= j < b.vals ensures moves(s * b.vals + j) == cells(s, j) {
        ValueMove(b, d, t, s, j);
      }
      SumEq(b.vals, j => moves(s * b.vals + j), j => cells(s, j));
    }
    SumEq(b.vHeads, rows, s => Row(b.vals, cells, s));
    Pair2Mul(b.vHeads, b.vals, (s, j) => G.ValueGrad(m, t, s, j), (s, j) => dm.value(t, s, j), cells);
  }

  lemma ValueMove(b: Block, d: Moves, t: int, s: nat, j: int)
    requires 0 <= j < b.vals
    ensures ConvMove(b, d, t, ValueAt(b) + (s * b.vals + j))
            == Mul(G.ValueGrad(Core(b), t, s, j), Inner(b, d).value(t, s, j))
  {
    hide Mul, TConv, Inner, Plain, Core, G.ValueGrad;
    InnerForm(b, d, t, s, j);
    DivMod(s, j, b.vals);
    assert 0 <= s * b.vals + j;
    assert ValueAt(b) + (s * b.vals + j) == ValueAt(b) + s * b.vals + j;
  }

  lemma ForgetMoves(b: Block, d: Moves, t: int)
    ensures Sum(b.fHeads, s => ForgetMove(b, d, t, s))
            == Pair(b.fHeads, s => G.ForgetGrad(Core(b), t, s), s => Inner(b, d).forget(t, s))
  {
    hide Sum, Mul, TProj, Inner, Plain, Core, Channels, G.ForgetGrad;
    var m, dm, moves := Core(b), Inner(b, d), (s: int) => ForgetMove(b, d, t, s);
    forall s ensures moves(s) == Mul(G.ForgetGrad(m, t, s), dm.forget(t, s)) {
      ForgetForm(b, d, t, s);
    }
    PairMul(b.fHeads, s => G.ForgetGrad(m, t, s), s => dm.forget(t, s), moves);
  }

  lemma CoreForm(b: Block)
    ensures Slots(Core(b)) == KeyAt(b)
    ensures Core(b).rows == b.rows && Core(b).heads == b.heads && Core(b).vals == b.vals && Core(b).vHeads == b.vHeads
            && Core(b).fHeads == b.fHeads
  {
    hide ReadUp, Shared;
  }

  lemma InnerForm(b: Block, d: Moves, t: int, s: int, j: int)
    ensures Inner(b, d).query(t, s) == TConv(b, d, t, s) && Inner(b, d).key(t, s) == TConv(b, d, t, KeyAt(b) + s)
    ensures Inner(b, d).value(t, s, j) == TConv(b, d, t, ValueAt(b) + s * b.vals + j)
  {
    hide TConv, TProj, KeyAt, ValueAt, Channels;
  }

  lemma ForgetForm(b: Block, d: Moves, t: int, s: int)
    ensures Inner(b, d).forget(t, s) == TProj(b, d, t, Channels(b) + s)
  {
    hide TConv, TProj, KeyAt, ValueAt, Channels;
  }

  // ---- the convolution ----

  /** What channel `c` sends through tap `k` to the projection it read. */
  ghost function TapMove(b: Block, d: Moves, t: int, k: int, c: int): real {
    Mul(TapCoef(b, t, k, c), TTap(b, d, t, k, c))
  }

  ghost function TapSum(b: Block, d: Moves, t: int, k: int): real { Sum(Channels(b), c => TapMove(b, d, t, k, c)) }

  lemma ConvFactor(b: Block, d: Moves, t: int, c: int)
    ensures ConvMove(b, d, t, c) == Mul(ConvPreGrad(b, t, c), TConvPre(b, d, t, c))
  {
    hide ConvGrad, DSilu, ConvPre, TConvPre;
  }

  lemma TapForm(g: real, tTap: real, w: real, tap: real, tw: real)
    ensures Mul(g, Mul(tTap, w) + Mul(tap, tw)) == Mul(Mul(g, w), tTap) + Mul(Mul(g, tap), tw)
  {
  }

  lemma ConvCell(b: Block, d: Moves, t: int, c: int)
    ensures ConvMove(b, d, t, c)
         == Mul(ConvBTerm(b, c, t), d.convB(c)) + Sum(TAPS + 1, k => TapMove(b, d, t, k, c))
            + Sum(TAPS + 1, k => Mul(ConvWTerm(b, c, k, t), d.convW(c, k)))
  {
    hide Sum, Mul, ConvMove, ConvPreGrad, TTap, Tap;
    var g := ConvPreGrad(b, t, c);
    ConvFactor(b, d, t, c);
    var terms, all := (k: int) => TConvTerm(b, d, t, c, k), (k: int) => Mul(g, TConvTerm(b, d, t, c, k));
    var taps, weights := (k: int) => TapMove(b, d, t, k, c), (k: int) => Mul(ConvWTerm(b, c, k, t), d.convW(c, k));
    forall k ensures all(k) == taps(k) + weights(k) {
      TapForm(g, TTap(b, d, t, k, c), b.convW(c, k), Tap(b, t, k, c), d.convW(c, k));
    }
    SumAdd(TAPS + 1, all, taps, weights);
    SumScaleMul(TAPS + 1, all, g, terms);
    Spread(g, d.convB(c), Sum(TAPS + 1, terms));
  }

  lemma Spread(g: real, x: real, y: real)
    ensures Mul(g, x + y) == Mul(g, x) + Mul(g, y)
  {
  }

  /** Every channel's convolution: what reaches the projections, tap by tap, and the parameters. */
  lemma ConvStage(b: Block, d: Moves, t: int)
    ensures Sum(Channels(b), c => ConvMove(b, d, t, c))
         == Pair(Channels(b), c => ConvBTerm(b, c, t), d.convB)
            + Sum(TAPS + 1, k => TapSum(b, d, t, k))
            + Pair2(Channels(b), TAPS + 1, (c, k) => ConvWTerm(b, c, k, t), d.convW)
  {
    hide Sum, Mul, ConvMove, ConvBTerm, ConvWTerm, TapMove, Channels;
    var n := Channels(b);
    var cells, weights := (c: int, k: int) => TapMove(b, d, t, k, c),
        (c: int, k: int) => Mul(ConvWTerm(b, c, k, t), d.convW(c, k));
    var bias := (c: int) => Mul(ConvBTerm(b, c, t), d.convB(c));
    var all := (c: int) => ConvMove(b, d, t, c);
    var tapRows, weightRows := (c: int) => Row(TAPS + 1, cells, c), (c: int) => Row(TAPS + 1, weights, c);
    forall c ensures all(c) == bias(c) + tapRows(c) + weightRows(c) {
      ConvCell(b, d, t, c);
      SumEq(TAPS + 1, k => cells(c, k), k => TapMove(b, d, t, k, c));
      SumEq(TAPS + 1, k => weights(c, k), k => Mul(ConvWTerm(b, c, k, t), d.convW(c, k)));
    }
    SumAdd3(n, all, bias, tapRows, weightRows);
    PairMul(n, c => ConvBTerm(b, c, t), d.convB, bias);
    Pair2Mul(n, TAPS + 1, (c, k) => ConvWTerm(b, c, k, t), d.convW, weights);
    var byTap := (k: int, c: int) => TapMove(b, d, t, k, c);
    Sum2Swap(n, TAPS + 1, cells, byTap);
    forall k ensures Row(n, byTap, k) == TapSum(b, d, t, k) {
      SumEq(n, c => byTap(k, c), c => TapMove(b, d, t, k, c));
    }
    SumEq(TAPS + 1, k => Row(n, byTap, k), k => TapSum(b, d, t, k));
  }

  // ---- the projection ----

  ghost function OwnMove(b: Block, d: Moves, t: int, p: int): real { Mul(ProjGrad(b, t, p), TProj(b, d, t, p)) }

  /** The row's own projection collects the convolution's last tap, the forget projections and the gates. */
  lemma OwnStage(b: Block, d: Moves, t: nat)
    ensures SegMove(In(b, d), Back(b, t, TAPS))
         == TapSum(b, d, t, TAPS) + Sum(b.fHeads, s => ForgetMove(b, d, t, s))
            + Sum(Features(b), f => Mul(GateGrad(b, t, f), TProj(b, d, t, GateAt(b) + f)))
  {
    hide Sum, Mul, TapMove, ForgetMove, GateGrad, OwnMove, Channels, Features;
    var move := (p: int) => OwnMove(b, d, t, p);
    OwnForm(b, d, t, move);
    SumSplit(GateAt(b), Features(b), move);
    SumSplit(Channels(b), b.fHeads, move);
    var own, forget := (c: int) => TapMove(b, d, t, TAPS, c), (s: int) => ForgetMove(b, d, t, s);
    var gate := (f: int) => Mul(GateGrad(b, t, f), TProj(b, d, t, GateAt(b) + f));
    var atForget, atGate := (s: int) => move(Channels(b) + s), (f: int) => move(GateAt(b) + f);
    forall p | 0 <= p < Channels(b) ensures move(p) == own(p) {
      OwnTap(b, d, t, p);
    }
    SumEq(Channels(b), move, own);
    forall s | 0 <= s < b.fHeads ensures atForget(s) == forget(s) {
      OwnForget(b, d, t, s);
    }
    SumEq(b.fHeads, atForget, forget);
    forall f | 0 <= f ensures atGate(f) == gate(f) {
      OwnGate(b, d, t, f);
    }
    SumEq(Features(b), atGate, gate);
  }

  lemma OwnForm(b: Block, d: Moves, t: int, move: int -> real)
    requires forall p {:trigger move(p)} :: move(p) == OwnMove(b, d, t, p)
    ensures SegMove(In(b, d), Back(b, t, TAPS)) == Sum(Dims(b), move)
  {
    hide Sum, Mul, ProjGrad, Move, Dims;
    var s := Back(b, t, TAPS);
    SumEq(Dims(b), q => Mul(s.coef(q), Move(In(b, d), s.row, s.at + q)), move);
  }

  lemma OwnTap(b: Block, d: Moves, t: nat, c: int)
    requires c < Channels(b)
    ensures OwnMove(b, d, t, c) == TapMove(b, d, t, TAPS, c)
  {
    hide Mul, TapCoef, TProj, Channels;
  }

  lemma OwnForget(b: Block, d: Moves, t: int, s: int)
    requires 0 <= s < b.fHeads
    ensures OwnMove(b, d, t, Channels(b) + s) == ForgetMove(b, d, t, s)
  {
    hide Mul, TapCoef, TProj, Channels, G.ForgetGrad;
    assert Channels(b) + s - Channels(b) == s;
  }

  lemma OwnGate(b: Block, d: Moves, t: int, f: nat)
    ensures OwnMove(b, d, t, GateAt(b) + f) == Mul(GateGrad(b, t, f), TProj(b, d, t, GateAt(b) + f))
  {
    hide Mul, TapCoef, TProj, GateGrad, Channels;
    assert GateAt(b) + f - GateAt(b) == f;
  }

  /** An earlier tap reaches a row only if there is one. */
  lemma TapStage(b: Block, d: Moves, t: int, k: int)
    requires k < TAPS
    ensures TapSum(b, d, t, k) == SegMove(In(b, d), Back(b, t, k))
  {
    hide Sum, Mul, TapCoef, Move, Channels;
    var s, all := Back(b, t, k), (c: int) => TapMove(b, d, t, k, c);
    if s.on {
      SumEq(Channels(b), all, q => Mul(s.coef(q), Move(In(b, d), s.row, s.at + q)));
    } else {
      forall c ensures all(c) == 0.0 {
        MulZero(TapCoef(b, t, k, c));
      }
      SumZero(Channels(b), all);
    }
  }

  /** All that row `t` pairs with projections is what it scatters. */
  lemma RowScatter(b: Block, d: Moves, t: nat)
    requires t < b.rows
    ensures SegsMove(In(b, d), TAPS + 1, Backs(b, t))
         == Pair2(b.rows, b.width, (r, i) => HiddenTerm(b, r, i, t), d.u)
            + Pair2(Dims(b), b.width, (p, i) => InWTerm(b, p, i, t), d.inW)
  {
    hide Sum, Sum2, SegMove, SegsMove, SegsInput, SegsWeight, TapCoef, ProjGrad;
    SegTotal(In(b, d), Dims(b), TAPS + 1, Backs(b, t));
    Pair2Eq(b.rows, b.width, (r, i) => SegsInput(b.inW, TAPS + 1, Backs(b, t), r, i), d.u,
            (r, i) => HiddenTerm(b, r, i, t), d.u);
    Pair2Eq(Dims(b), b.width, (p, i) => SegsWeight(b.u, TAPS + 1, Backs(b, t), p, i), d.inW,
            (p, i) => InWTerm(b, p, i, t), d.inW);
  }

  // ---- one row ----

  /** The upstream gradient paired with the tangent of output row `t`. */
  ghost function OutPair(b: Block, d: Moves, t: int): real { Pair(b.width, o => b.up(t, o), o => TOut(b, d, t, o)) }

  /** What row `t` adds to the gradients, other than the recurrence's, paired with the tangents. */
  ghost function RowPairs(b: Block, d: Moves, t: int): real {
    Pair2(b.rows, b.width, (r, i) => HiddenTerm(b, r, i, t), d.u)
    + Pair2(Dims(b), b.width, (p, i) => InWTerm(b, p, i, t), d.inW)
    + Pair2(Channels(b), TAPS + 1, (c, k) => ConvWTerm(b, c, k, t), d.convW)
    + Pair(Channels(b), c => ConvBTerm(b, c, t), d.convB)
    + Pair(Features(b), f => ScaleTerm(b, f, t), d.scale)
    + Pair2(b.width, Features(b), (o, f) => OutWTerm(b, o, f, t), d.outW)
  }

  lemma TapsTotal(b: Block, d: Moves, t: nat)
    ensures Sum(TAPS + 1, k => TapSum(b, d, t, k))
         == SegsMove(In(b, d), TAPS, Backs(b, t)) + TapSum(b, d, t, TAPS)
  {
    hide TapSum, SegMove, Back, Channels;
    var taps := (k: int) => TapSum(b, d, t, k);
    var moves := (k: int) => SegMove(In(b, d), Backs(b, t)(k));
    forall k | 0 <= k < TAPS ensures taps(k) == moves(k) {
      TapStage(b, d, t, k);
      assert Backs(b, t)(k) == Back(b, t, k);
    }
    SumEq(TAPS, taps, moves);
  }

  /** What the recurrence does not account for: what its inputs get, and the output side, are row `t`'s terms. */
  lemma RowStage(b: Block, d: Moves, t: nat)
    requires t < b.rows
    ensures OutPair(b, d, t) + A.InputPairs(Core(b), Inner(b, d), t)
         == A.ReadPair(Core(b), Inner(b, d), t) + RowPairs(b, d, t)
  {
    hide Sum, Pair, Pair2, TapSum, SegMove, Back, ForgetMove, ConvMove, GateGrad, TProj, A.InputPairs, A.ReadPair,
         Channels, Features, Dims;
    OutStage(b, d, t);
    NormStage(b, d, t);
    GateStage(b, d, t);
    ReadSum(b, d, t);
    InputStage(b, d, t);
    ConvStage(b, d, t);
    TapsTotal(b, d, t);
    OwnStage(b, d, t);
    SegsStep(In(b, d), TAPS, Backs(b, t));
    RowScatter(b, d, t);
  }

  // ---- all rows ----

  /** The gradients, other than the recurrence's, once all rows have been reversed. */
  ghost function GradPairs(b: Block, d: Moves): real {
    Pair2(b.rows, b.width, (r, i) => HiddenGrad(b, 0, r, i), d.u)
    + Pair2(Dims(b), b.width, (p, i) => InWGrad(b, 0, p, i), d.inW)
    + Pair2(Channels(b), TAPS + 1, (c, k) => ConvWGrad(b, 0, c, k), d.convW)
    + Pair(Channels(b), c => ConvBGrad(b, 0, c), d.convB)
    + Pair(Features(b), f => ScaleGrad(b, 0, f), d.scale)
    + Pair2(b.width, Features(b), (o, f) => OutWGrad(b, 0, o, f), d.outW)
  }

  /** The recurrence's parameters and its initial state. */
  ghost function CorePairs(m: Rnn, d: Moves, dm: G.Tangent): real {
    A.WTotalPair(m, dm) + Pair(m.heads, h => G.RateGrad(m, 0, h), d.logRate)
    + Pair(m.heads, h => G.BiasGrad(m, 0, h), d.bias)
    + Pair2(m.heads, m.vals, (h, j) => G.SkipGrad(m, 0, h, j), d.skip)
    + Pair2(Cells(m), m.vals, (r, i) => G.StateGrad(m, 0, r, i), d.h0)
  }

  lemma MatrixTotals(b: Block, d: Moves)
    ensures Sum(b.rows, t => Pair2(b.rows, b.width, (r, i) => HiddenTerm(b, r, i, t), d.u))
         == Pair2(b.rows, b.width, (r, i) => HiddenGrad(b, 0, r, i), d.u)
    ensures Sum(b.rows, t => Pair2(Dims(b), b.width, (p, i) => InWTerm(b, p, i, t), d.inW))
         == Pair2(Dims(b), b.width, (p, i) => InWGrad(b, 0, p, i), d.inW)
  {
    hide Sum, SumFrom, Pair2, Dims, HiddenTerm, InWTerm;
    Rows2Total(b.rows, b.rows, b.width, t => (r, i) => HiddenTerm(b, r, i, t), (r, i) => t => HiddenTerm(b, r, i, t),
               (r, i) => HiddenGrad(b, 0, r, i), d.u,
               t => Pair2(b.rows, b.width, (r, i) => HiddenTerm(b, r, i, t), d.u));
    Rows2Total(b.rows, Dims(b), b.width, t => (p, i) => InWTerm(b, p, i, t), (p, i) => t => InWTerm(b, p, i, t),
               (p, i) => InWGrad(b, 0, p, i), d.inW,
               t => Pair2(Dims(b), b.width, (p, i) => InWTerm(b, p, i, t), d.inW));
  }

  lemma WeightTotals(b: Block, d: Moves)
    ensures Sum(b.rows, t => Pair2(Channels(b), TAPS + 1, (c, k) => ConvWTerm(b, c, k, t), d.convW))
         == Pair2(Channels(b), TAPS + 1, (c, k) => ConvWGrad(b, 0, c, k), d.convW)
    ensures Sum(b.rows, t => Pair2(b.width, Features(b), (o, f) => OutWTerm(b, o, f, t), d.outW))
         == Pair2(b.width, Features(b), (o, f) => OutWGrad(b, 0, o, f), d.outW)
  {
    hide Sum, SumFrom, Pair2, Channels, Features, ConvWTerm, OutWTerm;
    Rows2Total(b.rows, Channels(b), TAPS + 1, t => (c, k) => ConvWTerm(b, c, k, t),
               (c, k) => t => ConvWTerm(b, c, k, t),
               (c, k) => ConvWGrad(b, 0, c, k), d.convW,
               t => Pair2(Channels(b), TAPS + 1, (c, k) => ConvWTerm(b, c, k, t), d.convW));
    Rows2Total(b.rows, b.width, Features(b), t => (o, f) => OutWTerm(b, o, f, t), (o, f) => t => OutWTerm(b, o, f, t),
               (o, f) => OutWGrad(b, 0, o, f), d.outW,
               t => Pair2(b.width, Features(b), (o, f) => OutWTerm(b, o, f, t), d.outW));
  }

  lemma VectorTotals(b: Block, d: Moves)
    ensures Sum(b.rows, t => Pair(Channels(b), c => ConvBTerm(b, c, t), d.convB))
         == Pair(Channels(b), c => ConvBGrad(b, 0, c), d.convB)
    ensures Sum(b.rows, t => Pair(Features(b), f => ScaleTerm(b, f, t), d.scale))
         == Pair(Features(b), f => ScaleGrad(b, 0, f), d.scale)
  {
    hide Sum, SumFrom, Pair, Channels, Features, ConvBTerm, ScaleTerm;
    RowsTotal(b.rows, Channels(b), t => c => ConvBTerm(b, c, t), c => t => ConvBTerm(b, c, t), c => ConvBGrad(b, 0, c),
              d.convB, t => Pair(Channels(b), c => ConvBTerm(b, c, t), d.convB));
    RowsTotal(b.rows, Features(b), t => f => ScaleTerm(b, f, t), f => t => ScaleTerm(b, f, t), f => ScaleGrad(b, 0, f),
              d.scale, t => Pair(Features(b), f => ScaleTerm(b, f, t), d.scale));
  }

  lemma AllRows(b: Block, d: Moves)
    ensures Sum(b.rows, t => RowPairs(b, d, t)) == GradPairs(b, d)
  {
    hide Sum, Pair, Pair2, Dims, Channels, Features;
    var u, w := (t: int) => Pair2(b.rows, b.width, (r, i) => HiddenTerm(b, r, i, t), d.u),
        (t: int) => Pair2(Dims(b), b.width, (p, i) => InWTerm(b, p, i, t), d.inW);
    var c := (t: int) => Pair2(Channels(b), TAPS + 1, (c, k) => ConvWTerm(b, c, k, t), d.convW);
    var e, s := (t: int) => Pair(Channels(b), c => ConvBTerm(b, c, t), d.convB),
        (t: int) => Pair(Features(b), f => ScaleTerm(b, f, t), d.scale);
    var o := (t: int) => Pair2(b.width, Features(b), (o, f) => OutWTerm(b, o, f, t), d.outW);
    var matrices, rest := (t: int) => u(t) + w(t) + c(t), (t: int) => e(t) + s(t) + o(t);
    SumAdd3(b.rows, matrices, u, w, c);
    SumAdd3(b.rows, rest, e, s, o);
    SumAdd(b.rows, t => RowPairs(b, d, t), matrices, rest);
    MatrixTotals(b, d);
    WeightTotals(b, d);
    VectorTotals(b, d);
  }

  lemma Around(b: Block, d: Moves)
    ensures Sum(b.rows, t => OutPair(b, d, t)) + Sum(b.rows, t => A.InputPairs(Core(b), Inner(b, d), t))
         == Sum(b.rows, t => A.ReadPair(Core(b), Inner(b, d), t)) + GradPairs(b, d)
  {
    hide Sum, OutPair, RowPairs, GradPairs, Core, Inner, A.InputPairs, A.ReadPair;
    var m, dm := Core(b), Inner(b, d);
    var outs, inputs := (t: int) => OutPair(b, d, t), (t: int) => A.InputPairs(m, dm, t);
    var readouts, rows := (t: int) => A.ReadPair(m, dm, t), (t: int) => RowPairs(b, d, t);
    var left := (t: int) => outs(t) + inputs(t);
    forall t | 0 <= t < b.rows ensures left(t) == readouts(t) + rows(t) {
      RowStage(b, d, t);
    }
    SumAdd(b.rows, left, outs, inputs);
    SumAdd(b.rows, left, readouts, rows);
    AllRows(b, d);
    SumEq(b.rows, inputs, t => A.InputPairs(Core(b), Inner(b, d), t));
    SumEq(b.rows, readouts, t => A.ReadPair(Core(b), Inner(b, d), t));
  }

  /** The reverse sweep is the exact adjoint of the whole block: for every saved history, every upstream gradient
      and every tangent of the hidden rows, of each parameter and of the initial state, pairing the upstream
      gradient with the tangent of the output over all rows is pairing the accumulated gradients with the tangents. */
  lemma BlockIsAdjoint(b: Block, d: Moves)
    ensures Sum(b.rows, t => Pair(b.width, o => b.up(t, o), o => TOut(b, d, t, o)))
         == GradPairs(b, d) + CorePairs(Core(b), d, Inner(b, d))
  {
    hide Sum, Pair, Pair2, GradPairs, A.InputPairs, A.ReadPair, A.WTotalPair, Plain, ReadUp, Cells, TOut;
    var m, dm := Core(b), Inner(b, d);
    CoreForm(b);
    Around(b, d);
    A.SweepIsAdjoint(m, dm);
    SumEq(b.rows, t => OutPair(b, d, t), t => Pair(b.width, o => b.up(t, o), o => TOut(b, d, t, o)));
  }
}
