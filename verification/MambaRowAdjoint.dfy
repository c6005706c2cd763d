/** One iteration of the reverse loop: the row's whole step, reversed. */
module MambaRowAdjoint {
  import opened Sums
  import opened Stages
  import opened Functions
  import opened MambaModel
  import opened MambaTangent
  import opened MambaGradient
  import opened MambaNormAdjoint
  import opened MambaHeadAdjoint
  import MambaScanAdjoint
  import MambaRotationAdjoint

  // ---- output projection and gate ----

  lemma OutStage(m: Block, d: Tangent, t: int)
    ensures Pair(m.width, o => m.up(t, o), o => TOut(m, d, t, o))
         == Pair(m.features, f => GatedGrad(m, t, f), f => TGated(m, d, t, f))
            + Pair2(m.width, m.features, (o, f) => OutWTerm(m, o, f, t), d.outW)
  {
    hide Sum, TGated, Gated;
    var terms, back := (o: int, f: int) => TOutTerm(m, d, t, o, f), (f: int, o: int) => Mul(m.up(t, o), m.outW(o, f));
    forall o, f ensures terms(o, f) == Mul(TGated(m, d, t, f), m.outW(o, f)) + Mul(Gated(m, t, f), d.outW(o, f)) {
    }
    forall f, o ensures back(f, o) == m.up(t, o) * m.outW(o, f) {
      assert back(f, o) == Mul(m.up(t, o), m.outW(o, f));
    }
    var gw := (o: int, f: int) => OutWTerm(m, o, f, t);
    forall o, f ensures gw(o, f) == Mul(m.up(t, o), Gated(m, t, f)) {
    }
    forall o ensures TOut(m, d, t, o) == Row(m.features, terms, o) {
      SumEq(m.features, f => TOutTerm(m, d, t, o, f), f => terms(o, f));
    }
    forall f ensures GatedGrad(m, t, f) == Row(m.width, back, f) {
      SumEq(m.width, o => m.up(t, o) * m.outW(o, f), o => back(f, o));
    }
    Linear(m.width, m.features, o => m.up(t, o), f => Gated(m, t, f), f => TGated(m, d, t, f), m.outW, d.outW, terms,
           o => TOut(m, d, t, o), back, f => GatedGrad(m, t, f), gw);
  }

  lemma GateCell(m: Block, d: Tangent, t: int, f: int)
    ensures Mul(GatedGrad(m, t, f), TGated(m, d, t, f))
         == Mul(ScanOutGrad(m, t, f), TScanOut(m, d, t, f)) + Mul(GateGrad(m, t, f), TProj(m, d, t, f))
  {
    hide GatedGrad, TScanOut, TProj, Proj, Sigmoid, ScanOut;
    GateForm(GatedGrad(m, t, f), TScanOut(m, d, t, f), TProj(m, d, t, f), Proj(m, t, f), Sigmoid(m.fns, Proj(m, t, f)),
             ScanOut(m, t, f));
  }

  lemma GateForm(g: real, ty: real, tz: real, z: real, s: real, y: real)
    ensures Mul(g, ty * (z * s) + y * ((s * (1.0 + z * (1.0 - s))) * tz))
         == Mul(g * z * s, ty) + Mul(g * y * s * (1.0 + z * (1.0 - s)), tz)
  {
  }

  lemma GateStage(m: Block, d: Tangent, t: int)
    ensures Pair(m.features, f => GatedGrad(m, t, f), f => TGated(m, d, t, f))
         == Pair(m.features, f => ScanOutGrad(m, t, f), f => TScanOut(m, d, t, f))
            + Pair(m.features, f => GateGrad(m, t, f), f => TProj(m, d, t, f))
  {
    hide Sum, Mul, GatedGrad, TGated, ScanOutGrad, TScanOut, GateGrad, TProj;
    var x, y := (f: int) => Mul(GatedGrad(m, t, f), TGated(m, d, t, f)),
        (f: int) => Mul(ScanOutGrad(m, t, f), TScanOut(m, d, t, f));
    var z := (f: int) => Mul(GateGrad(m, t, f), TProj(m, d, t, f));
    forall f ensures x(f) == y(f) + z(f) {
      GateCell(m, d, t, f);
    }
    SumAdd(m.features, x, y, z);
    PairMul(m.features, f => GatedGrad(m, t, f), f => TGated(m, d, t, f), x);
    PairMul(m.features, f => ScanOutGrad(m, t, f), f => TScanOut(m, d, t, f), y);
    PairMul(m.features, f => GateGrad(m, t, f), f => TProj(m, d, t, f), z);
  }

  // ---- B and C sides ----

  ghost function BSide(m: Block, d: Tangent, t: int): Side {
    Side(BAt(m), m.bScale, d.bScale, d.bBias, (g, n) => BMeanGrad(m, t, g, n), (g, n) => BShare(m, t, g, n))
  }

  ghost function CSide(m: Block, d: Tangent, t: int): Side {
    Side(CAt(m), m.cScale, d.cScale, d.cBias, (g, n) => CRawGrad(m, t, g, n), (g, n) => CShare(m, t, g, n))
  }

  ghost function SideParams(m: Block, d: Tangent, t: int, s: Side): real {
    Sum(m.bc, c => ViaScale(m, d, t, s, c)) + Sum(m.bc, c => ViaBias(m, t, s, c))
  }

  lemma SideStage(m: Block, d: Tangent, t: int)
    ensures Pair2(m.groups, m.state, (g, n) => BMeanGrad(m, t, g, n), (g, n) => TBMean(m, d, t, g, n))
         == Sum(m.bc, c => ViaValue(m, d, t, BSide(m, d, t), c)) + SideParams(m, d, t, BSide(m, d, t))
    ensures Pair2(m.groups, m.state, (g, n) => CRawGrad(m, t, g, n), (g, n) => TCRaw(m, d, t, g, n))
         == Sum(m.bc, c => ViaValue(m, d, t, CSide(m, d, t), c)) + SideParams(m, d, t, CSide(m, d, t))
  {
    hide Sum, TMean, BMeanGrad, CRawGrad, ViaValue, ViaScale, ViaBias, Mul;
    MeanStage(m, d, t, BSide(m, d, t));
    MeanStage(m, d, t, CSide(m, d, t));
    var b, c := BSide(m, d, t), CSide(m, d, t);
    Pair2Eq(m.groups, m.state, b.grad, (g, n) => TMean(m, d, t, b.at, b.scale, b.dScale, b.dBias, g, n),
            (g, n) => BMeanGrad(m, t, g, n), (g, n) => TBMean(m, d, t, g, n));
    Pair2Eq(m.groups, m.state, c.grad, (g, n) => TMean(m, d, t, c.at, c.scale, c.dScale, c.dBias, g, n),
            (g, n) => CRawGrad(m, t, g, n), (g, n) => TCRaw(m, d, t, g, n));
  }

  // ---- the convolution ----

  ghost function ConvMove(m: Block, d: Tangent, t: int, c: int): real {
    Mul(ConvGrad(m, t, c), TConv(m, d, t, c))
  }

  lemma ConvChannels(m: Block, d: Tangent, t: int)
    ensures Sum(Channels(m), c => ConvMove(m, d, t, c))
         == Pair(m.features, f => XGrad(m, t, f), f => TConv(m, d, t, f))
            + Sum(m.bc, c => ViaValue(m, d, t, BSide(m, d, t), c))
              + Sum(m.bc, c => ViaValue(m, d, t, CSide(m, d, t), c))
  {
    hide Sum, Mul, XGrad, TConv, ChannelGrad;
    var move := (c: int) => ConvMove(m, d, t, c);
    var f, b := m.features, m.bc;
    assert Channels(m) == (f + b) + b;
    SumSplit(f + b, b, move);
    SumSplit(f, b, move);
    PairMul(f, i => XGrad(m, t, i), i => TConv(m, d, t, i), move);
    SumEq(b, c => move(f + c), c => ViaValue(m, d, t, BSide(m, d, t), c));
    SumEq(b, c => move(f + b + c), c => ViaValue(m, d, t, CSide(m, d, t), c));
  }

  ghost function ConvTap(m: Block, d: Tangent, t: int, k: int, c: int): real {
    Mul(Mul(ConvPreGrad(m, t, c), m.convW(c, k)), TTap(m, d, t - 2 + k, c))
  }

  ghost function ConvOwn(m: Block, d: Tangent, t: int, c: int): real {
    Mul(ConvPreGrad(m, t, c) * m.convW(c, 2), TProj(m, d, t, ConvAt(m) + c))
  }

  ghost function ConvWeights(m: Block, d: Tangent, t: int, c: int): real {
    Sum(3, k => Mul(ConvWTerm(m, c, k, t), d.convW(c, k)))
  }

  lemma ConvCell(m: Block, d: Tangent, t: nat, c: int)
    ensures ConvMove(m, d, t, c)
         == ConvOwn(m, d, t, c) + ConvTap(m, d, t, 0, c) + ConvTap(m, d, t, 1, c)
            + (Mul(ConvPreGrad(m, t, c), d.convB(c)) + ConvWeights(m, d, t, c))
  {
    ConvWeightSum(m, d, t, c);
    ConvWeightForm(m, t, c);
    ConvFactor(m, d, t, c);
    hide ConvMove, ConvPreGrad, ConvWTerm, TTap, TProj, Tap, Proj, ConvWeights, ConvGrad;
    ConvForm(ConvPreGrad(m, t, c), d.convB(c), TTap(m, d, t - 2, c), TTap(m, d, t - 1, c),
             TProj(m, d, t, ConvAt(m) + c),
             m.convW(c, 0), m.convW(c, 1), m.convW(c, 2), Tap(m, t - 2, c), Tap(m, t - 1, c), Proj(m, t, ConvAt(m) + c),
             d.convW(c, 0), d.convW(c, 1), d.convW(c, 2), TConvPre(m, d, t, c),
             ConvWTerm(m, c, 0, t), ConvWTerm(m, c, 1, t), ConvWTerm(m, c, 2, t));
  }

  lemma ConvFactor(m: Block, d: Tangent, t: int, c: int)
    ensures ConvMove(m, d, t, c) == Mul(ConvPreGrad(m, t, c), TConvPre(m, d, t, c))
  {
    hide ConvGrad, Sigmoid, ConvPre, TConvPre;
    SiluForm(ConvGrad(m, t, c), Sigmoid(m.fns, ConvPre(m, t, c)), ConvPre(m, t, c), TConvPre(m, d, t, c));
  }

  lemma SiluForm(g: real, s: real, x: real, tx: real)
    ensures Mul(g, (s * (1.0 + x * (1.0 - s))) * tx) == Mul(g * s * (1.0 + x * (1.0 - s)), tx)
  {
  }

  lemma ConvWeightSum(m: Block, d: Tangent, t: int, c: int)
    ensures ConvWeights(m, d, t, c)
         == Mul(ConvWTerm(m, c, 0, t), d.convW(c, 0)) + Mul(ConvWTerm(m, c, 1, t), d.convW(c, 1))
            + Mul(ConvWTerm(m, c, 2, t), d.convW(c, 2))
  {
    hide ConvWTerm, Mul;
    var f := (k: int) => Mul(ConvWTerm(m, c, k, t), d.convW(c, k));
    assert Sum(3, f) == Sum(2, f) + f(2);
    assert Sum(2, f) == Sum(1, f) + f(1);
    assert Sum(1, f) == f(0);
  }

  lemma ConvWeightForm(m: Block, t: nat, c: int)
    ensures ConvWTerm(m, c, 0, t) == ConvPreGrad(m, t, c) * Tap(m, t - 2, c)
    ensures ConvWTerm(m, c, 1, t) == ConvPreGrad(m, t, c) * Tap(m, t - 1, c)
    ensures ConvWTerm(m, c, 2, t) == ConvPreGrad(m, t, c) * Proj(m, t, ConvAt(m) + c)
  {
    hide ConvPreGrad, Proj;
    Factors(ConvPreGrad(m, t, c), ConvPreGrad(m, t, c), Tap(m, t, c), Proj(m, t, ConvAt(m) + c));
  }

  lemma ConvForm(g: real, tb: real, tp0: real, tp1: real, tp2: real, w0: real, w1: real, w2: real, p0: real, p1: real,
                 p2: real, tw0: real, tw1: real, tw2: real, term: real, q0: real, q1: real, q2: real)
    requires q0 == g * p0 && q1 == g * p1 && q2 == g * p2
    requires term == tb + (tp0 * w0 + p0 * tw0) + (tp1 * w1 + p1 * tw1) + (tp2 * w2 + p2 * tw2)
    ensures Mul(g, term) == Mul(g * w2, tp2) + Mul(Mul(g, w0), tp0) + Mul(Mul(g, w1), tp1)
                            + (Mul(g, tb) + (Mul(q0, tw0) + Mul(q1, tw1) + Mul(q2, tw2)))
  {
  }

  lemma ConvStage(m: Block, d: Tangent, t: nat)
    ensures Sum(Channels(m), c => ConvMove(m, d, t, c))
         == Sum(Channels(m), c => ConvOwn(m, d, t, c)) + Sum(Channels(m), c => ConvTap(m, d, t, 0, c))
            + Sum(Channels(m), c => ConvTap(m, d, t, 1, c)) + Pair(Channels(m), c => ConvPreGrad(m, t, c), d.convB)
            + Sum(Channels(m), c => ConvWeights(m, d, t, c))
  {
    hide Sum, Mul, ConvMove, ConvOwn, ConvTap, ConvPreGrad, ConvWeights;
    var n := Channels(m);
    var all, own, x, y := (c: int) => ConvMove(m, d, t, c), (c: int) => ConvOwn(m, d, t, c),
        (c: int) => ConvTap(m, d, t, 0, c),
                          (c: int) => ConvTap(m, d, t, 1, c);
    var b, w := (c: int) => Mul(ConvPreGrad(m, t, c), d.convB(c)), (c: int) => ConvWeights(m, d, t, c);
    var taps, params := (c: int) => own(c) + x(c) + y(c), (c: int) => b(c) + w(c);
    forall c ensures all(c) == taps(c) + params(c) {
      ConvCell(m, d, t, c);
    }
    SumAdd3(n, taps, own, x, y);
    SumAdd(n, params, b, w);
    SumAdd(n, all, taps, params);
    PairMul(n, c => ConvPreGrad(m, t, c), d.convB, b);
  }

  // ---- the row's own projection collects its six segments ----

  lemma ProjSegments(m: Block, d: Tangent, t: int)
    ensures Pair(ProjDims(m), p => ProjGrad(m, t, p), p => TProj(m, d, t, p))
         == Pair(m.features, f => GateGrad(m, t, f), f => TProj(m, d, t, f))
            + Sum(Channels(m), c => ConvOwn(m, d, t, c))
            + Pair(m.heads, h => DtProjGrad(m, t, h), h => TProj(m, d, t, DtAt(m) + h))
            + Pair(m.heads, h => DecayProjGrad(m, t, h), h => TProj(m, d, t, DecayAt(m) + h))
            + Pair(m.heads, h => TrapProjGrad(m, t, h), h => TProj(m, d, t, TrapAt(m) + h))
            + Pair(m.angles, j => TProj(m, d, t, AngleAt(m) + j), j => AngleProjGrad(m, t, j))
  {
    hide Sum, Mul, Pair, GateGrad, TProj, ProjGrad, DtProjGrad, DecayProjGrad, TrapProjGrad, AngleProjGrad, ProjMove,
         ConvOwn;
    var move := (p: int) => ProjMove(m, d, t, p);
    MovePair(m, d, t, move);
    SumSplit(AngleAt(m), m.angles, move);
    SumSplit(TrapAt(m), m.heads, move);
    SumSplit(DecayAt(m), m.heads, move);
    SumSplit(DtAt(m), m.heads, move);
    SumSplit(m.features, Channels(m), move);
    GateSegment(m, d, t, move);
    ConvSegment(m, d, t, c => move(m.features + c));
    DtSegment(m, d, t, h => move(DtAt(m) + h));
    DecaySegment(m, d, t, h => move(DecayAt(m) + h));
    TrapSegment(m, d, t, h => move(TrapAt(m) + h));
    AngleSegment(m, d, t, j => move(AngleAt(m) + j));
  }

  // ---- the projection's dimensions are six segments ----

  ghost function ProjMove(m: Block, d: Tangent, t: int, p: int): real { Mul(ProjGrad(m, t, p), TProj(m, d, t, p)) }

  lemma MovePair(m: Block, d: Tangent, t: int, move: int -> real)
    requires forall p {:trigger move(p)} :: move(p) == ProjMove(m, d, t, p)
    ensures Pair(ProjDims(m), p => ProjGrad(m, t, p), p => TProj(m, d, t, p)) == Sum(ProjDims(m), move)
  {
    hide Sum, Mul, TProj, ProjGrad, ProjDims;
    PairMul(ProjDims(m), p => ProjGrad(m, t, p), p => TProj(m, d, t, p), move);
  }

  lemma GateSegment(m: Block, d: Tangent, t: int, moves: int -> real)
    requires forall i {:trigger moves(i)} :: 0 <= i < m.features ==> moves(i) == ProjMove(m, d, t, i)
    ensures Sum(m.features, moves) == Pair(m.features, f => GateGrad(m, t, f), f => TProj(m, d, t, f))
  {
    hide Sum, Mul, TProj, GateGrad;
    PairMul(m.features, f => GateGrad(m, t, f), f => TProj(m, d, t, f), moves);
  }

  lemma OwnConvMove(m: Block, d: Tangent, t: int, c: int)
    requires 0 <= c < Channels(m)
    ensures ProjMove(m, d, t, ConvAt(m) + c) == ConvOwn(m, d, t, c)
  {
    hide TProj, ConvPreGrad;
    assert ConvAt(m) + c - ConvAt(m) == c;
  }

  lemma ConvSegment(m: Block, d: Tangent, t: int, moves: int -> real)
    requires forall i {:trigger moves(i)} :: 0 <= i < Channels(m) ==> moves(i) == ProjMove(m, d, t, ConvAt(m) + i)
    ensures Sum(Channels(m), moves) == Sum(Channels(m), c => ConvOwn(m, d, t, c))
  {
    hide Sum, Mul, TProj, ConvPreGrad;
    var own := (c: int) => ConvOwn(m, d, t, c);
    forall c | 0 <= c < Channels(m) ensures moves(c) == own(c) {
      OwnConvMove(m, d, t, c);
    }
    SumEq(Channels(m), moves, own);
  }

  lemma DtSegment(m: Block, d: Tangent, t: int, moves: int -> real)
    requires forall i {:trigger moves(i)} :: 0 <= i < m.heads ==> moves(i) == ProjMove(m, d, t, DtAt(m) + i)
    ensures Sum(m.heads, moves) == Pair(m.heads, i => DtProjGrad(m, t, i), i => TProj(m, d, t, DtAt(m) + i))
  {
    hide Sum, Mul, TProj, DtProjGrad;
    PairMul(m.heads, i => DtProjGrad(m, t, i), i => TProj(m, d, t, DtAt(m) + i), moves);
  }

  lemma DecaySegment(m: Block, d: Tangent, t: int, moves: int -> real)
    requires forall i {:trigger moves(i)} :: 0 <= i < m.heads ==> moves(i) == ProjMove(m, d, t, DecayAt(m) + i)
    ensures Sum(m.heads, moves) == Pair(m.heads, i => DecayProjGrad(m, t, i), i => TProj(m, d, t, DecayAt(m) + i))
  {
    hide Sum, Mul, TProj, DecayProjGrad;
    PairMul(m.heads, i => DecayProjGrad(m, t, i), i => TProj(m, d, t, DecayAt(m) + i), moves);
  }

  lemma TrapSegment(m: Block, d: Tangent, t: int, moves: int -> real)
    requires forall i {:trigger moves(i)} :: 0 <= i < m.heads ==> moves(i) == ProjMove(m, d, t, TrapAt(m) + i)
    ensures Sum(m.heads, moves) == Pair(m.heads, i => TrapProjGrad(m, t, i), i => TProj(m, d, t, TrapAt(m) + i))
  {
    hide Sum, Mul, TProj, TrapProjGrad;
    PairMul(m.heads, i => TrapProjGrad(m, t, i), i => TProj(m, d, t, TrapAt(m) + i), moves);
  }

  lemma AngleSegment(m: Block, d: Tangent, t: int, moves: int -> real)
    requires forall j {:trigger moves(j)} :: 0 <= j < m.angles ==> moves(j) == ProjMove(m, d, t, AngleAt(m) + j)
    ensures Sum(m.angles, moves) == Pair(m.angles, j => TProj(m, d, t, AngleAt(m) + j), j => AngleProjGrad(m, t, j))
  {
    hide Sum, Mul, TProj, AngleProjGrad;
    forall j | 0 <= j < m.angles ensures moves(j) == Mul(TProj(m, d, t, AngleAt(m) + j), AngleProjGrad(m, t, j)) {
      MulSwap(AngleProjGrad(m, t, j), TProj(m, d, t, AngleAt(m) + j));
    }
    PairMul(m.angles, j => TProj(m, d, t, AngleAt(m) + j), j => AngleProjGrad(m, t, j), moves);
  }

  // ---- the row ----

  /** What the row's iteration pairs with projections, of its own and of neighbouring rows. */
  ghost function RowLinear(m: Block, d: Tangent, t: int): real {
    Pair(ProjDims(m), p => ProjGrad(m, t, p), p => TProj(m, d, t, p)) + Sum(Channels(m), c => ConvTap(m, d, t, 0, c))
    + Sum(Channels(m), c => ConvTap(m, d, t, 1, c)) + Sum(m.heads, h => Ahead(m, d, t, h))
  }

  /** What it pairs with parameters other than the in-projection's. */
  ghost function RowParams(m: Block, d: Tangent, t: int): real {
    Pair2(m.width, m.features, (o, f) => OutWTerm(m, o, f, t), d.outW) + Pair(m.heads, h => SkipTerm(m, h, t), d.skip)
    + SideParams(m, d, t, BSide(m, d, t)) + SideParams(m, d, t, CSide(m, d, t))
    + Pair(Channels(m), c => ConvPreGrad(m, t, c), d.convB) + Sum(Channels(m), c => ConvWeights(m, d, t, c))
    + Pair(m.heads, h => DtProjGrad(m, t, h), d.dtBias)
  }

  ghost function StatePair(m: Block, d: Tangent, t: int): real {
    Pair2(m.features, m.state, (f, n) => StateGrad(m, t, f, n), (f, n) => TState(m, d, t, f, n))
  }

  ghost function AnglePair(m: Block, d: Tangent, t: int): real {
    Pair2(m.heads, m.angles, (h, j) => AngleGrad(m, t, h, j), (h, j) => TAngle(m, d, t, h, j))
  }

  /** The output's and the carried cotangents after the row, paired with their tangents, are the carried
      cotangents before it and the row's own contributions, paired with theirs. */
  lemma RowStage(m: Block, d: Tangent, t: nat)
    requires t < m.rows
    ensures Pair(m.width, o => m.up(t, o), o => TOut(m, d, t, o)) + StatePair(m, d, t + 1) + AnglePair(m, d, t + 1)
         == StatePair(m, d, t) + AnglePair(m, d, t) + RowLinear(m, d, t) + RowParams(m, d, t)
  {
    hide Sum, Pair, Pair2, SideParams;
    OutStage(m, d, t);
    GateStage(m, d, t);
    MambaScanAdjoint.ScanStage(m, d, t);
    MambaRotationAdjoint.BRotStage(m, d, t);
    MambaRotationAdjoint.CRotStage(m, d, t);
    MambaRotationAdjoint.AngleStage(m, d, t);
    BRawStage(m, d, t);
    SideStage(m, d, t);
    ConvChannels(m, d, t);
    ConvStage(m, d, t);
    TrapHeads(m, d, t);
    TrapStage(m, d, t);
    DtStage(m, d, t);
    DecayStage(m, d, t);
    ProjSegments(m, d, t);
  }
}
