/** The reverse sweep of the Mamba3 backward kernel as its lanes run it: a machine whose steps are single
    atomic additions, taken in any order, and barriers.

    Whatever the order, every cell holds the values of MambaGradient whenever no addition is pending, and the
    sweep ends with the gradients that the one-lane kernel of MambaBackward computes. */
module MambaLanes {
  import opened Sums
  import opened Additions
  import opened MambaModel
  import opened MambaGradient
  import opened MambaAdditions

  const LAST := 6

  /** The additions between two barriers of row `t`: output projection, scan, normalisations, look-ahead,
      angles and steps, convolution, own projection. */
  ghost function StageAdds(m: Block, t: int, k: int): seq<Add<Cell>> {
    if k == 0 then Loop(m.features, f => OutAdds(m, t, f))
    else if k == 1 then Loop(m.features, f => ScanAdds(m, t, f))
    else if k == 2 then Loop(m.ranks, r => RankAdds(m, t, r))
    else if k == 3 then Loop(m.heads, h => AheadAdds(m, t, h))
    else if k == 4 then Loop(m.heads, h => HeadAdds(m, t, h))
    else if k == 5 then Loop(Channels(m), c => ConvAdds(m, t, c))
    else Loop(ProjDims(m), p => OwnAdds(m, t, p))
  }

  // ---- what each stage comes to ----

  ghost function OutStage(m: Block, t: int, c: Cell): real { if c.OutW? then OutWTerm(m, c.o, c.f, t) else 0.0 }

  ghost function ScanStage(m: Block, t: int, c: Cell): real {
    match c
    case Skip(h) => SkipTerm(m, h, t)
    case CGroup(g, n) => CRotGrad(m, t, g, n)
    case BGroup(g, n) => BRotGrad(m, t, g, n)
    case DecayCell(h) => DecayGrad(m, t, h)
    case StepCell(h) => ScanDtGrad(m, t, h)
    case _ => 0.0
  }

  ghost function NormStage(m: Block, t: int, c: Cell): real {
    match c
    case BScale(x) => BScaleTerm(m, x, t)
    case BBias(x) => BBiasTerm(m, x, t)
    case CScale(x) => CScaleTerm(m, x, t)
    case CBias(x) => CBiasTerm(m, x, t)
    case _ => 0.0
  }

  ghost function AheadStage(m: Block, t: int, c: Cell): real {
    match c
    case DtBias(h) => NextDtGrad(m, t, h)
    case InW(p, i) => AheadWeightTerm(m, p, i, t)
    case Hidden(r, i) => if r == t + 1 then AheadHidden(m, t, i) else 0.0
    case _ => 0.0
  }

  ghost function HeadStage(m: Block, t: int, c: Cell): real {
    match c
    case AngleCell(j) => AngleProjGrad(m, t, j)
    case DtBias(h) => DtProjGrad(m, t, h)
    case _ => 0.0
  }

  ghost function ConvStage(m: Block, t: int, c: Cell): real {
    match c
    case ConvB(x) => ConvBTerm(m, x, t)
    case ConvW(x, k) => ConvWTerm(m, x, k, t)
    case InW(p, i) => if ConvAt(m) <= p < DtAt(m) then TapWeightTerm(m, t, 0, p - ConvAt(m), i)
                           + TapWeightTerm(m, t, 1, p - ConvAt(m), i) else 0.0
    case Hidden(r, i) => if r == t - 1 then TapHidden(m, t, 1, i) else if r == t - 2 then TapHidden(m, t, 0, i) else 0.0
    case _ => 0.0
  }

  ghost function OwnStage(m: Block, t: int, c: Cell): real {
    match c
    case InW(p, i) => m.u(t, i) * ProjGrad(m, t, p)
    case Hidden(r, i) => if r == t then OwnHidden(m, t, i) else 0.0
    case _ => 0.0
  }

  ghost function Added(m: Block, t: int, k: int, c: Cell): real {
    if k == 0 then OutStage(m, t, c)
    else if k == 1 then ScanStage(m, t, c)
    else if k == 2 then NormStage(m, t, c)
    else if k == 3 then AheadStage(m, t, c)
    else if k == 4 then HeadStage(m, t, c)
    else if k == 5 then ConvStage(m, t, c)
    else OwnStage(m, t, c)
  }

  lemma OutAdded(m: Block, t: int, c: Cell)
    requires InRange(m, c)
    ensures Total(Loop(m.features, f => OutAdds(m, t, f)), c) == OutStage(m, t, c)
  {
    hide Total, Loop, OutAdds, OutWTerm;
    var body := (f: int) => OutAdds(m, t, f);
    forall f ensures Total(body(f), c) == if c.OutW? && c.f == f then OutWTerm(m, c.o, f, t) else 0.0 {
      OutTotal(m, t, f, c);
    }
    if c.OutW? {
      LoopOne(m.features, body, c, c.f, OutWTerm(m, c.o, c.f, t));
    } else {
      LoopNone(m.features, body, c);
    }
  }

  lemma ScanAdded(m: Block, t: int, c: Cell)
    requires InRange(m, c)
    ensures Total(Loop(m.features, f => ScanAdds(m, t, f)), c) == ScanStage(m, t, c)
  {
    hide Total, Loop, ScanAdds, FeatureShare, Sum;
    var body, share := (f: int) => ScanAdds(m, t, f), (f: int) => FeatureShare(m, t, f, c);
    forall f ensures Total(body(f), c) == share(f) {
      ScanTotal(m, t, f, c);
    }
    LoopTotal(m.features, body, c, share);
    FeaturesTotal(m, t, c, share);
  }

  lemma FeaturesTotal(m: Block, t: int, c: Cell, share: int -> real)
    requires forall f {:trigger share(f)} :: share(f) == FeatureShare(m, t, f, c)
    ensures Sum(m.features, share) == ScanStage(m, t, c)
  {
    hide Sum, DecayRow, StepRow, ScanOutGrad, FullStateGrad, State, Conv, Head, Group;
    match c
    case Skip(h) =>
      KeyedForm(m, f => Head(m, f), f => ScanOutGrad(m, t, f) * Conv(m, t, f), h, share);
    case CGroup(g, n) =>
      KeyedForm(m, f => Group(m, f), f => ScanOutGrad(m, t, f) * State(m, t + 1, f, n), g, share);
    case BGroup(g, n) =>
      KeyedForm(m, f => Group(m, f), f => FullStateGrad(m, t, f, n) * Conv(m, t, f), g, share);
    case DecayCell(h) => KeyedForm(m, f => Head(m, f), f => DecayRow(m, t, f), h, share);
    case StepCell(h) => KeyedForm(m, f => Head(m, f), f => StepRow(m, t, f), h, share);
    case _ => SumZero(m.features, share);
  }

  lemma KeyedForm(m: Block, key: int -> int, w: int -> real, g: int, share: int -> real)
    requires forall f {:trigger share(f)} :: share(f) == if key(f) == g then w(f) else 0.0
    ensures Sum(m.features, share) == Keyed(m.features, key, w, g)
  {
    SumEq(m.features, share, f => if key(f) == g then w(f) else 0.0);
  }

  lemma NormAdded(m: Block, t: int, c: Cell)
    requires InRange(m, c)
    ensures Total(Loop(m.ranks, r => RankAdds(m, t, r)), c) == NormStage(m, t, c)
  {
    hide Total, Loop, RankAdds, Sum, BScaleTerm, BBiasTerm, CScaleTerm, CBiasTerm;
    RanksTotal(m, t, c);
    var share := (x: int) => ChannelShare(m, t, x, c);
    match c
    case BScale(x) => SumDelta(m.bc, x, share);
    case BBias(x) => SumDelta(m.bc, x, share);
    case CScale(x) => SumDelta(m.bc, x, share);
    case CBias(x) => SumDelta(m.bc, x, share);
    case _ => SumZero(m.bc, share);
  }

  lemma AheadAdded(m: Block, t: int, c: Cell)
    requires InRange(m, c)
    ensures Total(Loop(m.heads, h => AheadAdds(m, t, h)), c) == AheadStage(m, t, c)
  {
    hide Total, Loop, AheadAdds, AheadShare, Sum;
    var body, share := (h: int) => AheadAdds(m, t, h), (h: int) => AheadShare(m, t, h, c);
    forall h ensures Total(body(h), c) == share(h) {
      AheadTotal(m, t, h, c);
    }
    LoopTotal(m.heads, body, c, share);
    AheadHeads(m, t, c, share);
  }

  lemma AheadHeads(m: Block, t: int, c: Cell, share: int -> real)
    requires InRange(m, c)
    requires forall h {:trigger share(h)} :: share(h) == AheadShare(m, t, h, c)
    ensures Sum(m.heads, share) == AheadStage(m, t, c)
  {
    hide Sum, NextDtGrad, NextTrapGrad;
    match c
    case DtBias(h) => SumDelta(m.heads, h, share);
    case InW(p, i) => SumDelta(m.heads, if p < DecayAt(m) then p - DtAt(m) else p - TrapAt(m), share);
    case Hidden(r, i) =>
      if r == t + 1 {
        SumEq(m.heads, share, h => NextDtGrad(m, t, h) * m.inW(DtAt(m) + h, i)
                                   + NextTrapGrad(m, t, h) * m.inW(TrapAt(m) + h, i));
      } else {
        SumZero(m.heads, share);
      }
    case _ => SumZero(m.heads, share);
  }

  lemma HeadAdded(m: Block, t: int, c: Cell)
    requires InRange(m, c)
    ensures Total(Loop(m.heads, h => HeadAdds(m, t, h)), c) == HeadStage(m, t, c)
  {
    hide Total, Loop, HeadAdds, Sum, DtProjGrad, AngleGrad, Dt;
    var body, share := (h: int) => HeadAdds(m, t, h), (h: int) => HeadShare(m, t, h, c);
    forall h ensures Total(body(h), c) == share(h) {
      HeadTotal(m, t, h, c);
    }
    LoopTotal(m.heads, body, c, share);
    match c
    case AngleCell(j) => SumEq(m.heads, share, h => AngleGrad(m, t, h, j) * Dt(m, t, h));
    case DtBias(h) => SumDelta(m.heads, h, share);
    case _ => SumZero(m.heads, share);
  }

  lemma ConvAdded(m: Block, t: int, c: Cell)
    requires InRange(m, c)
    ensures Total(Loop(Channels(m), x => ConvAdds(m, t, x)), c) == ConvStage(m, t, c)
  {
    hide Total, Loop, ConvAdds, ConvShare, Sum, Channels;
    var body, share := (x: int) => ConvAdds(m, t, x), (x: int) => ConvShare(m, t, x, c);
    forall x ensures Total(body(x), c) == share(x) {
      ConvTotal(m, t, x, c);
    }
    LoopTotal(Channels(m), body, c, share);
    ConvChannels(m, t, c, share);
  }

  lemma ConvChannels(m: Block, t: int, c: Cell, share: int -> real)
    requires InRange(m, c)
    requires forall x {:trigger share(x)} :: share(x) == ConvShare(m, t, x, c)
    ensures Sum(Channels(m), share) == ConvStage(m, t, c)
  {
    hide Sum, ConvPreGrad, ConvBTerm, ConvWTerm, TapWeightTerm;
    match c
    case ConvB(x) => SumDelta(Channels(m), x, share);
    case ConvW(x, k) => SumDelta(Channels(m), x, share);
    case InW(p, i) => SumDelta(Channels(m), p - ConvAt(m), share);
    case Hidden(r, i) =>
      if r == t - 1 {
        SumEq(Channels(m), share, x => ConvPreGrad(m, t, x) * m.convW(x, 1) * m.inW(ConvAt(m) + x, i));
      } else if r == t - 2 {
        SumEq(Channels(m), share, x => ConvPreGrad(m, t, x) * m.convW(x, 0) * m.inW(ConvAt(m) + x, i));
      } else {
        SumZero(Channels(m), share);
      }
    case _ => SumZero(Channels(m), share);
  }

  lemma OwnAdded(m: Block, t: int, c: Cell)
    requires InRange(m, c)
    ensures Total(Loop(ProjDims(m), p => OwnAdds(m, t, p)), c) == OwnStage(m, t, c)
  {
    hide Total, Loop, OwnAdds, Sum, ProjGrad, ProjDims;
    var body, share := (p: int) => OwnAdds(m, t, p), (p: int) => OwnShare(m, t, p, c);
    forall p ensures Total(body(p), c) == share(p) {
      OwnTotal(m, t, p, c);
    }
    LoopTotal(ProjDims(m), body, c, share);
    match c
    case InW(p, i) => SumDelta(ProjDims(m), p, share);
    case Hidden(r, i) =>
      if r == t {
        SumEq(ProjDims(m), share, p => ProjGrad(m, t, p) * m.inW(p, i));
      } else {
        SumZero(ProjDims(m), share);
      }
    case _ => SumZero(ProjDims(m), share);
  }

  /** A stage's additions come to the stage's share of the row's gradients. */
  lemma StageAdded(m: Block, t: int, k: int, c: Cell)
    requires InRange(m, c) && 0 <= k <= LAST
    ensures Total(StageAdds(m, t, k), c) == Added(m, t, k, c)
  {
    hide Total, Loop, OutStage, ScanStage, NormStage, AheadStage, HeadStage, ConvStage, OwnStage;
    OutAdded(m, t, c);
    ScanAdded(m, t, c);
    NormAdded(m, t, c);
    AheadAdded(m, t, c);
    HeadAdded(m, t, c);
    ConvAdded(m, t, c);
    OwnAdded(m, t, c);
  }

  // ---- what every cell holds when rows `t` and later have been reversed ----

  ghost function Final(m: Block, t: int, c: Cell): real {
    match c
    case OutW(o, f) => OutWGrad(m, t, o, f)
    case Skip(h) => SkipGrad(m, t, h)
    case BScale(x) => BScaleGrad(m, t, x)
    case BBias(x) => BBiasGrad(m, t, x)
    case CScale(x) => CScaleGrad(m, t, x)
    case CBias(x) => CBiasGrad(m, t, x)
    case DtBias(h) => DtBiasGrad(m, t, h)
    case InW(p, i) => InWGrad(m, t, p, i)
    case Hidden(r, i) => HiddenGrad(m, t, r, i)
    case ConvB(x) => ConvBGrad(m, t, x)
    case ConvW(x, k) => ConvWGrad(m, t, x, k)
    case BGroup(g, n) => BRotGrad(m, t, g, n)
    case CGroup(g, n) => CRotGrad(m, t, g, n)
    case DecayCell(h) => DecayGrad(m, t, h)
    case StepCell(h) => ScanDtGrad(m, t, h)
    case AngleCell(j) => AngleProjGrad(m, t, j)
  }

  /** What the stages `0..k` of row `t` come to. */
  ghost function AddedUpto(m: Block, t: int, k: int, c: Cell): real
    decreases k
  {
    if k <= 0 then 0.0 else AddedUpto(m, t, k - 1, c) + Added(m, t, k - 1, c)
  }

  /** What `c` holds once stage `k` of row `t` is over: scratch cells were cleared at the row's start. */
  ghost function Due(m: Block, t: int, k: int, c: Cell): real {
    (if Scratch(c) then 0.0 else Final(m, t + 1, c)) + AddedUpto(m, t, k + 1, c)
  }

  lemma SevenStages(m: Block, t: int, c: Cell)
    ensures AddedUpto(m, t, LAST + 1, c)
         == OutStage(m, t, c) + ScanStage(m, t, c) + NormStage(m, t, c) + AheadStage(m, t, c) + HeadStage(m, t, c)
            + ConvStage(m, t, c) + OwnStage(m, t, c)
  {
    hide OutStage, ScanStage, NormStage, AheadStage, HeadStage, ConvStage, OwnStage;
    assert AddedUpto(m, t, 2, c) == Added(m, t, 0, c) + Added(m, t, 1, c);
    assert AddedUpto(m, t, 4, c) == AddedUpto(m, t, 2, c) + Added(m, t, 2, c) + Added(m, t, 3, c);
    assert AddedUpto(m, t, 6, c) == AddedUpto(m, t, 4, c) + Added(m, t, 4, c) + Added(m, t, 5, c);
  }

  /** All seven stages of a row take every cell from the later rows' total to this row's. */
  lemma RowAdded(m: Block, t: int, c: Cell)
    requires InRange(m, c) && 0 <= t < m.rows
    ensures Due(m, t, LAST, c) == Final(m, t, c)
  {
    hide OutWTerm, SkipTerm, BScaleTerm, BBiasTerm, CScaleTerm, CBiasTerm, NextDtGrad, DtProjGrad, AheadWeightTerm,
         TapWeightTerm, ProjGrad, OwnHidden, TapHidden, AheadHidden, ConvBTerm, ConvWTerm, BRotGrad, CRotGrad,
         DecayGrad, ScanDtGrad, AngleProjGrad, AddedUpto;
    SevenStages(m, t, c);
  }

  // ---- the machine ----

  /** Row `t` is in its stage `k`; `pending` are the stage's additions that no lane has performed yet. */
  datatype Machine = Machine(t: int, k: int, mem: Cell -> real, pending: seq<Add<Cell>>)

  /** Before the last row: nothing pending, the gradient buffers zero, the scratch buffers anything. */
  ghost predicate Initial(m: Block, s: Machine) {
    s.t == m.rows && s.k == LAST && s.pending == [] && forall c :: !Scratch(c) ==> s.mem(c) == 0.0
  }

  ghost predicate Finished(s: Machine) { s.t == 0 && s.k == LAST && s.pending == [] }

  /** Some lane performs some pending addition. */
  ghost predicate Performs(s: Machine, s': Machine, i: int) {
    && 0 <= i < |s.pending| && s'.t == s.t && s'.k == s.k && s'.pending == s.pending[..i] + s.pending[i + 1..]
    && forall c {:trigger s'.mem(c)} :: s'.mem(c) == s.mem(c) + At(s.pending[i], c)
  }

  /** What is cleared at the barrier before stage `k`. */
  predicate Cleared(k: int, c: Cell) { (k == 0 && c.AngleCell?) || (k == 1 && ScanScratch(c)) }

  /** Nothing is pending and the lanes pass the barrier into the next stage, or into the row before. */
  ghost predicate Passes(m: Block, s: Machine, s': Machine) {
    && s.pending == [] && (if s.k < LAST then s'.t == s.t && s'.k == s.k + 1 else s'.t == s.t - 1 && s'.k == 0)
    && 0 <= s'.t < m.rows && s'.pending == StageAdds(m, s'.t, s'.k)
    && forall c {:trigger s'.mem(c)} :: s'.mem(c) == if Cleared(s'.k, c) then 0.0 else s.mem(c)
  }

  ghost predicate Step(m: Block, s: Machine, s': Machine) {
    Passes(m, s, s') || exists i :: Performs(s, s', i)
  }

  /** `run` starts in an initial state and goes by steps. */
  ghost predicate IsRun(m: Block, run: seq<Machine>)
    decreases |run|
  {
    && 0 < |run|
    && if |run| == 1 then Initial(m, run[0])
       else IsRun(m, run[..|run| - 1]) && Step(m, run[|run| - 2], run[|run| - 1])
  }

  /** The cells with a settled content: scratch cells have none before they are first cleared in a row. */
  predicate Settled(m: Block, t: int, k: int, c: Cell) {
    if c.AngleCell? then t < m.rows else if ScanScratch(c) then t < m.rows && 1 <= k else true
  }

  /** What a cell holds once nothing is pending. */
  ghost function Target(m: Block, t: int, k: int, c: Cell): real {
    if t == m.rows then 0.0 else Due(m, t, k, c)
  }

  /** Every settled cell holds its target but for the additions still pending. */
  ghost predicate Inv(m: Block, s: Machine) {
    && 0 <= s.t <= m.rows && 0 <= s.k <= LAST && (s.t == m.rows ==> s.k == LAST && s.pending == [])
    && forall c {:trigger s.mem(c)} :: InRange(m, c) && Settled(m, s.t, s.k, c) ==>
         s.mem(c) + Total(s.pending, c) == Target(m, s.t, s.k, c)
  }

  lemma InitialInv(m: Block, s: Machine)
    requires Initial(m, s)
    ensures Inv(m, s)
  {
    forall c | InRange(m, c) && Settled(m, s.t, s.k, c)
      ensures s.mem(c) + Total(s.pending, c) == Target(m, s.t, s.k, c) {
      NoAdditions(c);
    }
  }

  lemma PerformsKeeps(m: Block, s: Machine, s': Machine, i: int)
    requires Inv(m, s) && Performs(s, s', i)
    ensures Inv(m, s')
  {
    hide Total, Target;
    forall c | InRange(m, c) && Settled(m, s'.t, s'.k, c)
      ensures s'.mem(c) + Total(s'.pending, c) == Target(m, s'.t, s'.k, c) {
      TotalRemove(s.pending, i, c);
      assert s.mem(c) + Total(s.pending, c) == Target(m, s.t, s.k, c);
    }
  }

  /** Before any row every gradient is zero. */
  lemma NoRows(m: Block, c: Cell)
    requires !Scratch(c)
    ensures Final(m, m.rows, c) == 0.0
  {
    hide OutWTerm, SkipTerm, BScaleTerm, BBiasTerm, CScaleTerm, CBiasTerm, DtBiasTerm, InWTerm, HiddenTerm, ConvBTerm,
         ConvWTerm;
  }

  /** Nothing is added to scratch cells before the barrier that clears them. */
  lemma ClearedFirst(m: Block, t: int, k: int, c: Cell)
    requires Cleared(k, c)
    ensures Due(m, t, k, c) == Added(m, t, k, c)
  {
    hide ScanStage, OutWTerm;
    assert AddedUpto(m, t, 1, c) == Added(m, t, 0, c) == 0.0;
  }

  lemma NextStage(m: Block, t: int, k: int, c: Cell)
    requires 0 <= k
    ensures Due(m, t, k + 1, c) == Due(m, t, k, c) + Added(m, t, k + 1, c)
    ensures Due(m, t, 0, c) == (if Scratch(c) then 0.0 else Final(m, t + 1, c)) + Added(m, t, 0, c)
  {
    hide Added, Final;
    assert AddedUpto(m, t, 0, c) == 0.0 && AddedUpto(m, t, 1, c) == AddedUpto(m, t, 0, c) + Added(m, t, 0, c);
  }

  /** What a cell holds after a barrier is where the next stage starts from. */
  lemma BarrierTarget(m: Block, s: Machine, s': Machine, c: Cell)
    requires Inv(m, s) && Passes(m, s, s') && InRange(m, c) && Settled(m, s'.t, s'.k, c)
    ensures s'.mem(c) + Added(m, s'.t, s'.k, c) == Due(m, s'.t, s'.k, c)
  {
    hide Total, Added, Final, StageAdds, Due;
    NoAdditions(c);
    if Cleared(s'.k, c) {
      ClearedFirst(m, s'.t, s'.k, c);
    } else if s.k < LAST {
      NextStage(m, s.t, s.k, c);
    } else {
      NextStage(m, s'.t, 0, c);
      if s.t < m.rows {
        RowAdded(m, s.t, c);
      } else {
        NoRows(m, c);
      }
    }
  }

  lemma PassesKeeps(m: Block, s: Machine, s': Machine)
    requires Inv(m, s) && Passes(m, s, s')
    ensures Inv(m, s')
  {
    hide Total, Due, StageAdds, Added;
    forall c | InRange(m, c) && Settled(m, s'.t, s'.k, c)
      ensures s'.mem(c) + Total(s'.pending, c) == Target(m, s'.t, s'.k, c) {
      StageAdded(m, s'.t, s'.k, c);
      BarrierTarget(m, s, s', c);
    }
  }

  lemma StepKeeps(m: Block, s: Machine, s': Machine)
    requires Inv(m, s) && Step(m, s, s')
    ensures Inv(m, s')
  {
    hide Inv, Performs, Passes;
    if Passes(m, s, s') {
      PassesKeeps(m, s, s');
    } else {
      var i :| Performs(s, s', i);
      PerformsKeeps(m, s, s', i);
    }
  }

  /** Every reachable machine keeps the invariant. */
  lemma {:induction false} RunKeeps(m: Block, run: seq<Machine>)
    requires IsRun(m, run)
    ensures Inv(m, run[|run| - 1])
    decreases |run|
  {
    hide Inv, Step, Initial;
    if |run| == 1 {
      InitialInv(m, run[0]);
    } else {
      RunKeeps(m, run[..|run| - 1]);
      StepKeeps(m, run[|run| - 2], run[|run| - 1]);
    }
  }

  // ---- what the lanes compute ----

  /** Whatever the order of the additions: when nothing is pending in stage `k` of row `t`, the scratch buffers
      that the next stages read hold the scan's and the heads' gradients, and once the row is over, every buffer
      holds the gradients of the rows from `t` on. */
  lemma AtBarrier(m: Block, run: seq<Machine>, s: Machine, c: Cell)
    requires IsRun(m, run) && s == run[|run| - 1] && s.pending == [] && s.t < m.rows && InRange(m, c)
    ensures ScanScratch(c) && 1 <= s.k ==> s.mem(c) == Final(m, s.t, c)
    ensures c.AngleCell? && 4 <= s.k ==> s.mem(c) == Final(m, s.t, c)
    ensures s.k == LAST ==> s.mem(c) == Final(m, s.t, c)
  {
    hide Total, Due, Final, IsRun;
    RunKeeps(m, run);
    NoAdditions(c);
    RowAdded(m, s.t, c);
    if (ScanScratch(c) && 1 <= s.k) || (c.AngleCell? && 4 <= s.k) {
      ScratchDone(m, s.t, s.k, c);
    }
  }

  /** Scratch cells get nothing after their own stage. */
  lemma ScratchDone(m: Block, t: int, k: int, c: Cell)
    requires 0 <= k <= LAST && ((ScanScratch(c) && 1 <= k) || (c.AngleCell? && 4 <= k))
    ensures Due(m, t, k, c) == Due(m, t, LAST, c)
    decreases LAST - k
  {
    hide ScanStage, AngleProjGrad, DtProjGrad, Due;
    if k < LAST {
      ScratchDone(m, t, k + 1, c);
      NextStage(m, t, k, c);
      assert Added(m, t, k + 1, c) == 0.0;
    }
  }

  /** The sweep: every finished run ends with the gradients over all rows. */
  lemma SweepAnyOrder(m: Block, run: seq<Machine>, c: Cell)
    requires IsRun(m, run) && Finished(run[|run| - 1]) && InRange(m, c) && !Scratch(c)
    ensures run[|run| - 1].mem(c) == Final(m, 0, c)
  {
    hide Total, Due, Final, Step;
    var s := run[|run| - 1];
    if m.rows == 0 {
      RunKeeps(m, run);
      NoAdditions(c);
      NoRows(m, c);
    } else {
      AtBarrier(m, run, s, c);
    }
  }

  // ---- every run goes on until the sweep is over, and none goes on for ever ----

  lemma NeverStuck(m: Block, s: Machine)
    requires Inv(m, s) && !Finished(s)
    ensures exists s' :: Step(m, s, s')
  {
    hide Inv, StageAdds, At;
    if s.pending != [] {
      var mem := (c: Cell) => s.mem(c) + At(s.pending[0], c);
      var s' := Machine(s.t, s.k, mem, s.pending[..0] + s.pending[1..]);
      assert Performs(s, s', 0);
      assert Step(m, s, s');
    } else {
      var t', k' := if s.k < LAST then s.t else s.t - 1, if s.k < LAST then s.k + 1 else 0;
      var mem := (c: Cell) => if Cleared(k', c) then 0.0 else s.mem(c);
      Bounds(m, s);
      assert Passes(m, s, Machine(t', k', mem, StageAdds(m, t', k')));
      assert Step(m, s, Machine(t', k', mem, StageAdds(m, t', k')));
    }
  }

  lemma Bounds(m: Block, s: Machine)
    requires Inv(m, s)
    ensures 0 <= s.t <= m.rows && 0 <= s.k <= LAST && (s.t == m.rows ==> s.k == LAST)
  {
  }

  /** Each step goes to an earlier row, a later stage of the row, or leaves less pending. */
  lemma StepAdvances(m: Block, s: Machine, s': Machine)
    requires Inv(m, s) && Step(m, s, s')
    ensures 0 <= s'.t && 0 <= s'.k <= LAST
    ensures s'.t < s.t || (s'.t == s.t && (s.k < s'.k || (s'.k == s.k && |s'.pending| < |s.pending|)))
  {
    hide Inv, StageAdds, At;
    Bounds(m, s);
  }
}
