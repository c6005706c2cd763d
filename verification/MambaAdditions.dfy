/** The atomic additions of one row of the Mamba3 backward kernel.

    Between two barriers the lanes share out the features, ranks, heads, channels or projections of the row,
    and what they write to shared buffers they add atomically.  `StageAdds` lists the additions of each of the
    seven stages; the lemmas say what they come to at every cell. */
module MambaAdditions {
  import opened Sums
  import opened Additions
  import opened MambaModel
  import opened MambaGradient

  /** The cells added to by more than one lane: the gradient buffers, and five scratch buffers of the row. */
  datatype Cell =
    | OutW(o: int, f: int) | Skip(h: int)
    | BScale(c: int) | BBias(c: int) | CScale(c: int) | CBias(c: int)
    | DtBias(h: int) | InW(p: int, i: int) | Hidden(r: int, i: int) | ConvB(c: int) | ConvW(c: int, k: int)
    | BGroup(g: int, n: int) | CGroup(g: int, n: int) | DecayCell(h: int) | StepCell(h: int) | AngleCell(j: int)

  ghost predicate InRange(m: Block, c: Cell) {
    match c
    case OutW(o, f) => 0 <= o < m.width && 0 <= f < m.features
    case Skip(h) => 0 <= h < m.heads
    case BScale(x) => 0 <= x < m.bc
    case BBias(x) => 0 <= x < m.bc
    case CScale(x) => 0 <= x < m.bc
    case CBias(x) => 0 <= x < m.bc
    case DtBias(h) => 0 <= h < m.heads
    case InW(p, i) => 0 <= p < ProjDims(m) && 0 <= i < m.width
    case Hidden(r, i) => 0 <= r < m.rows && 0 <= i < m.width
    case ConvB(x) => 0 <= x < Channels(m)
    case ConvW(x, k) => 0 <= x < Channels(m) && 0 <= k < 3
    case BGroup(g, n) => 0 <= g < m.groups && 0 <= n < m.state
    case CGroup(g, n) => 0 <= g < m.groups && 0 <= n < m.state
    case DecayCell(h) => 0 <= h < m.heads
    case StepCell(h) => 0 <= h < m.heads
    case AngleCell(j) => 0 <= j < m.angles
  }

  /** The scratch buffers the scan adds to, and the section of the projection gradient the heads add to. */
  predicate ScanScratch(c: Cell) { c.BGroup? || c.CGroup? || c.DecayCell? || c.StepCell? }
  predicate Scratch(c: Cell) { ScanScratch(c) || c.AngleCell? }

  // ---- output projection: lanes share the features ----

  ghost function OutAdds(m: Block, t: int, f: int): seq<Add<Cell>> {
    Loop(m.width, o => [Add(OutW(o, f), OutWTerm(m, o, f, t))])
  }

  lemma OutTotal(m: Block, t: int, f: int, c: Cell)
    requires InRange(m, c)
    ensures Total(OutAdds(m, t, f), c) == if c.OutW? && c.f == f then OutWTerm(m, c.o, f, t) else 0.0
  {
    hide OutWTerm, Total, Loop;
    var body := (o: int) => [Add(OutW(o, f), OutWTerm(m, o, f, t))];
    forall o ensures Total(body(o), c) == At(Add(OutW(o, f), OutWTerm(m, o, f, t)), c) {
      TotalOne(Add(OutW(o, f), OutWTerm(m, o, f, t)), c);
    }
    if c.OutW? && c.f == f {
      LoopOne(m.width, body, c, c.o, OutWTerm(m, c.o, f, t));
    } else {
      LoopNone(m.width, body, c);
    }
  }

  // ---- scan: lanes share the features ----

  ghost function SkipShare(m: Block, t: int, f: int): real { ScanOutGrad(m, t, f) * Conv(m, t, f) }
  ghost function CGroupShare(m: Block, t: int, f: int, n: int): real { ScanOutGrad(m, t, f) * State(m, t + 1, f, n) }
  ghost function BGroupShare(m: Block, t: int, f: int, n: int): real { FullStateGrad(m, t, f, n) * Conv(m, t, f) }

  ghost function StateAdds(m: Block, t: int, f: int, n: int): seq<Add<Cell>> {
    [Add(CGroup(Group(m, f), n), CGroupShare(m, t, f, n)), Add(BGroup(Group(m, f), n), BGroupShare(m, t, f, n)),
     Add(DecayCell(Head(m, f)), DecayTerm(m, t, f, n)), Add(StepCell(Head(m, f)), StepTerm(m, t, f, n))]
  }

  ghost function ScanAdds(m: Block, t: int, f: int): seq<Add<Cell>> {
    [Add(Skip(Head(m, f)), SkipShare(m, t, f))] + Loop(m.state, n => StateAdds(m, t, f, n))
  }

  /** What one state of a feature adds to `c`. */
  ghost function StateShare(m: Block, t: int, f: int, c: Cell, n: int): real {
    match c
    case CGroup(g, x) => if x == n && Group(m, f) == g then CGroupShare(m, t, f, n) else 0.0
    case BGroup(g, x) => if x == n && Group(m, f) == g then BGroupShare(m, t, f, n) else 0.0
    case DecayCell(h) => if Head(m, f) == h then DecayTerm(m, t, f, n) else 0.0
    case StepCell(h) => if Head(m, f) == h then StepTerm(m, t, f, n) else 0.0
    case _ => 0.0
  }

  lemma StateTotal(m: Block, t: int, f: int, n: int, c: Cell)
    ensures Total(StateAdds(m, t, f, n), c) == StateShare(m, t, f, c, n)
  {
    hide Total, CGroupShare, BGroupShare, DecayTerm, StepTerm, Head, Group;
    TotalFour(Add(CGroup(Group(m, f), n), CGroupShare(m, t, f, n)),
              Add(BGroup(Group(m, f), n), BGroupShare(m, t, f, n)),
              Add(DecayCell(Head(m, f)), DecayTerm(m, t, f, n)), Add(StepCell(Head(m, f)), StepTerm(m, t, f, n)), c);
  }

  /** What a feature adds to `c`. */
  ghost function FeatureShare(m: Block, t: int, f: int, c: Cell): real {
    match c
    case Skip(h) => if Head(m, f) == h then SkipShare(m, t, f) else 0.0
    case CGroup(g, n) => if Group(m, f) == g then CGroupShare(m, t, f, n) else 0.0
    case BGroup(g, n) => if Group(m, f) == g then BGroupShare(m, t, f, n) else 0.0
    case DecayCell(h) => if Head(m, f) == h then DecayRow(m, t, f) else 0.0
    case StepCell(h) => if Head(m, f) == h then StepRow(m, t, f) else 0.0
    case _ => 0.0
  }

  lemma StatesTotal(m: Block, t: int, f: int, c: Cell)
    requires InRange(m, c)
    ensures Sum(m.state, n => StateShare(m, t, f, c, n)) == if c.Skip? then 0.0 else FeatureShare(m, t, f, c)
  {
    hide Sum, CGroupShare, BGroupShare, DecayTerm, StepTerm, Head, Group, SkipShare;
    var share := (n: int) => StateShare(m, t, f, c, n);
    match c
    case CGroup(g, n) => SumDelta(m.state, n, share);
    case BGroup(g, n) => SumDelta(m.state, n, share);
    case DecayCell(h) =>
      if Head(m, f) == h {
        SumEq(m.state, share, n => DecayTerm(m, t, f, n));
      } else {
        SumZero(m.state, share);
      }
    case StepCell(h) =>
      if Head(m, f) == h {
        SumEq(m.state, share, n => StepTerm(m, t, f, n));
      } else {
        SumZero(m.state, share);
      }
    case _ => SumZero(m.state, share);
  }

  lemma ScanTotal(m: Block, t: int, f: int, c: Cell)
    requires InRange(m, c)
    ensures Total(ScanAdds(m, t, f), c) == FeatureShare(m, t, f, c)
  {
    hide Total, Loop, StateAdds, StateShare, Sum, CGroupShare, BGroupShare, DecayRow, StepRow, Head, Group, SkipShare;
    var first, body := Add(Skip(Head(m, f)), SkipShare(m, t, f)), (n: int) => StateAdds(m, t, f, n);
    TotalOne(first, c);
    TotalConcat([first], Loop(m.state, body), c);
    forall n ensures Total(body(n), c) == StateShare(m, t, f, c, n) {
      StateTotal(m, t, f, n, c);
    }
    LoopTotal(m.state, body, c, n => StateShare(m, t, f, c, n));
    StatesTotal(m, t, f, c);
  }

  // ---- normalisations: lanes share the ranks ----

  ghost function ChannelAdds(m: Block, t: int, c: int): seq<Add<Cell>> {
    [Add(BScale(c), BScaleTerm(m, c, t)), Add(BBias(c), BBiasTerm(m, c, t)),
     Add(CScale(c), CScaleTerm(m, c, t)), Add(CBias(c), CBiasTerm(m, c, t))]
  }

  ghost function RankAdds(m: Block, t: int, r: int): seq<Add<Cell>> {
    Loop(m.groups, g => Loop(m.state, n => ChannelAdds(m, t, Flat(m, r, g, n))))
  }

  /** What channel `x` adds to `c`. */
  ghost function ChannelShare(m: Block, t: int, x: int, c: Cell): real {
    match c
    case BScale(y) => if x == y then BScaleTerm(m, y, t) else 0.0
    case BBias(y) => if x == y then BBiasTerm(m, y, t) else 0.0
    case CScale(y) => if x == y then CScaleTerm(m, y, t) else 0.0
    case CBias(y) => if x == y then CBiasTerm(m, y, t) else 0.0
    case _ => 0.0
  }

  lemma ChannelTotal(m: Block, t: int, x: int, c: Cell)
    ensures Total(ChannelAdds(m, t, x), c) == ChannelShare(m, t, x, c)
  {
    hide Total, BScaleTerm, BBiasTerm, CScaleTerm, CBiasTerm;
    TotalFour(Add(BScale(x), BScaleTerm(m, x, t)), Add(BBias(x), BBiasTerm(m, x, t)),
              Add(CScale(x), CScaleTerm(m, x, t)), Add(CBias(x), CBiasTerm(m, x, t)), c);
  }

  /** The ranks, groups and states together are every channel once. */
  lemma RanksTotal(m: Block, t: int, c: Cell)
    ensures Total(Loop(m.ranks, r => RankAdds(m, t, r)), c) == Sum(m.bc, x => ChannelShare(m, t, x, c))
  {
    hide Total, Loop, Sum, ChannelAdds, ChannelShare, RankAdds;
    var share := (x: int) => ChannelShare(m, t, x, c);
    var ofGroup := (q: int) => Sum(m.state, n => share(q * m.state + n));
    var ofRank := (r: int) => Sum(m.groups, g => ofGroup(r * m.groups + g));
    forall r | 0 <= r < m.ranks ensures Total(RankAdds(m, t, r), c) == ofRank(r) {
      RankTotal(m, t, r, c, share, ofGroup);
    }
    LoopTotal(m.ranks, r => RankAdds(m, t, r), c, ofRank);
    SumFlatten(m.ranks, m.groups, ofGroup);
    SumFlatten(m.ranks * m.groups, m.state, share);
  }

  lemma RankTotal(m: Block, t: int, r: int, c: Cell, share: int -> real, ofGroup: int -> real)
    requires forall x {:trigger share(x)} :: share(x) == ChannelShare(m, t, x, c)
    requires forall q {:trigger ofGroup(q)} :: ofGroup(q) == Sum(m.state, n => share(q * m.state + n))
    ensures Total(RankAdds(m, t, r), c) == Sum(m.groups, g => ofGroup(r * m.groups + g))
  {
    hide Total, Loop, Sum, ChannelAdds, ChannelShare;
    var body := (g: int) => Loop(m.state, n => ChannelAdds(m, t, Flat(m, r, g, n)));
    forall g ensures Total(body(g), c) == ofGroup(r * m.groups + g) {
      var cells := (n: int) => ChannelAdds(m, t, Flat(m, r, g, n));
      var shares := (n: int) => share((r * m.groups + g) * m.state + n);
      forall n ensures Total(cells(n), c) == shares(n) {
        ChannelTotal(m, t, Flat(m, r, g, n), c);
      }
      LoopTotal(m.state, cells, c, shares);
    }
    LoopTotal(m.groups, body, c, g => ofGroup(r * m.groups + g));
  }

  // ---- look-ahead of the trapezoids: lanes share the heads ----

  ghost function AheadCell(m: Block, t: int, h: int, i: int): real {
    HiddenBack(m, DtAt(m) + h, i, NextDtGrad(m, t, h)) + HiddenBack(m, TrapAt(m) + h, i, NextTrapGrad(m, t, h))
  }

  ghost function AheadCellAdds(m: Block, t: int, h: int, i: int): seq<Add<Cell>> {
    [Add(InW(DtAt(m) + h, i), WeightTerm(m, t + 1, i, NextDtGrad(m, t, h))),
     Add(InW(TrapAt(m) + h, i), WeightTerm(m, t + 1, i, NextTrapGrad(m, t, h))),
     Add(Hidden(t + 1, i), AheadCell(m, t, h, i))]
  }

  ghost function AheadAdds(m: Block, t: int, h: int): seq<Add<Cell>> {
    if t + 1 < m.rows then
      [Add(DtBias(h), NextDtGrad(m, t, h))] + Loop(m.width, i => AheadCellAdds(m, t, h, i))
    else []
  }

  ghost function AheadShare(m: Block, t: int, h: int, c: Cell): real {
    match c
    case DtBias(x) => if x == h then NextDtGrad(m, t, h) else 0.0
    case InW(p, i) => if p == DtAt(m) + h then WeightTerm(m, t + 1, i, NextDtGrad(m, t, h))
                      else if p == TrapAt(m) + h then WeightTerm(m, t + 1, i, NextTrapGrad(m, t, h)) else 0.0
    case Hidden(r, i) => if r == t + 1 then AheadCell(m, t, h, i) else 0.0
    case _ => 0.0
  }

  lemma AheadCellTotal(m: Block, t: int, h: int, i: int, c: Cell)
    ensures Total(AheadCellAdds(m, t, h, i), c)
         == if (c.InW? || c.Hidden?) && c.i == i then AheadShare(m, t, h, c) else 0.0
  {
    hide Total, WeightTerm, AheadCell, NextDtGrad, NextTrapGrad;
    assert DtAt(m) + h != TrapAt(m) + h;
    TotalThree(Add(InW(DtAt(m) + h, i), WeightTerm(m, t + 1, i, NextDtGrad(m, t, h))),
               Add(InW(TrapAt(m) + h, i), WeightTerm(m, t + 1, i, NextTrapGrad(m, t, h))),
               Add(Hidden(t + 1, i), AheadCell(m, t, h, i)), c);
  }

  lemma AheadTotal(m: Block, t: int, h: int, c: Cell)
    requires InRange(m, c)
    ensures Total(AheadAdds(m, t, h), c) == AheadShare(m, t, h, c)
  {
    hide Total, Loop, AheadCellAdds, WeightTerm, AheadCell, NextDtGrad, NextTrapGrad;
    if t + 1 < m.rows {
      var first, body := Add(DtBias(h), NextDtGrad(m, t, h)), (i: int) => AheadCellAdds(m, t, h, i);
      TotalOne(first, c);
      TotalConcat([first], Loop(m.width, body), c);
      forall i ensures Total(body(i), c) == if (c.InW? || c.Hidden?) && c.i == i then AheadShare(m, t, h, c) else 0.0 {
        AheadCellTotal(m, t, h, i, c);
      }
      if c.InW? || c.Hidden? {
        LoopOne(m.width, body, c, c.i, AheadShare(m, t, h, c));
      } else {
        LoopNone(m.width, body, c);
      }
    } else {
      NoAdditions(c);
      NoLookAhead(m, t, h, c);
    }
  }

  /** The last row looks ahead to nothing. */
  lemma NoLookAhead(m: Block, t: int, h: int, c: Cell)
    requires InRange(m, c) && m.rows <= t + 1
    ensures AheadShare(m, t, h, c) == 0.0
  {
    assert NextDtGrad(m, t, h) == 0.0 && NextTrapGrad(m, t, h) == 0.0;
  }

  // ---- angles and steps: lanes share the heads ----

  ghost function AngleShare(m: Block, t: int, h: int, j: int): real { AngleGrad(m, t, h, j) * Dt(m, t, h) }

  ghost function HeadAdds(m: Block, t: int, h: int): seq<Add<Cell>> {
    Loop(m.angles, j => [Add(AngleCell(j), AngleShare(m, t, h, j))]) + [Add(DtBias(h), DtProjGrad(m, t, h))]
  }

  ghost function HeadShare(m: Block, t: int, h: int, c: Cell): real {
    match c
    case AngleCell(j) => AngleShare(m, t, h, j)
    case DtBias(x) => if x == h then DtProjGrad(m, t, h) else 0.0
    case _ => 0.0
  }

  lemma HeadTotal(m: Block, t: int, h: int, c: Cell)
    requires InRange(m, c)
    ensures Total(HeadAdds(m, t, h), c) == HeadShare(m, t, h, c)
  {
    hide Total, Loop, AngleShare, DtProjGrad;
    var body, last := (j: int) => [Add(AngleCell(j), AngleShare(m, t, h, j))], Add(DtBias(h), DtProjGrad(m, t, h));
    TotalOne(last, c);
    TotalConcat(Loop(m.angles, body), [last], c);
    forall j ensures Total(body(j), c) == At(Add(AngleCell(j), AngleShare(m, t, h, j)), c) {
      TotalOne(Add(AngleCell(j), AngleShare(m, t, h, j)), c);
    }
    if c.AngleCell? {
      LoopOne(m.angles, body, c, c.j, AngleShare(m, t, h, c.j));
    } else {
      LoopNone(m.angles, body, c);
    }
  }

  // ---- convolution: lanes share the channels ----

  ghost function TapBack(m: Block, t: int, k: int, c: int, i: int): real {
    ConvPreGrad(m, t, c) * m.convW(c, k) * m.inW(ConvAt(m) + c, i)
  }

  ghost function TapCellAdds(m: Block, t: int, k: int, c: int, i: int): seq<Add<Cell>> {
    [Add(InW(ConvAt(m) + c, i), TapWeightTerm(m, t, k, c, i)), Add(Hidden(t - 2 + k, i), TapBack(m, t, k, c, i))]
  }

  ghost function TapAdds(m: Block, t: int, k: int, c: int): seq<Add<Cell>> {
    [Add(ConvW(c, k), ConvWTerm(m, c, k, t))]
    + if t - 2 + k >= 0 then Loop(m.width, i => TapCellAdds(m, t, k, c, i)) else []
  }

  ghost function ConvAdds(m: Block, t: int, c: int): seq<Add<Cell>> {
    [Add(ConvB(c), ConvBTerm(m, c, t))] + TapAdds(m, t, 0, c) + TapAdds(m, t, 1, c)
    + [Add(ConvW(c, 2), ConvWTerm(m, c, 2, t))]
  }

  ghost function TapShare(m: Block, t: int, k: int, x: int, c: Cell): real {
    match c
    case ConvW(y, l) => if x == y && l == k then ConvWTerm(m, y, k, t) else 0.0
    case InW(p, i) => if p == ConvAt(m) + x then TapWeightTerm(m, t, k, x, i) else 0.0
    case Hidden(r, i) => if r == t - 2 + k then TapBack(m, t, k, x, i) else 0.0
    case _ => 0.0
  }

  lemma TapTotal(m: Block, t: int, k: int, x: int, c: Cell)
    requires InRange(m, c)
    ensures Total(TapAdds(m, t, k, x), c) == TapShare(m, t, k, x, c)
  {
    hide Total, Loop, TapWeightTerm, TapBack, ConvWTerm;
    var first, body := Add(ConvW(x, k), ConvWTerm(m, x, k, t)), (i: int) => TapCellAdds(m, t, k, x, i);
    var rest := if t - 2 + k >= 0 then Loop(m.width, body) else [];
    TotalOne(first, c);
    TotalConcat([first], rest, c);
    if t - 2 + k >= 0 {
      forall i ensures Total(body(i), c) == if (c.InW? || c.Hidden?) && c.i == i then TapShare(m, t, k, x, c) else 0.0 {
        TotalTwo(Add(InW(ConvAt(m) + x, i), TapWeightTerm(m, t, k, x, i)),
                 Add(Hidden(t - 2 + k, i), TapBack(m, t, k, x, i)), c);
      }
      if c.InW? || c.Hidden? {
        LoopOne(m.width, body, c, c.i, TapShare(m, t, k, x, c));
      } else {
        LoopNone(m.width, body, c);
      }
    } else {
      NoAdditions(c);
      NoTapRow(m, t, k, x, c);
    }
  }

  /** A tap before the first row reads nothing and reaches no row. */
  lemma NoTapRow(m: Block, t: int, k: int, x: int, c: Cell)
    requires InRange(m, c) && t - 2 + k < 0
    ensures c.InW? || c.Hidden? ==> TapShare(m, t, k, x, c) == 0.0
  {
    hide ConvPreGrad;
  }

  ghost function ConvShare(m: Block, t: int, x: int, c: Cell): real {
    TapShare(m, t, 0, x, c) + TapShare(m, t, 1, x, c)
    + match c
      case ConvB(y) => if x == y then ConvBTerm(m, y, t) else 0.0
      case ConvW(y, k) => if x == y && k == 2 then ConvWTerm(m, y, 2, t) else 0.0
      case _ => 0.0
  }

  lemma ConvTotal(m: Block, t: int, x: int, c: Cell)
    requires InRange(m, c)
    ensures Total(ConvAdds(m, t, x), c) == ConvShare(m, t, x, c)
  {
    hide Total, TapAdds, TapShare, ConvBTerm, ConvWTerm;
    var first, last := Add(ConvB(x), ConvBTerm(m, x, t)), Add(ConvW(x, 2), ConvWTerm(m, x, 2, t));
    TotalOne(first, c);
    TotalOne(last, c);
    TapTotal(m, t, 0, x, c);
    TapTotal(m, t, 1, x, c);
    TotalConcat([first], TapAdds(m, t, 0, x), c);
    TotalConcat([first] + TapAdds(m, t, 0, x), TapAdds(m, t, 1, x), c);
    TotalConcat([first] + TapAdds(m, t, 0, x) + TapAdds(m, t, 1, x), [last], c);
  }

  // ---- the row's own projection: lanes share the projections ----

  ghost function OwnCellAdds(m: Block, t: int, p: int, i: int): seq<Add<Cell>> {
    [Add(InW(p, i), WeightTerm(m, t, i, ProjGrad(m, t, p))), Add(Hidden(t, i), HiddenBack(m, p, i, ProjGrad(m, t, p)))]
  }

  ghost function OwnAdds(m: Block, t: int, p: int): seq<Add<Cell>> {
    Loop(m.width, i => OwnCellAdds(m, t, p, i))
  }

  ghost function OwnShare(m: Block, t: int, p: int, c: Cell): real {
    match c
    case InW(q, i) => if p == q then WeightTerm(m, t, i, ProjGrad(m, t, p)) else 0.0
    case Hidden(r, i) => if r == t then HiddenBack(m, p, i, ProjGrad(m, t, p)) else 0.0
    case _ => 0.0
  }

  lemma OwnTotal(m: Block, t: int, p: int, c: Cell)
    requires InRange(m, c)
    ensures Total(OwnAdds(m, t, p), c) == OwnShare(m, t, p, c)
  {
    hide Total, Loop, WeightTerm, HiddenBack, ProjGrad;
    var body := (i: int) => OwnCellAdds(m, t, p, i);
    forall i ensures Total(body(i), c) == if (c.InW? || c.Hidden?) && c.i == i then OwnShare(m, t, p, c) else 0.0 {
      TotalTwo(Add(InW(p, i), WeightTerm(m, t, i, ProjGrad(m, t, p))),
               Add(Hidden(t, i), HiddenBack(m, p, i, ProjGrad(m, t, p))), c);
    }
    if c.InW? || c.Hidden? {
      LoopOne(m.width, body, c, c.i, OwnShare(m, t, p, c));
    } else {
      LoopNone(m.width, body, c);
    }
  }
}
