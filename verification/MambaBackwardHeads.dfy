/** The backward computation of one row, continued: the trapezoid with its look-ahead to the next row, the
    angle, step size and decay of every head. */
module MambaBackwardHeads {
  import opened Sums
  import opened Functions
  import opened Indices
  import opened Buffers
  import opened MambaModel
  import opened MambaGradient
  import opened MambaRowKernel

  // ---- trapezoid ----

  /** One head's cotangents towards its own and the next row's projections; `share` is the head's part of
      the trapezoid weight's gradient. */
  function TrapStepOf(k: Fns, share: real, z: real): real { share * Sigmoid(k, z) }

  function TrapProjOf(k: Fns, share: real, dt: real, z: real): real {
    share * dt * Sigmoid(k, z) * (1.0 - Sigmoid(k, z))
  }

  function NextDtOf(k: Fns, share: real, z: real, pre: real): real { share * (1.0 - Sigmoid(k, z)) * Sigmoid(k, pre) }

  function NextTrapOf(k: Fns, share: real, dt: real, z: real): real {
    share * dt * (-Sigmoid(k, z) * (1.0 - Sigmoid(k, z)))
  }

  lemma TrapForms(m: Block, t: int, h: int, share: real)
    requires share == HeadTrapGrad(m, t, h)
    ensures TrapStepOf(m.fns, share, Proj(m, t, TrapAt(m) + h)) == TrapDtGrad(m, t, h)
    ensures TrapProjOf(m.fns, share, Dt(m, t, h), Proj(m, t, TrapAt(m) + h)) == TrapProjGrad(m, t, h)
    ensures t + 1 < m.rows ==> NextDtOf(m.fns, share, NextTrap(m, t, h), NextDtPre(m, t, h)) == NextDtGrad(m, t, h)
    ensures t + 1 < m.rows ==> NextTrapOf(m.fns, share, NextDt(m, t, h), NextTrap(m, t, h)) == NextTrapGrad(m, t, h)
  {
    hide Proj, Dt, NextTrap, NextDtPre, NextDt, Sigmoid, HeadTrapGrad;
    ProductForm(share, Dt(m, t, h), Sigmoid(m.fns, Proj(m, t, TrapAt(m) + h)));
  }

  lemma ProductForm(x: real, y: real, s: real)
    ensures x * y * s * (1.0 - s) == x * y * (s * (1.0 - s))
  {
  }

  /** The next row's input-projection weights of head `h`, and its hidden gradient. */
  method SpreadAhead(m: Block, row: nat, h: nat, toDt: real, toTrap: real, inW: array2<real>, hidden: array2<real>)
    requires h < m.heads && row < m.rows
    requires inW.Length0 == ProjDims(m) && inW.Length1 == m.width && hidden.Length0 == m.rows
             && hidden.Length1 == m.width
    requires inW != hidden
    modifies inW, hidden
    ensures forall p, i :: 0 <= p < ProjDims(m) && 0 <= i < m.width ==>
              inW[p, i] == old(inW[p, i]) + if p == DtAt(m) + h then WeightTerm(m, row, i, toDt)
                                            else if p == TrapAt(m) + h then WeightTerm(m, row, i, toTrap) else 0.0
    ensures forall r, i :: 0 <= r < m.rows && 0 <= i < m.width ==>
              hidden[r, i] == old(hidden[r, i])
                              + if r == row then HiddenBack(m, DtAt(m) + h, i, toDt)
                                + HiddenBack(m, TrapAt(m) + h, i, toTrap) else 0.0
  {
    hide WeightTerm, HiddenBack;
    for i := 0 to m.width
      invariant forall p, k :: 0 <= p < ProjDims(m) && 0 <= k < m.width ==>
                  inW[p, k] == old(inW[p, k]) + if p == DtAt(m) + h && k < i then WeightTerm(m, row, k, toDt)
                                                else if p == TrapAt(m) + h && k < i then WeightTerm(m, row, k, toTrap)
                                                  else 0.0
      invariant forall r, k :: 0 <= r < m.rows && 0 <= k < m.width ==>
                  hidden[r, k] == old(hidden[r, k])
                                  + if r == row && k < i then HiddenBack(m, DtAt(m) + h, k, toDt)
                                    + HiddenBack(m, TrapAt(m) + h, k, toTrap)
                                    else 0.0
    {
      AddCell(inW, DtAt(m) + h, i, WeightTerm(m, row, i, toDt));
      AddCell(inW, TrapAt(m) + h, i, WeightTerm(m, row, i, toTrap));
      AddCell(hidden, row, i, HiddenBack(m, DtAt(m) + h, i, toDt) + HiddenBack(m, TrapAt(m) + h, i, toTrap));
    }
  }

  ghost function AheadCell(m: Block, t: int, h: int, p: int, i: int): real {
    if p == DtAt(m) + h then WeightTerm(m, t + 1, i, NextDtGrad(m, t, h))
    else if p == TrapAt(m) + h then WeightTerm(m, t + 1, i, NextTrapGrad(m, t, h)) else 0.0
  }

  ghost function AheadHiddenCell(m: Block, t: int, h: int, i: int): real {
    HiddenBack(m, DtAt(m) + h, i, NextDtGrad(m, t, h)) + HiddenBack(m, TrapAt(m) + h, i, NextTrapGrad(m, t, h))
  }

  lemma NoAhead(m: Block, t: int, h: int)
    requires t + 1 >= m.rows
    ensures NextDtGrad(m, t, h) == 0.0
    ensures forall p, i :: AheadCell(m, t, h, p, i) == 0.0
  {
  }

  /** The look-ahead of head `h`: nothing after the last row. */
  method AheadHead(m: Block, t: nat, h: nat, share: real, pre: real, dt: real, z: real, dtBias: array<real>,
                   inW: array2<real>, hidden: array2<real>)
    requires h < m.heads && share == HeadTrapGrad(m, t, h) && dtBias.Length == m.heads
    requires pre == NextDtPre(m, t, h) && dt == NextDt(m, t, h) && z == NextTrap(m, t, h)
    requires inW.Length0 == ProjDims(m) && inW.Length1 == m.width && hidden.Length0 == m.rows
             && hidden.Length1 == m.width
    requires inW != hidden
    modifies dtBias, inW, hidden
    ensures forall i :: 0 <= i < m.heads ==> dtBias[i] == old(dtBias[i]) + if i == h then NextDtGrad(m, t, h) else 0.0
    ensures forall p, i :: 0 <= p < ProjDims(m) && 0 <= i < m.width ==>
              inW[p, i] == old(inW[p, i]) + AheadCell(m, t, h, p, i)
    ensures forall r, i :: 0 <= r < m.rows && 0 <= i < m.width ==>
              hidden[r, i] == old(hidden[r, i]) + if r == t + 1 then AheadHiddenCell(m, t, h, i) else 0.0
  {
    hide Proj, Dt, NextTrap, NextDtPre, NextDt, HeadTrapGrad, NextDtOf, NextTrapOf, Sigmoid, WeightTerm, HiddenBack,
         NextDtGrad, NextTrapGrad;
    TrapForms(m, t, h, share);
    if t + 1 < m.rows {
      var toDt := NextDtOf(m.fns, share, z, pre);
      var toTrap := NextTrapOf(m.fns, share, dt, z);
      AddEntry(dtBias, h, toDt);
      SpreadAhead(m, t + 1, h, toDt, toTrap, inW, hidden);
    } else {
      NoAhead(m, t, h);
    }
  }

  lemma HeadInputsOf(m: Block, t: int, row: Row)
    requires row.Holds(m, t)
    ensures Vector(row.proj, ProjDims(m), p => Proj(m, t, p)) && Vector(row.dt, m.heads, h => Dt(m, t, h))
    ensures Vector(row.nextDtPre, m.heads, h => NextDtPre(m, t, h)) && Vector(row.nextDt, m.heads, h => NextDt(m, t, h))
    ensures Vector(row.nextTrap, m.heads, h => NextTrap(m, t, h))
    ensures {row.proj, row.dt, row.nextDtPre, row.nextDt, row.nextTrap} <= row.Repr()
  {
  }

  lemma TrapRange(m: Block, h: int)
    ensures 0 <= h < m.heads ==> 0 <= TrapAt(m) + h < ProjDims(m)
  {
    hide Valid;
  }

  /** The trapezoid of head `k` of group `g`, reversed. */
  method TrapBackHead(m: Block, t: nat, g: nat, k: nat, trapGrad: array<real>, row: Row, step: array<real>,
                      projGrad: array<real>, dtBias: array<real>, inW: array2<real>, hidden: array2<real>)
    requires g < m.groups && k < m.perGroup && row.Holds(m, t) && Vector(trapGrad, m.groups, g => TrapGrad(m, t, g))
    requires step.Length == m.heads && projGrad.Length == ProjDims(m) && dtBias.Length == m.heads
    requires inW.Length0 == ProjDims(m) && inW.Length1 == m.width && hidden.Length0 == m.rows
             && hidden.Length1 == m.width
    requires inW != hidden && {step as object, projGrad, dtBias, inW, hidden} !! row.Repr()
    requires step != projGrad && dtBias !in {step, projGrad} && trapGrad !in {step, projGrad, dtBias}
    modifies step, projGrad, dtBias, inW, hidden
    ensures forall i :: 0 <= i < m.heads ==>
              step[i] == old(step[i]) + if i == GroupHead(m, g, k) then TrapDtGrad(m, t, i) else 0.0
    ensures forall p :: 0 <= p < ProjDims(m) ==>
              projGrad[p] == old(projGrad[p])
                + if p == TrapAt(m) + GroupHead(m, g, k) then TrapProjGrad(m, t, GroupHead(m, g, k)) else 0.0
    ensures forall i :: 0 <= i < m.heads ==>
              dtBias[i] == old(dtBias[i]) + if i == GroupHead(m, g, k) then NextDtGrad(m, t, i) else 0.0
    ensures forall p, i :: 0 <= p < ProjDims(m) && 0 <= i < m.width ==>
              inW[p, i] == old(inW[p, i]) + AheadCell(m, t, GroupHead(m, g, k), p, i)
    ensures forall r, i :: 0 <= r < m.rows && 0 <= i < m.width ==>
              hidden[r, i] == old(hidden[r, i])
                              + if r == t + 1 then AheadHiddenCell(m, t, GroupHead(m, g, k), i) else 0.0
  {
    hide Valid, Proj, Dt, NextDtPre, NextDt, NextTrap, TrapGrad, TrapDtGrad, TrapProjGrad, NextDtGrad, AheadCell,
         AheadHiddenCell, HeadTrapGrad, GroupHead, TrapStepOf, TrapProjOf, Row.Holds, TrapAt, ProjDims, Vector;
    var h := GroupHead(m, g, k);
    TrapRange(m, h);
    var share, here, dt, pre, nextDt, next := HeadValues(m, t, g, k, trapGrad, row);
    TrapForms(m, t, h, share);
    AddEntry(step, h, TrapStepOf(m.fns, share, here));
    AddEntry(projGrad, TrapAt(m) + h, TrapProjOf(m.fns, share, dt, here));
    AheadHead(m, t, h, share, pre, nextDt, next, dtBias, inW, hidden);
  }

  /** What the reversal of head `k` of group `g` reads. */
  method HeadValues(m: Block, t: nat, g: nat, k: nat, trapGrad: array<real>, row: Row)
    returns (share: real, here: real, dt: real, pre: real, nextDt: real, next: real)
    requires g < m.groups && k < m.perGroup && row.Holds(m, t) && Vector(trapGrad, m.groups, g => TrapGrad(m, t, g))
    ensures share == HeadTrapGrad(m, t, GroupHead(m, g, k))
    ensures here == Proj(m, t, TrapAt(m) + GroupHead(m, g, k)) && dt == Dt(m, t, GroupHead(m, g, k))
    ensures pre == NextDtPre(m, t, GroupHead(m, g, k)) && nextDt == NextDt(m, t, GroupHead(m, g, k))
    ensures next == NextTrap(m, t, GroupHead(m, g, k))
  {
    hide Proj, Dt, NextDtPre, NextDt, NextTrap, TrapGrad, HeadTrapGrad, GroupHead, Row.Holds;
    var h := GroupHead(m, g, k);
    HeadInputsOf(m, t, row);
    HeadShare(m, t, g, k);
    share := trapGrad[g] / m.perGroup as real;
    TrapRange(m, h);
    hide Valid, TrapAt, ProjDims;
    here, dt := row.proj[TrapAt(m) + h], row.dt[h];
    pre, nextDt, next := row.nextDtPre[h], row.nextDt[h], row.nextTrap[h];
  }

  lemma HeadShare(m: Block, t: int, g: int, k: int)
    requires 0 <= k < m.perGroup
    ensures HeadTrapGrad(m, t, GroupHead(m, g, k)) == TrapGrad(m, t, g) / m.perGroup as real
  {
    hide TrapGrad;
    DivMod(g, k, m.perGroup);
  }

  // ---- what the heads before `h` have added ----

  ghost function AheadUpto(m: Block, t: int, h: int, p: int, i: int): real {
    if DtAt(m) <= p < DtAt(m) + h then WeightTerm(m, t + 1, i, NextDtGrad(m, t, p - DtAt(m)))
    else if TrapAt(m) <= p < TrapAt(m) + h then WeightTerm(m, t + 1, i, NextTrapGrad(m, t, p - TrapAt(m)))
    else 0.0
  }

  ghost function AheadHiddenUpto(m: Block, t: int, h: int, i: int): real {
    Sum(h, k => AheadHiddenCell(m, t, k, i))
  }

  lemma AheadSteps(m: Block, t: int, h: nat)
    requires h < m.heads
    ensures forall p, i :: AheadUpto(m, t, h + 1, p, i) == AheadUpto(m, t, h, p, i) + AheadCell(m, t, h, p, i)
    ensures forall i :: AheadHiddenUpto(m, t, h + 1, i) == AheadHiddenUpto(m, t, h, i) + AheadHiddenCell(m, t, h, i)
    ensures h == 0 ==> forall p, i :: AheadUpto(m, t, 0, p, i) == 0.0
    ensures h == 0 ==> forall i :: AheadHiddenUpto(m, t, 0, i) == 0.0
  {
    hide WeightTerm, HiddenBack, NextDtGrad, NextTrapGrad, AheadHiddenCell;
  }

  lemma AheadAll(m: Block, t: int)
    ensures forall p, i :: AheadUpto(m, t, m.heads, p, i) == AheadWeightTerm(m, p, i, t)
    ensures forall i :: AheadHiddenUpto(m, t, m.heads, i) == AheadHidden(m, t, i)
  {
    hide NextDtGrad, NextTrapGrad, Sum;
    forall i ensures AheadHiddenUpto(m, t, m.heads, i) == AheadHidden(m, t, i) {
      var x, y := (h: int) => AheadHiddenCell(m, t, h, i),
                  (h: int) => NextDtGrad(m, t, h) * m.inW(DtAt(m) + h, i)
                    + NextTrapGrad(m, t, h) * m.inW(TrapAt(m) + h, i);
      SumEq(m.heads, x, y);
    }
  }

  lemma HeadOrder(m: Block, g: nat, k: nat)
    ensures GroupHead(m, g, k + 1) == GroupHead(m, g, k) + 1 && GroupHead(m, g, k) >= 0
    ensures GroupHead(m, g + 1, 0) == GroupHead(m, g, m.perGroup)
    ensures GroupHead(m, 0, 0) == 0 && GroupHead(m, m.groups, 0) == m.heads
  {
    MulMono(0, g, m.perGroup);
    assert (g + 1) * m.perGroup == g * m.perGroup + m.perGroup;
  }

  ghost function StepUpto(m: Block, t: int, h: int, i: int): real { if i < h then TrapDtGrad(m, t, i) else 0.0 }
  ghost function BiasUpto(m: Block, t: int, h: int, i: int): real { if i < h then NextDtGrad(m, t, i) else 0.0 }

  ghost function ProjUpto(m: Block, t: int, h: int, p: int): real {
    if TrapAt(m) <= p < TrapAt(m) + h then TrapProjGrad(m, t, p - TrapAt(m)) else 0.0
  }

  ghost function NextUpto(m: Block, t: int, h: int, r: int, i: int): real {
    if r == t + 1 then AheadHiddenUpto(m, t, h, i) else 0.0
  }

  /** The buffers' contents before the trapezoids are reversed. */
  datatype Before = Before(step: int -> real, proj: int -> real, bias: int -> real, inW: (int, int) -> real,
                           hidden: (int, int) -> real)

  /** The buffers the trapezoids' reversal adds to. */
  datatype TrapBuffers = TrapBuffers(step: array<real>, proj: array<real>, bias: array<real>, inW: array2<real>,
                                     hidden: array2<real>)
  {
    ghost predicate Apart() { step != proj && step != bias && proj != bias && inW != hidden }

    ghost function Repr(): set<object> { {step, proj, bias, inW, hidden} }

    /** The heads before `h` have been added. */
    ghost predicate Done(m: Block, t: int, h: int, was: Before)
      reads step, proj, bias, inW, hidden
    {
      && Vector(step, m.heads, i => was.step(i) + StepUpto(m, t, h, i))
      && Vector(proj, ProjDims(m), p => was.proj(p) + ProjUpto(m, t, h, p))
      && Vector(bias, m.heads, i => was.bias(i) + BiasUpto(m, t, h, i))
      && Matrix(inW, ProjDims(m), m.width, (p, i) => was.inW(p, i) + AheadUpto(m, t, h, p, i))
      && Matrix(hidden, m.rows, m.width, (r, i) => was.hidden(r, i) + NextUpto(m, t, h, r, i))
    }
  }

  lemma UptoSteps(m: Block, t: int, h: int)
    requires 0 <= h < m.heads
    ensures forall i :: StepUpto(m, t, h + 1, i) == StepUpto(m, t, h, i) + if i == h then TrapDtGrad(m, t, i) else 0.0
    ensures forall i :: BiasUpto(m, t, h + 1, i) == BiasUpto(m, t, h, i) + if i == h then NextDtGrad(m, t, i) else 0.0
    ensures forall p ::
              ProjUpto(m, t, h + 1, p)
              == ProjUpto(m, t, h, p) + if p == TrapAt(m) + h then TrapProjGrad(m, t, h) else 0.0
    ensures forall r, i ::
              NextUpto(m, t, h + 1, r, i)
              == NextUpto(m, t, h, r, i) + if r == t + 1 then AheadHiddenCell(m, t, h, i) else 0.0
    ensures forall p, i :: AheadUpto(m, t, h + 1, p, i) == AheadUpto(m, t, h, p, i) + AheadCell(m, t, h, p, i)
  {
    hide TrapDtGrad, NextDtGrad, TrapProjGrad, AheadHiddenCell, AheadHiddenUpto, AheadUpto, AheadCell;
    AheadSteps(m, t, h);
  }

  method TrapStep(m: Block, t: nat, g: nat, k: nat, trapGrad: array<real>, row: Row, to: TrapBuffers, ghost was: Before)
    requires g < m.groups && k < m.perGroup && row.Holds(m, t) && Vector(trapGrad, m.groups, g => TrapGrad(m, t, g))
    requires to.Apart() && to.Repr() !! row.Repr() && trapGrad !in to.Repr()
    requires to.Done(m, t, GroupHead(m, g, k), was)
    modifies to.step, to.proj, to.bias, to.inW, to.hidden
    ensures to.Done(m, t, GroupHead(m, g, k) + 1, was)
  {
    hide GroupHead, AheadUpto, NextUpto, StepUpto, BiasUpto, ProjUpto, AheadCell, AheadHiddenCell, TrapDtGrad,
         TrapProjGrad, NextDtGrad, Row.Holds, TrapGrad;
    UptoSteps(m, t, GroupHead(m, g, k));
    TrapBackHead(m, t, g, k, trapGrad, row, to.step, to.proj, to.bias, to.inW, to.hidden);
  }

  /** The heads of one group. */
  method TrapGroupScatter(m: Block, t: nat, g: nat, trapGrad: array<real>, row: Row, to: TrapBuffers,
                          ghost was: Before)
    requires g < m.groups && row.Holds(m, t) && Vector(trapGrad, m.groups, g => TrapGrad(m, t, g))
    requires to.Apart() && to.Repr() !! row.Repr() && trapGrad !in to.Repr()
    requires to.Done(m, t, GroupHead(m, g, 0), was)
    modifies to.step, to.proj, to.bias, to.inW, to.hidden
    ensures to.Done(m, t, GroupHead(m, g + 1, 0), was)
    ensures row.Holds(m, t) && Vector(trapGrad, m.groups, g => TrapGrad(m, t, g))
  {
    hide GroupHead, Row.Holds, Row.Repr, TrapGrad, TrapBuffers.Done, Vector;
    RowExists(row);
    for k := 0 to m.perGroup
      invariant to.Done(m, t, GroupHead(m, g, k), was)
      invariant row.Holds(m, t) && Vector(trapGrad, m.groups, g => TrapGrad(m, t, g))
    {
      HeadOrder(m, g, k);
      TrapStep(m, t, g, k, trapGrad, row, to, was);
    }
    HeadOrder(m, g, 0);
  }

  /** The trapezoid weights, reversed, group by group and head by head. */
  method TrapScatter(m: Block, t: nat, trapGrad: array<real>, row: Row, to: TrapBuffers, ghost was: Before)
    requires row.Holds(m, t) && Vector(trapGrad, m.groups, g => TrapGrad(m, t, g))
    requires to.Apart() && to.Repr() !! row.Repr() && trapGrad !in to.Repr()
    requires to.Done(m, t, 0, was)
    modifies to.step, to.proj, to.bias, to.inW, to.hidden
    ensures to.Done(m, t, m.heads, was)
  {
    hide GroupHead, Row.Holds, Row.Repr, TrapGrad, TrapBuffers.Done, Vector;
    HeadOrder(m, 0, 0);
    for g := 0 to m.groups
      invariant to.Done(m, t, GroupHead(m, g, 0), was)
      invariant row.Holds(m, t) && Vector(trapGrad, m.groups, g => TrapGrad(m, t, g))
    {
      TrapGroupScatter(m, t, g, trapGrad, row, to, was);
    }
  }
}
