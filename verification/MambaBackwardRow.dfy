/** The backward computation of one row, stage by stage, on the kernel's gradient buffers. */
module MambaBackwardRow {
  import opened Sums
  import opened Buffers
  import opened MambaModel
  import opened MambaGradient
  import opened MambaRowKernel

  // ---- output projection ----

  method OutBack(m: Block, t: nat, gated: array<real>, outW: array2<real>) returns (gatedGrad: array<real>)
    requires Vector(gated, m.features, f => Gated(m, t, f))
    requires outW.Length0 == m.width && outW.Length1 == m.features
    modifies outW
    ensures forall o, f :: 0 <= o < m.width && 0 <= f < m.features ==>
            outW[o, f] == old(outW[o, f]) + OutWTerm(m, o, f, t)
    ensures fresh(gatedGrad) && Vector(gatedGrad, m.features, f => GatedGrad(m, t, f))
  {
    hide Gated;
    gatedGrad := new real[m.features];
    for f := 0 to m.features
      invariant forall i :: 0 <= i < f ==> gatedGrad[i] == GatedGrad(m, t, i)
      invariant forall o, i :: 0 <= o < m.width && 0 <= i < m.features ==>
                  outW[o, i] == old(outW[o, i]) + if i < f then OutWTerm(m, o, i, t) else 0.0
    {
      gatedGrad[f] := OutBackFeature(m, t, f, gated[f], outW);
    }
  }

  method OutBackFeature(m: Block, t: nat, f: nat, gated: real, outW: array2<real>) returns (grad: real)
    requires f < m.features && gated == Gated(m, t, f)
    requires outW.Length0 == m.width && outW.Length1 == m.features
    modifies outW
    ensures grad == GatedGrad(m, t, f)
    ensures forall o, i :: 0 <= o < m.width && 0 <= i < m.features ==>
              outW[o, i] == old(outW[o, i]) + if i == f then OutWTerm(m, o, f, t) else 0.0
  {
    hide Gated;
    grad := 0.0;
    for o := 0 to m.width
      invariant grad == Sum(o, k => m.up(t, k) * m.outW(k, f))
      invariant forall k, i :: 0 <= k < m.width && 0 <= i < m.features ==>
                  outW[k, i] == old(outW[k, i]) + if i == f && k < o then OutWTerm(m, k, f, t) else 0.0
    {
      grad := grad + m.up(t, o) * m.outW(o, f);
      outW[o, f] := outW[o, f] + m.up(t, o) * gated;
    }
  }

  // ---- scan ----

  /** The buffers the scan's reversal scatters into, keyed by group and by head. */
  datatype ScanGrads = ScanGrads(bRot: array2<real>, cRot: array2<real>, decay: array<real>, step: array<real>)
  {
    ghost predicate Apart() { bRot != cRot && decay != step }

    ghost predicate Fits(m: Block) {
      && bRot.Length0 == m.groups && bRot.Length1 == m.state && cRot.Length0 == m.groups && cRot.Length1 == m.state
      && decay.Length == m.heads && step.Length == m.heads
    }

    /** What features `0..f` and, of feature `f`, the states `0..n` have contributed. */
    ghost predicate Holds(m: Block, t: int, f: int)
      reads bRot, cRot, decay, step
    {
      && Matrix(bRot, m.groups, m.state, (g, n) => BRotPart(m, t, f, g, n))
      && Matrix(cRot, m.groups, m.state, (g, n) => CRotPart(m, t, f, g, n))
      && Vector(decay, m.heads, h => DecayPart(m, t, f, h))
      && Vector(step, m.heads, h => StepPart(m, t, f, h))
    }

    /** What features `0..f` and the states `0..n` of feature `f` have contributed. */
    ghost predicate Upto(m: Block, t: int, f: int, n: int)
      reads bRot, cRot, decay, step
    {
      && Matrix(bRot, m.groups, m.state, (g, k) => BRotPart(m, t, if k < n then f + 1 else f, g, k))
      && Matrix(cRot, m.groups, m.state, (g, k) => CRotPart(m, t, if k < n then f + 1 else f, g, k))
      && Vector(decay, m.heads, h => DecayUpto(m, t, f, n, h))
      && Vector(step, m.heads, h => StepUpto(m, t, f, n, h))
    }
  }

  ghost function DecayUpto(m: Block, t: int, f: int, n: int, h: int): real {
    DecayPart(m, t, f, h) + if h == Head(m, f) then Sum(n, k => DecayTerm(m, t, f, k)) else 0.0
  }

  ghost function StepUpto(m: Block, t: int, f: int, n: int, h: int): real {
    StepPart(m, t, f, h) + if h == Head(m, f) then Sum(n, k => StepTerm(m, t, f, k)) else 0.0
  }

  ghost function BRotPart(m: Block, t: int, f: int, g: int, n: int): real {
    Keyed(f, i => Group(m, i), i => FullStateGrad(m, t, i, n) * Conv(m, t, i), g)
  }

  ghost function CRotPart(m: Block, t: int, f: int, g: int, n: int): real {
    Keyed(f, i => Group(m, i), i => ScanOutGrad(m, t, i) * State(m, t + 1, i, n), g)
  }

  ghost function DecayPart(m: Block, t: int, f: int, h: int): real {
    Keyed(f, i => Head(m, i), i => DecayRow(m, t, i), h)
  }

  ghost function StepPart(m: Block, t: int, f: int, h: int): real {
    Keyed(f, i => Head(m, i), i => StepRow(m, t, i), h)
  }

  lemma PartSteps(m: Block, t: int, f: nat, g: int, h: int, n: int)
    ensures BRotPart(m, t, f + 1, g, n)
         == BRotPart(m, t, f, g, n) + if Group(m, f) == g then FullStateGrad(m, t, f, n) * Conv(m, t, f) else 0.0
    ensures CRotPart(m, t, f + 1, g, n)
         == CRotPart(m, t, f, g, n) + if Group(m, f) == g then ScanOutGrad(m, t, f) * State(m, t + 1, f, n) else 0.0
    ensures DecayPart(m, t, f + 1, h) == DecayPart(m, t, f, h) + if Head(m, f) == h then DecayRow(m, t, f) else 0.0
    ensures StepPart(m, t, f + 1, h) == StepPart(m, t, f, h) + if Head(m, f) == h then StepRow(m, t, f) else 0.0
  {
    hide FullStateGrad, Conv, ScanOutGrad, State, DecayRow, StepRow, Group, Head;
  }

  /** Feature `f`'s row values that every state of it uses. */
  datatype Feature = Feature(grad: real, keep: real, dt: real, decay: real, x: real)

  ghost predicate IsFeature(m: Block, t: int, f: int, v: Feature) {
    && v.grad == ScanOutGrad(m, t, f) && v.keep == Keep(m, t, Head(m, f)) && v.dt == Dt(m, t, Head(m, f))
    && v.decay == Decay(m, t, Head(m, f)) && v.x == Conv(m, t, f)
  }

  /** The scalar work of one state of one feature. */
  function FullOf(v: Feature, dh: real, c: real): real { dh + v.grad * c }
  function CTermOf(v: Feature, next: real): real { v.grad * next }
  function BTermOf(v: Feature, full: real): real { full * v.x }
  function DecayTermOf(v: Feature, full: real, prev: real): real { full * prev * v.keep * v.dt }
  function StepTermOf(v: Feature, full: real, prev: real): real { full * prev * v.keep * v.decay }
  function DhOf(v: Feature, full: real): real { full * v.keep }

  lemma CellForms(m: Block, t: int, f: int, n: int, v: Feature)
    requires t < m.rows && IsFeature(m, t, f, v)
    ensures FullOf(v, StateGrad(m, t + 1, f, n), CRot(m, t, Group(m, f), n)) == FullStateGrad(m, t, f, n)
    ensures CTermOf(v, State(m, t + 1, f, n)) == ScanOutGrad(m, t, f) * State(m, t + 1, f, n)
    ensures BTermOf(v, FullStateGrad(m, t, f, n)) == FullStateGrad(m, t, f, n) * Conv(m, t, f)
    ensures DecayTermOf(v, FullStateGrad(m, t, f, n), State(m, t, f, n)) == DecayTerm(m, t, f, n)
    ensures StepTermOf(v, FullStateGrad(m, t, f, n), State(m, t, f, n)) == StepTerm(m, t, f, n)
    ensures DhOf(v, FullStateGrad(m, t, f, n)) == StateGrad(m, t, f, n)
  {
    hide Keep, Dt, Decay, Conv, CRot, State, ScanOutGrad, Head, Group;
  }

  /** The reversal of state `n` of feature `f`; the two parameters after `v` are its B and C. */
  method ScanBackState(m: Block, t: nat, f: nat, n: nat, v: Feature, b: real, c: real, next: real, prev: real, dh: real,
                       dhPrev: array2<real>, gr: ScanGrads)
    returns (xTerm: real)
    requires t < m.rows && f < m.features && n < m.state && IsFeature(m, t, f, v)
    requires b == BRot(m, t, Group(m, f), n) && c == CRot(m, t, Group(m, f), n)
    requires next == State(m, t + 1, f, n) && prev == State(m, t, f, n) && dh == StateGrad(m, t + 1, f, n)
    requires gr.Fits(m) && dhPrev.Length0 == m.features && dhPrev.Length1 == m.state
    requires gr.Apart() && dhPrev != gr.bRot && dhPrev != gr.cRot
    modifies dhPrev, gr.bRot, gr.cRot, gr.decay, gr.step
    ensures forall i, k :: 0 <= i < m.features && 0 <= k < m.state ==>
              dhPrev[i, k] == if i == f && k == n then StateGrad(m, t, f, n) else old(dhPrev[i, k])
    ensures forall i, k :: 0 <= i < m.groups && 0 <= k < m.state ==>
              gr.bRot[i, k] == old(gr.bRot[i, k])
                + if i == Group(m, f) && k == n then FullStateGrad(m, t, f, n) * Conv(m, t, f) else 0.0
    ensures forall i, k :: 0 <= i < m.groups && 0 <= k < m.state ==>
              gr.cRot[i, k] == old(gr.cRot[i, k])
                + if i == Group(m, f) && k == n then ScanOutGrad(m, t, f) * State(m, t + 1, f, n) else 0.0
    ensures forall i :: 0 <= i < m.heads ==>
              gr.decay[i] == old(gr.decay[i]) + if i == Head(m, f) then DecayTerm(m, t, f, n) else 0.0
    ensures forall i :: 0 <= i < m.heads ==>
              gr.step[i] == old(gr.step[i]) + if i == Head(m, f) then StepTerm(m, t, f, n) else 0.0
    ensures xTerm == FullStateGrad(m, t, f, n) * BRot(m, t, Group(m, f), n)
  {
    hide FullOf, CTermOf, BTermOf, DecayTermOf, StepTermOf, DhOf, IsFeature, FullStateGrad, StateGrad, State, BRot,
         CRot, DecayTerm, StepTerm, Group, Head, ScanOutGrad, Conv;
    var h, g := Head(m, f), Group(m, f);
    CellForms(m, t, f, n, v);
    var full := FullOf(v, dh, c);
    gr.cRot[g, n] := gr.cRot[g, n] + CTermOf(v, next);
    xTerm := full * b;
    gr.bRot[g, n] := gr.bRot[g, n] + BTermOf(v, full);
    gr.decay[h] := gr.decay[h] + DecayTermOf(v, full, prev);
    gr.step[h] := gr.step[h] + StepTermOf(v, full, prev);
    dhPrev[f, n] := DhOf(v, full);
  }

  /** Adding state `n` of feature `f` to the accumulators. */
  method ScanBackNext(m: Block, t: nat, f: nat, n: nat, v: Feature, b: real, c: real, next: real, prev: real, dh: real,
                      dhPrev: array2<real>, gr: ScanGrads)
    returns (xTerm: real)
    requires t < m.rows && f < m.features && n < m.state && IsFeature(m, t, f, v)
    requires b == BRot(m, t, Group(m, f), n) && c == CRot(m, t, Group(m, f), n)
    requires next == State(m, t + 1, f, n) && prev == State(m, t, f, n) && dh == StateGrad(m, t + 1, f, n)
    requires dhPrev.Length0 == m.features && dhPrev.Length1 == m.state
    requires gr.Apart() && dhPrev != gr.bRot && dhPrev != gr.cRot && gr.Upto(m, t, f, n)
    modifies dhPrev, gr.bRot, gr.cRot, gr.decay, gr.step
    ensures gr.Upto(m, t, f, n + 1)
    ensures forall i, k :: 0 <= i < m.features && 0 <= k < m.state ==>
              dhPrev[i, k] == if i == f && k == n then StateGrad(m, t, f, n) else old(dhPrev[i, k])
    ensures xTerm == FullStateGrad(m, t, f, n) * BRot(m, t, Group(m, f), n)
  {
    hide IsFeature, FullStateGrad, StateGrad, State, BRot, CRot, DecayTerm, StepTerm, BRotPart, CRotPart, DecayUpto,
         StepUpto, Group, Head, ScanOutGrad, Conv;
    GroupSteps(m, t, f, n);
    UptoSteps(m, t, f, n);
    xTerm := ScanBackState(m, t, f, n, v, b, c, next, prev, dh, dhPrev, gr);
  }

  lemma UptoSteps(m: Block, t: int, f: nat, n: nat)
    ensures forall h {:trigger DecayUpto(m, t, f, n + 1, h)} ::
              DecayUpto(m, t, f, n + 1, h)
              == DecayUpto(m, t, f, n, h) + if h == Head(m, f) then DecayTerm(m, t, f, n) else 0.0
    ensures forall h {:trigger StepUpto(m, t, f, n + 1, h)} ::
              StepUpto(m, t, f, n + 1, h)
              == StepUpto(m, t, f, n, h) + if h == Head(m, f) then StepTerm(m, t, f, n) else 0.0
  {
    hide DecayPart, StepPart, DecayTerm, StepTerm, Head;
  }

  lemma UptoStart(m: Block, t: int, f: nat, gr: ScanGrads)
    requires gr.Holds(m, t, f)
    ensures gr.Upto(m, t, f, 0)
  {
    hide BRotPart, CRotPart, DecayPart, StepPart, DecayTerm, StepTerm, Head;
  }

  lemma UptoEnd(m: Block, t: int, f: nat, gr: ScanGrads)
    requires gr.Upto(m, t, f, m.state)
    ensures gr.Holds(m, t, f + 1)
  {
    hide BRotPart, CRotPart, DecayPart, StepPart, DecayTerm, StepTerm, Head;
    HeadSteps(m, t, f);
  }

  /** The reversal of feature `f`, state by state. */
  method ScanBackFeature(m: Block, t: nat, f: nat, v: Feature, bRot: array2<real>, cRot: array2<real>,
                         next: array2<real>, prev: array2<real>, dh: array2<real>, dhPrev: array2<real>, gr: ScanGrads)
    returns (xGrad: real)
    requires t < m.rows && f < m.features && IsFeature(m, t, f, v)
    requires Matrix(bRot, m.groups, m.state, (g, n) => BRot(m, t, g, n))
    requires Matrix(cRot, m.groups, m.state, (g, n) => CRot(m, t, g, n))
    requires Matrix(next, m.features, m.state, (f, n) => State(m, t + 1, f, n))
    requires Matrix(prev, m.features, m.state, (f, n) => State(m, t, f, n))
    requires Matrix(dh, m.features, m.state, (f, n) => StateGrad(m, t + 1, f, n))
    requires dhPrev.Length0 == m.features && dhPrev.Length1 == m.state
    requires gr.Apart() && gr.Holds(m, t, f)
    requires {dhPrev, gr.bRot, gr.cRot} !! {bRot, cRot, next, prev, dh} && dhPrev != gr.bRot && dhPrev != gr.cRot
    modifies dhPrev, gr.bRot, gr.cRot, gr.decay, gr.step
    ensures gr.Holds(m, t, f + 1)
    ensures forall i, n :: 0 <= i < m.features && 0 <= n < m.state ==>
              dhPrev[i, n] == if i == f then StateGrad(m, t, f, n) else old(dhPrev[i, n])
    ensures xGrad == XRow(m, t, f)
  {
    hide IsFeature, FullStateGrad, StateGrad, State, BRot, CRot, Group, ScanGrads.Holds, ScanGrads.Upto;
    var g := Group(m, f);
    xGrad := 0.0;
    UptoStart(m, t, f, gr);
    for n := 0 to m.state
      invariant gr.Upto(m, t, f, n)
      invariant forall i, k :: 0 <= i < m.features && 0 <= k < m.state ==>
                  dhPrev[i, k] == if i == f && k < n then StateGrad(m, t, f, k) else old(dhPrev[i, k])
      invariant xGrad == Sum(n, k => FullStateGrad(m, t, f, k) * BRot(m, t, Group(m, f), k))
    {
      var x := ScanBackNext(m, t, f, n, v, bRot[g, n], cRot[g, n], next[f, n], prev[f, n], dh[f, n], dhPrev, gr);
      xGrad := xGrad + x;
    }
    UptoEnd(m, t, f, gr);
  }

  lemma GroupSteps(m: Block, t: int, f: nat, n: int)
    ensures forall g :: BRotPart(m, t, f + 1, g, n)
                     == BRotPart(m, t, f, g, n) + if Group(m, f) == g then FullStateGrad(m, t, f, n) * Conv(m, t, f)
                        else 0.0
    ensures forall g :: CRotPart(m, t, f + 1, g, n)
                     == CRotPart(m, t, f, g, n) + if Group(m, f) == g then ScanOutGrad(m, t, f) * State(m, t + 1, f, n)
                        else 0.0
  {
    hide BRotPart, CRotPart, DecayPart, StepPart, FullStateGrad, Conv, ScanOutGrad, State, DecayRow, StepRow, Group,
         Head;
    forall g
      ensures BRotPart(m, t, f + 1, g, n)
           == BRotPart(m, t, f, g, n) + if Group(m, f) == g then FullStateGrad(m, t, f, n) * Conv(m, t, f) else 0.0
      ensures CRotPart(m, t, f + 1, g, n)
           == CRotPart(m, t, f, g, n) + if Group(m, f) == g then ScanOutGrad(m, t, f) * State(m, t + 1, f, n) else 0.0
    {
      PartSteps(m, t, f, g, 0, n);
    }
  }

  lemma HeadSteps(m: Block, t: int, f: nat)
    ensures forall h ::
              DecayPart(m, t, f + 1, h) == DecayPart(m, t, f, h) + if Head(m, f) == h then DecayRow(m, t, f) else 0.0
    ensures forall h ::
              StepPart(m, t, f + 1, h) == StepPart(m, t, f, h) + if Head(m, f) == h then StepRow(m, t, f) else 0.0
  {
    hide BRotPart, CRotPart, DecayPart, StepPart, FullStateGrad, Conv, ScanOutGrad, State, DecayRow, StepRow, Group,
         Head;
    forall h
      ensures DecayPart(m, t, f + 1, h) == DecayPart(m, t, f, h) + if Head(m, f) == h then DecayRow(m, t, f) else 0.0
      ensures StepPart(m, t, f + 1, h) == StepPart(m, t, f, h) + if Head(m, f) == h then StepRow(m, t, f) else 0.0
    {
      PartSteps(m, t, f, 0, h, 0);
    }
  }

  ghost function SkipPart(m: Block, t: int, f: int, h: int): real {
    Keyed(f, i => Head(m, i), i => ScanOutGrad(m, t, i) * Conv(m, t, i), h)
  }

  lemma SkipSteps(m: Block, t: int, f: nat)
    ensures forall h :: SkipPart(m, t, f + 1, h)
                     == SkipPart(m, t, f, h) + if Head(m, f) == h then ScanOutGrad(m, t, f) * Conv(m, t, f) else 0.0
  {
    hide ScanOutGrad, Conv, Head;
  }

  lemma NoParts(m: Block, t: int)
    ensures forall g, n :: BRotPart(m, t, 0, g, n) == 0.0 && CRotPart(m, t, 0, g, n) == 0.0
    ensures forall h :: DecayPart(m, t, 0, h) == 0.0 && StepPart(m, t, 0, h) == 0.0 && SkipPart(m, t, 0, h) == 0.0
  {
  }

  method NewScanGrads(m: Block, t: nat) returns (gr: ScanGrads)
    ensures fresh({gr.bRot, gr.cRot}) && fresh({gr.decay, gr.step}) && gr.Apart() && gr.Fits(m) && gr.Holds(m, t, 0)
  {
    hide BRotPart, CRotPart, DecayPart, StepPart, SkipPart;
    NoParts(m, t);
    var b := ZeroMatrix(m.groups, m.state);
    var c := ZeroMatrix(m.groups, m.state);
    var decay := ZeroVector(m.heads);
    var step := ZeroVector(m.heads);
    gr := ScanGrads(b, c, decay, step);
  }

  method FeatureValues(m: Block, t: nat, f: nat, row: Row, gatedGrad: array<real>) returns (v: Feature, gate: real)
    requires f < m.features && row.Holds(m, t) && Vector(gatedGrad, m.features, f => GatedGrad(m, t, f))
    ensures IsFeature(m, t, f, v) && gate == GateGrad(m, t, f)
  {
    hide Proj, Conv, ScanOut, GatedGrad, Dt, Decay, Head, GateToY, GateToZ, KeepOf, NextDt, NextTrap, Trap, InvRms,
         BMean, BRaw, CRaw, BRot, CRot, Gated, NextDtPre, ConvPre;
    var h := Head(m, f);
    v := Feature(GateToY(m.fns, gatedGrad[f], row.proj[f]), KeepOf(m.fns, row.decay[h], row.dt[h]), row.dt[h],
                 row.decay[h],
                 row.conv[f]);
    gate := GateToZ(m.fns, gatedGrad[f], row.scanOut[f], row.proj[f]);
  }

  function SkipTermOf(v: Feature): real { v.grad * v.x }
  function XGradOf(v: Feature, skip: real, x: real): real { v.grad * skip + x }

  lemma FeatureForms(m: Block, t: int, f: int, v: Feature, x: real)
    requires IsFeature(m, t, f, v) && x == XRow(m, t, f)
    ensures SkipTermOf(v) == ScanOutGrad(m, t, f) * Conv(m, t, f)
    ensures XGradOf(v, m.skip(Head(m, f)), x) == XGrad(m, t, f)
  {
    hide Keep, Dt, Decay, Conv, ScanOutGrad, Head, XRow;
  }

  /** Gate and scan of one feature, reversed. */
  method ScanBackStep(m: Block, t: nat, f: nat, row: Row, gatedGrad: array<real>, next: array2<real>,
                      prev: array2<real>, dh: array2<real>, dhPrev: array2<real>, skip: array<real>,
                      projGrad: array<real>, convGrad: array<real>, gr: ScanGrads)
    requires t < m.rows && f < m.features && row.Holds(m, t) && Vector(gatedGrad, m.features, f => GatedGrad(m, t, f))
    requires Matrix(next, m.features, m.state, (f, n) => State(m, t + 1, f, n))
    requires Matrix(prev, m.features, m.state, (f, n) => State(m, t, f, n))
    requires Matrix(dh, m.features, m.state, (f, n) => StateGrad(m, t + 1, f, n))
    requires dhPrev.Length0 == m.features && dhPrev.Length1 == m.state
    requires skip.Length == m.heads && projGrad.Length == ProjDims(m) && convGrad.Length == Channels(m)
    requires gr.Apart() && gr.Fits(m) && gr.Holds(m, t, f)
    requires {dhPrev, gr.bRot, gr.cRot} !! {next, prev, dh} && dhPrev != gr.bRot && dhPrev != gr.cRot
    requires {dhPrev as object, skip, projGrad, convGrad, gr.bRot, gr.cRot, gr.decay, gr.step} !! row.Repr()
    requires {gr.decay, gr.step} !! {skip, projGrad, convGrad}
    requires skip != projGrad && skip != convGrad && projGrad != convGrad
    modifies dhPrev, skip, projGrad, convGrad, gr.bRot, gr.cRot, gr.decay, gr.step
    ensures gr.Holds(m, t, f + 1)
    ensures forall i, n :: 0 <= i < m.features && 0 <= n < m.state ==>
              dhPrev[i, n] == if i == f then StateGrad(m, t, f, n) else old(dhPrev[i, n])
    ensures forall h :: 0 <= h < m.heads ==>
              skip[h] == old(skip[h]) + if Head(m, f) == h then ScanOutGrad(m, t, f) * Conv(m, t, f) else 0.0
    ensures forall p :: 0 <= p < ProjDims(m) ==> projGrad[p] == if p == f then GateGrad(m, t, f) else old(projGrad[p])
    ensures forall c :: 0 <= c < Channels(m) ==> convGrad[c] == if c == f then XGrad(m, t, f) else old(convGrad[c])
  {
    hide Proj, Conv, ScanOut, BRot, CRot, State, StateGrad, GatedGrad, ScanOutGrad, GateGrad, XRow, XGrad, Keep, Dt,
         Decay, Head, Group, BRotPart, CRotPart, DecayPart, StepPart, IsFeature, SkipTermOf, XGradOf, Row.Holds,
         Row.Repr, ScanGrads.Holds;
    RowExists(row);
    RowGroups(m, t, row);
    var h := Head(m, f);
    var v, gate := FeatureValues(m, t, f, row, gatedGrad);
    var x := ScanBackFeature(m, t, f, v, row.bRot, row.cRot, next, prev, dh, dhPrev, gr);
    FeatureForms(m, t, f, v, x);
    projGrad[f] := gate;
    skip[h] := skip[h] + SkipTermOf(v);
    convGrad[f] := XGradOf(v, m.skip(h), x);
  }

  /** Gate and scan of the row, reversed: fills the gate segment of `projGrad` and the x segment of
      `convGrad`, adds to the skip gradient and leaves the previous row's state cotangent in `dhPrev`. */
  method ScanBack(m: Block, t: nat, row: Row, gatedGrad: array<real>, next: array2<real>, prev: array2<real>,
                  dh: array2<real>, dhPrev: array2<real>, skip: array<real>, projGrad: array<real>,
                  convGrad: array<real>, gr: ScanGrads)
    requires t < m.rows && row.Holds(m, t) && Vector(gatedGrad, m.features, f => GatedGrad(m, t, f))
    requires Matrix(next, m.features, m.state, (f, n) => State(m, t + 1, f, n))
    requires Matrix(prev, m.features, m.state, (f, n) => State(m, t, f, n))
    requires Matrix(dh, m.features, m.state, (f, n) => StateGrad(m, t + 1, f, n))
    requires dhPrev.Length0 == m.features && dhPrev.Length1 == m.state
    requires skip.Length == m.heads && projGrad.Length == ProjDims(m) && convGrad.Length == Channels(m)
    requires gr.Apart() && gr.Fits(m) && gr.Holds(m, t, 0)
    requires {dhPrev, gr.bRot, gr.cRot} !! {next, prev, dh} && dhPrev != gr.bRot && dhPrev != gr.cRot
    requires {dhPrev as object, skip, projGrad, convGrad, gr.bRot, gr.cRot, gr.decay, gr.step} !! row.Repr()
    requires {gr.decay, gr.step, gatedGrad} !! {skip, projGrad, convGrad} && gatedGrad !in {gr.decay, gr.step}
    requires skip != projGrad && skip != convGrad && projGrad != convGrad
    modifies dhPrev, skip, projGrad, convGrad, gr.bRot, gr.cRot, gr.decay, gr.step
    ensures gr.Holds(m, t, m.features) && row.Holds(m, t)
    ensures Matrix(dhPrev, m.features, m.state, (f, n) => StateGrad(m, t, f, n))
    ensures forall h :: 0 <= h < m.heads ==> skip[h] == old(skip[h]) + SkipTerm(m, h, t)
    ensures forall p :: 0 <= p < ProjDims(m) ==>
            projGrad[p] == if p < m.features then GateGrad(m, t, p) else old(projGrad[p])
    ensures forall c :: 0 <= c < Channels(m) ==>
            convGrad[c] == if c < m.features then XGrad(m, t, c) else old(convGrad[c])
  {
    hide State, StateGrad, GatedGrad, ScanOutGrad, GateGrad, XGrad, SkipPart, SkipTerm, Row.Holds, ScanGrads.Holds,
         ScanGrads.Fits, Row.Repr, Conv, Head, Matrix, Vector, Channels, ProjDims;
    RowExists(row);
    NoParts(m, t);
    for f := 0 to m.features
      invariant gr.Holds(m, t, f) && row.Holds(m, t)
      invariant forall i, n :: 0 <= i < f && 0 <= n < m.state ==> dhPrev[i, n] == StateGrad(m, t, i, n)
      invariant forall h :: 0 <= h < m.heads ==> skip[h] == old(skip[h]) + SkipPart(m, t, f, h)
      invariant forall p :: 0 <= p < ProjDims(m) ==>
                projGrad[p] == if p < f then GateGrad(m, t, p) else old(projGrad[p])
      invariant forall c :: 0 <= c < Channels(m) ==> convGrad[c] == if c < f then XGrad(m, t, c) else old(convGrad[c])
    {
      SkipSteps(m, t, f);
      ScanBackStep(m, t, f, row, gatedGrad, next, prev, dh, dhPrev, skip, projGrad, convGrad, gr);
    }
    SkipForm(m, t);
    MatrixForm(dhPrev, m.features, m.state, (f, n) => StateGrad(m, t, f, n));
  }

  lemma RowGroups(m: Block, t: int, row: Row)
    requires row.Holds(m, t)
    ensures Matrix(row.bRot, m.groups, m.state, (g, n) => BRot(m, t, g, n))
    ensures Matrix(row.cRot, m.groups, m.state, (g, n) => CRot(m, t, g, n))
    ensures {row.bRot, row.cRot} <= row.Repr()
  {
  }

  lemma SkipForm(m: Block, t: int)
    ensures forall h :: SkipPart(m, t, m.features, h) == SkipTerm(m, h, t)
  {
    hide ScanOutGrad, Conv, Head;
  }
}
