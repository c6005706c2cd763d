/** One reversed row as four stages on the gradient buffers: scan, groups, heads, convolution.  Each takes
    the buffers from "rows after `t` reversed" towards "rows from `t` on reversed". */
module MambaBackwardStages {
  import opened Sums
  import opened Buffers
  import opened MambaModel
  import opened MambaGradient
  import opened MambaRowKernel
  import opened MambaBackwardRow
  import opened MambaBackwardGroups
  import opened MambaBackwardNorm
  import Trapezoids = MambaBackwardHeads
  import HeadSteps = MambaBackwardAngles
  import Convolution = MambaBackwardConv

  /** The gate's segment of the projection gradient, and x's of the convolution gradient. */
  ghost function GateSegment(m: Block, t: int, p: int): real { if p < m.features then GateGrad(m, t, p) else 0.0 }
  ghost function XSegment(m: Block, t: int, c: int): real { if c < m.features then XGrad(m, t, c) else 0.0 }

  /** The persistent buffers of the reverse loop. */
  datatype Work = Work(next: array2<real>, prev: array2<real>, angle: array2<real>, dh: array2<real>,
                       dhPrev: array2<real>, angleGrad: array2<real>)
  {
    ghost function Repr(): set<object> { {next, prev, angle, dh, dhPrev, angleGrad} }

    ghost predicate Fits(m: Block) {
      && next.Length0 == m.features && next.Length1 == m.state && prev.Length0 == m.features && prev.Length1 == m.state
      && dhPrev.Length0 == m.features && dhPrev.Length1 == m.state && angle.Length0 == m.heads
      && angle.Length1 == m.angles
      && next !in {prev, angle, dh, dhPrev, angleGrad} && prev !in {angle, dh, dhPrev, angleGrad}
      && angle !in {dh, dhPrev, angleGrad} && dh !in {dhPrev, angleGrad} && dhPrev != angleGrad
    }

    /** Row `t` has been redone: the states before and after it, and the cotangents carried from later rows. */
    ghost predicate Redone(m: Block, t: int)
      reads next, prev, angle, dh, angleGrad
    {
      && Matrix(next, m.features, m.state, (f, n) => State(m, t + 1, f, n))
      && Matrix(prev, m.features, m.state, (f, n) => State(m, t, f, n))
      && Matrix(angle, m.heads, m.angles, (h, j) => Angle(m, t + 1, h, j))
      && Matrix(dh, m.features, m.state, (f, n) => StateGrad(m, t + 1, f, n))
      && Matrix(angleGrad, m.heads, m.angles, (h, j) => AngleGrad(m, t + 1, h, j))
    }

    /** Scan and rotations of row `t` have been reversed; the angles are still those after the row. */
    ghost predicate Reversed(m: Block, t: int)
      reads prev, angle, dhPrev, angleGrad
    {
      && Matrix(prev, m.features, m.state, (f, n) => State(m, t, f, n))
      && Matrix(angle, m.heads, m.angles, (h, j) => Angle(m, t + 1, h, j))
      && Matrix(dhPrev, m.features, m.state, (f, n) => StateGrad(m, t, f, n))
      && Matrix(angleGrad, m.heads, m.angles, (h, j) => AngleGrad(m, t, h, j))
    }

    /** All of row `t` has been reversed. */
    ghost predicate Undone(m: Block, t: int)
      reads prev, angle, dhPrev, angleGrad
    {
      && Matrix(prev, m.features, m.state, (f, n) => State(m, t, f, n))
      && Matrix(angle, m.heads, m.angles, (h, j) => Angle(m, t, h, j))
      && Matrix(dhPrev, m.features, m.state, (f, n) => StateGrad(m, t, f, n))
      && Matrix(angleGrad, m.heads, m.angles, (h, j) => AngleGrad(m, t, h, j))
    }
  }

  lemma ScanForms(m: Block, t: int)
    ensures forall g, n :: BRotPart(m, t, m.features, g, n) == BRotGrad(m, t, g, n)
    ensures forall g, n :: CRotPart(m, t, m.features, g, n) == CRotGrad(m, t, g, n)
    ensures forall h ::
              DecayPart(m, t, m.features, h) == DecayGrad(m, t, h)
              && StepPart(m, t, m.features, h) == ScanDtGrad(m, t, h)
  {
    hide FullStateGrad, Conv, ScanOutGrad, State, DecayRow, StepRow, Group, Head;
  }

  lemma ScanTotals(m: Block, t: int)
    requires t < m.rows
    ensures forall o, f :: OutWGrad(m, t, o, f) == OutWGrad(m, t + 1, o, f) + OutWTerm(m, o, f, t)
    ensures forall h :: SkipGrad(m, t, h) == SkipGrad(m, t + 1, h) + SkipTerm(m, h, t)
  {
    hide OutWTerm, SkipTerm;
  }

  /** The scan's scatter buffers once every feature is in. */
  ghost predicate Scanned(m: Block, t: int, gr: ScanGrads)
    reads gr.bRot, gr.cRot, gr.decay, gr.step
  {
    && Matrix(gr.bRot, m.groups, m.state, (g, n) => BRotGrad(m, t, g, n))
    && Matrix(gr.cRot, m.groups, m.state, (g, n) => CRotGrad(m, t, g, n))
    && Vector(gr.decay, m.heads, h => DecayGrad(m, t, h))
    && Vector(gr.step, m.heads, h => ScanDtGrad(m, t, h))
  }

  lemma ScannedForm(m: Block, t: int, gr: ScanGrads)
    requires gr.Holds(m, t, m.features)
    ensures Scanned(m, t, gr)
  {
    hide BRotGrad, CRotGrad, DecayGrad, ScanDtGrad, BRotPart, CRotPart, DecayPart, StepPart;
    ScanForms(m, t);
  }

  method OutStage(m: Block, t: nat, row: Row, outW: array2<real>) returns (gatedGrad: array<real>)
    requires t < m.rows && row.Holds(m, t) && outW !in row.Repr()
    requires Matrix(outW, m.width, m.features, (o, f) => OutWGrad(m, t + 1, o, f))
    modifies outW
    ensures Matrix(outW, m.width, m.features, (o, f) => OutWGrad(m, t, o, f)) && row.Holds(m, t)
    ensures fresh(gatedGrad) && Vector(gatedGrad, m.features, f => GatedGrad(m, t, f))
  {
    hide Gated, OutWGrad, OutWTerm, GatedGrad, Row.Holds;
    RowGated(m, t, row);
    ScanTotals(m, t);
    gatedGrad := OutBack(m, t, row.gated, outW);
  }

  /** The buffers that the scan of one row fills. */
  method NewScan(m: Block, t: nat, row: Row) returns (projGrad: array<real>, convGrad: array<real>, gr: ScanGrads)
    requires row.Holds(m, t)
    ensures row.Holds(m, t)
    ensures fresh({projGrad, convGrad, gr.decay, gr.step}) && fresh({gr.bRot, gr.cRot}) && gr.Apart()
    ensures projGrad != convGrad && {projGrad, convGrad} !! {gr.decay, gr.step}
    ensures {projGrad, convGrad, gr.decay, gr.step} !! row.Repr() && {gr.bRot, gr.cRot} !! row.Repr()
    ensures gr.Fits(m) && gr.Holds(m, t, 0)
    ensures projGrad.Length == ProjDims(m) && forall p :: 0 <= p < ProjDims(m) ==> projGrad[p] == 0.0
    ensures convGrad.Length == Channels(m) && forall c :: 0 <= c < Channels(m) ==> convGrad[c] == 0.0
  {
    hide ScanGrads.Holds, ScanGrads.Fits, ProjDims, Channels, Row.Holds, Row.Repr;
    RowExists(row);
    projGrad := ZeroVector(ProjDims(m));
    convGrad := ZeroVector(Channels(m));
    gr := NewScanGrads(m, t);
  }

  /** Output projection, gate and scan. */
  method ScanStage(m: Block, t: nat, row: Row, w: Work, outW: array2<real>, skip: array<real>)
    returns (projGrad: array<real>, convGrad: array<real>, gr: ScanGrads)
    requires t < m.rows && row.Holds(m, t) && w.Fits(m) && w.Redone(m, t)
    requires Matrix(outW, m.width, m.features, (o, f) => OutWGrad(m, t + 1, o, f))
             && Vector(skip, m.heads, h => SkipGrad(m, t + 1, h))
    requires {outW as object, skip, w.dhPrev} !! row.Repr() && outW !in w.Repr()
    modifies w.dhPrev, outW, skip
    ensures Matrix(outW, m.width, m.features, (o, f) => OutWGrad(m, t, o, f))
            && Vector(skip, m.heads, h => SkipGrad(m, t, h))
    ensures Matrix(w.dhPrev, m.features, m.state, (f, n) => StateGrad(m, t, f, n))
    ensures Vector(projGrad, ProjDims(m), p => GateSegment(m, t, p))
            && Vector(convGrad, Channels(m), c => XSegment(m, t, c))
    ensures Scanned(m, t, gr) && gr.Apart() && row.Holds(m, t)
    ensures fresh({projGrad, convGrad, gr.decay, gr.step}) && fresh({gr.bRot, gr.cRot}) && projGrad != convGrad
    ensures {projGrad, convGrad} !! {gr.decay, gr.step} && {projGrad, convGrad, gr.decay, gr.step} !! row.Repr()
  {
    hide State, StateGrad, GatedGrad, Gated, ScanOutGrad, GateGrad, XGrad, OutWGrad, SkipGrad, OutWTerm, SkipTerm,
         Angle, AngleGrad, Row.Holds, Row.Repr, ScanGrads.Holds, ScanGrads.Fits, Scanned, ProjDims, Channels;
    ScanTotals(m, t);
    var gatedGrad := OutStage(m, t, row, outW);
    projGrad, convGrad, gr := NewScan(m, t, row);
    ScanBack(m, t, row, gatedGrad, w.next, w.prev, w.dh, w.dhPrev, skip, projGrad, convGrad, gr);
    ScannedForm(m, t, gr);
  }

  lemma RowGated(m: Block, t: int, row: Row)
    requires row.Holds(m, t)
    ensures Vector(row.gated, m.features, f => Gated(m, t, f)) && row.gated in row.Repr()
  {
  }

  // ---- groups ----

  lemma AngleTotals(m: Block, t: int)
    requires t < m.rows
    ensures forall h, j :: AngleGrad(m, t, h, j) == AngleGrad(m, t + 1, h, j) + AngleTerm(m, t, h, j)
  {
    hide AngleTerm;
  }

  lemma RowMeans(m: Block, t: int, row: Row)
    requires row.Holds(m, t)
    ensures Matrix(row.bRaw, m.groups, m.state, (g, n) => BRaw(m, t, g, n))
            && Matrix(row.cRaw, m.groups, m.state, (g, n) => CRaw(m, t, g, n))
    ensures Matrix(row.bMean, m.groups, m.state, (g, n) => BMean(m, t, g, n))
    ensures {row.bRaw, row.cRaw, row.bMean} <= row.Repr()
  {
  }

  /** The rotations, and the angle gradient carried from row to row. */
  method RotationStage(m: Block, t: nat, row: Row, gr: ScanGrads, angle: array2<real>, angleGrad: array2<real>)
    returns (bRawGrad: array2<real>, cRawGrad: array2<real>)
    requires t < m.rows && row.Holds(m, t) && Scanned(m, t, gr)
    requires Matrix(angle, m.heads, m.angles, (h, j) => Angle(m, t + 1, h, j))
    requires Matrix(angleGrad, m.heads, m.angles, (h, j) => AngleGrad(m, t + 1, h, j))
    requires angleGrad !in {gr.bRot, gr.cRot, angle} && angleGrad !in row.Repr()
    modifies angleGrad
    ensures Matrix(angleGrad, m.heads, m.angles, (h, j) => AngleGrad(m, t, h, j))
    ensures Matrix(bRawGrad, m.groups, m.state, (g, n) => BRawGrad(m, t, g, n))
    ensures Matrix(cRawGrad, m.groups, m.state, (g, n) => CRawGrad(m, t, g, n))
    ensures fresh({bRawGrad, cRawGrad})
  {
    hide Row.Holds, BRotGrad, CRotGrad, BRaw, CRaw, Angle, AngleGrad, AngleTerm, BRawGrad, CRawGrad, DecayGrad,
         ScanDtGrad, BMean;
    RowMeans(m, t, row);
    AngleTotals(m, t);
    bRawGrad := ZeroMatrix(m.groups, m.state);
    cRawGrad := ZeroMatrix(m.groups, m.state);
    UnrotateGroups(m, t, gr, row.bRaw, row.cRaw, angle, bRawGrad, cRawGrad, angleGrad);
  }

  /** The parameters of the two normalisations. */
  datatype NormGrads = NormGrads(bScale: array<real>, bBias: array<real>, cScale: array<real>, cBias: array<real>)
  {
    ghost function Repr(): set<object> { {bScale, bBias, cScale, cBias} }

    ghost predicate Apart() {
      bScale != bBias && bScale != cScale && bScale != cBias && bBias != cScale && bBias != cBias && cScale != cBias
    }

    /** Rows `t` and later are in. */
    ghost predicate Holds(m: Block, t: int)
      reads bScale, bBias, cScale, cBias
    {
      && Vector(bScale, m.bc, c => BScaleGrad(m, t, c)) && Vector(bBias, m.bc, c => BBiasGrad(m, t, c))
      && Vector(cScale, m.bc, c => CScaleGrad(m, t, c)) && Vector(cBias, m.bc, c => CBiasGrad(m, t, c))
    }
  }

  lemma NormTotals(m: Block, t: int)
    requires t < m.rows
    ensures forall c :: BScaleGrad(m, t, c) == BScaleGrad(m, t + 1, c) + BScaleTerm(m, c, t)
    ensures forall c :: BBiasGrad(m, t, c) == BBiasGrad(m, t + 1, c) + BBiasTerm(m, c, t)
    ensures forall c :: CScaleGrad(m, t, c) == CScaleGrad(m, t + 1, c) + CScaleTerm(m, c, t)
    ensures forall c :: CBiasGrad(m, t, c) == CBiasGrad(m, t + 1, c) + CBiasTerm(m, c, t)
  {
    hide BScaleTerm, BBiasTerm, CScaleTerm, CBiasTerm;
  }

  lemma ConvSegments(m: Block, t: int)
    ensures forall c :: XSegment(m, t, c) + (if c >= m.features then ConvGrad(m, t, c) else 0.0) == ConvGrad(m, t, c)
  {
    hide XGrad, BConvGrad, CConvGrad;
  }

  method NormStage(m: Block, t: nat, row: Row, bRawGrad: array2<real>, cRawGrad: array2<real>, to: NormGrads,
                   convGrad: array<real>)
    requires t < m.rows && row.Holds(m, t)
    requires Matrix(bRawGrad, m.groups, m.state, (g, n) => BRawGrad(m, t, g, n))
    requires Matrix(cRawGrad, m.groups, m.state, (g, n) => CRawGrad(m, t, g, n))
    requires to.Holds(m, t + 1) && to.Apart() && convGrad !in to.Repr() && to.Repr() + {convGrad} !! row.Repr()
    requires Vector(convGrad, Channels(m), c => XSegment(m, t, c))
    modifies to.bScale, to.bBias, to.cScale, to.cBias, convGrad
    ensures to.Holds(m, t) && Vector(convGrad, Channels(m), c => ConvGrad(m, t, c))
  {
    hide Row.Holds, BRawGrad, CRawGrad, BScaleTerm, BBiasTerm, CScaleTerm, CBiasTerm, ConvGrad, XSegment, BScaleGrad,
         BBiasGrad, CScaleGrad, CBiasGrad;
    NormTotals(m, t);
    ConvSegments(m, t);
    NormBack(m, t, row, bRawGrad, cRawGrad, to.bScale, to.bBias, to.cScale, to.cBias, convGrad);
  }

  /** Rotations, trapezoid weights and normalisations of all groups. */
  method GroupStage(m: Block, t: nat, row: Row, gr: ScanGrads, angle: array2<real>, angleGrad: array2<real>,
                    to: NormGrads, convGrad: array<real>)
    returns (trapGrad: array<real>)
    requires t < m.rows && row.Holds(m, t) && Scanned(m, t, gr)
    requires Matrix(angle, m.heads, m.angles, (h, j) => Angle(m, t + 1, h, j))
    requires Matrix(angleGrad, m.heads, m.angles, (h, j) => AngleGrad(m, t + 1, h, j))
    requires angleGrad !in {gr.bRot, gr.cRot, angle}
    requires to.Holds(m, t + 1) && to.Apart() && convGrad !in to.Repr()
             && to.Repr() + {convGrad, angleGrad} !! row.Repr()
    requires Vector(convGrad, Channels(m), c => XSegment(m, t, c))
    modifies angleGrad, to.bScale, to.bBias, to.cScale, to.cBias, convGrad
    ensures Matrix(angleGrad, m.heads, m.angles, (h, j) => AngleGrad(m, t, h, j))
    ensures to.Holds(m, t) && Vector(convGrad, Channels(m), c => ConvGrad(m, t, c))
    ensures fresh(trapGrad) && Vector(trapGrad, m.groups, g => TrapGrad(m, t, g))
    ensures row.Holds(m, t) && trapGrad !in row.Repr()
  {
    hide Row.Holds, Row.Repr, Scanned, NormGrads.Holds, Vector, Matrix;
    RowExists(row);
    var bRawGrad, cRawGrad := RotationStage(m, t, row, gr, angle, angleGrad);
    RowMeans(m, t, row);
    trapGrad := TrapBack(m, t, bRawGrad, row.bMean);
    NormStage(m, t, row, bRawGrad, cRawGrad, to, convGrad);
  }

  // ---- heads ----

  /** The projection gradient after the trapezoids, and after the heads. */
  ghost function TrapProj(m: Block, t: int, p: int): real {
    GateSegment(m, t, p) + Trapezoids.ProjUpto(m, t, m.heads, p)
  }

  ghost function HeadProj(m: Block, t: int, p: int): real {
    TrapProj(m, t, p) + HeadSteps.HeadProjUpto(m, t, m.heads, p)
  }

  /** The step-size cotangents and bias after the trapezoids. */
  ghost function TrapStepGrad(m: Block, t: int, h: int): real { ScanDtGrad(m, t, h) + TrapDtGrad(m, t, h) }
  ghost function TrapBias(m: Block, t: int, h: int): real { DtBiasGrad(m, t + 1, h) + NextDtGrad(m, t, h) }

  /** The input weights' and the hidden gradients after the look-ahead. */
  ghost function AheadInW(m: Block, t: int, p: int, i: int): real {
    InWGrad(m, t + 1, p, i) + Trapezoids.AheadUpto(m, t, m.heads, p, i)
  }

  ghost function AheadRows(m: Block, t: int, r: int, i: int): real {
    HiddenGrad(m, t + 1, r, i) + Trapezoids.NextUpto(m, t, m.heads, r, i)
  }

  lemma TrapStart(m: Block, t: int)
    ensures forall i :: 0 <= i ==> Trapezoids.StepUpto(m, t, 0, i) == 0.0 && Trapezoids.BiasUpto(m, t, 0, i) == 0.0
    ensures forall p :: Trapezoids.ProjUpto(m, t, 0, p) == 0.0
    ensures forall p, i :: Trapezoids.AheadUpto(m, t, 0, p, i) == 0.0 && Trapezoids.NextUpto(m, t, 0, p, i) == 0.0
    ensures forall i :: i < m.heads ==> Trapezoids.StepUpto(m, t, m.heads, i) == TrapDtGrad(m, t, i)
    ensures forall i :: i < m.heads ==> Trapezoids.BiasUpto(m, t, m.heads, i) == NextDtGrad(m, t, i)
  {
    hide TrapDtGrad, NextDtGrad;
  }

  method TrapStage(m: Block, t: nat, row: Row, trapGrad: array<real>, step: array<real>, projGrad: array<real>,
                   dtBias: array<real>, inW: array2<real>, hidden: array2<real>)
    requires row.Holds(m, t) && Vector(trapGrad, m.groups, g => TrapGrad(m, t, g))
    requires Vector(step, m.heads, h => ScanDtGrad(m, t, h)) && Vector(projGrad, ProjDims(m), p => GateSegment(m, t, p))
    requires Vector(dtBias, m.heads, h => DtBiasGrad(m, t + 1, h))
    requires Matrix(inW, ProjDims(m), m.width, (p, i) => InWGrad(m, t + 1, p, i))
    requires Matrix(hidden, m.rows, m.width, (r, i) => HiddenGrad(m, t + 1, r, i))
    requires step != projGrad && step != dtBias && projGrad != dtBias && inW != hidden
    requires {step as object, projGrad, dtBias, inW, hidden} !! row.Repr() && trapGrad !in {step, projGrad, dtBias}
    modifies step, projGrad, dtBias, inW, hidden
    ensures row.Holds(m, t)
    ensures Vector(step, m.heads, h => TrapStepGrad(m, t, h)) && Vector(projGrad, ProjDims(m), p => TrapProj(m, t, p))
    ensures Vector(dtBias, m.heads, h => TrapBias(m, t, h))
    ensures Matrix(inW, ProjDims(m), m.width, (p, i) => AheadInW(m, t, p, i))
    ensures Matrix(hidden, m.rows, m.width, (r, i) => AheadRows(m, t, r, i))
  {
    hide Row.Holds, TrapGrad, ScanDtGrad, GateSegment, DtBiasGrad, InWGrad, HiddenGrad, TrapDtGrad, NextDtGrad,
         Trapezoids.StepUpto, Trapezoids.BiasUpto, Trapezoids.ProjUpto, Trapezoids.AheadUpto, Trapezoids.NextUpto;
    ghost var was := Trapezoids.Before(h => ScanDtGrad(m, t, h), p => GateSegment(m, t, p),
                                       h => DtBiasGrad(m, t + 1, h),
                                       (p, i) => InWGrad(m, t + 1, p, i), (r, i) => HiddenGrad(m, t + 1, r, i));
    var to := Trapezoids.TrapBuffers(step, projGrad, dtBias, inW, hidden);
    TrapStart(m, t);
    Trapezoids.TrapScatter(m, t, trapGrad, row, to, was);
  }

  lemma DtTotals(m: Block, t: int)
    requires t < m.rows
    ensures forall h :: 0 <= h < m.heads ==>
            DtBiasGrad(m, t, h) == TrapBias(m, t, h) + HeadSteps.HeadBiasUpto(m, t, m.heads, h)
    ensures forall h :: 0 <= h ==> HeadSteps.HeadBiasUpto(m, t, 0, h) == 0.0
    ensures forall h :: 0 <= h ==> HeadSteps.HeadStepUpto(m, t, 0, h) == TrapStepGrad(m, t, h)
    ensures forall p :: HeadSteps.HeadProjUpto(m, t, 0, p) == 0.0
  {
    hide NextDtGrad, DtProjGrad, ScanDtGrad, TrapDtGrad, AngleDtGrad, DecayProjGrad;
  }

  lemma RowHeads(m: Block, t: int, row: Row)
    requires row.Holds(m, t)
    ensures Vector(row.proj, ProjDims(m), p => Proj(m, t, p)) && Vector(row.dt, m.heads, h => Dt(m, t, h))
    ensures {row.proj, row.dt} <= row.Repr()
  {
  }

  method AngleStage(m: Block, t: nat, row: Row, decayGrad: array<real>, angleGrad: array2<real>, step: array<real>,
                    projGrad: array<real>, dtBias: array<real>, angle: array2<real>)
    requires t < m.rows && row.Holds(m, t) && Vector(decayGrad, m.heads, h => DecayGrad(m, t, h))
    requires Matrix(angleGrad, m.heads, m.angles, (h, j) => AngleGrad(m, t, h, j))
    requires Matrix(angle, m.heads, m.angles, (h, j) => Angle(m, t + 1, h, j))
    requires Vector(step, m.heads, h => TrapStepGrad(m, t, h)) && Vector(projGrad, ProjDims(m), p => TrapProj(m, t, p))
    requires Vector(dtBias, m.heads, h => TrapBias(m, t, h))
    requires step != projGrad && step != dtBias && projGrad != dtBias && decayGrad !in {step, projGrad, dtBias}
    requires angle != angleGrad && {step as object, projGrad, dtBias, angle} !! row.Repr()
    modifies step, projGrad, dtBias, angle
    ensures row.Holds(m, t)
    ensures Vector(projGrad, ProjDims(m), p => HeadProj(m, t, p)) && Vector(dtBias, m.heads, h => DtBiasGrad(m, t, h))
    ensures Matrix(angle, m.heads, m.angles, (h, j) => Angle(m, t, h, j))
  {
    hide Row.Holds, DecayGrad, AngleGrad, Angle, TrapStepGrad, TrapProj, TrapBias, DtBiasGrad, HeadSteps.HeadBiasUpto,
         HeadSteps.HeadStepUpto, HeadSteps.HeadProjUpto;
    ghost var proj0, bias0 := (p: int) => TrapProj(m, t, p), (h: int) => TrapBias(m, t, h);
    var to := HeadSteps.HeadBuffers(step, projGrad, dtBias, angle);
    RowHeads(m, t, row);
    DtTotals(m, t);
    HeadSteps.HeadBack(m, t, angleGrad, decayGrad, row, to, proj0, bias0);
  }

  // ---- convolution and own projection ----

  ghost function ConvInW(m: Block, t: int, p: int, i: int): real {
    AheadInW(m, t, p, i) + Convolution.InWUpto(m, t, Channels(m), p, i)
  }

  ghost function ConvRows(m: Block, t: int, r: int, i: int): real {
    AheadRows(m, t, r, i) + Convolution.HiddenUpto(m, t, Channels(m), r, i)
  }

  lemma ConvStart(m: Block, t: int)
    ensures forall i :: 0 <= i ==> Convolution.BiasUpto(m, t, 0, i) == 0.0
    ensures forall i, k :: 0 <= i ==> Convolution.WeightUpto(m, t, 0, i, k) == 0.0
    ensures forall p :: Convolution.ProjUpto(m, t, 0, p) == 0.0
    ensures forall p, i :: Convolution.InWUpto(m, t, 0, p, i) == 0.0
    ensures forall p, i :: Convolution.HiddenUpto(m, t, 0, p, i) == 0.0
  {
  }

  lemma ConvTotals(m: Block, t: int)
    requires t < m.rows
    ensures forall c :: 0 <= c < Channels(m) ==>
            ConvBGrad(m, t, c) == ConvBGrad(m, t + 1, c) + Convolution.BiasUpto(m, t, Channels(m), c)
    ensures forall c, k :: 0 <= c < Channels(m) ==>
            ConvWGrad(m, t, c, k) == ConvWGrad(m, t + 1, c, k) + Convolution.WeightUpto(m, t, Channels(m), c, k)
  {
    hide ConvBTerm, ConvWTerm;
  }

  /** The five segments of the projection gradient are disjoint and together are all of it. */
  lemma ProjTotal(m: Block, t: int, p: int)
    requires 0 <= p < ProjDims(m)
    ensures HeadProj(m, t, p) + Convolution.ProjUpto(m, t, Channels(m), p) == ProjGrad(m, t, p)
  {
    hide GateGrad, TrapProjGrad, DtProjGrad, DecayProjGrad, AngleProjGrad, HeadSteps.AngleProjUpto, ConvPreGrad;
    HeadSteps.AllHeads(m, t);
  }

  lemma ProjTotals(m: Block, t: int)
    ensures forall p :: 0 <= p < ProjDims(m) ==>
            HeadProj(m, t, p) + Convolution.ProjUpto(m, t, Channels(m), p) == ProjGrad(m, t, p)
  {
    forall p | 0 <= p < ProjDims(m)
      ensures HeadProj(m, t, p) + Convolution.ProjUpto(m, t, Channels(m), p) == ProjGrad(m, t, p)
    {
      ProjTotal(m, t, p);
    }
  }

  lemma InWTotals(m: Block, t: int)
    requires t < m.rows
    ensures forall p, i :: 0 <= p < ProjDims(m) ==>
            ConvInW(m, t, p, i) + Convolution.OwnUpto(m, t, ProjDims(m), p, i) == InWGrad(m, t, p, i)
  {
    hide Trapezoids.AheadUpto, AheadWeightTerm, TapWeightTerm, ProjGrad;
    Trapezoids.AheadAll(m, t);
  }

  lemma TapSum(m: Block, t: int, k: int, i: int)
    ensures Convolution.TapUpto(m, t, Channels(m), k, i) == TapHidden(m, t, k, i)
  {
    hide Sum, ConvPreGrad;
    SumEq(Channels(m), x => HiddenBack(m, ConvAt(m) + x, i, Convolution.TapCoef(m, t, x, k)),
          c => ConvPreGrad(m, t, c) * m.convW(c, k) * m.inW(ConvAt(m) + c, i));
  }

  lemma OwnSum(m: Block, t: int, i: int)
    ensures Sum(ProjDims(m), x => HiddenBack(m, x, i, ProjGrad(m, t, x))) == OwnHidden(m, t, i)
  {
    hide Sum, ProjGrad;
    SumEq(ProjDims(m), x => HiddenBack(m, x, i, ProjGrad(m, t, x)), p => ProjGrad(m, t, p) * m.inW(p, i));
  }

  /** Own, look-ahead and convolution rows are four different rows. */
  lemma HiddenTotal(m: Block, t: int, r: int, i: int)
    requires t < m.rows
    ensures ConvRows(m, t, r, i) + Convolution.OwnHiddenUpto(m, t, ProjDims(m), r, i) == HiddenGrad(m, t, r, i)
  {
    hide Convolution.TapUpto, OwnHidden, AheadHidden, TapHidden, Trapezoids.AheadHiddenUpto, Sum;
    Trapezoids.AheadAll(m, t);
    TapSum(m, t, 0, i);
    TapSum(m, t, 1, i);
    OwnSum(m, t, i);
  }

  lemma HiddenTotals(m: Block, t: int)
    requires t < m.rows
    ensures forall r, i ::
              ConvRows(m, t, r, i) + Convolution.OwnHiddenUpto(m, t, ProjDims(m), r, i) == HiddenGrad(m, t, r, i)
  {
    hide ConvRows, HiddenGrad, Convolution.OwnHiddenUpto;
    forall r, i
      ensures ConvRows(m, t, r, i) + Convolution.OwnHiddenUpto(m, t, ProjDims(m), r, i) == HiddenGrad(m, t, r, i)
    {
      HiddenTotal(m, t, r, i);
    }
  }

  lemma RowConvs(m: Block, t: int, row: Row)
    requires row.Holds(m, t)
    ensures Vector(row.pre, Channels(m), c => ConvPre(m, t, c)) && Vector(row.proj, ProjDims(m), p => Proj(m, t, p))
    ensures {row.pre, row.proj} <= row.Repr()
  {
  }

  method ConvStage(m: Block, t: nat, row: Row, convGrad: array<real>, projGrad: array<real>, convB: array<real>,
                   convW: array2<real>, inW: array2<real>, hidden: array2<real>)
    requires t < m.rows && row.Holds(m, t) && Vector(convGrad, Channels(m), c => ConvGrad(m, t, c))
    requires Vector(projGrad, ProjDims(m), p => HeadProj(m, t, p))
             && Vector(convB, Channels(m), c => ConvBGrad(m, t + 1, c))
    requires Matrix(convW, Channels(m), 3, (c, k) => ConvWGrad(m, t + 1, c, k))
    requires Matrix(inW, ProjDims(m), m.width, (p, i) => AheadInW(m, t, p, i))
    requires Matrix(hidden, m.rows, m.width, (r, i) => AheadRows(m, t, r, i))
    requires convB != projGrad && convGrad !in {convB, projGrad} && convW != inW && convW != hidden && inW != hidden
    requires {convB as object, projGrad, convW, inW, hidden} !! row.Repr()
    modifies convB, projGrad, convW, inW, hidden
    ensures Vector(projGrad, ProjDims(m), p => ProjGrad(m, t, p)) && Vector(convB, Channels(m), c => ConvBGrad(m, t, c))
    ensures Matrix(convW, Channels(m), 3, (c, k) => ConvWGrad(m, t, c, k))
    ensures Matrix(inW, ProjDims(m), m.width, (p, i) => ConvInW(m, t, p, i))
    ensures Matrix(hidden, m.rows, m.width, (r, i) => ConvRows(m, t, r, i))
  {
    hide Row.Holds, ConvGrad, HeadProj, ConvBGrad, ConvWGrad, AheadInW, AheadRows, ProjGrad, Channels, ProjDims,
         Convolution.BiasUpto, Convolution.WeightUpto, Convolution.ProjUpto, Convolution.InWUpto,
         Convolution.HiddenUpto;
    ghost var was := Convolution.BeforeConv(c => ConvBGrad(m, t + 1, c), (c, k) => ConvWGrad(m, t + 1, c, k),
                                            p => HeadProj(m, t, p),
                                            (p, i) => AheadInW(m, t, p, i), (r, i) => AheadRows(m, t, r, i));
    var to := Convolution.ConvBuffers(convB, convW, projGrad, inW, hidden);
    RowConvs(m, t, row);
    ConvStart(m, t);
    Convolution.ConvBack(m, t, convGrad, row, to, was);
    ConvTotals(m, t);
    ProjTotals(m, t);
  }

  method OwnStage(m: Block, t: nat, projGrad: array<real>, inW: array2<real>, hidden: array2<real>)
    requires t < m.rows && Vector(projGrad, ProjDims(m), p => ProjGrad(m, t, p)) && inW != hidden
    requires Matrix(inW, ProjDims(m), m.width, (p, i) => ConvInW(m, t, p, i))
    requires Matrix(hidden, m.rows, m.width, (r, i) => ConvRows(m, t, r, i))
    modifies inW, hidden
    ensures Matrix(inW, ProjDims(m), m.width, (p, i) => InWGrad(m, t, p, i))
    ensures Matrix(hidden, m.rows, m.width, (r, i) => HiddenGrad(m, t, r, i))
  {
    hide ProjGrad, ConvInW, ConvRows, InWGrad, HiddenGrad, Convolution.OwnUpto, Convolution.OwnHiddenUpto, ProjDims;
    Convolution.OwnScatter(m, t, projGrad, inW, hidden, (p, i) => ConvInW(m, t, p, i), (r, i) => ConvRows(m, t, r, i));
    InWTotals(m, t);
    HiddenTotals(m, t);
  }
}
