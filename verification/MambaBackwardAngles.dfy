/** The backward computation of one row, continued: the cumulative angle, the step size and the decay of
    every head. */
module MambaBackwardAngles {
  import opened Sums
  import opened Functions
  import opened Buffers
  import opened MambaModel
  import opened MambaGradient
  import opened MambaRowKernel

  lemma PreviousAngle(m: Block, t: nat, h: int, j: int)
    ensures Angle(m, t + 1, h, j) == Angle(m, t, h, j) + Mul(Proj(m, t, AngleAt(m) + j), Dt(m, t, h))
  {
    hide Proj, Dt;
  }

  ghost function AngleDtUpto(m: Block, t: int, h: int, j: int): real {
    Sum(j, k => Mul(AngleGrad(m, t, h, k), Proj(m, t, AngleAt(m) + k)))
  }

  lemma AngleDtForm(m: Block, t: int, h: int)
    ensures AngleDtUpto(m, t, h, m.angles) == AngleDtGrad(m, t, h)
  {
    hide AngleGrad, Proj, Sum;
    SumEq(m.angles, k => Mul(AngleGrad(m, t, h, k), Proj(m, t, AngleAt(m) + k)),
          j => AngleGrad(m, t, h, j) * Proj(m, t, AngleAt(m) + j));
  }

  /** The running sum of head `h`'s angles, reversed; the angles go back to their values before the row. */
  method AngleBackHead(m: Block, t: nat, h: nat, angleGrad: array2<real>, proj: array<real>, dt: real,
                       step: array<real>, projGrad: array<real>, angle: array2<real>)
    requires h < m.heads && dt == Dt(m, t, h)
    requires Matrix(angleGrad, m.heads, m.angles, (h, j) => AngleGrad(m, t, h, j))
             && Vector(proj, ProjDims(m), p => Proj(m, t, p))
    requires step.Length == m.heads && projGrad.Length == ProjDims(m) && angle.Length0 == m.heads
             && angle.Length1 == m.angles
    requires forall j :: 0 <= j < m.angles ==> angle[h, j] == Angle(m, t + 1, h, j)
    requires step != projGrad && proj !in {step, projGrad} && angle != angleGrad
    modifies step, projGrad, angle
    ensures forall i :: 0 <= i < m.heads ==> step[i] == old(step[i]) + if i == h then AngleDtGrad(m, t, h) else 0.0
    ensures forall p :: 0 <= p < ProjDims(m) ==>
              projGrad[p] == old(projGrad[p])
                + if p >= AngleAt(m) then Mul(AngleGrad(m, t, h, p - AngleAt(m)), Dt(m, t, h)) else 0.0
    ensures forall i, j :: 0 <= i < m.heads && 0 <= j < m.angles ==>
              angle[i, j] == if i == h then Angle(m, t, h, j) else old(angle[i, j])
  {
    hide AngleGrad, Proj, Dt, Angle, Mul, AngleDtGrad;
    assert AngleDtUpto(m, t, h, 0) == 0.0;
    for j := 0 to m.angles
      invariant forall i :: 0 <= i < m.heads ==>
                step[i] == old(step[i]) + if i == h then AngleDtUpto(m, t, h, j) else 0.0
      invariant forall p :: 0 <= p < ProjDims(m) ==>
                  projGrad[p] == old(projGrad[p])
                                 + if AngleAt(m) <= p < AngleAt(m) + j
                                   then Mul(AngleGrad(m, t, h, p - AngleAt(m)), Dt(m, t, h)) else 0.0
      invariant forall i, k :: 0 <= i < m.heads && 0 <= k < m.angles ==>
                  angle[i, k] == if i == h && k < j then Angle(m, t, h, k) else old(angle[i, k])
    {
      PreviousAngle(m, t, h, j);
      AddEntry(projGrad, AngleAt(m) + j, Mul(angleGrad[h, j], dt));
      AddEntry(step, h, Mul(angleGrad[h, j], proj[AngleAt(m) + j]));
      angle[h, j] := angle[h, j] - Mul(proj[AngleAt(m) + j], dt);
    }
    AngleDtForm(m, t, h);
  }

  lemma DtForms(m: Block, t: int, h: int)
    ensures DtProjGrad(m, t, h) == Mul(DtGrad(m, t, h), Sigmoid(m.fns, Proj(m, t, DtAt(m) + h) + m.dtBias(h)))
    ensures DecayProjGrad(m, t, h) == if -Softplus(m.fns, Proj(m, t, DecayAt(m) + h)) < -0.01
                                      then Mul(DecayGrad(m, t, h), -Sigmoid(m.fns, Proj(m, t, DecayAt(m) + h))) else 0.0
  {
    hide DtGrad, DecayGrad, Proj, Sigmoid, Softplus;
  }

  /** Step size and decay of head `h`, reversed, once every use of the step size has been added up. */
  method DtBackHead(m: Block, t: nat, h: nat, grad: real, decayGrad: real, proj: array<real>, projGrad: array<real>,
                    bias: array<real>)
    requires h < m.heads && grad == DtGrad(m, t, h) && decayGrad == DecayGrad(m, t, h)
    requires Vector(proj, ProjDims(m), p => Proj(m, t, p)) && projGrad.Length == ProjDims(m) && bias.Length == m.heads
    requires projGrad != bias && proj !in {projGrad, bias}
    modifies projGrad, bias
    ensures forall p :: 0 <= p < ProjDims(m) ==>
              projGrad[p] == old(projGrad[p]) + if p == DtAt(m) + h then DtProjGrad(m, t, h)
                                                else if p == DecayAt(m) + h then DecayProjGrad(m, t, h) else 0.0
    ensures forall i :: 0 <= i < m.heads ==> bias[i] == old(bias[i]) + if i == h then DtProjGrad(m, t, h) else 0.0
  {
    hide DtGrad, DecayGrad, Proj, Sigmoid, Softplus, DtProjGrad, DecayProjGrad, Mul;
    DtForms(m, t, h);
    var s := Sigmoid(m.fns, proj[DtAt(m) + h] + m.dtBias(h));
    var toDt := Mul(grad, s);
    AddEntry(projGrad, DtAt(m) + h, toDt);
    AddEntry(bias, h, toDt);
    if -Softplus(m.fns, proj[DecayAt(m) + h]) < -0.01 {
      AddEntry(projGrad, DecayAt(m) + h, Mul(decayGrad, -Sigmoid(m.fns, proj[DecayAt(m) + h])));
    }
  }

  // ---- every head ----

  ghost function AngleProjUpto(m: Block, t: int, h: int, j: int): real {
    Sum(h, k => Mul(AngleGrad(m, t, k, j), Dt(m, t, k)))
  }

  ghost function HeadProjUpto(m: Block, t: int, h: int, p: int): real {
    if DtAt(m) <= p < DtAt(m) + h then DtProjGrad(m, t, p - DtAt(m))
    else if DecayAt(m) <= p < DecayAt(m) + h then DecayProjGrad(m, t, p - DecayAt(m))
    else if p >= AngleAt(m) then AngleProjUpto(m, t, h, p - AngleAt(m))
    else 0.0
  }

  ghost function HeadStepUpto(m: Block, t: int, h: int, i: int): real {
    ScanDtGrad(m, t, i) + TrapDtGrad(m, t, i) + if i < h then AngleDtGrad(m, t, i) else 0.0
  }

  ghost function HeadBiasUpto(m: Block, t: int, h: int, i: int): real { if i < h then DtProjGrad(m, t, i) else 0.0 }

  /** The buffers the heads' reversal adds to, and the angles it turns back. */
  datatype HeadBuffers = HeadBuffers(step: array<real>, proj: array<real>, bias: array<real>, angle: array2<real>)
  {
    ghost predicate Apart() { step != proj && step != bias && proj != bias }

    ghost predicate Done(m: Block, t: int, h: int, wasProj: int -> real, wasBias: int -> real)
      reads step, proj, bias, angle
    {
      && Vector(step, m.heads, i => HeadStepUpto(m, t, h, i))
      && Vector(proj, ProjDims(m), p => wasProj(p) + HeadProjUpto(m, t, h, p))
      && Vector(bias, m.heads, i => wasBias(i) + HeadBiasUpto(m, t, h, i))
      && Matrix(angle, m.heads, m.angles, (i, j) => Angle(m, if i < h then t else t + 1, i, j))
    }
  }

  lemma HeadSteps(m: Block, t: int, h: int)
    requires 0 <= h < m.heads
    ensures HeadStepUpto(m, t, h, h) + AngleDtGrad(m, t, h) == DtGrad(m, t, h)
    ensures forall i ::
              HeadStepUpto(m, t, h + 1, i) == HeadStepUpto(m, t, h, i) + if i == h then AngleDtGrad(m, t, h) else 0.0
    ensures forall i ::
              HeadBiasUpto(m, t, h + 1, i) == HeadBiasUpto(m, t, h, i) + if i == h then DtProjGrad(m, t, h) else 0.0
    ensures forall p :: HeadProjUpto(m, t, h + 1, p)
                     == HeadProjUpto(m, t, h, p)
                        + (if p >= AngleAt(m) then Mul(AngleGrad(m, t, h, p - AngleAt(m)), Dt(m, t, h)) else 0.0)
                        + (if p == DtAt(m) + h then DtProjGrad(m, t, h)
                           else if p == DecayAt(m) + h then DecayProjGrad(m, t, h) else 0.0)
  {
    hide ScanDtGrad, TrapDtGrad, AngleDtGrad, DtProjGrad, DecayProjGrad, AngleGrad, Dt, Mul;
  }

  method HeadStep(m: Block, t: nat, h: nat, angleGrad: array2<real>, decayGrad: array<real>, row: Row, to: HeadBuffers,
                  ghost wasProj: int -> real, ghost wasBias: int -> real)
    requires h < m.heads && Matrix(angleGrad, m.heads, m.angles, (h, j) => AngleGrad(m, t, h, j))
    requires Vector(decayGrad, m.heads, h => DecayGrad(m, t, h))
    requires Vector(row.proj, ProjDims(m), p => Proj(m, t, p)) && Vector(row.dt, m.heads, h => Dt(m, t, h))
    requires to.Apart() && to.Done(m, t, h, wasProj, wasBias)
    requires {to.step, to.proj, to.bias} !! {row.proj, row.dt, decayGrad} && to.angle != angleGrad
    modifies to.step, to.proj, to.bias, to.angle
    ensures to.Done(m, t, h + 1, wasProj, wasBias)
  {
    hide AngleGrad, DecayGrad, Proj, Dt, Angle, Mul, AngleDtGrad, DtProjGrad, DecayProjGrad, DtGrad, HeadStepUpto,
         HeadProjUpto, HeadBiasUpto;
    HeadSteps(m, t, h);
    AngleBackHead(m, t, h, angleGrad, row.proj, row.dt[h], to.step, to.proj, to.angle);
    DtBackHead(m, t, h, to.step[h], decayGrad[h], row.proj, to.proj, to.bias);
  }

  method HeadBack(m: Block, t: nat, angleGrad: array2<real>, decayGrad: array<real>, row: Row, to: HeadBuffers,
                  ghost wasProj: int -> real, ghost wasBias: int -> real)
    requires Matrix(angleGrad, m.heads, m.angles, (h, j) => AngleGrad(m, t, h, j))
    requires Vector(decayGrad, m.heads, h => DecayGrad(m, t, h))
    requires Vector(row.proj, ProjDims(m), p => Proj(m, t, p)) && Vector(row.dt, m.heads, h => Dt(m, t, h))
    requires to.Apart() && to.Done(m, t, 0, wasProj, wasBias)
    requires {to.step, to.proj, to.bias} !! {row.proj, row.dt, decayGrad} && to.angle != angleGrad
    modifies to.step, to.proj, to.bias, to.angle
    ensures to.Done(m, t, m.heads, wasProj, wasBias)
  {
    hide HeadBuffers.Done, Vector, Matrix;
    for h := 0 to m.heads
      invariant to.Done(m, t, h, wasProj, wasBias)
    {
      HeadStep(m, t, h, angleGrad, decayGrad, row, to, wasProj, wasBias);
    }
  }

  /** What every head together has added. */
  lemma AllHeads(m: Block, t: int)
    ensures forall j :: AngleProjUpto(m, t, m.heads, j) == AngleProjGrad(m, t, j)
  {
    hide AngleGrad, Dt, Sum;
    forall j ensures AngleProjUpto(m, t, m.heads, j) == AngleProjGrad(m, t, j) {
      SumEq(m.heads, k => Mul(AngleGrad(m, t, k, j), Dt(m, t, k)), h => AngleGrad(m, t, h, j) * Dt(m, t, h));
    }
  }
}
