/** The lanes against the one-lane kernel: the memory that any run of the lanes ends with is what the reverse loop
    leaves in its arrays. */
module MambaLaneBuffers {
  import opened Buffers
  import opened MambaModel
  import opened MambaGradient
  import opened MambaBackward
  import opened MambaAdditions
  import opened MambaLanes

  /** `mem` holds the gradients over all rows. */
  ghost predicate Totals(m: Block, mem: Cell -> real) {
    forall c {:trigger mem(c)} :: InRange(m, c) && !Scratch(c) ==> mem(c) == Final(m, 0, c)
  }

  /** Some finished run of the lanes ends with the memory `mem`. */
  ghost predicate LanesEnd(m: Block, mem: Cell -> real) {
    exists run: seq<Machine> :: IsRun(m, run) && Finished(run[|run| - 1]) && run[|run| - 1].mem == mem
  }

  lemma EndTotals(m: Block, mem: Cell -> real)
    requires LanesEnd(m, mem)
    ensures Totals(m, mem)
  {
    hide Final, Step, Finished;
    var run: seq<Machine> :| IsRun(m, run) && Finished(run[|run| - 1]) && run[|run| - 1].mem == mem;
    forall c | InRange(m, c) && !Scratch(c) ensures mem(c) == Final(m, 0, c) {
      SweepAnyOrder(m, run, c);
    }
  }

  /** The buffers of the scan and the groups hold `mem`'s values. */
  ghost predicate ScanMatches(m: Block, mem: Cell -> real, scan: ScanSide)
    reads scan.Repr()
  {
    && Matrix(scan.outW, m.width, m.features, (o, f) => mem(OutW(o, f)))
    && Vector(scan.skip, m.heads, h => mem(Skip(h)))
    && Vector(scan.norm.bScale, m.bc, c => mem(BScale(c))) && Vector(scan.norm.bBias, m.bc, c => mem(BBias(c)))
    && Vector(scan.norm.cScale, m.bc, c => mem(CScale(c))) && Vector(scan.norm.cBias, m.bc, c => mem(CBias(c)))
  }

  /** The buffers of the heads and the convolution hold `mem`'s values. */
  ghost predicate HeadMatches(m: Block, mem: Cell -> real, head: HeadSide)
    reads head.Repr()
  {
    && Matrix(head.hidden, m.rows, m.width, (r, i) => mem(Hidden(r, i)))
    && Matrix(head.inW, ProjDims(m), m.width, (p, i) => mem(InW(p, i)))
    && Matrix(head.convW, Channels(m), 3, (c, k) => mem(ConvW(c, k)))
    && Vector(head.convB, Channels(m), c => mem(ConvB(c))) && Vector(head.dtBias, m.heads, h => mem(DtBias(h)))
  }

  lemma ScanTotals(m: Block, mem: Cell -> real, scan: ScanSide)
    requires Totals(m, mem) && scan.Holds(m, 0)
    ensures ScanMatches(m, mem, scan)
  {
    hide OutWGrad, SkipGrad, BScaleGrad, BBiasGrad, CScaleGrad, CBiasGrad;
  }

  lemma HeadTotals(m: Block, mem: Cell -> real, head: HeadSide)
    requires Totals(m, mem) && head.Holds(m, 0)
    ensures HeadMatches(m, mem, head)
  {
    hide HiddenGrad, InWGrad, ConvWGrad, ConvBGrad, DtBiasGrad, ProjDims, Channels;
  }

  /** Every finished run of the lanes ends with what the one-lane reverse loop leaves in its buffers. */
  lemma LanesMatchLoop(m: Block, mem: Cell -> real, scan: ScanSide, head: HeadSide)
    requires LanesEnd(m, mem) && scan.Holds(m, 0) && head.Holds(m, 0)
    ensures ScanMatches(m, mem, scan) && HeadMatches(m, mem, head)
  {
    hide LanesEnd, Totals, ScanMatches, HeadMatches, ScanSide.Holds, HeadSide.Holds;
    EndTotals(m, mem);
    ScanTotals(m, mem, scan);
    HeadTotals(m, mem, head);
  }
}
