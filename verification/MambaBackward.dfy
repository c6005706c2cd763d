/** The Mamba3 backward kernel: a forward scan that stores a checkpoint every `interval` rows, and a
    reverse loop that reloads a checkpoint, replays up to a row, redoes the row and reverses it. */
module MambaBackward {
  import opened Indices
  import opened Buffers
  import opened MambaModel
  import opened MambaGradient
  import opened MambaRowKernel
  import opened MambaBackwardRow
  import opened MambaBackwardStages

  /** Before any row is reversed every gradient is zero. */
  lemma NoRows(m: Block)
    ensures forall r, i :: HiddenGrad(m, m.rows, r, i) == 0.0 && InWGrad(m, m.rows, r, i) == 0.0
    ensures forall c, k :: ConvWGrad(m, m.rows, c, k) == 0.0 && OutWGrad(m, m.rows, c, k) == 0.0
    ensures forall c ::
              ConvBGrad(m, m.rows, c) == 0.0 && DtBiasGrad(m, m.rows, c) == 0.0 && SkipGrad(m, m.rows, c) == 0.0
    ensures forall c :: BScaleGrad(m, m.rows, c) == 0.0 && BBiasGrad(m, m.rows, c) == 0.0
    ensures forall c :: CScaleGrad(m, m.rows, c) == 0.0 && CBiasGrad(m, m.rows, c) == 0.0
  {
    hide HiddenTerm, InWTerm, ConvWTerm, ConvBTerm, DtBiasTerm, BScaleTerm, BBiasTerm, CScaleTerm, CBiasTerm, SkipTerm,
         OutWTerm;
  }

  /** The gradient buffers the scan and the groups add to. */
  datatype ScanSide = ScanSide(outW: array2<real>, skip: array<real>, norm: NormGrads) {
    ghost function Repr(): set<object> { {outW, skip, norm.bScale, norm.bBias, norm.cScale, norm.cBias} }

    ghost predicate Apart() { norm.Apart() && skip !in norm.Repr() }

    /** Rows `t` and later have been reversed. */
    ghost predicate Holds(m: Block, t: int)
      reads Repr()
    {
      && Matrix(outW, m.width, m.features, (o, f) => OutWGrad(m, t, o, f))
      && Vector(skip, m.heads, h => SkipGrad(m, t, h))
      && norm.Holds(m, t)
    }
  }

  /** The gradient buffers the heads and the convolution add to. */
  datatype HeadSide = HeadSide(hidden: array2<real>, inW: array2<real>, convW: array2<real>, convB: array<real>,
                               dtBias: array<real>) {
    ghost function Repr(): set<object> { {hidden, inW, convW, convB, dtBias} }

    ghost predicate Apart() { hidden !in {inW, convW} && inW != convW && convB != dtBias }

    ghost predicate Holds(m: Block, t: int)
      reads Repr()
    {
      && Matrix(hidden, m.rows, m.width, (r, i) => HiddenGrad(m, t, r, i))
      && Matrix(inW, ProjDims(m), m.width, (p, i) => InWGrad(m, t, p, i))
      && Matrix(convW, Channels(m), 3, (c, k) => ConvWGrad(m, t, c, k))
      && Vector(convB, Channels(m), c => ConvBGrad(m, t, c)) && Vector(dtBias, m.heads, h => DtBiasGrad(m, t, h))
    }
  }

  method NewScanSide(m: Block) returns (to: ScanSide)
    ensures fresh(to.Repr()) && to.Apart() && to.Holds(m, m.rows)
  {
    hide BScaleGrad, BBiasGrad, CScaleGrad, CBiasGrad, SkipGrad, OutWGrad;
    NoRows(m);
    var outW := ZeroMatrix(m.width, m.features);
    var skip := ZeroVector(m.heads);
    var bScale := ZeroVector(m.bc);
    var bBias := ZeroVector(m.bc);
    var cScale := ZeroVector(m.bc);
    var cBias := ZeroVector(m.bc);
    to := ScanSide(outW, skip, NormGrads(bScale, bBias, cScale, cBias));
  }

  method NewHeadSide(m: Block) returns (to: HeadSide)
    ensures fresh(to.Repr()) && to.Apart() && to.Holds(m, m.rows)
  {
    hide HiddenGrad, InWGrad, ConvWGrad, ConvBGrad, DtBiasGrad, ProjDims, Channels;
    NoRows(m);
    var hidden := ZeroMatrix(m.rows, m.width);
    var inW := ZeroMatrix(ProjDims(m), m.width);
    var convW := ZeroMatrix(Channels(m), 3);
    var convB := ZeroVector(Channels(m));
    var dtBias := ZeroVector(m.heads);
    to := HeadSide(hidden, inW, convW, convB, dtBias);
  }

  /** What the reversal of a row's scan and groups leaves for its heads. */
  datatype Half = Half(projGrad: array<real>, convGrad: array<real>, decay: array<real>, step: array<real>,
                       trapGrad: array<real>)
  {
    ghost function Repr(): set<object> { {projGrad, convGrad, decay, step, trapGrad} }

    ghost predicate Apart() { projGrad !in {convGrad, decay, step, trapGrad} && step !in {convGrad, decay, trapGrad} }

    ghost predicate Holds(m: Block, t: int)
      reads Repr()
    {
      && Vector(projGrad, ProjDims(m), p => GateSegment(m, t, p))
      && Vector(convGrad, Channels(m), c => ConvGrad(m, t, c))
      && Vector(decay, m.heads, h => DecayGrad(m, t, h))
      && Vector(step, m.heads, h => ScanDtGrad(m, t, h))
      && Vector(trapGrad, m.groups, g => TrapGrad(m, t, g))
    }
  }

  /** The scan and the groups of row `t`, reversed. */
  method ScanHalf(m: Block, t: nat, row: Row, w: Work, to: ScanSide) returns (half: Half)
    requires t < m.rows && row.Holds(m, t) && w.Fits(m) && w.Redone(m, t) && to.Apart() && to.Holds(m, t + 1)
    requires w.Repr() !! to.Repr() && row.Repr() !! w.Repr() + to.Repr()
    modifies w.dhPrev, w.angleGrad, to.Repr()
    ensures to.Holds(m, t) && w.Reversed(m, t)
    ensures half.Holds(m, t) && half.Apart() && fresh(half.Repr()) && fresh({half.projGrad, half.step})
    ensures half.Repr() !! row.Repr() && row.Holds(m, t)
  {
    hide Row.Holds, Row.Repr, Vector, Matrix, Scanned, NormGrads.Holds;
    RowExists(row);
    var projGrad, convGrad, gr := ScanStage(m, t, row, w, to.outW, to.skip);
    var trapGrad := GroupStage(m, t, row, gr, w.angle, w.angleGrad, to.norm, convGrad);
    ScannedHeads(m, t, gr);
    half := Half(projGrad, convGrad, gr.decay, gr.step, trapGrad);
  }

  lemma ScannedHeads(m: Block, t: int, gr: ScanGrads)
    requires Scanned(m, t, gr)
    ensures Vector(gr.decay, m.heads, h => DecayGrad(m, t, h)) && Vector(gr.step, m.heads, h => ScanDtGrad(m, t, h))
  {
    hide DecayGrad, ScanDtGrad, BRotGrad, CRotGrad;
  }

  /** The heads, the convolution and the projection of row `t`, reversed. */
  method HeadHalf(m: Block, t: nat, row: Row, half: Half, w: Work, to: HeadSide)
    requires t < m.rows && row.Holds(m, t) && half.Holds(m, t) && half.Apart()
    requires w.Fits(m) && w.Reversed(m, t) && to.Apart() && to.Holds(m, t + 1)
    requires half.Repr() !! w.Repr() && half.Repr() !! to.Repr() && half.Repr() !! row.Repr() && w.Repr() !! to.Repr()
    requires row.Repr() !! w.Repr() + to.Repr()
    modifies half.projGrad, half.step, w.angle, to.Repr()
    ensures to.Holds(m, t) && w.Undone(m, t)
  {
    hide Row.Holds, Row.Repr, Vector, Matrix;
    RowExists(row);
    TrapStage(m, t, row, half.trapGrad, half.step, half.projGrad, to.dtBias, to.inW, to.hidden);
    AngleStage(m, t, row, half.decay, w.angleGrad, half.step, half.projGrad, to.dtBias, w.angle);
    ConvStage(m, t, row, half.convGrad, half.projGrad, to.convB, to.convW, to.inW, to.hidden);
    OwnStage(m, t, half.projGrad, to.inW, to.hidden);
  }

  /** The gradient buffers exist, so nothing allocated later is one of them. */
  lemma SidesExist(scan: ScanSide, head: HeadSide)
    ensures forall o {:trigger o in scan.Repr()} :: o in scan.Repr() ==> allocated(o)
    ensures forall o {:trigger o in head.Repr()} :: o in head.Repr() ==> allocated(o)
  {
  }

  /** Row `t`, reversed: from rows after `t` to rows from `t` on. */
  method RowBack(m: Block, t: nat, row: Row, w: Work, scan: ScanSide, head: HeadSide)
    requires t < m.rows && row.Holds(m, t) && w.Fits(m) && w.Redone(m, t)
    requires scan.Apart() && scan.Holds(m, t + 1) && head.Apart() && head.Holds(m, t + 1) && scan.Repr() !! head.Repr()
    requires w.Repr() !! scan.Repr() + head.Repr() && row.Repr() !! w.Repr() + scan.Repr() + head.Repr()
    modifies w.dhPrev, w.angle, w.angleGrad, scan.Repr(), head.Repr()
    ensures scan.Holds(m, t) && head.Holds(m, t) && w.Undone(m, t)
  {
    hide Row.Holds, Row.Repr, ScanSide.Holds, HeadSide.Holds, ScanSide.Repr, HeadSide.Repr, Half.Holds, Half.Repr,
         Work.Redone, Work.Reversed, Work.Undone;
    SidesExist(scan, head);
    var half := ScanHalf(m, t, row, w, scan);
    HeadHalf(m, t, row, half, w, head);
  }

  // ---- checkpoints ----

  /** The first `slots` slots hold the scan state and the angles after 0, interval, 2 * interval... rows. */
  ghost predicate Checkpoints(m: Block, interval: nat, states: array3<real>, angles: array3<real>, slots: int)
    reads states, angles
  {
    forall s {:trigger Stored(m, interval, states, angles, s)} :: 0 <= s < slots ==>
      Stored(m, interval, states, angles, s)
  }

  ghost predicate Stored(m: Block, interval: nat, states: array3<real>, angles: array3<real>, s: int)
    reads states, angles
  {
    && SlotHolds(states, s, m.features, m.state, (f, n) => State(m, s * interval, f, n))
    && SlotHolds(angles, s, m.heads, m.angles, (h, j) => Angle(m, s * interval, h, j))
  }

  method Store(m: Block, interval: nat, s: nat, t: nat, state: array2<real>, angle: array2<real>, states: array3<real>,
               angles: array3<real>)
    requires t == s * interval && s < states.Length0 && s < angles.Length0
    requires states.Length1 == m.features && states.Length2 == m.state && angles.Length1 == m.heads
             && angles.Length2 == m.angles
    requires AtRow(m, t, state, angle)
    requires Checkpoints(m, interval, states, angles, s) && states != angles
    modifies states, angles
    ensures Checkpoints(m, interval, states, angles, s + 1)
  {
    hide State, Angle;
    StoreSlot(state, states, s);
    StoreSlot(angle, angles, s);
    forall x | 0 <= x < s ensures Stored(m, interval, states, angles, x) {
      assert old(Stored(m, interval, states, angles, x));
    }
  }

  method Advance(m: Block, t: nat, state: array2<real>, angle: array2<real>)
    requires state != angle && AtRow(m, t, state, angle)
    modifies state, angle
    ensures AtRow(m, t + 1, state, angle)
  {
    hide State, Angle, Row.Holds, Row.Repr, Matrix;
    var row := ForwardRow(m, t, state, angle);
  }

  /** The forward scan: runs every row once and stores a checkpoint after every `interval` rows. */
  method ForwardScan(m: Block, interval: nat) returns (states: array3<real>, angles: array3<real>)
    requires 0 < interval
    ensures fresh({states, angles}) && states.Length0 == m.rows / interval + 1
    ensures Checkpoints(m, interval, states, angles, m.rows / interval + 1)
  {
    hide AtRow, Row.Holds, Row.Repr, Checkpoints;
    var slots := m.rows / interval + 1;
    states, angles := new real[slots, m.features, m.state], new real[slots, m.heads, m.angles];
    var state, angle := Start(m);
    NoCheckpoints(m, interval, states, angles);
    Store(m, interval, 0, 0, state, angle, states, angles);
    for t := 0 to m.rows
      invariant AtRow(m, t, state, angle)
      invariant Checkpoints(m, interval, states, angles, t / interval + 1)
    {
      SlotOf(t, interval);
      SlotBound(t + 1, m.rows, interval);
      Advance(m, t, state, angle);
      if (t + 1) % interval == 0 {
        Store(m, interval, (t + 1) / interval, t + 1, state, angle, states, angles);
      }
    }
  }

  lemma NoCheckpoints(m: Block, interval: nat, states: array3<real>, angles: array3<real>)
    ensures Checkpoints(m, interval, states, angles, 0)
  {
  }

  method Load(m: Block, interval: nat, slot: nat, states: array3<real>, angles: array3<real>, state: array2<real>,
              angle: array2<real>)
    requires Stored(m, interval, states, angles, slot)
    requires state != angle && state.Length0 == m.features && state.Length1 == m.state && angle.Length0 == m.heads
             && angle.Length1 == m.angles
    modifies state, angle
    ensures AtRow(m, slot * interval, state, angle)
  {
    hide State, Angle;
    LoadSlot(states, slot, state);
    LoadSlot(angles, slot, angle);
  }

  /** Reload the last checkpoint at or before row `t` and replay up to it: exactly the straight scan's
      state and angles. */
  method Replay(m: Block, interval: nat, t: nat, states: array3<real>, angles: array3<real>, state: array2<real>,
                angle: array2<real>)
    requires 0 < interval && t < m.rows && Checkpoints(m, interval, states, angles, m.rows / interval + 1)
    requires state != angle && state.Length0 == m.features && state.Length1 == m.state && angle.Length0 == m.heads
             && angle.Length1 == m.angles
    modifies state, angle
    ensures AtRow(m, t, state, angle)
  {
    hide AtRow, Row.Holds, Row.Repr, Stored;
    var slot := t / interval;
    SlotOf(t, interval);
    SlotBound(t, m.rows, interval);
    assert Stored(m, interval, states, angles, slot);
    Load(m, interval, slot, states, angles, state, angle);
    var start := slot * interval;
    for offset := 0 to interval
      invariant AtRow(m, Least(start + offset, t), state, angle)
    {
      if start + offset < t {
        Advance(m, start + offset, state, angle);
      }
    }
  }

  // ---- the reverse loop ----

  /** The carried cotangents are those of the state after row `t - 1` and of its angles. */
  ghost predicate Carried(m: Block, t: int, dh: array2<real>, angleGrad: array2<real>)
    reads dh, angleGrad
  {
    && Matrix(dh, m.features, m.state, (f, n) => StateGrad(m, t, f, n))
    && Matrix(angleGrad, m.heads, m.angles, (h, j) => AngleGrad(m, t, h, j))
  }

  /** Row `t` redone from the state and angles before it. */
  method Redo(m: Block, t: nat, w: Work) returns (row: Row)
    requires w.Fits(m) && AtRow(m, t, w.next, w.angle) && Carried(m, t + 1, w.dh, w.angleGrad)
    modifies w.next, w.prev, w.angle
    ensures w.Redone(m, t) && row.Holds(m, t) && fresh(row.Repr())
  {
    hide State, Angle, StateGrad, AngleGrad, Row.Holds, Row.Repr;
    CopyMatrix(w.next, w.prev);
    row := ForwardRow(m, t, w.next, w.angle);
  }

  /** The row's results become what is carried to the row before. */
  method HandOn(m: Block, t: nat, w: Work)
    requires w.Fits(m) && w.Undone(m, t) && w.dh.Length0 == m.features && w.dh.Length1 == m.state
    modifies w.dh, w.next
    ensures Carried(m, t, w.dh, w.angleGrad) && AtRow(m, t, w.next, w.angle)
  {
    hide State, Angle, StateGrad, AngleGrad;
    CopyMatrix(w.dhPrev, w.dh);
    CopyMatrix(w.prev, w.next);
  }

  /** Row `t` redone from the replayed state, then reversed. */
  method RedoRow(m: Block, t: nat, w: Work, scan: ScanSide, head: HeadSide)
    requires t < m.rows && w.Fits(m) && AtRow(m, t, w.next, w.angle) && Carried(m, t + 1, w.dh, w.angleGrad)
    requires scan.Apart() && scan.Holds(m, t + 1) && head.Apart() && head.Holds(m, t + 1)
    requires scan.Repr() !! head.Repr() && w.Repr() !! scan.Repr() && w.Repr() !! head.Repr()
    modifies w.Repr(), scan.Repr(), head.Repr()
    ensures Carried(m, t, w.dh, w.angleGrad) && scan.Holds(m, t) && head.Holds(m, t)
    ensures AtRow(m, t, w.next, w.angle)
  {
    hide Row.Holds, Row.Repr, ScanSide.Holds, HeadSide.Holds, AtRow, Work.Redone, Work.Undone;
    var row := Redo(m, t, w);
    RowBack(m, t, row, w, scan, head);
    HandOn(m, t, w);
  }

  lemma NoCarries(m: Block)
    ensures forall f, n :: StateGrad(m, m.rows, f, n) == 0.0
    ensures forall h, j :: AngleGrad(m, m.rows, h, j) == 0.0
  {
  }

  method NewWork(m: Block) returns (w: Work)
    ensures fresh(w.Repr()) && w.Fits(m) && Carried(m, m.rows, w.dh, w.angleGrad)
  {
    hide StateGrad, AngleGrad;
    NoCarries(m);
    var next, prev := new real[m.features, m.state], new real[m.features, m.state];
    var angle, dhPrev := new real[m.heads, m.angles], new real[m.features, m.state];
    var dh := ZeroMatrix(m.features, m.state);
    var angleGrad := ZeroMatrix(m.heads, m.angles);
    w := Work(next, prev, angle, dh, dhPrev, angleGrad);
  }

  /** One iteration of the reverse loop: replay up to row `t`, redo it, reverse it. */
  method SweepRow(m: Block, interval: nat, t: nat, states: array3<real>, angles: array3<real>, w: Work, scan: ScanSide,
                  head: HeadSide)
    requires 0 < interval && t < m.rows && Checkpoints(m, interval, states, angles, m.rows / interval + 1)
    requires w.Fits(m) && Carried(m, t + 1, w.dh, w.angleGrad)
    requires scan.Apart() && scan.Holds(m, t + 1) && head.Apart() && head.Holds(m, t + 1)
    requires scan.Repr() !! head.Repr() && w.Repr() !! scan.Repr() && w.Repr() !! head.Repr()
    modifies w.Repr(), scan.Repr(), head.Repr()
    ensures Carried(m, t, w.dh, w.angleGrad) && scan.Holds(m, t) && head.Holds(m, t)
  {
    hide AtRow, Carried, Checkpoints, ScanSide.Holds, HeadSide.Holds, ScanSide.Repr, HeadSide.Repr, ScanSide.Apart,
         HeadSide.Apart;
    SidesExist(scan, head);
    Replay(m, interval, t, states, angles, w.next, w.angle);
    RedoRow(m, t, w, scan, head);
  }

  /** The reverse loop over all rows, reading the checkpoints; the initial state's gradient comes last. */
  method ReverseSweep(m: Block, interval: nat, states: array3<real>, angles: array3<real>)
    returns (scan: ScanSide, head: HeadSide, h0: array2<real>)
    requires 0 < interval && Checkpoints(m, interval, states, angles, m.rows / interval + 1)
    ensures scan.Holds(m, 0) && head.Holds(m, 0) && Matrix(h0, m.features, m.state, (f, n) => StateGrad(m, 0, f, n))
  {
    hide Carried, Checkpoints, ScanSide.Holds, HeadSide.Holds, Work.Fits, ScanSide.Apart, HeadSide.Apart, Matrix;
    scan := NewScanSide(m);
    head := NewHeadSide(m);
    var w := NewWork(m);
    for t := m.rows downto 0
      invariant scan.Holds(m, t) && head.Holds(m, t) && Carried(m, t, w.dh, w.angleGrad)
    {
      SweepRow(m, interval, t, states, angles, w, scan, head);
    }
    h0 := StateTotal(m, w.dh, w.angleGrad);
  }

  method StateTotal(m: Block, dh: array2<real>, ghost angleGrad: array2<real>) returns (h0: array2<real>)
    requires Carried(m, 0, dh, angleGrad)
    ensures fresh(h0) && Matrix(h0, m.features, m.state, (f, n) => StateGrad(m, 0, f, n))
  {
    hide StateGrad, AngleGrad;
    h0 := ZeroMatrix(m.features, m.state);
    AddMatrix(dh, h0);
  }

  /** The whole kernel.  Every gradient buffer ends as the sum over all rows of the row's terms, whatever
      the checkpoint interval. */
  method Backward(m: Block, interval: nat) returns (scan: ScanSide, head: HeadSide, h0: array2<real>)
    requires 0 < interval
    ensures scan.Holds(m, 0) && head.Holds(m, 0) && Matrix(h0, m.features, m.state, (f, n) => StateGrad(m, 0, f, n))
  {
    var states, angles := ForwardScan(m, interval);
    scan, head, h0 := ReverseSweep(m, interval, states, angles);
  }
}
