/** The forward computation of one row, as the kernels run it: each stage fills its scratch buffer, the
    cumulative angle and the scan state are updated in place. */
module MambaRowKernel {
  import opened Sums
  import opened Functions
  import opened Buffers
  import opened MambaModel

  /** The scratch buffers of a row after its forward computation. */
  datatype Row = Row(
    proj: array<real>, pre: array<real>, conv: array<real>,
    dt: array<real>, decay: array<real>, nextDtPre: array<real>, nextDt: array<real>, nextTrap: array<real>,
    trap: array<real>,
    bInv: array2<real>, cInv: array2<real>, bMean: array2<real>, bRaw: array2<real>, cRaw: array2<real>,
    bRot: array2<real>, cRot: array2<real>,
    scanOut: array<real>, gated: array<real>)
  {
    ghost function Repr(): set<object> {
      {proj, pre, conv, dt, decay, nextDtPre, nextDt, nextTrap, trap, bInv, cInv, bMean, bRaw, cRaw, bRot, cRot,
       scanOut, gated}
    }

    /** Every buffer holds the row's value. */
    ghost predicate Holds(m: Block, t: int)
      reads Repr()
    {
      && Vector(proj, ProjDims(m), p => Proj(m, t, p))
      && Vector(pre, Channels(m), c => ConvPre(m, t, c))
      && Vector(conv, Channels(m), c => Conv(m, t, c))
      && Vector(dt, m.heads, h => Dt(m, t, h))
      && Vector(decay, m.heads, h => Decay(m, t, h))
      && Vector(nextDtPre, m.heads, h => NextDtPre(m, t, h))
      && Vector(nextDt, m.heads, h => NextDt(m, t, h))
      && Vector(nextTrap, m.heads, h => NextTrap(m, t, h))
      && Vector(trap, m.groups, g => Trap(m, t, g))
      && Matrix(bInv, m.ranks, m.groups, (r, g) => InvRms(m, t, BAt(m), r, g))
      && Matrix(cInv, m.ranks, m.groups, (r, g) => InvRms(m, t, CAt(m), r, g))
      && Matrix(bMean, m.groups, m.state, (g, n) => BMean(m, t, g, n))
      && Matrix(bRaw, m.groups, m.state, (g, n) => BRaw(m, t, g, n))
      && Matrix(cRaw, m.groups, m.state, (g, n) => CRaw(m, t, g, n))
      && Matrix(bRot, m.groups, m.state, (g, n) => BRot(m, t, g, n))
      && Matrix(cRot, m.groups, m.state, (g, n) => CRot(m, t, g, n))
      && Vector(scanOut, m.features, f => ScanOut(m, t, f))
      && Vector(gated, m.features, f => Gated(m, t, f))
    }
  }

  /** A row's buffers exist, so nothing allocated later is one of them. */
  lemma RowExists(row: Row)
    ensures forall o {:trigger o in row.Repr()} :: o in row.Repr() ==> allocated(o)
  {
  }

  method ProjectDim(m: Block, t: int, p: int) returns (sum: real)
    ensures sum == Proj(m, t, p)
  {
    sum := 0.0;
    for i := 0 to m.width
      invariant sum == Sum(i, j => m.u(t, j) * m.inW(p, j))
    {
      sum := sum + m.u(t, i) * m.inW(p, i);
    }
  }

  method Project(m: Block, t: int) returns (proj: array<real>)
    ensures fresh(proj) && Vector(proj, ProjDims(m), p => Proj(m, t, p))
  {
    proj := new real[ProjDims(m)];
    for p := 0 to ProjDims(m)
      invariant forall q :: 0 <= q < p ==> proj[q] == Proj(m, t, q)
    {
      var sum := ProjectDim(m, t, p);
      proj[p] := sum;
    }
  }

  /** The taps of the earlier rows so far. */
  ghost function TapSum(m: Block, t: int, c: int, k: int): real {
    m.convB(c) + (if k > 0 then Tap(m, t - 2, c) * m.convW(c, 0) else 0.0)
    + (if k > 1 then Tap(m, t - 1, c) * m.convW(c, 1) else 0.0)
  }

  method ConvolveChannel(m: Block, t: int, c: int, own: real) returns (value: real)
    requires own == Proj(m, t, ConvAt(m) + c)
    ensures value == ConvPre(m, t, c)
  {
    hide Proj;
    value := m.convB(c);
    for k := 0 to 2
      invariant value == TapSum(m, t, c, k)
    {
      var tap := 0.0;
      if t - 2 + k >= 0 {
        tap := ProjectDim(m, t - 2 + k, ConvAt(m) + c);
      }
      value := value + tap * m.convW(c, k);
    }
    value := value + own * m.convW(c, 2);
  }

  method Convolve(m: Block, t: int, proj: array<real>) returns (pre: array<real>, conv: array<real>)
    requires Vector(proj, ProjDims(m), p => Proj(m, t, p))
    ensures fresh({pre, conv}) && pre != conv
    ensures Vector(pre, Channels(m), c => ConvPre(m, t, c)) && Vector(conv, Channels(m), c => Conv(m, t, c))
  {
    hide Proj, ConvPre, Sigmoid;
    pre, conv := new real[Channels(m)], new real[Channels(m)];
    for c := 0 to Channels(m)
      invariant forall i :: 0 <= i < c ==> pre[i] == ConvPre(m, t, i)
      invariant forall i :: 0 <= i < c ==> conv[i] == Conv(m, t, i)
    {
      var value := ConvolveChannel(m, t, c, proj[ConvAt(m) + c]);
      pre[c] := value;
      conv[c] := value * Sigmoid(m.fns, value);
    }
  }

  /** Step size and decay of every head; the cumulative angle advances by one row. */
  method Step(m: Block, t: nat, proj: array<real>, angle: array2<real>) returns (dt: array<real>, decay: array<real>)
    requires Vector(proj, ProjDims(m), p => Proj(m, t, p))
    requires Matrix(angle, m.heads, m.angles, (h, j) => Angle(m, t, h, j))
    modifies angle
    ensures Matrix(angle, m.heads, m.angles, (h, j) => Angle(m, t + 1, h, j))
    ensures fresh({dt, decay}) && dt != decay
    ensures Vector(dt, m.heads, h => Dt(m, t, h)) && Vector(decay, m.heads, h => Decay(m, t, h))
  {
    hide Proj, Softplus;
    dt, decay := new real[m.heads], new real[m.heads];
    for h := 0 to m.heads
      invariant forall i :: 0 <= i < h ==> dt[i] == Dt(m, t, i)
      invariant forall i :: 0 <= i < h ==> decay[i] == Decay(m, t, i)
      invariant forall i, j :: 0 <= i < m.heads && 0 <= j < m.angles ==>
                  angle[i, j] == Angle(m, if i < h then t + 1 else t, i, j)
    {
      dt[h] := Softplus(m.fns, proj[DtAt(m) + h] + m.dtBias(h));
      decay[h] := Min(-Softplus(m.fns, proj[DecayAt(m) + h]), -0.01);
      AdvanceAngle(m, t, h, proj, dt[h], angle);
    }
  }

  method AdvanceAngle(m: Block, t: nat, h: nat, proj: array<real>, step: real, angle: array2<real>)
    requires h < m.heads && step == Dt(m, t, h)
    requires Vector(proj, ProjDims(m), p => Proj(m, t, p))
    requires angle.Length0 == m.heads && angle.Length1 == m.angles
    requires forall j :: 0 <= j < m.angles ==> angle[h, j] == Angle(m, t, h, j)
    modifies angle
    ensures forall i, j :: 0 <= i < m.heads && 0 <= j < m.angles ==>
              angle[i, j] == if i == h then Angle(m, t + 1, h, j) else old(angle[i, j])
  {
    hide Proj, Dt;
    for j := 0 to m.angles
      invariant forall i, k :: 0 <= i < m.heads && 0 <= k < m.angles ==>
                  angle[i, k] == if i == h && k < j then Angle(m, t + 1, h, k) else old(angle[i, k])
    {
      angle[h, j] := angle[h, j] + proj[AngleAt(m) + j] * step;
    }
  }

  /** The next row's step and trapezoid projection, zero after the last row. */
  method LookAhead(m: Block, t: nat) returns (pre: array<real>, dt: array<real>, trap: array<real>)
    ensures fresh({pre, dt, trap}) && pre != dt && pre != trap && dt != trap
    ensures Vector(pre, m.heads, h => NextDtPre(m, t, h)) && Vector(dt, m.heads, h => NextDt(m, t, h))
    ensures Vector(trap, m.heads, h => NextTrap(m, t, h))
  {
    hide Proj, Softplus;
    pre, dt, trap := new real[m.heads], new real[m.heads], new real[m.heads];
    for h := 0 to m.heads
      invariant forall i :: 0 <= i < h ==> pre[i] == NextDtPre(m, t, i)
      invariant forall i :: 0 <= i < h ==> dt[i] == NextDt(m, t, i)
      invariant forall i :: 0 <= i < h ==> trap[i] == NextTrap(m, t, i)
    {
      pre[h], dt[h], trap[h] := 0.0, 0.0, 0.0;
      if t + 1 < m.rows {
        var next := ProjectDim(m, t + 1, DtAt(m) + h);
        var nextTrap := ProjectDim(m, t + 1, TrapAt(m) + h);
        pre[h], trap[h] := next + m.dtBias(h), nextTrap;
        dt[h] := Softplus(m.fns, pre[h]);
      }
    }
  }

  method Trapezoid(m: Block, t: nat, proj: array<real>, dt: array<real>, nextDt: array<real>, nextTrap: array<real>)
    returns (trap: array<real>)
    requires Vector(proj, ProjDims(m), p => Proj(m, t, p)) && Vector(dt, m.heads, h => Dt(m, t, h))
    requires Vector(nextDt, m.heads, h => NextDt(m, t, h)) && Vector(nextTrap, m.heads, h => NextTrap(m, t, h))
    ensures fresh(trap) && Vector(trap, m.groups, g => Trap(m, t, g))
  {
    hide Proj, Dt, NextDt, NextTrap, Sum, TrapTerm;
    trap := new real[m.groups];
    for g := 0 to m.groups
      invariant forall i :: 0 <= i < g ==> trap[i] == Trap(m, t, i)
    {
      var sum := TrapezoidSum(m, t, g, proj, dt, nextDt, nextTrap);
      trap[g] := sum / m.perGroup as real;
    }
  }

  method TrapezoidSum(m: Block, t: nat, g: nat, proj: array<real>, dt: array<real>, nextDt: array<real>,
                      nextTrap: array<real>)
    returns (sum: real)
    requires g < m.groups
    requires Vector(proj, ProjDims(m), p => Proj(m, t, p)) && Vector(dt, m.heads, h => Dt(m, t, h))
    requires Vector(nextDt, m.heads, h => NextDt(m, t, h)) && Vector(nextTrap, m.heads, h => NextTrap(m, t, h))
    ensures sum == Sum(m.perGroup, k => TrapTerm(m, t, GroupHead(m, g, k)))
  {
    hide Proj, Dt, NextDt, NextTrap, Sigmoid, GroupHead, TrapTerm, TrapAt, ProjDims;
    sum := 0.0;
    ghost var term := (i: int) => TrapTerm(m, t, GroupHead(m, g, i));
    for k := 0 to m.perGroup
      invariant sum == Sum(k, term)
    {
      var h := HeadOfGroup(m, g, k);
      var x := TrapOf(m, t, h, proj, dt, nextDt, nextTrap);
      sum := sum + x;
    }
  }

  method HeadOfGroup(m: Block, g: nat, k: nat) returns (h: nat)
    requires g < m.groups && k < m.perGroup
    ensures h == GroupHead(m, g, k) && h < m.heads
  {
    h := GroupHead(m, g, k);
  }

  /** One head's share of the trapezoid factor: its own row's half and the next row's. */
  method TrapOf(m: Block, t: nat, h: nat, proj: array<real>, dt: array<real>, nextDt: array<real>,
                nextTrap: array<real>)
    returns (x: real)
    requires h < m.heads
    requires Vector(proj, ProjDims(m), p => Proj(m, t, p)) && Vector(dt, m.heads, h => Dt(m, t, h))
    requires Vector(nextDt, m.heads, h => NextDt(m, t, h)) && Vector(nextTrap, m.heads, h => NextTrap(m, t, h))
    ensures x == TrapTerm(m, t, h)
  {
    hide Proj, Dt, NextDt, NextTrap, Sigmoid;
    var here, next := Sigmoid(m.fns, proj[TrapAt(m) + h]), Sigmoid(m.fns, nextTrap[h]);
    x := nextDt[h] * (1.0 - next) + dt[h] * here;
  }

  method ChannelInvRms(m: Block, t: nat, conv: array<real>, at: nat, r: nat, g: nat) returns (inv: real)
    requires r < m.ranks && g < m.groups && at + m.bc <= Channels(m)
    requires Vector(conv, Channels(m), c => Conv(m, t, c))
    ensures inv == InvRms(m, t, at, r, g)
  {
    hide Conv, Flat;
    var sum := 0.0;
    for n := 0 to m.state
      invariant sum == Sum(n, i => Conv(m, t, at + Flat(m, r, g, i)) * Conv(m, t, at + Flat(m, r, g, i)))
    {
      var v := conv[at + Flat(m, r, g, n)];
      sum := sum + v * v;
    }
    inv := m.fns.rsqrt(sum / m.state as real + 0.00001);
  }

  method InverseRms(m: Block, t: nat, conv: array<real>) returns (bInv: array2<real>, cInv: array2<real>)
    requires Vector(conv, Channels(m), c => Conv(m, t, c))
    ensures fresh({bInv, cInv}) && bInv != cInv
    ensures Matrix(bInv, m.ranks, m.groups, (r, g) => InvRms(m, t, BAt(m), r, g))
    ensures Matrix(cInv, m.ranks, m.groups, (r, g) => InvRms(m, t, CAt(m), r, g))
  {
    hide Conv, InvRms;
    bInv, cInv := new real[m.ranks, m.groups], new real[m.ranks, m.groups];
    for r := 0 to m.ranks
      invariant forall i, g :: 0 <= i < r && 0 <= g < m.groups ==>
                  bInv[i, g] == InvRms(m, t, BAt(m), i, g) && cInv[i, g] == InvRms(m, t, CAt(m), i, g)
    {
      for g := 0 to m.groups
        invariant forall i, k :: 0 <= i <= r && 0 <= k < m.groups && (i < r || k < g) ==>
                    bInv[i, k] == InvRms(m, t, BAt(m), i, k) && cInv[i, k] == InvRms(m, t, CAt(m), i, k)
      {
        var b := ChannelInvRms(m, t, conv, BAt(m), r, g);
        var c := ChannelInvRms(m, t, conv, CAt(m), r, g);
        bInv[r, g], cInv[r, g] := b, c;
      }
    }
  }

  method RankMean(m: Block, t: nat, conv: array<real>, inv: array2<real>, at: nat, scale: int -> real,
                  bias: int -> real, g: nat, n: nat) returns (mean: real)
    requires g < m.groups && n < m.state && at + m.bc <= Channels(m)
    requires Vector(conv, Channels(m), c => Conv(m, t, c))
    requires Matrix(inv, m.ranks, m.groups, (r, g) => InvRms(m, t, at, r, g))
    ensures mean == Mean(m, t, at, scale, bias, g, n)
  {
    hide Conv, Flat, InvRms;
    mean := 0.0;
    for r := 0 to m.ranks
      invariant mean == Sum(r, i => Conv(m, t, at + Flat(m, i, g, n)) * InvRms(m, t, at, i, g) * scale(Flat(m, i, g, n))
                                    + bias(Flat(m, i, g, n)))
    {
      var c := Flat(m, r, g, n);
      mean := mean + (conv[at + c] * inv[r, g] * scale(c) + bias(c));
    }
    mean := mean / m.ranks as real;
  }

  /** The means over ranks; B's is also weighted by the trapezoid. */
  method MeanCell(m: Block, t: nat, conv: array<real>, bInv: array2<real>, cInv: array2<real>, trap: array<real>,
                  g: nat, n: nat)
    returns (mean: real, b: real, c: real)
    requires g < m.groups && n < m.state
    requires Vector(conv, Channels(m), c => Conv(m, t, c)) && Vector(trap, m.groups, g => Trap(m, t, g))
    requires Matrix(bInv, m.ranks, m.groups, (r, g) => InvRms(m, t, BAt(m), r, g))
    requires Matrix(cInv, m.ranks, m.groups, (r, g) => InvRms(m, t, CAt(m), r, g))
    ensures mean == BMean(m, t, g, n) && b == BRaw(m, t, g, n) && c == CRaw(m, t, g, n)
  {
    hide Conv, InvRms, Mean, Trap;
    mean := RankMean(m, t, conv, bInv, BAt(m), m.bScale, m.bBias, g, n);
    b := mean * trap[g];
    c := RankMean(m, t, conv, cInv, CAt(m), m.cScale, m.cBias, g, n);
  }

  method Means(m: Block, t: nat, conv: array<real>, bInv: array2<real>, cInv: array2<real>, trap: array<real>)
    returns (bMean: array2<real>, bRaw: array2<real>, cRaw: array2<real>)
    requires Vector(conv, Channels(m), c => Conv(m, t, c)) && Vector(trap, m.groups, g => Trap(m, t, g))
    requires Matrix(bInv, m.ranks, m.groups, (r, g) => InvRms(m, t, BAt(m), r, g))
    requires Matrix(cInv, m.ranks, m.groups, (r, g) => InvRms(m, t, CAt(m), r, g))
    ensures fresh({bMean, bRaw, cRaw}) && bMean != bRaw && bMean != cRaw && bRaw != cRaw
    ensures Matrix(bMean, m.groups, m.state, (g, n) => BMean(m, t, g, n))
    ensures Matrix(bRaw, m.groups, m.state, (g, n) => BRaw(m, t, g, n))
    ensures Matrix(cRaw, m.groups, m.state, (g, n) => CRaw(m, t, g, n))
  {
    hide Conv, InvRms, BMean, BRaw, CRaw, Trap;
    bMean, bRaw, cRaw := new real[m.groups, m.state], new real[m.groups, m.state], new real[m.groups, m.state];
    for g := 0 to m.groups
      invariant forall i, n :: 0 <= i < g && 0 <= n < m.state ==> bMean[i, n] == BMean(m, t, i, n)
      invariant forall i, n :: 0 <= i < g && 0 <= n < m.state ==> bRaw[i, n] == BRaw(m, t, i, n)
      invariant forall i, n :: 0 <= i < g && 0 <= n < m.state ==> cRaw[i, n] == CRaw(m, t, i, n)
    {
      for n := 0 to m.state
        invariant forall i, k :: 0 <= i <= g && 0 <= k < m.state && (i < g || k < n) ==>
                  bMean[i, k] == BMean(m, t, i, k)
        invariant forall i, k :: 0 <= i <= g && 0 <= k < m.state && (i < g || k < n) ==> bRaw[i, k] == BRaw(m, t, i, k)
        invariant forall i, k :: 0 <= i <= g && 0 <= k < m.state && (i < g || k < n) ==> cRaw[i, k] == CRaw(m, t, i, k)
      {
        var mean, b, c := MeanCell(m, t, conv, bInv, cInv, trap, g, n);
        bMean[g, n], bRaw[g, n], cRaw[g, n] := mean, b, c;
      }
    }
  }

  /** The rotary embedding of every group by the cumulative angle of the head with the group's number. */
  method RotateGroups(m: Block, t: nat, raw: array2<real>, angle: array2<real>, ghost value: (int, int) -> real)
    returns (rot: array2<real>)
    requires Matrix(raw, m.groups, m.state, value)
    requires Matrix(angle, m.heads, m.angles, (h, j) => Angle(m, t + 1, h, j))
    ensures fresh(rot)
    ensures Matrix(rot, m.groups, m.state, (g, n) => Rotate(m, i => value(g, i), j => Angle(m, t + 1, g, j), n))
  {
    hide Angle, Rotate;
    rot := new real[m.groups, m.state];
    for g := 0 to m.groups
      invariant forall i, n :: 0 <= i < g && 0 <= n < m.state ==>
                  rot[i, n] == Rotate(m, k => value(i, k), j => Angle(m, t + 1, i, j), n)
    {
      for n := 0 to m.state
        invariant forall i, k :: 0 <= i <= g && 0 <= k < m.state && (i < g || k < n) ==>
                    rot[i, k] == Rotate(m, l => value(i, l), j => Angle(m, t + 1, i, j), k)
      {
        var v := Rotated(m, t, g, n, raw, angle, value);
        rot[g, n] := v;
      }
    }
  }

  method Rotated(m: Block, t: nat, g: nat, n: nat, raw: array2<real>, angle: array2<real>,
                 ghost value: (int, int) -> real)
    returns (v: real)
    requires g < m.groups && n < m.state
    requires Matrix(raw, m.groups, m.state, value)
    requires Matrix(angle, m.heads, m.angles, (h, j) => Angle(m, t + 1, h, j))
    ensures v == Rotate(m, i => value(g, i), j => Angle(m, t + 1, g, j), n)
  {
    hide Angle, TurnFirst, TurnSecond;
    if n < 2 * m.angles {
      var cos, sin := m.fns.cos(angle[g, n / 2]), m.fns.sin(angle[g, n / 2]);
      if n % 2 == 0 {
        v := TurnFirst(cos, sin, raw[g, n], raw[g, n + 1]);
      } else {
        v := TurnSecond(cos, sin, raw[g, n - 1], raw[g, n]);
      }
    } else {
      v := raw[g, n];
    }
  }

  /** The scan step, its read-out and the gate; the state advances by one row. */
  method Scan(m: Block, t: nat, proj: array<real>, conv: array<real>, dt: array<real>, decay: array<real>,
              bRot: array2<real>, cRot: array2<real>, state: array2<real>)
    returns (scanOut: array<real>, gated: array<real>)
    requires Vector(proj, ProjDims(m), p => Proj(m, t, p)) && Vector(conv, Channels(m), c => Conv(m, t, c))
    requires Vector(dt, m.heads, h => Dt(m, t, h)) && Vector(decay, m.heads, h => Decay(m, t, h))
    requires Matrix(bRot, m.groups, m.state, (g, n) => BRot(m, t, g, n))
    requires Matrix(cRot, m.groups, m.state, (g, n) => CRot(m, t, g, n))
    requires Matrix(state, m.features, m.state, (f, n) => State(m, t, f, n))
    requires state != bRot && state != cRot
    modifies state
    ensures Matrix(state, m.features, m.state, (f, n) => State(m, t + 1, f, n))
    ensures fresh({scanOut, gated}) && scanOut != gated
    ensures Vector(scanOut, m.features, f => ScanOut(m, t, f)) && Vector(gated, m.features, f => Gated(m, t, f))
  {
    hide Proj, Conv, Dt, Decay, BRot, CRot, State, ScanOut, Head, Group, KeepOf, GateOf;
    scanOut, gated := new real[m.features], new real[m.features];
    for f := 0 to m.features
      invariant forall i :: 0 <= i < f ==> scanOut[i] == ScanOut(m, t, i)
      invariant forall i :: 0 <= i < f ==> gated[i] == Gated(m, t, i)
      invariant forall i, n :: 0 <= i < m.features && 0 <= n < m.state ==>
                  state[i, n] == State(m, if i < f then t + 1 else t, i, n)
    {
      var h := Head(m, f);
      var keep := KeepOf(m.fns, decay[h], dt[h]);
      scanOut[f] := ScanFeature(m, t, f, keep, conv[f], bRot, cRot, state);
      gated[f] := GateOf(m.fns, scanOut[f], proj[f]);
    }
  }

  method ScanFeature(m: Block, t: nat, f: nat, keep: real, x: real, bRot: array2<real>, cRot: array2<real>,
                     state: array2<real>)
    returns (y: real)
    requires f < m.features && keep == Keep(m, t, Head(m, f)) && x == Conv(m, t, f)
    requires Matrix(bRot, m.groups, m.state, (g, n) => BRot(m, t, g, n))
    requires Matrix(cRot, m.groups, m.state, (g, n) => CRot(m, t, g, n))
    requires state.Length0 == m.features && state.Length1 == m.state
    requires forall n :: 0 <= n < m.state ==> state[f, n] == State(m, t, f, n)
    requires state != bRot && state != cRot
    modifies state
    ensures forall i, n :: 0 <= i < m.features && 0 <= n < m.state ==>
              state[i, n] == if i == f then State(m, t + 1, f, n) else old(state[i, n])
    ensures y == ScanOut(m, t, f)
  {
    hide Conv, Keep, BRot, CRot, Head, State;
    var g := Group(m, f);
    y := 0.0;
    for n := 0 to m.state
      invariant forall i, k :: 0 <= i < m.features && 0 <= k < m.state ==>
                  state[i, k] == if i == f && k < n then State(m, t + 1, f, k) else old(state[i, k])
      invariant y == Sum(n, k => State(m, t + 1, f, k) * CRot(m, t, Group(m, f), k))
    {
      NextState(m, t, f, n);
      state[f, n] := keep * state[f, n] + x * bRot[g, n];
      y := y + state[f, n] * cRot[g, n];
    }
    y := y + m.skip(Head(m, f)) * x;
  }

  lemma NextState(m: Block, t: nat, f: int, n: int)
    ensures State(m, t + 1, f, n)
            == Keep(m, t, Head(m, f)) * State(m, t, f, n) + Conv(m, t, f) * BRot(m, t, Group(m, f), n)
  {
    hide Keep, Conv, BRot, Head, Group;
  }

  /** The per-head and per-group scalars of a projected row. */
  method HeadInputs(m: Block, t: nat, proj: array<real>, angle: array2<real>)
    returns (dt: array<real>, decay: array<real>, nextDtPre: array<real>, nextDt: array<real>, nextTrap: array<real>,
             trap: array<real>)
    requires Matrix(angle, m.heads, m.angles, (h, j) => Angle(m, t, h, j))
             && Vector(proj, ProjDims(m), p => Proj(m, t, p))
    modifies angle
    ensures Matrix(angle, m.heads, m.angles, (h, j) => Angle(m, t + 1, h, j))
    ensures fresh({dt, decay, nextDtPre, nextDt, nextTrap, trap})
    ensures Vector(dt, m.heads, h => Dt(m, t, h))
    ensures Vector(decay, m.heads, h => Decay(m, t, h))
    ensures Vector(nextDtPre, m.heads, h => NextDtPre(m, t, h))
    ensures Vector(nextDt, m.heads, h => NextDt(m, t, h))
    ensures Vector(nextTrap, m.heads, h => NextTrap(m, t, h))
    ensures Vector(trap, m.groups, g => Trap(m, t, g))
  {
    hide Proj, Dt, Decay, NextDtPre, NextDt, NextTrap, Trap, Angle, Vector, Matrix;
    dt, decay := Step(m, t, proj, angle);
    nextDtPre, nextDt, nextTrap := LookAhead(m, t);
    trap := Trapezoid(m, t, proj, dt, nextDt, nextTrap);
  }

  /** B and C of every group: normalised, averaged over ranks, weighted and rotated. */
  method GroupInputs(m: Block, t: nat, conv: array<real>, trap: array<real>, angle: array2<real>)
    returns (bInv: array2<real>, cInv: array2<real>, bMean: array2<real>, bRaw: array2<real>, cRaw: array2<real>,
             bRot: array2<real>, cRot: array2<real>)
    requires Vector(conv, Channels(m), c => Conv(m, t, c)) && Vector(trap, m.groups, g => Trap(m, t, g))
    requires Matrix(angle, m.heads, m.angles, (h, j) => Angle(m, t + 1, h, j))
    ensures fresh({bInv, cInv, bMean, bRaw, cRaw, bRot, cRot})
    ensures Matrix(bInv, m.ranks, m.groups, (r, g) => InvRms(m, t, BAt(m), r, g))
    ensures Matrix(cInv, m.ranks, m.groups, (r, g) => InvRms(m, t, CAt(m), r, g))
    ensures Matrix(bMean, m.groups, m.state, (g, n) => BMean(m, t, g, n))
    ensures Matrix(bRaw, m.groups, m.state, (g, n) => BRaw(m, t, g, n))
    ensures Matrix(cRaw, m.groups, m.state, (g, n) => CRaw(m, t, g, n))
    ensures Matrix(bRot, m.groups, m.state, (g, n) => BRot(m, t, g, n))
    ensures Matrix(cRot, m.groups, m.state, (g, n) => CRot(m, t, g, n))
  {
    hide Conv, Trap, InvRms, BMean, BRaw, CRaw, Rotate, Angle;
    bInv, cInv := InverseRms(m, t, conv);
    bMean, bRaw, cRaw := Means(m, t, conv, bInv, cInv, trap);
    ghost var b, c := (g: int, n: int) => BRaw(m, t, g, n), (g: int, n: int) => CRaw(m, t, g, n);
    bRot := RotateGroups(m, t, bRaw, angle, b);
    cRot := RotateGroups(m, t, cRaw, angle, c);
    forall g, n
      ensures Rotate(m, i => b(g, i), j => Angle(m, t + 1, g, j), n) == BRot(m, t, g, n)
      ensures Rotate(m, i => c(g, i), j => Angle(m, t + 1, g, j), n) == CRot(m, t, g, n)
    {
      RotateEq(m, i => b(g, i), i => BRaw(m, t, g, i), j => Angle(m, t + 1, g, j), n);
      RotateEq(m, i => c(g, i), i => CRaw(m, t, g, i), j => Angle(m, t + 1, g, j), n);
    }
  }

  lemma RotateEq(m: Block, raw: int -> real, raw': int -> real, angle: int -> real, n: int)
    requires forall i {:trigger raw(i)} :: raw(i) == raw'(i)
    ensures Rotate(m, raw, angle, n) == Rotate(m, raw', angle, n)
  {
    hide TurnFirst, TurnSecond;
  }

  /** The projection, the convolution and the per-head scalars of row `t`. */
  method RowInputs(m: Block, t: nat, angle: array2<real>)
    returns (proj: array<real>, pre: array<real>, conv: array<real>, dt: array<real>, decay: array<real>,
             nextDtPre: array<real>, nextDt: array<real>, nextTrap: array<real>, trap: array<real>)
    requires Matrix(angle, m.heads, m.angles, (h, j) => Angle(m, t, h, j))
    modifies angle
    ensures Matrix(angle, m.heads, m.angles, (h, j) => Angle(m, t + 1, h, j))
    ensures fresh({proj, pre, conv, dt, decay, nextDtPre, nextDt, nextTrap, trap})
    ensures Vector(proj, ProjDims(m), p => Proj(m, t, p))
    ensures Vector(pre, Channels(m), c => ConvPre(m, t, c)) && Vector(conv, Channels(m), c => Conv(m, t, c))
    ensures Vector(dt, m.heads, h => Dt(m, t, h)) && Vector(decay, m.heads, h => Decay(m, t, h))
    ensures Vector(nextDtPre, m.heads, h => NextDtPre(m, t, h)) && Vector(nextDt, m.heads, h => NextDt(m, t, h))
    ensures Vector(nextTrap, m.heads, h => NextTrap(m, t, h)) && Vector(trap, m.groups, g => Trap(m, t, g))
  {
    hide Proj, ConvPre, Conv, Dt, Decay, NextDtPre, NextDt, NextTrap, Trap, Angle, Vector, Matrix;
    proj := Project(m, t);
    pre, conv := Convolve(m, t, proj);
    dt, decay, nextDtPre, nextDt, nextTrap, trap := HeadInputs(m, t, proj, angle);
  }

  /** The whole forward computation of row `t`, from the hidden rows: what the backward kernel's first
      scan, its replay and its redone step all run. */
  method ForwardRow(m: Block, t: nat, state: array2<real>, angle: array2<real>) returns (row: Row)
    requires state != angle
    requires Matrix(state, m.features, m.state, (f, n) => State(m, t, f, n))
    requires Matrix(angle, m.heads, m.angles, (h, j) => Angle(m, t, h, j))
    modifies state, angle
    ensures Matrix(state, m.features, m.state, (f, n) => State(m, t + 1, f, n))
    ensures Matrix(angle, m.heads, m.angles, (h, j) => Angle(m, t + 1, h, j))
    ensures fresh(row.Repr()) && row.Holds(m, t)
  {
    hide Proj, ConvPre, Conv, Dt, Decay, NextDtPre, NextDt, NextTrap, Trap, InvRms, BMean, BRaw, CRaw, BRot, CRot,
         ScanOut, Gated, State, Angle, Vector, Matrix;
    var proj, pre, conv, dt, decay, nextDtPre, nextDt, nextTrap, trap := RowInputs(m, t, angle);
    var bInv, cInv, bMean, bRaw, cRaw, bRot, cRot := GroupInputs(m, t, conv, trap, angle);
    var scanOut, gated := Scan(m, t, proj, conv, dt, decay, bRot, cRot, state);
    row := Row(proj, pre, conv, dt, decay, nextDtPre, nextDt, nextTrap, trap, bInv, cInv, bMean, bRaw, cRaw, bRot, cRot,
               scanOut, gated);
  }

  /** The scan state and the angles are those before row `t`. */
  ghost predicate AtRow(m: Block, t: int, state: array2<real>, angle: array2<real>)
    reads state, angle
  {
    Matrix(state, m.features, m.state, (f, n) => State(m, t, f, n))
      && Matrix(angle, m.heads, m.angles, (h, j) => Angle(m, t, h, j))
  }

  lemma StartValues(m: Block)
    ensures forall f, n :: State(m, 0, f, n) == m.h0(f, n)
    ensures forall h, j :: Angle(m, 0, h, j) == 0.0
  {
  }

  method Start(m: Block) returns (state: array2<real>, angle: array2<real>)
    ensures fresh({state, angle}) && state != angle
    ensures AtRow(m, 0, state, angle)
  {
    hide State, Angle;
    StartValues(m);
    state := new real[m.features, m.state];
    for f := 0 to m.features
      invariant forall i, n :: 0 <= i < f && 0 <= n < m.state ==> state[i, n] == m.h0(i, n)
    {
      for n := 0 to m.state
        invariant forall i, k :: 0 <= i <= f && 0 <= k < m.state && (i < f || k < n) ==> state[i, k] == m.h0(i, k)
      {
        state[f, n] := m.h0(f, n);
      }
    }
    angle := ZeroMatrix(m.heads, m.angles);
  }
}
