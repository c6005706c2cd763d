/** The backward computation of one row, continued: the trapezoid weight and the normalisations of B and
    C, over ranks and groups. */
module MambaBackwardNorm {
  import opened Sums
  import opened Functions
  import opened Indices
  import opened Buffers
  import opened MambaModel
  import opened MambaGradient
  import opened MambaRowKernel

  method TrapBack(m: Block, t: nat, bRawGrad: array2<real>, bMean: array2<real>) returns (trapGrad: array<real>)
    requires Matrix(bRawGrad, m.groups, m.state, (g, n) => BRawGrad(m, t, g, n))
    requires Matrix(bMean, m.groups, m.state, (g, n) => BMean(m, t, g, n))
    ensures fresh(trapGrad) && Vector(trapGrad, m.groups, g => TrapGrad(m, t, g))
  {
    hide BRawGrad, BMean;
    trapGrad := ZeroVector(m.groups);
    for g := 0 to m.groups
      invariant forall i :: 0 <= i < m.groups ==> trapGrad[i] == if i < g then TrapGrad(m, t, i) else 0.0
    {
      for n := 0 to m.state
        invariant trapGrad[g] == Sum(n, k => BRawGrad(m, t, g, k) * BMean(m, t, g, k))
        invariant forall i :: 0 <= i < m.groups && i != g ==> trapGrad[i] == if i < g then TrapGrad(m, t, i) else 0.0
      {
        trapGrad[g] := trapGrad[g] + bRawGrad[g, n] * bMean[g, n];
      }
    }
  }

  /** What each rank sends back of the cotangents of the two means. */
  method Shares(m: Block, t: nat, bRawGrad: array2<real>, cRawGrad: array2<real>, trap: array<real>)
    returns (bShare: array2<real>, cShare: array2<real>)
    requires Matrix(bRawGrad, m.groups, m.state, (g, n) => BRawGrad(m, t, g, n))
    requires Matrix(cRawGrad, m.groups, m.state, (g, n) => CRawGrad(m, t, g, n))
    requires Vector(trap, m.groups, g => Trap(m, t, g))
    ensures fresh({bShare, cShare}) && bShare != cShare
    ensures Matrix(bShare, m.groups, m.state, (g, n) => BShare(m, t, g, n))
    ensures Matrix(cShare, m.groups, m.state, (g, n) => CShare(m, t, g, n))
  {
    hide BRawGrad, CRawGrad, Trap;
    bShare, cShare := new real[m.groups, m.state], new real[m.groups, m.state];
    for g := 0 to m.groups
      invariant forall i, n :: 0 <= i < g && 0 <= n < m.state ==> bShare[i, n] == BShare(m, t, i, n)
      invariant forall i, n :: 0 <= i < g && 0 <= n < m.state ==> cShare[i, n] == CShare(m, t, i, n)
    {
      for n := 0 to m.state
        invariant forall i, k :: 0 <= i <= g && 0 <= k < m.state && (i < g || k < n) ==>
                  bShare[i, k] == BShare(m, t, i, k)
        invariant forall i, k :: 0 <= i <= g && 0 <= k < m.state && (i < g || k < n) ==>
                  cShare[i, k] == CShare(m, t, i, k)
      {
        bShare[g, n], cShare[g, n] := bRawGrad[g, n] * trap[g] / m.ranks as real, cRawGrad[g, n] / m.ranks as real;
      }
    }
  }

  method Dot(m: Block, t: nat, at: nat, r: nat, g: nat, conv: array<real>, share: array2<real>, scale: int -> real,
             ghost shareAt: (int, int) -> real) returns (dot: real)
    requires r < m.ranks && g < m.groups && at + m.bc <= Channels(m)
    requires Vector(conv, Channels(m), c => Conv(m, t, c)) && Matrix(share, m.groups, m.state, shareAt)
    ensures dot == NormDot(m, t, at, shareAt, scale, r, g)
  {
    hide Conv, Flat, NormDotTerm;
    dot := 0.0;
    for n := 0 to m.state
      invariant dot == Sum(n, k => NormDotTerm(shareAt(g, k), scale(Flat(m, r, g, k)),
                                               Conv(m, t, at + Flat(m, r, g, k))))
    {
      dot := dot + NormDotTerm(share[g, n], scale(Flat(m, r, g, n)), conv[at + Flat(m, r, g, n)]);
    }
  }

  function ScaleTermOf(share: real, x: real, inv: real): real { share * x * inv }

  /** The three gradients of one channel, from the values the kernel holds for it. */
  lemma ChannelForms(m: Block, t: int, at: int, share: (int, int) -> real, scale: int -> real, r: int, g: int, n: int)
    requires 0 <= g < m.groups && 0 <= n < m.state
    ensures ScaleGrad(m, t, at, share, Flat(m, r, g, n))
         == ScaleTermOf(share(g, n), Conv(m, t, at + Flat(m, r, g, n)), InvRms(m, t, at, r, g))
    ensures share(GroupOf(m, Flat(m, r, g, n)), StateOf(m, Flat(m, r, g, n))) == share(g, n)
    ensures ChannelGrad(m, t, at, share, scale, Flat(m, r, g, n))
         == NormBackward(InvRms(m, t, at, r, g), share(g, n), scale(Flat(m, r, g, n)),
                         Conv(m, t, at + Flat(m, r, g, n)),
                         NormDot(m, t, at, share, scale, r, g), m.state as real)
  {
    hide Conv, InvRms, NormDot, NormBackward, Flat, RankOf, GroupOf, StateOf;
    FlatParts(m, r, g, n);
  }

  ghost function BiasGrad(m: Block, share: (int, int) -> real, c: int): real { share(GroupOf(m, c), StateOf(m, c)) }

  /** One state of one rank and group of one side, reversed. */
  method NormBackCell(m: Block, t: nat, at: nat, r: nat, g: nat, n: nat, conv: array<real>, inv: real, share: real,
                      scale: int -> real, dot: real, scaleGrad: array<real>, biasGrad: array<real>,
                      convGrad: array<real>, ghost shareAt: (int, int) -> real)
    requires r < m.ranks && g < m.groups && n < m.state && at + m.bc <= Channels(m)
    requires Vector(conv, Channels(m), c => Conv(m, t, c)) && share == shareAt(g, n)
    requires inv == InvRms(m, t, at, r, g) && dot == NormDot(m, t, at, shareAt, scale, r, g)
    requires scaleGrad.Length == m.bc && biasGrad.Length == m.bc && convGrad.Length == Channels(m)
    requires conv !in {scaleGrad, biasGrad, convGrad} && scaleGrad != biasGrad && scaleGrad != convGrad
             && biasGrad != convGrad
    modifies scaleGrad, biasGrad, convGrad
    ensures forall c :: 0 <= c < m.bc ==>
              scaleGrad[c] == old(scaleGrad[c]) + if c == Flat(m, r, g, n) then ScaleGrad(m, t, at, shareAt, c) else 0.0
    ensures forall c :: 0 <= c < m.bc ==>
              biasGrad[c] == old(biasGrad[c]) + if c == Flat(m, r, g, n) then BiasGrad(m, shareAt, c) else 0.0
    ensures forall c :: 0 <= c < Channels(m) ==>
              convGrad[c] == old(convGrad[c])
                             + if c - at == Flat(m, r, g, n) then ChannelGrad(m, t, at, shareAt, scale, c - at) else 0.0
  {
    hide Conv, InvRms, NormDot, NormBackward, RankOf, GroupOf, StateOf, ScaleGrad, ChannelGrad, ScaleTermOf, Flat;
    var c := Flat(m, r, g, n);
    ChannelForms(m, t, at, shareAt, scale, r, g, n);
    scaleGrad[c] := scaleGrad[c] + ScaleTermOf(share, conv[at + c], inv);
    biasGrad[c] := biasGrad[c] + share;
    convGrad[at + c] := convGrad[at + c] + NormBackward(inv, share, scale(c), conv[at + c], dot, m.state as real);
  }

  /** One rank and group of one side, reversed. */
  method NormBackGroup(m: Block, t: nat, at: nat, r: nat, g: nat, conv: array<real>, inv: real, share: array2<real>,
                       scale: int -> real, scaleGrad: array<real>, biasGrad: array<real>, convGrad: array<real>,
                       ghost shareAt: (int, int) -> real)
    requires r < m.ranks && g < m.groups && at + m.bc <= Channels(m)
    requires Vector(conv, Channels(m), c => Conv(m, t, c)) && Matrix(share, m.groups, m.state, shareAt)
    requires inv == InvRms(m, t, at, r, g)
    requires scaleGrad.Length == m.bc && biasGrad.Length == m.bc && convGrad.Length == Channels(m)
    requires conv !in {scaleGrad, biasGrad, convGrad} && scaleGrad != biasGrad && scaleGrad != convGrad
             && biasGrad != convGrad
    modifies scaleGrad, biasGrad, convGrad
    ensures forall c :: 0 <= c < m.bc ==>
              scaleGrad[c] == old(scaleGrad[c])
                              + if InGroup(m, r, g, m.state, c) then ScaleGrad(m, t, at, shareAt, c) else 0.0
    ensures forall c :: 0 <= c < m.bc ==>
              biasGrad[c] == old(biasGrad[c]) + if InGroup(m, r, g, m.state, c) then BiasGrad(m, shareAt, c) else 0.0
    ensures forall c :: 0 <= c < Channels(m) ==>
              convGrad[c] == old(convGrad[c])
                + if InGroup(m, r, g, m.state, c - at) then ChannelGrad(m, t, at, shareAt, scale, c - at) else 0.0
  {
    hide Conv, InvRms, NormDot, NormBackward, RankOf, GroupOf, StateOf, ScaleGrad, ChannelGrad, ScaleTermOf, Flat,
         InGroup;
    var dot := Dot(m, t, at, r, g, conv, share, scale, shareAt);
    GroupStart(m, r, g);
    for n := 0 to m.state
      invariant forall c :: 0 <= c < m.bc ==>
                  scaleGrad[c] == old(scaleGrad[c])
                                  + if InGroup(m, r, g, n, c) then ScaleGrad(m, t, at, shareAt, c) else 0.0
      invariant forall c :: 0 <= c < m.bc ==>
                  biasGrad[c] == old(biasGrad[c]) + if InGroup(m, r, g, n, c) then BiasGrad(m, shareAt, c) else 0.0
      invariant forall c :: 0 <= c < Channels(m) ==>
                  convGrad[c] == old(convGrad[c])
                    + if InGroup(m, r, g, n, c - at) then ChannelGrad(m, t, at, shareAt, scale, c - at) else 0.0
    {
      GroupStep(m, r, g, n);
      NormBackCell(m, t, at, r, g, n, conv, inv, share[g, n], scale, dot, scaleGrad, biasGrad, convGrad, shareAt);
    }
  }

  /** Channel `c` is one of the first `n` states of rank `r` and group `g`. */
  ghost predicate InGroup(m: Block, r: int, g: int, n: int, c: int) {
    Flat(m, r, g, 0) <= c < Flat(m, r, g, n)
  }

  lemma GroupStart(m: Block, r: int, g: int)
    ensures forall c :: !InGroup(m, r, g, 0, c)
  {
  }

  lemma GroupStep(m: Block, r: int, g: int, n: nat)
    ensures forall c {:trigger InGroup(m, r, g, n + 1, c)} {:trigger InGroup(m, r, g, n, c)} ::
              InGroup(m, r, g, n + 1, c) == (InGroup(m, r, g, n, c) || c == Flat(m, r, g, n))
    ensures !InGroup(m, r, g, n, Flat(m, r, g, n))
    ensures n == 0 ==> forall c :: !InGroup(m, r, g, 0, c)
  {
  }

  /** Channel `c` comes before group `g` of rank `r`. */
  ghost predicate Before(m: Block, r: int, g: int, c: int) {
    0 <= c < Flat(m, r, g, 0)
  }

  lemma BeforeStep(m: Block, r: nat, g: nat)
    ensures forall c :: Before(m, r, g + 1, c) == (Before(m, r, g, c) || InGroup(m, r, g, m.state, c))
    ensures forall c :: Before(m, r, g, c) ==> !InGroup(m, r, g, m.state, c)
  {
    assert Flat(m, r, g + 1, 0) == Flat(m, r, g, m.state);
    MulMono(0, r, m.groups);
    MulMono(0, r * m.groups + g, m.state);
  }

  lemma BeforeEnds(m: Block, r: int)
    ensures forall c :: !Before(m, 0, 0, c)
    ensures forall c :: Before(m, r + 1, 0, c) == Before(m, r, m.groups, c)
    ensures forall c :: Before(m, m.ranks, 0, c) == (0 <= c < m.bc)
  {
    hide Flat;
    FlatEnds(m, r);
  }

  lemma FlatEnds(m: Block, r: int)
    ensures Flat(m, 0, 0, 0) == 0 && Flat(m, m.ranks, 0, 0) == m.bc && Flat(m, r + 1, 0, 0) == Flat(m, r, m.groups, 0)
  {
    assert (r + 1) * m.groups == r * m.groups + m.groups;
  }

  /** One side, reversed, rank by rank and group by group. */
  method NormBackSide(m: Block, t: nat, at: nat, conv: array<real>, inv: array2<real>, share: array2<real>,
                      scale: int -> real, scaleGrad: array<real>, biasGrad: array<real>, convGrad: array<real>,
                      ghost shareAt: (int, int) -> real)
    requires at + m.bc <= Channels(m)
    requires Vector(conv, Channels(m), c => Conv(m, t, c)) && Matrix(share, m.groups, m.state, shareAt)
    requires Matrix(inv, m.ranks, m.groups, (r, g) => InvRms(m, t, at, r, g))
    requires scaleGrad.Length == m.bc && biasGrad.Length == m.bc && convGrad.Length == Channels(m)
    requires conv !in {scaleGrad, biasGrad, convGrad} && scaleGrad != biasGrad && scaleGrad != convGrad
             && biasGrad != convGrad
    modifies scaleGrad, biasGrad, convGrad
    ensures forall c :: 0 <= c < m.bc ==> scaleGrad[c] == old(scaleGrad[c]) + ScaleGrad(m, t, at, shareAt, c)
    ensures forall c :: 0 <= c < m.bc ==> biasGrad[c] == old(biasGrad[c]) + BiasGrad(m, shareAt, c)
    ensures forall c :: 0 <= c < Channels(m) ==>
              convGrad[c] == old(convGrad[c])
                             + if 0 <= c - at < m.bc then ChannelGrad(m, t, at, shareAt, scale, c - at) else 0.0
  {
    hide Conv, InvRms, Flat, ScaleGrad, BiasGrad, ChannelGrad, Before, InGroup;
    BeforeEnds(m, 0);
    for r := 0 to m.ranks
      invariant forall c :: 0 <= c < m.bc ==>
                  scaleGrad[c] == old(scaleGrad[c])
                                  + if Before(m, r, 0, c) then ScaleGrad(m, t, at, shareAt, c) else 0.0
      invariant forall c :: 0 <= c < m.bc ==>
                  biasGrad[c] == old(biasGrad[c]) + if Before(m, r, 0, c) then BiasGrad(m, shareAt, c) else 0.0
      invariant forall c :: 0 <= c < Channels(m) ==>
                  convGrad[c] == old(convGrad[c])
                    + if Before(m, r, 0, c - at) then ChannelGrad(m, t, at, shareAt, scale, c - at) else 0.0
    {
      for g := 0 to m.groups
        invariant forall c :: 0 <= c < m.bc ==>
                    scaleGrad[c] == old(scaleGrad[c])
                                    + if Before(m, r, g, c) then ScaleGrad(m, t, at, shareAt, c) else 0.0
        invariant forall c :: 0 <= c < m.bc ==>
                    biasGrad[c] == old(biasGrad[c]) + if Before(m, r, g, c) then BiasGrad(m, shareAt, c) else 0.0
        invariant forall c :: 0 <= c < Channels(m) ==>
                    convGrad[c] == old(convGrad[c])
                      + if Before(m, r, g, c - at) then ChannelGrad(m, t, at, shareAt, scale, c - at) else 0.0
      {
        BeforeStep(m, r, g);
        NormBackGroup(m, t, at, r, g, conv, inv[r, g], share, scale, scaleGrad, biasGrad, convGrad, shareAt);
      }
      BeforeEnds(m, r);
    }
  }

  lemma SideForms(m: Block, t: int, bs: (int, int) -> real, cs: (int, int) -> real)
    requires forall g, n {:trigger bs(g, n)} :: bs(g, n) == BShare(m, t, g, n)
    requires forall g, n {:trigger cs(g, n)} :: cs(g, n) == CShare(m, t, g, n)
    ensures forall c ::
              ScaleGrad(m, t, BAt(m), bs, c) == BScaleTerm(m, c, t) && BiasGrad(m, bs, c) == BBiasTerm(m, c, t)
    ensures forall c ::
              ScaleGrad(m, t, CAt(m), cs, c) == CScaleTerm(m, c, t) && BiasGrad(m, cs, c) == CBiasTerm(m, c, t)
    ensures forall c :: ChannelGrad(m, t, BAt(m), bs, m.bScale, c) == BConvGrad(m, t, c)
    ensures forall c :: ChannelGrad(m, t, CAt(m), cs, m.cScale, c) == CConvGrad(m, t, c)
  {
    hide BShare, CShare, Conv, InvRms, RankOf, GroupOf, StateOf, NormBackward, NormDot, Mul;
    forall c
      ensures ChannelGrad(m, t, BAt(m), bs, m.bScale, c) == BConvGrad(m, t, c)
      ensures ChannelGrad(m, t, CAt(m), cs, m.cScale, c) == CConvGrad(m, t, c)
    {
      DotEq(m, t, BAt(m), bs, (g, n) => BShare(m, t, g, n), m.bScale, RankOf(m, c), GroupOf(m, c));
      DotEq(m, t, CAt(m), cs, (g, n) => CShare(m, t, g, n), m.cScale, RankOf(m, c), GroupOf(m, c));
    }
  }

  lemma DotEq(m: Block, t: int, at: int, share: (int, int) -> real, share': (int, int) -> real, scale: int -> real,
              r: int, g: int)
    requires forall g, n {:trigger share(g, n)} :: share(g, n) == share'(g, n)
    ensures NormDot(m, t, at, share, scale, r, g) == NormDot(m, t, at, share', scale, r, g)
  {
    hide Sum, Conv, Flat, NormDotTerm;
    var x := (n: int) => NormDotTerm(share(g, n), scale(Flat(m, r, g, n)), Conv(m, t, at + Flat(m, r, g, n)));
    var y := (n: int) => NormDotTerm(share'(g, n), scale(Flat(m, r, g, n)), Conv(m, t, at + Flat(m, r, g, n)));
    SumEq(m.state, x, y);
  }

  /** Both normalisations, reversed: adds the row's terms to the scale and bias gradients and fills the B
      and C segments of `convGrad`. */
  method NormBack(m: Block, t: nat, row: Row, bRawGrad: array2<real>, cRawGrad: array2<real>,
                  bScale: array<real>, bBias: array<real>, cScale: array<real>, cBias: array<real>,
                  convGrad: array<real>)
    requires row.Holds(m, t)
    requires Matrix(bRawGrad, m.groups, m.state, (g, n) => BRawGrad(m, t, g, n))
    requires Matrix(cRawGrad, m.groups, m.state, (g, n) => CRawGrad(m, t, g, n))
    requires bScale.Length == m.bc && bBias.Length == m.bc && cScale.Length == m.bc && cBias.Length == m.bc
    requires convGrad.Length == Channels(m)
    requires {bScale as object, bBias, cScale, cBias, convGrad} !! row.Repr()
    requires bScale !in {bBias, cScale, cBias, convGrad} && bBias !in {cScale, cBias, convGrad}
    requires cScale !in {cBias, convGrad} && cBias != convGrad
    modifies bScale, bBias, cScale, cBias, convGrad
    ensures forall c :: 0 <= c < m.bc ==> bScale[c] == old(bScale[c]) + BScaleTerm(m, c, t)
    ensures forall c :: 0 <= c < m.bc ==> bBias[c] == old(bBias[c]) + BBiasTerm(m, c, t)
    ensures forall c :: 0 <= c < m.bc ==> cScale[c] == old(cScale[c]) + CScaleTerm(m, c, t)
    ensures forall c :: 0 <= c < m.bc ==> cBias[c] == old(cBias[c]) + CBiasTerm(m, c, t)
    ensures forall c :: 0 <= c < Channels(m) ==>
              convGrad[c] == old(convGrad[c]) + if c >= m.features then ConvGrad(m, t, c) else 0.0
  {
    hide ScaleGrad, BiasGrad, ChannelGrad, BConvGrad, CConvGrad, XGrad, BScaleTerm, BBiasTerm, CScaleTerm, CBiasTerm,
         BRawGrad, CRawGrad, BShare, CShare, Row.Holds, Conv, Trap, InvRms;
    NormInputs(m, t, row);
    var bShare, cShare := Shares(m, t, bRawGrad, cRawGrad, row.trap);
    ghost var bs, cs := (g: int, n: int) => BShare(m, t, g, n), (g: int, n: int) => CShare(m, t, g, n);
    SideForms(m, t, bs, cs);
    NormBackSide(m, t, BAt(m), row.conv, row.bInv, bShare, m.bScale, bScale, bBias, convGrad, bs);
    NormBackSide(m, t, CAt(m), row.conv, row.cInv, cShare, m.cScale, cScale, cBias, convGrad, cs);
  }

  lemma NormInputs(m: Block, t: int, row: Row)
    requires row.Holds(m, t)
    ensures Vector(row.conv, Channels(m), c => Conv(m, t, c)) && Vector(row.trap, m.groups, g => Trap(m, t, g))
    ensures Matrix(row.bInv, m.ranks, m.groups, (r, g) => InvRms(m, t, BAt(m), r, g))
    ensures Matrix(row.cInv, m.ranks, m.groups, (r, g) => InvRms(m, t, CAt(m), r, g))
    ensures {row.bInv, row.cInv} <= row.Repr() && {row.conv, row.trap} <= row.Repr()
  {
  }
}
