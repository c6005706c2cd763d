/** The rank-and-group normalisation of B and C, reversed. */
module MambaNormAdjoint {
  import opened Sums
  import opened Stages
  import opened Functions
  import opened MambaModel
  import opened MambaTangent
  import opened MambaGradient

  // ---- flat channel index ----

  ghost function FlatRow(m: Block, f: int -> real, g: int, r: int): real {
    Sum(m.state, n => f(Flat(m, r, g, n)))
  }

  /** The flat channels are visited once each by group, rank and state. */
  lemma FlatSum(m: Block, f: int -> real)
    ensures Sum(m.bc, f) == Sum2(m.groups, m.ranks, (g, r) => FlatRow(m, f, g, r))
  {
    hide Sum;
    var rows := (q: int) => Sum(m.state, n => f(q * m.state + n));
    SumFlatten(m.ranks * m.groups, m.state, f);
    SumFlatten(m.ranks, m.groups, rows);
    var byRank := (r: int, g: int) => rows(r * m.groups + g);
    var byGroup := (g: int, r: int) => FlatRow(m, f, g, r);
    forall g, r ensures byGroup(g, r) == byRank(r, g) {
      var q := r * m.groups + g;
      var x, y := (n: int) => f(Flat(m, r, g, n)), (n: int) => f(q * m.state + n);
      forall n ensures x(n) == y(n) {
        assert Flat(m, r, g, n) == q * m.state + n;
      }
      SumEq(m.state, x, y);
      assert rows(q) == Sum(m.state, y);
    }
    Sum2Swap(m.ranks, m.groups, byRank, byGroup);
    SumRows(m.ranks, m.groups, rows, byRank);
  }

  lemma SumRows(n: nat, k: nat, rows: int -> real, f: (int, int) -> real)
    requires forall r, g {:trigger f(r, g)} :: f(r, g) == rows(r * k + g)
    ensures Sum(n, r => Sum(k, g => rows(r * k + g))) == Sum2(n, k, f)
  {
    var a := (r: int) => Sum(k, g => rows(r * k + g));
    forall r ensures a(r) == Row(k, f, r) {
      SumEq(k, g => rows(r * k + g), g => f(r, g));
    }
    SumEq(n, a, r => Row(k, f, r));
  }

  // ---- the mean over ranks of the normalised, scaled and shifted channels ----

  /** The B side or the C side of a row: where its channels start, its parameters with their tangents,
      the cotangent of its mean and each rank's share of that. */
  datatype Side = Side(at: nat, scale: int -> real, dScale: int -> real, dBias: int -> real,
                       grad: (int, int) -> real, share: (int, int) -> real)

  ghost function MeanCell(m: Block, d: Tangent, t: int, s: Side, g: int, r: int, n: int): real {
    Mul(s.share(g, n), TMeanTerm(m, d, t, s.at, s.scale, s.dScale, s.dBias, g, n, r))
  }

  ghost function MeanRow(m: Block, d: Tangent, t: int, s: Side, g: int, r: int): real {
    Sum(m.state, n => MeanCell(m, d, t, s, g, r, n))
  }

  ghost function ViaValue(m: Block, d: Tangent, t: int, s: Side, c: int): real {
    Mul(ChannelGrad(m, t, s.at, s.share, s.scale, c), TConv(m, d, t, s.at + c))
  }

  ghost function ViaScale(m: Block, d: Tangent, t: int, s: Side, c: int): real {
    Mul(ScaleGrad(m, t, s.at, s.share, c), s.dScale(c))
  }

  ghost function ViaBias(m: Block, t: int, s: Side, c: int): real {
    Mul(s.share(GroupOf(m, c), StateOf(m, c)), s.dBias(c))
  }

  ghost function FlatGrad(m: Block, t: int, s: Side, r: int, g: int, n: int): real {
    NormGrad(m, t, s.at, s.share, s.scale, r, g, n)
  }

  ghost function FlatScale(m: Block, t: int, s: Side, r: int, g: int, n: int): real {
    Mul(Mul(s.share(g, n), Conv(m, t, s.at + Flat(m, r, g, n))), InvRms(m, t, s.at, r, g))
  }

  lemma RankRow(m: Block, d: Tangent, t: int, s: Side, g: int, r: int)
    ensures MeanRow(m, d, t, s, g, r)
         == Pair(m.state, n => FlatGrad(m, t, s, r, g, n), n => TConv(m, d, t, s.at + Flat(m, r, g, n)))
            + Pair(m.state, n => FlatScale(m, t, s, r, g, n), n => s.dScale(Flat(m, r, g, n)))
            + Pair(m.state, n => s.share(g, n), n => s.dBias(Flat(m, r, g, n)))
  {
    hide Sum, Mul, Conv, TConv, InvRms, NormTangent, NormDotTerm, NormBackward, InvTangent, Flat;
    NormRow(m.state, n => s.share(g, n), n => s.scale(Flat(m, r, g, n)), n => s.dScale(Flat(m, r, g, n)),
            n => s.dBias(Flat(m, r, g, n)), n => Conv(m, t, s.at + Flat(m, r, g, n)),
            n => TConv(m, d, t, s.at + Flat(m, r, g, n)), InvRms(m, t, s.at, r, g), TInvRms(m, d, t, s.at, r, g),
            NormDot(m, t, s.at, s.share, s.scale, r, g), n => MeanCell(m, d, t, s, g, r, n),
            n => NormDotTerm(s.share(g, n), s.scale(Flat(m, r, g, n)), Conv(m, t, s.at + Flat(m, r, g, n))),
            n => Mul(Conv(m, t, s.at + Flat(m, r, g, n)), TConv(m, d, t, s.at + Flat(m, r, g, n))),
            n => FlatGrad(m, t, s, r, g, n), n => FlatScale(m, t, s, r, g, n));
  }

  lemma RankFlat(m: Block, d: Tangent, t: int, s: Side, g: int, r: int)
    requires 0 <= g < m.groups
    ensures MeanRow(m, d, t, s, g, r)
         == FlatRow(m, c => ViaValue(m, d, t, s, c), g, r) + FlatRow(m, c => ViaScale(m, d, t, s, c), g, r)
            + FlatRow(m, c => ViaBias(m, t, s, c), g, r)
  {
    hide Sum, Mul, Conv, TConv, InvRms, NormGrad, Flat, RankOf, GroupOf, StateOf, MeanRow;
    RankRow(m, d, t, s, g, r);
    var x, y, z := (n: int) => ViaValue(m, d, t, s, Flat(m, r, g, n)),
        (n: int) => ViaScale(m, d, t, s, Flat(m, r, g, n)),
                   (n: int) => ViaBias(m, t, s, Flat(m, r, g, n));
    forall n | 0 <= n < m.state
      ensures x(n) == Mul(FlatGrad(m, t, s, r, g, n), TConv(m, d, t, s.at + Flat(m, r, g, n)))
      ensures y(n) == Mul(FlatScale(m, t, s, r, g, n), s.dScale(Flat(m, r, g, n)))
      ensures z(n) == Mul(s.share(g, n), s.dBias(Flat(m, r, g, n)))
    {
      FlatParts(m, r, g, n);
    }
    PairMul(m.state, n => FlatGrad(m, t, s, r, g, n), n => TConv(m, d, t, s.at + Flat(m, r, g, n)), x);
    PairMul(m.state, n => FlatScale(m, t, s, r, g, n), n => s.dScale(Flat(m, r, g, n)), y);
    PairMul(m.state, n => s.share(g, n), n => s.dBias(Flat(m, r, g, n)), z);
    FlatRowForm(m, c => ViaValue(m, d, t, s, c), g, r, x);
    FlatRowForm(m, c => ViaScale(m, d, t, s, c), g, r, y);
    FlatRowForm(m, c => ViaBias(m, t, s, c), g, r, z);
  }

  lemma FlatRowForm(m: Block, f: int -> real, g: int, r: int, x: int -> real)
    requires forall n {:trigger x(n)} :: 0 <= n < m.state ==> x(n) == f(Flat(m, r, g, n))
    ensures FlatRow(m, f, g, r) == Sum(m.state, x)
  {
    hide Flat;
    SumEq(m.state, n => f(Flat(m, r, g, n)), x);
  }

  /** Every group's mean, reversed, in channel order. */
  lemma MeanStage(m: Block, d: Tangent, t: int, s: Side)
    requires forall g, n {:trigger s.share(g, n)} :: s.share(g, n) == s.grad(g, n) / m.ranks as real
    ensures Pair2(m.groups, m.state, s.grad, (g, n) => TMean(m, d, t, s.at, s.scale, s.dScale, s.dBias, g, n))
         == Sum(m.bc, c => ViaValue(m, d, t, s, c)) + Sum(m.bc, c => ViaScale(m, d, t, s, c))
            + Sum(m.bc, c => ViaBias(m, t, s, c))
  {
    hide Sum, Row, Mul, ViaValue, ViaScale, ViaBias, TMean, MeanRow, FlatRow;
    var tmean := (g: int, n: int) => TMean(m, d, t, s.at, s.scale, s.dScale, s.dBias, g, n);
    var rows := (g: int, r: int) => MeanRow(m, d, t, s, g, r);
    forall g | 0 <= g < m.groups ensures PairRow(m.state, s.grad, tmean, g) == Row(m.ranks, rows, g) {
      GroupRow(m, d, t, s, g);
    }
    Pair2Rows(m.groups, m.state, s.grad, tmean);
    SumEq(m.groups, g => PairRow(m.state, s.grad, tmean, g), g => Row(m.ranks, rows, g));
    var v, c, b := (c: int) => ViaValue(m, d, t, s, c), (c: int) => ViaScale(m, d, t, s, c),
        (c: int) => ViaBias(m, t, s, c);
    MeanRows(m, d, t, s, rows, v, c, b);
    FlatSum(m, v);
    FlatSum(m, c);
    FlatSum(m, b);
  }

  lemma MeanRows(m: Block, d: Tangent, t: int, s: Side, rows: (int, int) -> real, v: int -> real, c: int -> real,
                 b: int -> real)
    requires forall g, r {:trigger rows(g, r)} :: rows(g, r) == MeanRow(m, d, t, s, g, r)
    requires v == (i => ViaValue(m, d, t, s, i)) && c == (i => ViaScale(m, d, t, s, i))
             && b == (i => ViaBias(m, t, s, i))
    ensures Sum2(m.groups, m.ranks, rows)
         == Sum2(m.groups, m.ranks, (g, r) => FlatRow(m, v, g, r))
            + Sum2(m.groups, m.ranks, (g, r) => FlatRow(m, c, g, r))
            + Sum2(m.groups, m.ranks, (g, r) => FlatRow(m, b, g, r))
  {
    hide Sum, Sum2, MeanRow, FlatRow;
    var x, y, z := (g: int, r: int) => FlatRow(m, v, g, r), (g: int, r: int) => FlatRow(m, c, g, r),
        (g: int, r: int) => FlatRow(m, b, g, r);
    var xy := (g: int, r: int) => x(g, r) + y(g, r);
    forall g, r | 0 <= g < m.groups ensures rows(g, r) == xy(g, r) + z(g, r) {
      RankFlat(m, d, t, s, g, r);
    }
    Sum2Add(m.groups, m.ranks, xy, x, y);
    Sum2Add(m.groups, m.ranks, rows, xy, z);
  }

  /** The mean's cotangent reaches every rank in equal shares. */
  lemma GroupRow(m: Block, d: Tangent, t: int, s: Side, g: int)
    requires forall g, n {:trigger s.share(g, n)} :: s.share(g, n) == s.grad(g, n) / m.ranks as real
    ensures PairRow(m.state, s.grad, (g, n) => TMean(m, d, t, s.at, s.scale, s.dScale, s.dBias, g, n), g)
         == Row(m.ranks, (g, r) => MeanRow(m, d, t, s, g, r), g)
  {
    hide Sum, Mul, TMeanTerm;
    var cell := (n: int, r: int) => MeanCell(m, d, t, s, g, r, n);
    var x := (n: int) => Mul(s.grad(g, n), TMean(m, d, t, s.at, s.scale, s.dScale, s.dBias, g, n));
    PairRowMul(m.state, s.grad, (g, n) => TMean(m, d, t, s.at, s.scale, s.dScale, s.dBias, g, n), g, x);
    forall n ensures x(n) == Row(m.ranks, cell, n) {
      MeanShare(m.ranks, s.grad(g, n), s.share(g, n),
                r => TMeanTerm(m, d, t, s.at, s.scale, s.dScale, s.dBias, g, n, r),
                r => cell(n, r));
    }
    SumEq(m.state, x, n => Row(m.ranks, cell, n));
    var flipped, rows := (r: int, n: int) => cell(n, r), (r: int) => MeanRow(m, d, t, s, g, r);
    Sum2Swap(m.state, m.ranks, cell, flipped);
    forall r ensures rows(r) == Row(m.state, flipped, r) {
      SumEq(m.state, n => MeanCell(m, d, t, s, g, r, n), n => flipped(r, n));
    }
    SumEq(m.ranks, r => Row(m.state, flipped, r), rows);
    var byGroup := (g: int, r: int) => MeanRow(m, d, t, s, g, r);
    SumEq(m.ranks, rows, r => byGroup(g, r));
  }

  lemma MeanShare(ranks: nat, grad: real, share: real, terms: int -> real, cells: int -> real)
    requires 0 < ranks && share == grad / ranks as real
    requires forall r {:trigger cells(r)} :: cells(r) == Mul(share, terms(r))
    ensures Mul(grad, Sum(ranks, terms) / ranks as real) == Sum(ranks, cells)
  {
    hide Sum;
    SumScaleMul(ranks, cells, share, terms);
    var q := 1.0 / ranks as real;
    assert share == grad * q && Sum(ranks, terms) / ranks as real == Sum(ranks, terms) * q;
  }
}
