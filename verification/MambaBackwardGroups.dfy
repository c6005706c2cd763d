/** The backward computation of one row, continued: rotations, means and normalisations of B and C. */
module MambaBackwardGroups {
  import opened Buffers
  import opened MambaModel
  import opened MambaGradient
  import opened MambaBackwardRow

  // ---- rotations ----

  ghost function UnrotateAt(m: Block, t: int, grad: (int, int) -> real, g: int, n: int): real {
    Unrotate(m, k => grad(g, k), a => Angle(m, t + 1, g, a), n)
  }

  ghost function TurnAt(m: Block, t: int, grad: (int, int) -> real, raw: (int, int) -> real, g: int, j: int): real {
    RotationGrad(m, k => grad(g, k), k => raw(g, k), a => Angle(m, t + 1, g, a), j)
  }

  /** One pair of group `g`, reversed. */
  method UnrotatePair(m: Block, t: nat, g: nat, j: nat, rotGrad: array2<real>, raw: array2<real>, angle: array2<real>,
                      rawGrad: array2<real>, angleGrad: array2<real>, ghost gradAt: (int, int) -> real,
                      ghost rawAt: (int, int) -> real)
    requires g < m.groups && j < m.angles
    requires Matrix(rotGrad, m.groups, m.state, gradAt) && Matrix(raw, m.groups, m.state, rawAt)
    requires Matrix(angle, m.heads, m.angles, (h, j) => Angle(m, t + 1, h, j))
    requires rawGrad.Length0 == m.groups && rawGrad.Length1 == m.state
    requires angleGrad.Length0 == m.heads && angleGrad.Length1 == m.angles
    requires {rawGrad, angleGrad} !! {rotGrad, raw, angle} && rawGrad != angleGrad
    modifies rawGrad, angleGrad
    ensures forall i, n :: 0 <= i < m.groups && 0 <= n < m.state ==>
              rawGrad[i, n] == old(rawGrad[i, n])
                               + if i == g && n == 2 * j then UnrotateAt(m, t, gradAt, g, 2 * j)
                                 else if i == g && n == 2 * j + 1 then UnrotateAt(m, t, gradAt, g, 2 * j + 1)
                                 else 0.0
    ensures forall h, l :: 0 <= h < m.heads && 0 <= l < m.angles ==>
              angleGrad[h, l] == old(angleGrad[h, l])
                                 + if h == g && l == j then TurnAt(m, t, gradAt, rawAt, g, j) else 0.0
  {
    hide Angle, TurnGrad, UnturnFirst, UnturnSecond, UnrotateAt, TurnAt;
    var lo, hi := 2 * j, 2 * j + 1;
    assert hi < m.state && g < m.heads;
    hide Valid;
    var cos, sin := m.fns.cos(angle[g, j]), m.fns.sin(angle[g, j]);
    var first, second := rotGrad[g, lo], rotGrad[g, hi];
    PairValues(m, t, gradAt, rawAt, g, j, lo, hi, cos, sin);
    var turn := TurnGrad(cos, sin, first, second, raw[g, lo], raw[g, hi]);
    AddNeighbours(rawGrad, g, lo, UnturnFirst(cos, sin, first, second), UnturnSecond(cos, sin, first, second));
    AddCell(angleGrad, g, j, turn);
  }

  lemma PairValues(m: Block, t: int, grad: (int, int) -> real, raw: (int, int) -> real, g: int, j: int, lo: int,
                   hi: int, cos: real, sin: real)
    requires 0 <= j < m.angles && lo == 2 * j && hi == 2 * j + 1
    requires cos == m.fns.cos(Angle(m, t + 1, g, j)) && sin == m.fns.sin(Angle(m, t + 1, g, j))
    ensures UnrotateAt(m, t, grad, g, lo) == UnturnFirst(cos, sin, grad(g, lo), grad(g, hi))
    ensures UnrotateAt(m, t, grad, g, hi) == UnturnSecond(cos, sin, grad(g, lo), grad(g, hi))
    ensures TurnAt(m, t, grad, raw, g, j) == TurnGrad(cos, sin, grad(g, lo), grad(g, hi), raw(g, lo), raw(g, hi))
  {
    hide Valid, Angle, TurnGrad, UnturnFirst, UnturnSecond, Unrotate, TurnAt;
    UnrotatedPair(m, k => grad(g, k), a => Angle(m, t + 1, g, a), j, lo, hi);
    TurnedPair(m, t, grad, raw, g, j, lo, hi);
  }

  lemma TurnedPair(m: Block, t: int, grad: (int, int) -> real, raw: (int, int) -> real, g: int, j: int, lo: int,
                   hi: int)
    requires lo == 2 * j && hi == 2 * j + 1
    ensures TurnAt(m, t, grad, raw, g, j)
         == TurnGrad(m.fns.cos(Angle(m, t + 1, g, j)), m.fns.sin(Angle(m, t + 1, g, j)), grad(g, lo), grad(g, hi),
                     raw(g, lo), raw(g, hi))
  {
    hide Valid, Angle, TurnGrad;
  }

  lemma UnrotatedPair(m: Block, grad: int -> real, angle: int -> real, j: int, lo: int, hi: int)
    requires 0 <= j < m.angles && lo == 2 * j && hi == 2 * j + 1
    ensures Unrotate(m, grad, angle, lo) == UnturnFirst(m.fns.cos(angle(j)), m.fns.sin(angle(j)), grad(lo), grad(hi))
    ensures Unrotate(m, grad, angle, hi) == UnturnSecond(m.fns.cos(angle(j)), m.fns.sin(angle(j)), grad(lo), grad(hi))
  {
    assert lo / 2 == j && hi / 2 == j && lo % 2 == 0 && hi % 2 == 1;
    hide Valid, UnturnFirst, UnturnSecond;
  }

  /** The states of group `g` that are not rotated. */
  method UnrotateTail(m: Block, t: nat, g: nat, rotGrad: array2<real>, rawGrad: array2<real>,
                      ghost gradAt: (int, int) -> real)
    requires g < m.groups && Matrix(rotGrad, m.groups, m.state, gradAt)
    requires rawGrad.Length0 == m.groups && rawGrad.Length1 == m.state && rawGrad != rotGrad
    modifies rawGrad
    ensures forall i, n :: 0 <= i < m.groups && 0 <= n < m.state ==>
              rawGrad[i, n] == old(rawGrad[i, n])
                               + if i == g && n >= 2 * m.angles then UnrotateAt(m, t, gradAt, g, n) else 0.0
  {
    hide Angle, UnturnFirst, UnturnSecond;
    for n := 2 * m.angles to m.state
      invariant forall i, k :: 0 <= i < m.groups && 0 <= k < m.state ==>
                  rawGrad[i, k] == old(rawGrad[i, k])
                    + if i == g && 2 * m.angles <= k < n then UnrotateAt(m, t, gradAt, g, k) else 0.0
    {
      rawGrad[g, n] := rawGrad[g, n] + rotGrad[g, n];
    }
  }

  /** Both sides' rotations, reversed, group by group and pair by pair. */
  method UnrotateGroups(m: Block, t: nat, gr: ScanGrads, bRaw: array2<real>, cRaw: array2<real>, angle: array2<real>,
                        bRawGrad: array2<real>, cRawGrad: array2<real>, angleGrad: array2<real>)
    requires Matrix(gr.bRot, m.groups, m.state, (g, n) => BRotGrad(m, t, g, n))
    requires Matrix(gr.cRot, m.groups, m.state, (g, n) => CRotGrad(m, t, g, n))
    requires Matrix(bRaw, m.groups, m.state, (g, n) => BRaw(m, t, g, n))
    requires Matrix(cRaw, m.groups, m.state, (g, n) => CRaw(m, t, g, n))
    requires Matrix(angle, m.heads, m.angles, (h, j) => Angle(m, t + 1, h, j))
    requires Matrix(bRawGrad, m.groups, m.state, (g, n) => 0.0) && Matrix(cRawGrad, m.groups, m.state, (g, n) => 0.0)
    requires angleGrad.Length0 == m.heads && angleGrad.Length1 == m.angles
    requires {bRawGrad, cRawGrad, angleGrad} !! {gr.bRot, gr.cRot, bRaw, cRaw, angle}
    requires bRawGrad != cRawGrad && bRawGrad != angleGrad && cRawGrad != angleGrad
    modifies bRawGrad, cRawGrad, angleGrad
    ensures Matrix(bRawGrad, m.groups, m.state, (g, n) => BRawGrad(m, t, g, n))
    ensures Matrix(cRawGrad, m.groups, m.state, (g, n) => CRawGrad(m, t, g, n))
    ensures forall h, j :: 0 <= h < m.heads && 0 <= j < m.angles ==>
              angleGrad[h, j] == old(angleGrad[h, j]) + AngleTerm(m, t, h, j)
  {
    hide Angle, BRotGrad, CRotGrad, BRaw, CRaw, UnrotateAt, TurnAt, BRawGrad, CRawGrad, AngleTerm;
    ghost var bg, cg := (g: int, n: int) => BRotGrad(m, t, g, n), (g: int, n: int) => CRotGrad(m, t, g, n);
    ghost var br, cr := (g: int, n: int) => BRaw(m, t, g, n), (g: int, n: int) => CRaw(m, t, g, n);
    for g := 0 to m.groups
      invariant forall i, n :: 0 <= i < m.groups && 0 <= n < m.state ==>
                  bRawGrad[i, n] == if i < g then UnrotateAt(m, t, bg, i, n) else 0.0
      invariant forall i, n :: 0 <= i < m.groups && 0 <= n < m.state ==>
                  cRawGrad[i, n] == if i < g then UnrotateAt(m, t, cg, i, n) else 0.0
      invariant forall h, j :: 0 <= h < m.heads && 0 <= j < m.angles ==>
                  angleGrad[h, j] == old(angleGrad[h, j])
                                     + if h < g then TurnAt(m, t, bg, br, h, j) + TurnAt(m, t, cg, cr, h, j) else 0.0
    {
      UnrotateGroup(m, t, g, gr, bRaw, cRaw, angle, bRawGrad, cRawGrad, angleGrad, bg, cg, br, cr);
    }
    RotationForms(m, t, bg, cg, br, cr);
  }

  method UnrotateGroup(m: Block, t: nat, g: nat, gr: ScanGrads, bRaw: array2<real>, cRaw: array2<real>,
                       angle: array2<real>, bRawGrad: array2<real>, cRawGrad: array2<real>, angleGrad: array2<real>,
                       ghost bg: (int, int) -> real, ghost cg: (int, int) -> real, ghost br: (int, int) -> real,
                       ghost cr: (int, int) -> real)
    requires g < m.groups
    requires Matrix(gr.bRot, m.groups, m.state, bg) && Matrix(gr.cRot, m.groups, m.state, cg)
    requires Matrix(bRaw, m.groups, m.state, br) && Matrix(cRaw, m.groups, m.state, cr)
    requires Matrix(angle, m.heads, m.angles, (h, j) => Angle(m, t + 1, h, j))
    requires bRawGrad.Length0 == m.groups && bRawGrad.Length1 == m.state
    requires cRawGrad.Length0 == m.groups && cRawGrad.Length1 == m.state
    requires angleGrad.Length0 == m.heads && angleGrad.Length1 == m.angles
    requires {bRawGrad, cRawGrad, angleGrad} !! {gr.bRot, gr.cRot, bRaw, cRaw, angle}
    requires bRawGrad != cRawGrad && bRawGrad != angleGrad && cRawGrad != angleGrad
    modifies bRawGrad, cRawGrad, angleGrad
    ensures forall i, n :: 0 <= i < m.groups && 0 <= n < m.state ==>
              bRawGrad[i, n] == old(bRawGrad[i, n]) + if i == g then UnrotateAt(m, t, bg, g, n) else 0.0
    ensures forall i, n :: 0 <= i < m.groups && 0 <= n < m.state ==>
              cRawGrad[i, n] == old(cRawGrad[i, n]) + if i == g then UnrotateAt(m, t, cg, g, n) else 0.0
    ensures forall h, j :: 0 <= h < m.heads && 0 <= j < m.angles ==>
              angleGrad[h, j] == old(angleGrad[h, j])
                                 + if h == g then TurnAt(m, t, bg, br, g, j) + TurnAt(m, t, cg, cr, g, j) else 0.0
  {
    hide Angle, UnrotateAt, TurnAt;
    for j := 0 to m.angles
      invariant forall i, n :: 0 <= i < m.groups && 0 <= n < m.state ==>
                  bRawGrad[i, n] == old(bRawGrad[i, n])
                                    + if i == g && n < 2 * j then UnrotateAt(m, t, bg, g, n) else 0.0
      invariant forall i, n :: 0 <= i < m.groups && 0 <= n < m.state ==>
                  cRawGrad[i, n] == old(cRawGrad[i, n])
                                    + if i == g && n < 2 * j then UnrotateAt(m, t, cg, g, n) else 0.0
      invariant forall h, l :: 0 <= h < m.heads && 0 <= l < m.angles ==>
                  angleGrad[h, l] == old(angleGrad[h, l])
                                     + if h == g && l < j then TurnAt(m, t, bg, br, g, l) + TurnAt(m, t, cg, cr, g, l)
                                       else 0.0
    {
      UnrotatePair(m, t, g, j, gr.bRot, bRaw, angle, bRawGrad, angleGrad, bg, br);
      UnrotatePair(m, t, g, j, gr.cRot, cRaw, angle, cRawGrad, angleGrad, cg, cr);
    }
    UnrotateTail(m, t, g, gr.bRot, bRawGrad, bg);
    UnrotateTail(m, t, g, gr.cRot, cRawGrad, cg);
  }

  lemma RotationForms(m: Block, t: int, bg: (int, int) -> real, cg: (int, int) -> real, br: (int, int) -> real,
                      cr: (int, int) -> real)
    requires bg == ((g, n) => BRotGrad(m, t, g, n)) && cg == ((g, n) => CRotGrad(m, t, g, n))
    requires br == ((g, n) => BRaw(m, t, g, n)) && cr == ((g, n) => CRaw(m, t, g, n))
    ensures forall g, n :: UnrotateAt(m, t, bg, g, n) == BRawGrad(m, t, g, n)
    ensures forall g, n :: UnrotateAt(m, t, cg, g, n) == CRawGrad(m, t, g, n)
    ensures forall h, j :: AngleTerm(m, t, h, j)
                        == if h < m.groups then TurnAt(m, t, bg, br, h, j) + TurnAt(m, t, cg, cr, h, j) else 0.0
  {
    hide Angle, BRotGrad, CRotGrad, BRaw, CRaw, UnturnFirst, UnturnSecond, TurnGrad;
  }
}
