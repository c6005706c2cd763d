/** The rotary embedding and the cumulative angle, reversed. */
module MambaRotationAdjoint {
  import opened Sums
  import opened Stages
  import opened MambaModel
  import opened MambaTangent
  import opened MambaGradient

  ghost function RotOut(m: Block, grad: int -> real, raw: int -> real, angle: int -> real, tRaw: int -> real,
                        tAngle: int -> real, n: int): real
  {
    Mul(grad(n), TRotate(m, raw, angle, tRaw, tAngle, n))
  }

  ghost function RotBack(m: Block, grad: int -> real, angle: int -> real, tRaw: int -> real, n: int): real {
    Mul(Unrotate(m, grad, angle, n), tRaw(n))
  }

  ghost function RotTurn(m: Block, grad: int -> real, raw: int -> real, angle: int -> real, tAngle: int -> real,
                         j: int): real {
    Mul(RotationGrad(m, grad, raw, angle, j), tAngle(j))
  }

  /** One rotated pair. */
  lemma RotPair(m: Block, grad: int -> real, raw: int -> real, angle: int -> real, tRaw: int -> real,
                tAngle: int -> real, j: nat, k: nat)
    requires j < m.angles && k == 2 * j
    ensures RotOut(m, grad, raw, angle, tRaw, tAngle, k) + RotOut(m, grad, raw, angle, tRaw, tAngle, k + 1)
         == RotBack(m, grad, angle, tRaw, k) + RotBack(m, grad, angle, tRaw, k + 1)
            + RotTurn(m, grad, raw, angle, tAngle, j)
  {
    hide TRotate, Unrotate, RotationGrad, Mul, Turned;
    PairTurned(m, grad, raw, angle, tRaw, tAngle, j, k);
    PairCell(grad(k), grad(k + 1), raw(k), raw(k + 1), m.fns.cos(angle(j)), m.fns.sin(angle(j)),
             tRaw(k), tRaw(k + 1), tAngle(j),
             TRotate(m, raw, angle, tRaw, tAngle, k), TRotate(m, raw, angle, tRaw, tAngle, k + 1),
             Unrotate(m, grad, angle, k), Unrotate(m, grad, angle, k + 1), RotationGrad(m, grad, raw, angle, j));
  }

  /** The rotation of a pair by the angle with cosine `c` and sine `s`, forward and reversed. */
  ghost predicate Turned(g0: real, g1: real, r0: real, r1: real, c: real, s: real, t0: real, t1: real, ta: real,
                         y0: real, y1: real, u0: real, u1: real, w: real)
  {
    && y0 == TTurnFirst(c, s, r0, r1, t0, t1, ta)
    && y1 == TTurnSecond(c, s, r0, r1, t0, t1, ta)
    && u0 == UnturnFirst(c, s, g0, g1)
    && u1 == UnturnSecond(c, s, g0, g1)
    && w == TurnGrad(c, s, g0, g1, r0, r1)
  }

  lemma PairTurned(m: Block, grad: int -> real, raw: int -> real, angle: int -> real, tRaw: int -> real,
                   tAngle: int -> real, j: nat, k: nat)
    requires j < m.angles && k == 2 * j
    ensures Turned(grad(k), grad(k + 1), raw(k), raw(k + 1), m.fns.cos(angle(j)), m.fns.sin(angle(j)),
                   tRaw(k), tRaw(k + 1), tAngle(j),
                   TRotate(m, raw, angle, tRaw, tAngle, k), TRotate(m, raw, angle, tRaw, tAngle, k + 1),
                   Unrotate(m, grad, angle, k), Unrotate(m, grad, angle, k + 1), RotationGrad(m, grad, raw, angle, j))
  {
    hide TTurnFirst, TTurnSecond, UnturnFirst, UnturnSecond, TurnGrad;
    assert k / 2 == j && (k + 1) / 2 == j && k % 2 == 0 && (k + 1) % 2 == 1 && k + 1 - 1 == k;
  }

  lemma PairCell(g0: real, g1: real, r0: real, r1: real, c: real, s: real, t0: real, t1: real, ta: real,
                 y0: real, y1: real, u0: real, u1: real, w: real)
    requires Turned(g0, g1, r0, r1, c, s, t0, t1, ta, y0, y1, u0, u1, w)
    ensures Mul(g0, y0) + Mul(g1, y1) == Mul(u0, t0) + Mul(u1, t1) + Mul(w, ta)
  {
  }

  /** A state beyond the rotated ones. */
  lemma RotTail(m: Block, grad: int -> real, raw: int -> real, angle: int -> real, tRaw: int -> real,
                tAngle: int -> real, n: int)
    requires 2 * m.angles <= n
    ensures RotOut(m, grad, raw, angle, tRaw, tAngle, n) == RotBack(m, grad, angle, tRaw, n)
  {
  }

  /** For every rotation: the pairing of the rotated tangent is the pairing of the raw tangent with the
      un-rotated cotangent plus the pairing of the angles with their derivatives. */
  lemma RotateStage(m: Block, grad: int -> real, raw: int -> real, angle: int -> real, tRaw: int -> real,
                    tAngle: int -> real)
    ensures Sum(m.state, n => RotOut(m, grad, raw, angle, tRaw, tAngle, n))
         == Sum(m.state, n => RotBack(m, grad, angle, tRaw, n))
            + Sum(m.angles, j => RotTurn(m, grad, raw, angle, tAngle, j))
  {
    hide Sum, RotOut, RotBack, RotTurn;
    var rest := m.state - 2 * m.angles;
    var out := (n: int) => RotOut(m, grad, raw, angle, tRaw, tAngle, n);
    var back := (n: int) => RotBack(m, grad, angle, tRaw, n);
    var turn := (j: int) => RotTurn(m, grad, raw, angle, tAngle, j);
    SumSplit(2 * m.angles, rest, out);
    SumSplit(2 * m.angles, rest, back);
    var outTail, backTail := (i: int) => out(2 * m.angles + i), (i: int) => back(2 * m.angles + i);
    forall i | 0 <= i < rest ensures outTail(i) == backTail(i) {
      RotTail(m, grad, raw, angle, tRaw, tAngle, 2 * m.angles + i);
    }
    SumEq(rest, outTail, backTail);
    SumPairs(m.angles, out);
    SumPairs(m.angles, back);
    var outs, backs := (j: int) => out(2 * j) + out(2 * j + 1), (j: int) => back(2 * j) + back(2 * j + 1);
    RotPairs(m, grad, raw, angle, tRaw, tAngle, outs, backs, turn);
  }

  lemma RotPairs(m: Block, grad: int -> real, raw: int -> real, angle: int -> real, tRaw: int -> real,
                 tAngle: int -> real, outs: int -> real, backs: int -> real, turn: int -> real)
    requires forall j {:trigger outs(j)} :: outs(j) == RotOut(m, grad, raw, angle, tRaw, tAngle, 2 * j)
                                                  + RotOut(m, grad, raw, angle, tRaw, tAngle, 2 * j + 1)
    requires forall j {:trigger backs(j)} :: backs(j) == RotBack(m, grad, angle, tRaw, 2 * j)
                                                    + RotBack(m, grad, angle, tRaw, 2 * j + 1)
    requires forall j {:trigger turn(j)} :: turn(j) == RotTurn(m, grad, raw, angle, tAngle, j)
    ensures Sum(m.angles, outs) == Sum(m.angles, backs) + Sum(m.angles, turn)
  {
    hide RotOut, RotBack, RotTurn;
    forall j | 0 <= j < m.angles ensures outs(j) == backs(j) + turn(j) {
      RotPair(m, grad, raw, angle, tRaw, tAngle, j, 2 * j);
    }
    SumAdd(m.angles, outs, backs, turn);
  }

  // ---- the rotations of a row ----

  lemma BRotStage(m: Block, d: Tangent, t: int)
    ensures Pair2(m.groups, m.state, (g, n) => BRotGrad(m, t, g, n), (g, n) => TBRot(m, d, t, g, n))
         == Pair2(m.groups, m.state, (g, n) => BRawGrad(m, t, g, n), (g, n) => TBRaw(m, d, t, g, n))
            + Pair2(m.groups, m.angles, (g, j) => BTurn(m, t, g, j), (g, j) => TAngle(m, d, t + 1, g, j))
  {
    hide Sum, BRotGrad, BRaw, Angle, TBRaw, TAngle, RotationGrad, Unrotate, TRotate;
    var a, b := (g: int, n: int) => BRotGrad(m, t, g, n), (g: int, n: int) => TBRot(m, d, t, g, n);
    var a', b' := (g: int, n: int) => BRawGrad(m, t, g, n), (g: int, n: int) => TBRaw(m, d, t, g, n);
    var c, e := (g: int, j: int) => BTurn(m, t, g, j), (g: int, j: int) => TAngle(m, d, t + 1, g, j);
    forall g ensures PairRow(m.state, a, b, g) == PairRow(m.state, a', b', g) + PairRow(m.angles, c, e, g) {
      RotateRow(m, i => BRotGrad(m, t, g, i), i => BRaw(m, t, g, i), j => Angle(m, t + 1, g, j),
                i => TBRaw(m, d, t, g, i),
                j => TAngle(m, d, t + 1, g, j), i => TBRot(m, d, t, g, i), i => BRawGrad(m, t, g, i),
                j => BTurn(m, t, g, j));
      PairRowForm(m.state, a, b, g, i => BRotGrad(m, t, g, i), i => TBRot(m, d, t, g, i));
      PairRowForm(m.state, a', b', g, i => BRawGrad(m, t, g, i), i => TBRaw(m, d, t, g, i));
      PairRowForm(m.angles, c, e, g, j => BTurn(m, t, g, j), j => TAngle(m, d, t + 1, g, j));
    }
    PairRowsAdd(m.groups, m.state, a, b, m.state, a', b', m.angles, c, e);
  }

  lemma CRotStage(m: Block, d: Tangent, t: int)
    ensures Pair2(m.groups, m.state, (g, n) => CRotGrad(m, t, g, n), (g, n) => TCRot(m, d, t, g, n))
         == Pair2(m.groups, m.state, (g, n) => CRawGrad(m, t, g, n), (g, n) => TCRaw(m, d, t, g, n))
            + Pair2(m.groups, m.angles, (g, j) => CTurn(m, t, g, j), (g, j) => TAngle(m, d, t + 1, g, j))
  {
    hide Sum, CRotGrad, CRaw, Angle, TCRaw, TAngle, RotationGrad, Unrotate, TRotate;
    var a, b := (g: int, n: int) => CRotGrad(m, t, g, n), (g: int, n: int) => TCRot(m, d, t, g, n);
    var a', b' := (g: int, n: int) => CRawGrad(m, t, g, n), (g: int, n: int) => TCRaw(m, d, t, g, n);
    var c, e := (g: int, j: int) => CTurn(m, t, g, j), (g: int, j: int) => TAngle(m, d, t + 1, g, j);
    forall g ensures PairRow(m.state, a, b, g) == PairRow(m.state, a', b', g) + PairRow(m.angles, c, e, g) {
      RotateRow(m, i => CRotGrad(m, t, g, i), i => CRaw(m, t, g, i), j => Angle(m, t + 1, g, j),
                i => TCRaw(m, d, t, g, i),
                j => TAngle(m, d, t + 1, g, j), i => TCRot(m, d, t, g, i), i => CRawGrad(m, t, g, i),
                j => CTurn(m, t, g, j));
      PairRowForm(m.state, a, b, g, i => CRotGrad(m, t, g, i), i => TCRot(m, d, t, g, i));
      PairRowForm(m.state, a', b', g, i => CRawGrad(m, t, g, i), i => TCRaw(m, d, t, g, i));
      PairRowForm(m.angles, c, e, g, j => CTurn(m, t, g, j), j => TAngle(m, d, t + 1, g, j));
    }
    PairRowsAdd(m.groups, m.state, a, b, m.state, a', b', m.angles, c, e);
  }

  lemma RotateRow(m: Block, grad: int -> real, raw: int -> real, angle: int -> real, tRaw: int -> real,
                  tAngle: int -> real, tRot: int -> real, rawGrad: int -> real, turn: int -> real)
    requires forall n {:trigger tRot(n)} :: tRot(n) == TRotate(m, raw, angle, tRaw, tAngle, n)
    requires forall n {:trigger rawGrad(n)} :: rawGrad(n) == Unrotate(m, grad, angle, n)
    requires forall j {:trigger turn(j)} :: turn(j) == RotationGrad(m, grad, raw, angle, j)
    ensures Pair(m.state, grad, tRot) == Pair(m.state, rawGrad, tRaw) + Pair(m.angles, turn, tAngle)
  {
    hide Sum, Mul, RotationGrad, Unrotate, TRotate;
    RotateStage(m, grad, raw, angle, tRaw, tAngle);
    PairMul(m.state, grad, tRot, n => RotOut(m, grad, raw, angle, tRaw, tAngle, n));
    PairMul(m.state, rawGrad, tRaw, n => RotBack(m, grad, angle, tRaw, n));
    PairMul(m.angles, turn, tAngle, j => RotTurn(m, grad, raw, angle, tAngle, j));
  }

  // ---- the cumulative angle ----

  lemma TurnHeads(m: Block, d: Tangent, t: int)
    ensures Pair2(m.groups, m.angles, (g, j) => BTurn(m, t, g, j), (g, j) => TAngle(m, d, t + 1, g, j))
            + Pair2(m.groups, m.angles, (g, j) => CTurn(m, t, g, j), (g, j) => TAngle(m, d, t + 1, g, j))
         == Pair2(m.heads, m.angles, (h, j) => AngleTerm(m, t, h, j), (h, j) => TAngle(m, d, t + 1, h, j))
  {
    hide Sum, BTurn, CTurn, TAngle, Mul;
    var b, c, all := (g: int, j: int) => BTurn(m, t, g, j), (g: int, j: int) => CTurn(m, t, g, j),
        (h: int, j: int) => AngleTerm(m, t, h, j);
    var e := (h: int, j: int) => TAngle(m, d, t + 1, h, j);
    var k := m.angles;
    var allRow, bRow, cRow :=
        (h: int) => PairRow(k, all, e, h), (h: int) => PairRow(k, b, e, h), (h: int) => PairRow(k, c, e, h);
    forall g | 0 <= g < m.groups ensures allRow(g) == bRow(g) + cRow(g) {
      var x, y, z := (j: int) => Mul(all(g, j), e(g, j)), (j: int) => Mul(b(g, j), e(g, j)),
          (j: int) => Mul(c(g, j), e(g, j));
      forall j ensures x(j) == y(j) + z(j) {
        MulAdd(all(g, j), b(g, j), c(g, j), e(g, j));
      }
      SumAdd(k, x, y, z);
      PairRowMul(k, all, e, g, x);
      PairRowMul(k, b, e, g, y);
      PairRowMul(k, c, e, g, z);
    }
    var tail := (i: int) => allRow(m.groups + i);
    forall i | 0 <= i ensures tail(i) == 0.0 {
      var x := (j: int) => Mul(all(m.groups + i, j), e(m.groups + i, j));
      forall j ensures x(j) == 0.0 {
        MulAdd(all(m.groups + i, j), 0.0, 0.0, e(m.groups + i, j));
      }
      SumZero(k, x);
      PairRowMul(k, all, e, m.groups + i, x);
    }
    SumZero(m.heads - m.groups, tail);
    SumSplit(m.groups, m.heads - m.groups, allRow);
    SumAdd(m.groups, allRow, bRow, cRow);
    Pair2Rows(m.groups, k, b, e);
    Pair2Rows(m.groups, k, c, e);
    Pair2Rows(m.heads, k, all, e);
  }

  ghost function AngleMove(m: Block, d: Tangent, t: int, h: int, j: int): real {
    AngleGrad(m, t, h, j) * TAngle(m, d, t + 1, h, j)
  }

  ghost function AngleViaProj(m: Block, d: Tangent, t: int, h: int, j: int): real {
    TProj(m, d, t, AngleAt(m) + j) * (AngleGrad(m, t, h, j) * Dt(m, t, h))
  }

  ghost function AngleViaDt(m: Block, d: Tangent, t: int, h: int, j: int): real {
    TDt(m, d, t, h) * (AngleGrad(m, t, h, j) * Proj(m, t, AngleAt(m) + j))
  }

  lemma AngleCells(m: Block, d: Tangent, t: nat, h: int, j: int)
    requires t < m.rows
    ensures AngleMove(m, d, t, h, j)
         == Mul(AngleGrad(m, t + 1, h, j), TAngle(m, d, t + 1, h, j))
            + Mul(AngleTerm(m, t, h, j), TAngle(m, d, t + 1, h, j))
    ensures AngleMove(m, d, t, h, j)
         == Mul(AngleGrad(m, t, h, j), TAngle(m, d, t, h, j)) + AngleViaProj(m, d, t, h, j) + AngleViaDt(m, d, t, h, j)
  {
    hide AngleTerm, TProj, Dt, Proj, TDt;
    AngleCell(AngleGrad(m, t, h, j), AngleGrad(m, t + 1, h, j), AngleTerm(m, t, h, j), TAngle(m, d, t + 1, h, j),
              TAngle(m, d, t, h, j), TProj(m, d, t, AngleAt(m) + j), Dt(m, t, h), Proj(m, t, AngleAt(m) + j),
              TDt(m, d, t, h));
  }

  lemma AngleCell(now: real, later: real, term: real, tNext: real, tNow: real, tp: real, dt: real, p: real, tdt: real)
    requires now == later + term && tNext == tNow + (tp * dt + p * tdt)
    ensures now * tNext == later * tNext + term * tNext
    ensures now * tNext == now * tNow + tp * (now * dt) + tdt * (now * p)
  {
  }

  /** The angle step of row `t`, reversed. */
  lemma AngleStage(m: Block, d: Tangent, t: nat)
    requires t < m.rows
    ensures Pair2(m.heads, m.angles, (h, j) => AngleGrad(m, t + 1, h, j), (h, j) => TAngle(m, d, t + 1, h, j))
            + Pair2(m.groups, m.angles, (g, j) => BTurn(m, t, g, j), (g, j) => TAngle(m, d, t + 1, g, j))
            + Pair2(m.groups, m.angles, (g, j) => CTurn(m, t, g, j), (g, j) => TAngle(m, d, t + 1, g, j))
         == Pair2(m.heads, m.angles, (h, j) => AngleGrad(m, t, h, j), (h, j) => TAngle(m, d, t, h, j))
            + Pair(m.angles, j => TProj(m, d, t, AngleAt(m) + j), j => AngleProjGrad(m, t, j))
            + Pair(m.heads, h => TDt(m, d, t, h), h => AngleDtGrad(m, t, h))
  {
    hide *;
    TurnHeads(m, d, t);
    AngleMoves(m, d, t);
    AngleProjSum(m, d, t);
    AngleDtSum(m, d, t);
  }

  lemma AngleMoves(m: Block, d: Tangent, t: nat)
    requires t < m.rows
    ensures Pair2(m.heads, m.angles, (h, j) => AngleGrad(m, t + 1, h, j), (h, j) => TAngle(m, d, t + 1, h, j))
            + Pair2(m.heads, m.angles, (h, j) => AngleTerm(m, t, h, j), (h, j) => TAngle(m, d, t + 1, h, j))
         == Pair2(m.heads, m.angles, (h, j) => AngleGrad(m, t, h, j), (h, j) => TAngle(m, d, t, h, j))
            + Sum2(m.heads, m.angles, (h, j) => AngleViaProj(m, d, t, h, j))
            + Sum2(m.heads, m.angles, (h, j) => AngleViaDt(m, d, t, h, j))
  {
    hide Sum, Row, Sum2, Pair2, Mul, AngleGrad, TAngle, AngleTerm, AngleViaProj, AngleViaDt, AngleMove;
    var now, next, term := (h: int, j: int) => AngleGrad(m, t, h, j), (h: int, j: int) => AngleGrad(m, t + 1, h, j),
                           (h: int, j: int) => AngleTerm(m, t, h, j);
    var e, e' := (h: int, j: int) => TAngle(m, d, t, h, j), (h: int, j: int) => TAngle(m, d, t + 1, h, j);
    var p, q := (h: int, j: int) => AngleViaProj(m, d, t, h, j), (h: int, j: int) => AngleViaDt(m, d, t, h, j);
    var all := (h: int, j: int) => AngleMove(m, d, t, h, j);
    var x, y, z := (h: int, j: int) => Mul(AngleGrad(m, t + 1, h, j), TAngle(m, d, t + 1, h, j)),
                   (h: int, j: int) => Mul(AngleTerm(m, t, h, j), TAngle(m, d, t + 1, h, j)),
                   (h: int, j: int) => Mul(AngleGrad(m, t, h, j), TAngle(m, d, t, h, j));
    forall h, j ensures all(h, j) == x(h, j) + y(h, j) && all(h, j) == z(h, j) + p(h, j) + q(h, j) {
      AngleCells(m, d, t, h, j);
    }
    var pq := (h: int, j: int) => p(h, j) + q(h, j);
    Sum2Add(m.heads, m.angles, all, x, y);
    Sum2Add(m.heads, m.angles, pq, p, q);
    Sum2Add(m.heads, m.angles, all, z, pq);
    Pair2Mul(m.heads, m.angles, next, e', x);
    Pair2Mul(m.heads, m.angles, term, e', y);
    Pair2Mul(m.heads, m.angles, now, e, z);
  }

  lemma AngleProjSum(m: Block, d: Tangent, t: int)
    ensures Sum2(m.heads, m.angles, (h, j) => AngleViaProj(m, d, t, h, j))
         == Pair(m.angles, j => TProj(m, d, t, AngleAt(m) + j), j => AngleProjGrad(m, t, j))
  {
    hide Sum, TProj, AngleGrad, Dt;
    var w := (j: int, h: int) => AngleGrad(m, t, h, j) * Dt(m, t, h);
    var flipped := (j: int, h: int) => AngleViaProj(m, d, t, h, j);
    Sum2Swap(m.heads, m.angles, (h, j) => AngleViaProj(m, d, t, h, j), flipped);
    forall j ensures AngleProjGrad(m, t, j) == Row(m.heads, w, j) {
      SumEq(m.heads, h => AngleGrad(m, t, h, j) * Dt(m, t, h), h => w(j, h));
    }
    Sum2Rows(m.angles, m.heads, flipped, j => TProj(m, d, t, AngleAt(m) + j), w, j => AngleProjGrad(m, t, j));
  }

  lemma AngleDtSum(m: Block, d: Tangent, t: int)
    ensures Sum2(m.heads, m.angles, (h, j) => AngleViaDt(m, d, t, h, j))
         == Pair(m.heads, h => TDt(m, d, t, h), h => AngleDtGrad(m, t, h))
  {
    hide Sum, Proj, AngleGrad, TDt;
    var w := (h: int, j: int) => AngleGrad(m, t, h, j) * Proj(m, t, AngleAt(m) + j);
    forall h ensures AngleDtGrad(m, t, h) == Row(m.angles, w, h) {
      SumEq(m.angles, j => AngleGrad(m, t, h, j) * Proj(m, t, AngleAt(m) + j), j => w(h, j));
    }
    Sum2Rows(m.heads, m.angles, (h, j) => AngleViaDt(m, d, t, h, j), h => TDt(m, d, t, h), w,
             h => AngleDtGrad(m, t, h));
  }
}
