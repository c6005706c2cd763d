/** Derivatives of the rotated B and C of a Mamba3 row: each component moves, to first order, by its tangent. */
module MambaRotationSlopes {
  import opened Sums
  import opened Slopes
  import opened FunctionSlopes
  import opened MambaModel
  import opened MambaTangent
  import opened MambaPaths
  import opened MambaSlopes
  import opened MambaGroupSlopes

  // ---- rotations ----

  lemma TurnForms(c: real, z: real, x: real, y: real, tx: real, ty: real, tf: real)
    ensures TurnFirst(c, z, x, y) == Mul(x, c) - Mul(y, z) && TurnSecond(c, z, x, y) == Mul(x, z) + Mul(y, c)
    ensures TTurnFirst(c, z, x, y, tx, ty, tf) == TByCos(c, z, x, tx, tf) - TBySin(c, z, y, ty, tf)
    ensures TTurnSecond(c, z, x, y, tx, ty, tf) == TBySin(c, z, x, tx, tf) + TByCos(c, z, y, ty, tf)
  {
  }

  /** The cosine and the sine of a group's angle in row `t`. */
  ghost function CosAt(m: Block, t: int, g: int, j: int): real { m.fns.cos(Angle(m, t + 1, g, j)) }
  ghost function SinAt(m: Block, t: int, g: int, j: int): real { m.fns.sin(Angle(m, t + 1, g, j)) }

  /** B's values before and after its rotation, or C's. */
  ghost function SideRaw(m: Block, t: int, isB: bool, g: int, n: int): real {
    if isB then BRaw(m, t, g, n) else CRaw(m, t, g, n)
  }

  ghost function TSideRaw(m: Block, d: Tangent, t: int, isB: bool, g: int, n: int): real {
    if isB then TBRaw(m, d, t, g, n) else TCRaw(m, d, t, g, n)
  }

  ghost function SideRot(m: Block, t: int, isB: bool, g: int, n: int): real {
    if isB then BRot(m, t, g, n) else CRot(m, t, g, n)
  }

  ghost function TSideRot(m: Block, d: Tangent, t: int, isB: bool, g: int, n: int): real {
    if isB then TBRot(m, d, t, g, n) else TCRot(m, d, t, g, n)
  }

  ghost function SideRawAt(c: real -> Block, t: int, isB: bool, g: int, n: int): real -> real {
    if isB then BRawAt(c, t, g, n) else CRawAt(c, t, g, n)
  }

  ghost function SideRotAt(c: real -> Block, t: int, isB: bool, g: int, n: int): real -> real {
    if isB then BRotAt(c, t, g, n) else CRotAt(c, t, g, n)
  }

  lemma SideRawAlong(c: real -> Block, t: int, isB: bool, g: int, n: int)
    ensures forall e {:trigger SideRawAt(c, t, isB, g, n)(e)} ::
              SideRawAt(c, t, isB, g, n)(e) == SideRaw(c(e), t, isB, g, n)
  {
    hide Valid, BRawAt, CRawAt, BRaw, CRaw;
  }

  lemma SideRotAlong(c: real -> Block, t: int, isB: bool, g: int, n: int)
    ensures forall e {:trigger SideRotAt(c, t, isB, g, n)(e)} ::
              SideRotAt(c, t, isB, g, n)(e) == SideRot(c(e), t, isB, g, n)
  {
    hide Valid, BRotAt, CRotAt, BRot, CRot;
  }

  lemma SideRawSlope(c: real -> Block, d: Tangent, t: int, isB: bool, g: int, n: int)
    requires Curve(c, d) && Smooth(c(0.0).fns)
    ensures Slope(SideRawAt(c, t, isB, g, n), TSideRaw(c(0.0), d, t, isB, g, n))
  {
    hide Valid, Slope, Curve, Smooth, BRawAt, CRawAt, TBRaw, TCRaw;
    if isB {
      BRawSlope(c, d, t, g, n);
    } else {
      CRawSlope(c, d, t, g, n);
    }
  }

  // The three kinds of components: first and second of a pair, and those that are not rotated.

  lemma RotateFirst(m: Block, n: Block, raw: int -> real, angle: int -> real, x: int, y: int, j: int)
    requires Sized(m, n) && x < 2 * m.angles && x % 2 == 0 && j == x / 2 && y == x + 1
    ensures Rotate(n, raw, angle, x) == TurnFirst(m.fns.cos(angle(j)), m.fns.sin(angle(j)), raw(x), raw(y))
  {
    hide Valid, TurnFirst;
  }

  lemma TRotateFirst(m: Block, raw: int -> real, angle: int -> real, tRaw: int -> real, tAngle: int -> real, x: int,
                    y: int, j: int)
    requires x < 2 * m.angles && x % 2 == 0 && j == x / 2 && y == x + 1
    ensures TRotate(m, raw, angle, tRaw, tAngle, x)
         == TTurnFirst(m.fns.cos(angle(j)), m.fns.sin(angle(j)), raw(x), raw(y), tRaw(x), tRaw(y), tAngle(j))
  {
    hide Valid, TTurnFirst;
  }

  lemma RotateSecond(m: Block, n: Block, raw: int -> real, angle: int -> real, x: int, y: int, j: int)
    requires Sized(m, n) && x < 2 * m.angles && x % 2 != 0 && j == x / 2 && y == x - 1
    ensures Rotate(n, raw, angle, x) == TurnSecond(m.fns.cos(angle(j)), m.fns.sin(angle(j)), raw(y), raw(x))
  {
    hide Valid, TurnSecond;
  }

  lemma TRotateSecond(m: Block, raw: int -> real, angle: int -> real, tRaw: int -> real, tAngle: int -> real, x: int,
                    y: int, j: int)
    requires x < 2 * m.angles && x % 2 != 0 && j == x / 2 && y == x - 1
    ensures TRotate(m, raw, angle, tRaw, tAngle, x)
         == TTurnSecond(m.fns.cos(angle(j)), m.fns.sin(angle(j)), raw(y), raw(x), tRaw(y), tRaw(x), tAngle(j))
  {
    hide Valid, TTurnSecond;
  }

  lemma FirstForm(m: Block, n: Block, t: int, isB: bool, g: int, x: int, y: int, j: int)
    requires Sized(m, n) && x < 2 * m.angles && x % 2 == 0 && j == x / 2 && y == x + 1
    ensures SideRot(n, t, isB, g, x)
         == TurnFirst(m.fns.cos(Angle(n, t + 1, g, j)), m.fns.sin(Angle(n, t + 1, g, j)), SideRaw(n, t, isB, g, x),
                SideRaw(n, t, isB, g, y))
  {
    hide Valid, Sized, Angle, BRaw, CRaw, TurnFirst, Rotate;
    if isB {
      RotateFirst(m, n, i => BRaw(n, t, g, i), i => Angle(n, t + 1, g, i), x, y, j);
    } else {
      RotateFirst(m, n, i => CRaw(n, t, g, i), i => Angle(n, t + 1, g, i), x, y, j);
    }
  }

  lemma TFirstForm(m: Block, d: Tangent, t: int, isB: bool, g: int, x: int, y: int, j: int)
    requires x < 2 * m.angles && x % 2 == 0 && j == x / 2 && y == x + 1
    ensures TSideRot(m, d, t, isB, g, x)
         == TTurnFirst(m.fns.cos(Angle(m, t + 1, g, j)), m.fns.sin(Angle(m, t + 1, g, j)), SideRaw(m, t, isB, g, x),
                 SideRaw(m, t, isB, g, y), TSideRaw(m, d, t, isB, g, x), TSideRaw(m, d, t, isB, g, y),
                 TAngle(m, d, t + 1, g, j))
  {
    hide Valid, Angle, TAngle, BRaw, CRaw, TBRaw, TCRaw, TTurnFirst, TRotate;
    if isB {
      TRotateFirst(m, i => BRaw(m, t, g, i), i => Angle(m, t + 1, g, i), i => TBRaw(m, d, t, g, i),
                i => TAngle(m, d, t + 1, g, i), x, y, j);
    } else {
      TRotateFirst(m, i => CRaw(m, t, g, i), i => Angle(m, t + 1, g, i), i => TCRaw(m, d, t, g, i),
                i => TAngle(m, d, t + 1, g, i), x, y, j);
    }
  }

  lemma SecondForm(m: Block, n: Block, t: int, isB: bool, g: int, x: int, y: int, j: int)
    requires Sized(m, n) && x < 2 * m.angles && x % 2 != 0 && j == x / 2 && y == x - 1
    ensures SideRot(n, t, isB, g, x)
         == TurnSecond(m.fns.cos(Angle(n, t + 1, g, j)), m.fns.sin(Angle(n, t + 1, g, j)), SideRaw(n, t, isB, g, y),
                SideRaw(n, t, isB, g, x))
  {
    hide Valid, Sized, Angle, BRaw, CRaw, TurnSecond, Rotate;
    if isB {
      RotateSecond(m, n, i => BRaw(n, t, g, i), i => Angle(n, t + 1, g, i), x, y, j);
    } else {
      RotateSecond(m, n, i => CRaw(n, t, g, i), i => Angle(n, t + 1, g, i), x, y, j);
    }
  }

  lemma TSecondForm(m: Block, d: Tangent, t: int, isB: bool, g: int, x: int, y: int, j: int)
    requires x < 2 * m.angles && x % 2 != 0 && j == x / 2 && y == x - 1
    ensures TSideRot(m, d, t, isB, g, x)
         == TTurnSecond(m.fns.cos(Angle(m, t + 1, g, j)), m.fns.sin(Angle(m, t + 1, g, j)), SideRaw(m, t, isB, g, y),
                 SideRaw(m, t, isB, g, x), TSideRaw(m, d, t, isB, g, y), TSideRaw(m, d, t, isB, g, x),
                 TAngle(m, d, t + 1, g, j))
  {
    hide Valid, Angle, TAngle, BRaw, CRaw, TBRaw, TCRaw, TTurnSecond, TRotate;
    if isB {
      TRotateSecond(m, i => BRaw(m, t, g, i), i => Angle(m, t + 1, g, i), i => TBRaw(m, d, t, g, i),
                i => TAngle(m, d, t + 1, g, i), x, y, j);
    } else {
      TRotateSecond(m, i => CRaw(m, t, g, i), i => Angle(m, t + 1, g, i), i => TCRaw(m, d, t, g, i),
                i => TAngle(m, d, t + 1, g, i), x, y, j);
    }
  }

  lemma PlainForm(m: Block, n: Block, d: Tangent, t: int, isB: bool, g: int, x: int)
    requires Sized(m, n) && 2 * m.angles <= x
    ensures SideRot(n, t, isB, g, x) == SideRaw(n, t, isB, g, x)
    ensures TSideRot(m, d, t, isB, g, x) == TSideRaw(m, d, t, isB, g, x)
  {
    hide Valid, Angle, TAngle, BRaw, CRaw, TBRaw, TCRaw;
  }

  /** How a component times the cosine, and times the sine, of its group's angle moves. */
  ghost function RawByCos(m: Block, d: Tangent, t: int, isB: bool, g: int, n: int, j: int): real {
    TByCos(CosAt(m, t, g, j), SinAt(m, t, g, j), SideRaw(m, t, isB, g, n), TSideRaw(m, d, t, isB, g, n),
           TAngle(m, d, t + 1, g, j))
  }

  ghost function RawBySin(m: Block, d: Tangent, t: int, isB: bool, g: int, n: int, j: int): real {
    TBySin(CosAt(m, t, g, j), SinAt(m, t, g, j), SideRaw(m, t, isB, g, n), TSideRaw(m, d, t, isB, g, n),
           TAngle(m, d, t + 1, g, j))
  }

  lemma FirstPath(c: real -> Block, d: Tangent, t: int, isB: bool, g: int, x: int, y: int, j: int, e: real)
    requires Curve(c, d) && x < 2 * c(0.0).angles && x % 2 == 0 && j == x / 2 && y == x + 1
    ensures SideRotAt(c, t, isB, g, x)(e)
         == Mul(SideRaw(c(e), t, isB, g, x), c(0.0).fns.cos(Angle(c(e), t + 1, g, j)))
            - Mul(SideRaw(c(e), t, isB, g, y), c(0.0).fns.sin(Angle(c(e), t + 1, g, j)))
  {
    hide Valid, Sized, Curve, Angle, SideRaw, SideRotAt, SideRot, Mul, TurnFirst, TurnSecond, TTurnFirst, TTurnSecond,
         TByCos, TBySin;
    SameSizes(c, d, e);
    SideRotAlong(c, t, isB, g, x);
    FirstForm(c(0.0), c(e), t, isB, g, x, y, j);
    TurnForms(c(0.0).fns.cos(Angle(c(e), t + 1, g, j)), c(0.0).fns.sin(Angle(c(e), t + 1, g, j)),
              SideRaw(c(e), t, isB, g, x), SideRaw(c(e), t, isB, g, y), 0.0, 0.0, 0.0);
  }

  lemma TFirstPath(m: Block, d: Tangent, t: int, isB: bool, g: int, x: int, y: int, j: int)
    requires x < 2 * m.angles && x % 2 == 0 && j == x / 2 && y == x + 1
    ensures TSideRot(m, d, t, isB, g, x)
         == RawByCos(m, d, t, isB, g, x, j) - RawBySin(m, d, t, isB, g, y, j)
  {
    hide Valid, Angle, TAngle, SideRaw, TSideRaw, TSideRot, Mul, TurnFirst, TurnSecond, TTurnFirst, TTurnSecond, TByCos,
         TBySin;
    TFirstForm(m, d, t, isB, g, x, y, j);
    TurnForms(CosAt(m, t, g, j), SinAt(m, t, g, j), SideRaw(m, t, isB, g, x), SideRaw(m, t, isB, g, y),
              TSideRaw(m, d, t, isB, g, x), TSideRaw(m, d, t, isB, g, y), TAngle(m, d, t + 1, g, j));
  }

  lemma FirstSlope(c: real -> Block, d: Tangent, t: int, isB: bool, g: int, x: int, y: int, j: int)
    requires Curve(c, d) && Smooth(c(0.0).fns) && x < 2 * c(0.0).angles && x % 2 == 0 && j == x / 2 && y == x + 1
    ensures Slope(SideRotAt(c, t, isB, g, x), TSideRot(c(0.0), d, t, isB, g, x))
  {
    hide Valid, Slope, Curve, Smooth, AngleAlong, Angle, TAngle, SideRawAt, SideRaw, TSideRaw, SideRotAt, TSideRot, Mul,
         TByCos, TBySin, Turns;
    var m := c(0.0);
    var f, x0, x1 := AngleAlong(c, t + 1, g, j), SideRawAt(c, t, isB, g, x), SideRawAt(c, t, isB, g, y);
    AngleSlope(c, d, t + 1, g, j);
    SideRawSlope(c, d, t, isB, g, x);
    SideRawSlope(c, d, t, isB, g, y);
    SideRawAlong(c, t, isB, g, x);
    SideRawAlong(c, t, isB, g, y);
    forall e ensures SideRotAt(c, t, isB, g, x)(e)
                  == Mul(x0(e), m.fns.cos(f(e))) - Mul(x1(e), m.fns.sin(f(e))) {
      FirstPath(c, d, t, isB, g, x, y, j, e);
    }
    TFirstPath(m, d, t, isB, g, x, y, j);
    SmoothTurns(m.fns);
    SlopeTurnMinus(m.fns.cos, m.fns.sin, SideRotAt(c, t, isB, g, x), TSideRot(m, d, t, isB, g, x), x0,
                   TSideRaw(m, d, t, isB, g, x), x1, TSideRaw(m, d, t, isB, g, y), f, TAngle(m, d, t + 1, g, j),
                   CosAt(m, t, g, j), SinAt(m, t, g, j));
  }

  lemma SecondPath(c: real -> Block, d: Tangent, t: int, isB: bool, g: int, x: int, y: int, j: int, e: real)
    requires Curve(c, d) && x < 2 * c(0.0).angles && x % 2 != 0 && j == x / 2 && y == x - 1
    ensures SideRotAt(c, t, isB, g, x)(e)
         == Mul(SideRaw(c(e), t, isB, g, y), c(0.0).fns.sin(Angle(c(e), t + 1, g, j)))
            + Mul(SideRaw(c(e), t, isB, g, x), c(0.0).fns.cos(Angle(c(e), t + 1, g, j)))
  {
    hide Valid, Sized, Curve, Angle, SideRaw, SideRotAt, SideRot, Mul, TurnFirst, TurnSecond, TTurnFirst, TTurnSecond,
         TByCos, TBySin;
    SameSizes(c, d, e);
    SideRotAlong(c, t, isB, g, x);
    SecondForm(c(0.0), c(e), t, isB, g, x, y, j);
    TurnForms(c(0.0).fns.cos(Angle(c(e), t + 1, g, j)), c(0.0).fns.sin(Angle(c(e), t + 1, g, j)),
              SideRaw(c(e), t, isB, g, y), SideRaw(c(e), t, isB, g, x), 0.0, 0.0, 0.0);
  }

  lemma TSecondPath(m: Block, d: Tangent, t: int, isB: bool, g: int, x: int, y: int, j: int)
    requires x < 2 * m.angles && x % 2 != 0 && j == x / 2 && y == x - 1
    ensures TSideRot(m, d, t, isB, g, x)
         == RawBySin(m, d, t, isB, g, y, j) + RawByCos(m, d, t, isB, g, x, j)
  {
    hide Valid, Angle, TAngle, SideRaw, TSideRaw, TSideRot, Mul, TurnFirst, TurnSecond, TTurnFirst, TTurnSecond, TByCos,
         TBySin;
    TSecondForm(m, d, t, isB, g, x, y, j);
    TurnForms(CosAt(m, t, g, j), SinAt(m, t, g, j), SideRaw(m, t, isB, g, y), SideRaw(m, t, isB, g, x),
              TSideRaw(m, d, t, isB, g, y), TSideRaw(m, d, t, isB, g, x), TAngle(m, d, t + 1, g, j));
  }

  lemma SecondSlope(c: real -> Block, d: Tangent, t: int, isB: bool, g: int, x: int, y: int, j: int)
    requires Curve(c, d) && Smooth(c(0.0).fns) && x < 2 * c(0.0).angles && x % 2 != 0 && j == x / 2 && y == x - 1
    ensures Slope(SideRotAt(c, t, isB, g, x), TSideRot(c(0.0), d, t, isB, g, x))
  {
    hide Valid, Slope, Curve, Smooth, AngleAlong, Angle, TAngle, SideRawAt, SideRaw, TSideRaw, SideRotAt, TSideRot, Mul,
         TByCos, TBySin, Turns;
    var m := c(0.0);
    var f, x0, x1 := AngleAlong(c, t + 1, g, j), SideRawAt(c, t, isB, g, y), SideRawAt(c, t, isB, g, x);
    AngleSlope(c, d, t + 1, g, j);
    SideRawSlope(c, d, t, isB, g, y);
    SideRawSlope(c, d, t, isB, g, x);
    SideRawAlong(c, t, isB, g, y);
    SideRawAlong(c, t, isB, g, x);
    forall e ensures SideRotAt(c, t, isB, g, x)(e)
                  == Mul(x0(e), m.fns.sin(f(e))) + Mul(x1(e), m.fns.cos(f(e))) {
      SecondPath(c, d, t, isB, g, x, y, j, e);
    }
    TSecondPath(m, d, t, isB, g, x, y, j);
    SmoothTurns(m.fns);
    SlopeTurnPlus(m.fns.cos, m.fns.sin, SideRotAt(c, t, isB, g, x), TSideRot(m, d, t, isB, g, x), x0,
                  TSideRaw(m, d, t, isB, g, y), x1, TSideRaw(m, d, t, isB, g, x), f, TAngle(m, d, t + 1, g, j),
                  CosAt(m, t, g, j), SinAt(m, t, g, j));
  }

  lemma PlainSlope(c: real -> Block, d: Tangent, t: int, isB: bool, g: int, x: int)
    requires Curve(c, d) && Smooth(c(0.0).fns) && 2 * c(0.0).angles <= x
    ensures Slope(SideRotAt(c, t, isB, g, x), TSideRot(c(0.0), d, t, isB, g, x))
  {
    hide Valid, Sized, Slope, Curve, Smooth, SideRawAt, SideRaw, TSideRaw, SideRotAt, SideRot, TSideRot;
    var m := c(0.0);
    SideRawSlope(c, d, t, isB, g, x);
    SideRawAlong(c, t, isB, g, x);
    SideRotAlong(c, t, isB, g, x);
    forall e ensures SideRotAt(c, t, isB, g, x)(e) == SideRawAt(c, t, isB, g, x)(e) {
      SameSizes(c, d, e);
      PlainForm(m, c(e), d, t, isB, g, x);
    }
    SameSizes(c, d, 0.0);
    PlainForm(m, m, d, t, isB, g, x);
    SlopeEq(SideRawAt(c, t, isB, g, x), SideRotAt(c, t, isB, g, x), TSideRot(m, d, t, isB, g, x));
  }

  lemma RotSlope(c: real -> Block, d: Tangent, t: int, isB: bool, g: int, x: int)
    requires Curve(c, d) && Smooth(c(0.0).fns)
    ensures Slope(SideRotAt(c, t, isB, g, x), TSideRot(c(0.0), d, t, isB, g, x))
  {
    hide Valid, Slope, Curve, Smooth, SideRotAt, TSideRot;
    if x >= 2 * c(0.0).angles {
      PlainSlope(c, d, t, isB, g, x);
    } else if x % 2 == 0 {
      FirstSlope(c, d, t, isB, g, x, x + 1, x / 2);
    } else {
      SecondSlope(c, d, t, isB, g, x, x - 1, x / 2);
    }
  }
}
