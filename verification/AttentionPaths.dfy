/** Paths through the attention layer: how its inputs and parameters may move, the quantised values following the values
    that were quantised. */
module AttentionPaths {
  import opened Sums
  import opened Slopes
  import opened AttentionModel
  import opened AttentionLayer
  import R = RotaryProjection
  import RS = RotarySlopes

  ghost predicate Sized(b: Layer, n: Layer) {
    && n.rows == b.rows && n.slots == b.slots && n.width == b.width && n.heads == b.heads && n.half == b.half
    && n.exp == b.exp && n.cos == b.cos && n.sin == b.sin && n.scale == b.scale && n.sink == b.sink && n.up == b.up
  }

  ghost function SinkAt(c: real -> Layer, h: int): (f: real -> real)
    ensures forall e {:trigger f(e)} :: f(e) == c(e).sinkLogit(h)
  {
    (e: real) => c(e).sinkLogit(h)
  }

  ghost function OutWAt(c: real -> Layer, o: int, p: int): (f: real -> real)
    ensures forall e {:trigger f(e)} :: f(e) == c(e).outW(o, p)
  {
    (e: real) => c(e).outW(o, p)
  }

  /** One side's projection, and one head's attention, along a path. */
  ghost function SideAt(c: real -> Layer, kv: bool): (f: real -> R.Rotary)
    ensures forall e {:trigger f(e)} :: f(e) == Side(c(e), kv)
  {
    hide Side;
    (e: real) => Side(c(e), kv)
  }

  ghost function HeadAt(c: real -> Layer, h: int): (f: real -> Attention)
    ensures forall e {:trigger f(e)} :: f(e) == Head(c(e), h)
  {
    hide Head;
    (e: real) => Head(c(e), h)
  }

  /** A dequantised query or key-value. */
  ghost function Stored(b: Layer, kv: bool, r: int, h: int, d: int): real {
    if kv then Kv(Head(b, h), r, d) else Q(Head(b, h), r, d)
  }

  /** The straight-through rule: along the path the stored values keep their distance from what was quantised. */
  ghost predicate Through(c: real -> Layer, kv: bool, r: int, h: int, d: int) {
    forall e {:trigger c(e)} ::
      Stored(c(e), kv, r, h, d) - R.Prepared(Side(c(e), kv), r, h * Dims(c(0.0)) + d)
      == Stored(c(0.0), kv, r, h, d) - R.Prepared(Side(c(0.0), kv), r, h * Dims(c(0.0)) + d)
  }

  /** `c` is a path through layers that moves with velocity `d` at zero. */
  ghost predicate Curve(c: real -> Layer, d: Moves) {
    && (forall e {:trigger c(e)} :: Sized(c(0.0), c(e)))
    && RS.Curve(SideAt(c, false), SideMoves(d, false)) && RS.Curve(SideAt(c, true), SideMoves(d, true))
    && (forall kv, r, h, x {:trigger Through(c, kv, r, h, x)} :: 0 <= x < Dims(c(0.0)) ==> Through(c, kv, r, h, x))
    && (forall h {:trigger SinkAt(c, h)} :: Slope(SinkAt(c, h), d.sink(h)))
    && (forall o, p {:trigger OutWAt(c, o, p)} :: Slope(OutWAt(c, o, p), d.outW(o, p)))
  }

  lemma SameSizes(c: real -> Layer, d: Moves, e: real)
    requires Curve(c, d)
    ensures Sized(c(0.0), c(e))
  {
    hide RS.Curve, Through, Slope;
  }

  lemma WeightSlopes(c: real -> Layer, d: Moves, h: int, o: int, p: int)
    requires Curve(c, d)
    ensures Slope(SinkAt(c, h), d.sink(h)) && Slope(OutWAt(c, o, p), d.outW(o, p))
  {
    hide RS.Curve, Through, Slope, SinkAt, OutWAt;
    assert Slope(SinkAt(c, h), d.sink(h)) && Slope(OutWAt(c, o, p), d.outW(o, p));
  }

  // ---- a straight path ----

  /** The hidden rows, weights, frequencies and sinks on a straight line, the codes as they are. */
  ghost function Shifted(b: Layer, d: Moves, e: real): Layer {
    hide Shift, Shift2;
    b.(u := Shift2(b.u, d.u, e), qW := Shift2(b.qW, d.qW, e), kvW := Shift2(b.kvW, d.kvW, e),
       freq := Shift(b.freq, d.freq, e), sinkLogit := Shift(b.sinkLogit, d.sink, e), outW := Shift2(b.outW, d.outW, e))
  }

  /** What is stored for column `p` when it keeps its distance from the prepared value. */
  ghost function Code(b: Layer, n: Layer, kv: bool, r: int, p: int): real {
    Stored(b, kv, r, p / Dims(b), p % Dims(b)) - R.Prepared(Side(b, kv), r, p) + R.Prepared(Side(n, kv), r, p)
  }

  ghost function Codes(b: Layer, n: Layer, kv: bool): (f: (int, int) -> real)
    ensures forall r, p {:trigger f(r, p)} :: f(r, p) == Code(b, n, kv, r, p)
  {
    hide Code;
    (r: int, p: int) => Code(b, n, kv, r, p)
  }

  /** The shifted layer with codes that follow, and unit scales. */
  ghost function Carried(b: Layer, n: Layer): Layer {
    hide Codes;
    n.(qRaw := Codes(b, n, false), kvRaw := Codes(b, n, true), qScale := (r, h) => 1.0, kvScale := (r, h) => 1.0)
  }

  ghost function Line(b: Layer, d: Moves): (c: real -> Layer)
    ensures forall e {:trigger c(e)} :: c(e) == Carried(b, Shifted(b, d, e))
  {
    hide Carried, Shifted;
    (e: real) => Carried(b, Shifted(b, d, e))
  }

  lemma CarriedForms(b: Layer, n: Layer, kv: bool)
    ensures Side(Carried(b, n), kv) == Side(n, kv) && Dims(Carried(b, n)) == Dims(n)
    ensures Carried(b, n).sinkLogit == n.sinkLogit && Carried(b, n).outW == n.outW && Sized(n, Carried(b, n))
  {
    hide Codes;
  }

  lemma CarriedStored(b: Layer, n: Layer, kv: bool, r: int, h: int, x: int)
    requires Sized(b, n) && 0 <= x < Dims(b)
    ensures Stored(Carried(b, n), kv, r, h, x)
         == Stored(b, kv, r, h, x) - R.Prepared(Side(b, kv), r, h * Dims(b) + x)
            + R.Prepared(Side(n, kv), r, h * Dims(b) + x)
  {
    var p := h * Dims(b) + x;
    ColumnOf(b, h, x);
    assert Code(b, n, kv, r, p)
        == Stored(b, kv, r, h, x) - R.Prepared(Side(b, kv), r, p) + R.Prepared(Side(n, kv), r, p);
    assert Dims(Carried(b, n)) == Dims(b);
    hide Code, Codes, R.Prepared, Side, ContextUp, Dims;
    UnitScale(Code(b, n, kv, r, p));
  }

  lemma UnitScale(x: real)
    ensures Mul(x, 1.0) == x
  {
  }

  lemma LineStored(b: Layer, d: Moves, kv: bool, r: int, h: int, x: int, p: int, e: real)
    requires 0 <= x < Dims(b) && p == h * Dims(b) + x
    ensures Stored(Line(b, d)(e), kv, r, h, x) - R.Prepared(Side(Line(b, d)(e), kv), r, p)
         == Stored(b, kv, r, h, x) - R.Prepared(Side(b, kv), r, p)
    ensures Dims(Line(b, d)(e)) == Dims(b)
  {
    hide Line, Stored, Side, R.Prepared, Carried, Shifted;
    var n := Shifted(b, d, e);
    ShiftedSizes(b, d, e);
    CarriedStored(b, n, kv, r, h, x);
    CarriedForms(b, n, kv);
  }

  lemma LineThrough(b: Layer, d: Moves, kv: bool, r: int, h: int, x: int)
    requires 0 <= x < Dims(b)
    ensures Through(Line(b, d), kv, r, h, x)
  {
    hide Line, Stored, Side, R.Prepared, Dims;
    var c, p := Line(b, d), h * Dims(b) + x;
    LineStored(b, d, kv, r, h, x, p, 0.0);
    forall e ensures Stored(c(e), kv, r, h, x) - R.Prepared(Side(c(e), kv), r, h * Dims(c(0.0)) + x)
                  == Stored(c(0.0), kv, r, h, x) - R.Prepared(Side(c(0.0), kv), r, h * Dims(c(0.0)) + x) {
      LineStored(b, d, kv, r, h, x, p, e);
    }
  }

  lemma ShiftedSizes(b: Layer, d: Moves, e: real)
    ensures Sized(b, Shifted(b, d, e))
    ensures Shifted(b, d, e).sinkLogit == Shift(b.sinkLogit, d.sink, e)
            && Shifted(b, d, e).outW == Shift2(b.outW, d.outW, e)
  {
    hide Shift, Shift2;
  }

  lemma LineSides(b: Layer, d: Moves, kv: bool)
    ensures RS.Curve(SideAt(Line(b, d), kv), SideMoves(d, kv))
  {
    hide Slope, Shift, Shift2, Carried, Shifted, Line, Side, SideAt, RS.UAt, RS.WAt, RS.FreqAt, Mul;
    var v, t, w := SideAt(Line(b, d), kv), SideMoves(d, kv), if kv then b.kvW else b.qW;
    forall e ensures v(e) == Side(Shifted(b, d, e), kv) {
      CarriedForms(b, Shifted(b, d, e), kv);
    }
    forall e ensures RS.Sized(v(0.0), v(e)) && v(e).u == Shift2(b.u, d.u, e) && v(e).freq == Shift(b.freq, d.freq, e)
                     && v(e).w == Shift2(w, t.w, e) {
      SideShifted(b, d, kv, e);
      SideShifted(b, d, kv, 0.0);
    }
    forall i, j ensures Slope(RS.UAt(v, i, j), t.u(i, j)) {
      SlopeLine(RS.UAt(v, i, j), b.u(i, j), t.u(i, j));
    }
    WeightsMove(v, w, t.w);
    forall i ensures Slope(RS.FreqAt(v, i), t.freq(i)) {
      SlopeLine(RS.FreqAt(v, i), b.freq(i), t.freq(i));
    }
  }

  lemma WeightsMove(v: real -> R.Rotary, w: (int, int) -> real, move: (int, int) -> real)
    requires forall e {:trigger v(e)} :: v(e).w == Shift2(w, move, e)
    ensures forall i, j {:trigger RS.WAt(v, i, j)} :: Slope(RS.WAt(v, i, j), move(i, j))
  {
    hide Slope, Shift2, RS.WAt, Mul;
    forall i, j ensures Slope(RS.WAt(v, i, j), move(i, j)) {
      SlopeLine(RS.WAt(v, i, j), w(i, j), move(i, j));
    }
  }

  lemma SideShifted(b: Layer, d: Moves, kv: bool, e: real)
    ensures RS.Sized(Side(b, kv), Side(Shifted(b, d, e), kv))
    ensures Side(Shifted(b, d, e), kv).u == Shift2(b.u, d.u, e)
    ensures Side(Shifted(b, d, e), kv).freq == Shift(b.freq, d.freq, e)
    ensures Side(Shifted(b, d, e), kv).w == Shift2(if kv then b.kvW else b.qW, SideMoves(d, kv).w, e)
  {
    hide Shift, Shift2;
  }

  /** There is a path in every direction. */
  lemma LineIsCurve(b: Layer, d: Moves)
    ensures Curve(Line(b, d), d)
  {
    hide Slope, Shift, Shift2, Carried, Shifted, Line, Through, RS.Curve, SinkAt, OutWAt, Mul;
    var c := Line(b, d);
    forall e ensures Sized(b, c(e)) && Dims(c(e)) == Dims(b) && c(e).sinkLogit == Shift(b.sinkLogit, d.sink, e)
                     && c(e).outW == Shift2(b.outW, d.outW, e) {
      ShiftedSizes(b, d, e);
      CarriedForms(b, Shifted(b, d, e), true);
    }
    LineSides(b, d, false);
    LineSides(b, d, true);
    forall kv, r, h, x | 0 <= x < Dims(c(0.0)) ensures Through(c, kv, r, h, x) {
      LineThrough(b, d, kv, r, h, x);
    }
    forall h ensures Slope(SinkAt(c, h), d.sink(h)) {
      SlopeLine(SinkAt(c, h), b.sinkLogit(h), d.sink(h));
    }
    forall o, p ensures Slope(OutWAt(c, o, p), d.outW(o, p)) {
      SlopeLine(OutWAt(c, o, p), b.outW(o, p), d.outW(o, p));
    }
  }
}
