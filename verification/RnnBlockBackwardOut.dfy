/** The output side of one row of the M2RNN block's reverse sweep: output projection, norm and gate, reversed. */
module RnnBlockBackwardOut {
  import opened Sums
  import opened Functions
  import opened Buffers
  import opened RnnModel
  import opened RnnKernel
  import opened RnnBackwardRow
  import opened RnnBlockModel
  import opened RnnBlockGradient
  import opened RnnBlockKernel
  import Indices
  import RmsNorm
  import Up = RnnUpstream

  // ---- output projection ----

  /** Feature `f` against every output: the feature's gradient, and its column of the weight gradient. */
  method FeatureBack(b: Block, t: nat, f: nat, normed: real, outW: array2<real>) returns (up: real)
    requires t < b.rows && f < Features(b) && normed == Normed(b, t, f)
    requires outW.Length0 == b.width && outW.Length1 == Features(b)
    modifies outW
    ensures up == PostUp(b, t, f)
    ensures forall o, g :: 0 <= o < b.width && 0 <= g < Features(b) ==>
              outW[o, g] == old(outW[o, g]) + if g == f then OutWTerm(b, o, f, t) else 0.0
  {
    hide Normed, Mul, Features;
    up := 0.0;
    for o := 0 to b.width
      invariant up == Sum(o, i => Mul(b.up(t, i), b.outW(i, f)))
      invariant forall i, g :: 0 <= i < b.width && 0 <= g < Features(b) ==>
                  outW[i, g] == old(outW[i, g]) + if g == f && i < o then OutWTerm(b, i, f, t) else 0.0
    {
      up := up + Mul(b.up(t, o), b.outW(o, f));
      AddCell(outW, o, f, Mul(b.up(t, o), normed));
    }
  }

  lemma OutWStep(b: Block, t: int)
    requires t < b.rows
    ensures forall o, f :: OutWGrad(b, t, o, f) == OutWGrad(b, t + 1, o, f) + OutWTerm(b, o, f, t)
    ensures forall f :: ScaleGrad(b, t, f) == ScaleGrad(b, t + 1, f) + ScaleTerm(b, f, t)
  {
    hide OutWTerm, ScaleTerm;
  }

  /** The output projection, reversed: every feature's gradient, and the norm's dot product. */
  method ProjectBack(b: Block, t: nat, inv: real, post: array<real>, outW: array2<real>)
    returns (ups: array<real>, dot: real)
    requires t < b.rows && inv == RmsNorm.Inv(Norm(b), t) && Vector(post, Features(b), f => Post(b, t, f))
    requires Matrix(outW, b.width, Features(b), (o, f) => OutWGrad(b, t + 1, o, f))
    modifies outW
    ensures fresh(ups) && Vector(ups, Features(b), f => PostUp(b, t, f)) && dot == RmsNorm.Dot(Norm(b), t)
    ensures Matrix(outW, b.width, Features(b), (o, f) => OutWGrad(b, t, o, f))
  {
    hide Post, PostUp, Normed, OutWTerm, OutWGrad, ScaleGrad, RmsNorm.Inv, RmsNorm.Dot, RmsNorm.Entry, NormDotTerm,
         Features;
    OutWStep(b, t);
    ups := new real[Features(b)];
    dot := 0.0;
    for f := 0 to Features(b)
      invariant forall i :: 0 <= i < f ==> ups[i] == PostUp(b, t, i)
      invariant dot == Sum(f, i => NormDotTerm(PostUp(b, t, i), b.scale(i), Post(b, t, i)))
      invariant forall o, g :: 0 <= o < b.width && 0 <= g < Features(b) ==>
                  outW[o, g] == OutWGrad(b, t + 1, o, g) + if g < f then OutWTerm(b, o, g, t) else 0.0
    {
      NormedForm(b, t, f);
      ups[f] := FeatureBack(b, t, f, RmsNorm.Entry(post[f], inv, b.scale(f)), outW);
      dot := dot + NormDotTerm(ups[f], b.scale(f), post[f]);
    }
    DotForm(b, t, i => NormDotTerm(PostUp(b, t, i), b.scale(i), Post(b, t, i)));
  }

  lemma DotForm(b: Block, t: int, dots: int -> real)
    requires forall f {:trigger dots(f)} :: dots(f) == NormDotTerm(PostUp(b, t, f), b.scale(f), Post(b, t, f))
    ensures RmsNorm.Dot(Norm(b), t) == Sum(Features(b), dots)
  {
    hide Sum, Post, PostUp, NormDotTerm, Features;
    var m := Norm(b);
    var own := (i: int) => NormDotTerm(m.up(t, i), m.weight(i), m.x(t, i));
    forall f ensures own(f) == dots(f) {
      assert m.x(t, f) == Post(b, t, f) && m.up(t, f) == PostUp(b, t, f);
    }
    SumEq(Features(b), own, dots);
  }

  // ---- norm ----

  lemma PostGradForm(b: Block, t: int, f: int)
    ensures PostGrad(b, t, f)
            == NormBackward(RmsNorm.Inv(Norm(b), t), PostUp(b, t, f), b.scale(f), Post(b, t, f),
                            RmsNorm.Dot(Norm(b), t), Features(b) as real)
    ensures ScaleTerm(b, f, t) == Mul(Mul(PostUp(b, t, f), Post(b, t, f)), RmsNorm.Inv(Norm(b), t))
  {
    hide Mul, Post, PostUp, RmsNorm.Inv, RmsNorm.Dot, NormBackward, Features;
  }

  /** The norm, reversed: the gated readouts' gradients and the scales'. */
  method NormBack(b: Block, t: nat, inv: real, dot: real, post: array<real>, ups: array<real>, scale: array<real>)
    returns (grad: array<real>)
    requires t < b.rows && inv == RmsNorm.Inv(Norm(b), t) && dot == RmsNorm.Dot(Norm(b), t)
    requires Vector(post, Features(b), f => Post(b, t, f)) && Vector(ups, Features(b), f => PostUp(b, t, f))
    requires Vector(scale, Features(b), f => ScaleGrad(b, t + 1, f)) && scale !in {post, ups}
    modifies scale
    ensures fresh(grad) && Vector(grad, Features(b), f => PostGrad(b, t, f))
    ensures Vector(scale, Features(b), f => ScaleGrad(b, t, f))
  {
    hide Mul, Post, PostUp, PostGrad, ScaleTerm, ScaleGrad, OutWGrad, RmsNorm.Inv, RmsNorm.Dot, NormBackward, Features;
    OutWStep(b, t);
    grad := new real[Features(b)];
    for f := 0 to Features(b)
      invariant forall i :: 0 <= i < f ==> grad[i] == PostGrad(b, t, i)
      invariant forall i :: 0 <= i < Features(b) ==>
                  scale[i] == ScaleGrad(b, t + 1, i) + if i < f then ScaleTerm(b, i, t) else 0.0
    {
      PostGradForm(b, t, f);
      AddEntry(scale, f, Mul(Mul(ups[f], post[f]), inv));
      grad[f] := NormBackward(inv, ups[f], b.scale(f), post[f], dot, Features(b) as real);
    }
  }

  // ---- gate ----

  lemma UpsRead(b: Block, t: int, ups: seq<real>)
    requires |ups| == Features(b) && forall f :: 0 <= f < Features(b) ==> ups[f] == ReadUp(b, t, f)
    ensures RowUp(ups).Reads(Core(b), t)
  {
    hide Plain, ReadUp;
    CoreHeads(b);
    var m := Core(b);
    forall h, j | 0 <= h < m.heads && 0 <= j < m.vals ensures ups[Feature(m, h, j)] == m.up(t, h, j) {
      Indices.FlatRange(h, b.heads, j, b.vals);
    }
  }

  lemma CoreHeads(b: Block)
    ensures Core(b).heads == b.heads && Core(b).vals == b.vals && Up.SameForward(Plain(b), Core(b))
  {
    hide ReadUp, Shared;
  }

  /** The gate, reversed: the readouts' gradients and the gate projections'. */
  method GateBack(b: Block, t: nat, x: RowIn, projected: array<real>, grad: array<real>, next: array2<real>)
    returns (ups: RowUp, gates: array<real>)
    requires x.Reads(Core(b), t) && RnnKernel.Holds(Core(b), t + 1, next)
    requires Vector(projected, Dims(b), p => Proj(b, t, p)) && Vector(grad, Features(b), f => PostGrad(b, t, f))
    ensures ups.Reads(Core(b), t) && fresh(gates) && Vector(gates, Features(b), f => GateGrad(b, t, f))
  {
    hide Proj, Core, Plain, Readout, PostGrad, Silu, DSilu, Mul, Features, RnnKernel.Holds, RowIn.Reads, RowUp.Reads;
    CoreHeads(b);
    var up := new real[Features(b)];
    gates := new real[Features(b)];
    for f := 0 to Features(b)
      invariant forall i :: 0 <= i < f ==> up[i] == ReadUp(b, t, i) && gates[i] == GateGrad(b, t, i)
    {
      var y := ReadFeature(b, t, Core(b), x, f, next);
      var gate := projected[GateAt(b) + f];
      up[f] := Mul(grad[f], Silu(b.fns, gate));
      gates[f] := Mul(Mul(grad[f], y), DSilu(b.fns, gate));
    }
    UpsRead(b, t, up[..]);
    ups := RowUp(up[..]);
  }

  /** The output side of row `t`. */
  method OutBack(b: Block, t: nat, row: RowBuffers, x: RowIn, next: array2<real>, outW: array2<real>,
                 scale: array<real>)
    returns (ups: RowUp, gates: array<real>)
    requires t < b.rows && row.Holds(b, t) && x.Reads(Core(b), t) && RnnKernel.Holds(Core(b), t + 1, next)
    requires Matrix(outW, b.width, Features(b), (o, f) => OutWGrad(b, t + 1, o, f))
    requires Vector(scale, Features(b), f => ScaleGrad(b, t + 1, f))
    requires outW != next && scale !in row.Repr()
    modifies outW, scale
    ensures ups.Reads(Core(b), t) && fresh(gates) && Vector(gates, Features(b), f => GateGrad(b, t, f))
    ensures Matrix(outW, b.width, Features(b), (o, f) => OutWGrad(b, t, o, f))
    ensures Vector(scale, Features(b), f => ScaleGrad(b, t, f))
  {
    hide Proj, ConvPre, Conv, Core, Plain, Post, PostUp, PostGrad, GateGrad, OutWGrad, ScaleGrad, Features, RmsNorm.Inv,
         RmsNorm.Dot, RnnKernel.Holds, RowIn.Reads, RowUp.Reads;
    CoreHeads(b);
    var post := PostRow(b, t, Core(b), x, row.projected, next);
    var inv := InverseRms(b, t, 1, post);
    var postUps, dot := ProjectBack(b, t, inv, post, outW);
    var grad := NormBack(b, t, inv, dot, post, postUps, scale);
    ups, gates := GateBack(b, t, x, row.projected, grad, next);
  }
}
