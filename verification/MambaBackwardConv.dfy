/** The backward computation of one row, continued: the causal convolution with its reach back over two
    rows, and the row's own input projection. */
module MambaBackwardConv {
  import opened Sums
  import opened Functions
  import opened Buffers
  import opened MambaModel
  import opened MambaGradient
  import opened MambaRowKernel

  /** One projection's cotangent, spread over its input weights and over the hidden row it read. */
  method SpreadRow(m: Block, row: nat, p: nat, coef: real, inW: array2<real>, hidden: array2<real>)
    requires p < ProjDims(m) && row < m.rows
    requires inW.Length0 == ProjDims(m) && inW.Length1 == m.width && hidden.Length0 == m.rows
             && hidden.Length1 == m.width
    requires inW != hidden
    modifies inW, hidden
    ensures forall q, i :: 0 <= q < ProjDims(m) && 0 <= i < m.width ==>
              inW[q, i] == old(inW[q, i]) + if q == p then WeightTerm(m, row, i, coef) else 0.0
    ensures forall r, i :: 0 <= r < m.rows && 0 <= i < m.width ==>
              hidden[r, i] == old(hidden[r, i]) + if r == row then HiddenBack(m, p, i, coef) else 0.0
  {
    hide WeightTerm, HiddenBack;
    for i := 0 to m.width
      invariant forall q, k :: 0 <= q < ProjDims(m) && 0 <= k < m.width ==>
                  inW[q, k] == old(inW[q, k]) + if q == p && k < i then WeightTerm(m, row, k, coef) else 0.0
      invariant forall r, k :: 0 <= r < m.rows && 0 <= k < m.width ==>
                  hidden[r, k] == old(hidden[r, k]) + if r == row && k < i then HiddenBack(m, p, k, coef) else 0.0
    {
      AddCell(inW, p, i, WeightTerm(m, row, i, coef));
      AddCell(hidden, row, i, HiddenBack(m, p, i, coef));
    }
  }

  // ---- convolution ----

  /** The cotangent of tap `k` of channel `c`. */
  ghost function TapCoef(m: Block, t: int, c: int, k: int): real { Mul(ConvPreGrad(m, t, c), m.convW(c, k)) }

  lemma TapForms(m: Block, t: int, c: int, k: int)
    ensures t - 2 + k >= 0 ==>
            forall i :: WeightTerm(m, t - 2 + k, i, TapCoef(m, t, c, k)) == TapWeightTerm(m, t, k, c, i)
    ensures t - 2 + k < 0 ==> forall i :: TapWeightTerm(m, t, k, c, i) == 0.0
    ensures ConvWTerm(m, c, k, t) == Mul(ConvPreGrad(m, t, c), Tap(m, t - 2 + k, c))
  {
    hide ConvPreGrad, Tap;
    forall i | t - 2 + k >= 0 ensures WeightTerm(m, t - 2 + k, i, TapCoef(m, t, c, k)) == TapWeightTerm(m, t, k, c, i) {
      Associate(m.u(t - 2 + k, i), ConvPreGrad(m, t, c), m.convW(c, k));
    }
  }

  lemma Associate(x: real, y: real, z: real)
    ensures x * (y * z) == x * y * z
  {
  }

  /** One earlier tap of one channel, reversed. */
  method TapBack(m: Block, t: nat, c: nat, k: nat, grad: real, convW: array2<real>, inW: array2<real>,
                 hidden: array2<real>)
    requires t < m.rows && c < Channels(m) && k < 2 && grad == ConvPreGrad(m, t, c)
    requires convW.Length0 == Channels(m) && convW.Length1 == 3
    requires inW.Length0 == ProjDims(m) && inW.Length1 == m.width && hidden.Length0 == m.rows
             && hidden.Length1 == m.width
    requires convW != inW && convW != hidden && inW != hidden
    modifies convW, inW, hidden
    ensures forall i, j :: 0 <= i < Channels(m) && 0 <= j < 3 ==>
              convW[i, j] == old(convW[i, j]) + if i == c && j == k then ConvWTerm(m, c, k, t) else 0.0
    ensures forall p, i :: 0 <= p < ProjDims(m) && 0 <= i < m.width ==>
              inW[p, i] == old(inW[p, i]) + if p == ConvAt(m) + c then TapWeightTerm(m, t, k, c, i) else 0.0
    ensures forall r, i :: 0 <= r < m.rows && 0 <= i < m.width ==>
              hidden[r, i] == old(hidden[r, i])
                + if r == t - 2 + k then HiddenBack(m, ConvAt(m) + c, i, TapCoef(m, t, c, k)) else 0.0
  {
    hide ConvPreGrad, Proj, WeightTerm, HiddenBack, TapWeightTerm, ConvWTerm, Mul;
    TapForms(m, t, c, k);
    var row, tap := t - 2 + k, 0.0;
    if row >= 0 {
      tap := ProjectDim(m, row, ConvAt(m) + c);
    }
    AddCell(convW, c, k, Mul(grad, tap));
    if row >= 0 {
      SpreadRow(m, row, ConvAt(m) + c, Mul(grad, m.convW(c, k)), inW, hidden);
    }
  }

  function SiluBackOf(k: Fns, grad: real, pre: real): real {
    grad * Sigmoid(k, pre) * (1.0 + pre * (1.0 - Sigmoid(k, pre)))
  }

  /** Channel `c`, reversed. */
  method ChannelBack(m: Block, t: nat, c: nat, convGrad: real, pre: real, own: real, to: ConvBuffers)
    requires t < m.rows && c < Channels(m)
    requires convGrad == ConvGrad(m, t, c) && pre == ConvPre(m, t, c) && own == Tap(m, t, c)
    requires to.Fits(m) && to.Apart()
    modifies to.bias, to.weight, to.proj, to.inW, to.hidden
    ensures forall i :: 0 <= i < Channels(m) ==>
            to.bias[i] == old(to.bias[i]) + if i == c then ConvBTerm(m, c, t) else 0.0
    ensures forall i, j :: 0 <= i < Channels(m) && 0 <= j < 3 ==>
              to.weight[i, j] == old(to.weight[i, j]) + if i == c then ConvWTerm(m, c, j, t) else 0.0
    ensures forall p :: 0 <= p < ProjDims(m) ==>
            to.proj[p] == old(to.proj[p]) + if p == ConvAt(m) + c then TapCoef(m, t, c, 2) else 0.0
    ensures forall p, i :: 0 <= p < ProjDims(m) && 0 <= i < m.width ==>
              to.inW[p, i] == old(to.inW[p, i])
                              + if p == ConvAt(m) + c then TapWeightTerm(m, t, 0, c, i) + TapWeightTerm(m, t, 1, c, i)
                                else 0.0
    ensures forall r, i :: 0 <= r < m.rows && 0 <= i < m.width ==>
              to.hidden[r, i] == old(to.hidden[r, i])
                                 + if r == t - 2 then HiddenBack(m, ConvAt(m) + c, i, TapCoef(m, t, c, 0))
                                   else if r == t - 1 then HiddenBack(m, ConvAt(m) + c, i, TapCoef(m, t, c, 1)) else 0.0
  {
    hide ConvGrad, ConvPre, Tap, Sigmoid, HiddenBack, TapWeightTerm, ConvWTerm, Mul;
    var grad := SiluBackOf(m.fns, convGrad, pre);
    assert grad == ConvPreGrad(m, t, c);
    hide ConvPreGrad;
    TapForms(m, t, c, 2);
    AddEntry(to.bias, c, grad);
    TapBack(m, t, c, 0, grad, to.weight, to.inW, to.hidden);
    TapBack(m, t, c, 1, grad, to.weight, to.inW, to.hidden);
    AddCell(to.weight, c, 2, Mul(grad, own));
    AddEntry(to.proj, ConvAt(m) + c, Mul(grad, m.convW(c, 2)));
  }

  // ---- every channel ----

  /** The buffers' contents before the convolution is reversed. */
  datatype BeforeConv = BeforeConv(bias: int -> real, weight: (int, int) -> real, proj: int -> real,
                                   inW: (int, int) -> real, hidden: (int, int) -> real)

  ghost function BiasUpto(m: Block, t: int, c: int, i: int): real { if i < c then ConvBTerm(m, i, t) else 0.0 }

  ghost function WeightUpto(m: Block, t: int, c: int, i: int, k: int): real {
    if i < c then ConvWTerm(m, i, k, t) else 0.0
  }

  ghost function ProjUpto(m: Block, t: int, c: int, p: int): real {
    if ConvAt(m) <= p < ConvAt(m) + c then TapCoef(m, t, p - ConvAt(m), 2) else 0.0
  }

  ghost function InWUpto(m: Block, t: int, c: int, p: int, i: int): real {
    if ConvAt(m) <= p < ConvAt(m) + c
    then TapWeightTerm(m, t, 0, p - ConvAt(m), i) + TapWeightTerm(m, t, 1, p - ConvAt(m), i) else 0.0
  }

  ghost function TapUpto(m: Block, t: int, c: int, k: int, i: int): real {
    Sum(c, x => HiddenBack(m, ConvAt(m) + x, i, TapCoef(m, t, x, k)))
  }

  ghost function HiddenUpto(m: Block, t: int, c: int, r: int, i: int): real {
    if r == t - 2 then TapUpto(m, t, c, 0, i) else if r == t - 1 then TapUpto(m, t, c, 1, i) else 0.0
  }

  datatype ConvBuffers = ConvBuffers(bias: array<real>, weight: array2<real>, proj: array<real>, inW: array2<real>,
                                     hidden: array2<real>)
  {
    ghost predicate Apart() { bias != proj && weight != inW && weight != hidden && inW != hidden }

    ghost function Repr(): set<object> { {bias, weight, proj, inW, hidden} }

    ghost predicate Fits(m: Block) {
      && bias.Length == Channels(m) && weight.Length0 == Channels(m) && weight.Length1 == 3
      && proj.Length == ProjDims(m)
      && inW.Length0 == ProjDims(m) && inW.Length1 == m.width && hidden.Length0 == m.rows && hidden.Length1 == m.width
    }

    /** The channels before `c` have been added. */
    ghost predicate Done(m: Block, t: int, c: int, was: BeforeConv)
      reads bias, weight, proj, inW, hidden
    {
      && Vector(bias, Channels(m), i => was.bias(i) + BiasUpto(m, t, c, i))
      && Matrix(weight, Channels(m), 3, (i, k) => was.weight(i, k) + WeightUpto(m, t, c, i, k))
      && Vector(proj, ProjDims(m), p => was.proj(p) + ProjUpto(m, t, c, p))
      && Matrix(inW, ProjDims(m), m.width, (p, i) => was.inW(p, i) + InWUpto(m, t, c, p, i))
      && Matrix(hidden, m.rows, m.width, (r, i) => was.hidden(r, i) + HiddenUpto(m, t, c, r, i))
    }
  }

  lemma UptoSteps(m: Block, t: int, c: nat)
    ensures forall i :: 0 <= i ==>
            BiasUpto(m, t, c + 1, i) == BiasUpto(m, t, c, i) + if i == c then ConvBTerm(m, c, t) else 0.0
    ensures forall i, k :: 0 <= i ==>
            WeightUpto(m, t, c + 1, i, k) == WeightUpto(m, t, c, i, k) + if i == c then ConvWTerm(m, c, k, t) else 0.0
    ensures forall p ::
              ProjUpto(m, t, c + 1, p) == ProjUpto(m, t, c, p) + if p == ConvAt(m) + c then TapCoef(m, t, c, 2) else 0.0
    ensures forall p, i :: InWUpto(m, t, c + 1, p, i)
                        == InWUpto(m, t, c, p, i)
                           + if p == ConvAt(m) + c then TapWeightTerm(m, t, 0, c, i) + TapWeightTerm(m, t, 1, c, i)
                             else 0.0
    ensures forall r, i :: HiddenUpto(m, t, c + 1, r, i)
                        == HiddenUpto(m, t, c, r, i)
                           + if r == t - 2 then HiddenBack(m, ConvAt(m) + c, i, TapCoef(m, t, c, 0))
                             else if r == t - 1 then HiddenBack(m, ConvAt(m) + c, i, TapCoef(m, t, c, 1)) else 0.0
  {
    hide ConvBTerm, ConvWTerm, TapCoef, TapWeightTerm, HiddenBack;
  }

  method ChannelStep(m: Block, t: nat, c: nat, convGrad: array<real>, row: Row, to: ConvBuffers, ghost was: BeforeConv)
    requires t < m.rows && c < Channels(m) && Vector(convGrad, Channels(m), c => ConvGrad(m, t, c))
    requires Vector(row.pre, Channels(m), c => ConvPre(m, t, c)) && Vector(row.proj, ProjDims(m), p => Proj(m, t, p))
    requires to.Apart() && to.Done(m, t, c, was)
    modifies to.bias, to.weight, to.proj, to.inW, to.hidden
    ensures to.Done(m, t, c + 1, was)
  {
    hide ConvGrad, ConvPre, Proj, ConvBTerm, ConvWTerm, TapCoef, TapWeightTerm, HiddenBack, BiasUpto, WeightUpto,
         ProjUpto, InWUpto, HiddenUpto;
    UptoSteps(m, t, c);
    ChannelBack(m, t, c, convGrad[c], row.pre[c], row.proj[ConvAt(m) + c], to);
  }

  method ConvBack(m: Block, t: nat, convGrad: array<real>, row: Row, to: ConvBuffers, ghost was: BeforeConv)
    requires t < m.rows && Vector(convGrad, Channels(m), c => ConvGrad(m, t, c))
    requires Vector(row.pre, Channels(m), c => ConvPre(m, t, c)) && Vector(row.proj, ProjDims(m), p => Proj(m, t, p))
    requires to.Apart() && to.Repr() !! {convGrad, row.pre, row.proj} && to.Done(m, t, 0, was)
    modifies to.bias, to.weight, to.proj, to.inW, to.hidden
    ensures to.Done(m, t, Channels(m), was)
  {
    hide ConvBuffers.Done, Vector, Matrix, Channels, ProjDims;
    for c := 0 to Channels(m)
      invariant to.Done(m, t, c, was)
    {
      ChannelStep(m, t, c, convGrad, row, to, was);
    }
  }

  // ---- the row's own projection ----

  ghost function OwnUpto(m: Block, t: int, p: int, q: int, i: int): real {
    if q < p then WeightTerm(m, t, i, ProjGrad(m, t, q)) else 0.0
  }

  ghost function OwnHiddenUpto(m: Block, t: int, p: int, r: int, i: int): real {
    if r == t then Sum(p, x => HiddenBack(m, x, i, ProjGrad(m, t, x))) else 0.0
  }

  lemma OwnSteps(m: Block, t: int, p: nat)
    ensures forall q, i :: 0 <= q ==>
            OwnUpto(m, t, p + 1, q, i)
            == OwnUpto(m, t, p, q, i) + if q == p then WeightTerm(m, t, i, ProjGrad(m, t, p)) else 0.0
    ensures forall r, i ::
              OwnHiddenUpto(m, t, p + 1, r, i)
              == OwnHiddenUpto(m, t, p, r, i) + if r == t then HiddenBack(m, p, i, ProjGrad(m, t, p)) else 0.0
    ensures p == 0 ==> forall q, i :: 0 <= q ==> OwnUpto(m, t, 0, q, i) == 0.0
    ensures p == 0 ==> forall r, i :: OwnHiddenUpto(m, t, 0, r, i) == 0.0
  {
    hide WeightTerm, HiddenBack, ProjGrad;
  }

  method OwnScatter(m: Block, t: nat, projGrad: array<real>, inW: array2<real>, hidden: array2<real>,
                    ghost inW0: (int, int) -> real, ghost hidden0: (int, int) -> real)
    requires t < m.rows && Vector(projGrad, ProjDims(m), p => ProjGrad(m, t, p))
    requires Matrix(inW, ProjDims(m), m.width, inW0) && Matrix(hidden, m.rows, m.width, hidden0) && inW != hidden
    modifies inW, hidden
    ensures Matrix(inW, ProjDims(m), m.width, (p, i) => inW0(p, i) + OwnUpto(m, t, ProjDims(m), p, i))
    ensures Matrix(hidden, m.rows, m.width, (r, i) => hidden0(r, i) + OwnHiddenUpto(m, t, ProjDims(m), r, i))
  {
    hide ProjGrad, OwnUpto, OwnHiddenUpto, WeightTerm, HiddenBack;
    OwnSteps(m, t, 0);
    for p := 0 to ProjDims(m)
      invariant Matrix(inW, ProjDims(m), m.width, (q, i) => inW0(q, i) + OwnUpto(m, t, p, q, i))
      invariant Matrix(hidden, m.rows, m.width, (r, i) => hidden0(r, i) + OwnHiddenUpto(m, t, p, r, i))
    {
      OwnSteps(m, t, p);
      SpreadRow(m, t, p, projGrad[p], inW, hidden);
    }
  }
}
