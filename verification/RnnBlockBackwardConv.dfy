/** The input side of one row of the M2RNN block's reverse sweep: the convolution with its reach back over three
    rows, and the row's own input projection. */
module RnnBlockBackwardConv {
  import opened Sums
  import opened Functions
  import opened Buffers
  import opened Indices
  import opened ProjectionSegments
  import opened RnnModel
  import opened RnnBlockModel
  import opened RnnBlockGradient
  import opened RnnBlockKernel
  import G = RnnGradient
  import RnnBackward

  // ---- one projection, spread ----

  /** One projection's cotangent, spread over its input weights and over the hidden row it read. */
  method SpreadRow(b: Block, row: nat, p: nat, coef: real, inW: array2<real>, hidden: array2<real>)
    requires p < Dims(b) && row < b.rows && inW != hidden
    requires inW.Length0 == Dims(b) && inW.Length1 == b.width && hidden.Length0 == b.rows && hidden.Length1 == b.width
    modifies inW, hidden
    ensures forall q, i :: 0 <= q < Dims(b) && 0 <= i < b.width ==>
              inW[q, i] == old(inW[q, i]) + if q == p then Mul(coef, b.u(row, i)) else 0.0
    ensures forall r, i :: 0 <= r < b.rows && 0 <= i < b.width ==>
              hidden[r, i] == old(hidden[r, i]) + if r == row then Mul(coef, b.inW(p, i)) else 0.0
  {
    hide Mul, Dims;
    for i := 0 to b.width
      invariant forall q, k :: 0 <= q < Dims(b) && 0 <= k < b.width ==>
                  inW[q, k] == old(inW[q, k]) + if q == p && k < i then Mul(coef, b.u(row, k)) else 0.0
      invariant forall r, k :: 0 <= r < b.rows && 0 <= k < b.width ==>
                  hidden[r, k] == old(hidden[r, k]) + if r == row && k < i then Mul(coef, b.inW(p, k)) else 0.0
    {
      AddCell(inW, p, i, Mul(coef, b.u(row, i)));
      AddCell(hidden, row, i, Mul(coef, b.inW(p, i)));
    }
  }

  // ---- convolution ----

  /** What channel `c` adds through tap `k` to its input weights, and to hidden row `r`. */
  ghost function TapWeight(b: Block, t: int, k: int, c: int, i: int): real {
    if t - TAPS + k >= 0 then Mul(TapCoef(b, t, k, c), b.u(t - TAPS + k, i)) else 0.0
  }

  ghost function TapInput(b: Block, t: int, k: int, c: int, r: int, i: int): real {
    if t - TAPS + k >= 0 && r == t - TAPS + k then Mul(TapCoef(b, t, k, c), b.inW(c, i)) else 0.0
  }

  ghost function TapsWeight(b: Block, t: int, n: int, c: int, i: int): real { Sum(n, k => TapWeight(b, t, k, c, i)) }

  ghost function TapsInput(b: Block, t: int, n: int, c: int, r: int, i: int): real {
    Sum(n, k => TapInput(b, t, k, c, r, i))
  }

  /** One earlier tap of one channel, reversed. */
  method TapBack(b: Block, t: nat, c: nat, k: nat, grad: real, convW: array2<real>, inW: array2<real>,
                 hidden: array2<real>)
    requires t < b.rows && c < Channels(b) && k < TAPS && grad == ConvPreGrad(b, t, c)
    requires convW.Length0 == Channels(b) && convW.Length1 == TAPS + 1 && convW !in {inW, hidden} && inW != hidden
    requires inW.Length0 == Dims(b) && inW.Length1 == b.width && hidden.Length0 == b.rows && hidden.Length1 == b.width
    modifies convW, inW, hidden
    ensures forall i, j :: 0 <= i < Channels(b) && 0 <= j <= TAPS ==>
              convW[i, j] == old(convW[i, j]) + if i == c && j == k then ConvWTerm(b, c, k, t) else 0.0
    ensures forall p, i :: 0 <= p < Dims(b) && 0 <= i < b.width ==>
              inW[p, i] == old(inW[p, i]) + if p == c then TapWeight(b, t, k, c, i) else 0.0
    ensures forall r, i :: 0 <= r < b.rows && 0 <= i < b.width ==>
              hidden[r, i] == old(hidden[r, i]) + TapInput(b, t, k, c, r, i)
  {
    hide ConvPreGrad, Tap, Mul, Channels;
    var tap := TapValue(b, t, k, c);
    AddCell(convW, c, k, Mul(grad, tap));
    if t - TAPS + k >= 0 {
      SpreadRow(b, t - TAPS + k, c, Mul(grad, b.convW(c, k)), inW, hidden);
    }
  }

  /** The buffers the convolution's reversal adds to. */
  datatype ConvBuffers = ConvBuffers(bias: array<real>, weight: array2<real>, inW: array2<real>, hidden: array2<real>)
  {
    ghost function Repr(): set<object> { {bias, weight, inW, hidden} }

    ghost predicate Apart() { weight !in {inW, hidden} && inW != hidden }

    ghost predicate Fits(b: Block) {
      && bias.Length == Channels(b) && weight.Length0 == Channels(b) && weight.Length1 == TAPS + 1
      && inW.Length0 == Dims(b) && inW.Length1 == b.width && hidden.Length0 == b.rows && hidden.Length1 == b.width
    }

    /** The channels before `c` of row `t` have been added, and all later rows. */
    ghost predicate Done(b: Block, t: int, c: int)
      reads bias, weight, inW, hidden
    {
      && Vector(bias, Channels(b), i => BiasUpto(b, t, c, i))
      && Matrix(weight, Channels(b), TAPS + 1, (i, k) => WeightUpto(b, t, c, i, k))
      && Matrix(inW, Dims(b), b.width, (p, i) => InWUpto(b, t, c, p, i))
      && Matrix(hidden, b.rows, b.width, (r, i) => HiddenUpto(b, t, c, r, i))
    }
  }

  ghost function BiasUpto(b: Block, t: int, c: int, i: int): real {
    ConvBGrad(b, t + 1, i) + if i < c then ConvBTerm(b, i, t) else 0.0
  }

  ghost function WeightUpto(b: Block, t: int, c: int, i: int, k: int): real {
    ConvWGrad(b, t + 1, i, k) + if i < c then ConvWTerm(b, i, k, t) else 0.0
  }

  ghost function InWUpto(b: Block, t: int, c: int, p: int, i: int): real {
    InWGrad(b, t + 1, p, i) + if p < c then TapsWeight(b, t, TAPS, p, i) else 0.0
  }

  ghost function HiddenUpto(b: Block, t: int, c: int, r: int, i: int): real {
    HiddenGrad(b, t + 1, r, i) + Sum(c, x => TapsInput(b, t, TAPS, x, r, i))
  }

  lemma TapSteps(b: Block, t: int, c: int, k: nat)
    ensures forall i :: TapsWeight(b, t, k + 1, c, i) == TapsWeight(b, t, k, c, i) + TapWeight(b, t, k, c, i)
    ensures forall r, i :: TapsInput(b, t, k + 1, c, r, i) == TapsInput(b, t, k, c, r, i) + TapInput(b, t, k, c, r, i)
    ensures k == 0 ==> forall i :: TapsWeight(b, t, 0, c, i) == 0.0
    ensures k == 0 ==> forall r, i :: TapsInput(b, t, 0, c, r, i) == 0.0
  {
    hide TapWeight, TapInput;
  }

  /** Channel `c`, reversed; returns what its own projection gets. */
  method ChannelBack(b: Block, t: nat, c: nat, convGrad: real, pre: real, own: real, to: ConvBuffers)
    returns (proj: real)
    requires t < b.rows && c < Channels(b) && to.Fits(b) && to.Apart()
    requires convGrad == ConvGrad(b, t, c) && pre == ConvPre(b, t, c) && own == Proj(b, t, c)
    modifies to.bias, to.weight, to.inW, to.hidden
    ensures proj == TapCoef(b, t, TAPS, c)
    ensures forall i :: 0 <= i < Channels(b) ==>
            to.bias[i] == old(to.bias[i]) + if i == c then ConvBTerm(b, c, t) else 0.0
    ensures forall i, j :: 0 <= i < Channels(b) && 0 <= j <= TAPS ==>
              to.weight[i, j] == old(to.weight[i, j]) + if i == c then ConvWTerm(b, c, j, t) else 0.0
    ensures forall p, i :: 0 <= p < Dims(b) && 0 <= i < b.width ==>
              to.inW[p, i] == old(to.inW[p, i]) + if p == c then TapsWeight(b, t, TAPS, c, i) else 0.0
    ensures forall r, i :: 0 <= r < b.rows && 0 <= i < b.width ==>
              to.hidden[r, i] == old(to.hidden[r, i]) + TapsInput(b, t, TAPS, c, r, i)
  {
    hide ConvGrad, ConvPre, DSilu, Mul, Proj, ConvWTerm, TapWeight, TapInput, TapsWeight, TapsInput, Channels, Dims;
    var grad := Mul(convGrad, DSilu(b.fns, pre));
    AddEntry(to.bias, c, grad);
    TapSteps(b, t, c, 0);
    for k := 0 to TAPS
      invariant forall i :: 0 <= i < Channels(b) ==> to.bias[i] == old(to.bias[i]) + if i == c then grad else 0.0
      invariant forall i, j :: 0 <= i < Channels(b) && 0 <= j <= TAPS ==>
                  to.weight[i, j] == old(to.weight[i, j]) + if i == c && j < k then ConvWTerm(b, c, j, t) else 0.0
      invariant forall p, i :: 0 <= p < Dims(b) && 0 <= i < b.width ==>
                  to.inW[p, i] == old(to.inW[p, i]) + if p == c then TapsWeight(b, t, k, c, i) else 0.0
      invariant forall r, i :: 0 <= r < b.rows && 0 <= i < b.width ==>
                  to.hidden[r, i] == old(to.hidden[r, i]) + TapsInput(b, t, k, c, r, i)
    {
      TapSteps(b, t, c, k);
      TapBack(b, t, c, k, grad, to.weight, to.inW, to.hidden);
    }
    LastTap(b, t, c);
    AddCell(to.weight, c, TAPS, Mul(grad, own));
    proj := Mul(grad, b.convW(c, TAPS));
  }

  lemma LastTap(b: Block, t: nat, c: int)
    ensures ConvWTerm(b, c, TAPS, t) == Mul(ConvPreGrad(b, t, c), Proj(b, t, c))
  {
    hide Mul, ConvPreGrad, Proj;
  }

  lemma ChannelSteps(b: Block, t: int, c: nat)
    ensures forall i :: 0 <= i ==>
            BiasUpto(b, t, c + 1, i) == BiasUpto(b, t, c, i) + if i == c then ConvBTerm(b, c, t) else 0.0
    ensures forall i, k :: 0 <= i ==>
            WeightUpto(b, t, c + 1, i, k) == WeightUpto(b, t, c, i, k) + if i == c then ConvWTerm(b, c, k, t) else 0.0
    ensures forall p, i :: 0 <= p ==>
            InWUpto(b, t, c + 1, p, i) == InWUpto(b, t, c, p, i) + if p == c then TapsWeight(b, t, TAPS, c, i) else 0.0
    ensures forall r, i :: HiddenUpto(b, t, c + 1, r, i) == HiddenUpto(b, t, c, r, i) + TapsInput(b, t, TAPS, c, r, i)
  {
    hide ConvBTerm, ConvWTerm, TapsWeight, TapsInput, ConvBGrad, ConvWGrad, InWGrad, HiddenGrad;
  }

  method ChannelStep(b: Block, t: nat, c: nat, convGrad: real, row: RowBuffers, to: ConvBuffers) returns (proj: real)
    requires t < b.rows && c < Channels(b) && row.Holds(b, t) && to.bias !in row.Repr()
    requires convGrad == ConvGrad(b, t, c) && to.Apart() && to.Done(b, t, c)
    modifies to.bias, to.weight, to.inW, to.hidden
    ensures proj == TapCoef(b, t, TAPS, c) && to.Done(b, t, c + 1)
  {
    hide ConvGrad, ConvPre, Conv, Proj, TapCoef, ConvBTerm, ConvWTerm, TapsWeight, TapsInput, BiasUpto, WeightUpto,
         InWUpto, HiddenUpto, Channels;
    ChannelSteps(b, t, c);
    proj := ChannelBack(b, t, c, convGrad, row.pre[c], row.projected[c], to);
  }

  // ---- the gradient of the row's convolution ----

  /** The gradient of channel `c`, which is a query, a key or a value. */
  method ChannelGrad(b: Block, t: nat, c: nat, inputs: RnnBackward.Inputs) returns (grad: real)
    requires c < Channels(b) && inputs.Holds(Core(b), t)
    ensures grad == ConvGrad(b, t, c)
  {
    hide G.QueryGrad, G.KeyGrad, G.ValueGrad, G.ForgetGrad, Plain, ReadUp, Slots;
    CoreSizes(b);
    if c < KeyAt(b) {
      grad := inputs.query[c];
    } else if c < ValueAt(b) {
      grad := inputs.key[c - KeyAt(b)];
    } else {
      DivRange(c - ValueAt(b), b.vHeads, b.vals);
      grad := inputs.value[(c - ValueAt(b)) / b.vals, (c - ValueAt(b)) % b.vals];
    }
  }

  lemma CoreSizes(b: Block)
    ensures Slots(Core(b)) == KeyAt(b) && Core(b).vHeads == b.vHeads && Core(b).vals == b.vals
            && Core(b).fHeads == b.fHeads
  {
    hide ReadUp, Shared;
  }

  /** Every channel, reversed; `proj` gets the channels' own projections. */
  method ConvBack(b: Block, t: nat, inputs: RnnBackward.Inputs, row: RowBuffers, proj: array<real>, to: ConvBuffers)
    requires t < b.rows && row.Holds(b, t) && inputs.Holds(Core(b), t) && to.Apart() && to.Done(b, t, 0)
    requires to.Repr() !! inputs.Repr() && {proj, to.bias} !! row.Repr()
    requires proj.Length == Dims(b) && proj !in inputs.Repr() + to.Repr()
    modifies proj, to.bias, to.weight, to.inW, to.hidden
    ensures to.Done(b, t, Channels(b))
    ensures forall c :: 0 <= c < Channels(b) ==> proj[c] == TapCoef(b, t, TAPS, c)
  {
    hide RowBuffers.Holds, RnnBackward.Inputs.Holds, ConvBuffers.Done, ConvGrad, TapCoef, Core, Channels;
    for c := 0 to Channels(b)
      invariant to.Done(b, t, c) && row.Holds(b, t) && inputs.Holds(Core(b), t)
      invariant forall i :: 0 <= i < c ==> proj[i] == TapCoef(b, t, TAPS, i)
    {
      var grad := ChannelGrad(b, t, c, inputs);
      proj[c] := ChannelStep(b, t, c, grad, row, to);
    }
  }

  // ---- the row's own projection ----

  /** What the dimensions before `p` of the row's own projection have added. */
  ghost function OwnWeight(b: Block, t: int, p: int, q: int, i: int): real {
    InWUpto(b, t, Channels(b), q, i) + if q < p then Mul(ProjGrad(b, t, q), b.u(t, i)) else 0.0
  }

  ghost function OwnInput(b: Block, t: int, p: int, r: int, i: int): real {
    HiddenUpto(b, t, Channels(b), r, i) + if r == t then Sum(p, x => Mul(ProjGrad(b, t, x), b.inW(x, i))) else 0.0
  }

  lemma OwnSteps(b: Block, t: int, p: nat)
    ensures forall q, i :: 0 <= q ==>
            OwnWeight(b, t, p + 1, q, i) == OwnWeight(b, t, p, q, i)
                                            + if q == p then Mul(ProjGrad(b, t, p), b.u(t, i)) else 0.0
    ensures forall r, i :: OwnInput(b, t, p + 1, r, i)
                        == OwnInput(b, t, p, r, i) + if r == t then Mul(ProjGrad(b, t, p), b.inW(p, i)) else 0.0
    ensures p == 0 ==> forall q, i :: 0 <= q ==> OwnWeight(b, t, 0, q, i) == InWUpto(b, t, Channels(b), q, i)
    ensures p == 0 ==> forall r, i :: OwnInput(b, t, 0, r, i) == HiddenUpto(b, t, Channels(b), r, i)
  {
    hide InWUpto, HiddenUpto, Mul, ProjGrad, Channels;
  }

  /** Everything row `t` scatters into the input weights: the three earlier taps, then its own projection. */
  lemma WeightTotal(b: Block, t: nat, p: int, i: int)
    requires t < b.rows && 0 <= p < Dims(b)
    ensures OwnWeight(b, t, Dims(b), p, i) == InWGrad(b, t, p, i)
  {
    hide Mul, TapCoef, ProjGrad, Channels, Dims, Sum, InWTerm;
    var segs := (k: int) => SegWeight(b.u, Backs(b, t)(k), p, i);
    var taps := (k: int) => if p < Channels(b) then TapWeight(b, t, k, p, i) else 0.0;
    forall k | 0 <= k < TAPS ensures segs(k) == taps(k) {
      TapOfWeight(b, t, k, p, i);
    }
    TermOfWeight(b, t, p, i, segs);
    SumEq(TAPS, segs, taps);
    if p < Channels(b) {
      SumEq(TAPS, taps, k => TapWeight(b, t, k, p, i));
    } else {
      SumZero(TAPS, taps);
    }
    InWStep(b, t, p, i);
  }

  lemma TapOfWeight(b: Block, t: nat, k: nat, p: nat, i: int)
    requires k < TAPS
    ensures SegWeight(b.u, Backs(b, t)(k), p, i) == if p < Channels(b) then TapWeight(b, t, k, p, i) else 0.0
  {
    hide Mul, TapCoef, Channels;
    assert p - 0 == p;
  }

  lemma TermOfWeight(b: Block, t: nat, p: int, i: int, segs: int -> real)
    requires 0 <= p < Dims(b) && forall k {:trigger segs(k)} :: segs(k) == SegWeight(b.u, Backs(b, t)(k), p, i)
    ensures InWTerm(b, p, i, t) == Sum(TAPS, segs) + Mul(ProjGrad(b, t, p), b.u(t, i))
  {
    hide Mul, TapCoef, ProjGrad, Channels, Dims;
    SumEq(TAPS + 1, k => SegWeight(b.u, Backs(b, t)(k), p, i), segs);
    assert segs(TAPS) == Mul(ProjGrad(b, t, p), b.u(t, i));
  }

  lemma InWStep(b: Block, t: nat, p: int, i: int)
    requires t < b.rows
    ensures InWGrad(b, t, p, i) == InWGrad(b, t + 1, p, i) + InWTerm(b, p, i, t)
  {
    hide InWTerm;
  }

  /** Everything row `t` scatters into the hidden rows. */
  lemma HiddenTotal(b: Block, t: nat, r: int, i: int)
    requires t < b.rows
    ensures OwnInput(b, t, Dims(b), r, i) == HiddenGrad(b, t, r, i)
  {
    hide Mul, ProjGrad, Channels, Dims, Sum, HiddenTerm, TapInput;
    var segs := (k: int) => SegInput(b.inW, Backs(b, t)(k), r, i);
    var cells := (c: int, k: int) => TapInput(b, t, k, c, r, i);
    var taps := (k: int) => Sum(Channels(b), c => cells(c, k));
    forall k | 0 <= k < TAPS ensures segs(k) == taps(k) {
      TapOfInput(b, t, k, r, i, c => cells(c, k));
    }
    TermOfInput(b, t, r, i, segs);
    SumEq(TAPS, segs, taps);
    SumSwap(Channels(b), TAPS, cells);
    var byChannel := (c: int) => TapsInput(b, t, TAPS, c, r, i);
    forall c ensures byChannel(c) == Sum(TAPS, k => cells(c, k)) {
      SumEq(TAPS, k => TapInput(b, t, k, c, r, i), k => cells(c, k));
    }
    SumEq(Channels(b), byChannel, c => Sum(TAPS, k => cells(c, k)));
    SumEq(Channels(b), byChannel, x => TapsInput(b, t, TAPS, x, r, i));
    HiddenStep(b, t, r, i);
  }

  lemma TapOfInput(b: Block, t: nat, k: nat, r: int, i: int, cells: int -> real)
    requires k < TAPS && forall c {:trigger cells(c)} :: cells(c) == TapInput(b, t, k, c, r, i)
    ensures SegInput(b.inW, Backs(b, t)(k), r, i) == Sum(Channels(b), cells)
  {
    hide Mul, TapCoef, Channels, Sum;
    var s := Back(b, t, k);
    if s.on && r == s.row {
      SumEq(Channels(b), q => Mul(s.coef(q), b.inW(s.at + q, i)), cells);
    } else {
      SumZero(Channels(b), cells);
    }
  }

  lemma TermOfInput(b: Block, t: nat, r: int, i: int, segs: int -> real)
    requires forall k {:trigger segs(k)} :: segs(k) == SegInput(b.inW, Backs(b, t)(k), r, i)
    ensures HiddenTerm(b, r, i, t)
         == Sum(TAPS, segs) + if r == t then Sum(Dims(b), x => Mul(ProjGrad(b, t, x), b.inW(x, i))) else 0.0
  {
    hide Mul, ProjGrad, Dims, SegHidden;
    SumEq(TAPS + 1, k => SegInput(b.inW, Backs(b, t)(k), r, i), segs);
    OwnHidden(b, t, i);
    assert segs(TAPS) == if r == t then SegHidden(b.inW, Back(b, t, TAPS), i) else 0.0;
  }

  lemma OwnHidden(b: Block, t: int, i: int)
    ensures SegHidden(b.inW, Back(b, t, TAPS), i) == Sum(Dims(b), x => Mul(ProjGrad(b, t, x), b.inW(x, i)))
  {
    hide Mul, ProjGrad, Dims, Sum;
    var s := Back(b, t, TAPS);
    SumEq(Dims(b), q => Mul(s.coef(q), b.inW(s.at + q, i)), x => Mul(ProjGrad(b, t, x), b.inW(x, i)));
  }

  lemma HiddenStep(b: Block, t: nat, r: int, i: int)
    requires t < b.rows
    ensures HiddenGrad(b, t, r, i) == HiddenGrad(b, t + 1, r, i) + HiddenTerm(b, r, i, t)
  {
    hide HiddenTerm;
  }

  lemma OwnTotals(b: Block, t: nat)
    requires t < b.rows
    ensures forall p, i :: 0 <= p < Dims(b) ==> OwnWeight(b, t, Dims(b), p, i) == InWGrad(b, t, p, i)
    ensures forall r, i :: OwnInput(b, t, Dims(b), r, i) == HiddenGrad(b, t, r, i)
  {
    hide OwnWeight, OwnInput, InWGrad, HiddenGrad, Dims;
    forall p, i | 0 <= p < Dims(b) ensures OwnWeight(b, t, Dims(b), p, i) == InWGrad(b, t, p, i) {
      WeightTotal(b, t, p, i);
    }
    forall r, i ensures OwnInput(b, t, Dims(b), r, i) == HiddenGrad(b, t, r, i) {
      HiddenTotal(b, t, r, i);
    }
  }

  /** The row's own projection, reversed. */
  method OwnScatter(b: Block, t: nat, proj: array<real>, inW: array2<real>, hidden: array2<real>)
    requires t < b.rows && inW != hidden && Vector(proj, Dims(b), p => ProjGrad(b, t, p))
    requires Matrix(inW, Dims(b), b.width, (p, i) => InWUpto(b, t, Channels(b), p, i))
    requires Matrix(hidden, b.rows, b.width, (r, i) => HiddenUpto(b, t, Channels(b), r, i))
    modifies inW, hidden
    ensures Matrix(inW, Dims(b), b.width, (p, i) => InWGrad(b, t, p, i))
    ensures Matrix(hidden, b.rows, b.width, (r, i) => HiddenGrad(b, t, r, i))
  {
    hide Mul, ProjGrad, InWUpto, HiddenUpto, OwnWeight, OwnInput, InWGrad, HiddenGrad, Dims, Channels;
    OwnSteps(b, t, 0);
    for p := 0 to Dims(b)
      invariant Matrix(inW, Dims(b), b.width, (q, i) => OwnWeight(b, t, p, q, i))
      invariant Matrix(hidden, b.rows, b.width, (r, i) => OwnInput(b, t, p, r, i))
    {
      OwnSteps(b, t, p);
      SpreadRow(b, t, p, proj[p], inW, hidden);
    }
    OwnTotals(b, t);
  }

  /** The row's projection gradient: the channels', the forget projections' and the gates'. */
  method Assemble(b: Block, t: nat, forget: array<real>, gates: array<real>, proj: array<real>)
    requires Vector(forget, b.fHeads, s => G.ForgetGrad(Core(b), t, s))
    requires Vector(gates, Features(b), f => GateGrad(b, t, f))
    requires proj !in {forget, gates} && proj.Length == Dims(b)
    requires forall c :: 0 <= c < Channels(b) ==> proj[c] == TapCoef(b, t, TAPS, c)
    modifies proj
    ensures Vector(proj, Dims(b), p => ProjGrad(b, t, p))
  {
    hide G.ForgetGrad, GateGrad, TapCoef, Core, Channels, Features;
    for s := 0 to b.fHeads
      invariant forall p :: 0 <= p < Channels(b) + s ==> proj[p] == ProjGrad(b, t, p)
    {
      proj[Channels(b) + s] := forget[s];
    }
    for f := 0 to Features(b)
      invariant forall p :: 0 <= p < GateAt(b) + f ==> proj[p] == ProjGrad(b, t, p)
    {
      proj[GateAt(b) + f] := gates[f];
    }
  }
}
