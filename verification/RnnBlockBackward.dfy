/** The M2RNN block's whole reverse sweep: for every row from the last, replay from the initial state, reverse the
    output side, the recurrence and the input side, and carry the state's cotangent on. */
module RnnBlockBackward {
  import opened Functions
  import opened Buffers
  import opened RnnModel
  import opened RnnKernel
  import opened RnnBackwardRow
  import opened RnnBlockModel
  import opened RnnBlockGradient
  import opened RnnBlockKernel
  import opened RnnBlockBackwardOut
  import opened RnnBlockBackwardConv
  import G = RnnGradient
  import RnnBackward

  // ---- the input side ----

  ghost predicate ConvHolds(b: Block, t: int, to: ConvBuffers)
    reads to.Repr()
  {
    && Vector(to.bias, Channels(b), c => ConvBGrad(b, t, c))
    && Matrix(to.weight, Channels(b), TAPS + 1, (c, k) => ConvWGrad(b, t, c, k))
    && Matrix(to.inW, Dims(b), b.width, (p, i) => InWGrad(b, t, p, i))
    && Matrix(to.hidden, b.rows, b.width, (r, i) => HiddenGrad(b, t, r, i))
  }

  lemma ConvStarted(b: Block, t: nat, to: ConvBuffers)
    requires ConvHolds(b, t + 1, to)
    ensures to.Done(b, t, 0)
  {
    hide ConvBGrad, ConvWGrad, InWGrad, HiddenGrad, Channels, Dims, TapsWeight, TapsInput, ConvBTerm, ConvWTerm;
  }

  lemma ConvEnded(b: Block, t: nat, to: ConvBuffers)
    requires t < b.rows && to.Done(b, t, Channels(b))
    ensures Vector(to.bias, Channels(b), c => ConvBGrad(b, t, c))
    ensures Matrix(to.weight, Channels(b), TAPS + 1, (c, k) => ConvWGrad(b, t, c, k))
  {
    hide InWGrad, HiddenGrad, InWUpto, HiddenUpto, Channels, Dims, ConvBTerm, ConvWTerm;
  }

  lemma BuffersDone(b: Block, t: nat, to: ConvBuffers)
    requires to.Done(b, t, Channels(b))
    ensures Matrix(to.inW, Dims(b), b.width, (p, i) => InWUpto(b, t, Channels(b), p, i))
    ensures Matrix(to.hidden, b.rows, b.width, (r, i) => HiddenUpto(b, t, Channels(b), r, i))
  {
    hide Vector, BiasUpto, WeightUpto, InWUpto, HiddenUpto, Channels, Dims;
  }

  /** The input side of row `t`: convolution and projection, reversed. */
  method InputBack(b: Block, t: nat, inputs: RnnBackward.Inputs, gates: array<real>, row: RowBuffers, to: ConvBuffers)
    requires t < b.rows && row.Holds(b, t) && inputs.Holds(Core(b), t)
    requires Vector(gates, Features(b), f => GateGrad(b, t, f)) && to.Apart() && ConvHolds(b, t + 1, to)
    requires to.Repr() !! inputs.Repr() && to.bias !in row.Repr() && to.bias != gates
    modifies to.bias, to.weight, to.inW, to.hidden
    ensures ConvHolds(b, t, to)
  {
    hide RowBuffers.Holds, RnnBackward.Inputs.Holds, ConvBuffers.Done, GateGrad, TapCoef, ConvBGrad, ConvWGrad, InWGrad,
         HiddenGrad, InWUpto, HiddenUpto, Core, Channels, Dims, Features, Matrix, Vector;
    ConvStarted(b, t, to);
    var proj := new real[Dims(b)];
    ConvBack(b, t, inputs, row, proj, to);
    ConvEnded(b, t, to);
    BuffersDone(b, t, to);
    InputForget(b, t, inputs);
    Assemble(b, t, inputs.forget, gates, proj);
    OwnScatter(b, t, proj, to.inW, to.hidden);
  }

  lemma InputForget(b: Block, t: int, inputs: RnnBackward.Inputs)
    requires inputs.Holds(Core(b), t)
    ensures Vector(inputs.forget, b.fHeads, s => G.ForgetGrad(Core(b), t, s))
  {
    hide G.ForgetGrad, G.QueryGrad, G.KeyGrad, G.ValueGrad, Core, Slots;
    CoreSizes(b);
  }

  // ---- one row ----

  ghost predicate OutHolds(b: Block, t: int, outW: array2<real>, scale: array<real>)
    reads outW, scale
  {
    && Matrix(outW, b.width, Features(b), (o, f) => OutWGrad(b, t, o, f))
    && Vector(scale, Features(b), f => ScaleGrad(b, t, f))
  }

  /** The gradient buffers. */
  datatype Grads = Grads(conv: ConvBuffers, outW: array2<real>, scale: array<real>, core: RnnBackward.Params) {
    ghost function Repr(): set<object> { conv.Repr() + {outW, scale} + core.Repr() }

    ghost predicate Apart() {
      && conv.Apart() && {outW, scale} !! conv.Repr() + core.Repr() && conv.Repr() !! core.Repr()
      && core.rate != core.bias
    }

    /** Rows `t` and later have been reversed. */
    ghost predicate Holds(b: Block, t: int)
      reads Repr()
    {
      ConvHolds(b, t, conv) && OutHolds(b, t, outW, scale) && core.Holds(Core(b), t)
    }
  }

  /** The state's cotangent before row `t`. */
  ghost predicate Carried(b: Block, t: int, stateGrad: array2<real>)
    reads stateGrad
  {
    Matrix(stateGrad, Cells(Core(b)), b.vals, (r, j) => G.StateGrad(Core(b), t, r, j))
  }

  method OutStage(b: Block, t: nat, row: RowBuffers, x: RowIn, next: array2<real>, outW: array2<real>,
                  scale: array<real>)
    returns (ups: RowUp, gates: array<real>)
    requires t < b.rows && row.Holds(b, t) && x.Reads(Core(b), t) && RnnKernel.Holds(Core(b), t + 1, next)
    requires OutHolds(b, t + 1, outW, scale) && outW != next && scale !in row.Repr()
    modifies outW, scale
    ensures ups.Reads(Core(b), t) && fresh(gates) && Vector(gates, Features(b), f => GateGrad(b, t, f))
    ensures OutHolds(b, t, outW, scale)
  {
    hide RowBuffers.Holds, RnnKernel.Holds, RowIn.Reads, RowUp.Reads, Core, Features, Matrix, Vector;
    ups, gates := OutBack(b, t, row, x, next, outW, scale);
  }

  method CoreStage(b: Block, t: nat, x: RowIn, ups: RowUp, recover: bool, prev: array2<real>, next: array2<real>,
                   stateGrad: array2<real>, params: RnnBackward.Params)
    returns (inputs: RnnBackward.Inputs)
    requires t < b.rows && x.Reads(Core(b), t) && ups.Reads(Core(b), t)
    requires RnnKernel.Holds(Core(b), t, prev) && RnnKernel.Holds(Core(b), t + 1, next)
    requires recover ==> Contracting(b.fns)
    requires Carried(b, t + 1, stateGrad) && params.Holds(Core(b), t + 1) && params.rate != params.bias
    requires {params.skip, stateGrad} !! {prev, next} && params.skip != stateGrad
    modifies stateGrad, params.w, params.rate, params.bias, params.skip
    ensures inputs.Holds(Core(b), t) && fresh(inputs.Repr())
    ensures params.Holds(Core(b), t) && Carried(b, t, stateGrad)
  {
    hide RnnKernel.Holds, RowIn.Reads, RowUp.Reads, RnnBackward.Params.Holds, RnnBackward.Inputs.Holds, Contracting,
         Core, Cells, Matrix;
    CoreShape(b);
    inputs := RnnBackward.ReverseRow(Core(b), t, x, ups, recover, prev, next, stateGrad, params);
  }

  lemma CoreShape(b: Block)
    ensures Core(b).rows == b.rows && Core(b).vals == b.vals && Core(b).fns == b.fns
  {
    hide ReadUp, Shared;
  }

  /** Row `t`, reversed from the states before and after it. */
  method Reverse(b: Block, t: nat, recover: bool, row: RowBuffers, prev: array2<real>, next: array2<real>,
                 stateGrad: array2<real>, to: Grads)
    requires t < b.rows && row.Holds(b, t) && (recover ==> Contracting(b.fns))
    requires RnnKernel.Holds(Core(b), t, prev) && RnnKernel.Holds(Core(b), t + 1, next)
    requires to.Apart() && {prev, next, stateGrad} !! to.Repr() && stateGrad !in {prev, next}
             && row.Repr() !! to.Repr()
    requires to.Holds(b, t + 1) && Carried(b, t + 1, stateGrad)
    modifies stateGrad, to.Repr()
    ensures to.Holds(b, t) && Carried(b, t, stateGrad)
  {
    hide RowBuffers.Holds, RowBuffers.Cut, RnnKernel.Holds, RowIn.Reads, RowUp.Reads, RnnBackward.Params.Holds,
         RnnBackward.Inputs.Holds, ConvHolds, OutHolds, Carried, GateGrad, Contracting, Core, Plain, Cells, Vector,
         Features;
    CoreHeads(b);
    var x := row.Cut(b, t, Core(b));
    var ups, gates := OutStage(b, t, row, x, next, to.outW, to.scale);
    var inputs := CoreStage(b, t, x, ups, recover, prev, next, stateGrad, to.core);
    InputBack(b, t, inputs, gates, row, to.conv);
  }

  /** Row `t`, replayed and reversed: every gradient buffer, and the carried cotangent. */
  method RowBack(b: Block, t: nat, recover: bool, prev: array2<real>, next: array2<real>, stateGrad: array2<real>,
                 to: Grads)
    requires t < b.rows && (recover ==> Contracting(b.fns))
    requires prev.Length0 == Cells(Core(b)) && prev.Length1 == b.vals
    requires next.Length0 == Cells(Core(b)) && next.Length1 == b.vals
    requires to.Apart() && {prev, next, stateGrad} !! to.Repr() && prev != next && stateGrad !in {prev, next}
    requires to.Holds(b, t + 1) && Carried(b, t + 1, stateGrad)
    modifies prev, next, stateGrad, to.Repr()
    ensures to.Holds(b, t) && Carried(b, t, stateGrad)
  {
    hide RowBuffers.Holds, RnnKernel.Holds, Grads.Holds, Grads.Apart, Carried, Contracting, Core, Plain, Cells;
    CoreHeads(b);
    var row := Replay(b, t, Core(b), prev, next);
    Reverse(b, t, recover, row, prev, next, stateGrad, to);
  }

  // ---- the sweep ----

  lemma NoTotals(b: Block)
    ensures forall c :: ConvBGrad(b, b.rows, c) == 0.0
    ensures forall c, k :: ConvWGrad(b, b.rows, c, k) == 0.0
    ensures forall p, i :: InWGrad(b, b.rows, p, i) == 0.0
    ensures forall r, i :: HiddenGrad(b, b.rows, r, i) == 0.0
    ensures forall o, f :: OutWGrad(b, b.rows, o, f) == 0.0
    ensures forall f :: ScaleGrad(b, b.rows, f) == 0.0
  {
    hide ConvBTerm, ConvWTerm, InWTerm, HiddenTerm, OutWTerm, ScaleTerm;
  }

  method NewConv(b: Block) returns (conv: ConvBuffers)
    ensures fresh(conv.Repr()) && conv.Apart() && ConvHolds(b, b.rows, conv)
  {
    hide ConvBGrad, ConvWGrad, InWGrad, HiddenGrad, OutWGrad, ScaleGrad, Channels, Dims;
    NoTotals(b);
    var bias := ZeroVector(Channels(b));
    var weight := ZeroMatrix(Channels(b), TAPS + 1);
    var inW := ZeroMatrix(Dims(b), b.width);
    var hidden := ZeroMatrix(b.rows, b.width);
    conv := ConvBuffers(bias, weight, inW, hidden);
  }

  method NewOut(b: Block) returns (outW: array2<real>, scale: array<real>)
    ensures fresh({outW}) && fresh({scale}) && OutHolds(b, b.rows, outW, scale)
  {
    hide ConvBGrad, ConvWGrad, InWGrad, HiddenGrad, OutWGrad, ScaleGrad, Features;
    NoTotals(b);
    outW := ZeroMatrix(b.width, Features(b));
    scale := ZeroVector(Features(b));
  }

  /** The zeroed gradient buffers and the zero cotangent of the last state. */
  method Start(b: Block) returns (to: Grads, stateGrad: array2<real>)
    ensures fresh(to.Repr()) && to.Apart() && to.Holds(b, b.rows)
    ensures fresh(stateGrad) && stateGrad !in to.Repr() && Carried(b, b.rows, stateGrad)
  {
    hide ConvHolds, OutHolds, RnnBackward.Params.Holds, Core, Cells, Matrix;
    CoreShape(b);
    var conv := NewConv(b);
    var outW, scale := NewOut(b);
    var core;
    core, stateGrad := RnnBackward.NewParams(Core(b));
    to := Grads(conv, outW, scale, core);
  }

  /** The whole reverse sweep over a block of any length.  Both emitted forms, recovering the tanh or recomputing it,
      leave the same gradients of the hidden rows, of every parameter and of the initial state. */
  method Backward(b: Block, recover: bool) returns (to: Grads, h0: array2<real>)
    requires recover ==> Contracting(b.fns)
    ensures to.Holds(b, 0) && Carried(b, 0, h0)
  {
    hide Grads.Holds, Grads.Apart, Carried, Contracting, Core, Cells;
    var prev, next := new real[Cells(Core(b)), b.vals], new real[Cells(Core(b)), b.vals];
    var stateGrad;
    to, stateGrad := Start(b);
    for t := b.rows downto 0
      invariant to.Holds(b, t) && Carried(b, t, stateGrad)
    {
      RowBack(b, t, recover, prev, next, stateGrad, to);
    }
    h0 := StateTotal(b, stateGrad);
  }

  /** The last carried cotangent, added to the zeroed gradient of the initial state. */
  method StateTotal(b: Block, stateGrad: array2<real>) returns (h0: array2<real>)
    requires Carried(b, 0, stateGrad)
    ensures fresh(h0) && Carried(b, 0, h0)
  {
    hide Core, Cells, Matrix;
    CoreShape(b);
    h0 := RnnBackward.StateTotal(Core(b), stateGrad);
  }
}
