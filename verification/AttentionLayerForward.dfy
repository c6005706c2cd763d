/** The attention layer's forward over the quantised queries and key-values: every head's context of a row, then the
    output projection. */
module AttentionLayerForward {
  import opened Sums
  import opened Buffers
  import opened AttentionModel
  import opened AttentionKernel
  import opened AttentionLayer

  /** What the forward kernel writes for the contexts and for the output. */
  ghost function ForwardAt(b: Layer, r: int, p: int): real { ForwardContext(Head(b, p / Dims(b)), r, p % Dims(b)) }
  ghost function ForwardOut(b: Layer, r: int, o: int): real { Sum(Wide(b), p => Mul(ForwardAt(b, r, p), b.outW(o, p))) }

  /** Where the two kernels' sums of exponentials agree in every head, the forward's output is the one whose gradients
      the backward computes. */
  lemma OutputsAgree(b: Layer, r: nat, o: int)
    requires r < b.rows && forall h {:trigger Head(b, h)} :: 0 <= h < b.heads ==>
             ForwardSumExp(Head(b, h), r) == SumExp(Head(b, h), r)
    ensures ForwardOut(b, r, o) == Out(b, r, o)
  {
    hide Sum, Mul, ForwardSumExp, SumExp, ForwardContext, AttentionAdjoint.Context, Head;
    var x, y := (p: int) => Mul(ForwardAt(b, r, p), b.outW(o, p)), (p: int) => Mul(Context(b, r, p), b.outW(o, p));
    forall p | 0 <= p < Wide(b) ensures x(p) == y(p) {
      Indices.DivRange(p, b.heads, Dims(b));
      assert 0 <= p / Dims(b) < b.heads;
      HeadSizes(b, p / Dims(b));
      assert ForwardSumExp(Head(b, p / Dims(b)), r) == SumExp(Head(b, p / Dims(b)), r);
      ContextsAgree(Head(b, p / Dims(b)), r, p % Dims(b));
      assert ForwardAt(b, r, p) == Context(b, r, p);
    }
    SumEq(Wide(b), x, y);
  }

  /** The index table serves every head. */
  method Tables(b: Layer) returns (indices: array2<int>)
    ensures fresh(indices) && forall h :: 0 <= h < b.heads ==> Table(Head(b, h), indices)
  {
    hide ContextUp;
    indices := BuildTable(Head(b, 0));
  }

  /** The log-sum-exp of one head. */
  ghost function Stored(b: Layer, r: int, h: int): real { LogSumExp(Head(b, h), b.log, r) }

  /** All heads' contexts of row `r`, and their log-sum-exps. */
  method ContextRow(b: Layer, r: nat, indices: array2<int>, stored: array2<real>) returns (contexts: array<real>)
    requires r < b.rows && forall h :: 0 <= h < b.heads ==> Table(Head(b, h), indices)
    requires stored.Length0 == b.rows && stored.Length1 == b.heads
    modifies stored
    ensures forall q, h :: 0 <= q < b.rows && 0 <= h < b.heads ==>
              stored[q, h] == if q == r then Stored(b, r, h) else old(stored[q, h])
    ensures fresh(contexts) && Vector(contexts, Wide(b), p => ForwardAt(b, r, p))
  {
    hide ForwardContext, ForwardAt, Table, Head, Dims, InHead, LogSumExp;
    contexts := new real[Wide(b)];
    assert 0 * Dims(b) == 0;
    for h := 0 to b.heads
      invariant forall k :: 0 <= k < b.heads ==> Table(Head(b, k), indices)
      invariant forall p :: 0 <= p < Wide(b) && p < h * Dims(b) ==> contexts[p] == ForwardAt(b, r, p)
      invariant forall q, k :: 0 <= q < b.rows && 0 <= k < b.heads ==>
                  stored[q, k] == if q == r && k < h then Stored(b, r, k) else old(stored[q, k])
    {
      HeadSizes(b, h);
      HeadColumns(b, h);
      HeadSteps(b, h);
      var context;
      context, stored[r, h] := ContextForward(Head(b, h), b.log, r, indices);
      PlaceHead(b, h, r, context, contexts);
    }
  }

  method PlaceHead(b: Layer, h: nat, r: nat, context: array<real>, contexts: array<real>)
    requires h < b.heads && contexts.Length == Wide(b) && context != contexts
    requires Vector(context, Dims(b), d => ForwardContext(Head(b, h), r, d))
    modifies contexts
    ensures forall p :: 0 <= p < Wide(b) ==>
              contexts[p] == if InHead(b, h, p) then ForwardAt(b, r, p) else old(contexts[p])
  {
    hide ForwardContext, Head, Wide, Dims;
    HeadColumns(b, h);
    for d := 0 to Dims(b)
      invariant forall p :: 0 <= p < Wide(b) ==>
                contexts[p] == if InHead(b, h, p) && p < h * Dims(b) + d then ForwardAt(b, r, p) else old(contexts[p])
    {
      assert InHead(b, h, h * Dims(b) + d);
      contexts[h * Dims(b) + d] := context[d];
    }
  }

  method OutCell(b: Layer, r: nat, contexts: array<real>, o: nat) returns (accum: real)
    requires Vector(contexts, Wide(b), p => ForwardAt(b, r, p))
    ensures accum == ForwardOut(b, r, o)
  {
    hide ForwardAt, Mul, Wide;
    accum := 0.0;
    for p := 0 to Wide(b)
      invariant accum == Sum(p, k => Mul(ForwardAt(b, r, k), b.outW(o, k)))
    {
      accum := accum + Mul(contexts[p], b.outW(o, p));
    }
  }

  /** Row `r`'s output and log-sum-exps. */
  method ForwardRow(b: Layer, r: nat, indices: array2<int>, stored: array2<real>, out: array2<real>)
    requires r < b.rows && forall h :: 0 <= h < b.heads ==> Table(Head(b, h), indices)
    requires out.Length0 == b.rows && out.Length1 == b.width && out != stored
    requires stored.Length0 == b.rows && stored.Length1 == b.heads
    modifies out, stored
    ensures forall q, h :: 0 <= q < b.rows && 0 <= h < b.heads ==>
              stored[q, h] == if q == r then Stored(b, r, h) else old(stored[q, h])
    ensures forall q, o :: 0 <= q < b.rows && 0 <= o < b.width ==>
              out[q, o] == if q == r then ForwardOut(b, r, o) else old(out[q, o])
  {
    hide ForwardAt, ForwardOut, Stored, Table, Head, Wide;
    var contexts := ContextRow(b, r, indices, stored);
    for o := 0 to b.width
      invariant Vector(contexts, Wide(b), p => ForwardAt(b, r, p))
      invariant forall q, h :: 0 <= q < b.rows && 0 <= h < b.heads ==>
                  stored[q, h] == if q == r then Stored(b, r, h) else old(stored[q, h])
      invariant forall q, k :: 0 <= q < b.rows && 0 <= k < b.width ==>
                  out[q, k] == if q == r && k < o then ForwardOut(b, r, k) else old(out[q, k])
    {
      out[r, o] := OutCell(b, r, contexts, o);
    }
  }

  /** The forward of all rows: the outputs, and every head's log-sum-exp of every row. */
  method Forward(b: Layer) returns (out: array2<real>, stored: array2<real>)
    ensures Matrix(out, b.rows, b.width, (r, o) => ForwardOut(b, r, o))
    ensures Matrix(stored, b.rows, b.heads, (r, h) => Stored(b, r, h))
  {
    hide ForwardOut, Stored, Table, Head;
    var indices := Tables(b);
    out, stored := new real[b.rows, b.width], new real[b.rows, b.heads];
    for r := 0 to b.rows
      invariant forall h :: 0 <= h < b.heads ==> Table(Head(b, h), indices)
      invariant forall q, o :: 0 <= q < r && 0 <= o < b.width ==> out[q, o] == ForwardOut(b, q, o)
      invariant forall q, h :: 0 <= q < r && 0 <= h < b.heads ==> stored[q, h] == Stored(b, q, h)
    {
      ForwardRow(b, r, indices, stored, out);
    }
  }
}
