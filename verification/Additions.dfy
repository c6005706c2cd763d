/** Programs that only add to memory cells, and what any run of one adds to each cell. */
module Additions {
  import opened Sums
  import opened AnyOrder

  /** One addition of `value` to `cell`. */
  datatype Add<C> = Add(cell: C, value: real)

  /** What `a` adds to `c`. */
  ghost function At<C>(a: Add<C>, c: C): real { if a.cell == c then a.value else 0.0 }

  /** What the additions of `run` add to `c` between them. */
  ghost function Total<C>(run: seq<Add<C>>, c: C): real { SeqSum(run, (a: Add<C>) => At(a, c)) }

  /** The additions of a loop's iterations, one after the other. */
  ghost function Loop<C>(n: nat, body: int -> seq<Add<C>>): seq<Add<C>> {
    if n == 0 then [] else Loop(n - 1, body) + body(n - 1)
  }

  lemma {:induction false} TotalConcat<C>(a: seq<Add<C>>, b: seq<Add<C>>, c: C)
    ensures Total(a + b, c) == Total(a, c) + Total(b, c)
    decreases |b|
  {
    if b == [] {
      assert a + b == a;
    } else {
      var last := |b| - 1;
      TotalConcat(a, b[..last], c);
      assert (a + b)[..|a + b| - 1] == a + b[..last];
    }
  }

  lemma TotalOne<C>(a: Add<C>, c: C)
    ensures Total([a], c) == At(a, c)
  {
    var run, f := [a], (x: Add<C>) => At(x, c);
    assert run[..0] == [];
    assert SeqSum(run, f) == SeqSum(run[..0], f) + f(run[0]);
  }

  lemma TotalTwo<C>(a: Add<C>, b: Add<C>, c: C)
    ensures Total([a, b], c) == At(a, c) + At(b, c)
  {
    TotalOne(a, c);
    TotalOne(b, c);
    TotalConcat([a], [b], c);
    assert [a] + [b] == [a, b];
  }

  lemma TotalThree<C>(a: Add<C>, b: Add<C>, d: Add<C>, c: C)
    ensures Total([a, b, d], c) == At(a, c) + At(b, c) + At(d, c)
  {
    TotalTwo(a, b, c);
    TotalOne(d, c);
    TotalConcat([a, b], [d], c);
    assert [a, b] + [d] == [a, b, d];
  }

  lemma TotalFour<C>(a: Add<C>, b: Add<C>, d: Add<C>, e: Add<C>, c: C)
    ensures Total([a, b, d, e], c) == At(a, c) + At(b, c) + At(d, c) + At(e, c)
  {
    TotalTwo(a, b, c);
    TotalTwo(d, e, c);
    TotalConcat([a, b], [d, e], c);
    assert [a, b] + [d, e] == [a, b, d, e];
  }

  /** Performing one pending addition, whichever, takes it from what is pending. */
  lemma TotalRemove<C>(run: seq<Add<C>>, i: nat, c: C)
    requires i < |run|
    ensures Total(run, c) == Total(run[..i] + run[i + 1..], c) + At(run[i], c)
  {
    SeqSumRemove(run, i, (a: Add<C>) => At(a, c));
  }

  lemma {:induction false} LoopTotal<C>(n: nat, body: int -> seq<Add<C>>, c: C, f: int -> real)
    requires forall i {:trigger body(i)} :: 0 <= i < n ==> Total(body(i), c) == f(i)
    ensures Total(Loop(n, body), c) == Sum(n, f)
    decreases n
  {
    hide Total;
    if n == 0 {
      NoAdditions(c);
    } else {
      LoopTotal(n - 1, body, c, f);
      TotalConcat(Loop(n - 1, body), body(n - 1), c);
    }
  }

  lemma NoAdditions<C>(c: C)
    ensures Total([], c) == 0.0
  {
  }

  /** Only iteration `k` adds to `c`. */
  lemma LoopOne<C>(n: nat, body: int -> seq<Add<C>>, c: C, k: int, v: real)
    requires 0 <= k < n
    requires forall i {:trigger body(i)} :: 0 <= i < n ==> Total(body(i), c) == if i == k then v else 0.0
    ensures Total(Loop(n, body), c) == v
  {
    hide Total, Loop;
    var f := (i: int) => if i == k then v else 0.0;
    LoopTotal(n, body, c, f);
    SumDelta(n, k, f);
  }

  /** No iteration adds to `c`. */
  lemma LoopNone<C>(n: nat, body: int -> seq<Add<C>>, c: C)
    requires forall i {:trigger body(i)} :: 0 <= i < n ==> Total(body(i), c) == 0.0
    ensures Total(Loop(n, body), c) == 0.0
  {
    hide Total, Loop;
    LoopTotal(n, body, c, i => 0.0);
    SumZero(n, i => 0.0);
  }
}
