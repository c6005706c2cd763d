/** The block's atomic additions to the gradient of the cumulative decays, in any order. */
module ChunkAtomics {
  import opened Sums
  import opened AnyOrder
  import opened Buffers
  import opened Indices
  import opened ChunkModel
  import opened ChunkReal
  import opened ChunkAdjoint
  import opened ChunkTotals
  import opened ChunkTheorem
  import Kernel = ChunkKernel
  import Lanes = LaneReduction
  import Stages

  // ---- the dC block's additions ----

  ghost function OffKey(k: Chunk<real>): int -> int { q => if k.states == 0 then 0 else q / k.states }

  ghost function OffValue(k: Chunk<real>): int -> real {
    q => if k.states == 0 then 0.0 else OffTerm(k, q / k.states, q % k.states)
  }

  method ScatterOff(k: Chunk<real>, off: array2<real>, acc: array<real>, order: seq<int>)
    requires Kernel.Holds(off, k.len, k.states, (l, n) => OffTerm(k, l, n)) && acc.Length == k.len
    requires Permutation(order, k.len * k.states)
    modifies acc
    ensures forall l :: 0 <= l < k.len ==> acc[l] == old(acc[l]) + OffSum(k, l)
  {
    hide OffTerm, OffSum, Permutation, Share, SeqSum;
    NoneAdded(order, OffKey(k), OffValue(k));
    for i := 0 to |order|
      invariant forall l :: 0 <= l < k.len ==>
                acc[l] == old(acc[l]) + SeqSum(order[..i], Share(OffKey(k), OffValue(k), l))
    {
      var q := order[i];
      InRange(order, k.len * k.states, i);
      if k.states == 0 {
        assert false;
      }
      DivRange(q, k.len, k.states);
      ShareStep(order, i, OffKey(k), OffValue(k));
      AddEntry(acc, q / k.states, off[q / k.states, q % k.states]);
    }
    ShareAll(order, k.len * k.states, OffKey(k), OffValue(k));
    OffKeyed(k);
  }

  lemma OffKeyed(k: Chunk<real>)
    ensures forall l :: 0 <= l < k.len ==> Keyed(k.len * k.states, OffKey(k), OffValue(k), l) == OffSum(k, l)
  {
    hide Sum, OffTerm;
    forall l | 0 <= l < k.len ensures Keyed(k.len * k.states, OffKey(k), OffValue(k), l) == OffSum(k, l) {
      var key, w := OffKey(k), OffValue(k);
      var f := (q: int) => if key(q) == l then w(q) else 0.0;
      var rows := (i: int) => Sum(k.states, n => f(i * k.states + n));
      SumFlatten(k.len, k.states, f);
      forall i ensures rows(i) == if i == l then OffSum(k, l) else 0.0 {
        OffRowShare(k, l, i, n => f(i * k.states + n));
      }
      SumDelta(k.len, l, rows);
    }
  }

  lemma OffRowShare(k: Chunk<real>, l: int, i: int, cells: int -> real)
    requires forall n {:trigger cells(n)} ::
             cells(n) == if OffKey(k)(i * k.states + n) == l then OffValue(k)(i * k.states + n) else 0.0
    ensures Sum(k.states, cells) == if i == l then OffSum(k, l) else 0.0
  {
    hide Sum, OffTerm;
    forall n | 0 <= n < k.states ensures cells(n) == if i == l then OffTerm(k, l, n) else 0.0 {
      DivMod(i, n, k.states);
    }
    if i == l {
      SumEq(k.states, cells, n => OffTerm(k, l, n));
    } else {
      SumZero(k.states, cells);
    }
  }

  // ---- the segment additions: two per pair of rows, each on its own ----

  /** Addition `q` belongs to the pair of rows numbered `q / 2`; even ones give to the closing row, odd ones
      take from the opening row. */
  ghost function SegKey(k: Chunk<real>): int -> int {
    q => if k.len == 0 then 0 else if q % 2 == 0 then q / 2 / k.len else q / 2 % k.len
  }

  ghost function SegValue(k: Chunk<real>): int -> real {
    q => if k.len == 0 then 0.0 else if q % 2 == 0 then Dseg(k, q / 2 / k.len, q / 2 % k.len)
      else -Dseg(k, q / 2 / k.len, q / 2 % k.len)
  }

  method SegTerm(k: Chunk<real>, dyx: array2<real>, l: nat, s: nat) returns (dseg: real)
    requires l < k.len && s < k.len && Kernel.Holds(dyx, k.len, k.len, (l, s) => Dyx(k, l, s))
    ensures dseg == Dseg(k, l, s)
  {
    hide Dyx, Lmat;
    var tri := if s < l then k.ops.one else k.ops.zero;
    dseg := k.ops.mul(k.ops.mul(k.ops.mul(k.ops.mul(dyx[l, s], k.cb(l, s)), Lmat(k, l, s)), k.dt(s)), tri);
  }

  method ScatterSeg(k: Chunk<real>, dyx: array2<real>, acc: array<real>, order: seq<int>)
    requires Kernel.Holds(dyx, k.len, k.len, (l, s) => Dyx(k, l, s)) && acc.Length == k.len
    requires Permutation(order, 2 * (k.len * k.len))
    modifies acc
    ensures forall l :: 0 <= l < k.len ==> acc[l] == old(acc[l]) + SegNet(k, l)
  {
    hide Dseg, SegNet, Permutation, Share, SeqSum, Dyx, Kernel.Holds;
    NoneAdded(order, SegKey(k), SegValue(k));
    for i := 0 to |order|
      invariant Kernel.Holds(dyx, k.len, k.len, (l, s) => Dyx(k, l, s))
      invariant forall l :: 0 <= l < k.len ==>
                acc[l] == old(acc[l]) + SeqSum(order[..i], Share(SegKey(k), SegValue(k), l))
    {
      var q := order[i];
      InRange(order, 2 * (k.len * k.len), i);
      if k.len == 0 {
        assert false;
      }
      PairRange(k, q);
      ShareStep(order, i, SegKey(k), SegValue(k));
      var l, s := q / 2 / k.len, q / 2 % k.len;
      var dseg := SegTerm(k, dyx, l, s);
      if q % 2 == 0 {
        AddEntry(acc, l, dseg);
      } else {
        AddEntry(acc, s, -dseg);
      }
    }
    ShareAll(order, 2 * (k.len * k.len), SegKey(k), SegValue(k));
    SegKeyed(k);
  }

  lemma PairRange(k: Chunk<real>, q: int)
    requires 0 < k.len && 0 <= q < 2 * (k.len * k.len)
    ensures 0 <= q / 2 / k.len < k.len && 0 <= q / 2 % k.len < k.len
  {
    DivRange(q / 2, k.len, k.len);
  }

  lemma SegKeyed(k: Chunk<real>)
    ensures forall l :: 0 <= l < k.len ==> Keyed(2 * (k.len * k.len), SegKey(k), SegValue(k), l) == SegNet(k, l)
  {
    hide Sum, SegNet;
    forall l | 0 <= l < k.len ensures Keyed(2 * (k.len * k.len), SegKey(k), SegValue(k), l) == SegNet(k, l) {
      SegKeyedAt(k, l);
    }
  }

  /** What pair (i, j) of rows contributes to row `l`. */
  ghost function PairShare(k: Chunk<real>, l: int, i: int, j: int): real {
    (if i == l then Dseg(k, i, j) else 0.0) - if j == l then Dseg(k, i, j) else 0.0
  }

  /** What the two additions of pair number `x` contribute to row `l`. */
  ghost function PairAt(k: Chunk<real>, l: int, x: int): real {
    (if SegKey(k)(2 * x) == l then SegValue(k)(2 * x) else 0.0)
      + if SegKey(k)(2 * x + 1) == l then SegValue(k)(2 * x + 1) else 0.0
  }

  lemma SegKeyedAt(k: Chunk<real>, l: int)
    requires 0 <= l < k.len
    ensures Keyed(2 * (k.len * k.len), SegKey(k), SegValue(k), l) == SegNet(k, l)
  {
    hide *;
    var pairs := (x: int) => PairAt(k, l, x);
    var rows, shares := (i: int) => Sum(k.len, j => pairs(i * k.len + j)),
        (i: int) => Sum(k.len, j => PairShare(k, l, i, j));
    SumPairsOf(k, l, pairs);
    SumFlatten(k.len, k.len, pairs);
    forall i | 0 <= i < k.len ensures rows(i) == shares(i) {
      PairRow(k, l, i, j => pairs(i * k.len + j));
    }
    SumEq(k.len, rows, shares);
    NetForm(k, l, shares);
  }

  lemma SumPairsOf(k: Chunk<real>, l: int, pairs: int -> real)
    requires forall x {:trigger pairs(x)} :: pairs(x) == PairAt(k, l, x)
    ensures Keyed(2 * (k.len * k.len), SegKey(k), SegValue(k), l) == Sum(k.len * k.len, pairs)
  {
    hide Sum, SegKey, SegValue;
    var key, w := SegKey(k), SegValue(k);
    var f := (q: int) => if key(q) == l then w(q) else 0.0;
    Stages.SumPairs(k.len * k.len, f);
    SumEq(k.len * k.len, pairs, j => f(2 * j) + f(2 * j + 1));
  }

  lemma PairRow(k: Chunk<real>, l: int, i: int, cells: int -> real)
    requires 0 < k.len
    requires forall j {:trigger cells(j)} :: cells(j) == PairAt(k, l, i * k.len + j)
    ensures Sum(k.len, cells) == Sum(k.len, j => PairShare(k, l, i, j))
  {
    hide Sum, Dseg;
    var shares := (j: int) => PairShare(k, l, i, j);
    forall j | 0 <= j < k.len ensures cells(j) == shares(j) {
      DivMod(i, j, k.len);
      Halves(i * k.len + j);
    }
    SumEq(k.len, cells, shares);
  }

  lemma Halves(x: int)
    ensures 2 * x / 2 == x && (2 * x + 1) / 2 == x && 2 * x % 2 == 0 && (2 * x + 1) % 2 == 1
  {
  }

  lemma NetForm(k: Chunk<real>, l: int, shares: int -> real)
    requires 0 <= l < k.len
    requires forall i {:trigger shares(i)} :: shares(i) == Sum(k.len, j => PairShare(k, l, i, j))
    ensures Sum(k.len, shares) == SegNet(k, l)
  {
    hide Sum, Dseg;
    var give, take := (i: int) => if i == l then Sum(k.len, s => Dseg(k, l, s)) else 0.0, (i: int) => Dseg(k, i, l);
    forall i ensures give(i) == shares(i) + take(i) {
      GiveTake(k, l, i, j => PairShare(k, l, i, j));
    }
    SumAdd(k.len, give, shares, take);
    SumDelta(k.len, l, give);
    SumEq(k.len, take, s => Dseg(k, s, l));
  }

  lemma GiveTake(k: Chunk<real>, l: int, i: int, shares: int -> real)
    requires 0 <= l < k.len
    requires forall j {:trigger shares(j)} :: shares(j) == PairShare(k, l, i, j)
    ensures (if i == l then Sum(k.len, s => Dseg(k, l, s)) else 0.0) == Sum(k.len, shares) + Dseg(k, i, l)
  {
    hide Sum, Dseg;
    var give, take := (j: int) => if i == l then Dseg(k, i, j) else 0.0,
                      (j: int) => if j == l then Dseg(k, i, j) else 0.0;
    SumAdd(k.len, give, shares, take);
    SumDelta(k.len, l, take);
    if i == l {
      SumEq(k.len, give, s => Dseg(k, l, s));
    } else {
      SumZero(k.len, give);
    }
  }

  /** The gradient of the cumulative decays: zeroed, then added to by both phases of atomics.  Whatever the
      orders, it ends as the gradient that the adjoint theorem and the conservation law speak of. */
  method DecayGrad(k: Chunk<real>, off: array2<real>, dyx: array2<real>, offOrder: seq<int>, segOrder: seq<int>)
    returns (acc: array<real>)
    requires Kernel.Holds(off, k.len, k.states, (l, n) => OffTerm(k, l, n))
             && Kernel.Holds(dyx, k.len, k.len, (l, s) => Dyx(k, l, s))
    requires Permutation(offOrder, k.len * k.states) && Permutation(segOrder, 2 * (k.len * k.len))
    ensures fresh(acc) && Vector(acc, k.len, l => DAcs(k, l))
  {
    hide OffTerm, Dyx, OffSum, SegNet, Permutation, Kernel.Holds;
    acc := ZeroVector(k.len);
    ScatterOff(k, off, acc, offOrder);
    ScatterSeg(k, dyx, acc, segOrder);
  }

  // ---- the skip connection's weight ----

  ghost function SkipValue(k: Chunk<real>): int -> real {
    q => if k.dims == 0 then 0.0 else Mul(DY(k, q / k.dims, q % k.dims), k.x(q / k.dims, q % k.dims))
  }

  /** One lane's share of the gradient of D: the flat indices it strides over. */
  method SkipPartial(k: Chunk<real>, threads: nat, lane: nat, dY: array2<real>) returns (partial: real)
    requires lane < threads && Kernel.Holds(dY, k.len, k.dims, (l, p) => DY(k, l, p))
    ensures partial == Sum(k.len * k.dims, Lanes.Owned(threads, lane, SkipValue(k)))
  {
    hide Sum, Lanes.Owned, Lanes.OnLane, DY, Mul;
    var total := k.len * k.dims;
    partial := 0.0;
    Lanes.BeforeFirst(threads, lane, SkipValue(k), total);
    var q := lane;
    while q < total
      invariant 0 <= q && Lanes.OnLane(threads, lane, q)
      invariant partial == Sum(Least(q, total), Lanes.Owned(threads, lane, SkipValue(k)))
      decreases total - q
    {
      Lanes.Stride(threads, lane, SkipValue(k), q, total);
      Lanes.SameLane(threads, lane, q);
      if k.dims == 0 {
        assert false;
      }
      DivRange(q, k.len, k.dims);
      partial := partial + Mul(dY[q / k.dims, q % k.dims], k.x(q / k.dims, q % k.dims));
      q := q + threads;
    }
  }

  /** What one lane adds to the gradient of D. */
  ghost function LaneShare(k: Chunk<real>, threads: nat): int -> real
    requires 0 < threads
  {
    lane => Sum(k.len * k.dims, Lanes.Owned(threads, lane, SkipValue(k)))
  }

  /** The gradient of D: every lane sums its own terms, then the lanes add their partial sums atomically, in any
      order. */
  method SkipGrad(k: Chunk<real>, threads: nat, dY: array2<real>, lanes: seq<int>) returns (acc: real)
    requires 0 < threads && Kernel.Holds(dY, k.len, k.dims, (l, p) => DY(k, l, p)) && Permutation(lanes, threads)
    ensures acc == DD(k)
  {
    hide Sum, DY, Permutation, SeqSum, SkipValue, DD, Lanes.Owned, Kernel.Holds;
    acc := 0.0;
    ghost var share := LaneShare(k, threads);
    NoTerms(lanes, share);
    for i := 0 to |lanes|
      invariant acc == SeqSum(lanes[..i], share)
    {
      InRange(lanes, threads, i);
      TermStep(lanes, i, share);
      var partial := SkipPartial(k, threads, lanes[i], dY);
      acc := acc + partial;
    }
    assert lanes[..|lanes|] == lanes;
    SumAnyOrder(lanes, threads, share);
    Lanes.LanesPartition(threads, k.len * k.dims, SkipValue(k));
    SumEq(threads, share, lane => Sum(k.len * k.dims, Lanes.Owned(threads, lane, SkipValue(k))));
    SkipFlat(k);
  }

  lemma SkipFlat(k: Chunk<real>)
    ensures Sum(k.len * k.dims, SkipValue(k)) == DD(k)
  {
    hide Sum, DY, Mul;
    var f, cells := SkipValue(k), (l: int, p: int) => Mul(DY(k, l, p), k.x(l, p));
    SumFlatten(k.len, k.dims, f);
    var rows := (l: int) => Sum(k.dims, p => f(l * k.dims + p));
    forall l ensures rows(l) == Stages.Row(k.dims, cells, l) {
      SkipRow(k, l, p => f(l * k.dims + p), p => cells(l, p));
    }
    SumEq(k.len, rows, l => Stages.Row(k.dims, cells, l));
  }

  lemma SkipRow(k: Chunk<real>, l: int, flat: int -> real, cells: int -> real)
    requires forall p {:trigger flat(p)} :: flat(p) == SkipValue(k)(l * k.dims + p)
    requires forall p {:trigger cells(p)} :: cells(p) == Mul(DY(k, l, p), k.x(l, p))
    ensures Sum(k.dims, flat) == Sum(k.dims, cells)
  {
    hide Sum, DY, Mul;
    forall p | 0 <= p < k.dims ensures flat(p) == cells(p) {
      DivMod(l, p, k.dims);
    }
    SumEq(k.dims, flat, cells);
  }

  // ---- everything ----

  lemma ZeroIsLeftUnit(k: Chunk<real>)
    requires Real(k.ops)
    ensures LeftUnit(k.ops)
  {
  }

  /** The block with its scatters: whatever the emitted variant, the lane count and the orders of the atomic
      additions, the buffers end as the gradients that the adjoint theorem and the conservation law speak of. */
  method Backward(k: Chunk<real>, threads: nat, staged: bool, rows: bool, offOrder: seq<int>, segOrder: seq<int>,
                  lanes: seq<int>)
    returns (out: Kernel.Outputs<real>, dacs: array<real>, dD: real)
    requires 0 < threads && Real(k.ops)
    requires Permutation(offOrder, k.len * k.states) && Permutation(segOrder, 2 * (k.len * k.len))
    requires Permutation(lanes, threads)
    ensures out.Hold(k) && Vector(dacs, k.len, l => DAcs(k, l)) && dD == DD(k)
  {
    hide Permutation, Real, Kernel.Holds3, DD, DAcs, DY, Dyx, OffTerm;
    ZeroIsLeftUnit(k);
    out := Kernel.Block(k, threads, staged, rows);
    dD := SkipGrad(k, threads, out.dY, lanes);
    dacs := DecayGrad(k, out.off, out.dyx, offOrder, segOrder);
  }
}
