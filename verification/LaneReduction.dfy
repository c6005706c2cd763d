/** The two-level reduction of a row: every lane sums the entries it strides over, then one lane sums the
    partial sums.  The result is the plain row sum, whatever the number of lanes. */
module LaneReduction {
  import opened Sums
  import opened Stages
  import opened Indices

  /** Entry `i` if lane `lane` of `lanes` owns it. */
  ghost function Owned(lanes: int, lane: int, f: int -> real): int -> real
    requires 0 < lanes
  {
    i => if i % lanes == lane then f(i) else 0.0
  }

  ghost predicate OnLane(lanes: int, lane: int, i: int)
    requires 0 < lanes
  {
    i % lanes == lane
  }

  lemma SameLane(lanes: nat, lane: int, i: nat)
    requires 0 < lanes && OnLane(lanes, lane, i)
    ensures OnLane(lanes, lane, i + lanes)
  {
    var q, r := i / lanes, i % lanes;
    assert i + lanes == (q + 1) * lanes + r;
    DivMod(q + 1, r, lanes);
  }

  /** One stride: of the next `lanes` entries the lane owns the first only. */
  lemma Stride(lanes: nat, lane: int, f: int -> real, i: nat, n: nat)
    requires 0 < lanes && i < n && OnLane(lanes, lane, i)
    ensures Sum(Least(i + lanes, n), Owned(lanes, lane, f)) == Sum(i, Owned(lanes, lane, f)) + f(i)
  {
    hide Sum;
    var g, count := Owned(lanes, lane, f), Least(i + lanes, n) - i;
    SumSplit(i, count, g);
    var rest := (x: int) => g(i + x);
    forall x | 0 <= x < count && x != 0 ensures rest(x) == 0.0 {
      NextOwner(i, x, lanes);
    }
    SumDelta(count, 0, rest);
  }

  lemma NextOwner(i: nat, x: nat, lanes: nat)
    requires 0 < x < lanes
    ensures (i + x) % lanes != i % lanes
  {
    var q, r := i / lanes, i % lanes;
    assert i == q * lanes + r;
    if r + x < lanes {
      assert (i + x) == q * lanes + (r + x);
      DivMod(q, r + x, lanes);
    } else {
      assert (i + x) == (q + 1) * lanes + (r + x - lanes);
      DivMod(q + 1, r + x - lanes, lanes);
    }
  }

  lemma BeforeFirst(lanes: nat, lane: nat, f: int -> real, n: nat)
    requires lane < lanes
    ensures OnLane(lanes, lane, lane)
    ensures Sum(Least(lane, n), Owned(lanes, lane, f)) == 0.0
  {
    hide Sum;
    forall i | 0 <= i <= lane ensures i % lanes == i {
      DivMod(0, i, lanes);
    }
    SumZero(Least(lane, n), Owned(lanes, lane, f));
  }

  /** One lane's partial sum. */
  method Partial(lanes: nat, lane: nat, n: nat, f: int -> real) returns (partial: real)
    requires lane < lanes
    ensures partial == Sum(n, Owned(lanes, lane, f))
  {
    hide Sum, Owned, OnLane;
    partial := 0.0;
    BeforeFirst(lanes, lane, f, n);
    var i := lane;
    while i < n
      invariant 0 <= i && OnLane(lanes, lane, i) && partial == Sum(Least(i, n), Owned(lanes, lane, f))
      decreases n - i
    {
      Stride(lanes, lane, f, i, n);
      SameLane(lanes, lane, i);
      partial := partial + f(i);
      i := i + lanes;
    }
  }

  /** Every entry is owned exactly once: the lanes' shares add up to the row. */
  lemma LanesPartition(lanes: nat, n: nat, f: int -> real)
    requires 0 < lanes
    ensures Sum(lanes, lane => Sum(n, Owned(lanes, lane, f))) == Sum(n, f)
  {
    hide Sum;
    var shares, cells := (lane: int, i: int) => Owned(lanes, lane, f)(i),
        (i: int, lane: int) => Owned(lanes, lane, f)(i);
    var rows := (lane: int) => Sum(n, Owned(lanes, lane, f));
    forall lane ensures rows(lane) == Row(n, shares, lane) {
      SumEq(n, Owned(lanes, lane, f), i => shares(lane, i));
    }
    SumEq(lanes, rows, lane => Row(n, shares, lane));
    Sum2Swap(lanes, n, shares, cells);
    forall i | 0 <= i < n ensures Row(lanes, cells, i) == f(i) {
      SumDelta(lanes, i % lanes, lane => cells(i, lane));
    }
    SumEq(n, i => Row(lanes, cells, i), f);
  }

  /** The reduction: partial sums in every lane, then their sum in lane 0. */
  method Reduce(lanes: nat, n: nat, f: int -> real) returns (total: real)
    requires 0 < lanes
    ensures total == Sum(n, f)
  {
    hide Sum, Owned;
    var partials := new real[lanes];
    for lane := 0 to lanes
      invariant forall x :: 0 <= x < lane ==> partials[x] == Sum(n, Owned(lanes, x, f))
    {
      partials[lane] := Partial(lanes, lane, n, f);
    }
    total := AddUp(partials, n, f);
    LanesPartition(lanes, n, f);
  }

  method AddUp(partials: array<real>, n: nat, f: int -> real) returns (total: real)
    requires 0 < partials.Length && forall x :: 0 <= x < partials.Length ==>
             partials[x] == Sum(n, Owned(partials.Length, x, f))
    ensures total == Sum(partials.Length, lane => Sum(n, Owned(partials.Length, lane, f)))
  {
    hide Owned;
    total := 0.0;
    ghost var shares := (lane: int) => Sum(n, Owned(partials.Length, lane, f));
    for lane := 0 to partials.Length
      invariant total == Sum(lane, shares)
    {
      total := total + partials[lane];
    }
  }
}
