/** The kernels' buffers: what it means for an array to hold a function's values, and the in-place additions
    every gradient accumulator is built from. */
module Buffers {

  ghost predicate Vector(a: array<real>, n: nat, f: int -> real)
    reads a
  {
    a.Length == n && forall i :: 0 <= i < n ==> a[i] == f(i)
  }

  ghost predicate Matrix(a: array2<real>, n: nat, k: nat, f: (int, int) -> real)
    reads a
  {
    a.Length0 == n && a.Length1 == k && forall i, j :: 0 <= i < n && 0 <= j < k ==> a[i, j] == f(i, j)
  }

  method ZeroVector(n: nat) returns (a: array<real>)
    ensures fresh(a) && a.Length == n && forall i :: 0 <= i < n ==> a[i] == 0.0
  {
    a := new real[n];
    for i := 0 to n
      invariant forall k :: 0 <= k < i ==> a[k] == 0.0
    {
      a[i] := 0.0;
    }
  }

  method ZeroMatrix(n: nat, k: nat) returns (a: array2<real>)
    ensures fresh(a) && a.Length0 == n && a.Length1 == k
    ensures forall i, j :: 0 <= i < n && 0 <= j < k ==> a[i, j] == 0.0
  {
    a := new real[n, k];
    for i := 0 to n
      invariant forall x, j :: 0 <= x < i && 0 <= j < k ==> a[x, j] == 0.0
    {
      for j := 0 to k
        invariant forall x, y :: 0 <= x <= i && 0 <= y < k && (x < i || y < j) ==> a[x, y] == 0.0
      {
        a[i, j] := 0.0;
      }
    }
  }

  lemma MatrixForm(a: array2<real>, n: nat, k: nat, f: (int, int) -> real)
    requires a.Length0 == n && a.Length1 == k && forall i, j :: 0 <= i < n && 0 <= j < k ==> a[i, j] == f(i, j)
    ensures Matrix(a, n, k, f)
  {
  }

  method AddCell(a: array2<real>, i: nat, j: nat, x: real)
    requires i < a.Length0 && j < a.Length1
    modifies a
    ensures forall k, l :: 0 <= k < a.Length0 && 0 <= l < a.Length1 ==>
              a[k, l] == old(a[k, l]) + if k == i && l == j then x else 0.0
  {
    a[i, j] := a[i, j] + x;
  }

  method AddNeighbours(a: array2<real>, i: nat, j: nat, x: real, y: real)
    requires i < a.Length0 && j + 1 < a.Length1
    modifies a
    ensures forall k, l :: 0 <= k < a.Length0 && 0 <= l < a.Length1 ==>
              a[k, l] == old(a[k, l]) + if k == i && l == j then x else if k == i && l == j + 1 then y else 0.0
  {
    AddCell(a, i, j, x);
    AddCell(a, i, j + 1, y);
  }

  method AddEntry(a: array<real>, i: nat, x: real)
    requires i < a.Length
    modifies a
    ensures forall k :: 0 <= k < a.Length ==> a[k] == old(a[k]) + if k == i then x else 0.0
  {
    a[i] := a[i] + x;
  }

  method ZeroCube(n: nat, k: nat, l: nat) returns (a: array3<real>)
    ensures fresh(a) && a.Length0 == n && a.Length1 == k && a.Length2 == l
    ensures forall x, y, z :: 0 <= x < n && 0 <= y < k && 0 <= z < l ==> a[x, y, z] == 0.0
  {
    a := new real[n, k, l];
    var zero := ZeroMatrix(k, l);
    for i := 0 to n
      invariant forall x, y, z :: 0 <= x < i && 0 <= y < k && 0 <= z < l ==> a[x, y, z] == 0.0
      invariant forall y, z :: 0 <= y < k && 0 <= z < l ==> zero[y, z] == 0.0
    {
      StoreSlot(zero, a, i);
    }
  }

  method CopyMatrix(from: array2<real>, to: array2<real>)
    requires from.Length0 == to.Length0 && from.Length1 == to.Length1 && from != to
    modifies to
    ensures forall i, j :: 0 <= i < to.Length0 && 0 <= j < to.Length1 ==> to[i, j] == from[i, j]
  {
    for i := 0 to from.Length0
      invariant forall x, j :: 0 <= x < i && 0 <= j < to.Length1 ==> to[x, j] == from[x, j]
    {
      for j := 0 to from.Length1
        invariant forall x, y :: 0 <= x <= i && 0 <= y < to.Length1 && (x < i || y < j) ==> to[x, y] == from[x, y]
      {
        to[i, j] := from[i, j];
      }
    }
  }

  /** `to += from`, entry by entry. */
  method AddMatrix(from: array2<real>, to: array2<real>)
    requires from.Length0 == to.Length0 && from.Length1 == to.Length1 && from != to
    modifies to
    ensures forall i, j :: 0 <= i < to.Length0 && 0 <= j < to.Length1 ==> to[i, j] == old(to[i, j]) + from[i, j]
  {
    for i := 0 to from.Length0
      invariant forall x, j :: 0 <= x < to.Length0 && 0 <= j < to.Length1 ==>
                  to[x, j] == old(to[x, j]) + if x < i then from[x, j] else 0.0
    {
      for j := 0 to from.Length1
        invariant forall x, y :: 0 <= x < to.Length0 && 0 <= y < to.Length1 ==>
                    to[x, y] == old(to[x, y]) + if x < i || (x == i && y < j) then from[x, y] else 0.0
      {
        to[i, j] := to[i, j] + from[i, j];
      }
    }
  }

  // ---- slots of a checkpoint region ----

  /** Slot `s` of the region holds `f`. */
  ghost predicate SlotHolds(a: array3<real>, s: int, n: nat, k: nat, f: (int, int) -> real)
    reads a
  {
    0 <= s < a.Length0 && a.Length1 == n && a.Length2 == k && forall i, j :: 0 <= i < n && 0 <= j < k ==>
      a[s, i, j] == f(i, j)
  }

  method StoreSlot(from: array2<real>, to: array3<real>, s: nat)
    requires s < to.Length0 && from.Length0 == to.Length1 && from.Length1 == to.Length2
    modifies to
    ensures forall x, i, j :: 0 <= x < to.Length0 && 0 <= i < to.Length1 && 0 <= j < to.Length2 ==>
              to[x, i, j] == if x == s then from[i, j] else old(to[x, i, j])
  {
    for i := 0 to to.Length1
      invariant forall x, y, j :: 0 <= x < to.Length0 && 0 <= y < to.Length1 && 0 <= j < to.Length2 ==>
                  to[x, y, j] == if x == s && y < i then from[y, j] else old(to[x, y, j])
    {
      for k := 0 to to.Length2
        invariant forall x, y, j :: 0 <= x < to.Length0 && 0 <= y < to.Length1 && 0 <= j < to.Length2 ==>
                    to[x, y, j] == if x == s && (y < i || (y == i && j < k)) then from[y, j] else old(to[x, y, j])
      {
        to[s, i, k] := from[i, k];
      }
    }
  }

  method LoadSlot(from: array3<real>, s: nat, to: array2<real>)
    requires s < from.Length0 && to.Length0 == from.Length1 && to.Length1 == from.Length2
    modifies to
    ensures forall i, j :: 0 <= i < to.Length0 && 0 <= j < to.Length1 ==> to[i, j] == from[s, i, j]
  {
    for i := 0 to to.Length0
      invariant forall x, j :: 0 <= x < i && 0 <= j < to.Length1 ==> to[x, j] == from[s, x, j]
    {
      for j := 0 to to.Length1
        invariant forall x, y :: 0 <= x <= i && 0 <= y < to.Length1 && (x < i || y < j) ==> to[x, y] == from[s, x, y]
      {
        to[i, j] := from[s, i, j];
      }
    }
  }
}
