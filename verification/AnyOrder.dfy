/** Additions made in any order: atomics, and rows processed in whatever order the launch takes them. */
module AnyOrder {
  import opened Sums

  /** `order` visits 0..n once each. */
  ghost predicate Permutation(order: seq<int>, n: nat) {
    multiset(order) == multiset(Upto(n))
  }

  ghost function Upto(n: nat): seq<int> { if n == 0 then [] else Upto(n - 1) + [n - 1] }

  ghost function SeqSum<T>(order: seq<T>, f: T -> real): real {
    if order == [] then 0.0 else SeqSum(order[..|order| - 1], f) + f(order[|order| - 1])
  }

  lemma {:induction false} SeqSumRemove<T>(order: seq<T>, i: nat, f: T -> real)
    requires i < |order|
    ensures SeqSum(order, f) == SeqSum(order[..i] + order[i + 1..], f) + f(order[i])
    decreases |order|
  {
    var last, rest := |order| - 1, order[..i] + order[i + 1..];
    if i == last {
      assert rest == order[..last];
    } else {
      SeqSumRemove(order[..last], i, f);
      assert rest[..|rest| - 1] == order[..last][..i] + order[..last][i + 1..];
      assert rest[|rest| - 1] == order[last];
    }
  }

  /** A permutation's sum is the plain sum. */
  lemma {:induction false} SumAnyOrder(order: seq<int>, n: nat, f: int -> real)
    requires Permutation(order, n)
    ensures SeqSum(order, f) == Sum(n, f)
    decreases n
  {
    hide Permutation;
    if n == 0 {
      EmptyOrder(order);
    } else {
      var i := LastPlace(order, n);
      SumAnyOrder(order[..i] + order[i + 1..], n - 1, f);
      SeqSumRemove(order, i, f);
    }
  }

  lemma EmptyOrder(order: seq<int>)
    requires Permutation(order, 0)
    ensures order == []
  {
    assert |order| == |multiset(order)| == 0;
  }

  /** Where a permutation visits `n - 1`; the rest of it is a permutation of the rest. */
  lemma LastPlace(order: seq<int>, n: nat) returns (i: nat)
    requires 0 < n && Permutation(order, n)
    ensures i < |order| && order[i] == n - 1 && Permutation(order[..i] + order[i + 1..], n - 1)
  {
    hide Upto;
    UptoStep(n);
    i := PlaceOf(order, n - 1);
    Without(order, i);
  }

  lemma PlaceOf(order: seq<int>, x: int) returns (i: nat)
    requires x in multiset(order)
    ensures i < |order| && order[i] == x
  {
    i :| 0 <= i < |order| && order[i] == x;
  }

  lemma UptoStep(n: nat)
    requires 0 < n
    ensures multiset(Upto(n)) == multiset(Upto(n - 1)) + multiset{n - 1}
  {
  }

  lemma Without(s: seq<int>, i: nat)
    requires i < |s|
    ensures multiset(s[..i] + s[i + 1..]) == multiset(s) - multiset{s[i]}
  {
    assert s == s[..i] + [s[i]] + s[i + 1..];
  }

  /** Everything in a permutation is in range. */
  lemma {:induction false} InRange(order: seq<int>, n: nat, i: nat)
    requires Permutation(order, n) && i < |order|
    ensures 0 <= order[i] < n
  {
    assert order[i] in multiset(order);
    UptoRange(n, order[i]);
  }

  lemma {:induction false} UptoRange(n: nat, x: int)
    requires x in multiset(Upto(n))
    ensures 0 <= x < n
    decreases n
  {
    if n > 0 && x != n - 1 {
      UptoRange(n - 1, x);
    }
  }

  /** What the first `i` additions of `order` add to slot `g`. */
  ghost function Share(key: int -> int, w: int -> real, g: int): int -> real { q => if key(q) == g then w(q) else 0.0 }

  lemma ShareStep(order: seq<int>, i: nat, key: int -> int, w: int -> real)
    requires i < |order|
    ensures forall g :: SeqSum(order[..i + 1], Share(key, w, g))
                     == SeqSum(order[..i], Share(key, w, g)) + if key(order[i]) == g then w(order[i]) else 0.0
  {
    assert order[..i + 1][..i] == order[..i];
  }

  lemma ShareAll(order: seq<int>, n: nat, key: int -> int, w: int -> real)
    requires Permutation(order, n)
    ensures forall g :: SeqSum(order[..|order|], Share(key, w, g)) == Keyed(n, key, w, g)
  {
    hide Sum;
    assert order[..|order|] == order;
    forall g ensures SeqSum(order, Share(key, w, g)) == Keyed(n, key, w, g) {
      SumAnyOrder(order, n, Share(key, w, g));
      SumEq(n, Share(key, w, g), q => if key(q) == g then w(q) else 0.0);
    }
  }

  lemma NoneAdded(order: seq<int>, key: int -> int, w: int -> real)
    ensures forall g :: SeqSum(order[..0], Share(key, w, g)) == 0.0
  {
  }

  lemma NoTerms(order: seq<int>, f: int -> real)
    ensures SeqSum(order[..0], f) == 0.0
  {
  }

  lemma TermStep(order: seq<int>, i: nat, f: int -> real)
    requires i < |order|
    ensures SeqSum(order[..i + 1], f) == SeqSum(order[..i], f) + f(order[i])
  {
    assert order[..i + 1][..i] == order[..i];
  }

  /** A permutation visits everything. */
  lemma {:induction false} VisitsAll(order: seq<int>, n: nat, x: int)
    requires Permutation(order, n) && 0 <= x < n
    ensures x in order
  {
    UptoHas(n, x);
    assert x in multiset(order);
  }

  lemma {:induction false} UptoHas(n: nat, x: int)
    requires 0 <= x < n
    ensures x in multiset(Upto(n))
    decreases n
  {
    if x < n - 1 {
      UptoHas(n - 1, x);
    }
  }
}
