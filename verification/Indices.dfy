/** Arithmetic of flat indices `q * w + r`. */
module Indices {

  function Least(a: int, b: int): int { if a < b then a else b }

  lemma MulMono(a: int, b: int, w: nat)
    requires a <= b
    ensures a * w <= b * w
  {
  }

  lemma DivRange(i: int, n: int, w: int)
    requires 0 < w
    ensures 0 <= i < n * w ==> 0 <= i / w < n
  {
    if n <= i / w {
      MulMono(n, i / w, w);
    }
  }

  lemma FlatRange(q: int, n: int, r: int, w: nat)
    ensures 0 <= q < n && 0 <= r < w ==> 0 <= q * w + r < n * w
  {
    if 0 <= q < n && 0 <= r < w {
      MulMono(q + 1, n, w);
    }
  }

  lemma DivMod(q: int, r: int, w: int)
    requires 0 <= r < w
    ensures (q * w + r) / w == q && (q * w + r) % w == r
  {
    var x := q * w + r;
    assert x == x / w * w + x % w;
    if x / w < q {
      MulMono(x / w + 1, q, w);
    } else if x / w > q {
      MulMono(q + 1, x / w, w);
    }
  }

  // ---- checkpoint slots: slot `s` is taken after `s * interval` rows ----

  /** A checkpoint is due after row `t` exactly when row `t + 1` opens a new slot. */
  lemma SlotOf(t: nat, interval: nat)
    requires 0 < interval
    ensures (t + 1) % interval == 0 ==> (t + 1) / interval * interval == t + 1 && (t + 1) / interval == t / interval + 1
    ensures (t + 1) % interval != 0 ==> (t + 1) / interval == t / interval
    ensures 0 <= t - t / interval * interval < interval
  {
    var q, r := t / interval, t % interval;
    assert t == q * interval + r;
    if r + 1 == interval {
      assert t + 1 == (q + 1) * interval + 0;
      DivMod(q + 1, 0, interval);
    } else {
      DivMod(q, r + 1, interval);
    }
  }

  lemma SlotBound(t: nat, rows: nat, interval: nat)
    requires 0 < interval && t <= rows
    ensures t / interval <= rows / interval
  {
    if rows / interval < t / interval {
      MulMono(rows / interval + 1, t / interval, interval);
    }
  }
}
