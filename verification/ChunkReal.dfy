/** The chunk-scan backward kernel over the reals: its folds are sums, and the linearised forward block that
    it is measured against. */
module ChunkReal {
  import opened Sums
  import opened ChunkModel

  ghost predicate Real(o: Ops<real>) {
    && o.zero == 0.0 && o.one == 1.0
    && (forall a, b {:trigger o.add(a, b)} :: o.add(a, b) == a + b)
    && (forall a, b {:trigger o.sub(a, b)} :: o.sub(a, b) == a - b)
    && (forall a, b {:trigger o.mul(a, b)} :: o.mul(a, b) == Mul(a, b))
    && (forall a {:trigger o.cast(a)} :: o.cast(a) == a)
  }

  lemma {:induction false} FoldIsSum(o: Ops<real>, n: int, f: int -> real)
    requires Real(o)
    ensures Fold(o, 0, n, f) == Sum(n, f)
    decreases n
  {
    if n > 0 {
      FoldIsSum(o, n - 1, f);
    }
  }

  /** A fold from `lo` is the sum over all rows with those before `lo` masked. */
  lemma {:induction false} FoldFrom(o: Ops<real>, lo: nat, n: nat, f: int -> real, masked: int -> real)
    requires Real(o)
    requires forall i {:trigger masked(i)} :: masked(i) == if lo <= i then f(i) else 0.0
    ensures Fold(o, lo, n, f) == Sum(n, masked)
    decreases n
  {
    if n > lo {
      FoldFrom(o, lo, n - 1, f, masked);
    } else {
      SumZero(n, masked);
    }
  }

  /** A fold up to `hi` is the sum over all rows with those from `hi` on masked. */
  lemma FoldUpto(o: Ops<real>, hi: nat, n: nat, f: int -> real, masked: int -> real)
    requires Real(o) && hi <= n
    requires forall i {:trigger masked(i)} :: masked(i) == if i < hi then f(i) else 0.0
    ensures Fold(o, 0, hi, f) == Sum(n, masked)
  {
    hide Sum, Fold;
    FoldIsSum(o, hi, f);
    SumEq(hi, f, masked);
    SumSplit(hi, n - hi, masked);
    SumZero(n - hi, i => masked(hi + i));
  }

  // ---- the forward block ----

  /** The decay from row `s` to row `l`, zero above the diagonal. */
  function Weight(k: Chunk<real>, l: int, s: int): real { if s <= l then Lmat(k, l, s) else 0.0 }

  /** One rank-one input of the chunk's state: dt * x * B. */
  function Inp(k: Chunk<real>, s: int, p: int, n: int): real { Mul(Mul(k.dt(s), k.x(s, p)), k.b(s, n)) }

  ghost function Through(k: Chunk<real>, l: int, s: int, p: int): real {
    Sum(k.states, n => Mul(k.c(l, n), Inp(k, s, p, n)))
  }

  ghost function OffOut(k: Chunk<real>, l: int, p: int): real {
    Sum(k.states, n => Mul(Mul(k.c(l, n), Sd(k, l)), k.prev(p, n)))
  }

  ghost function DiagOut(k: Chunk<real>, l: int, p: int): real {
    Sum(k.len, s => Mul(Weight(k, l, s), Through(k, l, s, p)))
  }

  ghost function Y(k: Chunk<real>, l: int, p: int): real { OffOut(k, l, p) + DiagOut(k, l, p) + Mul(k.d, k.x(l, p)) }

  /** The block's saved inputs are what its forward pass computes. */
  ghost predicate Saved(k: Chunk<real>) {
    && Real(k.ops)
    && (forall l, p {:trigger k.y(l, p)} :: k.y(l, p) == Y(k, l, p))
    && (forall l, s {:trigger k.cb(l, s)} :: k.cb(l, s) == Sum(k.states, n => Mul(k.c(l, n), k.b(s, n))))
  }

  // ---- its tangent ----

  /** Perturbations of C, of the rank-one inputs, of the carried state, of the cumulative decays, of the
      skip connection's x and D, and of the gate's z. */
  datatype Tangent = Tangent(c: (int, int) -> real, inp: (int, int, int) -> real, prev: (int, int) -> real,
                             dacs: int -> real, x: (int, int) -> real, d: real, z: (int, int) -> real)

  /** exp2(a * log2 e) moves by itself times the move of a. */
  ghost function TOffTerm(k: Chunk<real>, t: Tangent, l: int, p: int, n: int): real {
    Mul(Mul(t.c(l, n), Sd(k, l)), k.prev(p, n)) + Mul(Mul(k.c(l, n), Mul(Sd(k, l), t.dacs(l))), k.prev(p, n))
    + Mul(Mul(k.c(l, n), Sd(k, l)), t.prev(p, n))
  }

  ghost function TOff(k: Chunk<real>, t: Tangent, l: int, p: int): real { Sum(k.states, n => TOffTerm(k, t, l, p, n)) }

  ghost function TThrough(k: Chunk<real>, t: Tangent, l: int, s: int, p: int): real {
    Sum(k.states, n => Mul(t.c(l, n), Inp(k, s, p, n)) + Mul(k.c(l, n), t.inp(s, p, n)))
  }

  ghost function TDiagTerm(k: Chunk<real>, t: Tangent, l: int, p: int, s: int): real {
    Mul(Mul(Weight(k, l, s), t.dacs(l) - t.dacs(s)), Through(k, l, s, p))
      + Mul(Weight(k, l, s), TThrough(k, t, l, s, p))
  }

  ghost function TDiag(k: Chunk<real>, t: Tangent, l: int, p: int): real { Sum(k.len, s => TDiagTerm(k, t, l, p, s)) }

  ghost function TY(k: Chunk<real>, t: Tangent, l: int, p: int): real {
    TOff(k, t, l, p) + TDiag(k, t, l, p) + (Mul(t.d, k.x(l, p)) + Mul(k.d, t.x(l, p)))
  }

  /** The gated output y * silu(z). */
  ghost function TOut(k: Chunk<real>, t: Tangent, l: int, p: int): real {
    Mul(TY(k, t, l, p), Gate(k, l, p)) + Mul(Y(k, l, p), Mul(SiluGrad(k.ops, k.z(l, p)), t.z(l, p)))
  }

  // ---- the kernel's outputs as sums ----

  /** dY x^T without the triangular mask. */
  ghost function Outer(k: Chunk<real>, l: int, s: int): real { Sum(k.dims, p => Mul(DY(k, l, p), k.x(s, p))) }

  lemma DyxForm(k: Chunk<real>, l: int, s: int)
    requires Real(k.ops)
    ensures Dyx(k, l, s) == if s <= l then Outer(k, l, s) else 0.0
  {
    hide DY, Sum, Fold, Mul;
    if s <= l {
      var f := (p: int) => k.ops.mul(DY(k, l, p), k.x(s, p));
      DyxFold(k, l, s, f);
      FoldIsSum(k.ops, k.dims, f);
      SumEq(k.dims, f, p => Mul(DY(k, l, p), k.x(s, p)));
    }
  }

  lemma AccnForm(k: Chunk<real>, l: int, n: int)
    requires Real(k.ops)
    ensures Accn(k, l, n) == Sum(k.dims, p => Mul(DY(k, l, p), k.prev(p, n)))
  {
    hide DY, Sum, Fold, Mul;
    var f := (p: int) => k.ops.mul(DY(k, l, p), k.prev(p, n));
    AccnFold(k, l, n, f);
    FoldIsSum(k.ops, k.dims, f);
    SumEq(k.dims, f, p => Mul(DY(k, l, p), k.prev(p, n)));
  }

  /** One entry of the factored diagonal part of dC: decay, step, dY x^T and B. */
  ghost function DiagShare(k: Chunk<real>, l: int, n: int, s: int): real {
    Mul(Mul(Mul(Weight(k, l, s), k.dt(s)), Outer(k, l, s)), k.b(s, n))
  }

  lemma DCForm(k: Chunk<real>, l: nat, n: int)
    requires Real(k.ops) && l < k.len
    ensures DC(k, l, n) == Mul(Accn(k, l, n), Sd(k, l)) + Sum(k.len, s => DiagShare(k, l, n, s))
  {
    hide Sum, Fold, Accn, Sd, Lmat, Outer, Mul, Dyx, DC, DiagTerm, DiagShare;
    var f, masked := (s: int) => DiagTerm(k, l, n, s), (s: int) => DiagShare(k, l, n, s);
    forall s ensures masked(s) == if s < l + 1 then f(s) else 0.0 {
      DiagForm(k, l, n, s);
    }
    FoldUpto(k.ops, l + 1, k.len, f, masked);
    DCFold(k, l, n, f);
  }

  lemma DiagForm(k: Chunk<real>, l: int, n: int, s: int)
    requires Real(k.ops)
    ensures DiagShare(k, l, n, s) == if s <= l then DiagTerm(k, l, n, s) else 0.0
  {
    hide Lmat, Outer, Dyx;
    DyxForm(k, l, s);
  }

  ghost function InpShare(k: Chunk<real>, s: int, p: int, n: int, l: int): real {
    Mul(Mul(DY(k, l, p), k.c(l, n)), Weight(k, l, s))
  }

  lemma DInpForm(k: Chunk<real>, s: nat, p: int, n: int)
    requires Real(k.ops)
    ensures DInp(k, s, p, n) == Sum(k.len, l => InpShare(k, s, p, n, l))
  {
    hide Sum, Fold, DY, Lmat, DInp;
    var f, masked := (l: int) => InpTerm(k, s, p, n, l), (l: int) => InpShare(k, s, p, n, l);
    forall l ensures masked(l) == if s <= l then f(l) else 0.0 {
      MulZero(Mul(DY(k, l, p), k.c(l, n)));
    }
    FoldFrom(k.ops, s, k.len, f, masked);
    DInpFold(k, s, p, n, f);
  }

  lemma DChunkForm(k: Chunk<real>, p: int, n: int)
    requires Real(k.ops)
    ensures DChunk(k, p, n) == Sum(k.len, l => ChunkShare(k, p, n, l))
  {
    hide Sum, Fold, DY, Sd, Mul, DChunk;
    var f, g := (l: int) => ChunkTerm(k, p, n, l), (l: int) => ChunkShare(k, p, n, l);
    DChunkFold(k, p, n, f);
    FoldIsSum(k.ops, k.len, f);
    SumEq(k.len, f, g);
  }

  ghost function ChunkShare(k: Chunk<real>, p: int, n: int, l: int): real { Mul(Mul(DY(k, l, p), k.c(l, n)), Sd(k, l)) }

  /** The whole segment weight of rows `l` and `s`: the kernel's term without its strict mask. */
  ghost function Seg(k: Chunk<real>, l: int, s: int): real {
    Mul(Mul(Mul(Weight(k, l, s), k.dt(s)), Outer(k, l, s)), k.cb(l, s))
  }

  lemma DsegForm(k: Chunk<real>, l: int, s: int)
    requires Real(k.ops)
    ensures Dseg(k, l, s) == if s < l then Seg(k, l, s) else 0.0
  {
    hide Lmat, Outer, Dyx;
    DyxForm(k, l, s);
    var x := Dyx(k, l, s);
    Rearrange(x, k.cb(l, s), Lmat(k, l, s), k.dt(s));
  }

  lemma Rearrange(x: real, cb: real, w: real, dt: real)
    ensures x * cb * w * dt == w * dt * x * cb
  {
  }
}
