/** One block of the chunk-scan backward kernel, one chunk of one head, over uninterpreted arithmetic: the
    operations need not be associative or commutative, so equal results mean equal terms in equal order. */
module ChunkModel {

  /** The arithmetic, and the cast to the storage type of the shared tile DYX. */
  datatype Ops<!F> = Ops(zero: F, one: F, add: (F, F) -> F, sub: (F, F) -> F, mul: (F, F) -> F, div: (F, F) -> F,
                         neg: F -> F, exp: F -> F, exp2: F -> F, cast: F -> F)

  /** Chunk length, head dimension and state size; the block's slices of the kernel's tensors. */
  datatype Chunk<!F> = Chunk(
    ops: Ops<F>, len: nat, dims: nat, states: nat, log2e: F,
    dout: (int, int) -> F, x: (int, int) -> F, z: (int, int) -> F, y: (int, int) -> F,
    dt: int -> F, dacs: int -> F, c: (int, int) -> F, b: (int, int) -> F, cb: (int, int) -> F,
    prev: (int, int) -> F, d: F)

  /** The accumulator after `lo..hi` in ascending order. */
  function Fold<F>(o: Ops<F>, lo: int, hi: int, f: int -> F): F
    decreases hi - lo
  {
    if hi <= lo then o.zero else o.add(Fold(o, lo, hi - 1, f), f(hi - 1))
  }

  lemma FoldSteps<F>(o: Ops<F>, lo: int, hi: int, f: int -> F)
    requires lo <= hi
    ensures Fold(o, lo, lo, f) == o.zero
    ensures Fold(o, lo, hi + 1, f) == o.add(Fold(o, lo, hi, f), f(hi))
  {
  }

  ghost predicate LeftUnit<F(!new)>(o: Ops<F>) { forall v :: o.add(o.zero, v) == v }

  // ---- gate ----

  function Gate<F>(k: Chunk<F>, l: int, p: int): F {
    k.ops.div(k.z(l, p), k.ops.add(k.ops.one, k.ops.exp(k.ops.neg(k.z(l, p)))))
  }

  function SiluGrad<F>(o: Ops<F>, z: F): F {
    var s := o.div(o.one, o.add(o.one, o.exp(o.neg(z))));
    o.mul(s, o.add(o.one, o.mul(z, o.sub(o.one, s))))
  }

  function DY<F>(k: Chunk<F>, l: int, p: int): F { k.ops.mul(k.dout(l, p), Gate(k, l, p)) }

  function DZ<F>(k: Chunk<F>, l: int, p: int): F {
    k.ops.mul(k.ops.mul(k.dout(l, p), k.y(l, p)), SiluGrad(k.ops, k.z(l, p)))
  }

  function DX<F>(k: Chunk<F>, l: int, p: int): F { k.ops.mul(k.d, DY(k, l, p)) }

  // ---- decay weights ----

  function Sd<F>(k: Chunk<F>, l: int): F { k.ops.exp2(k.ops.mul(k.dacs(l), k.log2e)) }
  function Lmat<F>(k: Chunk<F>, l: int, s: int): F { k.ops.exp2(k.ops.mul(k.ops.sub(k.dacs(l), k.dacs(s)), k.log2e)) }

  // ---- the outputs, term by term in the kernel's order ----

  function Dyx<F>(k: Chunk<F>, l: int, s: int): F {
    k.ops.cast(if s <= l then Fold(k.ops, 0, k.dims, p => k.ops.mul(DY(k, l, p), k.x(s, p))) else k.ops.zero)
  }

  function Accn<F>(k: Chunk<F>, l: int, n: int): F { Fold(k.ops, 0, k.dims, p => k.ops.mul(DY(k, l, p), k.prev(p, n))) }

  function DiagTerm<F>(k: Chunk<F>, l: int, n: int, s: int): F {
    k.ops.mul(k.ops.mul(k.ops.mul(Lmat(k, l, s), k.dt(s)), Dyx(k, l, s)), k.b(s, n))
  }

  function DC<F>(k: Chunk<F>, l: int, n: int): F {
    k.ops.add(k.ops.mul(Accn(k, l, n), Sd(k, l)), Fold(k.ops, 0, l + 1, s => DiagTerm(k, l, n, s)))
  }

  /** What the dC block adds to the cumulative decay's gradient at `l`. */
  function OffTerm<F>(k: Chunk<F>, l: int, n: int): F { k.ops.mul(k.ops.mul(Accn(k, l, n), k.c(l, n)), Sd(k, l)) }

  function ChunkTerm<F>(k: Chunk<F>, p: int, n: int, l: int): F {
    k.ops.mul(k.ops.mul(DY(k, l, p), k.c(l, n)), Sd(k, l))
  }

  function DChunk<F>(k: Chunk<F>, p: int, n: int): F { Fold(k.ops, 0, k.len, l => ChunkTerm(k, p, n, l)) }

  function InpTerm<F>(k: Chunk<F>, s: int, p: int, n: int, l: int): F {
    k.ops.mul(k.ops.mul(DY(k, l, p), k.c(l, n)), Lmat(k, l, s))
  }

  function DInp<F>(k: Chunk<F>, s: int, p: int, n: int): F { Fold(k.ops, s, k.len, l => InpTerm(k, s, p, n, l)) }

  function Dseg<F>(k: Chunk<F>, l: int, s: int): F {
    k.ops.mul(k.ops.mul(k.ops.mul(k.ops.mul(Dyx(k, l, s), k.cb(l, s)), Lmat(k, l, s)), k.dt(s)),
              if s < l then k.ops.one else k.ops.zero)
  }

  // ---- the folds depend on their terms only ----

  lemma {:induction false} FoldEq<F>(o: Ops<F>, lo: int, hi: int, f: int -> F, g: int -> F)
    requires forall i {:trigger f(i)} :: f(i) == g(i)
    ensures Fold(o, lo, hi, f) == Fold(o, lo, hi, g)
    decreases hi - lo
  {
    if lo < hi {
      FoldEq(o, lo, hi - 1, f, g);
    }
  }

  lemma DyxFold<F>(k: Chunk<F>, l: int, s: int, f: int -> F)
    requires forall p {:trigger f(p)} :: f(p) == k.ops.mul(DY(k, l, p), k.x(s, p))
    ensures Dyx(k, l, s) == k.ops.cast(if s <= l then Fold(k.ops, 0, k.dims, f) else k.ops.zero)
  {
    hide DY, Fold;
    FoldEq(k.ops, 0, k.dims, f, p => k.ops.mul(DY(k, l, p), k.x(s, p)));
  }

  lemma AccnFold<F>(k: Chunk<F>, l: int, n: int, f: int -> F)
    requires forall p {:trigger f(p)} :: f(p) == k.ops.mul(DY(k, l, p), k.prev(p, n))
    ensures Accn(k, l, n) == Fold(k.ops, 0, k.dims, f)
  {
    hide DY, Fold;
    FoldEq(k.ops, 0, k.dims, f, p => k.ops.mul(DY(k, l, p), k.prev(p, n)));
  }

  lemma DCFold<F>(k: Chunk<F>, l: int, n: int, f: int -> F)
    requires forall s {:trigger f(s)} :: f(s) == DiagTerm(k, l, n, s)
    ensures DC(k, l, n) == k.ops.add(k.ops.mul(Accn(k, l, n), Sd(k, l)), Fold(k.ops, 0, l + 1, f))
  {
    hide DiagTerm, Accn, Sd, Fold;
    FoldEq(k.ops, 0, l + 1, f, s => DiagTerm(k, l, n, s));
  }

  lemma DChunkFold<F>(k: Chunk<F>, p: int, n: int, f: int -> F)
    requires forall l {:trigger f(l)} :: f(l) == ChunkTerm(k, p, n, l)
    ensures DChunk(k, p, n) == Fold(k.ops, 0, k.len, f)
  {
    hide ChunkTerm, Fold;
    FoldEq(k.ops, 0, k.len, f, l => ChunkTerm(k, p, n, l));
  }

  lemma DInpFold<F>(k: Chunk<F>, s: int, p: int, n: int, f: int -> F)
    requires forall l {:trigger f(l)} :: f(l) == InpTerm(k, s, p, n, l)
    ensures DInp(k, s, p, n) == Fold(k.ops, s, k.len, f)
  {
    hide InpTerm, Fold;
    FoldEq(k.ops, s, k.len, f, l => InpTerm(k, s, p, n, l));
  }
}
