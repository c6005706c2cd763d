/** The chunk-scan backward kernel on its shared and output arrays, in its emitted variants: C read from the
    device or from a staged tile, and the two loop orders of the input gradient. */
module ChunkKernel {
  import opened ChunkModel
  import opened Indices

  ghost predicate Holds<F>(a: array2<F>, n: nat, k: nat, f: (int, int) -> F)
    reads a
  {
    a.Length0 == n && a.Length1 == k && forall i, j :: 0 <= i < n && 0 <= j < k ==> a[i, j] == f(i, j)
  }

  ghost predicate Holds3<F>(a: array3<F>, n: nat, k: nat, l: nat, f: (int, int, int) -> F)
    reads a
  {
    && a.Length0 == n && a.Length1 == k && a.Length2 == l
    && forall i, j, q :: 0 <= i < n && 0 <= j < k && 0 <= q < l ==> a[i, j, q] == f(i, j, q)
  }

  /** C staged once, in flat order. */
  method Stage<F(0)>(k: Chunk<F>) returns (tile: array2<F>)
    ensures fresh(tile) && Holds(tile, k.len, k.states, k.c)
  {
    tile := new F[k.len, k.states];
    for l := 0 to k.len
      invariant forall i, n :: 0 <= i < l && 0 <= n < k.states ==> tile[i, n] == k.c(i, n)
    {
      for n := 0 to k.states
        invariant forall i, q :: 0 <= i <= l && 0 <= q < k.states && (i < l || q < n) ==> tile[i, q] == k.c(i, q)
      {
        tile[l, n] := k.c(l, n);
      }
    }
  }

  /** Where C is read from: the tile if there is one, else the device. */
  datatype Source<!F> = Device | Tile(cells: array2<F>) {
    ghost predicate Valid(k: Chunk<F>)
      reads if Tile? then {cells} else {}
    {
      Tile? ==> Holds(cells, k.len, k.states, k.c)
    }
  }

  method Open<F(0)>(k: Chunk<F>, staged: bool) returns (from: Source<F>)
    ensures from.Valid(k)
  {
    if staged {
      var tile := Stage(k);
      from := Tile(tile);
    } else {
      from := Device;
    }
  }

  method ReadC<F>(k: Chunk<F>, from: Source<F>, l: nat, n: nat) returns (c: F)
    requires l < k.len && n < k.states && from.Valid(k)
    ensures c == k.c(l, n)
  {
    if from.Tile? {
      c := from.cells[l, n];
    } else {
      c := k.c(l, n);
    }
  }

  /** The gate, and the x and z gradients it gives directly. */
  method GateBack<F(0)>(k: Chunk<F>) returns (dY: array2<F>, dz: array2<F>, dx: array2<F>)
    ensures fresh({dY, dz, dx}) && dY != dz && dY != dx && dz != dx
    ensures Holds(dY, k.len, k.dims, (l, p) => DY(k, l, p)) && Holds(dz, k.len, k.dims, (l, p) => DZ(k, l, p))
    ensures Holds(dx, k.len, k.dims, (l, p) => DX(k, l, p))
  {
    hide DY, DZ, DX;
    dY, dz, dx := new F[k.len, k.dims], new F[k.len, k.dims], new F[k.len, k.dims];
    for l := 0 to k.len
      invariant forall i, p :: 0 <= i < l && 0 <= p < k.dims ==> dY[i, p] == DY(k, i, p)
      invariant forall i, p :: 0 <= i < l && 0 <= p < k.dims ==> dz[i, p] == DZ(k, i, p)
      invariant forall i, p :: 0 <= i < l && 0 <= p < k.dims ==> dx[i, p] == DX(k, i, p)
    {
      for p := 0 to k.dims
        invariant forall i, q :: 0 <= i <= l && 0 <= q < k.dims && (i < l || q < p) ==> dY[i, q] == DY(k, i, q)
        invariant forall i, q :: 0 <= i <= l && 0 <= q < k.dims && (i < l || q < p) ==> dz[i, q] == DZ(k, i, q)
        invariant forall i, q :: 0 <= i <= l && 0 <= q < k.dims && (i < l || q < p) ==> dx[i, q] == DX(k, i, q)
      {
        dY[l, p], dz[l, p], dx[l, p] := GateCell(k, l, p);
      }
    }
  }

  method GateCell<F>(k: Chunk<F>, l: nat, p: nat) returns (dy: F, dz: F, dx: F)
    ensures dy == DY(k, l, p) && dz == DZ(k, l, p) && dx == DX(k, l, p)
  {
    var gate := Gate(k, l, p);
    dy := k.ops.mul(k.dout(l, p), gate);
    var dgate := k.ops.mul(k.dout(l, p), k.y(l, p));
    dz := k.ops.mul(dgate, SiluGrad(k.ops, k.z(l, p)));
    dx := k.ops.mul(k.d, dy);
  }

  /** The lower triangle of dY x^T, every entry cast to the tile's type; the rest of the tile is the cast zero. */
  method BuildDyx<F(0)>(k: Chunk<F>, dY: array2<F>) returns (dyx: array2<F>)
    requires Holds(dY, k.len, k.dims, (l, p) => DY(k, l, p))
    ensures fresh(dyx) && Holds(dyx, k.len, k.len, (l, s) => Dyx(k, l, s))
  {
    hide DY, Dyx;
    dyx := new F[k.len, k.len];
    for l := 0 to k.len
      invariant forall i, s :: 0 <= i < l && 0 <= s < k.len ==> dyx[i, s] == Dyx(k, i, s)
    {
      for s := 0 to k.len
        invariant forall i, q :: 0 <= i <= l && 0 <= q < k.len && (i < l || q < s) ==> dyx[i, q] == Dyx(k, i, q)
      {
        dyx[l, s] := DyxCell(k, dY, l, s);
      }
    }
  }

  method DyxCell<F>(k: Chunk<F>, dY: array2<F>, l: nat, s: nat) returns (entry: F)
    requires l < k.len && s < k.len && Holds(dY, k.len, k.dims, (l, p) => DY(k, l, p))
    ensures entry == Dyx(k, l, s)
  {
    hide DY;
    var acc := k.ops.zero;
    if s <= l {
      for p := 0 to k.dims
        invariant acc == Fold(k.ops, 0, p, q => k.ops.mul(DY(k, l, q), k.x(s, q)))
      {
        acc := k.ops.add(acc, k.ops.mul(dY[l, p], k.x(s, p)));
      }
    }
    entry := k.ops.cast(acc);
  }

  // ---- gradient of C ----

  /** The off-diagonal accumulator of (l, n). */
  method AccnCell<F>(k: Chunk<F>, dY: array2<F>, l: nat, n: nat) returns (acc: F)
    requires l < k.len && Holds(dY, k.len, k.dims, (l, p) => DY(k, l, p))
    ensures acc == Accn(k, l, n)
  {
    hide DY;
    acc := k.ops.zero;
    for p := 0 to k.dims
      invariant acc == Fold(k.ops, 0, p, q => k.ops.mul(DY(k, l, q), k.prev(q, n)))
    {
      acc := k.ops.add(acc, k.ops.mul(dY[l, p], k.prev(p, n)));
    }
  }

  method DiagCell<F>(k: Chunk<F>, dyx: array2<F>, l: nat, n: nat) returns (acc: F)
    requires l < k.len && Holds(dyx, k.len, k.len, (l, s) => Dyx(k, l, s))
    ensures acc == Fold(k.ops, 0, l + 1, s => DiagTerm(k, l, n, s))
  {
    hide Dyx, Lmat;
    acc := k.ops.zero;
    for s := 0 to l + 1
      invariant acc == Fold(k.ops, 0, s, q => DiagTerm(k, l, n, q))
    {
      acc := k.ops.add(acc, k.ops.mul(k.ops.mul(k.ops.mul(Lmat(k, l, s), k.dt(s)), dyx[l, s]), k.b(s, n)));
    }
  }

  /** dC, and the terms it sends to the cumulative decay's gradient. */
  method BackC<F(0)>(k: Chunk<F>, from: Source<F>, dY: array2<F>, dyx: array2<F>)
    returns (dC: array2<F>, off: array2<F>)
    requires from.Valid(k) && Holds(dY, k.len, k.dims, (l, p) => DY(k, l, p))
             && Holds(dyx, k.len, k.len, (l, s) => Dyx(k, l, s))
    ensures fresh({dC, off}) && dC != off
    ensures Holds(dC, k.len, k.states, (l, n) => DC(k, l, n)) && Holds(off, k.len, k.states, (l, n) => OffTerm(k, l, n))
  {
    hide DY, Dyx, Accn, DiagTerm, Sd, DC, OffTerm, Source.Valid;
    dC, off := new F[k.len, k.states], new F[k.len, k.states];
    for l := 0 to k.len
      invariant from.Valid(k)
      invariant forall i, n :: 0 <= i < l && 0 <= n < k.states ==>
                dC[i, n] == DC(k, i, n) && off[i, n] == OffTerm(k, i, n)
    {
      for n := 0 to k.states
        invariant from.Valid(k)
        invariant forall i, q :: 0 <= i <= l && 0 <= q < k.states && (i < l || q < n) ==>
                  dC[i, q] == DC(k, i, q) && off[i, q] == OffTerm(k, i, q)
      {
        var dc, term := CellC(k, from, dY, dyx, l, n);
        dC[l, n], off[l, n] := dc, term;
      }
    }
  }

  method CellC<F>(k: Chunk<F>, from: Source<F>, dY: array2<F>, dyx: array2<F>, l: nat, n: nat) returns (dc: F, off: F)
    requires l < k.len && n < k.states && from.Valid(k)
    requires Holds(dY, k.len, k.dims, (l, p) => DY(k, l, p)) && Holds(dyx, k.len, k.len, (l, s) => Dyx(k, l, s))
    ensures dc == DC(k, l, n) && off == OffTerm(k, l, n)
  {
    hide DY, Dyx, Accn, DiagTerm, Sd, Source.Valid, Holds;
    var sd := Sd(k, l);
    var accn := AccnCell(k, dY, l, n);
    var diag := DiagCell(k, dyx, l, n);
    dc := k.ops.add(k.ops.mul(accn, sd), diag);
    var c := ReadC(k, from, l, n);
    off := k.ops.mul(k.ops.mul(accn, c), sd);
  }

  // ---- gradient of the carried chunk state ----

  method BackChunk<F(0)>(k: Chunk<F>, from: Source<F>, dY: array2<F>) returns (dchunk: array2<F>)
    requires from.Valid(k) && Holds(dY, k.len, k.dims, (l, p) => DY(k, l, p))
    ensures fresh(dchunk) && Holds(dchunk, k.dims, k.states, (p, n) => DChunk(k, p, n))
  {
    hide DY, DChunk, Source.Valid, Holds;
    dchunk := new F[k.dims, k.states];
    for p := 0 to k.dims
      invariant from.Valid(k)
      invariant forall i, n :: 0 <= i < p && 0 <= n < k.states ==> dchunk[i, n] == DChunk(k, i, n)
    {
      for n := 0 to k.states
        invariant from.Valid(k)
        invariant forall i, q :: 0 <= i <= p && 0 <= q < k.states && (i < p || q < n) ==>
                  dchunk[i, q] == DChunk(k, i, q)
      {
        dchunk[p, n] := ChunkCell(k, from, dY, p, n);
      }
    }
    HoldsForm(dchunk, k.dims, k.states, (p, n) => DChunk(k, p, n));
  }

  lemma HoldsForm<F>(a: array2<F>, n: nat, k: nat, f: (int, int) -> F)
    requires a.Length0 == n && a.Length1 == k && forall i, j :: 0 <= i < n && 0 <= j < k ==> a[i, j] == f(i, j)
    ensures Holds(a, n, k, f)
  {
  }

  method ChunkCell<F>(k: Chunk<F>, from: Source<F>, dY: array2<F>, p: nat, n: nat) returns (acc: F)
    requires p < k.dims && n < k.states && from.Valid(k) && Holds(dY, k.len, k.dims, (l, p) => DY(k, l, p))
    ensures acc == DChunk(k, p, n)
  {
    hide DY, Sd, Source.Valid;
    acc := k.ops.zero;
    for l := 0 to k.len
      invariant acc == Fold(k.ops, 0, l, q => ChunkTerm(k, p, n, q))
    {
      var c := ReadC(k, from, l, n);
      acc := k.ops.add(acc, k.ops.mul(k.ops.mul(dY[l, p], c), Sd(k, l)));
    }
  }

  // ---- gradient of the chunk's inputs ----

  method InpCell<F>(k: Chunk<F>, from: Source<F>, dY: array2<F>, s: nat, p: nat, n: nat) returns (acc: F)
    requires s < k.len && p < k.dims && n < k.states && from.Valid(k)
    requires Holds(dY, k.len, k.dims, (l, p) => DY(k, l, p))
    ensures acc == DInp(k, s, p, n)
  {
    hide *;
    ghost var terms := (l: int) => InpTerm(k, s, p, n, l);
    acc := k.ops.zero;
    FoldSteps(k.ops, s, s, terms);
    for l := s to k.len
      invariant acc == Fold(k.ops, s, l, terms)
    {
      var term := InpStep(k, from, dY, s, p, n, l);
      acc := k.ops.add(acc, term);
      FoldSteps(k.ops, s, l, terms);
    }
    DInpFold(k, s, p, n, terms);
  }

  method InpStep<F>(k: Chunk<F>, from: Source<F>, dY: array2<F>, s: nat, p: nat, n: nat, l: nat) returns (term: F)
    requires l < k.len && p < k.dims && n < k.states && from.Valid(k)
    requires Holds(dY, k.len, k.dims, (l, p) => DY(k, l, p))
    ensures term == InpTerm(k, s, p, n, l)
  {
    hide DY, Lmat, Source.Valid;
    var c := ReadC(k, from, l, n);
    term := k.ops.mul(k.ops.mul(dY[l, p], c), Lmat(k, l, s));
  }

  /** The flat index of cell (s, p, n). */
  function Flat<F>(k: Chunk<F>, s: int, p: int, n: int): int { (s * k.dims + p) * k.states + n }

  /** The cell of flat index `i`, and its uniqueness. */
  lemma FlatParts<F>(k: Chunk<F>, i: nat)
    requires i < k.len * k.dims * k.states
    ensures 0 < k.dims && 0 < k.states
    ensures 0 <= i / k.states / k.dims < k.len && 0 <= i / k.states % k.dims < k.dims && 0 <= i % k.states < k.states
    ensures Flat(k, i / k.states / k.dims, i / k.states % k.dims, i % k.states) == i
  {
    if k.dims == 0 || k.states == 0 {
      assert false;
    }
    DivRange(i, k.len * k.dims, k.states);
    DivRange(i / k.states, k.len, k.dims);
  }

  lemma FlatUnique<F>(k: Chunk<F>, s: int, p: int, n: int, i: int)
    requires 0 <= p < k.dims && 0 <= n < k.states && Flat(k, s, p, n) == i
    ensures s == i / k.states / k.dims && p == i / k.states % k.dims && n == i % k.states
  {
    DivMod(s * k.dims + p, n, k.states);
    DivMod(s, p, k.dims);
  }

  lemma FlatBound<F>(k: Chunk<F>, s: int, p: int, n: int)
    requires 0 <= s < k.len && 0 <= p < k.dims && 0 <= n < k.states
    ensures 0 <= Flat(k, s, p, n) < k.len * k.dims * k.states
  {
    FlatRange(s, k.len, p, k.dims);
    FlatRange(s * k.dims + p, k.len * k.dims, n, k.states);
  }

  /** Every cell before flat index `i` holds its gradient. */
  ghost predicate Filled<F>(k: Chunk<F>, dinp: array3<F>, i: int, f: (int, int, int) -> F)
    reads dinp
  {
    && dinp.Length0 == k.len && dinp.Length1 == k.dims && dinp.Length2 == k.states
    && forall s, p, n :: 0 <= s < k.len && 0 <= p < k.dims && 0 <= n < k.states && Flat(k, s, p, n) < i ==>
       dinp[s, p, n] == f(s, p, n)
  }

  method SetCell<F>(k: Chunk<F>, dinp: array3<F>, i: nat, v: F, ghost f: (int, int, int) -> F)
    requires i < k.len * k.dims * k.states && 0 < k.dims && 0 < k.states && Filled(k, dinp, i, f)
    requires v == f(i / k.states / k.dims, i / k.states % k.dims, i % k.states)
    modifies dinp
    ensures Filled(k, dinp, i + 1, f)
  {
    hide Flat;
    FlatParts(k, i);
    forall s, p, n | 0 <= s < k.len && 0 <= p < k.dims && 0 <= n < k.states && Flat(k, s, p, n) == i
      ensures s == i / k.states / k.dims && p == i / k.states % k.dims && n == i % k.states
    {
      FlatUnique(k, s, p, n, i);
    }
    dinp[i / k.states / k.dims, i / k.states % k.dims, i % k.states] := v;
  }

  lemma AllFilled<F>(k: Chunk<F>, dinp: array3<F>, i: int, f: (int, int, int) -> F)
    requires Filled(k, dinp, i, f) && i >= k.len * k.dims * k.states
    ensures Holds3(dinp, k.len, k.dims, k.states, f)
  {
    hide Flat;
    forall s, p, n | 0 <= s < k.len && 0 <= p < k.dims && 0 <= n < k.states ensures dinp[s, p, n] == f(s, p, n) {
      FlatBound(k, s, p, n);
    }
  }

  lemma NothingFilled<F>(k: Chunk<F>, dinp: array3<F>, f: (int, int, int) -> F)
    requires dinp.Length0 == k.len && dinp.Length1 == k.dims && dinp.Length2 == k.states
    ensures Filled(k, dinp, 0, f)
  {
    hide Flat;
    forall s, p, n | 0 <= s < k.len && 0 <= p < k.dims && 0 <= n < k.states ensures Flat(k, s, p, n) >= 0 {
      FlatBound(k, s, p, n);
    }
  }

  ghost predicate AllZero<F>(k: Chunk<F>, dinp: array3<F>)
    reads dinp
  {
    && dinp.Length0 == k.len && dinp.Length1 == k.dims && dinp.Length2 == k.states
    && forall s, p, n :: 0 <= s < k.len && 0 <= p < k.dims && 0 <= n < k.states ==> dinp[s, p, n] == k.ops.zero
  }

  method ZeroInp<F(0)>(k: Chunk<F>, threads: nat) returns (dinp: array3<F>)
    requires 0 < threads
    ensures fresh(dinp) && AllZero(k, dinp)
  {
    hide Filled;
    var total := k.len * k.dims * k.states;
    ghost var f := (s: int, p: int, n: int) => k.ops.zero;
    dinp := new F[k.len, k.dims, k.states];
    NothingFilled(k, dinp, f);
    var lpn := 0;
    while lpn < total
      invariant 0 <= lpn && Filled(k, dinp, Least(lpn, total), f)
      decreases total - lpn
    {
      for lane := 0 to threads
        invariant Filled(k, dinp, Least(lpn + lane, total), f)
      {
        var i := lpn + lane;
        if i < total {
          FlatParts(k, i);
          SetCell(k, dinp, i, k.ops.zero, f);
        }
      }
      lpn := lpn + threads;
    }
    AllFilled(k, dinp, total, f);
  }

  /** The flat form: everything is zeroed, then `threads` lanes step over all (s, p, n) together and store
      each cell once. */
  method BackInpFlat<F(0)>(k: Chunk<F>, threads: nat, from: Source<F>, dY: array2<F>) returns (dinp: array3<F>)
    requires 0 < threads && from.Valid(k) && Holds(dY, k.len, k.dims, (l, p) => DY(k, l, p))
    ensures fresh(dinp) && Holds3(dinp, k.len, k.dims, k.states, (s, p, n) => DInp(k, s, p, n))
  {
    hide DInp, DY, Source.Valid, Holds, Filled;
    var total := k.len * k.dims * k.states;
    ghost var f := (s: int, p: int, n: int) => DInp(k, s, p, n);
    dinp := ZeroInp(k, threads);
    NothingFilled(k, dinp, f);
    var spn := 0;
    while spn < total
      invariant 0 <= spn && Filled(k, dinp, Least(spn, total), f) && from.Valid(k)
      decreases total - spn
    {
      for lane := 0 to threads
        invariant Filled(k, dinp, Least(spn + lane, total), f) && from.Valid(k)
      {
        var i := spn + lane;
        if i < total {
          FlatParts(k, i);
          var acc := InpCell(k, from, dY, i / k.states / k.dims, i / k.states % k.dims, i % k.states);
          SetCell(k, dinp, i, acc, f);
        }
      }
      spn := spn + threads;
    }
    AllFilled(k, dinp, total, f);
  }

  // ---- the other loop order: zero, then accumulate ----

  /** Row (s, p) of the second form. */
  method AddRow<F(!new)>(k: Chunk<F>, s: nat, p: nat, from: Source<F>, dY: array2<F>, dinp: array3<F>)
    requires s < k.len && p < k.dims && from.Valid(k) && Holds(dY, k.len, k.dims, (l, p) => DY(k, l, p))
    requires dinp.Length0 == k.len && dinp.Length1 == k.dims && dinp.Length2 == k.states
    requires forall n :: 0 <= n < k.states ==> dinp[s, p, n] == k.ops.zero
    requires LeftUnit(k.ops)
    modifies dinp
    ensures forall i, q, n :: 0 <= i < k.len && 0 <= q < k.dims && 0 <= n < k.states ==>
              dinp[i, q, n] == if i == s && q == p then DInp(k, s, p, n) else old(dinp[i, q, n])
  {
    hide DInp, DY, Source.Valid, Holds;
    for n := 0 to k.states
      invariant from.Valid(k)
      invariant forall i, q, c :: 0 <= i < k.len && 0 <= q < k.dims && 0 <= c < k.states ==>
                  dinp[i, q, c] == if i == s && q == p && c < n then DInp(k, s, p, c) else old(dinp[i, q, c])
    {
      var acc := InpCell(k, from, dY, s, p, n);
      dinp[s, p, n] := k.ops.add(dinp[s, p, n], acc);
    }
  }

  /** The rows (s, p) before row number `i` hold their gradients, the others are still zero. */
  ghost predicate RowsFilled<F>(k: Chunk<F>, dinp: array3<F>, i: int)
    reads dinp
  {
    && dinp.Length0 == k.len && dinp.Length1 == k.dims && dinp.Length2 == k.states
    && forall s, p, n :: 0 <= s < k.len && 0 <= p < k.dims && 0 <= n < k.states ==>
         dinp[s, p, n] == if RowNumber(k, s, p) < i then DInp(k, s, p, n) else k.ops.zero
  }

  function RowNumber<F>(k: Chunk<F>, s: int, p: int): int { s * k.dims + p }

  lemma RowUnique<F>(k: Chunk<F>, s: int, p: int, i: int)
    requires 0 <= p < k.dims && RowNumber(k, s, p) == i
    ensures s == i / k.dims && p == i % k.dims
  {
    DivMod(s, p, k.dims);
  }

  lemma RowParts<F>(k: Chunk<F>, i: nat)
    requires i < k.len * k.dims
    ensures 0 < k.dims && 0 <= i / k.dims < k.len && 0 <= i % k.dims < k.dims
            && RowNumber(k, i / k.dims, i % k.dims) == i
  {
    if k.dims == 0 {
      assert false;
    }
    DivRange(i, k.len, k.dims);
  }

  lemma RowBounds<F>(k: Chunk<F>, s: int, p: int)
    requires 0 <= s < k.len && 0 <= p < k.dims
    ensures 0 <= RowNumber(k, s, p) < k.len * k.dims
  {
    FlatRange(s, k.len, p, k.dims);
  }

  method FillRow<F(!new)>(k: Chunk<F>, i: nat, from: Source<F>, dY: array2<F>, dinp: array3<F>)
    requires i < k.len * k.dims && from.Valid(k) && Holds(dY, k.len, k.dims, (l, p) => DY(k, l, p))
             && RowsFilled(k, dinp, i)
    requires LeftUnit(k.ops)
    modifies dinp
    ensures RowsFilled(k, dinp, i + 1)
  {
    hide DInp, DY, Source.Valid, Holds, RowNumber;
    RowParts(k, i);
    forall s, p | 0 <= s < k.len && 0 <= p < k.dims && RowNumber(k, s, p) == i
      ensures s == i / k.dims && p == i % k.dims
    {
      RowUnique(k, s, p, i);
    }
    AddRow(k, i / k.dims, i % k.dims, from, dY, dinp);
  }

  lemma NoRowsFilled<F>(k: Chunk<F>, dinp: array3<F>)
    requires AllZero(k, dinp)
    ensures RowsFilled(k, dinp, 0)
  {
    hide RowNumber, DInp;
    forall s, p | 0 <= s < k.len && 0 <= p < k.dims ensures RowNumber(k, s, p) >= 0 {
      RowBounds(k, s, p);
    }
  }

  lemma AllRowsFilled<F>(k: Chunk<F>, dinp: array3<F>, i: int)
    requires RowsFilled(k, dinp, i) && i >= k.len * k.dims
    ensures Holds3(dinp, k.len, k.dims, k.states, (s, p, n) => DInp(k, s, p, n))
  {
    hide RowNumber, DInp;
    forall s, p | 0 <= s < k.len && 0 <= p < k.dims ensures RowNumber(k, s, p) < i {
      RowBounds(k, s, p);
    }
  }

  /** The other form: everything is zeroed, then lanes step over the rows (s, p) and add to each state.  It
      gives the very values of the flat form as soon as zero is a left unit of the addition. */
  method BackInpRows<F(0,!new)>(k: Chunk<F>, threads: nat, from: Source<F>, dY: array2<F>) returns (dinp: array3<F>)
    requires 0 < threads && from.Valid(k) && Holds(dY, k.len, k.dims, (l, p) => DY(k, l, p))
    requires LeftUnit(k.ops)
    ensures fresh(dinp) && Holds3(dinp, k.len, k.dims, k.states, (s, p, n) => DInp(k, s, p, n))
  {
    hide DInp, DY, Source.Valid, Holds, RowsFilled;
    var total := k.len * k.dims;
    dinp := ZeroInp(k, threads);
    NoRowsFilled(k, dinp);
    var sp := 0;
    while sp < total
      invariant 0 <= sp && RowsFilled(k, dinp, Least(sp, total)) && from.Valid(k)
      decreases total - sp
    {
      for lane := 0 to threads
        invariant RowsFilled(k, dinp, Least(sp + lane, total)) && from.Valid(k)
      {
        if sp + lane < total {
          FillRow(k, sp + lane, from, dY, dinp);
        }
      }
      sp := sp + threads;
    }
    AllRowsFilled(k, dinp, total);
  }

  // ---- the whole block ----

  datatype Outputs<!F> = Outputs(dY: array2<F>, dz: array2<F>, dx: array2<F>, dyx: array2<F>, dC: array2<F>,
                                 off: array2<F>, dchunk: array2<F>, dinp: array3<F>)
  {
    ghost predicate Hold(k: Chunk<F>)
      reads dY, dz, dx, dyx, dC, off, dchunk, dinp
    {
      && Holds(dY, k.len, k.dims, (l, p) => DY(k, l, p)) && Holds(dz, k.len, k.dims, (l, p) => DZ(k, l, p))
      && Holds(dx, k.len, k.dims, (l, p) => DX(k, l, p)) && Holds(dyx, k.len, k.len, (l, s) => Dyx(k, l, s))
      && Holds(dC, k.len, k.states, (l, n) => DC(k, l, n)) && Holds(off, k.len, k.states, (l, n) => OffTerm(k, l, n))
      && Holds(dchunk, k.dims, k.states, (p, n) => DChunk(k, p, n))
      && Holds3(dinp, k.len, k.dims, k.states, (s, p, n) => DInp(k, s, p, n))
    }
  }

  /** The block up to its last scatter.  Reading C from the device or from the tile staged once makes no
      difference to any output, bit for bit, under any arithmetic and any number of lanes; nor does the
      loop order of the input gradient where adding to zero changes nothing. */
  method Block<F(0,!new)>(k: Chunk<F>, threads: nat, staged: bool, rows: bool) returns (out: Outputs<F>)
    requires 0 < threads
    requires rows ==> LeftUnit(k.ops)
    ensures out.Hold(k)
  {
    hide DY, DZ, DX, Dyx, DC, OffTerm, DChunk, DInp, Source.Valid, Holds, Holds3;
    var from := Open(k, staged);
    var dY, dz, dx := GateBack(k);
    var dyx := BuildDyx(k, dY);
    var dC, off := BackC(k, from, dY, dyx);
    var dchunk := BackChunk(k, from, dY);
    var dinp;
    if rows {
      dinp := BackInpRows(k, threads, from, dY);
    } else {
      dinp := BackInpFlat(k, threads, from, dY);
    }
    out := Outputs(dY, dz, dx, dyx, dC, off, dchunk, dinp);
  }
}
