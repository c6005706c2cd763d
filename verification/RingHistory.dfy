/** The convolution history of the forward kernels: a short ring of earlier projections, shifted in place at
    the end of every row, and what it holds at row `t`. */
module RingHistory {
  import opened Sums
  import opened Buffers
  import opened Indices

  /** The initial history followed by the projected rows. */
  function Stream(taps: int, init: (int, int) -> real, rows: (int, int) -> real, s: int, c: int): real {
    if s < taps then init(s, c) else rows(s - taps, c)
  }

  /** At row `t` slot `j` is entry `t + j` of the stream. */
  ghost predicate Holds(history: array2<real>, taps: nat, channels: nat, init: (int, int) -> real,
                        rows: (int, int) -> real, t: int)
    reads history
  {
    Matrix(history, taps, channels, (j, c) => Stream(taps, init, rows, t + j, c))
  }

  /** Slot `i`, channel `c` has been visited by the flat index `flat`. */
  ghost predicate Visited(channels: nat, flat: int, i: int, c: int) { i * channels + c < flat }

  lemma VisitedStep(channels: nat, flat: nat, i: int, c: int)
    requires 0 < channels && 0 <= c < channels
    ensures Visited(channels, flat + 1, i, c)
            == (Visited(channels, flat, i, c) || (i == flat / channels && c == flat % channels))
    ensures Visited(channels, flat, i, c) ==> !(i == flat / channels && c == flat % channels)
    ensures i > flat / channels ==> !Visited(channels, flat, i, c)
  {
    var q, r := flat / channels, flat % channels;
    assert flat == q * channels + r;
    if i > q {
      MulMono(q + 1, i, channels);
    } else if i < q {
      MulMono(i + 1, q, channels);
    }
  }

  /** The in-place shift of all slots but the last, in ascending flat order: slot `i` takes what slot `i + 1`
      held, because that slot is overwritten only later. */
  method ShiftSlots(history: array2<real>, taps: nat, channels: nat)
    requires 0 < taps && history.Length0 == taps && history.Length1 == channels
    modifies history
    ensures forall i, c :: 0 <= i < taps && 0 <= c < channels ==>
              history[i, c] == if i < taps - 1 then old(history[i + 1, c]) else old(history[i, c])
  {
    hide Visited;
    NoneVisited(channels);
    AllVisited(taps - 1, channels);
    for flat := 0 to (taps - 1) * channels
      invariant forall i, c :: 0 <= i < taps && 0 <= c < channels ==>
                  history[i, c] == if i < taps - 1 && Visited(channels, flat, i, c) then old(history[i + 1, c])
                    else old(history[i, c])
    {
      SlotInRange(flat, taps - 1, channels);
      var i, c := flat / channels, flat % channels;
      VisitedNext(channels, flat, taps, i, c);
      assert history[i + 1, c] == old(history[i + 1, c]);
      history[i, c] := history[i + 1, c];
    }
  }

  lemma VisitedNext(channels: nat, flat: nat, taps: nat, slot: nat, channel: nat)
    requires 0 < channels && slot == flat / channels && channel == flat % channels
    ensures forall i, c {:trigger Visited(channels, flat + 1, i, c)} :: 0 <= i < taps && 0 <= c < channels ==>
              Visited(channels, flat + 1, i, c) == (Visited(channels, flat, i, c) || (i == slot && c == channel))
    ensures !Visited(channels, flat, slot + 1, channel)
  {
    hide Visited;
    forall i, c | 0 <= i < taps && 0 <= c < channels
      ensures Visited(channels, flat + 1, i, c) == (Visited(channels, flat, i, c) || (i == slot && c == channel))
    {
      VisitedStep(channels, flat, i, c);
    }
    VisitedStep(channels, flat, slot + 1, channel);
  }

  lemma AllVisited(n: nat, channels: nat)
    ensures forall i, c {:trigger Visited(channels, n * channels, i, c)} :: 0 <= i < n && 0 <= c < channels ==>
              Visited(channels, n * channels, i, c)
  {
    var end := n * channels;
    forall i, c | 0 <= i < n && 0 <= c < channels ensures Visited(channels, end, i, c) {
      MulMono(i + 1, n, channels);
    }
  }

  lemma NoneVisited(channels: nat)
    ensures forall i, c {:trigger Visited(channels, 0, i, c)} :: 0 <= i && 0 <= c < channels ==>
            !Visited(channels, 0, i, c)
  {
    var start := 0;
    forall i, c | 0 <= i && 0 <= c < channels ensures !Visited(channels, start, i, c) {
      MulMono(0, i, channels);
    }
  }

  lemma SlotInRange(flat: nat, n: nat, channels: nat)
    requires flat < n * channels
    ensures 0 < channels && 0 <= flat / channels < n && 0 <= flat % channels < channels
  {
    if channels == 0 {
      assert false;
    } else if n <= flat / channels {
      MulMono(n, flat / channels, channels);
    }
  }

  /** The end of a row: shift, then append the row's projection. */
  method Push(history: array2<real>, taps: nat, channels: nat, projected: array<real>, at: nat,
              ghost init: (int, int) -> real, ghost rows: (int, int) -> real, ghost t: nat)
    requires 0 < taps && Holds(history, taps, channels, init, rows, t)
    requires at + channels <= projected.Length && forall c :: 0 <= c < channels ==> projected[at + c] == rows(t, c)
    modifies history
    ensures Holds(history, taps, channels, init, rows, t + 1)
  {
    hide Stream;
    ghost var before := (i: int, c: int) => Stream(taps, init, rows, t + i, c);
    assert forall i, c :: 0 <= i < taps && 0 <= c < channels ==> history[i, c] == before(i, c);
    ShiftSlots(history, taps, channels);
    assert forall i, c :: 0 <= i < taps - 1 && 0 <= c < channels ==> history[i, c] == before(i + 1, c);
    Append(history, taps, channels, projected, at);
    Pushed(history, taps, channels, init, rows, t, before);
  }

  lemma Pushed(history: array2<real>, taps: nat, channels: nat, init: (int, int) -> real, rows: (int, int) -> real,
               t: nat, before: (int, int) -> real)
    requires 0 < taps && history.Length0 == taps && history.Length1 == channels
    requires forall i, c {:trigger before(i, c)} :: before(i, c) == Stream(taps, init, rows, t + i, c)
    requires forall i, c :: 0 <= i < taps - 1 && 0 <= c < channels ==> history[i, c] == before(i + 1, c)
    requires forall c :: 0 <= c < channels ==> history[taps - 1, c] == rows(t, c)
    ensures Holds(history, taps, channels, init, rows, t + 1)
  {
    hide Stream;
    forall i, c | 0 <= i < taps && 0 <= c < channels ensures history[i, c] == Stream(taps, init, rows, t + 1 + i, c) {
      if i < taps - 1 {
        assert before(i + 1, c) == Stream(taps, init, rows, t + (i + 1), c);
        assert t + (i + 1) == t + 1 + i;
      } else {
        LastEntry(taps, init, rows, t, c);
      }
    }
  }

  lemma LastEntry(taps: nat, init: (int, int) -> real, rows: (int, int) -> real, t: nat, c: int)
    requires 0 < taps
    ensures Stream(taps, init, rows, t + 1 + (taps - 1), c) == rows(t, c)
  {
    assert t + 1 + (taps - 1) - taps == t;
  }

  /** The row's projection goes to the last slot. */
  method Append(history: array2<real>, taps: nat, channels: nat, projected: array<real>, at: nat)
    requires 0 < taps && history.Length0 == taps && history.Length1 == channels && at + channels <= projected.Length
    modifies history
    ensures forall i, c :: 0 <= i < taps && 0 <= c < channels ==>
              history[i, c] == if i < taps - 1 then old(history[i, c]) else projected[at + c]
  {
    for c := 0 to channels
      invariant forall i, k :: 0 <= i < taps && 0 <= k < channels ==>
                  history[i, k] == if i == taps - 1 && k < c then projected[at + k] else old(history[i, k])
    {
      history[taps - 1, c] := projected[at + c];
    }
  }

  lemma RingStart(history: array2<real>, taps: nat, channels: nat, init: (int, int) -> real, rows: (int, int) -> real)
    requires Matrix(history, taps, channels, init)
    ensures Holds(history, taps, channels, init, rows, 0)
  {
    forall j, c | 0 <= j < taps && 0 <= c < channels ensures history[j, c] == Stream(taps, init, rows, 0 + j, c) {
      assert history[j, c] == init(j, c);
    }
  }

  // ---- the convolution ----

  /** Tap `k` of row `t` as the backward kernels index it: a row if there is one, else the saved history. */
  function DirectTap(taps: int, init: (int, int) -> real, rows: (int, int) -> real, t: int, k: int, c: int): real {
    if t - taps + k >= 0 then rows(t - taps + k, c) else init(t + k, c)
  }

  function DirectConv(taps: nat, init: (int, int) -> real, rows: (int, int) -> real, weight: (int, int) -> real,
                            bias: int -> real, t: int, c: int): real
  {
    bias(c) + Sum(taps, k => Mul(DirectTap(taps, init, rows, t, k, c), weight(c, k))) + Mul(rows(t, c), weight(c, taps))
  }

  lemma TapForm(taps: int, init: (int, int) -> real, rows: (int, int) -> real, t: int, k: int, c: int)
    ensures Stream(taps, init, rows, t + k, c) == DirectTap(taps, init, rows, t, k, c)
  {
    assert t - taps + k == t + k - taps;
  }

  /** The convolution of one channel from the ring is the convolution the backward kernels recompute. */
  method RingConv(history: array2<real>, taps: nat, channels: nat, own: real, weight: (int, int) -> real,
                  bias: int -> real, c: nat, ghost init: (int, int) -> real, ghost rows: (int, int) -> real,
                  ghost t: nat)
    returns (value: real)
    requires Holds(history, taps, channels, init, rows, t) && c < channels && own == rows(t, c)
    ensures value == DirectConv(taps, init, rows, weight, bias, t, c)
  {
    value := bias(c);
    for k := 0 to taps
      invariant value == bias(c) + Sum(k, i => Mul(DirectTap(taps, init, rows, t, i, c), weight(c, i)))
    {
      TapForm(taps, init, rows, t, k, c);
      value := value + Mul(history[k, c], weight(c, k));
    }
    value := value + Mul(own, weight(c, taps));
  }

  /** A whole run of the forward convolution: the ring starts as the saved history and is pushed at the end
      of every row; every row's value is the directly indexed one, and the ring ends as the last entries of
      the stream. */
  method ConvRun(count: nat, history: array2<real>, taps: nat, channels: nat, projected: array2<real>,
                 weight: (int, int) -> real, bias: int -> real, ghost init: (int, int) -> real,
                 ghost rows: (int, int) -> real)
    returns (conv: array2<real>)
    requires 0 < taps && Matrix(history, taps, channels, init) && Matrix(projected, count, channels, rows)
             && history != projected
    modifies history
    ensures Matrix(conv, count, channels, (t, c) => DirectConv(taps, init, rows, weight, bias, t, c))
    ensures Holds(history, taps, channels, init, rows, count)
    ensures fresh(conv)
  {
    hide DirectConv, Holds;
    RingStart(history, taps, channels, init, rows);
    conv := new real[count, channels];
    for t := 0 to count
      invariant Holds(history, taps, channels, init, rows, t)
      invariant forall s, c :: 0 <= s < t && 0 <= c < channels ==>
                conv[s, c] == DirectConv(taps, init, rows, weight, bias, s, c)
    {
      var row := ConvRow(t, history, taps, channels, projected, weight, bias, conv, init, rows);
      Push(history, taps, channels, row, 0, init, rows, t);
    }
  }

  method ConvRow(t: nat, history: array2<real>, taps: nat, channels: nat, projected: array2<real>,
                 weight: (int, int) -> real, bias: int -> real, conv: array2<real>, ghost init: (int, int) -> real,
                 ghost rows: (int, int) -> real)
    returns (row: array<real>)
    requires t < projected.Length0 && projected.Length1 == channels && forall c :: 0 <= c < channels ==>
             projected[t, c] == rows(t, c)
    requires conv.Length0 == projected.Length0 && conv.Length1 == channels && conv != history && conv != projected
    requires Holds(history, taps, channels, init, rows, t)
    modifies conv
    ensures forall s, c :: 0 <= s < conv.Length0 && 0 <= c < channels ==>
              conv[s, c] == if s == t then DirectConv(taps, init, rows, weight, bias, t, c) else old(conv[s, c])
    ensures fresh(row) && row.Length == channels && forall c :: 0 <= c < channels ==> row[c] == rows(t, c)
  {
    hide DirectConv, Holds;
    row := new real[channels];
    for c := 0 to channels
      invariant forall k :: 0 <= k < c ==> row[k] == rows(t, k)
      invariant forall s, k :: 0 <= s < conv.Length0 && 0 <= k < channels ==>
                  conv[s, k] == if s == t && k < c then DirectConv(taps, init, rows, weight, bias, t, k)
                    else old(conv[s, k])
    {
      row[c] := projected[t, c];
      conv[t, c] := RingConv(history, taps, channels, row[c], weight, bias, c, init, rows, t);
    }
  }
}
