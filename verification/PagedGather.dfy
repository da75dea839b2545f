/** Gathering the context of several requests from a paged cache into one contiguous buffer. */
module PagedGather {

  /** Row of the flattened cache that holds the token at `position`. */
  function Slot(row: seq<nat>, page: nat, position: nat): nat
    requires 0 < page && position / page < |row|
  {
    row[position / page] * page + position % page
  }

  /** Every position of the window has a block in the table, and the block lies in the cache. */
  predicate WindowOk(cache: nat, row: seq<nat>, page: nat, start: nat, len: nat)
    requires 0 < page
  {
    forall p {:trigger Held(cache, row, page, p)} | start <= p < start + len :: Held(cache, row, page, p)
  }

  predicate Held(cache: nat, row: seq<nat>, page: nat, p: nat)
    requires 0 < page
  {
    p / page < |row| && Slot(row, page, p) < cache
  }

  /** The tokens at positions `start` to `start + len` of one request, in order. */
  function Window<T>(cache: seq<T>, row: seq<nat>, page: nat, start: nat, len: nat): (w: seq<T>)
    requires 0 < page && WindowOk(|cache|, row, page, start, len)
    ensures |w| == len
  {
    if len == 0 then []
    else
      assert Held(|cache|, row, page, start + len - 1);
      assert forall p | start <= p < start + (len - 1) :: Held(|cache|, row, page, p);
      Window(cache, row, page, start, len - 1) + [cache[Slot(row, page, start + len - 1)]]
  }

  lemma {:induction false} WindowAt<T>(cache: seq<T>, row: seq<nat>, page: nat, start: nat, len: nat, k: nat)
    requires 0 < page && WindowOk(|cache|, row, page, start, len) && k < len
    ensures Held(|cache|, row, page, start + k)
    ensures Window(cache, row, page, start, len)[k] == cache[Slot(row, page, start + k)]
  {
    assert Held(|cache|, row, page, start + k);
    assert forall p | start <= p < start + (len - 1) :: Held(|cache|, row, page, p);
    if k < len - 1 { WindowAt(cache, row, page, start, len - 1, k); }
  }

  /** Two consecutive windows joined are the combined window. */
  lemma {:induction false} WindowsJoin<T>(cache: seq<T>, row: seq<nat>, page: nat, start: nat, a: nat, b: nat)
    requires 0 < page && WindowOk(|cache|, row, page, start, a + b)
    ensures WindowOk(|cache|, row, page, start, a) && WindowOk(|cache|, row, page, start + a, b)
    ensures Window(cache, row, page, start, a + b) ==
            Window(cache, row, page, start, a) + Window(cache, row, page, start + a, b)
  {
    assert forall p | start <= p < start + a :: Held(|cache|, row, page, p);
    assert forall p | start + a <= p < start + a + b :: Held(|cache|, row, page, p);
    var w, u := Window(cache, row, page, start, a + b), Window(cache, row, page, start, a);
    var v := Window(cache, row, page, start + a, b);
    forall k | 0 <= k < a + b ensures w[k] == (u + v)[k] {
      WindowAt(cache, row, page, start, a + b, k);
      if k < a { WindowAt(cache, row, page, start, a, k); } else { WindowAt(cache, row, page, start + a, b, k - a); }
    }
  }

  // ----- the batch -----

  function SeqLen(cuSeqLens: seq<int>, i: nat): int
    requires i + 1 < |cuSeqLens|
  {
    cuSeqLens[i + 1] - cuSeqLens[i]
  }

  /** A request with no tokens is skipped. */
  function Taken(cuSeqLens: seq<int>, i: nat): nat
    requires i + 1 < |cuSeqLens|
  {
    if SeqLen(cuSeqLens, i) <= 0 then 0 else SeqLen(cuSeqLens, i)
  }

  /** Where request `i` begins in the destination. */
  function OutStart(cuSeqLens: seq<int>, i: nat): nat
    requires i == 0 || i < |cuSeqLens|
  {
    if i == 0 then 0 else OutStart(cuSeqLens, i - 1) + Taken(cuSeqLens, i - 1)
  }

  predicate BatchOk(cache: nat, page: nat, table: seq<seq<nat>>, starts: seq<nat>, cuSeqLens: seq<int>) {
    && 0 < page && |starts| + 1 == |cuSeqLens| && |starts| <= |table|
    && forall i | 0 <= i < |starts| :: WindowOk(cache, table[i], page, starts[i], Taken(cuSeqLens, i))
  }

  function WindowOf<T>(cache: seq<T>, page: nat, table: seq<seq<nat>>, starts: seq<nat>, cuSeqLens: seq<int>,
                       i: nat): seq<T>
    requires BatchOk(|cache|, page, table, starts, cuSeqLens) && i < |starts|
  {
    Window(cache, table[i], page, starts[i], Taken(cuSeqLens, i))
  }

  /** The windows of the first `n` requests, one behind the other. */
  function Gathered<T>(cache: seq<T>, page: nat, table: seq<seq<nat>>, starts: seq<nat>, cuSeqLens: seq<int>,
                       n: nat): (g: seq<T>)
    requires BatchOk(|cache|, page, table, starts, cuSeqLens) && n <= |starts|
    ensures |g| == OutStart(cuSeqLens, n)
  {
    if n == 0 then []
    else
      Gathered(cache, page, table, starts, cuSeqLens, n - 1) +
      WindowOf(cache, page, table, starts, cuSeqLens, n - 1)
  }

  /** Request `i`'s window lies where the offsets say. */
  lemma {:induction false} WindowPlace<T>(cache: seq<T>, page: nat, table: seq<seq<nat>>, starts: seq<nat>,
                                          cuSeqLens: seq<int>,
                                          i: nat, n: nat)
    requires BatchOk(|cache|, page, table, starts, cuSeqLens) && i < n <= |starts|
    ensures OutStart(cuSeqLens, i + 1) <= OutStart(cuSeqLens, n)
    ensures Gathered(cache, page, table, starts, cuSeqLens, n)[OutStart(cuSeqLens, i)..OutStart(cuSeqLens, i + 1)]
         == WindowOf(cache, page, table, starts, cuSeqLens, i)
  {
    if i < n - 1 {
      WindowPlace(cache, page, table, starts, cuSeqLens, i, n - 1);
      var g := Gathered(cache, page, table, starts, cuSeqLens, n);
      var h := Gathered(cache, page, table, starts, cuSeqLens, n - 1);
      assert g[..|h|] == h;
      assert g[OutStart(cuSeqLens, i)..OutStart(cuSeqLens, i + 1)] ==
        h[OutStart(cuSeqLens, i)..OutStart(cuSeqLens, i + 1)];
    }
  }

  /** Token `k` of the window of request `i` has come from its page and offset to place `k` of the request's part of the
      destination. */
  ghost predicate TokenCopied<T>(cache: seq<T>, dst: seq<T>, page: nat, table: seq<seq<nat>>, starts: seq<nat>,
                                 cuSeqLens: seq<int>, i: nat, k: nat)
    requires 0 < page && i < |starts| <= |table| && |starts| + 1 == |cuSeqLens|
  {
    var (p, row, to) := (starts[i] + k, table[i], OutStart(cuSeqLens, i) + k);
    && p / page < |row| && row[p / page] * page + p % page < |cache| && to < |dst|
    && dst[to] == cache[row[p / page] * page + p % page]
  }

  lemma {:induction false} GatheredAt<T>(cache: seq<T>, page: nat, table: seq<seq<nat>>, starts: seq<nat>,
                                         cuSeqLens: seq<int>, i: nat, k: nat, rest: seq<T>)
    requires BatchOk(|cache|, page, table, starts, cuSeqLens) && i < |starts| && k < cuSeqLens[i + 1] - cuSeqLens[i]
    ensures TokenCopied(cache, Gathered(cache, page, table, starts, cuSeqLens, |starts|) + rest, page, table, starts,
                        cuSeqLens, i, k)
  {
    var g := Gathered(cache, page, table, starts, cuSeqLens, |starts|);
    WindowPlace(cache, page, table, starts, cuSeqLens, i, |starts|);
    assert g[OutStart(cuSeqLens, i)..OutStart(cuSeqLens, i + 1)][k] == g[OutStart(cuSeqLens, i) + k];
    WindowAt(cache, table[i], page, starts[i], Taken(cuSeqLens, i), k);
  }

  /** With nondecreasing offsets, as the caller makes them, each request's part is where `cuSeqLens` says. */
  lemma {:induction false} OffsetsAgree(cuSeqLens: seq<int>, i: nat)
    requires i < |cuSeqLens| && forall j | 0 <= j < |cuSeqLens| - 1 :: cuSeqLens[j] <= cuSeqLens[j + 1]
    ensures OutStart(cuSeqLens, i) == cuSeqLens[i] - cuSeqLens[0]
  {
    if 0 < i { OffsetsAgree(cuSeqLens, i - 1); }
  }

  lemma {:induction false} OutStartGrows(cuSeqLens: seq<int>, i: nat, n: nat)
    requires i <= n < |cuSeqLens|
    ensures OutStart(cuSeqLens, i) <= OutStart(cuSeqLens, n)
  {
    if i < n { OutStartGrows(cuSeqLens, i, n - 1); }
  }

  /** Copy one request's window into `dst` from `outStart` on. */
  method CopyWindow<T>(cache: seq<T>, dst: array<T>, row: seq<nat>, page: nat, start: nat, len: nat, outStart: nat)
    requires 0 < page && WindowOk(|cache|, row, page, start, len) && outStart + len <= dst.Length
    modifies dst
    ensures dst[..] == old(dst[..outStart]) + Window(cache, row, page, start, len) + old(dst[outStart + len..])
  {
    ghost var w := Window(cache, row, page, start, len);
    for k := 0 to len
      invariant forall j | 0 <= j < dst.Length ::
                dst[j] == if outStart <= j < outStart + k then w[j - outStart] else old(dst[j])
    {
      WindowAt(cache, row, page, start, len, k);
      dst[outStart + k] := cache[Slot(row, page, start + k)];
    }
  }

  /** Gather the windows of all requests, one behind the other; nothing behind them is touched. */
  method Gather<T>(cache: seq<T>, dst: array<T>, page: nat, table: seq<seq<nat>>, starts: seq<nat>, cuSeqLens: seq<int>)
    requires BatchOk(|cache|, page, table, starts, cuSeqLens) && OutStart(cuSeqLens, |starts|) <= dst.Length
    modifies dst
    ensures dst[..] == Gathered(cache, page, table, starts, cuSeqLens, |starts|) +
                       old(dst[OutStart(cuSeqLens, |starts|)..])
    ensures forall i, k | 0 <= i < |starts| && 0 <= k < cuSeqLens[i + 1] - cuSeqLens[i] ::
              TokenCopied(cache, dst[..], page, table, starts, cuSeqLens, i, k)
  {
    var outStart := 0;
    for i := 0 to |starts|
      invariant outStart == OutStart(cuSeqLens, i) <= dst.Length
      invariant dst[..] == Gathered(cache, page, table, starts, cuSeqLens, i) + old(dst[outStart..])
    {
      OutStartGrows(cuSeqLens, i + 1, |starts|);
      var seqLen := cuSeqLens[i + 1] - cuSeqLens[i];
      if 0 < seqLen {
        ghost var before := dst[..];
        CopyWindow(cache, dst, table[i], page, starts[i], seqLen, outStart);
        assert before[outStart + seqLen..] == old(dst[outStart + seqLen..]);
        assert before[..outStart] == Gathered(cache, page, table, starts, cuSeqLens, i);
        outStart := outStart + seqLen;
      }
    }
    forall i, k | 0 <= i < |starts| && 0 <= k < cuSeqLens[i + 1] - cuSeqLens[i]
      ensures TokenCopied(cache, dst[..], page, table, starts, cuSeqLens, i, k)
    {
      GatheredAt(cache, page, table, starts, cuSeqLens, i, k, old(dst[outStart..]));
    }
  }
}
