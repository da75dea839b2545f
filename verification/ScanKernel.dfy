/** The selective-scan kernel as it is launched: strided tensors, variable-length sequences, three
    ways to find the state slot, and prefix-cache chunk metadata. Each (batch, dim) index of the launch
    is one program of `ScanGrid`. */
module ScanKernel {
  import opened ScanGrid

  /** Strides of `delta` or of `z`; the innermost stride is 1. */
  datatype Layout = Layout(batchStride: nat, dimStride: nat)

  /** How a program finds the slot of its state: the batch index itself, one slot per sequence, or
      (prefix caching) a block table with chunk metadata. */
  datatype Cache =
    | Direct
    | Indexed(slots: seq<int>)
    | Apc(table: seq<seq<int>>, initialIdx: seq<nat>, blockFirst: seq<nat>, blockLast: seq<nat>,
          cuChunk: seq<int>, lastChunk: seq<int>, blockSize: nat)

  /** `update`, `emit` and `gate` stand for the arithmetic on one token of one (batch, dim) index. */
  datatype Launch<!S> = Launch(
    batches: nat, dims: nat,
    varlen: bool, queryStart: seq<nat>, seqlen: nat,
    deltaLayout: Layout, zLayout: Layout, hasZ: bool,
    slotStride: nat, stateDimStride: nat,
    cache: Cache, nullBlock: int, hasInitialState: seq<bool>,
    zero: S,
    update: (nat, nat, nat, real, S) -> S,
    emit: (nat, nat, nat, real, S) -> real,
    gate: (real, real) -> real)

  // ----- addressing -----

  ghost predicate SequencesWf<S>(l: Launch<S>) {
    && |l.hasInitialState| == l.batches
    && (l.varlen ==>
          && |l.queryStart| == l.batches + 1
          && forall b, c | 0 <= b <= c <= l.batches :: l.queryStart[b] <= l.queryStart[c])
  }

  function SeqLen<S>(l: Launch<S>, b: nat): nat
    requires SequencesWf(l) && b < l.batches
  {
    if l.varlen then l.queryStart[b + 1] - l.queryStart[b] else l.seqlen
  }

  function Base<S>(l: Launch<S>, y: Layout, b: nat, d: nat): nat
    requires SequencesWf(l) && b < l.batches
  {
    if l.varlen then d * y.dimStride + l.queryStart[b] * y.batchStride
    else b * y.batchStride + d * y.dimStride
  }

  /** A dense-enough tensor: distinct elements never share an address. */
  ghost predicate LayoutWf<S>(l: Launch<S>, y: Layout)
    requires SequencesWf(l)
  {
    if l.varlen then y.batchStride == 1 && l.queryStart[l.batches] <= y.dimStride
    else
      || (l.seqlen <= y.dimStride && l.dims * y.dimStride <= y.batchStride)
      || (l.seqlen <= y.batchStride && l.batches * y.batchStride <= y.dimStride)
  }

  lemma {:induction false} MulAtLeast(k: nat, stride: nat)
    requires 1 <= k
    ensures k * stride >= stride
  {
    assert k * stride == (k - 1) * stride + stride;
  }

  lemma {:induction false} StrideGap(a: nat, b: nat, stride: nat)
    requires a < b
    ensures a * stride + stride <= b * stride
  {
    MulAtLeast(b - a, stride);
    assert b * stride == a * stride + (b - a) * stride;
  }

  /** Rows `(a, b)` and `(c, d)` of a two-level layout, in lexicographic order. */
  lemma {:induction false} RowGap(a: nat, b: nat, c: nat, d: nat, n: nat, inner: nat, outer: nat, len: nat)
    requires b < n && d < n && len <= inner && n * inner <= outer
    requires a < c || (a == c && b < d)
    ensures a * outer + b * inner + len <= c * outer + d * inner
  {
    if a < c {
      StrideGap(a, c, outer);
      StrideGap(b, n, inner);
      assert 0 <= d * inner;
    } else {
      StrideGap(b, d, inner);
    }
  }

  /** The rows of two different (batch, dim) indices occupy disjoint address ranges. */
  lemma {:induction false} RowsDisjoint<S>(l: Launch<S>, y: Layout, b: nat, d: nat, b': nat, d': nat)
    requires SequencesWf(l) && LayoutWf(l, y)
    requires b < l.batches && d < l.dims && b' < l.batches && d' < l.dims && (b != b' || d != d')
    ensures Base(l, y, b, d) + SeqLen(l, b) <= Base(l, y, b', d')
         || Base(l, y, b', d') + SeqLen(l, b') <= Base(l, y, b, d)
  {
    if l.varlen {
      if d < d' { StrideGap(d, d', y.dimStride); }
      if d' < d { StrideGap(d', d, y.dimStride); }
    } else if l.seqlen <= y.dimStride && l.dims * y.dimStride <= y.batchStride {
      if b < b' || (b == b' && d < d') {
        RowGap(b, d, b', d', l.dims, y.dimStride, y.batchStride, l.seqlen);
      } else {
        RowGap(b', d', b, d, l.dims, y.dimStride, y.batchStride, l.seqlen);
      }
    } else if d < d' || (d == d' && b < b') {
      RowGap(d, b, d', b', l.batches, y.batchStride, y.dimStride, l.seqlen);
    } else {
      RowGap(d', b', d, b, l.batches, y.batchStride, y.dimStride, l.seqlen);
    }
  }

  // ----- slots and chunks -----

  /** Shape of the cache metadata. The chunks of a sequence cover exactly its tokens (a sequence without tokens may have
      none), and the block indices it will look up lie inside its row of the table. */
  ghost predicate CacheWf<S>(l: Launch<S>)
    requires SequencesWf(l)
  {
    match l.cache
    case Direct => true
    case Indexed(slots) => |slots| == l.batches
    case Apc(table, initialIdx, blockFirst, blockLast, cu, last, bs) =>
      && |table| == |initialIdx| == |blockFirst| == |blockLast| == |last| == l.batches
      && 0 < bs
      && forall b | 0 <= b < l.batches :: RowWf(l, b)
  }

  ghost predicate RowWf<S>(l: Launch<S>, b: nat)
    requires SequencesWf(l) && l.cache.Apc? && b < l.batches && 0 < l.cache.blockSize
    requires |l.cache.table| == |l.cache.initialIdx| == |l.cache.blockFirst| == |l.cache.blockLast| ==
             |l.cache.lastChunk| == l.batches
  {
    var (first, last, cu, row) := (FirstChunk(l, b), l.cache.lastChunk[b], l.cache.cuChunk, l.cache.table[b]);
    && 0 <= first <= last + 1 < |cu|
    && (forall i, j | first <= i <= j <= last + 1 :: cu[i] <= cu[j])
    && cu[last + 1] - cu[first] == SeqLen(l, b)
    && l.cache.initialIdx[b] < |row| && l.cache.blockLast[b] < |row|
    && forall c | 0 <= c < last - first :: 0 <= BlockDone(l, b, c) < |row|
  }

  function FirstChunk<S>(l: Launch<S>, b: nat): int
    requires l.cache.Apc? && b < |l.cache.lastChunk|
  {
    if b == 0 then 0 else l.cache.lastChunk[b - 1] + 1
  }

  function NumChunks<S>(l: Launch<S>, b: nat): (n: nat)
    requires SequencesWf(l) && CacheWf(l) && b < l.batches
  {
    if l.cache.Apc? then
      assert RowWf(l, b);
      l.cache.lastChunk[b] - FirstChunk(l, b) + 1
    else 1
  }

  /** Number of tokens of the sequence that come before chunk `c`. */
  function ChunkStart<S>(l: Launch<S>, b: nat, c: nat): (n: nat)
    requires SequencesWf(l) && CacheWf(l) && b < l.batches && c <= NumChunks(l, b)
    ensures n <= SeqLen(l, b)
    ensures c == 0 ==> n == 0
    ensures c == NumChunks(l, b) ==> n == SeqLen(l, b)
  {
    if l.cache.Apc? then
      assert RowWf(l, b);
      var f := FirstChunk(l, b);
      l.cache.cuChunk[f + c] - l.cache.cuChunk[f]
    else if c == 0 then 0 else SeqLen(l, b)
  }

  /** `current_position` before the first chunk: a short first chunk is placed at the end of its
      block, so that it finishes the block. */
  function StartPosition<S>(l: Launch<S>, b: nat): int
    requires l.cache.Apc? && b < |l.cache.lastChunk| && b < |l.cache.blockFirst|
    requires 0 <= FirstChunk(l, b) < |l.cache.cuChunk| - 1
  {
    var f := FirstChunk(l, b);
    var firstTokens := l.cache.cuChunk[f + 1] - l.cache.cuChunk[f];
    l.cache.blockFirst[b] * l.cache.blockSize +
    if l.cache.lastChunk[b] - f + 1 > 1 && firstTokens < l.cache.blockSize
    then l.cache.blockSize - firstTokens else 0
  }

  /** `block_idx_done` of a chunk that is not the last. */
  function BlockDone<S>(l: Launch<S>, b: nat, c: nat): int
    requires l.cache.Apc? && b < |l.cache.lastChunk| && b < |l.cache.blockFirst| && 0 < l.cache.blockSize
    requires 0 <= FirstChunk(l, b) && FirstChunk(l, b) + c + 1 < |l.cache.cuChunk|
  {
    var f := FirstChunk(l, b);
    (StartPosition(l, b) + l.cache.cuChunk[f + c + 1] - l.cache.cuChunk[f] - 1) / l.cache.blockSize
  }

  /** Chunks of a sequence that may resume in the middle of a block: the first has 1 to `blockSize` tokens
      and all others but the last are full. */
  ghost predicate BlockShaped<S>(l: Launch<S>, b: nat)
    requires l.cache.Apc? && b < |l.cache.lastChunk|
  {
    var (f, n) := (FirstChunk(l, b), l.cache.lastChunk[b] - FirstChunk(l, b) + 1);
    && 0 <= f && 0 < n && f + n < |l.cache.cuChunk|
    && 1 <= l.cache.cuChunk[f + 1] - l.cache.cuChunk[f] <= l.cache.blockSize
    && forall i | f + 1 <= i < f + n - 1 :: l.cache.cuChunk[i + 1] == l.cache.cuChunk[i] + l.cache.blockSize
  }

  lemma {:induction false} FullChunks<S>(l: Launch<S>, b: nat, c: nat)
    requires l.cache.Apc? && b < |l.cache.lastChunk| && BlockShaped(l, b)
    requires c < l.cache.lastChunk[b] - FirstChunk(l, b)
    ensures var f := FirstChunk(l, b);
            l.cache.cuChunk[f + c + 1] == l.cache.cuChunk[f + 1] + c * l.cache.blockSize
  {
    if 0 < c {
      FullChunks(l, b, c - 1);
      assert c * l.cache.blockSize == (c - 1) * l.cache.blockSize + l.cache.blockSize;
    }
  }

  /** The checkpoints of a sequence go to consecutive blocks, starting with the block of its first
      scheduled token, also when it resumes in the middle of that block. */
  lemma {:induction false} CheckpointBlock<S>(l: Launch<S>, b: nat, c: nat)
    requires l.cache.Apc? && b < |l.cache.lastChunk| && b < |l.cache.blockFirst| && BlockShaped(l, b)
    requires c < l.cache.lastChunk[b] - FirstChunk(l, b)
    ensures BlockDone(l, b, c) == l.cache.blockFirst[b] + c
  {
    FullChunks(l, b, c);
    var (f, size, q) := (FirstChunk(l, b), l.cache.blockSize, l.cache.blockFirst[b] + c);
    assert (l.cache.blockFirst[b] + c) * size == l.cache.blockFirst[b] * size + c * size;
    assert StartPosition(l, b) + l.cache.cuChunk[f + c + 1] - l.cache.cuChunk[f] == q * size + size;
    LastOfBlock(q, size);
  }

  lemma {:induction false} LastOfBlock(q: nat, size: nat)
    requires 0 < size
    ensures (q * size + size - 1) / size == q
  {
    var x := q * size + size - 1;
    var y := x / size;
    assert x == y * size + x % size;
    if y < q { StrideGap(y, q, size); }
    if q < y { StrideGap(q, y, size); }
  }

  function LoadSlot<S>(l: Launch<S>, b: nat): int
    requires SequencesWf(l) && CacheWf(l) && b < l.batches
  {
    match l.cache
    case Direct => b
    case Indexed(slots) => slots[b]
    case Apc(table, initialIdx, _, _, _, _, _) =>
      assert RowWf(l, b);
      table[b][initialIdx[b]]
  }

  /** A program whose slot is the null block returns at once. */
  predicate Active<S>(l: Launch<S>, b: nat)
    requires SequencesWf(l) && CacheWf(l) && b < l.batches
  {
    l.cache.Direct? || LoadSlot(l, b) != l.nullBlock
  }

  /** The slot that receives the state after chunk `c`. */
  function SaveSlot<S>(l: Launch<S>, b: nat, c: nat): int
    requires SequencesWf(l) && CacheWf(l) && b < l.batches && c < NumChunks(l, b)
  {
    if l.cache.Apc? then
      assert RowWf(l, b);
      if c == NumChunks(l, b) - 1 then l.cache.table[b][l.cache.blockLast[b]]
      else l.cache.table[b][BlockDone(l, b, c)]
    else LoadSlot(l, b)
  }

  /** Slots that the sequence reads or writes. */
  ghost predicate UsesSlot<S>(l: Launch<S>, b: nat, slot: int)
    requires SequencesWf(l) && CacheWf(l) && b < l.batches
  {
    || (l.hasInitialState[b] && slot == LoadSlot(l, b))
    || exists c | 0 <= c < NumChunks(l, b) :: slot == SaveSlot(l, b, c)
  }

  function Cell<S>(l: Launch<S>, slot: int, d: nat): int {
    slot * l.slotStride + d * l.stateDimStride
  }

  ghost predicate CellsWf<S>(l: Launch<S>) {
    1 <= l.stateDimStride && l.dims * l.stateDimStride <= l.slotStride
  }

  /** Slots of active sequences are real slots, and those written for one sequence are neither read nor
      written for another. */
  ghost predicate SlotsWf<S>(l: Launch<S>)
    requires SequencesWf(l) && CacheWf(l)
  {
    && (forall b, slot | 0 <= b < l.batches && Active(l, b) && UsesSlot(l, b, slot) :: 0 <= slot)
    && (forall b, c, k {:trigger UsesSlot(l, c, SaveSlot(l, b, k))}
          | 0 <= b < l.batches && 0 <= c < l.batches && b != c
            && Active(l, b) && Active(l, c) && 0 <= k < NumChunks(l, b) ::
          !UsesSlot(l, c, SaveSlot(l, b, k)))
  }

  ghost predicate Wf<S>(l: Launch<S>) {
    && SequencesWf(l) && CacheWf(l)
    && LayoutWf(l, l.deltaLayout) && (l.hasZ ==> LayoutWf(l, l.zLayout))
    && CellsWf(l) && SlotsWf(l)
  }

  lemma {:induction false} CellNonneg<S>(l: Launch<S>, s: nat, d: nat)
    ensures 0 <= Cell(l, s, d)
  {
    assert 0 <= s * l.slotStride && 0 <= d * l.stateDimStride;
  }

  lemma {:induction false} CellsDistinct<S>(l: Launch<S>, s: nat, d: nat, s': nat, d': nat)
    requires CellsWf(l) && d < l.dims && d' < l.dims
    requires Cell(l, s, d) == Cell(l, s', d')
    ensures s == s' && d == d'
  {
    if s < s' || (s == s' && d < d') {
      RowGap(s, d, s', d', l.dims, l.stateDimStride, l.slotStride, 1);
    } else if s' < s || (s == s' && d' < d) {
      RowGap(s', d', s, d, l.dims, l.stateDimStride, l.slotStride, 1);
    }
  }

  // ----- programs of the launch -----

  function SaveCell<S>(l: Launch<S>, b: nat, d: nat, c: nat): (a: nat)
    requires Wf(l) && b < l.batches && Active(l, b) && c < NumChunks(l, b)
    ensures a == Cell(l, SaveSlot(l, b, c), d)
  {
    assert UsesSlot(l, b, SaveSlot(l, b, c));
    CellNonneg(l, SaveSlot(l, b, c), d);
    Cell(l, SaveSlot(l, b, c), d)
  }

  /** The chunk boundaries of a sequence, from 0 to its length. */
  function ChunkBounds<S>(l: Launch<S>, b: nat): (s: seq<nat>)
    requires Wf(l) && b < l.batches
    ensures |s| == NumChunks(l, b) + 1 && s[0] == 0 && s[NumChunks(l, b)] == SeqLen(l, b)
    ensures forall i, j | 0 <= i <= j < |s| :: s[i] <= s[j]
    ensures forall i | 0 <= i < |s| :: s[i] == ChunkStart(l, b, i)
  {
    assert l.cache.Apc? ==> RowWf(l, b);
    seq(NumChunks(l, b) + 1, c requires 0 <= c <= NumChunks(l, b) => ChunkStart(l, b, c))
  }

  function ProgramOf<S>(l: Launch<S>, b: nat, d: nat): (k: Program<S>)
    requires Wf(l) && b < l.batches && d < l.dims
    ensures k.active == Active(l, b)
    ensures ProgramOk(k)
  {
    var update := (i: nat, delta: real, s: S) => l.update(b, d, i, delta, s);
    var emit := (i: nat, delta: real, s: S) => l.emit(b, d, i, delta, s);
    if !Active(l, b) then Program(false, 0, 0, 0, l.hasZ, -1, l.zero, [0], [], update, emit, l.gate)
    else
      Program(true, Base(l, l.deltaLayout, b, d), Base(l, l.zLayout, b, d), SeqLen(l, b), l.hasZ,
              if l.hasInitialState[b] then Cell(l, LoadSlot(l, b), d) else -1, l.zero,
              ChunkBounds(l, b),
              seq(NumChunks(l, b), c requires 0 <= c < NumChunks(l, b) => SaveCell(l, b, d, c)),
              update, emit, l.gate)
  }

  /** Two programs of a launch never interfere. */
  lemma {:induction false} ProgramsApart<S>(l: Launch<S>, b: nat, d: nat, b': nat, d': nat)
    requires Wf(l) && b < l.batches && d < l.dims && b' < l.batches && d' < l.dims && (b != b' || d != d')
    ensures Apart(ProgramOf(l, b, d), ProgramOf(l, b', d'))
  {
    RowsDisjoint(l, l.deltaLayout, b, d, b', d');
    if l.hasZ { RowsDisjoint(l, l.zLayout, b, d, b', d'); }
    var k, j := ProgramOf(l, b, d), ProgramOf(l, b', d');
    forall a: nat | WritesCell(k, a) ensures !UsesCell(j, a) {
      CellsApart(l, b, d, b', d', a);
    }
  }

  lemma {:induction false} CellsApart<S>(l: Launch<S>, b: nat, d: nat, b': nat, d': nat, a: nat)
    requires Wf(l) && b < l.batches && d < l.dims && b' < l.batches && d' < l.dims && (b != b' || d != d')
    requires WritesCell(ProgramOf(l, b, d), a)
    ensures !UsesCell(ProgramOf(l, b', d'), a)
  {
    var k, j := ProgramOf(l, b, d), ProgramOf(l, b', d');
    var c :| 0 <= c < |k.cells| && k.cells[c] == a;
    var s := SaveSlot(l, b, c);
    assert UsesSlot(l, b, s);
    if UsesCell(j, a) {
      assert b != b' ==> !UsesSlot(l, b', SaveSlot(l, b, c));
      var s' := LoadSlot(l, b');
      if a in j.cells {
        var e :| 0 <= e < |j.cells| && j.cells[e] == a;
        s' := SaveSlot(l, b', e);
      }
      assert UsesSlot(l, b', s');
      CellsDistinct(l, s, d, s', d');
    }
  }

  // ----- the whole launch -----

  /** An enumeration of the grid `(batch_size, dim)`. */
  ghost predicate Enumerates<S>(l: Launch<S>, ix: seq<(nat, nat)>) {
    && (forall i | 0 <= i < |ix| :: ix[i].0 < l.batches && ix[i].1 < l.dims)
    && (forall i, j | 0 <= i < j < |ix| :: ix[i] != ix[j])
    && (forall b, d | 0 <= b < l.batches && 0 <= d < l.dims :: (b, d) in ix)
  }

  ghost function GridOf<S>(l: Launch<S>, ix: seq<(nat, nat)>): (ks: seq<Program<S>>)
    requires Wf(l) && Enumerates(l, ix)
    ensures |ks| == |ix|
    ensures forall i | 0 <= i < |ks| :: ks[i] == ProgramOf(l, ix[i].0, ix[i].1)
  {
    seq(|ix|, i requires 0 <= i < |ix| => ProgramOf(l, ix[i].0, ix[i].1))
  }

  ghost predicate LaunchFits<S>(l: Launch<S>, m: Mem<S>)
    requires Wf(l)
  {
    forall b, d | 0 <= b < l.batches && 0 <= d < l.dims :: Fits(ProgramOf(l, b, d), m)
  }

  lemma {:induction false} LaunchOk<S>(l: Launch<S>, ix: seq<(nat, nat)>, m: Mem<S>)
    requires Wf(l) && LaunchFits(l, m) && Enumerates(l, ix)
    ensures GridOk(GridOf(l, ix), m)
  {
    var ks := GridOf(l, ix);
    forall i, j | 0 <= i < |ks| && 0 <= j < |ks| && i != j ensures Apart(ks[i], ks[j]) {
      assert ix[i] != ix[j];
      ProgramsApart(l, ix[i].0, ix[i].1, ix[j].0, ix[j].1);
    }
  }

  // ----- what a launch leaves behind, address by address -----

  function UpdateOf<S>(l: Launch<S>, b: nat, d: nat, t: nat, x: real, s: S): S { l.update(b, d, t, x, s) }
  function EmitOf<S>(l: Launch<S>, b: nat, d: nat, t: nat, x: real, s: S): real { l.emit(b, d, t, x, s) }
  function GateOf<S>(l: Launch<S>, out: real, z: real): real { l.gate(out, z) }

  /** The state of sequence `b` in dimension `d` after `n` tokens, from the contents of its row of `delta`. */
  ghost function ScanState<S>(l: Launch<S>, b: nat, d: nat, row: seq<real>, init: S, n: nat): S
    requires n <= |row|
  {
    if n == 0 then init else UpdateOf(l, b, d, n - 1, row[n - 1], ScanState(l, b, d, row, init, n - 1))
  }

  /** `m'` holds at address `a + t` of `delta` the output of token `t`, and with a gate at `e + t` of `z` its gated
      form. */
  ghost predicate TokenScanned<S>(l: Launch<S>, m: Mem<S>, m': Mem<S>, b: nat, d: nat, a: nat, e: int, row: seq<real>,
                                  init: S, t: nat)
    requires t < |row| && a + t < |m'.delta| && (l.hasZ ==> 0 <= e && e + t < |m.z| == |m'.z|)
  {
    var out := EmitOf(l, b, d, t, row[t], ScanState(l, b, d, row, init, t + 1));
    m'.delta[a + t] == out && (l.hasZ ==> m'.z[e + t] == GateOf(l, out, m.z[e + t]))
  }

  /** `m'` is `m` with `len` tokens scanned, whose row begins at `a` of `delta` and at `e` of `z`, starting from the
      state in cell `from` and saving into cell `to`. */
  ghost predicate ScannedAt<S>(l: Launch<S>, m: Mem<S>, m': Mem<S>, b: nat, d: nat, len: int, a: int, e: int,
                               from: int, to: int, saves: bool)
    requires b < |l.hasInitialState|
  {
    && 0 <= len && 0 <= a && a + len <= |m.delta| == |m'.delta|
    && (l.hasZ ==> 0 <= e && e + len <= |m.z| == |m'.z|)
    && (l.hasInitialState[b] ==> 0 <= from < |m.ssm|)
    && var (row, init) := (m.delta[a..a + len], if l.hasInitialState[b] then m.ssm[from] else l.zero);
       && (forall t {:trigger TokenScanned(l, m, m', b, d, a, e, row, init, t)} | 0 <= t < len ::
             TokenScanned(l, m, m', b, d, a, e, row, init, t))
       && (saves ==> 0 <= to < |m'.ssm| && m'.ssm[to] == ScanState(l, b, d, row, init, len))
  }

  /** What program (b, d) does, with every address written out; `load` and `save` are its slots. */
  ghost predicate Scanned<S>(l: Launch<S>, m: Mem<S>, m': Mem<S>, b: nat, d: nat, load: int, save: int, saves: bool)
    requires SequencesWf(l) && b < l.batches
  {
    var (y, z) := (l.deltaLayout, l.zLayout);
    ScannedAt(l, m, m', b, d,
      if l.varlen then l.queryStart[b + 1] - l.queryStart[b] else l.seqlen,
      if l.varlen then d * y.dimStride + l.queryStart[b] * y.batchStride else b * y.batchStride + d * y.dimStride,
      if l.varlen then d * z.dimStride + l.queryStart[b] * z.batchStride else b * z.batchStride + d * z.dimStride,
      load * l.slotStride + d * l.stateDimStride,
      save * l.slotStride + d * l.stateDimStride,
      saves)
  }

  /** Which slots these are: the batch index, the slot of the sequence, or entries of the block table. A sequence whose
      slot is the null block is skipped. */
  ghost predicate ProgramScanned<S>(l: Launch<S>, m: Mem<S>, m': Mem<S>, b: nat, d: nat)
    requires Wf(l) && b < l.batches
  {
    match l.cache
    case Direct => Scanned(l, m, m', b, d, b, b, true)
    case Indexed(slots) => slots[b] != l.nullBlock ==> Scanned(l, m, m', b, d, slots[b], slots[b], true)
    case Apc(table, initialIdx, _, blockLast, _, lastChunk, _) =>
      assert RowWf(l, b);
      table[b][initialIdx[b]] != l.nullBlock ==>
        Scanned(l, m, m', b, d, table[b][initialIdx[b]], table[b][blockLast[b]],
                (if b == 0 then -1 else lastChunk[b - 1]) < lastChunk[b])
  }

  lemma {:induction false} StateWritten<S>(l: Launch<S>, k: Program<S>, m: Mem<S>, b: nat, d: nat, row: seq<real>,
                                           init: S, n: nat)
    requires Wf(l) && b < l.batches && d < l.dims && Active(l, b) && k == ProgramOf(l, b, d) && Fits(k, m) && n <= k.len
    requires row == m.delta[k.deltaBase..k.deltaBase + k.len]
    requires init == if k.loadCell < 0 then l.zero else m.ssm[k.loadCell]
    ensures StateAfter(k, m, n) == ScanState(l, b, d, row, init, n)
  {
    if 0 < n { StateWritten(l, k, m, b, d, row, init, n - 1); }
  }

  /** The reference memory of a grid, read at the addresses of token `t` of one of its programs. */
  lemma {:induction false} TokenWritten<S>(l: Launch<S>, ks: seq<Program<S>>, i: nat, m: Mem<S>, b: nat, d: nat,
                                           row: seq<real>, init: S, t: nat)
    requires Wf(l) && b < l.batches && d < l.dims && Active(l, b) && t < SeqLen(l, b)
    requires GridOk(ks, m) && i < |ks| && ks[i] == ProgramOf(l, b, d) && Fits(ks[i], m)
    requires row == m.delta[ks[i].deltaBase..ks[i].deltaBase + ks[i].len]
    requires init == if ks[i].loadCell < 0 then l.zero else m.ssm[ks[i].loadCell]
    ensures TokenScanned(l, m, Reference(ks, m), b, d, ks[i].deltaBase, ks[i].zBase, row, init, t)
  {
    OutputKept(ks, i, m, t);
    TokenIs(l, ks[i], m, b, d, row, init, t);
  }

  lemma {:induction false} TokenIs<S>(l: Launch<S>, k: Program<S>, m: Mem<S>, b: nat, d: nat, row: seq<real>, init: S,
                                      t: nat)
    requires Wf(l) && b < l.batches && d < l.dims && Active(l, b) && k == ProgramOf(l, b, d) && Fits(k, m) && t < k.len
    requires row == m.delta[k.deltaBase..k.deltaBase + k.len]
    requires init == if k.loadCell < 0 then l.zero else m.ssm[k.loadCell]
    ensures var out := EmitOf(l, b, d, t, row[t], ScanState(l, b, d, row, init, t + 1));
            OutAt(k, m, t) == out && (k.hasZ ==> GatedAt(k, m, t) == GateOf(l, out, m.z[k.zBase + t]))
  {
    StateWritten(l, k, m, b, d, row, init, t + 1);
    assert row[t] == m.delta[k.deltaBase + t];
  }

  lemma {:induction false} LastSave<S>(l: Launch<S>, ks: seq<Program<S>>, i: nat, m: Mem<S>, b: nat, d: nat,
                                       row: seq<real>, init: S)
    requires Wf(l) && b < l.batches && d < l.dims && Active(l, b) && 0 < NumChunks(l, b)
    requires GridOk(ks, m) && i < |ks| && ks[i] == ProgramOf(l, b, d) && Fits(ks[i], m)
    requires row == m.delta[ks[i].deltaBase..ks[i].deltaBase + ks[i].len]
    requires init == if ks[i].loadCell < 0 then l.zero else m.ssm[ks[i].loadCell]
    ensures var to := Cell(l, SaveSlot(l, b, NumChunks(l, b) - 1), d);
            0 <= to < |m.ssm| && Reference(ks, m).ssm[to] == ScanState(l, b, d, row, init, |row|)
  {
    var (k, c) := (ks[i], NumChunks(l, b) - 1);
    assert k.cells[c] == SaveCell(l, b, d, c);
    Checkpoint(ks, m, i, c);
    StateWritten(l, k, m, b, d, row, init, k.len);
  }

  lemma {:induction false} ActiveScans<S>(l: Launch<S>, ks: seq<Program<S>>, i: nat, m: Mem<S>, b: nat, d: nat,
                                          k: Program<S>, n: nat, from: int, to: int)
    requires Wf(l) && b < l.batches && d < l.dims && GridOk(ks, m) && i < |ks| && ks[i] == k == ProgramOf(l, b, d)
    requires Active(l, b) && n == NumChunks(l, b) && (0 < n ==> to == Cell(l, SaveSlot(l, b, n - 1), d))
    requires from == Cell(l, LoadSlot(l, b), d)
    ensures ScannedAt(l, m, Reference(ks, m), b, d, k.len, k.deltaBase, k.zBase, from, to, 0 < n)
  {
    assert Fits(k, m);
    if l.hasInitialState[b] { LoadCellNonneg(l, b, d); }
    var row := m.delta[k.deltaBase..k.deltaBase + k.len];
    var init := if k.loadCell < 0 then l.zero else m.ssm[k.loadCell];
    forall t | 0 <= t < k.len
      ensures TokenScanned(l, m, Reference(ks, m), b, d, k.deltaBase, k.zBase, row, init, t)
    {
      TokenWritten(l, ks, i, m, b, d, row, init, t);
    }
    if 0 < n { LastSave(l, ks, i, m, b, d, row, init); }
  }

  lemma {:induction false} GridScans<S>(l: Launch<S>, ks: seq<Program<S>>, i: nat, m: Mem<S>, b: nat, d: nat)
    requires Wf(l) && b < l.batches && d < l.dims && GridOk(ks, m) && i < |ks| && ks[i] == ProgramOf(l, b, d)
    ensures ProgramScanned(l, m, Reference(ks, m), b, d)
  {
    assert l.cache.Apc? ==> RowWf(l, b);
    if Active(l, b) {
      var save := if l.cache.Apc? then l.cache.table[b][l.cache.blockLast[b]] else LoadSlot(l, b);
      ProgramScans(l, ks, i, m, b, d, LoadSlot(l, b), save, NumChunks(l, b));
    }
  }

  lemma {:induction false} ProgramScans<S>(l: Launch<S>, ks: seq<Program<S>>, i: nat, m: Mem<S>, b: nat, d: nat,
                                           load: int, save: int, n: nat)
    requires Wf(l) && b < l.batches && d < l.dims && GridOk(ks, m) && i < |ks| && ks[i] == ProgramOf(l, b, d)
    requires Active(l, b) && n == NumChunks(l, b) && load == LoadSlot(l, b) && (0 < n ==> save == SaveSlot(l, b, n - 1))
    ensures Scanned(l, m, Reference(ks, m), b, d, load, save, 0 < n)
  {
    var k := ks[i];
    ActiveScans(l, ks, i, m, b, d, k, n, Cell(l, load, d), Cell(l, save, d));
    assert k.len == (if l.varlen then l.queryStart[b + 1] - l.queryStart[b] else l.seqlen);
    assert k.deltaBase == Base(l, l.deltaLayout, b, d) && k.zBase == Base(l, l.zLayout, b, d);
  }

  lemma {:induction false} LoadCellNonneg<S>(l: Launch<S>, b: nat, d: nat)
    requires Wf(l) && b < l.batches && Active(l, b) && l.hasInitialState[b]
    ensures 0 <= Cell(l, LoadSlot(l, b), d)
  {
    assert UsesSlot(l, b, LoadSlot(l, b));
    CellNonneg(l, LoadSlot(l, b), d);
  }

  /** A finished launch leaves the reference memory, in whatever order and however finely its programs were
      interleaved; in particular any two finished runs agree. Every program has scanned its own row of `delta` and `z`
      and has saved its state, at the addresses written out in `Scanned`. */
  lemma {:induction false} LaunchDeterministic<S>(l: Launch<S>, ix: seq<(nat, nat)>, m: Mem<S>, schedule: seq<nat>)
    requires Wf(l) && LaunchFits(l, m) && Enumerates(l, ix)
    requires forall n | 0 <= n < |schedule| :: schedule[n] < |ix|
    ensures GridOk(GridOf(l, ix), m)
    ensures AllHalted(Run(GridOf(l, ix), m, schedule)) ==>
              && Run(GridOf(l, ix), m, schedule).mem == Reference(GridOf(l, ix), m)
              && forall b, d | 0 <= b < l.batches && 0 <= d < l.dims ::
                   ProgramScanned(l, m, Run(GridOf(l, ix), m, schedule).mem, b, d)
  {
    LaunchOk(l, ix, m);
    var ks := GridOf(l, ix);
    if AllHalted(Run(ks, m, schedule)) {
      AnyInterleaving(ks, m, schedule);
      forall b, d | 0 <= b < l.batches && 0 <= d < l.dims ensures ProgramScanned(l, m, Reference(ks, m), b, d) {
        var i :| 0 <= i < |ix| && ix[i] == (b, d);
        GridScans(l, ks, i, m, b, d);
      }
    }
  }

  /** The state of sequence `b` in dimension `d` after chunk `c` goes to address `a`. */
  ghost predicate SavesAt<S>(l: Launch<S>, b: nat, d: nat, c: nat, a: nat)
    requires Wf(l) && b < l.batches && c < NumChunks(l, b)
  {
    SaveSlot(l, b, c) * l.slotStride + d * l.stateDimStride == a
  }

  /** A cell that no active sequence saves into keeps its content. */
  lemma {:induction false} UnsavedCellKept<S>(l: Launch<S>, ix: seq<(nat, nat)>, m: Mem<S>, a: nat)
    requires Wf(l) && LaunchFits(l, m) && Enumerates(l, ix) && a < |m.ssm|
    requires forall b, d, c | 0 <= b < l.batches && 0 <= d < l.dims && Active(l, b) && 0 <= c < NumChunks(l, b) ::
               !SavesAt(l, b, d, c, a)
    ensures GridOk(GridOf(l, ix), m) && Reference(GridOf(l, ix), m).ssm[a] == m.ssm[a]
  {
    LaunchOk(l, ix, m);
    var ks := GridOf(l, ix);
    forall j | 0 <= j < |ks| ensures !WritesCell(ks[j], a) {
      if Active(l, ix[j].0) {
        forall c | 0 <= c < |ks[j].cells| ensures ks[j].cells[c] != a {
          assert ks[j].cells[c] == SaveCell(l, ix[j].0, ix[j].1, c) && !SavesAt(l, ix[j].0, ix[j].1, c, a);
        }
      }
    }
  }

  /** Address `a` belongs to the row of sequence `b` in dimension `d`. */
  ghost predicate InRow<S>(l: Launch<S>, y: Layout, b: nat, d: nat, a: nat)
    requires SequencesWf(l) && b < l.batches
  {
    if l.varlen then
      var first := d * y.dimStride + l.queryStart[b] * y.batchStride;
      first <= a < first + (l.queryStart[b + 1] - l.queryStart[b])
    else
      var first := b * y.batchStride + d * y.dimStride;
      first <= a < first + l.seqlen
  }

  /** An address of `delta` or `z` in no row of an active sequence keeps its content. */
  lemma {:induction false} UnscannedKept<S>(l: Launch<S>, ix: seq<(nat, nat)>, m: Mem<S>, a: nat)
    requires Wf(l) && LaunchFits(l, m) && Enumerates(l, ix)
    ensures GridOk(GridOf(l, ix), m)
    ensures a < |m.delta|
            && (forall b, d | 0 <= b < l.batches && 0 <= d < l.dims && Active(l, b) ::
                  !InRow(l, l.deltaLayout, b, d, a)) ==>
              Reference(GridOf(l, ix), m).delta[a] == m.delta[a]
    ensures a < |m.z|
            && (forall b, d | 0 <= b < l.batches && 0 <= d < l.dims && Active(l, b) ::
                  !InRow(l, l.zLayout, b, d, a)) ==>
              Reference(GridOf(l, ix), m).z[a] == m.z[a]
  {
    LaunchOk(l, ix, m);
    var ks := GridOf(l, ix);
    forall j | 0 <= j < |ks|
      ensures WritesDelta(ks[j], a) ==> Active(l, ix[j].0) && InRow(l, l.deltaLayout, ix[j].0, ix[j].1, a)
      ensures WritesZ(ks[j], a) ==> Active(l, ix[j].0) && InRow(l, l.zLayout, ix[j].0, ix[j].1, a)
    {
      WritesRow(l, ix[j].0, ix[j].1, a);
    }
  }

  lemma {:induction false} WritesRow<S>(l: Launch<S>, b: nat, d: nat, a: nat)
    requires Wf(l) && b < l.batches && d < l.dims
    ensures WritesDelta(ProgramOf(l, b, d), a) ==> Active(l, b) && InRow(l, l.deltaLayout, b, d, a)
    ensures WritesZ(ProgramOf(l, b, d), a) ==> Active(l, b) && InRow(l, l.zLayout, b, d, a)
  {
  }

  /** A sequence without tokens and chunks writes nothing at all. */
  lemma {:induction false} EmptySequenceWritesNothing<S>(l: Launch<S>, b: nat, d: nat, a: int)
    requires Wf(l) && b < l.batches && d < l.dims && NumChunks(l, b) == 0
    ensures SeqLen(l, b) == 0
    ensures var k := ProgramOf(l, b, d); !WritesDelta(k, a) && !WritesZ(k, a) && (0 <= a ==> !WritesCell(k, a))
  {
    assert RowWf(l, b);
  }

  /** The null block, looked up as the kernel does. */
  ghost predicate NullSlot<S>(l: Launch<S>, b: nat)
    requires Wf(l) && b < l.batches
  {
    match l.cache
    case Direct => false
    case Indexed(slots) => slots[b] == l.nullBlock
    case Apc(table, initialIdx, _, _, _, _, _) => assert RowWf(l, b); table[b][initialIdx[b]] == l.nullBlock
  }

  /** A sequence whose slot is the null block keeps its rows of `delta` and `z`. */
  lemma {:induction false} NullSequenceUntouched<S>(l: Launch<S>, ix: seq<(nat, nat)>, m: Mem<S>, b: nat, d: nat,
                                                    i: nat)
    requires Wf(l) && LaunchFits(l, m) && Enumerates(l, ix)
    requires b < l.batches && d < l.dims && NullSlot(l, b)
    requires i < if l.varlen then l.queryStart[b + 1] - l.queryStart[b] else l.seqlen
    ensures GridOk(GridOf(l, ix), m)
    ensures var y := l.deltaLayout;
            var a := i + if l.varlen then d * y.dimStride + l.queryStart[b] * y.batchStride
                         else b * y.batchStride + d * y.dimStride;
            0 <= a < |m.delta| ==> Reference(GridOf(l, ix), m).delta[a] == m.delta[a]
    ensures var y := l.zLayout;
            var a := i + if l.varlen then d * y.dimStride + l.queryStart[b] * y.batchStride
                         else b * y.batchStride + d * y.dimStride;
            0 <= a < |m.z| ==> Reference(GridOf(l, ix), m).z[a] == m.z[a]
  {
    LaunchOk(l, ix, m);
    var ks := GridOf(l, ix);
    forall j | 0 <= j < |ks|
      ensures !WritesDelta(ks[j], Base(l, l.deltaLayout, b, d) + i)
      ensures !WritesZ(ks[j], Base(l, l.zLayout, b, d) + i)
    {
      if Active(l, ix[j].0) {
        RowsDisjoint(l, l.deltaLayout, b, d, ix[j].0, ix[j].1);
        if l.hasZ { RowsDisjoint(l, l.zLayout, b, d, ix[j].0, ix[j].1); }
      }
    }
  }

  // ----- one program as the kernel runs it -----

  /** Size of a chunk and the cell its state goes to, found from the running position. */
  method ReadChunk<S>(l: Launch<S>, b: nat, d: nat, ghost k: Program<S>, chunk: nat, position: int)
    returns (chunkTokens: nat, cell: nat)
    requires Wf(l) && b < l.batches && d < l.dims && Active(l, b)
    requires k == ProgramOf(l, b, d) && chunk < |k.cells|
    requires l.cache.Apc? ==> position == FirstPosition(l, b) + k.bounds[chunk]
    ensures k.bounds[chunk] + chunkTokens == k.bounds[chunk + 1] && cell == k.cells[chunk]
  {
    var slot := LoadSlot(l, b);
    var tokens := SeqLen(l, b);
    if l.cache.Apc? {
      var f := FirstChunk(l, b);
      assert RowWf(l, b);
      tokens := l.cache.cuChunk[f + chunk + 1] - l.cache.cuChunk[f + chunk];
      if chunk == l.cache.lastChunk[b] - f {
        slot := l.cache.table[b][l.cache.blockLast[b]];
      } else {
        var blockDone := (position + tokens - 1) / l.cache.blockSize;
        assert blockDone == BlockDone(l, b, chunk);
        slot := l.cache.table[b][blockDone];
      }
    }
    assert slot == SaveSlot(l, b, chunk) && k.cells[chunk] == SaveCell(l, b, d, chunk);
    chunkTokens, cell := tokens, Cell(l, slot, d);
  }

  function FirstPosition<S>(l: Launch<S>, b: nat): int
    requires Wf(l) && b < l.batches && l.cache.Apc?
  {
    assert RowWf(l, b);
    if NumChunks(l, b) == 0 then l.cache.blockFirst[b] * l.cache.blockSize else StartPosition(l, b)
  }

  /** The program of one (batch, dim) index, run alone on the tensors themselves. */
  method RunProgram<S>(l: Launch<S>, b: nat, d: nat, delta: array<real>, z: array<real>, ssm: array<S>)
    requires Wf(l) && b < l.batches && d < l.dims
    requires delta != z && ssm as object != delta && ssm as object != z
    requires Fits(ProgramOf(l, b, d), Mem(delta[..], z[..], ssm[..]))
    modifies delta, z, ssm
    ensures GridOk([ProgramOf(l, b, d)], old(Mem(delta[..], z[..], ssm[..])))
    ensures Mem(delta[..], z[..], ssm[..]) == Reference([ProgramOf(l, b, d)], old(Mem(delta[..], z[..], ssm[..])))
    ensures ProgramScanned(l, old(Mem(delta[..], z[..], ssm[..])), Mem(delta[..], z[..], ssm[..]), b, d)
  {
    var k := ProgramOf(l, b, d);
    ghost var m0 := Mem(delta[..], z[..], ssm[..]);
    if !l.cache.Direct? && LoadSlot(l, b) == l.nullBlock {
      NullProgram(k, m0);
      return;
    }
    RunActive(l, b, d, k, delta, z, ssm);
    SoloRun(k, m0);
  }

  method RunActive<S>(l: Launch<S>, b: nat, d: nat, k: Program<S>, delta: array<real>, z: array<real>, ssm: array<S>)
    requires Wf(l) && b < l.batches && d < l.dims && Active(l, b)
    requires delta != z && ssm as object != delta && ssm as object != z
    requires k == ProgramOf(l, b, d) && Fits(k, Mem(delta[..], z[..], ssm[..]))
    modifies delta, z, ssm
    ensures var m0 := old(Mem(delta[..], z[..], ssm[..]));
            && delta[..] == DeltaAfter(k, m0, k.len) && z[..] == ZAfter(k, m0, k.len)
            && ssm[..] == CellsAfter(k, m0, |k.cells|)
            && ProgramScanned(l, m0, Mem(delta[..], z[..], ssm[..]), b, d)
  {
    ghost var m0 := Mem(delta[..], z[..], ssm[..]);
    var state := LoadInitial(l, b, d, k, m0, ssm);
    var numChunks, position := 1, 0;
    if l.cache.Apc? {
      numChunks, position := ChunkSetup(l, b);
    }
    var tokensProcessed := 0;
    NothingDone(k, m0);
    for chunk := 0 to numChunks
      invariant tokensProcessed == k.bounds[chunk]
      invariant l.cache.Apc? ==> position == FirstPosition(l, b) + tokensProcessed
      invariant state == StateAfter(k, m0, tokensProcessed)
      invariant delta[..] == DeltaAfter(k, m0, tokensProcessed) && z[..] == ZAfter(k, m0, tokensProcessed)
      invariant ssm[..] == CellsAfter(k, m0, chunk)
    {
      var chunkTokens, cell := ReadChunk(l, b, d, k, chunk, position);
      state := RunAndSave(k, chunk, tokensProcessed, chunkTokens, cell, state, delta, z, ssm, m0);
      tokensProcessed := tokensProcessed + chunkTokens;
      position := position + chunkTokens;
    }
    AloneScans(l, b, d, k, m0);
  }

  lemma {:induction false} AloneScans<S>(l: Launch<S>, b: nat, d: nat, k: Program<S>, m0: Mem<S>)
    requires Wf(l) && b < l.batches && d < l.dims && Active(l, b) && k == ProgramOf(l, b, d) && Fits(k, m0)
    ensures var m := Mem(DeltaAfter(k, m0, k.len), ZAfter(k, m0, k.len), CellsAfter(k, m0, |k.cells|));
            ProgramScanned(l, m0, m, b, d)
  {
    SoloRun(k, m0);
    GridScans(l, [k], 0, m0, b, d);
  }

  method LoadInitial<S>(l: Launch<S>, b: nat, d: nat, ghost k: Program<S>, ghost m0: Mem<S>, ssm: array<S>)
    returns (state: S)
    requires Wf(l) && b < l.batches && d < l.dims && Active(l, b)
    requires k == ProgramOf(l, b, d) && Fits(k, m0) && m0.ssm == ssm[..]
    ensures state == StateAfter(k, m0, 0)
  {
    state := l.zero;
    if l.hasInitialState[b] {
      assert UsesSlot(l, b, LoadSlot(l, b));
      CellNonneg(l, LoadSlot(l, b), d);
      state := ssm[Cell(l, LoadSlot(l, b), d)];
    }
  }

  lemma {:induction false} NothingDone<S>(k: Program<S>, m0: Mem<S>)
    requires k.active && ProgramOk(k) && Fits(k, m0)
    ensures DeltaAfter(k, m0, 0) == m0.delta && ZAfter(k, m0, 0) == m0.z && CellsAfter(k, m0, 0) == m0.ssm
  {
  }

  /** Number of chunks and `current_position` before the first of them. Without chunks the first load may lie behind the
      end of `cu_chunk_seqlen`; what it finds there is not used. */
  method ChunkSetup<S>(l: Launch<S>, b: nat) returns (numChunks: nat, position: int)
    requires Wf(l) && b < l.batches && l.cache.Apc?
    ensures numChunks == NumChunks(l, b)
    ensures position == FirstPosition(l, b)
  {
    var firstChunk := 0;
    if b != 0 {
      firstChunk := l.cache.lastChunk[b - 1] + 1;
    }
    assert RowWf(l, b) && firstChunk == FirstChunk(l, b);
    numChunks := l.cache.lastChunk[b] - firstChunk + 1;
    var next: int := *;
    if firstChunk + 1 < |l.cache.cuChunk| {
      next := l.cache.cuChunk[firstChunk + 1];
    }
    var firstTokens := next - l.cache.cuChunk[firstChunk];
    var offset := 0;
    if numChunks > 1 && firstTokens < l.cache.blockSize {
      offset := l.cache.blockSize - firstTokens;
    }
    position := l.cache.blockFirst[b] * l.cache.blockSize + offset;
  }

  lemma {:induction false} NullProgram<S>(k: Program<S>, m0: Mem<S>)
    requires !k.active && ProgramOk(k)
    ensures GridOk([k], m0) && Reference([k], m0) == m0
  {
    var ks := [k];
    assert forall i | 0 <= i < |ks| :: ks[i] == k;
    var r := Reference(ks, m0);
    assert r.delta == m0.delta && r.z == m0.z && r.ssm == m0.ssm;
  }
}
