/** Prefix caching of the recurrent state across scheduler steps. A request is prefilled in any number of steps, each a
    launch of the scan kernel with the metadata of `ChunkMetadata`; after every step the block table holds, for each
    block the request still has, the state of the one uninterrupted fold over the request. */
module PrefillRun {
  import opened ScanGrid
  import opened ScanKernel
  import opened Arithmetic
  import CM = ChunkMetadata

  // ----- the builder's metadata is what the kernel needs -----

  /** A launch whose cache arguments come from the metadata builder, for requests of which `computed` tokens were
      scheduled before. A request may have no token scheduled now. */
  ghost predicate BuiltLaunch<S>(l: Launch<S>, computed: seq<nat>) {
    && SequencesWf(l) && l.varlen && l.cache.Apc? && |computed| == l.batches
    && CM.BatchWf(l.cache.blockSize, computed, l.queryStart)
    && |l.cache.table| == |l.cache.initialIdx| == |l.cache.blockFirst| == |l.cache.blockLast| ==
       |l.cache.lastChunk| == l.batches
    && forall b | 0 <= b < l.batches :: BuiltRow(l, computed, b)
  }

  ghost predicate BuiltRow<S>(l: Launch<S>, computed: seq<nat>, b: nat)
    requires SequencesWf(l) && l.varlen && l.cache.Apc? && |computed| == l.batches
    requires CM.BatchWf(l.cache.blockSize, computed, l.queryStart)
    requires |l.cache.table| == |l.cache.initialIdx| == |l.cache.blockFirst| == |l.cache.blockLast| ==
             |l.cache.lastChunk| == l.batches
    requires b < l.batches
  {
    var size, n := l.cache.blockSize, computed[b];
    && l.cache.cuChunk == CM.CuChunk(size, computed, l.queryStart)
    && l.cache.lastChunk[b] == |CM.AllStarts(size, computed, l.queryStart, b + 1)| - 1
    && l.cache.blockFirst[b] == CM.BlockFirstScheduled(n, size)
    && l.cache.blockLast[b] == CM.BlockLastScheduled(n + SeqLen(l, b), size)
    && l.cache.initialIdx[b] == CM.BlockLastComputed(n, size)
    && l.hasInitialState[b] == (0 < n)
    && 0 < |l.cache.table[b]| && Cdiv(n + SeqLen(l, b), size) <= |l.cache.table[b]|
  }

  /** The kernel finds the builder's boundaries in `cu_chunk_seqlen`. */
  lemma {:induction false} BuiltBoundary<S>(l: Launch<S>, computed: seq<nat>, b: nat, k: nat)
    requires BuiltLaunch(l, computed) && b < l.batches
    requires k <= CM.NumChunks(computed[b], SeqLen(l, b), l.cache.blockSize)
    ensures var n := CM.NumChunks(computed[b], SeqLen(l, b), l.cache.blockSize);
            && 0 <= FirstChunk(l, b) && l.cache.lastChunk[b] == FirstChunk(l, b) + n - 1 < |l.cache.cuChunk| - 1
            && l.cache.cuChunk[FirstChunk(l, b) + k] - l.cache.cuChunk[FirstChunk(l, b)] ==
               CM.Boundary(computed[b], SeqLen(l, b), l.cache.blockSize, k)
  {
    var size, len := l.cache.blockSize, SeqLen(l, b);
    assert len == CM.Len(size, computed, l.queryStart, b);
    assert BuiltRow(l, computed, b) && (0 < b ==> BuiltRow(l, computed, b - 1));
    assert FirstChunk(l, b) == |CM.AllStarts(size, computed, l.queryStart, b)|;
    CM.BoundariesRecorded(size, computed, l.queryStart, b, 0);
    CM.BoundariesRecorded(size, computed, l.queryStart, b, k);
    CM.BoundariesRecorded(size, computed, l.queryStart, b, CM.NumChunks(computed[b], len, size));
  }

  /** The load of the end of the first chunk stays inside `cu_chunk_seqlen` if and only if some request from `b` on has
      tokens to schedule or resumes inside a block. */
  lemma {:induction false} FirstLoadInBounds<S>(l: Launch<S>, computed: seq<nat>, b: nat)
    requires BuiltLaunch(l, computed) && b < l.batches
    ensures FirstChunk(l, b) + 1 < |l.cache.cuChunk| <==>
            exists o | b <= o < l.batches :: 0 < SeqLen(l, o) || computed[o] % l.cache.blockSize != 0
  {
    var size := l.cache.blockSize;
    assert BuiltRow(l, computed, b) && (0 < b ==> BuiltRow(l, computed, b - 1));
    assert FirstChunk(l, b) == |CM.AllStarts(size, computed, l.queryStart, b)|;
    CM.ChunksFollow(size, computed, l.queryStart, b);
    forall o | b <= o < l.batches
      ensures SeqLen(l, o) == CM.Len(size, computed, l.queryStart, o)
      ensures 0 < CM.NumChunks(computed[o], SeqLen(l, o), size) <==> 0 < SeqLen(l, o) || computed[o] % size != 0
    {
      CM.EmptyRequest(computed[o], SeqLen(l, o), size);
    }
  }

  lemma {:induction false} BuiltShape<S>(l: Launch<S>, computed: seq<nat>, b: nat)
    requires BuiltLaunch(l, computed) && b < l.batches && 0 < SeqLen(l, b)
    ensures BlockShaped(l, b)
  {
    var size, len := l.cache.blockSize, SeqLen(l, b);
    var n := CM.NumChunks(computed[b], len, size);
    CM.EmptyRequest(computed[b], len, size);
    BuiltBoundary(l, computed, b, 1);
    BuiltBoundary(l, computed, b, n);
    CM.BoundaryEnds(computed[b], len, size, 1);
    var f := FirstChunk(l, b);
    forall i | f + 1 <= i < f + n - 1 ensures l.cache.cuChunk[i + 1] == l.cache.cuChunk[i] + size {
      BuiltBoundary(l, computed, b, i - f);
      BuiltBoundary(l, computed, b, i - f + 1);
      CM.BoundaryEnds(computed[b], len, size, i - f);
      CM.BoundaryEnds(computed[b], len, size, i - f + 1);
      assert (i - f + 1) * size == (i - f) * size + size;
    }
  }

  /** Chunk `c` is checkpointed in block `computed / size + c`, the last chunk included. */
  lemma {:induction false} BuiltBlock<S>(l: Launch<S>, computed: seq<nat>, b: nat, c: nat)
    requires BuiltLaunch(l, computed) && b < l.batches
    requires c < CM.NumChunks(computed[b], SeqLen(l, b), l.cache.blockSize)
    ensures 0 <= FirstChunk(l, b) && FirstChunk(l, b) + c + 1 < |l.cache.cuChunk|
    ensures (if c == l.cache.lastChunk[b] - FirstChunk(l, b) then l.cache.blockLast[b] else BlockDone(l, b, c))
            == computed[b] / l.cache.blockSize + c
  {
    var size, len := l.cache.blockSize, SeqLen(l, b);
    assert BuiltRow(l, computed, b);
    BuiltBoundary(l, computed, b, 0);
    CM.BlockIndices(computed[b], len, size);
    if c < l.cache.lastChunk[b] - FirstChunk(l, b) {
      CM.EmptyRequest(computed[b], len, size);
      BuiltShape(l, computed, b);
      CheckpointBlock(l, b, c);
    }
  }

  /** The builder's metadata meets the requirements of the kernel. */
  lemma {:induction false} BuiltCacheWf<S>(l: Launch<S>, computed: seq<nat>)
    requires BuiltLaunch(l, computed)
    ensures CacheWf(l)
  {
    forall b | 0 <= b < l.batches
      ensures RowWf(l, b)
    {
      BuiltRowWf(l, computed, b);
    }
  }

  lemma {:induction false} BuiltMonotone<S>(l: Launch<S>, computed: seq<nat>, b: nat, i: nat, j: nat)
    requires BuiltLaunch(l, computed) && b < l.batches
    requires i <= j <= CM.NumChunks(computed[b], SeqLen(l, b), l.cache.blockSize)
    ensures var f := FirstChunk(l, b);
            0 <= f + i <= f + j < |l.cache.cuChunk| && l.cache.cuChunk[f + i] <= l.cache.cuChunk[f + j]
  {
    BuiltBoundary(l, computed, b, i);
    BuiltBoundary(l, computed, b, j);
    CM.BoundaryMonotone(computed[b], SeqLen(l, b), l.cache.blockSize, i, j);
  }

  lemma {:induction false} BuiltRowWf<S>(l: Launch<S>, computed: seq<nat>, b: nat)
    requires BuiltLaunch(l, computed) && b < l.batches
    ensures RowWf(l, b)
  {
    var size, len := l.cache.blockSize, SeqLen(l, b);
    var n := CM.NumChunks(computed[b], len, size);
    var f := FirstChunk(l, b);
    BuiltIndices(l, computed, b);
    BuiltBoundary(l, computed, b, n);
    CM.BoundaryEnds(computed[b], len, size, n);
    forall i, j | f <= i <= j <= f + n ensures l.cache.cuChunk[i] <= l.cache.cuChunk[j] {
      BuiltMonotone(l, computed, b, i - f, j - f);
    }
    forall c | 0 <= c < l.cache.lastChunk[b] - f ensures 0 <= BlockDone(l, b, c) < |l.cache.table[b]| {
      BuiltDone(l, computed, b, c);
    }
  }

  lemma {:induction false} BuiltDone<S>(l: Launch<S>, computed: seq<nat>, b: nat, c: nat)
    requires BuiltLaunch(l, computed) && b < l.batches && c < l.cache.lastChunk[b] - FirstChunk(l, b)
    ensures 0 <= FirstChunk(l, b) && FirstChunk(l, b) + c + 1 < |l.cache.cuChunk|
    ensures 0 <= BlockDone(l, b, c) < |l.cache.table[b]|
  {
    assert BuiltRow(l, computed, b);
    CM.BlockIndices(computed[b], SeqLen(l, b), l.cache.blockSize);
    BuiltBoundary(l, computed, b, 0);
    BuiltIndices(l, computed, b);
    BuiltBlock(l, computed, b, c);
  }

  /** The blocks of a sequence lie in its row of the block table. */
  lemma {:induction false} BuiltIndices<S>(l: Launch<S>, computed: seq<nat>, b: nat)
    requires BuiltLaunch(l, computed) && b < l.batches
    ensures l.cache.initialIdx[b] < |l.cache.table[b]| && l.cache.blockLast[b] < |l.cache.table[b]|
    ensures computed[b] / l.cache.blockSize + CM.NumChunks(computed[b], SeqLen(l, b), l.cache.blockSize)
         <= |l.cache.table[b]|
  {
    var size, n, len := l.cache.blockSize, computed[b], SeqLen(l, b);
    assert BuiltRow(l, computed, b);
    CM.BlockIndices(n, len, size);
    CdivMonotone(n, n + len, size);
    EndsGrow(size, n, len);
    EndsCount(size, n + len);
  }

  // ----- block ends -----

  /** Number of tokens covered by each block of a request of `n` tokens: full blocks, and the tokens so far for the
      last one. */
  function Ends(size: nat, n: nat): seq<nat>
    requires 0 < size
  {
    EndsFrom(size, 0, n)
  }

  function EndsFrom(size: nat, pos: nat, n: nat): seq<nat>
    requires 0 < size
    decreases n - pos
  {
    if n <= pos then [] else [Min(pos + size, n)] + EndsFrom(size, pos + size, n)
  }

  lemma {:induction false} EndsLength(size: nat, i: nat, n: nat, q: nat)
    requires 0 < size && n <= q * size < n + size && i <= q
    ensures |EndsFrom(size, i * size, n)| == q - i
    decreases q - i
  {
    assert (i + 1) * size == i * size + size;
    if i < q {
      MulMonotone(i + 1, q, size);
      EndsLength(size, i + 1, n, q);
    }
  }

  lemma {:induction false} EndAt(size: nat, i: nat, n: nat, j: nat)
    requires 0 < size && j < |EndsFrom(size, i * size, n)|
    ensures EndsFrom(size, i * size, n)[j] == Min((i + j + 1) * size, n)
    decreases j
  {
    assert (i + 1) * size == i * size + size;
    if 0 < j { EndAt(size, i + 1, n, j - 1); }
  }

  /** `before` and `after` are the block ends before and after scheduling tokens cut at `bounds`: the first `q` blocks
      were full already, the others end where the chunks end. */
  ghost predicate Cuts(before: seq<nat>, q: nat, n: nat, after: seq<nat>, bounds: seq<nat>) {
    && q <= |before| && |bounds| > 0 && |after| == q + |bounds| - 1 && after[..q] == before[..q]
    && (if n == 0 then before == [] else before != [] && before[|before| - 1] == n)
    && |before| <= |after|
    && forall j | q <= j < |after| :: after[j] == n + bounds[j - q + 1]
  }

  lemma {:induction false} EndsCount(size: nat, n: nat)
    requires 0 < size
    ensures |Ends(size, n)| == Cdiv(n, size)
  {
    CdivBounds(n, size);
    EndsLength(size, 0, n, Cdiv(n, size));
  }

  /** A request of `n` tokens has `n / size` full blocks, and a last one that ends with token `n`. */
  lemma {:induction false} EndsShape(size: nat, n: nat)
    requires 0 < size
    ensures n / size <= |Ends(size, n)|
    ensures if n == 0 then Ends(size, n) == [] else Ends(size, n) != [] && Ends(size, n)[|Ends(size, n)| - 1] == n
  {
    var q, e := n / size, Ends(size, n);
    assert n == q * size + n % size;
    EndsCount(size, n);
    CdivBounds(n, size);
    var c := Cdiv(n, size);
    assert (c + 1) * size == c * size + size;
    if c < q { MulMonotone(c + 1, q, size); }
    if 0 < n { EndAt(size, 0, n, c - 1); } else { CdivUnique(0, size, 0); }
  }

  lemma {:induction false} EndsGrow(size: nat, n: nat, len: nat)
    requires 0 < size
    ensures |Ends(size, n + len)| == n / size + CM.NumChunks(n, len, size)
    ensures |Ends(size, n)| <= |Ends(size, n + len)|
  {
    var q, k := n / size, CM.NumChunks(n, len, size);
    assert n == q * size + n % size;
    CdivBounds(n % size + len, size);
    assert (q + k) * size == q * size + k * size;
    CdivUnique(n + len, size, q + k);
    EndsCount(size, n);
    EndsCount(size, n + len);
    CdivMonotone(n, n + len, size);
  }

  lemma {:induction false} FullEnd(size: nat, n: nat, m: nat, j: nat)
    requires 0 < size && j < n / size && n <= m && j < |Ends(size, m)|
    ensures Ends(size, m)[j] == (j + 1) * size
  {
    assert n == n / size * size + n % size;
    MulMonotone(j + 1, n / size, size);
    EndAt(size, 0, m, j);
  }

  lemma {:induction false} TailEnd(size: nat, n: nat, len: nat, q: nat, c: nat)
    requires 0 < size && q == n / size && q + c < |Ends(size, n + len)|
    ensures Ends(size, n + len)[q + c] == n + CM.Boundary(n, len, size, c + 1)
  {
    assert n == q * size + n % size;
    assert (q + c + 1) * size == q * size + (c + 1) * size;
    EndAt(size, 0, n + len, q + c);
  }

  lemma {:induction false} EndsCut(size: nat, n: nat, len: nat, q: nat, bounds: seq<nat>)
    requires 0 < size && q == n / size && |bounds| == CM.NumChunks(n, len, size) + 1
    requires forall c | 0 < c < |bounds| :: bounds[c] == CM.Boundary(n, len, size, c)
    ensures Cuts(Ends(size, n), q, n, Ends(size, n + len), bounds)
  {
    EndsShape(size, n);
    EndsGrow(size, n, len);
    var before, after := Ends(size, n), Ends(size, n + len);
    forall j | 0 <= j < q ensures before[j] == after[j] {
      FullEnd(size, n, n, j);
      FullEnd(size, n, n + len, j);
    }
    forall j | q <= j < |after| ensures after[j] == n + bounds[j - q + 1] {
      TailEnd(size, n, len, q, j - q);
    }
  }

  // ----- one prefill step -----

  /** `k` prefills further tokens of a request whose blocks live in `cells`: it starts from the last block computed so
      far and saves into the blocks from number `q` on. A negative cell stands for a block that the request has given
      up, or never had: after a prefix-cache hit only the last block of the prefix is its own. */
  ghost predicate PrefillProgram<S>(k: Program<S>, cells: seq<int>, q: nat, n: nat, before: seq<nat>, after: seq<nat>) {
    && k.active && ProgramOk(k) && Cuts(before, q, n, after, k.bounds) && |after| <= |cells|
    && k.loadCell == (if before == [] then -1 else cells[|before| - 1])
    && (before == [] || 0 <= k.loadCell)
    && k.cells == cells[q..q + |k.cells|]
  }

  /** The request has block `j`: among its `q` full blocks the null block stands for one it does not have. */
  predicate Has<S>(l: Launch<S>, b: nat, q: nat, j: nat)
    requires l.cache.Apc? && b < |l.cache.table| && j < |l.cache.table[b]|
  {
    q <= j || l.cache.table[b][j] != l.nullBlock
  }

  /** The cells of a row of the block table. */
  function RowCells<S>(l: Launch<S>, b: nat, d: nat, q: nat): seq<int>
    requires l.cache.Apc? && b < |l.cache.table|
  {
    seq(|l.cache.table[b]|, j requires 0 <= j < |l.cache.table[b]| =>
      if Has(l, b, q, j) then l.cache.table[b][j] * l.slotStride + d * l.stateDimStride else -1)
  }

  /** Every active program of a built launch prefills its request. */
  lemma {:induction false} KernelPrefills<S>(l: Launch<S>, computed: seq<nat>, b: nat, d: nat, q: nat,
                                             before: seq<nat>, after: seq<nat>)
    requires BuiltLaunch(l, computed) && Wf(l) && b < l.batches && d < l.dims && Active(l, b)
    requires q == computed[b] / l.cache.blockSize
    requires before == Ends(l.cache.blockSize, computed[b])
    requires after == Ends(l.cache.blockSize, computed[b] + SeqLen(l, b))
    ensures PrefillProgram(ProgramOf(l, b, d), RowCells(l, b, d, q), q, computed[b], before, after)
  {
    KernelBounds(l, computed, b, d);
    EndsCut(l.cache.blockSize, computed[b], SeqLen(l, b), q, ProgramOf(l, b, d).bounds);
    KernelLoad(l, computed, b, d, q);
    KernelCells(l, computed, b, d, q);
  }

  lemma {:induction false} KernelCells<S>(l: Launch<S>, computed: seq<nat>, b: nat, d: nat, q: nat)
    requires BuiltLaunch(l, computed) && Wf(l) && b < l.batches && d < l.dims && Active(l, b)
    requires q == computed[b] / l.cache.blockSize
    ensures var (k, cells) := (ProgramOf(l, b, d), RowCells(l, b, d, q));
            q + |k.cells| <= |cells| && k.cells == cells[q..q + |k.cells|]
  {
    var k, cells := ProgramOf(l, b, d), RowCells(l, b, d, q);
    BuiltIndices(l, computed, b);
    BuiltBoundary(l, computed, b, 0);
    forall c | 0 <= c < |k.cells| ensures q + c < |cells| && k.cells[c] == cells[q + c] {
      KernelCell(l, computed, b, d, q, c);
    }
    SliceEqual(k.cells, cells, q);
  }

  lemma {:induction false} SliceEqual(s: seq<nat>, t: seq<int>, q: nat)
    requires q + |s| <= |t| && forall c {:trigger s[c]} | 0 <= c < |s| :: s[c] == t[q + c]
    ensures s == t[q..q + |s|]
  {
  }

  lemma {:induction false} KernelBounds<S>(l: Launch<S>, computed: seq<nat>, b: nat, d: nat)
    requires BuiltLaunch(l, computed) && Wf(l) && b < l.batches && d < l.dims && Active(l, b)
    ensures var (size, len, n, k) := (l.cache.blockSize, SeqLen(l, b), computed[b], ProgramOf(l, b, d));
            && |k.bounds| == CM.NumChunks(n, len, size) + 1
            && forall c | 0 < c < |k.bounds| :: k.bounds[c] == CM.Boundary(n, len, size, c)
  {
    var (size, len, n, k) := (l.cache.blockSize, SeqLen(l, b), computed[b], ProgramOf(l, b, d));
    BuiltBoundary(l, computed, b, 0);
    forall c | 0 < c < |k.bounds| ensures k.bounds[c] == CM.Boundary(n, len, size, c) {
      BuiltBoundary(l, computed, b, c);
    }
  }

  lemma {:induction false} KernelLoad<S>(l: Launch<S>, computed: seq<nat>, b: nat, d: nat, q: nat)
    requires BuiltLaunch(l, computed) && Wf(l) && b < l.batches && d < l.dims && Active(l, b)
    ensures var (ends, cells) := (Ends(l.cache.blockSize, computed[b]), RowCells(l, b, d, q));
            && |ends| <= |cells| && ProgramOf(l, b, d).loadCell == (if ends == [] then -1 else cells[|ends| - 1])
            && (ends == [] || 0 <= ProgramOf(l, b, d).loadCell)
  {
    if l.hasInitialState[b] {
      assert UsesSlot(l, b, LoadSlot(l, b));
      CellNonneg(l, LoadSlot(l, b), d);
    }
    var (size, n) := (l.cache.blockSize, computed[b]);
    assert BuiltRow(l, computed, b);
    CM.BlockIndices(n, SeqLen(l, b), size);
    CdivMonotone(n, n + SeqLen(l, b), size);
    EndsCount(size, n);
    EndsShape(size, n);
  }

  lemma {:induction false} KernelCell<S>(l: Launch<S>, computed: seq<nat>, b: nat, d: nat, q: nat, c: nat)
    requires BuiltLaunch(l, computed) && Wf(l) && b < l.batches && d < l.dims && Active(l, b)
    requires q == computed[b] / l.cache.blockSize && c < |ProgramOf(l, b, d).cells|
    ensures q + c < |RowCells(l, b, d, q)|
    ensures ProgramOf(l, b, d).cells[c] == RowCells(l, b, d, q)[q + c]
  {
    BuiltBoundary(l, computed, b, 0);
    BuiltBlock(l, computed, b, c);
    assert RowWf(l, b);
    assert ProgramOf(l, b, d).cells[c] == SaveCell(l, b, d, c);
  }

  /** A request without new tokens changes nothing: it saves nothing, or the state it has loaded back into the same
      block. */
  lemma {:induction false} EmptyRequestChangesNothing<S>(l: Launch<S>, computed: seq<nat>, b: nat, d: nat, m: Mem<S>,
                                                         a: nat)
    requires BuiltLaunch(l, computed) && Wf(l) && b < l.batches && d < l.dims && Active(l, b) && SeqLen(l, b) == 0
    requires Fits(ProgramOf(l, b, d), m) && a < |m.ssm|
    ensures var k := ProgramOf(l, b, d);
            && k.len == 0 && (k.cells == [] || k.cells == [k.loadCell])
            && SavedCell(k, m, a, |k.cells|) == m.ssm[a]
  {
    var (size, n, k) := (l.cache.blockSize, computed[b], ProgramOf(l, b, d));
    var ends := Ends(size, n);
    KernelBounds(l, computed, b, d);
    CM.EmptyRequest(n, 0, size);
    KernelPrefills(l, computed, b, d, n / size, ends, ends);
    OneCell(k, RowCells(l, b, d, n / size), n / size, n, ends);
  }

  lemma {:induction false} OneCell<S>(k: Program<S>, cells: seq<int>, q: nat, n: nat, ends: seq<nat>)
    requires PrefillProgram(k, cells, q, n, ends, ends) && |k.cells| <= 1
    ensures k.cells == [] || k.cells == [k.loadCell]
  {
    if |k.cells| == 1 { assert k.cells[0] == cells[q] && |ends| == q + 1; }
  }

  /** Block `j`, if the request has it, holds the state after `ends[j]` tokens. */
  ghost predicate HoldsPrefix<S>(m: Mem<S>, cells: seq<int>, r: Recurrence<S>, ends: seq<nat>) {
    && |ends| <= |cells|
    && forall j | 0 <= j < |ends| && 0 <= cells[j] :: cells[j] < |m.ssm| && m.ssm[cells[j]] == FoldTo(r, ends[j])
  }

  /** A launch in which program `i` prefills the request: its tokens are the request's tokens from `n` on, its blocks
      are distinct, and no other program writes them. */
  ghost predicate PrefillLaunch<S(!new)>(ks: seq<Program<S>>, i: nat, m: Mem<S>, cells: seq<int>, r: Recurrence<S>,
                                         q: nat, n: nat, before: seq<nat>, after: seq<nat>)
  {
    && GridOk(ks, m) && i < |ks| && PrefillProgram(ks[i], cells, q, n, before, after)
    && ks[i].zero == r.zero
    && ScansNext(ks[i], m, r, n)
    && OwnCells(ks, i, cells, |after|)
  }

  /** The blocks of a request have different cells, and no other program of the launch saves into them. */
  ghost predicate OwnCells<S>(ks: seq<Program<S>>, i: nat, cells: seq<int>, count: nat)
    requires count <= |cells|
  {
    && (forall a, b | 0 <= a < b < count && 0 <= cells[a] :: cells[a] != cells[b])
    && (forall o, j | 0 <= o < |ks| && o != i && 0 <= j < count && 0 <= cells[j] :: !WritesCell(ks[o], cells[j]))
  }

  lemma {:induction false} TokensCarryOn<S(!new)>(ks: seq<Program<S>>, i: nat, m: Mem<S>, cells: seq<int>,
                                                  r: Recurrence<S>,
                               q: nat, n: nat, before: seq<nat>, after: seq<nat>)
    requires PrefillLaunch(ks, i, m, cells, r, q, n, before, after) && HoldsPrefix(m, cells, r, before)
    ensures CarriesOn(ks[i], m, r, n)
  {
  }

  /** A block finished in an earlier step is left alone. */
  lemma {:induction false} OldBlockStays<S(!new)>(ks: seq<Program<S>>, i: nat, m: Mem<S>, cells: seq<int>,
                                                  r: Recurrence<S>,
                               q: nat, n: nat, before: seq<nat>, after: seq<nat>, j: nat)
    requires PrefillLaunch(ks, i, m, cells, r, q, n, before, after) && HoldsPrefix(m, cells, r, before)
    requires j < q && 0 <= cells[j]
    ensures cells[j] < |m.ssm| && Reference(ks, m).ssm[cells[j]] == FoldTo(r, after[j])
  {
    var a := cells[j];
    assert after[..q][j] == before[..q][j];
    assert a !in ks[i].cells;
    forall o | 0 <= o < |ks| ensures !WritesCell(ks[o], a) {
      if o != i { assert 0 <= cells[j]; }
    }
  }

  /** A block reached in this step holds the state at its end, or at the last token so far. */
  lemma {:induction false} NewBlockSaved<S(!new)>(ks: seq<Program<S>>, i: nat, m: Mem<S>, cells: seq<int>,
                                                  r: Recurrence<S>,
                               q: nat, n: nat, before: seq<nat>, after: seq<nat>, c: nat)
    requires PrefillLaunch(ks, i, m, cells, r, q, n, before, after) && HoldsPrefix(m, cells, r, before)
    requires c < |ks[i].cells|
    ensures 0 <= cells[q + c] < |m.ssm|
    ensures Reference(ks, m).ssm[cells[q + c]] == FoldTo(r, after[q + c])
  {
    var k := ks[i];
    forall e | c < e < |k.cells| ensures k.cells[e] != k.cells[c] {
      assert k.cells[c] == cells[q + c] && k.cells[e] == cells[q + e];
      assert cells[q + c] != cells[q + e];
    }
    Checkpoint(ks, m, i, c);
    ChunkEndState(ks, i, m, cells, r, q, n, before, after, c);
  }

  lemma {:induction false} ChunkEndState<S(!new)>(ks: seq<Program<S>>, i: nat, m: Mem<S>, cells: seq<int>,
                                                  r: Recurrence<S>,
                               q: nat, n: nat, before: seq<nat>, after: seq<nat>, c: nat)
    requires PrefillLaunch(ks, i, m, cells, r, q, n, before, after) && HoldsPrefix(m, cells, r, before)
    requires c < |ks[i].cells|
    ensures StateAfter(ks[i], m, ks[i].bounds[c + 1]) == FoldTo(r, after[q + c])
  {
    var k := ks[i];
    assert k.bounds[c + 1] <= k.bounds[|k.cells|];
    TokensCarryOn(ks, i, m, cells, r, q, n, before, after);
    Resume(k, m, r, n, k.bounds[c + 1]);
  }

  lemma {:induction false} PrefillBlocks<S(!new)>(ks: seq<Program<S>>, i: nat, m: Mem<S>, cells: seq<int>,
                                                  r: Recurrence<S>,
                               q: nat, n: nat, before: seq<nat>, after: seq<nat>)
    requires PrefillLaunch(ks, i, m, cells, r, q, n, before, after) && HoldsPrefix(m, cells, r, before)
    ensures HoldsPrefix(Reference(ks, m), cells, r, after)
  {
    forall j | 0 <= j < |after| && 0 <= cells[j]
      ensures cells[j] < |m.ssm| && Reference(ks, m).ssm[cells[j]] == FoldTo(r, after[j])
    {
      if j < q { OldBlockStays(ks, i, m, cells, r, q, n, before, after, j); }
      else { NewBlockSaved(ks, i, m, cells, r, q, n, before, after, j - q); }
    }
  }

  lemma {:induction false} PrefillOutput<S(!new)>(ks: seq<Program<S>>, i: nat, m: Mem<S>, cells: seq<int>,
                                                  r: Recurrence<S>,
                               q: nat, n: nat, before: seq<nat>, after: seq<nat>, t: nat)
    requires PrefillLaunch(ks, i, m, cells, r, q, n, before, after) && HoldsPrefix(m, cells, r, before) && t < ks[i].len
    ensures OutputsAt(ks, i, m, t, EmitAt(r, n + t, FoldTo(r, n + t + 1)))
  {
    TokensCarryOn(ks, i, m, cells, r, q, n, before, after);
    Resume(ks[i], m, r, n, t + 1);
    OutputKept(ks, i, m, t);
  }

  /** The finished launch leaves `out` as the output of token `t` of program `i`, and with a gate the gated output over
      `z`. */
  ghost predicate OutputsAt<S>(ks: seq<Program<S>>, i: nat, m: Mem<S>, t: nat, out: real)
    requires GridOk(ks, m) && i < |ks| && ks[i].active && t < ks[i].len
  {
    && Reference(ks, m).delta[ks[i].deltaBase + t] == out
    && (ks[i].hasZ ==> Reference(ks, m).z[ks[i].zBase + t] == Gate(ks[i], out, m.z[ks[i].zBase + t]))
  }

  // ----- a whole prefill -----

  /** One scheduler step of the request: the grid launched, the request's program in it, the memory at launch, the
      tokens and the full blocks scheduled before, and the request's blocks. */
  datatype SchedulerStep<!S> =
    SchedulerStep(ks: seq<Program<S>>, i: nat, mem: Mem<S>, n: nat, full: nat, cells: seq<int>)

  ghost predicate StepOk<S(!new)>(st: SchedulerStep<S>, r: Recurrence<S>, size: nat)
    requires 0 < size
  {
    && st.i < |st.ks|
    && PrefillLaunch(st.ks, st.i, st.mem, st.cells, r, st.full, st.n,
                     Ends(size, st.n), Ends(size, st.n + st.ks[st.i].len))
  }

  /** Between two steps the request may give blocks up and get new ones, and anything may happen to memory except to the
      computed blocks it keeps. */
  ghost predicate Follows<S>(st: SchedulerStep<S>, st': SchedulerStep<S>, size: nat)
    requires 0 < size && GridOk(st.ks, st.mem) && st.i < |st.ks|
  {
    var m := Reference(st.ks, st.mem);
    && st'.n == st.n + st.ks[st.i].len
    && KeepsBlocks(m, st.cells, st'.mem, st'.cells, |Ends(size, st'.n)|)
  }

  /** Of the first `count` blocks in `cells`, those still in `cells'` are unchanged. */
  ghost predicate KeepsBlocks<S>(m: Mem<S>, cells: seq<int>, m': Mem<S>, cells': seq<int>, count: nat) {
    && |m'.ssm| == |m.ssm| && count <= |cells| && count <= |cells'|
    && forall j | 0 <= j < count && 0 <= cells'[j] ::
         cells'[j] == cells[j] && (cells[j] < |m.ssm| ==> m'.ssm[cells[j]] == m.ssm[cells[j]])
  }

  lemma {:induction false} KeptHold<S>(m: Mem<S>, cells: seq<int>, m': Mem<S>, cells': seq<int>, r: Recurrence<S>,
                                       ends: seq<nat>)
    requires HoldsPrefix(m, cells, r, ends) && KeepsBlocks(m, cells, m', cells', |ends|)
    ensures HoldsPrefix(m', cells', r, ends)
  {
  }

  /** Every block that the request has computed and kept holds the state of the uninterrupted fold at its end. */
  ghost predicate Caught<S>(st: SchedulerStep<S>, r: Recurrence<S>, size: nat)
    requires 0 < size
  {
    HoldsPrefix(st.mem, st.cells, r, Ends(size, st.n))
  }

  lemma {:induction false} StepThenStep<S(!new)>(st: SchedulerStep<S>, st': SchedulerStep<S>, r: Recurrence<S>,
                                                 size: nat)
    requires 0 < size && StepOk(st, r, size) && Follows(st, st', size) && Caught(st, r, size)
    ensures Caught(st', r, size)
  {
    PrefillBlocks(st.ks, st.i, st.mem, st.cells, r, st.full, st.n, Ends(size, st.n), Ends(size, st'.n));
    KeptHold(Reference(st.ks, st.mem), st.cells, st'.mem, st'.cells, r, Ends(size, st'.n));
  }

  /** A run of scheduler steps of one request. `steps[0].n` is 0 for a fresh request, or what a prefix-cache hit already
      provides. */
  ghost predicate PrefillSteps<S(!new)>(steps: seq<SchedulerStep<S>>, r: Recurrence<S>, size: nat)
    requires 0 < size
  {
    && steps != [] && Caught(steps[0], r, size)
    && (forall t | 0 <= t < |steps| :: StepOk(steps[t], r, size))
    && (forall t {:trigger InTurn(steps, t, size)} | 0 <= t < |steps| - 1 :: InTurn(steps, t, size))
  }

  ghost predicate InTurn<S>(steps: seq<SchedulerStep<S>>, t: nat, size: nat)
    requires 0 < size && t + 1 < |steps| && steps[t].i < |steps[t].ks| && GridOk(steps[t].ks, steps[t].mem)
  {
    Follows(steps[t], steps[t + 1], size)
  }

  /** For every way to cut a request into scheduler steps: at each step every block of the request computed so far
      holds the state of the uninterrupted fold at its end. */
  lemma {:induction false} ChunkedPrefill<S(!new)>(steps: seq<SchedulerStep<S>>, r: Recurrence<S>, size: nat, t: nat)
    requires 0 < size && PrefillSteps(steps, r, size) && t < |steps|
    ensures Caught(steps[t], r, size)
  {
    if 0 < t {
      var u := t - 1;
      ChunkedPrefill(steps, r, size, u);
      StepThenStep(steps[u], steps[u + 1], r, size) by {
        assert StepOk(steps[u], r, size) && InTurn(steps, u, size);
      }
    }
  }

  /** ... and each output of each step is that of the uninterrupted fold. */
  lemma {:induction false} ChunkedPrefillOutputs<S(!new)>(steps: seq<SchedulerStep<S>>, r: Recurrence<S>, size: nat,
                                                          t: nat, j: nat)
    requires 0 < size && PrefillSteps(steps, r, size) && t < |steps|
    requires StepOk(steps[t], r, size) && j < steps[t].ks[steps[t].i].len
    ensures OutputsAt(steps[t].ks, steps[t].i, steps[t].mem, j,
                      EmitAt(r, steps[t].n + j, FoldTo(r, steps[t].n + j + 1)))
  {
    ChunkedPrefill(steps, r, size, t);
    StepOutput(steps[t], r, size, j);
  }

  lemma {:induction false} StepOutput<S(!new)>(st: SchedulerStep<S>, r: Recurrence<S>, size: nat, j: nat)
    requires 0 < size && StepOk(st, r, size) && Caught(st, r, size) && j < st.ks[st.i].len
    ensures OutputsAt(st.ks, st.i, st.mem, j, EmitAt(r, st.n + j, FoldTo(r, st.n + j + 1)))
  {
    PrefillOutput(st.ks, st.i, st.mem, st.cells, r, st.full, st.n, Ends(size, st.n),
                  Ends(size, st.n + st.ks[st.i].len), j);
  }

  // ----- a whole prefill by launches with the builder's metadata -----

  /** One launch of the kernel with the builder's metadata: an enumeration of its grid, the tokens of each sequence
      scheduled before, the memory at launch, and the index of the request's program. */
  datatype BuiltStep<!S> = BuiltStep(l: Launch<S>, ix: seq<(nat, nat)>, computed: seq<nat>, mem: Mem<S>, i: nat)

  ghost predicate BuiltStepWf<S>(s: BuiltStep<S>) {
    && BuiltLaunch(s.l, s.computed) && Wf(s.l) && LaunchFits(s.l, s.mem) && Enumerates(s.l, s.ix) && s.i < |s.ix|
    && Active(s.l, s.ix[s.i].0)
  }

  /** The blocks that sequence `b` has among the first `count`: real, distinct, and saved into by no other active
      sequence. */
  ghost predicate OwnBlocks<S>(l: Launch<S>, b: nat, q: nat, count: nat)
    requires Wf(l) && l.cache.Apc? && b < l.batches && count <= |l.cache.table[b]|
  {
    var row := l.cache.table[b];
    && (forall j | 0 <= j < count && Has(l, b, q, j) :: 0 <= row[j])
    && (forall i, j | 0 <= i < j < count && Has(l, b, q, i) && Has(l, b, q, j) :: row[i] != row[j])
    && (forall o, c, j | 0 <= o < l.batches && o != b && Active(l, o) && 0 <= c < NumChunks(l, o)
                         && 0 <= j < count && Has(l, b, q, j) :: SaveSlot(l, o, c) != row[j])
  }

  /** The launch serves the request `r`: the tokens it scans are the request's next ones. */
  ghost predicate Serves<S(!new)>(s: BuiltStep<S>, r: Recurrence<S>)
    requires BuiltStepWf(s)
  {
    var (b, count) := (s.ix[s.i].0, |Ends(s.l.cache.blockSize, TokensAfter(s))|);
    && s.l.zero == r.zero
    && count <= |s.l.cache.table[b]| && OwnBlocks(s.l, b, s.l.cache.blockFirst[b], count)
    && forall t {:trigger TokenNext(s, r, t)} | 0 <= t < SeqLen(s.l, b) :: TokenNext(s, r, t)
  }

  /** Where the request's row begins in a tensor with layout `y`. */
  function RowStart<S>(s: BuiltStep<S>, y: Layout): nat
    requires s.i < |s.ix| && s.ix[s.i].0 < |s.l.queryStart|
  {
    s.ix[s.i].1 * y.dimStride + s.l.queryStart[s.ix[s.i].0] * y.batchStride
  }

  /** Token `t` of the launch is the request's next token but `t`. */
  ghost predicate TokenNext<S(!new)>(s: BuiltStep<S>, r: Recurrence<S>, t: nat)
    requires s.i < |s.ix| && s.ix[s.i].0 < |s.l.queryStart| && s.ix[s.i].0 < |s.computed|
  {
    var ((b, d), a) := (s.ix[s.i], RowStart(s, s.l.deltaLayout) + t);
    var n := s.computed[b] + t;
    && a < |s.mem.delta|
    && forall st :: && UpdateOf(s.l, b, d, t, s.mem.delta[a], st) == StepAt(r, n, st)
                    && EmitOf(s.l, b, d, t, s.mem.delta[a], st) == EmitAt(r, n, st)
  }

  /** The program of the request scans its row. */
  lemma {:induction false} RowScanned<S>(s: BuiltStep<S>)
    requires BuiltStepWf(s)
    ensures var ((b, d), l) := (s.ix[s.i], s.l);
            var k := ProgramOf(l, b, d);
            && k.active && Fits(k, s.mem) && k.hasZ == l.hasZ && k.len == SeqLen(l, b)
            && k.deltaBase == RowStart(s, l.deltaLayout) && k.zBase == RowStart(s, l.zLayout)
  {
    var ((b, d), l) := (s.ix[s.i], s.l);
    assert Base(l, l.deltaLayout, b, d) == RowStart(s, l.deltaLayout);
    assert Base(l, l.zLayout, b, d) == RowStart(s, l.zLayout);
  }

  lemma {:induction false} TokenMatches<S(!new)>(s: BuiltStep<S>, r: Recurrence<S>, k: Program<S>, t: nat)
    requires BuiltStepWf(s) && TokenNext(s, r, t) && k == ProgramOf(s.l, s.ix[s.i].0, s.ix[s.i].1)
    requires k.active && Fits(k, s.mem) && t < k.len && k.deltaBase == RowStart(s, s.l.deltaLayout)
    ensures SameToken(k, s.mem, r, s.computed[s.ix[s.i].0], t)
  {
    var ((b, d), x) := (s.ix[s.i], s.mem.delta[k.deltaBase + t]);
    forall st ensures Update(k, t, x, st) == UpdateOf(s.l, b, d, t, x, st)
      ensures Emit(k, t, x, st) == EmitOf(s.l, b, d, t, x, st)
    {
    }
  }

  lemma {:induction false} TokensMatch<S(!new)>(s: BuiltStep<S>, r: Recurrence<S>)
    requires BuiltStepWf(s) && Serves(s, r)
    ensures ScansNext(ProgramOf(s.l, s.ix[s.i].0, s.ix[s.i].1), s.mem, r, s.computed[s.ix[s.i].0])
  {
    var k := ProgramOf(s.l, s.ix[s.i].0, s.ix[s.i].1);
    RowScanned(s);
    forall t | 0 <= t < k.len ensures SameToken(k, s.mem, r, s.computed[s.ix[s.i].0], t) {
      assert TokenNext(s, r, t);
      TokenMatches(s, r, k, t);
    }
  }

  ghost predicate ScansNext<S(!new)>(k: Program<S>, m: Mem<S>, r: Recurrence<S>, n: nat) {
    k.active && Fits(k, m) && forall t | 0 <= t < k.len :: SameToken(k, m, r, n, t)
  }

  ghost function StepOf<S>(s: BuiltStep<S>): SchedulerStep<S>
    requires BuiltStepWf(s)
  {
    var (b, d) := s.ix[s.i];
    var full := s.l.cache.blockFirst[b];
    SchedulerStep(GridOf(s.l, s.ix), s.i, s.mem, s.computed[b], full, RowCells(s.l, b, d, full))
  }

  lemma {:induction false} CellsOwned<S>(l: Launch<S>, ix: seq<(nat, nat)>, i: nat, b: nat, d: nat, q: nat, count: nat)
    requires Wf(l) && Enumerates(l, ix) && i < |ix| && ix[i] == (b, d)
    requires l.cache.Apc? && count <= |l.cache.table[b]| && OwnBlocks(l, b, q, count)
    ensures OwnCells(GridOf(l, ix), i, RowCells(l, b, d, q), count)
  {
    var (ks, cells) := (GridOf(l, ix), RowCells(l, b, d, q));
    forall e, j | 0 <= e < j < count && 0 <= cells[e] ensures cells[e] != cells[j] {
      RowCellsDistinct(l, b, d, q, count, e, j);
    }
    forall o, j | 0 <= o < |ks| && o != i && 0 <= j < count && 0 <= cells[j] ensures !WritesCell(ks[o], cells[j]) {
      assert ix[o] != ix[i];
      OthersStayAway(l, b, d, q, count, j, ix[o].0, ix[o].1);
    }
  }

  lemma {:induction false} RowCellsDistinct<S>(l: Launch<S>, b: nat, d: nat, q: nat, count: nat, i: nat, j: nat)
    requires Wf(l) && l.cache.Apc? && b < l.batches && d < l.dims && count <= |l.cache.table[b]|
    requires OwnBlocks(l, b, q, count)
    requires i < j < count && 0 <= RowCells(l, b, d, q)[i]
    ensures RowCells(l, b, d, q)[i] != RowCells(l, b, d, q)[j]
  {
    var row := l.cache.table[b];
    if Has(l, b, q, j) && RowCells(l, b, d, q)[i] == RowCells(l, b, d, q)[j] {
      CellsDistinct(l, row[i], d, row[j], d);
    }
  }

  /** No other program of the launch saves into the blocks of a request. */
  lemma {:induction false} OthersStayAway<S>(l: Launch<S>, b: nat, d: nat, q: nat, count: nat, j: nat, b': nat, d': nat)
    requires Wf(l) && l.cache.Apc? && b < l.batches && d < l.dims && count <= |l.cache.table[b]|
    requires OwnBlocks(l, b, q, count)
    requires b' < l.batches && d' < l.dims && (b != b' || d != d') && j < count && 0 <= RowCells(l, b, d, q)[j]
    ensures !WritesCell(ProgramOf(l, b', d'), RowCells(l, b, d, q)[j])
  {
    var k, a, row := ProgramOf(l, b', d'), RowCells(l, b, d, q)[j], l.cache.table[b];
    if WritesCell(k, a) {
      var c :| 0 <= c < |k.cells| && k.cells[c] == a;
      assert a == SaveCell(l, b', d', c) == Cell(l, row[j], d);
      assert UsesSlot(l, b', SaveSlot(l, b', c));
      CellsDistinct(l, SaveSlot(l, b', c), d', row[j], d);
    }
  }

  /** A launch with the builder's metadata is a prefill step of each request it serves. */
  lemma {:induction false} BuiltStepOk<S(!new)>(s: BuiltStep<S>, r: Recurrence<S>)
    requires BuiltStepWf(s) && Serves(s, r)
    ensures StepOk(StepOf(s), r, s.l.cache.blockSize)
  {
    BuiltStepProgram(s);
    BuiltStepCells(s, r);
    TokensMatch(s, r);
  }

  /** The tokens that the request of a step has after it. */
  function TokensAfter<S>(s: BuiltStep<S>): nat
    requires SequencesWf(s.l) && s.i < |s.ix| && s.ix[s.i].0 < s.l.batches == |s.computed|
  {
    s.computed[s.ix[s.i].0] + SeqLen(s.l, s.ix[s.i].0)
  }

  lemma {:induction false} BuiltStepProgram<S>(s: BuiltStep<S>)
    requires BuiltStepWf(s)
    ensures var (st, size) := (StepOf(s), s.l.cache.blockSize);
            && GridOk(st.ks, s.mem)
            && PrefillProgram(st.ks[s.i], st.cells, st.full, st.n, Ends(size, st.n), Ends(size, TokensAfter(s)))
  {
    var (size, b) := (s.l.cache.blockSize, s.ix[s.i].0);
    LaunchOk(s.l, s.ix, s.mem);
    assert BuiltRow(s.l, s.computed, b);
    CM.BlockIndices(s.computed[b], SeqLen(s.l, b), size);
    KernelPrefills(s.l, s.computed, b, s.ix[s.i].1, s.l.cache.blockFirst[b], Ends(size, s.computed[b]),
                   Ends(size, TokensAfter(s)));
  }

  lemma {:induction false} BuiltStepCells<S(!new)>(s: BuiltStep<S>, r: Recurrence<S>)
    requires BuiltStepWf(s) && Serves(s, r)
    ensures OwnCells(GridOf(s.l, s.ix), s.i, StepOf(s).cells, |Ends(s.l.cache.blockSize, TokensAfter(s))|)
  {
    var q := s.l.cache.blockFirst[s.ix[s.i].0];
    CellsOwned(s.l, s.ix, s.i, s.ix[s.i].0, s.ix[s.i].1, q, |Ends(s.l.cache.blockSize, TokensAfter(s))|);
  }

  /** A run of launches that prefills one request. */
  ghost predicate BuiltRun<S(!new)>(ss: seq<BuiltStep<S>>, r: Recurrence<S>, size: nat)
    requires 0 < size
  {
    && ss != [] && OnCourse(ss[0], r, size)
    && forall t {:trigger LaunchedInTurn(ss, t, r, size)} | 0 <= t < |ss| - 1 :: LaunchedInTurn(ss, t, r, size)
  }

  ghost predicate BuiltFor<S(!new)>(s: BuiltStep<S>, r: Recurrence<S>, size: nat) {
    BuiltStepWf(s) && Serves(s, r) && s.l.cache.blockSize == size
  }

  ghost predicate LaunchedInTurn<S(!new)>(ss: seq<BuiltStep<S>>, t: nat, r: Recurrence<S>, size: nat)
    requires 0 < size && t + 1 < |ss|
  {
    LaunchFollows(ss[t], ss[t + 1], r, size)
  }

  ghost predicate LaunchFollows<S(!new)>(s: BuiltStep<S>, s': BuiltStep<S>, r: Recurrence<S>, size: nat)
    requires 0 < size
  {
    BuiltFor(s, r, size) && BuiltFor(s', r, size) && (LaunchOk(s.l, s.ix, s.mem); Follows(StepOf(s), StepOf(s'), size))
  }

  /** Before the launch the blocks of the request hold the states of the uninterrupted fold. */
  ghost predicate OnCourse<S(!new)>(s: BuiltStep<S>, r: Recurrence<S>, size: nat)
    requires 0 < size
  {
    BuiltFor(s, r, size) && Caught(StepOf(s), r, size)
  }

  lemma {:induction false} NextOnCourse<S(!new)>(s: BuiltStep<S>, s': BuiltStep<S>, r: Recurrence<S>, size: nat)
    requires 0 < size && LaunchFollows(s, s', r, size) && OnCourse(s, r, size)
    ensures OnCourse(s', r, size)
  {
    BuiltStepOk(s, r);
    StepThenStep(StepOf(s), StepOf(s'), r, size);
  }

  lemma {:induction false} LaunchesOnCourse<S(!new)>(ss: seq<BuiltStep<S>>, r: Recurrence<S>, size: nat, t: nat)
    requires 0 < size && BuiltRun(ss, r, size) && t < |ss|
    ensures OnCourse(ss[t], r, size)
  {
    if 0 < t {
      var u := t - 1;
      LaunchesOnCourse(ss, r, size, u);
      NextOnCourse(ss[u], ss[u + 1], r, size) by {
        assert LaunchedInTurn(ss, u, r, size);
      }
    }
  }

  /** The step leaves behind the states and the outputs of the uninterrupted fold. */
  ghost predicate StepDone<S>(st: SchedulerStep<S>, r: Recurrence<S>, size: nat)
    requires 0 < size && GridOk(st.ks, st.mem) && st.i < |st.ks| && st.ks[st.i].active
  {
    var k := st.ks[st.i];
    && HoldsPrefix(Reference(st.ks, st.mem), st.cells, r, Ends(size, st.n + k.len))
    && forall j {:trigger StepOutputs(st, r, j)} | 0 <= j < k.len :: StepOutputs(st, r, j)
  }

  ghost predicate StepOutputs<S>(st: SchedulerStep<S>, r: Recurrence<S>, j: nat)
    requires GridOk(st.ks, st.mem) && st.i < |st.ks| && st.ks[st.i].active && j < st.ks[st.i].len
  {
    OutputsAt(st.ks, st.i, st.mem, j, EmitAt(r, st.n + j, FoldTo(r, st.n + j + 1)))
  }

  lemma {:induction false} StepDoes<S(!new)>(st: SchedulerStep<S>, r: Recurrence<S>, size: nat)
    requires 0 < size && StepOk(st, r, size) && Caught(st, r, size)
    ensures StepDone(st, r, size)
  {
    PrefillBlocks(st.ks, st.i, st.mem, st.cells, r, st.full, st.n, Ends(size, st.n),
                  Ends(size, st.n + st.ks[st.i].len));
    forall j | 0 <= j < st.ks[st.i].len ensures StepOutputs(st, r, j) {
      StepOutput(st, r, size, j);
    }
  }

  // ----- the same, address by address -----

  /** How many tokens of a request of `n` tokens lie in blocks 0 to `j`. */
  function BlockEnd(size: nat, n: nat, j: nat): nat {
    if (j + 1) * size < n then (j + 1) * size else n
  }

  /** Block `j` of a request with `n` tokens: the request has given it up (or never had it), or the cell of its slot and
      dimension holds the state at the end of the block, or at the last token so far. */
  ghost predicate BlockHolds<S>(s: BuiltStep<S>, r: Recurrence<S>, m: Mem<S>, n: nat, j: nat)
    requires BuiltStepWf(s) && j < |s.l.cache.table[s.ix[s.i].0]|
  {
    var ((b, d), size) := (s.ix[s.i], s.l.cache.blockSize);
    var slot := s.l.cache.table[b][j];
    var a := slot * s.l.slotStride + d * s.l.stateDimStride;
    || (slot == s.l.nullBlock && j < s.computed[b] / size)
    || (0 <= a < |m.ssm| && m.ssm[a] == FoldTo(r, BlockEnd(size, n, j)))
  }

  /** `out` is at address `a` of `delta`, and with a gate its gated form at address `e` of `z`. */
  ghost predicate OutAtAddress<S>(l: Launch<S>, m0: Mem<S>, m: Mem<S>, out: real, a: nat, e: nat) {
    && a < |m.delta| && m.delta[a] == out
    && (l.hasZ ==> e < |m0.z| == |m.z| && m.z[e] == GateOf(l, out, m0.z[e]))
  }

  /** The `len` tokens behind token `n` of the request have the outputs of the uninterrupted fold, from address `a` of
      `delta` and `e` of `z` on. */
  ghost predicate RowOut<S>(l: Launch<S>, m0: Mem<S>, m: Mem<S>, r: Recurrence<S>, n: nat, len: int, a: nat, e: nat) {
    forall t {:trigger TokenOut(l, m0, m, r, n, a, e, t)} | 0 <= t < len :: TokenOut(l, m0, m, r, n, a, e, t)
  }

  ghost predicate TokenOut<S>(l: Launch<S>, m0: Mem<S>, m: Mem<S>, r: Recurrence<S>, n: nat, a: nat, e: nat, t: nat) {
    OutAtAddress(l, m0, m, EmitAt(r, n + t, FoldTo(r, n + t + 1)), a + t, e + t)
  }

  /** Every block of a request with `n` tokens. */
  ghost predicate BlocksHold<S>(s: BuiltStep<S>, r: Recurrence<S>, m: Mem<S>, n: nat)
    requires BuiltStepWf(s)
  {
    var size := s.l.cache.blockSize;
    && Cdiv(n, size) <= |s.l.cache.table[s.ix[s.i].0]|
    && forall j {:trigger BlockHolds(s, r, m, n, j)} | 0 <= j < Cdiv(n, size) :: BlockHolds(s, r, m, n, j)
  }

  lemma {:induction false} BlocksWritten<S>(s: BuiltStep<S>, r: Recurrence<S>, m: Mem<S>, n: nat)
    requires BuiltStepWf(s) && HoldsPrefix(m, StepOf(s).cells, r, Ends(s.l.cache.blockSize, n))
    requires forall j | 0 <= j < |Ends(s.l.cache.blockSize, n)| && Has(s.l, s.ix[s.i].0, StepOf(s).full, j) ::
               0 <= StepOf(s).cells[j]
    ensures BlocksHold(s, r, m, n)
  {
    var ((b, d), size) := (s.ix[s.i], s.l.cache.blockSize);
    EndsCount(size, n);
    assert BuiltRow(s.l, s.computed, b);
    CM.BlockIndices(s.computed[b], SeqLen(s.l, b), size);
    forall j | 0 <= j < Cdiv(n, size) ensures BlockHolds(s, r, m, n, j) {
      EndAt(size, 0, n, j);
    }
  }

  lemma {:induction false} OwnCellsReal<S(!new)>(s: BuiltStep<S>, r: Recurrence<S>, j: nat)
    requires BuiltStepWf(s) && Serves(s, r) && j < |Ends(s.l.cache.blockSize, TokensAfter(s))|
    requires Has(s.l, s.ix[s.i].0, StepOf(s).full, j)
    ensures 0 <= StepOf(s).cells[j]
  {
    CellNonneg(s.l, s.l.cache.table[s.ix[s.i].0][j], s.ix[s.i].1);
  }

  lemma {:induction false} OutWritten<S>(l: Launch<S>, ks: seq<Program<S>>, i: nat, m: Mem<S>, b: nat, d: nat, t: nat,
                                         out: real)
    requires Wf(l) && b < l.batches && d < l.dims && GridOk(ks, m) && i < |ks| && ks[i] == ProgramOf(l, b, d)
    requires ks[i].active && t < ks[i].len && OutputsAt(ks, i, m, t, out)
    ensures OutAtAddress(l, m, Reference(ks, m), out, ks[i].deltaBase + t, ks[i].zBase + t)
  {
  }

  lemma {:induction false} RowWritten<S>(l: Launch<S>, st: SchedulerStep<S>, b: nat, d: nat, r: Recurrence<S>,
                                         k: Program<S>, size: nat)
    requires Wf(l) && b < l.batches && d < l.dims && GridOk(st.ks, st.mem) && st.i < |st.ks|
    requires st.ks[st.i] == k == ProgramOf(l, b, d) && k.active && 0 < size && StepDone(st, r, size)
    ensures RowOut(l, st.mem, Reference(st.ks, st.mem), r, st.n, k.len, k.deltaBase, k.zBase)
  {
    forall t | 0 <= t < k.len
      ensures TokenOut(l, st.mem, Reference(st.ks, st.mem), r, st.n, k.deltaBase, k.zBase, t)
    {
      assert StepOutputs(st, r, t);
      OutWritten(l, st.ks, st.i, st.mem, b, d, t, EmitAt(r, st.n + t, FoldTo(r, st.n + t + 1)));
    }
  }

  /** The memory that the finished launch of `s` leaves. */
  ghost predicate LaunchDone<S>(s: BuiltStep<S>, r: Recurrence<S>, m: Mem<S>)
    requires BuiltStepWf(s)
  {
    var ((b, d), l) := (s.ix[s.i], s.l);
    var len := l.queryStart[b + 1] - l.queryStart[b];
    && BlocksHold(s, r, m, s.computed[b] + len)
    && RowOut(l, s.mem, m, r, s.computed[b], len, RowStart(s, l.deltaLayout), RowStart(s, l.zLayout))
  }

  lemma {:induction false} StepWritten<S(!new)>(s: BuiltStep<S>, r: Recurrence<S>)
    requires BuiltStepWf(s) && Serves(s, r) && GridOk(GridOf(s.l, s.ix), s.mem)
    requires StepOf(s).ks[s.i].active && StepDone(StepOf(s), r, s.l.cache.blockSize)
    ensures LaunchDone(s, r, Reference(GridOf(s.l, s.ix), s.mem))
  {
    RowScanned(s);
    AfterWritten(s, r, Reference(GridOf(s.l, s.ix), s.mem));
    RowWritten(s.l, StepOf(s), s.ix[s.i].0, s.ix[s.i].1, r, StepOf(s).ks[s.i], s.l.cache.blockSize);
  }

  lemma {:induction false} AfterWritten<S(!new)>(s: BuiltStep<S>, r: Recurrence<S>, m: Mem<S>)
    requires BuiltStepWf(s) && Serves(s, r)
    requires HoldsPrefix(m, StepOf(s).cells, r, Ends(s.l.cache.blockSize, TokensAfter(s)))
    ensures BlocksHold(s, r, m, TokensAfter(s))
  {
    forall j | 0 <= j < |Ends(s.l.cache.blockSize, TokensAfter(s))| && Has(s.l, s.ix[s.i].0, StepOf(s).full, j)
      ensures 0 <= StepOf(s).cells[j]
    {
      OwnCellsReal(s, r, j);
    }
    BlocksWritten(s, r, m, TokensAfter(s));
  }

  lemma {:induction false} BeforeWritten<S(!new)>(s: BuiltStep<S>, r: Recurrence<S>)
    requires BuiltStepWf(s) && Serves(s, r) && Caught(StepOf(s), r, s.l.cache.blockSize)
    ensures BlocksHold(s, r, s.mem, s.computed[s.ix[s.i].0])
  {
    var (b, size) := (s.ix[s.i].0, s.l.cache.blockSize);
    EndsGrow(size, s.computed[b], SeqLen(s.l, b));
    forall j | 0 <= j < |Ends(size, s.computed[b])| && Has(s.l, b, StepOf(s).full, j)
      ensures 0 <= StepOf(s).cells[j]
    {
      OwnCellsReal(s, r, j);
    }
    BlocksWritten(s, r, s.mem, s.computed[b]);
  }

  /** For every way to cut a request into launches with the builder's metadata, and every order in which the programs of
      each launch take their steps: before each launch the blocks of the request hold the states of the one
      uninterrupted fold, after it also those the launch has reached, and its outputs, gated or not, are those of the
      fold. */
  lemma {:induction false} LaunchedPrefill<S(!new)>(ss: seq<BuiltStep<S>>, r: Recurrence<S>, size: nat, t: nat,
                                                    schedule: seq<nat>)
    requires 0 < size && BuiltRun(ss, r, size) && t < |ss|
    requires forall n | 0 <= n < |schedule| :: schedule[n] < |ss[t].ix|
    ensures OnCourse(ss[t], r, size)
    ensures BlocksHold(ss[t], r, ss[t].mem, ss[t].computed[ss[t].ix[ss[t].i].0])
    ensures var (ks, m) := (GridOf(ss[t].l, ss[t].ix), ss[t].mem);
            && GridOk(ks, m)
            && (AllHalted(Run(ks, m, schedule)) ==> LaunchDone(ss[t], r, Run(ks, m, schedule).mem))
  {
    LaunchesOnCourse(ss, r, size, t);
    OneLaunch(ss[t], r, schedule);
  }

  lemma {:induction false} OneLaunch<S(!new)>(s: BuiltStep<S>, r: Recurrence<S>, schedule: seq<nat>)
    requires BuiltStepWf(s) && Serves(s, r) && Caught(StepOf(s), r, s.l.cache.blockSize)
    requires forall n | 0 <= n < |schedule| :: schedule[n] < |s.ix|
    ensures BlocksHold(s, r, s.mem, s.computed[s.ix[s.i].0])
    ensures var (ks, m) := (GridOf(s.l, s.ix), s.mem);
            GridOk(ks, m) && (AllHalted(Run(ks, m, schedule)) ==> LaunchDone(s, r, Run(ks, m, schedule).mem))
  {
    BuiltStepOk(s, r);
    StepDoes(StepOf(s), r, s.l.cache.blockSize);
    StepWritten(s, r);
    BeforeWritten(s, r);
    LaunchDeterministic(s.l, s.ix, s.mem, schedule);
  }

  /** A prefix-cache hit: the full blocks that two requests have in common serve the second as they served the first.
      The second may take any of them over; all that a later launch needs is the last. */
  lemma {:induction false} PrefixHit<S(!new)>(m: Mem<S>, cells: seq<int>, r: Recurrence<S>, size: nat, n: nat,
                           r': Recurrence<S>, cells': seq<int>, blocks: nat)
    requires 0 < size && HoldsPrefix(m, cells, r, Ends(size, n)) && blocks <= n / size
    requires r'.zero == r.zero && forall t: nat, s | t < blocks * size :: StepAt(r', t, s) == StepAt(r, t, s)
    requires blocks <= |cells| && blocks <= |cells'|
    requires forall j | 0 <= j < blocks && 0 <= cells'[j] :: cells'[j] == cells[j]
    ensures HoldsPrefix(m, cells', r', Ends(size, blocks * size))
  {
    EndsLength(size, 0, blocks * size, blocks);
    EndsShape(size, n);
    forall j | 0 <= j < blocks
      ensures FoldTo(r', Ends(size, blocks * size)[j]) == FoldTo(r, Ends(size, n)[j])
    {
      MulMonotone(j + 1, blocks, size);
      FullEnd(size, n, n, j);
      EndAt(size, 0, blocks * size, j);
      SameFold(r, r', blocks * size, (j + 1) * size);
    }
  }

  lemma {:induction false} SameFold<S(!new)>(r: Recurrence<S>, r': Recurrence<S>, limit: nat, n: nat)
    requires r'.zero == r.zero && forall t: nat, s | t < limit :: StepAt(r', t, s) == StepAt(r, t, s)
    requires n <= limit
    ensures FoldTo(r', n) == FoldTo(r, n)
  {
    if 0 < n { SameFold(r, r', limit, n - 1); }
  }
}
