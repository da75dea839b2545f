/** The chunk metadata that the scan kernel is launched with when prefix caching is on: each chunk holds
    tokens of one sequence only, and every sequence is cut at the multiples of the block size, counted
    from the start of the request (and not of the scheduled part of it). */
module ChunkMetadata {

  import opened Arithmetic

  /** Tokens of a sequence before its chunk `k`, when `computed` tokens were scheduled earlier and `len`
      tokens are scheduled now. */
  function Boundary(computed: nat, len: nat, size: nat, k: nat): (p: nat)
    requires 0 < size
  {
    if k == 0 then 0
    else
      SizeBelow(k, size);
      Min(len, k * size - computed % size)
  }

  function NumChunks(computed: nat, len: nat, size: nat): nat
    requires 0 < size
  {
    Cdiv(computed % size + len, size)
  }

  lemma {:induction false} SizeBelow(k: nat, size: nat)
    requires 0 < k
    ensures k * size >= size
  {
    MulMonotone(1, k, size);
  }

  /** Every chunk but the last ends at a multiple of the block size, counted from the start of the request;
      the last ends with the scheduled tokens. */
  lemma {:induction false} BoundaryEnds(computed: nat, len: nat, size: nat, k: nat)
    requires 0 < size
    ensures var n := NumChunks(computed, len, size);
            && (0 < k < n ==> Boundary(computed, len, size, k) == k * size - computed % size < len)
            && (n <= k ==> Boundary(computed, len, size, k) == len || k == 0)
            && (n == 0 ==> len == 0)
  {
    var r, n := computed % size, NumChunks(computed, len, size);
    CdivBounds(r + len, size);
    if 0 < k {
      if k < n { MulMonotone(k, n - 1, size); assert (n - 1) * size == n * size - size; }
      else { MulMonotone(n, k, size); }
    }
  }

  ghost predicate Increasing(s: seq<nat>) {
    forall i, j | 0 <= i <= j < |s| :: s[i] <= s[j]
  }

  /** The batch: how much of each request was computed before, and where its new tokens lie. */
  ghost predicate BatchWf(size: nat, computed: seq<nat>, queryStart: seq<nat>) {
    0 < size && |queryStart| == |computed| + 1 && Increasing(queryStart)
  }

  function Len(size: nat, computed: seq<nat>, queryStart: seq<nat>, i: nat): nat
    requires BatchWf(size, computed, queryStart) && i < |computed|
  {
    queryStart[i + 1] - queryStart[i]
  }

  /** Where the chunks of request `i` start, in tokens of the batch. */
  ghost function Starts(size: nat, computed: seq<nat>, queryStart: seq<nat>, i: nat): seq<nat>
    requires BatchWf(size, computed, queryStart) && i < |computed|
  {
    var len := Len(size, computed, queryStart, i);
    seq(NumChunks(computed[i], len, size), k requires 0 <= k =>
      queryStart[i] - queryStart[0] + Boundary(computed[i], len, size, k))
  }

  /** The starts of the chunks of the first `n` requests, and their requests. */
  ghost function AllStarts(size: nat, computed: seq<nat>, queryStart: seq<nat>, n: nat): seq<nat>
    requires BatchWf(size, computed, queryStart) && n <= |computed|
  {
    if n == 0 then []
    else AllStarts(size, computed, queryStart, n - 1) + Starts(size, computed, queryStart, n - 1)
  }

  ghost function AllOwners(size: nat, computed: seq<nat>, queryStart: seq<nat>, n: nat): seq<nat>
    requires BatchWf(size, computed, queryStart) && n <= |computed|
  {
    if n == 0 then []
    else AllOwners(size, computed, queryStart, n - 1) +
         seq(|Starts(size, computed, queryStart, n - 1)|, _ => n - 1)
  }

  /** `cu_chunk_seqlen` as the builder returns it. */
  ghost function CuChunk(size: nat, computed: seq<nat>, queryStart: seq<nat>): seq<nat>
    requires BatchWf(size, computed, queryStart)
  {
    AllStarts(size, computed, queryStart, |computed|) + [queryStart[|computed|] - queryStart[0]]
  }

  /** `_compute_chunk_metadata`. */
  method ComputeChunkMetadata(size: nat, computed: seq<nat>, queryStart: seq<nat>)
    returns (cu: seq<nat>, seqIdx: seq<nat>, last: seq<int>)
    requires BatchWf(size, computed, queryStart)
    ensures cu == CuChunk(size, computed, queryStart)
    ensures seqIdx == AllOwners(size, computed, queryStart, |computed|)
    ensures |last| == |computed|
    ensures forall i | 0 <= i < |last| :: last[i] == |AllStarts(size, computed, queryStart, i + 1)| - 1
    ensures |seqIdx| == |cu| - 1
    ensures forall c, i | 0 <= c < |seqIdx| && 0 <= i < |last| ::
              seqIdx[c] == i <==> (if i == 0 then -1 else last[i - 1]) < c <= last[i]
  {
    cu, seqIdx, last := [], [], [];
    var seqlenPos := 0;
    for req := 0 to |computed|
      invariant cu == AllStarts(size, computed, queryStart, req)
      invariant seqIdx == AllOwners(size, computed, queryStart, req)
      invariant |last| == req
      invariant forall i | 0 <= i < req :: last[i] == |AllStarts(size, computed, queryStart, i + 1)| - 1
      invariant seqlenPos == queryStart[req] - queryStart[0]
    {
      var newTokens := queryStart[req + 1] - queryStart[req];
      var starts := RequestChunks(size, computed[req], newTokens, seqlenPos);
      assert starts == Starts(size, computed, queryStart, req);
      cu := cu + starts;
      seqIdx := seqIdx + seq(|starts|, _ => req);
      seqlenPos := seqlenPos + newTokens;
      last := last + [|cu| - 1];
    }
    cu := cu + [seqlenPos];
    forall c, i | 0 <= c < |seqIdx| && 0 <= i < |last|
      ensures seqIdx[c] == i <==> (if i == 0 then -1 else last[i - 1]) < c <= last[i]
    {
      OwnerOf(size, computed, queryStart, |computed|, c, i);
    }
    OwnersCount(size, computed, queryStart, |computed|);
  }

  lemma {:induction false} OwnersCount(size: nat, computed: seq<nat>, queryStart: seq<nat>, n: nat)
    requires BatchWf(size, computed, queryStart) && n <= |computed|
    ensures |AllOwners(size, computed, queryStart, n)| == |AllStarts(size, computed, queryStart, n)|
  {
    if 0 < n { OwnersCount(size, computed, queryStart, n - 1); }
  }

  /** Chunk `c` belongs to request `i` if and only if it comes behind the chunks of the requests before and not behind
      its own last. */
  lemma {:induction false} OwnerOf(size: nat, computed: seq<nat>, queryStart: seq<nat>, n: nat, c: nat, i: nat)
    requires BatchWf(size, computed, queryStart) && i < n <= |computed|
    requires c < |AllOwners(size, computed, queryStart, n)|
    ensures |AllOwners(size, computed, queryStart, n)| == |AllStarts(size, computed, queryStart, n)|
    ensures AllOwners(size, computed, queryStart, n)[c] < n
    ensures AllOwners(size, computed, queryStart, n)[c] == i <==>
            |AllStarts(size, computed, queryStart, i)| <= c < |AllStarts(size, computed, queryStart, i + 1)|
  {
    OwnersCount(size, computed, queryStart, n);
    OwnersCount(size, computed, queryStart, n - 1);
    StartsGrow(size, computed, queryStart, i + 1, n);
    if c < |AllOwners(size, computed, queryStart, n - 1)| {
      OwnerOf(size, computed, queryStart, n - 1, c, if i < n - 1 then i else 0);
    } else if i < n - 1 {
      StartsGrow(size, computed, queryStart, i + 1, n - 1);
    }
  }

  lemma {:induction false} StartsGrow(size: nat, computed: seq<nat>, queryStart: seq<nat>, i: nat, n: nat)
    requires BatchWf(size, computed, queryStart) && i <= n <= |computed|
    ensures |AllStarts(size, computed, queryStart, i)| <= |AllStarts(size, computed, queryStart, n)|
  {
    if i < n { StartsGrow(size, computed, queryStart, i, n - 1); }
  }

  /** Entry `k` of request `i` in the concatenated starts. */
  lemma {:induction false} StartsAt(size: nat, computed: seq<nat>, queryStart: seq<nat>, n: nat, i: nat, k: nat)
    requires BatchWf(size, computed, queryStart) && i < n <= |computed|
    requires k < |Starts(size, computed, queryStart, i)|
    ensures var first := |AllStarts(size, computed, queryStart, i)|;
            && first + k < |AllStarts(size, computed, queryStart, n)|
            && AllStarts(size, computed, queryStart, n)[first + k] == Starts(size, computed, queryStart, i)[k]
  {
    if i + 1 < n { StartsAt(size, computed, queryStart, n - 1, i, k); }
  }

  /** The chunks of one request: where each of them starts. */
  method RequestChunks(size: nat, computed: nat, len: nat, base: nat) returns (starts: seq<nat>)
    requires 0 < size
    ensures |starts| == NumChunks(computed, len, size)
    ensures forall k | 0 <= k < |starts| :: starts[k] == base + Boundary(computed, len, size, k)
  {
    var seqlenPos, newTokens := base, len;
    starts := [];
    CdivBounds(computed % size + len, size);
    var head := 0;
    if computed % size != 0 {
      starts := starts + [seqlenPos];
      HeadLength(computed, size);
      var chunkLen := Min(Cdiv(computed, size) * size - computed, newTokens);
      seqlenPos := seqlenPos + chunkLen;
      newTokens := newTokens - chunkLen;
      head := 1;
    }
    var n := Cdiv(newTokens, size);
    TailCount(computed % size, len, size, newTokens, head);
    for chunk := 0 to n
      invariant |starts| == head + chunk
      invariant forall k | 0 <= k < |starts| :: starts[k] == base + Boundary(computed, len, size, k)
      invariant seqlenPos == base + Boundary(computed, len, size, head + chunk)
      invariant newTokens == len - Boundary(computed, len, size, head + chunk)
    {
      starts := starts + [seqlenPos];
      var chunkLen := Min(size, newTokens);
      NextBoundary(computed, len, size, head + chunk);
      seqlenPos := seqlenPos + chunkLen;
      newTokens := newTokens - chunkLen;
    }
    BoundaryEnds(computed, len, size, head + n);
    assert newTokens == 0;
  }

  /** Tokens that finish a block already begun. */
  lemma {:induction false} HeadLength(computed: nat, size: nat)
    requires 0 < size && computed % size != 0
    ensures Cdiv(computed, size) * size - computed == size - computed % size
  {
    var q := computed / size;
    assert computed == q * size + computed % size;
    assert (q + 1) * size == q * size + size;
    CdivUnique(computed, size, q + 1);
  }

  lemma {:induction false} TailCount(r: nat, len: nat, size: nat, rest: nat, head: nat)
    requires r < size && head == (if r == 0 then 0 else 1)
    requires rest == if r == 0 then len else len - Min(size - r, len)
    ensures head + Cdiv(rest, size) == Cdiv(r + len, size)
  {
    if r != 0 {
      CdivBounds(rest, size);
      var q := Cdiv(rest, size);
      assert (q + 1) * size == q * size + size;
      if len <= size - r {
        CdivUnique(0, size, 0);
        CdivUnique(r + len, size, 1);
      } else {
        CdivUnique(r + len, size, q + 1);
      }
    }
  }

  lemma {:induction false} NextBoundary(computed: nat, len: nat, size: nat, k: nat)
    requires 0 < size && (k == 0 ==> computed % size == 0)
    ensures Boundary(computed, len, size, k + 1) ==
            Boundary(computed, len, size, k) + Min(size, len - Boundary(computed, len, size, k))
  {
    assert (k + 1) * size == k * size + size;
    if 0 < k { SizeBelow(k, size); }
  }

  lemma {:induction false} BoundaryMonotone(computed: nat, len: nat, size: nat, i: nat, j: nat)
    requires 0 < size && i <= j
    ensures Boundary(computed, len, size, i) <= Boundary(computed, len, size, j)
  {
    MulMonotone(i, j, size);
  }

  lemma {:induction false} RequestStart(size: nat, computed: seq<nat>, queryStart: seq<nat>, i: nat)
    requires BatchWf(size, computed, queryStart) && i <= |computed|
    ensures var c := |AllStarts(size, computed, queryStart, i)|;
            && c < |CuChunk(size, computed, queryStart)|
            && CuChunk(size, computed, queryStart)[c] == queryStart[i] - queryStart[0]
    decreases |computed| - i
  {
    if i < |computed| {
      if |Starts(size, computed, queryStart, i)| == 0 {
        BoundaryEnds(computed[i], Len(size, computed, queryStart, i), size, 0);
        RequestStart(size, computed, queryStart, i + 1);
      } else {
        StartsAt(size, computed, queryStart, |computed|, i, 0);
      }
    }
  }

  /** The boundaries of every request can be read off `cu_chunk_seqlen`, the last one included. */
  lemma {:induction false} BoundariesRecorded(size: nat, computed: seq<nat>, queryStart: seq<nat>, i: nat, k: nat)
    requires BatchWf(size, computed, queryStart) && i < |computed|
    requires k <= NumChunks(computed[i], Len(size, computed, queryStart, i), size)
    ensures var c := |AllStarts(size, computed, queryStart, i)| + k;
            && c < |CuChunk(size, computed, queryStart)|
            && CuChunk(size, computed, queryStart)[c] ==
               queryStart[i] - queryStart[0] + Boundary(computed[i], Len(size, computed, queryStart, i), size, k)
  {
    var len := Len(size, computed, queryStart, i);
    if k < |Starts(size, computed, queryStart, i)| {
      StartsAt(size, computed, queryStart, |computed|, i, k);
    } else {
      BoundaryEnds(computed[i], len, size, k);
      RequestStart(size, computed, queryStart, i + 1);
    }
  }

  /** Some request from `i` on has a chunk if and only if chunks follow those of the first `i` requests. */
  lemma {:induction false} ChunksFollow(size: nat, computed: seq<nat>, queryStart: seq<nat>, i: nat)
    requires BatchWf(size, computed, queryStart) && i <= |computed|
    ensures |AllStarts(size, computed, queryStart, i)| <= |AllStarts(size, computed, queryStart, |computed|)|
    ensures |AllStarts(size, computed, queryStart, i)| < |AllStarts(size, computed, queryStart, |computed|)| <==>
            exists j | i <= j < |computed| :: 0 < NumChunks(computed[j], Len(size, computed, queryStart, j), size)
    decreases |computed| - i
  {
    if i < |computed| {
      ChunksFollow(size, computed, queryStart, i + 1);
      assert |AllStarts(size, computed, queryStart, i + 1)| == |AllStarts(size, computed, queryStart, i)| +
             NumChunks(computed[i], Len(size, computed, queryStart, i), size);
    }
  }

  // ----- block indices -----

  /** `_compute_prefix_caching_block_indices`. */
  function BlockLastComputed(computed: nat, size: nat): nat
    requires 0 < size
  {
    var i := (computed + size - 1) / size - 1;
    if i < 0 then 0 else i
  }

  function BlockFirstScheduled(computed: nat, size: nat): int
    requires 0 < size
  {
    (computed + size) / size - 1
  }

  function BlockLastScheduled(seqLen: nat, size: nat): nat
    requires 0 < size
  {
    var i := (seqLen + size - 1) / size - 1;
    if i < 0 then 0 else i
  }

  /** A request without tokens has no chunk, or an empty one when it stands inside a block; every other has a chunk. */
  lemma {:induction false} EmptyRequest(computed: nat, len: nat, size: nat)
    requires 0 < size
    ensures NumChunks(computed, len, size) == 0 <==> len == 0 && computed % size == 0
    ensures len == 0 ==> NumChunks(computed, len, size) <= 1
  {
    CdivBounds(computed % size + len, size);
    if len == 0 { CdivUnique(computed % size, size, if computed % size == 0 then 0 else 1); }
  }

  /** The scheduled tokens run through exactly as many blocks as there are chunks. */
  lemma {:induction false} BlockIndices(computed: nat, len: nat, size: nat)
    requires 0 < size
    ensures BlockFirstScheduled(computed, size) == computed / size
    ensures 0 < NumChunks(computed, len, size) ==>
              BlockLastScheduled(computed + len, size) == computed / size + NumChunks(computed, len, size) - 1
    ensures 0 < computed ==> BlockLastComputed(computed, size) == Cdiv(computed, size) - 1
  {
    var q, r, n := computed / size, computed % size, NumChunks(computed, len, size);
    assert computed == q * size + r;
    assert (q + 1) * size == q * size + size;
    DivUnique(computed + size, size, q + 1);
    CdivBounds(r + len, size);
    assert (q + n) * size == q * size + n * size;
    CdivUnique(computed + len, size, q + n);
    CdivBounds(computed, size);
  }
}
