/** How an allocation is cut into physical chunks. */
module MemChunks {
  import opened Arithmetic
  import opened VirtualMemory

  /** `min(aligned - i * chunk, chunk)` for each of the `ceil(aligned / chunk)` chunks. */
  function ChunkSizes(aligned: nat, chunk: nat): (sizes: seq<nat>)
    requires 0 < chunk
  {
    seq(Cdiv(aligned, chunk), i requires 0 <= i < Cdiv(aligned, chunk) => ChunkSize(aligned, chunk, i))
  }

  function ChunkSize(aligned: nat, chunk: nat, i: nat): nat
    requires 0 < chunk && i < Cdiv(aligned, chunk)
  {
    ChunkBegins(aligned, chunk, i);
    Min(aligned - i * chunk, chunk)
  }

  lemma {:induction false} ChunkBegins(aligned: nat, chunk: nat, i: nat)
    requires 0 < chunk && i < Cdiv(aligned, chunk)
    ensures i * chunk < aligned
    ensures i + 1 < Cdiv(aligned, chunk) ==> (i + 1) * chunk < aligned
  {
    var n := Cdiv(aligned, chunk);
    CdivBounds(aligned, chunk);
    MulMonotone(i, n - 1, chunk);
    assert (n - 1) * chunk == n * chunk - chunk;
    if i + 1 < n { MulMonotone(i + 1, n - 1, chunk); }
  }

  /** Fill the array of chunk sizes. */
  method FillChunkSizes(aligned: nat, chunk: nat) returns (sizes: seq<nat>)
    requires 0 < chunk
    ensures sizes == ChunkSizes(aligned, chunk)
  {
    var numChunks := (aligned + chunk - 1) / chunk;
    var a := new nat[numChunks];
    for i := 0 to numChunks
      invariant forall j | 0 <= j < i :: a[j] == ChunkSizes(aligned, chunk)[j]
    {
      ChunkBegins(aligned, chunk, i);
      a[i] := Min(aligned - i * chunk, chunk);
    }
    sizes := a[..];
  }

  /** Chunk `i` begins `i` full chunks into the range. */
  lemma {:induction false} ChunkOffset(aligned: nat, chunk: nat, i: nat)
    requires 0 < chunk && i <= Cdiv(aligned, chunk)
    ensures Offset(ChunkSizes(aligned, chunk), i) == Min(i * chunk, aligned)
  {
    if 0 < i {
      ChunkOffset(aligned, chunk, i - 1);
      ChunkBegins(aligned, chunk, i - 1);
      assert i * chunk == (i - 1) * chunk + chunk;
    }
  }

  /** The chunks are positive multiples of the granularity, add up to the aligned size, and all but the last have the
      full chunk size. */
  lemma {:induction false} ChunksTile(aligned: nat, chunk: nat, granularity: nat)
    requires 0 < granularity && 0 < chunk && aligned % granularity == 0 && chunk % granularity == 0
    ensures var sizes := ChunkSizes(aligned, chunk);
            && Positive(sizes) && Total(sizes) == aligned
            && (forall i | 0 <= i < |sizes| :: sizes[i] % granularity == 0)
            && (forall i | 0 <= i < |sizes| - 1 :: sizes[i] == chunk)
  {
    var sizes := ChunkSizes(aligned, chunk);
    ChunkOffset(aligned, chunk, |sizes|);
    CdivBounds(aligned, chunk);
    forall i | 0 <= i < |sizes|
      ensures 0 < sizes[i] && sizes[i] % granularity == 0 && (i < |sizes| - 1 ==> sizes[i] == chunk)
    {
      ChunkBegins(aligned, chunk, i);
      assert (i + 1) * chunk == i * chunk + chunk;
      RemainderMultiple(aligned, i, chunk, granularity);
    }
  }

  lemma {:induction false} RemainderMultiple(aligned: nat, i: nat, chunk: nat, g: nat)
    requires 0 < g && aligned % g == 0 && chunk % g == 0 && i * chunk <= aligned
    ensures (aligned - i * chunk) % g == 0
  {
    var a, c := aligned / g, chunk / g;
    assert aligned == a * g && chunk == c * g;
    assert i * chunk == (i * c) * g;
    assert aligned - i * chunk == (a - i * c) * g;
    assert (a + 1) * g == a * g + g;
    if a < i * c { MulMonotone(a + 1, i * c, g); }
    MultipleOf(a - i * c, g);
  }
}
