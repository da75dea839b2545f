/** What sleep mode keeps true of the driver: which ranges, mappings and handles belong to which allocation. */
module SleepMode {
  import opened VirtualMemory

  /** What the Python side remembers of an allocation. */
  datatype Alloc = Alloc(size: nat, chunks: seq<nat>, handles: seq<nat>, asleep: bool)

  ghost function Mappings(chunks: seq<nat>, handles: seq<nat>): (ms: seq<Mapping>)
    requires |chunks| == |handles|
    ensures |ms| == |chunks|
  {
    seq(|chunks|, i requires 0 <= i < |chunks| => Mapping(chunks[i], handles[i]))
  }

  /** The mappings of all chunks of an allocation at `base`. */
  ghost function Tiles(base: nat, chunks: seq<nat>, handles: seq<nat>): map<nat, Mapping>
    requires |chunks| == |handles|
  {
    Zip(Addresses(base, chunks), Mappings(chunks, handles), 0, |chunks|)
  }

  ghost function Chunks(chunks: seq<nat>, handles: seq<nat>): map<nat, nat>
    requires |chunks| == |handles|
  {
    Zip(handles, chunks, 0, |chunks|)
  }

  ghost predicate NotLive(handles: seq<nat>, d: Driver) {
    Distinct(handles) && forall i | 0 <= i < |handles| :: handles[i] !in d.live
  }

  /** Handles as the driver gives them out: not live, and not mapped either. */
  ghost predicate Fresh(handles: seq<nat>, d: Driver) {
    NotLive(handles, d) && forall i | 0 <= i < |handles| :: HandleUnmapped(d, handles[i])
  }

  /** An address range that is free for mapping. */
  lemma {:induction false} AddressesUnmapped(d: Driver, base: nat, chunks: seq<nat>)
    requires MappingsOk(d) && Positive(chunks) && Unmapped(d, base, Total(chunks))
    ensures forall i | 0 <= i < |chunks| :: Addresses(base, chunks)[i] !in d.mapped
  {
    forall i | 0 <= i < |chunks| ensures Addresses(base, chunks)[i] !in d.mapped {
      OffsetsTile(chunks, i, |chunks|);
      assert MappingOk(d, Addresses(base, chunks)[i]) || Addresses(base, chunks)[i] !in d.mapped;
    }
  }

  lemma {:induction false} ZipAdded<V>(m: map<nat, V>, keys: seq<nat>, vals: seq<V>, i: nat)
    requires i < |keys| == |vals|
    ensures m + Zip(keys, vals, 0, i + 1) == (m + Zip(keys, vals, 0, i))[keys[i] := vals[i]]
  {
  }

  lemma {:induction false} FreshAdded(d: Driver, chunks: seq<nat>, handles: seq<nat>, handle: nat)
    requires |handles| == |chunks| && Fresh(handles, d)
    requires handle !in d.live + Chunks(chunks, handles) && HandleUnmapped(d, handle)
    ensures Fresh(handles + [handle], d)
  {
    ZipKeys(handles, chunks, 0, |handles|);
  }

  lemma {:induction false} ChunksAdded(live: map<nat, nat>, chunks: seq<nat>, handles: seq<nat>, size: nat, handle: nat)
    requires |handles| == |chunks|
    ensures live + Chunks(chunks + [size], handles + [handle]) == (live + Chunks(chunks, handles))[handle := size]
  {
    ZipPrefix(handles, chunks, handles + [handle], chunks + [size], |handles|);
  }

  lemma {:induction false} ZipPrefix<V>(keys: seq<nat>, vals: seq<V>, keys': seq<nat>, vals': seq<V>, n: nat)
    requires n <= |keys| == |vals| && n <= |keys'| == |vals'| && keys[..n] == keys'[..n] && vals[..n] == vals'[..n]
    ensures Zip(keys, vals, 0, n) == Zip(keys', vals', 0, n)
  {
    if 0 < n {
      assert keys[..n - 1] == keys[..n][..n - 1] && keys'[..n - 1] == keys'[..n][..n - 1];
      assert vals[..n - 1] == vals[..n][..n - 1] && vals'[..n - 1] == vals'[..n][..n - 1];
      assert keys[n - 1] == keys[..n][n - 1] && vals[n - 1] == vals[..n][n - 1];
      ZipPrefix(keys, vals, keys', vals', n - 1);
    }
  }

  // ----- backing an address range with physical memory -----

  /** `d` with the chunks of a range created and mapped. */
  ghost function Backed(d: Driver, base: nat, chunks: seq<nat>, handles: seq<nat>): Driver
    requires |chunks| == |handles|
  {
    d.(live := d.live + Chunks(chunks, handles), mapped := d.mapped + Tiles(base, chunks, handles))
  }

  /** `d` with the chunks of a range unmapped and released. */
  ghost function Unbacked(d: Driver, base: nat, chunks: seq<nat>, handles: seq<nat>): Driver {
    d.(live := d.live - (set h | h in handles), mapped := d.mapped - (set a | a in Addresses(base, chunks)))
  }

  /** Every chunk of the range is mapped where it should be, onto its live handle. */
  ghost predicate IsBacked(d: Driver, base: nat, chunks: seq<nat>, handles: seq<nat>)
    requires |chunks| == |handles|
  {
    forall i | 0 <= i < |chunks| ::
      && Addresses(base, chunks)[i] in d.mapped
      && d.mapped[Addresses(base, chunks)[i]] == Mapping(chunks[i], handles[i])
      && handles[i] in d.live && d.live[handles[i]] == chunks[i]
  }

  lemma {:induction false} BackedEntries(d: Driver, base: nat, chunks: seq<nat>, handles: seq<nat>)
    requires Positive(chunks) && |chunks| == |handles| && Distinct(handles)
    ensures var d1 := Backed(d, base, chunks, handles);
            && IsBacked(d1, base, chunks, handles)
            && (forall a | a in d1.mapped :: a in d.mapped || a in Addresses(base, chunks))
            && (forall a | a in d.mapped && a !in Addresses(base, chunks) ::
                  a in d1.mapped && d1.mapped[a] == d.mapped[a])
            && (forall h | h in d1.live :: h in d.live || h in handles)
            && (forall h | h in d.live && h !in handles :: h in d1.live && d1.live[h] == d.live[h])
  {
    var addrs, ms, n := Addresses(base, chunks), Mappings(chunks, handles), |chunks|;
    AddressesDistinct(base, chunks);
    ZipKeys(addrs, ms, 0, n);
    ZipKeys(handles, chunks, 0, n);
    assert addrs[0..n] == addrs && handles[0..n] == handles;
    forall i | 0 <= i < n
      ensures addrs[i] in Tiles(base, chunks, handles) && Tiles(base, chunks, handles)[addrs[i]] == ms[i]
      ensures handles[i] in Chunks(chunks, handles) && Chunks(chunks, handles)[handles[i]] == chunks[i]
    {
      ZipAt(addrs, ms, 0, n, i);
      ZipAt(handles, chunks, 0, n, i);
    }
  }

  /** Backing a range and taking the backing away again are inverse to each other. */
  lemma {:induction false} UnbackedBacked(d: Driver, base: nat, chunks: seq<nat>, handles: seq<nat>)
    requires Positive(chunks) && |chunks| == |handles| && NotLive(handles, d)
    requires forall i | 0 <= i < |chunks| :: Addresses(base, chunks)[i] !in d.mapped
    ensures Unbacked(Backed(d, base, chunks, handles), base, chunks, handles) == d
  {
    BackedEntries(d, base, chunks, handles);
    var d1 := Unbacked(Backed(d, base, chunks, handles), base, chunks, handles);
    assert d1.live == d.live;
    assert d1.mapped == d.mapped;
  }

  lemma {:induction false} BackedUnbacked(d: Driver, base: nat, chunks: seq<nat>, handles: seq<nat>)
    requires Positive(chunks) && |chunks| == |handles| && Distinct(handles) && IsBacked(d, base, chunks, handles)
    ensures Backed(Unbacked(d, base, chunks, handles), base, chunks, handles) == d
    ensures NotLive(handles, Unbacked(d, base, chunks, handles))
    ensures forall i | 0 <= i < |chunks| :: Addresses(base, chunks)[i] !in Unbacked(d, base, chunks, handles).mapped
  {
    ZipPutBack(d.live, handles, chunks);
    AddressesDistinct(base, chunks);
    ZipPutBack(d.mapped, Addresses(base, chunks), Mappings(chunks, handles));
  }

  lemma {:induction false} ZipPutBack<V>(m: map<nat, V>, keys: seq<nat>, vals: seq<V>)
    requires Distinct(keys) && |keys| == |vals| && forall i | 0 <= i < |keys| :: keys[i] in m && m[keys[i]] == vals[i]
    ensures m - (set k | k in keys) + Zip(keys, vals, 0, |keys|) == m
  {
    var z := Zip(keys, vals, 0, |keys|);
    ZipKeys(keys, vals, 0, |keys|);
    assert keys[0..|keys|] == keys;
    forall k | k in keys ensures k in z && z[k] == m[k] {
      var i :| 0 <= i < |keys| && keys[i] == k;
      ZipAt(keys, vals, 0, |keys|, i);
    }
  }

  // ----- the invariant of sleep mode -----

  ghost predicate Shaped(al: Alloc) {
    && |al.chunks| == |al.handles| && Positive(al.chunks) && Total(al.chunks) == al.size && 0 < al.size
    && (!al.asleep ==> Distinct(al.handles))
  }

  /** Mapping `a` is a chunk of an awake allocation. */
  ghost predicate Owned(d: Driver, allocs: map<nat, Alloc>, a: nat) {
    exists p :: OwnedBy(d, allocs, a, p)
  }

  ghost predicate OwnedBy(d: Driver, allocs: map<nat, Alloc>, a: nat, p: nat) {
    p in d.reserved && p in allocs && !allocs[p].asleep && a in Addresses(p, allocs[p].chunks)
  }

  ghost predicate HandleMapped(d: Driver, h: nat) {
    exists a :: a in d.mapped && d.mapped[a].handle == h
  }

  ghost predicate HeldOk(d: Driver, p: nat, al: Alloc) {
    && p in d.reserved && Shaped(al) && d.reserved[p] == al.size
    && (if al.asleep then Unmapped(d, p, al.size) else IsBacked(d, p, al.chunks, al.handles))
  }

  /** Every range we hold is that of a recorded allocation. An awake allocation is backed chunk by chunk, a sleeping one
      has nothing mapped. Nothing else is mapped and no other handle is live. A record without a range (left by a failed
      call) owns nothing. */
  ghost predicate State(d: Driver, allocs: map<nat, Alloc>) {
    && DriverOk(d)
    && d.reserved.Keys <= allocs.Keys
    && (forall p {:trigger HeldOk(d, p, allocs[p])} | p in d.reserved :: HeldOk(d, p, allocs[p]))
    && (forall a {:trigger Owned(d, allocs, a)} | a in d.mapped :: Owned(d, allocs, a))
    && (forall h {:trigger HandleMapped(d, h)} | h in d.live :: HandleMapped(d, h))
  }

  lemma {:induction false} TileInside(p: nat, chunks: seq<nat>, i: nat)
    requires i < |chunks|
    ensures p <= Addresses(p, chunks)[i] && Addresses(p, chunks)[i] + chunks[i] <= p + Total(chunks)
  {
    OffsetsTile(chunks, i, |chunks|);
  }

  /** All chunks of a range at `p` can be mapped. */
  ghost predicate AllPlaced(d: Driver, p: nat, chunks: seq<nat>) {
    forall i {:trigger Addresses(p, chunks)[i]} | 0 <= i < |chunks| :: Placed(d, Addresses(p, chunks)[i], chunks[i])
  }

  /** A placeholder has room for its chunks. */
  lemma {:induction false} PlaceholderRoom(d: Driver, p: nat, chunks: seq<nat>)
    requires MappingsOk(d) && p in d.reserved && d.reserved[p] == Total(chunks) && Unmapped(d, p, Total(chunks))
    requires Positive(chunks)
    ensures AllPlaced(d, p, chunks)
  {
    AddressesUnmapped(d, p, chunks);
    forall i | 0 <= i < |chunks| ensures Placed(d, Addresses(p, chunks)[i], chunks[i]) {
      TileInside(p, chunks, i);
      assert Inside(Addresses(p, chunks)[i], chunks[i], p, d.reserved[p]);
    }
  }

  lemma {:induction false} BackedMappingsOk(d: Driver, p: nat, chunks: seq<nat>, handles: seq<nat>)
    requires MappingsOk(d) && AllPlaced(d, p, chunks)
    requires Positive(chunks) && |chunks| == |handles| && Fresh(handles, d)
    ensures MappingsOk(Backed(d, p, chunks, handles))
  {
    var d1 := Backed(d, p, chunks, handles);
    forall a | a in d1.mapped ensures MappingOk(d1, a) {
      BackedMappingOk(d, p, chunks, handles, a);
    }
    forall a, b | a in d1.mapped && b in d1.mapped && a != b ensures Separate(d1, a, b) {
      BackedSeparate(d, p, chunks, handles, a, b);
    }
  }

  lemma {:induction false} BackedMappingOk(d: Driver, p: nat, chunks: seq<nat>, handles: seq<nat>, a: nat)
    requires MappingsOk(d) && AllPlaced(d, p, chunks)
    requires Positive(chunks) && |chunks| == |handles| && Fresh(handles, d)
    requires a in Backed(d, p, chunks, handles).mapped
    ensures MappingOk(Backed(d, p, chunks, handles), a)
  {
    var d1, addrs := Backed(d, p, chunks, handles), Addresses(p, chunks);
    BackedEntries(d, p, chunks, handles);
    if a in addrs {
      var i :| 0 <= i < |chunks| && addrs[i] == a;
      assert Placed(d, addrs[i], chunks[i]);
      var b :| b in d.reserved && Inside(a, chunks[i], b, d.reserved[b]);
      assert InRange(d1, a, d1.mapped[a].size, b);
    } else {
      assert MappingOk(d, a);
      var b :| InRange(d, a, d.mapped[a].size, b);
      assert InRange(d1, a, d1.mapped[a].size, b);
    }
  }

  lemma {:induction false} BackedSeparate(d: Driver, p: nat, chunks: seq<nat>, handles: seq<nat>, a: nat, b: nat)
    requires MappingsOk(d) && AllPlaced(d, p, chunks)
    requires Positive(chunks) && |chunks| == |handles| && Fresh(handles, d)
    requires var d1 := Backed(d, p, chunks, handles); a in d1.mapped && b in d1.mapped && a != b
    ensures Separate(Backed(d, p, chunks, handles), a, b)
  {
    var d1, addrs := Backed(d, p, chunks, handles), Addresses(p, chunks);
    BackedEntries(d, p, chunks, handles);
    if a in addrs && b in addrs {
      NewPair(p, chunks, a, b);
    } else if a in addrs {
      assert MappingOk(d, b);
      MixedPair(d, p, chunks, a, b);
    } else if b in addrs {
      assert MappingOk(d, a);
      MixedPair(d, p, chunks, b, a);
    } else {
      assert Separate(d, a, b);
    }
  }

  lemma {:induction false} NewPair(p: nat, chunks: seq<nat>, a: nat, b: nat)
    requires a in Addresses(p, chunks) && b in Addresses(p, chunks) && a != b
    ensures forall i, j | 0 <= i < |chunks| && 0 <= j < |chunks|
                          && Addresses(p, chunks)[i] == a && Addresses(p, chunks)[j] == b ::
              i != j && Disjoint(a, chunks[i], b, chunks[j])
  {
    forall i, j | 0 <= i < |chunks| && 0 <= j < |chunks| && Addresses(p, chunks)[i] == a && Addresses(p, chunks)[j] == b
      ensures i != j && Disjoint(a, chunks[i], b, chunks[j])
    {
      if i < j { OffsetsTile(chunks, i, j); } else { OffsetsTile(chunks, j, i); }
    }
  }

  lemma {:induction false} MixedPair(d: Driver, p: nat, chunks: seq<nat>, a: nat, b: nat)
    requires AllPlaced(d, p, chunks) && a in Addresses(p, chunks) && b in d.mapped
    ensures forall i | 0 <= i < |chunks| && Addresses(p, chunks)[i] == a :: Disjoint(a, chunks[i], b, d.mapped[b].size)
  {
    forall i | 0 <= i < |chunks| && Addresses(p, chunks)[i] == a ensures Disjoint(a, chunks[i], b, d.mapped[b].size) {
      assert Placed(d, Addresses(p, chunks)[i], chunks[i]);
      assert FarFrom(d, a, chunks[i], b);
    }
  }

  // ----- waking -----

  ghost function Woken(allocs: map<nat, Alloc>, p: nat, handles: seq<nat>): map<nat, Alloc>
    requires p in allocs
  {
    allocs[p := allocs[p].(handles := handles, asleep := false)]
  }

  /** Waking a held placeholder. */
  lemma {:induction false} WakeKeeps(d: Driver, allocs: map<nat, Alloc>, p: nat, handles: seq<nat>)
    requires State(d, allocs) && p in d.reserved && allocs[p].asleep
    requires |handles| == |allocs[p].chunks| && NotLive(handles, d)
    ensures State(Backed(d, p, allocs[p].chunks, handles), Woken(allocs, p, handles))
  {
    var chunks := allocs[p].chunks;
    var d1, allocs1 := Backed(d, p, chunks, handles), Woken(allocs, p, handles);
    assert HeldOk(d, p, allocs[p]);
    AddressesUnmapped(d, p, chunks);
    PlaceholderRoom(d, p, chunks);
    OnlyLiveMapped(d, allocs, handles);
    BackedMappingsOk(d, p, chunks, handles);
    forall q | q in d1.reserved ensures HeldOk(d1, q, allocs1[q]) {
      if q == p { BackedEntries(d, p, chunks, handles); }
      else {
        assert HeldOk(d, q, allocs[q]) && Apart(d.reserved, p, q);
        OtherKept(d, p, chunks, handles, q, allocs[q]);
      }
    }
    forall a | a in d1.mapped ensures Owned(d1, allocs1, a) { WakeOwned(d, allocs, p, handles, a); }
    forall h | h in d1.live ensures HandleMapped(d1, h) { WakeLive(d, p, chunks, handles, h); }
  }

  /** As long as the records describe the driver, only live handles are mapped. */
  lemma {:induction false} OnlyLiveMapped(d: Driver, allocs: map<nat, Alloc>, handles: seq<nat>)
    requires State(d, allocs) && NotLive(handles, d)
    ensures Fresh(handles, d)
  {
    forall a | a in d.mapped ensures d.mapped[a].handle in d.live {
      assert Owned(d, allocs, a);
      var q :| OwnedBy(d, allocs, a, q);
      assert HeldOk(d, q, allocs[q]);
      var i :| 0 <= i < |allocs[q].chunks| && Addresses(q, allocs[q].chunks)[i] == a;
    }
  }

  lemma {:induction false} WakeOwned(d: Driver, allocs: map<nat, Alloc>, p: nat, handles: seq<nat>, a: nat)
    requires p in d.reserved && p in allocs && allocs[p].asleep && Positive(allocs[p].chunks)
    requires |handles| == |allocs[p].chunks| && Distinct(handles)
    requires a in Backed(d, p, allocs[p].chunks, handles).mapped
    requires a in d.mapped ==> Owned(d, allocs, a)
    ensures Owned(Backed(d, p, allocs[p].chunks, handles), Woken(allocs, p, handles), a)
  {
    var chunks := allocs[p].chunks;
    var d1, allocs1 := Backed(d, p, chunks, handles), Woken(allocs, p, handles);
    BackedEntries(d, p, chunks, handles);
    if a in Addresses(p, chunks) {
      assert OwnedBy(d1, allocs1, a, p);
    } else {
      var q :| OwnedBy(d, allocs, a, q);
      assert OwnedBy(d1, allocs1, a, q);
    }
  }

  lemma {:induction false} WakeLive(d: Driver, p: nat, chunks: seq<nat>, handles: seq<nat>, h: nat)
    requires Positive(chunks) && |handles| == |chunks| && Distinct(handles)
    requires h in Backed(d, p, chunks, handles).live && (h in d.live ==> HandleMapped(d, h))
    requires forall i | 0 <= i < |chunks| :: Addresses(p, chunks)[i] !in d.mapped
    ensures HandleMapped(Backed(d, p, chunks, handles), h)
  {
    var d1 := Backed(d, p, chunks, handles);
    BackedEntries(d, p, chunks, handles);
    if h in handles {
      var i :| 0 <= i < |handles| && handles[i] == h;
      assert d1.mapped[Addresses(p, chunks)[i]].handle == h;
    } else {
      var a :| a in d.mapped && d.mapped[a].handle == h;
      assert d1.mapped[a].handle == h;
    }
  }

  lemma {:induction false} OtherKept(d: Driver, p: nat, chunks: seq<nat>, handles: seq<nat>, q: nat, al: Alloc)
    requires p in d.reserved && p != q && HeldOk(d, q, al) && Apart(d.reserved, p, q)
    requires Positive(chunks) && |chunks| == |handles| && NotLive(handles, d)
    requires d.reserved[p] == Total(chunks)
    requires forall i | 0 <= i < |chunks| :: Addresses(p, chunks)[i] !in d.mapped
    ensures HeldOk(Backed(d, p, chunks, handles), q, al)
  {
    var d1 := Backed(d, p, chunks, handles);
    BackedEntries(d, p, chunks, handles);
    if al.asleep {
      forall a | a in d1.mapped ensures Disjoint(q, al.size, a, d1.mapped[a].size) {
        if a in Addresses(p, chunks) {
          var i :| 0 <= i < |chunks| && Addresses(p, chunks)[i] == a;
          TileInside(p, chunks, i);
        }
      }
    }
  }

  // ----- sleeping -----

  ghost function Slept(allocs: map<nat, Alloc>, p: nat): map<nat, Alloc>
    requires p in allocs
  {
    allocs[p := allocs[p].(asleep := true)]
  }

  ghost function SleptDriver(d: Driver, p: nat, al: Alloc): Driver {
    Unbacked(d, p, al.chunks, al.handles)
  }

  /** The chunk mapped at `a` lies in the range of the allocation that owns it. */
  lemma {:induction false} OwnerRange(d: Driver, p: nat, al: Alloc, a: nat)
    requires HeldOk(d, p, al) && !al.asleep && a in Addresses(p, al.chunks)
    ensures a in d.mapped && Inside(a, d.mapped[a].size, p, d.reserved[p]) && 0 < d.mapped[a].size
    ensures d.mapped[a].handle in al.handles
  {
    var i :| 0 <= i < |al.chunks| && Addresses(p, al.chunks)[i] == a;
    TileInside(p, al.chunks, i);
    assert d.mapped[a].handle == al.handles[i];
  }

  /** A mapping that is not a chunk of `p` does not share a handle with `p`. */
  lemma {:induction false} HandleNotOf(d: Driver, p: nat, al: Alloc, a: nat)
    requires MappingsOk(d) && HeldOk(d, p, al) && !al.asleep && a in d.mapped && a !in Addresses(p, al.chunks)
    ensures d.mapped[a].handle !in al.handles
  {
    forall i | 0 <= i < |al.handles| ensures al.handles[i] != d.mapped[a].handle {
      assert Separate(d, a, Addresses(p, al.chunks)[i]);
    }
  }

  /** ... and lies outside the range of `p`. */
  lemma {:induction false} OutsideRange(d: Driver, allocs: map<nat, Alloc>, p: nat, a: nat)
    requires State(d, allocs) && p in d.reserved && a in d.mapped && a !in Addresses(p, allocs[p].chunks)
    ensures Disjoint(p, allocs[p].size, a, d.mapped[a].size)
  {
    assert HeldOk(d, p, allocs[p]) && Owned(d, allocs, a);
    var q :| OwnedBy(d, allocs, a, q);
    assert HeldOk(d, q, allocs[q]) && Apart(d.reserved, p, q);
    OwnerRange(d, q, allocs[q], a);
  }

  lemma {:induction false} AddressNotOf(p: nat, chunks: seq<nat>, a: nat, q: nat, size: nat)
    requires Positive(chunks) && Disjoint(p, Total(chunks), q, size) && q <= a < q + size
    ensures a !in Addresses(p, chunks)
  {
    if a in Addresses(p, chunks) {
      var i :| 0 <= i < |chunks| && Addresses(p, chunks)[i] == a;
      TileInside(p, chunks, i);
    }
  }

  lemma {:induction false} SleepOther(d: Driver, p: nat, al: Alloc, q: nat, other: Alloc)
    requires MappingsOk(d) && HeldOk(d, p, al) && !al.asleep && HeldOk(d, q, other) && Apart(d.reserved, p, q)
    ensures HeldOk(SleptDriver(d, p, al), q, other)
  {
    if !other.asleep {
      var chunks := other.chunks;
      forall i | 0 <= i < |chunks|
        ensures Addresses(q, chunks)[i] !in Addresses(p, al.chunks) && other.handles[i] !in al.handles
      {
        TileInside(q, chunks, i);
        AddressNotOf(p, al.chunks, Addresses(q, chunks)[i], q, other.size);
        HandleNotOf(d, p, al, Addresses(q, chunks)[i]);
      }
    }
  }

  lemma {:induction false} SleepMappingsOk(d: Driver, p: nat, al: Alloc)
    requires MappingsOk(d) && HeldOk(d, p, al) && !al.asleep
    ensures MappingsOk(SleptDriver(d, p, al))
  {
    var d1 := SleptDriver(d, p, al);
    forall a | a in d1.mapped ensures MappingOk(d1, a) {
      assert MappingOk(d, a);
      var b :| InRange(d, a, d.mapped[a].size, b);
      assert InRange(d1, a, d1.mapped[a].size, b);
      HandleNotOf(d, p, al, a);
    }
    forall a, b | a in d1.mapped && b in d1.mapped && a != b ensures Separate(d1, a, b) {
      assert Separate(d, a, b);
    }
  }

  lemma {:induction false} SleepOwned(d: Driver, allocs: map<nat, Alloc>, p: nat, a: nat)
    requires p in allocs && Owned(d, allocs, a) && a !in Addresses(p, allocs[p].chunks)
    ensures Owned(SleptDriver(d, p, allocs[p]), Slept(allocs, p), a)
  {
    var q :| OwnedBy(d, allocs, a, q);
    assert OwnedBy(SleptDriver(d, p, allocs[p]), Slept(allocs, p), a, q);
  }

  lemma {:induction false} SleepLive(d: Driver, p: nat, al: Alloc, h: nat)
    requires HeldOk(d, p, al) && !al.asleep && HandleMapped(d, h) && h !in al.handles
    ensures HandleMapped(SleptDriver(d, p, al), h)
  {
    var a :| a in d.mapped && d.mapped[a].handle == h;
    if a in Addresses(p, al.chunks) { OwnerRange(d, p, al, a); }
    assert SleptDriver(d, p, al).mapped[a].handle == h;
  }

  /** Putting an allocation to sleep: its chunks go, everything else stays. */
  lemma {:induction false} SleepKeeps(d: Driver, allocs: map<nat, Alloc>, p: nat)
    requires State(d, allocs) && p in d.reserved && !allocs[p].asleep
    ensures State(SleptDriver(d, p, allocs[p]), Slept(allocs, p))
  {
    var d1, allocs1 := SleptDriver(d, p, allocs[p]), Slept(allocs, p);
    assert HeldOk(d, p, allocs[p]);
    SleepMappingsOk(d, p, allocs[p]);
    forall q | q in d1.reserved ensures HeldOk(d1, q, allocs1[q]) {
      if q == p {
        forall a | a in d1.mapped ensures Disjoint(p, allocs[p].size, a, d1.mapped[a].size) {
          OutsideRange(d, allocs, p, a);
        }
      } else {
        assert HeldOk(d, q, allocs[q]) && Apart(d.reserved, p, q);
        SleepOther(d, p, allocs[p], q, allocs[q]);
      }
    }
    forall a | a in d1.mapped ensures Owned(d1, allocs1, a) { assert Owned(d, allocs, a); SleepOwned(d, allocs, p, a); }
    forall h | h in d1.live ensures HandleMapped(d1, h) { assert HandleMapped(d, h); SleepLive(d, p, allocs[p], h); }
  }

  // ----- placeholders -----

  ghost function Reserved(d: Driver, p: nat, size: nat): Driver { d.(reserved := d.reserved[p := size]) }
  ghost function Dropped(d: Driver, p: nat): Driver { d.(reserved := d.reserved - {p}) }

  lemma {:induction false} ReservedRanges(ranges: map<nat, nat>, p: nat, size: nat)
    requires RangesOk(ranges) && Clear(ranges, p, size) && 0 < size
    ensures p !in ranges && RangesOk(ranges[p := size])
  {
    var ranges1: map<nat, nat> := ranges[p := size];
    forall b, c | b in ranges1 && c in ranges1 && b != c ensures Apart(ranges1, b, c) {
      if b != p && c != p { assert Apart(ranges, b, c); }
    }
  }

  /** A mapping lies in the range of an allocation other than the sleeping or new one at `p`. */
  lemma {:induction false} MappingElsewhere(d: Driver, d1: Driver, p: nat, size: nat, a: nat)
    requires MappingOk(d, a) && d1.live == d.live && d1.mapped == d.mapped
    requires forall b | b in d.reserved && b != p :: b in d1.reserved && d1.reserved[b] == d.reserved[b]
    requires p in d.reserved ==> d.reserved[p] == size && Disjoint(p, size, a, d.mapped[a].size)
    ensures MappingOk(d1, a)
  {
    var b :| InRange(d, a, d.mapped[a].size, b);
    assert InRange(d1, a, d1.mapped[a].size, b);
  }

  lemma {:induction false} SameMappings(d: Driver, d1: Driver, p: nat, size: nat)
    requires MappingsOk(d) && d1.live == d.live && d1.mapped == d.mapped
    requires forall b | b in d.reserved && b != p :: b in d1.reserved && d1.reserved[b] == d.reserved[b]
    requires p in d.reserved ==> d.reserved[p] == size && Unmapped(d, p, size)
    ensures MappingsOk(d1)
  {
    forall a | a in d1.mapped ensures MappingOk(d1, a) {
      assert MappingOk(d, a);
      MappingElsewhere(d, d1, p, size, a);
    }
    forall a, b | a in d1.mapped && b in d1.mapped && a != b ensures Separate(d1, a, b) { assert Separate(d, a, b); }
  }

  lemma {:induction false} SameOwner(d: Driver, allocs: map<nat, Alloc>, d1: Driver, allocs1: map<nat, Alloc>, p: nat,
                                     a: nat)
    requires Owned(d, allocs, a) && (p in d.reserved && p in allocs ==> allocs[p].asleep)
    requires forall b | b in d.reserved && b != p :: b in d1.reserved && d1.reserved[b] == d.reserved[b]
    requires forall q | q in allocs && q != p :: q in allocs1 && allocs1[q] == allocs[q]
    ensures Owned(d1, allocs1, a)
  {
    var q :| OwnedBy(d, allocs, a, q);
    assert OwnedBy(d1, allocs1, a, q);
  }

  ghost function Recorded(allocs: map<nat, Alloc>, p: nat, al: Alloc): map<nat, Alloc> { allocs[p := al] }

  lemma {:induction false} ClearUnmapped(d: Driver, p: nat, size: nat)
    requires MappingsOk(d) && Clear(d.reserved, p, size)
    ensures Unmapped(d, p, size)
  {
    forall a | a in d.mapped ensures Disjoint(p, size, a, d.mapped[a].size) {
      assert MappingOk(d, a);
      var b :| InRange(d, a, d.mapped[a].size, b);
    }
  }

  /** A freshly reserved range is an allocation that sleeps. */
  lemma {:induction false} PlaceholderAdded(d: Driver, allocs: map<nat, Alloc>, p: nat, al: Alloc)
    requires State(d, allocs) && Clear(d.reserved, p, al.size) && Shaped(al) && al.asleep
    ensures p !in d.reserved && State(Reserved(d, p, al.size), Recorded(allocs, p, al))
  {
    var d1, allocs1 := Reserved(d, p, al.size), Recorded(allocs, p, al);
    ClearUnmapped(d, p, al.size);
    ReservedRanges(d.reserved, p, al.size);
    SameMappings(d, d1, p, al.size);
    forall q | q in d1.reserved ensures HeldOk(d1, q, allocs1[q]) {
      if q != p { assert HeldOk(d, q, allocs[q]); }
    }
    forall a | a in d1.mapped ensures Owned(d1, allocs1, a) {
      assert Owned(d, allocs, a);
      SameOwner(d, allocs, d1, allocs1, p, a);
    }
    forall h | h in d1.live ensures HandleMapped(d1, h) { assert HandleMapped(d, h); }
  }

  /** Giving up a placeholder, with or without forgetting its record. */
  lemma {:induction false} PlaceholderDropped(d: Driver, allocs: map<nat, Alloc>, p: nat, allocs1: map<nat, Alloc>)
    requires State(d, allocs) && p in d.reserved && allocs[p].asleep
    requires forall q | q in allocs && q != p :: q in allocs1 && allocs1[q] == allocs[q]
    ensures State(Dropped(d, p), allocs1)
  {
    var d1 := Dropped(d, p);
    assert HeldOk(d, p, allocs[p]);
    forall b, c | b in d1.reserved && c in d1.reserved && b != c ensures Apart(d1.reserved, b, c) {
      assert Apart(d.reserved, b, c);
    }
    SameMappings(d, d1, p, allocs[p].size);
    forall q | q in d1.reserved ensures HeldOk(d1, q, allocs1[q]) { assert HeldOk(d, q, allocs[q]); }
    forall a | a in d1.mapped ensures Owned(d1, allocs1, a) {
      assert Owned(d, allocs, a);
      SameOwner(d, allocs, d1, allocs1, p, a);
    }
    forall h | h in d1.live ensures HandleMapped(d1, h) { assert HandleMapped(d, h); }
  }

  // ----- what the operations undo, and what an allocation's memory looks like ----------------------------------------

  /** `d1` is `d` with the chunks of the range at `p` mapped onto new handles. */
  ghost predicate BackedBy(d: Driver, d1: Driver, p: nat, chunks: seq<nat>, handles: seq<nat>) {
    |handles| == |chunks| && Fresh(handles, d) && d1 == Backed(d, p, chunks, handles)
  }

  /** What a successful allocation does. */
  ghost predicate Allocated(d: Driver, allocs: map<nat, Alloc>, d1: Driver, allocs1: map<nat, Alloc>, p: nat) {
    && p !in d.reserved && p in allocs1 && allocs1 == Recorded(allocs, p, allocs1[p])
    && !allocs1[p].asleep
    && BackedBy(Reserved(d, p, allocs1[p].size), d1, p, allocs1[p].chunks, allocs1[p].handles)
  }

  /** What a successful wake-up does. */
  ghost predicate Woke(d: Driver, allocs: map<nat, Alloc>, d1: Driver, allocs1: map<nat, Alloc>, p: nat) {
    && p in allocs && p in allocs1 && allocs1 == Woken(allocs, p, allocs1[p].handles)
    && BackedBy(d, d1, p, allocs[p].chunks, allocs1[p].handles)
  }

  lemma {:induction false} ReservedDropped(d: Driver, p: nat, size: nat)
    requires p !in d.reserved
    ensures Dropped(Reserved(d, p, size), p) == d
  {
    assert Dropped(Reserved(d, p, size), p).reserved == d.reserved;
  }

  lemma {:induction false} DroppedReserved(d: Driver, p: nat)
    requires p in d.reserved
    ensures Reserved(Dropped(d, p), p, d.reserved[p]) == d
  {
    assert Reserved(Dropped(d, p), p, d.reserved[p]).reserved == d.reserved;
  }

  /** Freeing undoes allocating: the driver is as it was, down to every range, handle and mapping. */
  lemma {:induction false} FreeUndoesMalloc(d: Driver, allocs: map<nat, Alloc>, d1: Driver, allocs1: map<nat, Alloc>,
                                            p: nat)
    requires State(d, allocs) && State(d1, allocs1) && Allocated(d, allocs, d1, allocs1, p)
    ensures Dropped(SleptDriver(d1, p, allocs1[p]), p) == d
  {
    var al := allocs1[p];
    assert HeldOk(d1, p, al);
    assert Unmapped(d, p, al.size) by { NewRangeUnmapped(d, allocs, d1, allocs1, p); }
    AddressesUnmapped(d, p, al.chunks);
    UnbackedBacked(Reserved(d, p, al.size), p, al.chunks, al.handles);
    ReservedDropped(d, p, al.size);
  }

  lemma {:induction false} NewRangeUnmapped(d: Driver, allocs: map<nat, Alloc>, d1: Driver, allocs1: map<nat, Alloc>,
                                            p: nat)
    requires State(d, allocs) && State(d1, allocs1) && Allocated(d, allocs, d1, allocs1, p)
    ensures Unmapped(d, p, allocs1[p].size)
  {
    assert HeldOk(d1, p, allocs1[p]);
    forall b | b in d.reserved ensures Disjoint(p, allocs1[p].size, b, d.reserved[b]) {
      assert Apart(d1.reserved, p, b);
    }
    ClearUnmapped(d, p, allocs1[p].size);
  }

  /** The same is mapped at `a` as before, except that chunks at `addrs` may have new handles. */
  ghost predicate SameAt(d: Driver, d2: Driver, addrs: seq<nat>, a: nat) {
    && (a in d2.mapped <==> a in d.mapped)
    && (a in d.mapped ==> d2.mapped[a].size == d.mapped[a].size)
    && (a in d.mapped && a !in addrs ==> d2.mapped[a] == d.mapped[a])
  }

  lemma {:induction false} BackedAgain(d: Driver, base: nat, chunks: seq<nat>, handles: seq<nat>, handles2: seq<nat>,
                                       a: nat)
    requires Positive(chunks) && |chunks| == |handles| && Distinct(handles) && IsBacked(d, base, chunks, handles)
    requires |chunks| == |handles2| && Distinct(handles2)
    ensures SameAt(d, Backed(Unbacked(d, base, chunks, handles), base, chunks, handles2), Addresses(base, chunks), a)
  {
    BackedEntries(Unbacked(d, base, chunks, handles), base, chunks, handles2);
    if a in Addresses(base, chunks) {
      var i :| 0 <= i < |chunks| && Addresses(base, chunks)[i] == a;
    }
  }

  /** Sleeping and waking brings back every address range and every mapped address with its size; nothing of the other
      allocations changes. Only the handles of `p` may be new, and if they are not, everything is as before. */
  lemma {:induction false} WakeUndoesSleep(d: Driver, allocs: map<nat, Alloc>, p: nat, d2: Driver,
                                           allocs2: map<nat, Alloc>)
    requires State(d, allocs) && p in d.reserved && !allocs[p].asleep
    requires Woke(SleptDriver(d, p, allocs[p]), Slept(allocs, p), d2, allocs2, p)
    ensures d2.reserved == d.reserved && forall a {:trigger SameAt(d, d2, Addresses(p, allocs[p].chunks), a)} ::
                                           SameAt(d, d2, Addresses(p, allocs[p].chunks), a)
    ensures allocs2 == Recorded(allocs, p, allocs[p].(handles := allocs2[p].handles))
    ensures allocs2[p].handles == allocs[p].handles ==> d2 == d
  {
    assert HeldOk(d, p, allocs[p]);
    DriverRestored(d, p, allocs[p], d2, allocs2[p].handles);
    WokenSlept(allocs, p, allocs2[p].handles);
  }

  lemma {:induction false} DriverRestored(d: Driver, p: nat, al: Alloc, d2: Driver, handles: seq<nat>)
    requires HeldOk(d, p, al) && !al.asleep && BackedBy(SleptDriver(d, p, al), d2, p, al.chunks, handles)
    ensures d2.reserved == d.reserved && (handles == al.handles ==> d2 == d)
    ensures forall a {:trigger SameAt(d, d2, Addresses(p, al.chunks), a)} :: SameAt(d, d2, Addresses(p, al.chunks), a)
  {
    forall a ensures SameAt(d, d2, Addresses(p, al.chunks), a) { BackedAgain(d, p, al.chunks, al.handles, handles, a); }
    BackedUnbacked(d, p, al.chunks, al.handles);
  }

  lemma {:induction false} WokenSlept(allocs: map<nat, Alloc>, p: nat, handles: seq<nat>)
    requires p in allocs && !allocs[p].asleep
    ensures Woken(Slept(allocs, p), p, handles) == Recorded(allocs, p, allocs[p].(handles := handles))
  {
  }

  /** Which chunk an offset falls into. */
  lemma {:induction false} ChunkAt(chunks: seq<nat>, n: nat, offset: nat) returns (i: nat)
    requires n <= |chunks| && offset < Offset(chunks, n)
    ensures i < n && Offset(chunks, i) <= offset < Offset(chunks, i) + chunks[i]
  {
    i := n - 1;
    if offset < Offset(chunks, n - 1) { i := ChunkAt(chunks, n - 1, offset); }
  }

  ghost predicate Covers(d: Driver, a: nat, x: nat) {
    a in d.mapped && a <= x < a + d.mapped[a].size
  }

  /** Every byte of an awake allocation is backed by exactly one live chunk, one of its own; a sleeping allocation has
      no byte backed. */
  lemma {:induction false} ByteBacked(d: Driver, allocs: map<nat, Alloc>, p: nat, x: nat)
    requires State(d, allocs) && p in d.reserved && p <= x < p + d.reserved[p]
    ensures allocs[p].asleep ==> forall a :: !Covers(d, a, x)
    ensures !allocs[p].asleep ==>
              exists a :: && Covers(d, a, x) && d.mapped[a].handle in d.live && d.mapped[a].handle in allocs[p].handles
                          && forall b :: Covers(d, b, x) ==> b == a
  {
    var al := allocs[p];
    assert HeldOk(d, p, al);
    if !al.asleep {
      var i := ChunkAt(al.chunks, |al.chunks|, x - p);
      var a := Addresses(p, al.chunks)[i];
      assert Covers(d, a, x);
      forall b | Covers(d, b, x) ensures b == a {
        assert b == a || Separate(d, a, b);
      }
    }
  }

  /** Two allocations never share a byte of the address space or a physical chunk. */
  lemma {:induction false} NothingShared(d: Driver, allocs: map<nat, Alloc>, p: nat, q: nat)
    requires State(d, allocs) && p in d.reserved && q in d.reserved && p != q
    ensures Disjoint(p, allocs[p].size, q, allocs[q].size)
    ensures !allocs[p].asleep && !allocs[q].asleep ==> forall h | h in allocs[p].handles :: h !in allocs[q].handles
  {
    assert HeldOk(d, p, allocs[p]) && HeldOk(d, q, allocs[q]) && Apart(d.reserved, p, q);
    if !allocs[p].asleep && !allocs[q].asleep {
      forall i | 0 <= i < |allocs[p].handles| ensures allocs[p].handles[i] !in allocs[q].handles {
        TileInside(p, allocs[p].chunks, i);
        AddressNotOf(q, allocs[q].chunks, Addresses(p, allocs[p].chunks)[i], p, allocs[p].size);
        HandleNotOf(d, q, allocs[q], Addresses(p, allocs[p].chunks)[i]);
      }
    }
  }

  /** When every allocation sleeps, no physical memory is held at all. */
  lemma {:induction false} AllAsleepNothingLive(d: Driver, allocs: map<nat, Alloc>)
    requires State(d, allocs) && forall p | p in allocs :: allocs[p].asleep
    ensures d.mapped == map[] && d.live == map[]
  {
    forall a ensures a !in d.mapped {
      assert a in d.mapped ==> Owned(d, allocs, a);
    }
    forall h ensures h !in d.live {
      assert h in d.live ==> HandleMapped(d, h);
    }
  }

  // ----- waking without the range -----

  /** Something is mapped at `a` that belongs to no awake allocation with a range. */
  ghost predicate Stray(d: Driver, allocs: map<nat, Alloc>, a: nat) {
    a in d.mapped && !Owned(d, allocs, a)
  }

  lemma {:induction false} StrayInvalid(d: Driver, allocs: map<nat, Alloc>, a: nat)
    requires Stray(d, allocs, a)
    ensures !State(d, allocs)
  {
  }

  /** Chunks mapped at `p` are stray as long as the record is not both awake and in possession of its range. */
  lemma {:induction false} StrayMade(d: Driver, allocs: map<nat, Alloc>, p: nat, handles: seq<nat>,
                                     allocs1: map<nat, Alloc>)
    requires State(d, allocs) && p in allocs && allocs[p].asleep && Shaped(allocs[p])
    requires AllPlaced(d, p, allocs[p].chunks)
    requires |handles| == |allocs[p].chunks| && NotLive(handles, d)
    requires allocs1 == allocs || (allocs1 == Woken(allocs, p, handles) && p !in d.reserved)
    ensures Stray(Backed(d, p, allocs[p].chunks, handles), allocs1, p)
  {
    var chunks := allocs[p].chunks;
    var d1 := Backed(d, p, chunks, handles);
    BackedEntries(d, p, chunks, handles);
    assert Addresses(p, chunks)[0] == p && Placed(d, Addresses(p, chunks)[0], chunks[0]);
    if Owned(d1, allocs1, p) {
      var q :| OwnedBy(d1, allocs1, p, q);
      assert HeldOk(d, q, allocs[q]);
      OwnerRange(d, q, allocs[q], p);
    }
  }

  /** A stray mapping stays one, whatever is woken next. */
  lemma {:induction false} StrayStays(d: Driver, allocs: map<nat, Alloc>, a: nat, q: nat, handles: seq<nat>)
    requires Stray(d, allocs, a) && q in allocs && allocs[q].asleep && Shaped(allocs[q])
    requires AllPlaced(d, q, allocs[q].chunks)
    requires |handles| == |allocs[q].chunks| && NotLive(handles, d)
    ensures Stray(Backed(d, q, allocs[q].chunks, handles), allocs, a)
    ensures Stray(Backed(d, q, allocs[q].chunks, handles), Woken(allocs, q, handles), a)
  {
    var chunks := allocs[q].chunks;
    var d1, allocs1 := Backed(d, q, chunks, handles), Woken(allocs, q, handles);
    BackedEntries(d, q, chunks, handles);
    NotPlaced(d, q, chunks, a);
    if Owned(d1, allocs1, a) {
      var p :| OwnedBy(d1, allocs1, a, p);
      assert OwnedBy(d, allocs, a, p);
    }
    if Owned(d1, allocs, a) {
      var p :| OwnedBy(d1, allocs, a, p);
      assert OwnedBy(d, allocs, a, p);
    }
  }

  lemma {:induction false} NotPlaced(d: Driver, p: nat, chunks: seq<nat>, a: nat)
    requires AllPlaced(d, p, chunks) && a in d.mapped
    ensures a !in Addresses(p, chunks)
  {
    forall i | 0 <= i < |chunks| ensures Addresses(p, chunks)[i] != a {
      assert Placed(d, Addresses(p, chunks)[i], chunks[i]);
    }
  }

  /** An allocation at 12 has lost its placeholder, and a later one that sleeps holds the range from 10 to 14. Its
      addresses can be mapped all the same, and then neither record describes the driver any more. */
  lemma {:induction false} LostPlaceholderMapped()
    ensures var lost, later := Alloc(2, [2], [1], true), Alloc(4, [4], [2], true);
            var d, allocs := Driver(map[10 := 4], map[], map[]), map[10 := later, 12 := lost];
            && State(d, allocs) && 12 !in d.reserved && AllPlaced(d, 12, [2]) && Fresh([3], d)
            && !State(Backed(d, 12, [2], [3]), Woken(allocs, 12, [3]))
            && !State(Backed(d, 12, [2], [3]), allocs)
  {
    var lost, later := Alloc(2, [2], [1], true), Alloc(4, [4], [2], true);
    var d, allocs: map<nat, Alloc> := Driver(map[10 := 4], map[], map[]), map[10 := later, 12 := lost];
    assert Offset([4], 0) == 0 && Offset([2], 0) == 0 && Addresses(12, [2])[0] == 12;
    assert HeldOk(d, 10, allocs[10]);
    assert Inside(12, 2, 10, d.reserved[10]);
    StrayMade(d, allocs, 12, [3], allocs);
    StrayInvalid(Backed(d, 12, [2], [3]), allocs, 12);
    StrayMade(d, allocs, 12, [3], Woken(allocs, 12, [3]));
    StrayInvalid(Backed(d, 12, [2], [3]), Woken(allocs, 12, [3]), 12);
  }

  // ----- records without a range -----

  /** Awake records that have no range. */
  ghost function Stale(d: Driver, allocs: map<nat, Alloc>): set<nat> {
    set p | p in allocs && !allocs[p].asleep && p !in d.reserved
  }

  /** A record is complete, whatever its handles are. */
  ghost predicate Sized(al: Alloc) {
    |al.chunks| == |al.handles| && Positive(al.chunks) && Total(al.chunks) == al.size && 0 < al.size
  }

  ghost predicate RecordsOk(allocs: map<nat, Alloc>) {
    forall p | p in allocs :: Sized(allocs[p])
  }

  /** A handle that nothing is mapped to. */
  ghost predicate LeakedOne(d: Driver, d1: Driver, chunks: seq<nat>) {
    chunks != [] && exists h :: LeakedAs(d, d1, chunks[0], h)
  }

  ghost predicate LeakedAs(d: Driver, d1: Driver, size: nat, h: nat) {
    h !in d.live && HandleUnmapped(d, h) && d1 == d.(live := d.live[h := size])
  }

  lemma {:induction false} LeakInvalid(d: Driver, d1: Driver, chunks: seq<nat>, allocs: map<nat, Alloc>)
    requires MappingsOk(d) && LeakedOne(d, d1, chunks)
    ensures MappingsOk(d1) && !State(d1, allocs) && d1 != d
  {
    var h :| LeakedAs(d, d1, chunks[0], h);
    forall a | a in d1.mapped ensures MappingOk(d1, a) {
      assert MappingOk(d, a);
      var b :| InRange(d, a, d.mapped[a].size, b);
      assert InRange(d1, a, d1.mapped[a].size, b);
    }
    forall a, b | a in d1.mapped && b in d1.mapped && a != b ensures Separate(d1, a, b) { assert Separate(d, a, b); }
    assert !HandleMapped(d1, h);
  }

  // ----- unmapping and releasing whatever is there -----

  predicate Unmappable(d: Driver, a: nat, size: nat) { a in d.mapped && d.mapped[a].size == size }

  /** After an attempt to unmap the first `n` chunks; those that cannot be unmapped are passed over. */
  ghost function AfterUnmap(d: Driver, addrs: seq<nat>, chunks: seq<nat>, n: nat): Driver
    requires n <= |addrs| == |chunks|
  {
    if n == 0 then d
    else
      var e := AfterUnmap(d, addrs, chunks, n - 1);
      if Unmappable(e, addrs[n - 1], chunks[n - 1]) then e.(mapped := e.mapped - {addrs[n - 1]}) else e
  }

  ghost predicate AllUnmappable(d: Driver, addrs: seq<nat>, chunks: seq<nat>, n: nat)
    requires n <= |addrs| == |chunks|
  {
    n == 0 || (AllUnmappable(d, addrs, chunks, n - 1)
               && Unmappable(AfterUnmap(d, addrs, chunks, n - 1), addrs[n - 1], chunks[n - 1]))
  }

  /** After an attempt to release the first `n` handles; only live ones can be released. */
  ghost function AfterRelease(d: Driver, handles: seq<nat>, n: nat): Driver
    requires n <= |handles|
  {
    d.(live := d.live - (set h | h in handles[..n]))
  }

  ghost predicate AllReleasable(d: Driver, handles: seq<nat>, n: nat)
    requires n <= |handles|
  {
    n == 0 || (AllReleasable(d, handles, n - 1) && handles[n - 1] in AfterRelease(d, handles, n - 1).live)
  }

  lemma {:induction false} ReleaseNext(d: Driver, handles: seq<nat>, n: nat)
    requires n < |handles|
    ensures AfterRelease(d, handles, 0) == d
    ensures var e := AfterRelease(d, handles, n);
            AfterRelease(d, handles, n + 1) == e.(live := e.live - {handles[n]})
  {
    assert d.live - (set h | h in handles[..0]) == d.live;
    assert handles[..n + 1] == handles[..n] + [handles[n]];
    OneLess(d.live, handles[..n], handles[n]);
  }

  /** What `unmap_and_release` leaves behind, and whether it reports no error. */
  ghost function AfterBoth(d: Driver, base: nat, chunks: seq<nat>, handles: seq<nat>): Driver
    requires |chunks| == |handles|
  {
    AfterRelease(AfterUnmap(d, Addresses(base, chunks), chunks, |chunks|), handles, |handles|)
  }

  ghost predicate NoError(d: Driver, base: nat, chunks: seq<nat>, handles: seq<nat>)
    requires |chunks| == |handles|
  {
    && AllUnmappable(d, Addresses(base, chunks), chunks, |chunks|)
    && AllReleasable(AfterUnmap(d, Addresses(base, chunks), chunks, |chunks|), handles, |handles|)
  }

  lemma {:induction false} UnmapOnly(d: Driver, addrs: seq<nat>, chunks: seq<nat>, n: nat)
    requires n <= |addrs| == |chunks|
    ensures var e := AfterUnmap(d, addrs, chunks, n);
            && e.reserved == d.reserved && e.live == d.live
            && (forall a | a in e.mapped :: a in d.mapped && e.mapped[a] == d.mapped[a])
            && (forall a | a in d.mapped && a !in e.mapped :: a in addrs)
  {
    if 0 < n { UnmapOnly(d, addrs, chunks, n - 1); }
  }

  /** Whatever is there to unmap and release, mappings stay sound. */
  lemma {:induction false} BothOk(d: Driver, base: nat, chunks: seq<nat>, handles: seq<nat>)
    requires MappingsOk(d) && |chunks| == |handles|
    ensures MappingsOk(AfterBoth(d, base, chunks, handles))
    ensures AfterBoth(d, base, chunks, handles).reserved == d.reserved
  {
    var d1 := AfterBoth(d, base, chunks, handles);
    UnmapOnly(d, Addresses(base, chunks), chunks, |chunks|);
    forall a | a in d1.mapped ensures MappingOk(d1, a) {
      assert MappingOk(d, a);
      var b :| InRange(d, a, d.mapped[a].size, b);
      assert InRange(d1, a, d1.mapped[a].size, b);
    }
    forall a, b | a in d1.mapped && b in d1.mapped && a != b ensures Separate(d1, a, b) { assert Separate(d, a, b); }
  }

  lemma {:induction false} UnmapsAll(d: Driver, addrs: seq<nat>, chunks: seq<nat>, n: nat)
    requires n <= |addrs| == |chunks| && Distinct(addrs)
    requires forall i | 0 <= i < |addrs| :: addrs[i] in d.mapped && d.mapped[addrs[i]].size == chunks[i]
    ensures AllUnmappable(d, addrs, chunks, n)
    ensures AfterUnmap(d, addrs, chunks, n) == d.(mapped := d.mapped - (set a | a in addrs[..n]))
  {
    if n == 0 {
      assert d.mapped - (set a | a in addrs[..0]) == d.mapped;
    } else {
      UnmapsAll(d, addrs, chunks, n - 1);
      assert addrs[..n] == addrs[..n - 1] + [addrs[n - 1]];
      assert addrs[n - 1] !in addrs[..n - 1];
      OneLess(d.mapped, addrs[..n - 1], addrs[n - 1]);
    }
  }

  lemma {:induction false} OneLess<V>(m: map<nat, V>, keys: seq<nat>, k: nat)
    ensures m - (set a | a in keys) - {k} == m - (set a | a in keys + [k])
  {
  }

  lemma {:induction false} ReleasesAll(d: Driver, handles: seq<nat>, n: nat)
    requires n <= |handles| && Distinct(handles) && forall i | 0 <= i < |handles| :: handles[i] in d.live
    ensures AllReleasable(d, handles, n)
  {
    if 0 < n {
      ReleasesAll(d, handles, n - 1);
      assert handles[n - 1] !in handles[..n - 1];
    }
  }

  /** For an allocation that is backed, exactly its chunks go, without an error. */
  lemma {:induction false} BothBacked(d: Driver, base: nat, chunks: seq<nat>, handles: seq<nat>)
    requires Positive(chunks) && |chunks| == |handles| && Distinct(handles) && IsBacked(d, base, chunks, handles)
    ensures AfterBoth(d, base, chunks, handles) == Unbacked(d, base, chunks, handles)
    ensures NoError(d, base, chunks, handles)
  {
    var addrs := Addresses(base, chunks);
    AddressesDistinct(base, chunks);
    UnmapsAll(d, addrs, chunks, |chunks|);
    assert addrs[..|chunks|] == addrs && handles[..|handles|] == handles;
    ReleasesAll(AfterUnmap(d, addrs, chunks, |chunks|), handles, |handles|);
  }

  // ----- records without a range: what the attempt to put them to sleep does -----

  /** Nothing is mapped the way the record says, and none of its handles is live. */
  ghost predicate Harmless(d: Driver, p: nat, al: Alloc)
    requires |al.chunks| == |al.handles|
  {
    && (forall i | 0 <= i < |al.chunks| :: !Unmappable(d, Addresses(p, al.chunks)[i], al.chunks[i]))
    && (forall i | 0 <= i < |al.handles| :: al.handles[i] !in d.live)
  }

  lemma {:induction false} NothingUnmapped(d: Driver, addrs: seq<nat>, chunks: seq<nat>, n: nat)
    requires n <= |addrs| == |chunks|
    ensures AfterUnmap(d, addrs, chunks, n) == d <==> forall i | 0 <= i < n :: !Unmappable(d, addrs[i], chunks[i])
    ensures 0 < n && AfterUnmap(d, addrs, chunks, n) == d ==> !AllUnmappable(d, addrs, chunks, n)
  {
    if 0 < n {
      NothingUnmapped(d, addrs, chunks, n - 1);
      UnmapOnly(d, addrs, chunks, n - 1);
    }
  }

  lemma {:induction false} NothingReleased(d: Driver, handles: seq<nat>)
    ensures AfterRelease(d, handles, |handles|) == d <==> forall i | 0 <= i < |handles| :: handles[i] !in d.live
  {
    assert handles[..|handles|] == handles;
    if forall i | 0 <= i < |handles| :: handles[i] !in d.live {
      assert d.live - (set h | h in handles) == d.live;
    }
  }

  /** The call leaves the driver alone if and only if the record is harmless, and then it reports an error. */
  lemma {:induction false} BothHarmless(d: Driver, p: nat, al: Alloc)
    requires Sized(al)
    ensures AfterBoth(d, p, al.chunks, al.handles) == d <==> Harmless(d, p, al)
    ensures Harmless(d, p, al) ==> !NoError(d, p, al.chunks, al.handles)
  {
    var addrs, n := Addresses(p, al.chunks), |al.chunks|;
    var e := AfterUnmap(d, addrs, al.chunks, n);
    UnmapOnly(d, addrs, al.chunks, n);
    NothingUnmapped(d, addrs, al.chunks, n);
    NothingReleased(e, al.handles);
    NothingReleased(d, al.handles);
  }

  /** A record is harmless where no range of ours lies, if none of its handles is live. */
  lemma {:induction false} ClearHarmless(d: Driver, p: nat, al: Alloc)
    requires MappingsOk(d) && Sized(al) && Clear(d.reserved, p, al.size)
    requires forall i | 0 <= i < |al.handles| :: al.handles[i] !in d.live
    ensures Harmless(d, p, al)
  {
    ClearUnmapped(d, p, al.size);
    AddressesUnmapped(d, p, al.chunks);
  }

  /** The handles of a record that a failed call has left are whatever its freed storage holds: here the record at 100
      names the handle of an allocation that is awake, and releases it although no range lies at 100. */
  lemma {:induction false} DanglingHandleReleased()
    ensures var awake, stale := Alloc(4, [4], [3], false), Alloc(4, [4], [3], false);
            var d := Driver(map[10 := 4], map[3 := 4], map[10 := Mapping(4, 3)]);
            var allocs := map[10 := awake, 100 := stale];
            && State(d, allocs) && Sized(stale) && Clear(d.reserved, 100, 4)
            && !State(AfterBoth(d, 100, [4], [3]), Slept(allocs, 100))
  {
    var awake, stale := Alloc(4, [4], [3], false), Alloc(4, [4], [3], false);
    var d, allocs: map<nat, Alloc> :=
      Driver(map[10 := 4], map[3 := 4], map[10 := Mapping(4, 3)]), map[10 := awake, 100 := stale];
    assert Offset([4], 1) == Offset([4], 0) + 4 && Addresses(10, [4])[0] == 10;
    assert InRange(d, 10, 4, 10) && HeldOk(d, 10, awake) && OwnedBy(d, allocs, 10, 10);
    assert d.mapped[10].handle == 3;
    BothStale(d, allocs, 100, stale, AfterBoth(d, 100, [4], [3]), Slept(allocs, 100));
    assert stale.handles[0] in d.live;
  }

  /** An attempt on a record that is not harmless takes a mapping or a handle from an allocation that is awake. */
  lemma {:induction false} BothStale(d: Driver, allocs: map<nat, Alloc>, p: nat, al: Alloc, d1: Driver,
                                     allocs1: map<nat, Alloc>)
    requires State(d, allocs) && p in allocs && p !in d.reserved && Sized(al)
    requires d1 == AfterBoth(d, p, al.chunks, al.handles)
    requires forall q | q in allocs && q != p :: q in allocs1 && allocs1[q] == allocs[q]
    ensures d1.reserved == d.reserved && (!Harmless(d, p, al) ==> !State(d1, allocs1))
  {
    UnmapOnly(d, Addresses(p, al.chunks), al.chunks, |al.chunks|);
    BothHarmless(d, p, al);
    if !Harmless(d, p, al) {
      var a := TouchedAt(d, allocs, d1);
      assert Owned(d, allocs, a);
      var q :| OwnedBy(d, allocs, a, q);
      assert HeldOk(d, q, allocs[q]);
      var i :| 0 <= i < |allocs[q].chunks| && Addresses(q, allocs[q].chunks)[i] == a;
      assert !HeldOk(d1, q, allocs1[q]);
    }
  }

  /** A mapping that is gone, or has lost its handle. */
  lemma {:induction false} TouchedAt(d: Driver, allocs: map<nat, Alloc>, d1: Driver) returns (a: nat)
    requires State(d, allocs) && d1.reserved == d.reserved && d1 != d
    requires forall a | a in d1.mapped :: a in d.mapped && d1.mapped[a] == d.mapped[a]
    requires forall h | h in d1.live :: h in d.live && d1.live[h] == d.live[h]
    ensures a in d.mapped && (a !in d1.mapped || d.mapped[a].handle !in d1.live)
  {
    if d1.mapped != d.mapped {
      a :| a in d.mapped && a !in d1.mapped;
    } else {
      var h :| h in d.live && h !in d1.live;
      assert HandleMapped(d, h);
      a :| a in d.mapped && d.mapped[a].handle == h;
    }
  }

  /** A call without an error has found something at the address of the record. */
  lemma {:induction false} NoErrorMapped(d: Driver, p: nat, al: Alloc)
    requires Sized(al) && NoError(d, p, al.chunks, al.handles)
    ensures p in d.mapped
  {
    FirstUnmapped(d, Addresses(p, al.chunks), al.chunks, |al.chunks|);
    assert Addresses(p, al.chunks)[0] == p;
  }

  lemma {:induction false} FirstUnmapped(d: Driver, addrs: seq<nat>, chunks: seq<nat>, n: nat)
    requires 0 < n <= |addrs| == |chunks| && AllUnmappable(d, addrs, chunks, n)
    ensures addrs[0] in d.mapped
  {
    if 1 < n { FirstUnmapped(d, addrs, chunks, n - 1); }
  }
}
