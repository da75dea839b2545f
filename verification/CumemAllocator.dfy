/** The sleep-mode device allocator (ROCm path): allocations are built from chunks of physical memory mapped into a
    reserved address range; sleeping releases the chunks but keeps the range as a placeholder, waking maps new chunks
    into it. */
module CumemAllocator {
  import opened VirtualMemory
  import opened SleepMode
  import opened Arithmetic
  import opened MemChunks

  class Allocator {
    var driver: Driver
    var foreign: map<nat, nat>          // ranges reserved by anyone else
    var errorCode: int
    var allocs: map<nat, Alloc>
    ghost var log: Log
    const granularity: nat
    const baseChunk: nat

    /** Nothing allocated; others may hold ranges already. */
    constructor (granularity: nat, baseChunk: nat, foreign: map<nat, nat>)
      requires 0 < granularity && 0 < baseChunk && forall b | b in foreign :: 0 < foreign[b]
      ensures Valid() && errorCode == 0 && allocs == map[] && driver == Driver(map[], map[], map[])
      ensures log == Log(0, 0, {}, {}, {})
    {
      this.granularity, this.baseChunk, this.foreign := granularity, baseChunk, foreign;
      driver, errorCode, allocs := Driver(map[], map[], map[]), 0, map[];
      log := Log(0, 0, {}, {}, {});
    }

    // ----- driver calls: each may fail, and then changes nothing -----

    ghost method Refuse()
      modifies this`log
      ensures log == old(log).(refused := old(log).refused + 1)
    {
      log := log.(refused := log.refused + 1);
    }

    method MemCreate(size: nat) returns (status: int, handle: nat)
      modifies this`driver, this`log
      ensures status == 0 ==>
                && handle !in old(driver).live && HandleUnmapped(old(driver), handle)
                && driver == old(driver).(live := old(driver).live[handle := size])
      ensures status != 0 ==> driver == old(driver)
      ensures log == old(log).(refused := old(log).refused + if status == 0 then 0 else 1)
    {
      handle := *;
      var refuses: bool := *;
      if refuses || handle in driver.live || !HandleUnmapped(driver, handle) {
        status := 2;
        Refuse();
      } else {
        status := 0;
        driver := driver.(live := driver.live[handle := size]);
      }
    }

    /** A new mapping cannot be accessed yet, and holds whatever the memory held before. */
    method MemMap(a: nat, size: nat, handle: nat) returns (status: int)
      modifies this`driver, this`log
      ensures status == 0 ==>
                && Placed(old(driver), a, size)
                && driver == MappedAt(old(driver), a, Mapping(size, handle))
      ensures status != 0 ==> driver == old(driver)
      ensures old(log).refused <= log.refused && log.displaced == old(log).displaced
      ensures status == 0 <==>
                && log.refused == old(log).refused && 0 < size && handle in old(driver).live
                && old(driver).live[handle] == size && Placed(old(driver), a, size)
    {
      if * {
        status := 2;
        Refuse();
      } else if 0 < size && handle in driver.live && driver.live[handle] == size
                && a !in driver.mapped && Unmapped(driver, a, size)
                && HasRange(driver.reserved, a, size) {
        status := 0;
        driver := driver.(mapped := driver.mapped[a := Mapping(size, handle)]);
        log := log.(accessible := log.accessible - {a}, zeroed := log.zeroed - {a});
      } else {
        status := 1;
        assert Placed(driver, a, size) ==> Unmapped(driver, a, size) by {
          forall b | b in driver.mapped && Placed(driver, a, size) ensures Disjoint(a, size, b, driver.mapped[b].size) {
            assert FarFrom(driver, a, size, b);
          }
        }
      }
    }

    method MemUnmap(a: nat, size: nat) returns (status: int)
      modifies this`driver, this`log
      ensures log == if status == 0 then old(log).(resident := old(log).resident + {a}) else old(log)
      ensures status == if a in old(driver).mapped && old(driver).mapped[a].size == size then 0 else UNMAP_ERROR
      ensures driver == if status == 0 then old(driver).(mapped := old(driver).mapped - {a}) else old(driver)
    {
      if a in driver.mapped && driver.mapped[a].size == size {
        status := 0;
        driver := driver.(mapped := driver.mapped - {a});
        log := log.(resident := log.resident + {a});
      } else {
        status := UNMAP_ERROR;
      }
    }

    /** A live handle can be released, mapped or not. */
    method MemRelease(handle: nat) returns (status: int)
      modifies this`driver
      ensures status == if handle in old(driver).live then 0 else RELEASE_ERROR
      ensures driver == if status == 0 then old(driver).(live := old(driver).live - {handle}) else old(driver)
    {
      if handle in driver.live {
        status := 0;
        driver := driver.(live := driver.live - {handle});
      } else {
        status := RELEASE_ERROR;
      }
    }

    /** `hint` is only a wish: the driver may return any free range. */
    method AddressReserve(size: nat, alignment: nat, hint: nat) returns (status: int, base: nat)
      modifies this`driver, this`log
      ensures status == 0 ==>
                && 0 < size && 0 < base && Clear(old(driver).reserved, base, size) && Clear(foreign, base, size)
                && (0 < alignment ==> base % alignment == 0)
                && driver == Reserved(old(driver), base, size)
      ensures status != 0 ==> driver == old(driver)
      ensures log.resident == old(log).resident
      ensures log.refused == old(log).refused + if status == 0 || size == 0 then 0 else 1
      ensures log.displaced == old(log).displaced + if status == 0 && base != hint then 1 else 0
    {
      base := *;
      var refuses: bool := *;
      if size == 0 {
        status := 1;
      } else if !refuses && 0 < base && Clear(driver.reserved, base, size) && Clear(foreign, base, size)
                && (0 < alignment ==> base % alignment == 0) {
        status := 0;
        driver := driver.(reserved := driver.reserved[base := size]);
        if base != hint {
          log := log.(displaced := log.displaced + 1);
        }
      } else {
        status := 2;
        Refuse();
      }
    }

    /** The driver does not know who asks: a range reserved by someone else is freed just the same. */
    method AddressFree(a: nat, size: nat) returns (status: int)
      modifies this`driver, this`foreign, this`log
      ensures log == if OwnRange(old(driver), a, size) then old(log).(resident := Outside(old(log).resident, a, size))
                     else old(log)
      ensures OwnRange(old(driver), a, size) ==>
              status == 0 && driver == Dropped(old(driver), a) && foreign == old(foreign)
      ensures !OwnRange(old(driver), a, size) ==> driver == old(driver)
      ensures !OwnRange(old(driver), a, size) ==>
                if a in old(foreign) && old(foreign)[a] == size then status == 0 && foreign == old(foreign) - {a}
                else status == FREE_ERROR && foreign == old(foreign)
    {
      status := 0;
      if OwnRange(driver, a, size) {
        driver := driver.(reserved := driver.reserved - {a});
        log := log.(resident := Outside(log.resident, a, size));
      } else if a in foreign && foreign[a] == size {
        foreign := foreign - {a};
      } else {
        status := FREE_ERROR;
      }
    }

    /** Calls without effect on ranges, handles or mappings, which may fail. */
    method GetGranularity() returns (status: int)
      modifies this`log
      ensures log == old(log).(refused := old(log).refused + if status == 0 then 0 else 1)
    {
      status := *;
      if status != 0 {
        Refuse();
      }
    }

    /** Make the chunks mapped in a range accessible. */
    method SetAccess(base: nat, size: nat) returns (status: int)
      modifies this`log
      ensures log.refused == old(log).refused + (if status == 0 then 0 else 1) && log.displaced == old(log).displaced
      ensures status == 0 ==> forall a | a in driver.mapped && base <= a < base + size :: a in log.accessible
    {
      status := *;
      if status != 0 {
        Refuse();
      } else {
        log := log.(accessible := log.accessible + set a | a in driver.mapped && base <= a < base + size);
      }
    }

    /** Zero the accessible chunks of a range. */
    method Memset(base: nat, size: nat) returns (status: int)
      modifies this`log
      ensures log.refused == old(log).refused + (if status == 0 then 0 else 1) && log.displaced == old(log).displaced
      ensures log.accessible == old(log).accessible
      ensures status == 0 ==> forall a | a in log.accessible && base <= a < base + size :: a in log.zeroed
    {
      status := *;
      if status != 0 {
        Refuse();
      } else {
        log := log.(zeroed := log.zeroed + set a | a in log.accessible && base <= a < base + size);
      }
    }

    /** Anyone else may reserve or free ranges of their own at any time. */
    method Interference()
      requires ForeignOk(driver.reserved, foreign)
      modifies this`foreign
      ensures ForeignOk(driver.reserved, foreign)
    {
      var f: map<nat, nat> := *;
      if forall b | b in f :: 0 < f[b] && Clear(driver.reserved, b, f[b]) {
        foreign := f;
      }
    }

    /** Reserve with the wanted alignment; failing that, without one, and check what came back. A range that is not
        aligned counts as a refusal. */
    method ReserveRocm(size: nat, alignment: nat, hint: nat) returns (status: int, base: nat)
      requires DriverOk(driver)
      modifies this`driver, this`foreign, this`log
      ensures foreign == old(foreign) && old(log).refused <= log.refused && old(log).displaced <= log.displaced
      ensures log.resident <= old(log).resident
      ensures 0 < size ==> (status == 0 <==> log.refused < old(log).refused + if alignment == 0 then 1 else 2)
      ensures status == 0 ==> (log.displaced == old(log).displaced <==> base == hint)
      ensures status == 0 ==>
                && 0 < size && 0 < base && Clear(old(driver).reserved, base, size) && Clear(foreign, base, size)
                && (0 < alignment ==> base % alignment == 0)
                && driver == Reserved(old(driver), base, size)
      ensures status != 0 ==> driver == old(driver)
    {
      status, base := AddressReserve(size, alignment, hint);
      if status == 0 || alignment == 0 {
        return;
      }
      status, base := AddressReserve(size, 0, hint);
      if status != 0 {
        return;
      }
      if base % alignment == 0 {
        return;
      }
      ClearUnmapped(old(driver), base, size);
      ReservedRanges(old(driver).reserved, base, size);
      var _ := AddressFree(base, size);
      assert Dropped(Reserved(old(driver), base, size), base).reserved == old(driver).reserved;
      status := 801;  // hipErrorNotSupported
      Refuse();
    }

    // ----- create_and_map -----

    /** Release handles `0..|handles|`, all live. */
    method ReleaseAll(handles: seq<nat>, ghost chunks: seq<nat>, ghost d: Driver) returns (firstError: int)
      requires |handles| == |chunks| && NotLive(handles, d)
      requires driver == d.(live := d.live + Chunks(chunks, handles))
      modifies this`driver
      ensures driver == d && firstError == 0
    {
      firstError := 0;
      for j := 0 to |handles|
        invariant driver == d.(live := d.live + Zip(handles, chunks, j, |handles|)) && firstError == 0
      {
        ZipDrop(d.live, handles, chunks, j, |handles|);
        var status := MemRelease(handles[j]);
        if status != 0 && firstError == 0 {
          firstError := status;
        }
      }
      assert d.live + map[] == d.live;
    }

    /** Unmap chunks `0..count` of the range at `base`. */
    method UnmapChunks(base: nat, chunks: seq<nat>, count: nat, ghost handles: seq<nat>, ghost d: Driver)
      returns (firstError: int)
      requires Positive(chunks) && count <= |chunks| == |handles|
      requires forall i | 0 <= i < count :: Addresses(base, chunks)[i] !in d.mapped
      requires driver == d.(mapped := d.mapped + Zip(Addresses(base, chunks), Mappings(chunks, handles), 0, count))
      modifies this`driver, this`log
      ensures log == old(log).(resident := log.resident)
      ensures driver == d && firstError == 0
    {
      ghost var addrs, ms := Addresses(base, chunks), Mappings(chunks, handles);
      AddressesDistinct(base, chunks);
      firstError := 0;
      var unmappedSize := 0;
      for j := 0 to count
        invariant unmappedSize == Offset(chunks, j)
        invariant driver == d.(mapped := d.mapped + Zip(addrs, ms, j, count)) && firstError == 0
        invariant log == old(log).(resident := log.resident)
      {
        ZipDrop(d.mapped, addrs, ms, j, count);
        var status := MemUnmap(base + unmappedSize, chunks[j]);
        if status != 0 && firstError == 0 {
          firstError := status;
        }
        unmappedSize := unmappedSize + chunks[j];
      }
      assert d.mapped + map[] == d.mapped;
    }

    /** Create one handle per chunk; if one cannot be created, release those already created. An error left by an
        earlier call looks like a failure to create the first, whose handle is then lost. */
    method CreateHandles(chunks: seq<nat>) returns (handles: seq<nat>)
      modifies this`driver, this`errorCode, this`log
      ensures old(log).refused <= log.refused && log.displaced == old(log).displaced
      ensures errorCode == 0 <==> old(errorCode) == 0 && log.refused == old(log).refused
      ensures errorCode == 0 ==>
                && |handles| == |chunks| && Fresh(handles, old(driver))
                && driver == old(driver).(live := old(driver).live + Chunks(chunks, handles))
      ensures errorCode != 0 && old(errorCode) == 0 ==> driver == old(driver)
      ensures old(errorCode) != 0 ==>
                errorCode != 0 && (driver == old(driver) || LeakedOne(old(driver), driver, chunks))
    {
      ghost var d := driver;
      handles := [];
      assert d.live + map[] == d.live;
      for i := 0 to |chunks|
        invariant |handles| == i && Fresh(handles, d) && errorCode == old(errorCode) && (errorCode != 0 ==> i == 0)
        invariant log == old(log)
        invariant driver == d.(live := d.live + Chunks(chunks[..i], handles))
      {
        var status, handle := MemCreate(chunks[i]);
        if status != 0 {
          errorCode := status;
        }
        if errorCode != 0 {
          if status == 0 {
            assert LeakedAs(d, driver, chunks[0], handle);
          } else {
            var _ := ReleaseAll(handles, chunks[..i], d);
          }
          return;
        }
        FreshAdded(d, chunks[..i], handles, handle);
        ChunksAdded(d.live, chunks[..i], handles, chunks[i], handle);
        handles := handles + [handle];
        assert chunks[..i + 1] == chunks[..i] + [chunks[i]];
      }
      assert chunks[..|chunks|] == chunks;
    }

    /** Unmap the first `count` chunks, then release all handles. */
    method UndoMapping(base: nat, chunks: seq<nat>, handles: seq<nat>, count: nat, ghost d: Driver)
      requires Positive(chunks) && count <= |handles| == |chunks| && NotLive(handles, d)
      requires forall i | 0 <= i < count :: Addresses(base, chunks)[i] !in d.mapped
      requires var d1 := d.(live := d.live + Chunks(chunks, handles));
               driver == MappedUpTo(d1, Addresses(base, chunks), Mappings(chunks, handles), count)
      modifies this`driver, this`log
      ensures log == old(log).(resident := log.resident)
      ensures driver == d
    {
      var _ := UnmapChunks(base, chunks, count, handles, d.(live := d.live + Chunks(chunks, handles)));
      var _ := ReleaseAll(handles, chunks, d);
    }

    /** Map every handle behind the one before; if one cannot be mapped, unmap those already mapped and release all
        handles. */
    method MapChunks(base: nat, chunks: seq<nat>, handles: seq<nat>, ghost d: Driver)
      requires errorCode == 0 && Positive(chunks) && |handles| == |chunks| && NotLive(handles, d)
      requires driver == d.(live := d.live + Chunks(chunks, handles))
      modifies this`driver, this`errorCode, this`log
      ensures old(log).refused <= log.refused && log.displaced == old(log).displaced
      ensures errorCode == 0 <==> log.refused == old(log).refused && AllPlaced(d, base, chunks)
      ensures errorCode == 0 ==>
                driver == d.(live := d.live + Chunks(chunks, handles),
                             mapped := d.mapped + Tiles(base, chunks, handles))
      ensures errorCode != 0 ==> driver == d
    {
      ghost var addrs, ms := Addresses(base, chunks), Mappings(chunks, handles);
      ghost var d1 := driver;
      assert d1.mapped + map[] == d1.mapped;
      var allocatedSize := 0;
      for i := 0 to |chunks|
        invariant allocatedSize == Offset(chunks, i) && errorCode == 0
        invariant driver == MappedUpTo(d1, addrs, ms, i)
        invariant log.refused == old(log).refused && log.displaced == old(log).displaced
        invariant forall j {:trigger addrs[j]} | 0 <= j < i :: Placed(d, addrs[j], chunks[j])
      {
        var status := MapNext(base + allocatedSize, base, chunks, handles, i, d, d1);
        if status != 0 {
          errorCode := status;
          UndoMapping(base, chunks, handles, i, d);
          return;
        }
        allocatedSize := allocatedSize + chunks[i];
      }
    }

    /** Map chunk `i` at `a`, behind the chunks before it. */
    method MapNext(a: nat, ghost base: nat, chunks: seq<nat>, handles: seq<nat>, i: nat, ghost d: Driver,
                   ghost d1: Driver) returns (status: int)
      requires Positive(chunks) && i < |handles| == |chunks| && Distinct(handles) && a == Addresses(base, chunks)[i]
      requires d1 == d.(live := d.live + Chunks(chunks, handles))
      requires driver == MappedUpTo(d1, Addresses(base, chunks), Mappings(chunks, handles), i)
      requires forall j {:trigger Addresses(base, chunks)[j]} | 0 <= j < i ::
                 Placed(d, Addresses(base, chunks)[j], chunks[j])
      modifies this`driver, this`log
      ensures old(log).refused <= log.refused && log.displaced == old(log).displaced
      ensures status == 0 ==>
                && log.refused == old(log).refused && Placed(d, a, chunks[i])
                && driver == MappedUpTo(d1, Addresses(base, chunks), Mappings(chunks, handles), i + 1)
      ensures status != 0 ==>
                driver == old(driver) && (log.refused != old(log).refused || !AllPlaced(d, base, chunks))
    {
      ghost var addrs, ms := Addresses(base, chunks), Mappings(chunks, handles);
      MappedNext(d1, addrs, ms, i);
      Mappable(d, d1, base, chunks, handles, ms, i);
      status := MemMap(a, chunks[i], handles[i]);
      if status == 0 {
        PlacedBefore(d, d1, addrs, ms, i, chunks);
      }
    }

    /** Create and map the chunks of a range. A failure to create or map undoes everything; a failure to set access
        rights or to zero the memory (`late`) undoes nothing. */
    method CreateAndMap(base: nat, chunks: seq<nat>) returns (handles: seq<nat>, ghost late: bool)
      requires Positive(chunks)
      modifies this`driver, this`errorCode, this`log
      ensures old(log).refused <= log.refused && log.displaced == old(log).displaced
      ensures errorCode == 0 <==>
                old(errorCode) == 0 && log.refused == old(log).refused && AllPlaced(old(driver), base, chunks)
      ensures errorCode == 0 ==> Usable(log, base, chunks)
      ensures errorCode == 0 || old(errorCode) != 0 ==> !late
      ensures errorCode == 0 || late ==>
                && |handles| == |chunks| && Fresh(handles, old(driver))
                && driver == Backed(old(driver), base, chunks, handles)
                && AllPlaced(old(driver), base, chunks)
      ensures errorCode != 0 && !late && old(errorCode) == 0 ==> driver == old(driver)
      ensures old(errorCode) != 0 ==>
                errorCode != 0 && (driver == old(driver) || LeakedOne(old(driver), driver, chunks))
    {
      late := false;
      handles := CreateHandles(chunks);
      if errorCode != 0 {
        return;
      }
      MapChunks(base, chunks, handles, old(driver));
      if errorCode != 0 {
        return;
      }
      errorCode := SetAccess(base, Total(chunks));
      if errorCode != 0 {
        late := true;
        return;
      }
      errorCode := Memset(base, Total(chunks));
      late := errorCode != 0;
      AllInRange(driver, log, old(driver), base, chunks, handles);
    }

    /** Unmap and release all chunks; the first error is reported, but the loops run to the end. */
    method UnmapAndRelease(base: nat, chunks: seq<nat>, handles: seq<nat>)
      requires |chunks| == |handles|
      modifies this`driver, this`errorCode, this`log
      ensures log == old(log).(resident := log.resident)
      ensures forall a | a in log.resident :: a in old(log).resident || a in Addresses(base, chunks)
      ensures driver == AfterBoth(old(driver), base, chunks, handles)
      ensures errorCode ==
              if NoError(old(driver), base, chunks, handles) then old(errorCode)
              else if AllUnmappable(old(driver), Addresses(base, chunks), chunks, |chunks|) then RELEASE_ERROR
              else UNMAP_ERROR
    {
      ghost var d, addrs := driver, Addresses(base, chunks);
      var allocatedSize := 0;
      var firstError := 0;
      for i := 0 to |chunks|
        invariant errorCode == old(errorCode) && allocatedSize == Offset(chunks, i)
        invariant driver == AfterUnmap(d, addrs, chunks, i) && log == old(log).(resident := log.resident)
        invariant forall a | a in log.resident :: a in old(log).resident || a in addrs
        invariant firstError == if AllUnmappable(d, addrs, chunks, i) then 0 else UNMAP_ERROR
      {
        assert base + allocatedSize == addrs[i];
        var status := MemUnmap(base + allocatedSize, chunks[i]);
        if status != 0 && firstError == 0 {
          firstError := status;
        }
        allocatedSize := allocatedSize + chunks[i];
      }
      ghost var d1, log1 := driver, log;
      assert d1.live - (set h | h in handles[..0]) == d1.live;
      for i := 0 to |handles|
        invariant errorCode == old(errorCode) && driver == AfterRelease(d1, handles, i) && log == log1
        invariant firstError == if !AllUnmappable(d, addrs, chunks, |chunks|) then UNMAP_ERROR
                                else if AllReleasable(d1, handles, i) then 0 else RELEASE_ERROR
      {
        ReleaseNext(d1, handles, i);
        var status := MemRelease(handles[i]);
        if status != 0 && firstError == 0 {
          firstError := status;
        }
      }
      if firstError != 0 {
        errorCode := firstError;
      }
    }

    // ----- the allocator's operations -----

    ghost predicate Valid()
      reads this
    {
      && State(driver, allocs) && RecordsOk(allocs) && ForeignOk(driver.reserved, foreign)
      && 0 < granularity && 0 < baseChunk
    }

    /** What holds even when the records no longer describe the driver. */
    ghost predicate Orderly()
      reads this
    {
      && DriverOk(driver) && RecordsOk(allocs) && ForeignOk(driver.reserved, foreign)
      && 0 < granularity && 0 < baseChunk
    }

    /** No awake record is without its range. A `Malloc` that fails leaves one. */
    ghost predicate NoneStale()
      reads this
    {
      Stale(driver, allocs) == {}
    }

    /** `my_malloc`; 0 stands for a null pointer. An error left by an earlier call makes it fail at once. The record is
        made before the memory is mapped, and stays when that fails. When access rights or zeroing fail (`late`), the
        address range is still in use and the attempt to free it fails, too. */
    method Malloc(size: nat) returns (ptr: nat, ghost late: bool, ghost recorded: bool, ghost base: nat)
      requires Valid()
      modifies this`driver, this`foreign, this`errorCode, this`allocs, this`log
      ensures Orderly() && foreign == old(foreign) && (ptr == 0 <==> errorCode != 0)
      ensures old(errorCode) == 0 && 0 < size && log.refused == old(log).refused ==> ptr != 0
      ensures ptr != 0 ==> old(log).refused <= log.refused <= old(log).refused + 1
      ensures old(errorCode) != 0 ==> ptr == 0 && driver == old(driver) && allocs == old(allocs)
      ensures ptr != 0 ==>
                && Valid() && ptr % granularity == 0
                && Allocated(old(driver), old(allocs), driver, allocs, ptr)
                && allocs[ptr].size == AlignUp(size, granularity)
                && allocs[ptr].chunks == ChunkSizes(allocs[ptr].size, AlignUp(baseChunk, granularity))
                && Usable(log, ptr, allocs[ptr].chunks)
      ensures ptr == 0 ==> (driver == old(driver) <==> !late)
      ensures ptr == 0 && !late ==> Valid()
      ensures !recorded ==> ptr == 0 && allocs == old(allocs) && driver == old(driver)
      ensures recorded ==>
                && base !in old(driver).reserved && (base in driver.reserved <==> ptr != 0 || late)
                && base in allocs && allocs == Recorded(old(allocs), base, allocs[base]) && !allocs[base].asleep
      ensures Stale(driver, allocs) ==
              if !recorded then Stale(old(driver), old(allocs))
              else if base in driver.reserved then Stale(old(driver), old(allocs)) - {base}
              else Stale(old(driver), old(allocs)) + {base}
      ensures old(NoneStale()) ==> (NoneStale() <==> !recorded || ptr != 0 || late)
    {
      ptr, late, recorded, base := 0, false, false, 0;
      var status := GetGranularity();
      if status != 0 {
        errorCode := status;
      }
      if errorCode != 0 {
        return;
      }
      AlignUpLeast(size, granularity);
      AlignUpLeast(baseChunk, granularity);
      var aligned, chunk := AlignUp(size, granularity), AlignUp(baseChunk, granularity);
      var address;
      status, address := ReserveRocm(aligned, granularity, 0);
      if status != 0 {
        errorCode := status;
      }
      if errorCode != 0 {
        return;
      }
      var chunks := FillChunkSizes(aligned, chunk);
      ChunksTile(aligned, chunk, granularity);
      ForeignReserved(old(driver).reserved, foreign, address, aligned);
      NewPlaceholder(old(driver), allocs, address, chunks);
      recorded, base := true, address;
      ghost var handles;
      ptr, handles, late := MapNew(address, aligned, chunks);
      if ptr != 0 || late {
        NewMapped(old(driver), old(allocs), address, chunks, handles);
      } else {
        NewFailed(old(driver), old(allocs), address, chunks, allocs);
      }
      StaleRecorded(old(driver), old(allocs), driver, allocs, base);
    }

    /** Record the new allocation and map it. */
    method MapNew(base: nat, aligned: nat, chunks: seq<nat>)
      returns (ptr: nat, ghost handles: seq<nat>, ghost late: bool)
      requires errorCode == 0 && 0 < aligned && 0 < base && Positive(chunks) && Total(chunks) == aligned
      requires base in driver.reserved && driver.reserved[base] == aligned && base !in foreign
      requires MappingsOk(driver) && Unmapped(driver, base, aligned)
      modifies this`driver, this`foreign, this`errorCode, this`allocs, this`log
      ensures old(log).refused <= log.refused && (ptr != 0 <==> log.refused == old(log).refused)
      ensures ptr != 0 ==> Usable(log, base, chunks)
      ensures foreign == old(foreign) && (ptr == 0 <==> errorCode != 0) && (late ==> ptr == 0)
      ensures ptr != 0 ==> ptr == base
      ensures ptr != 0 || late ==>
                && |handles| == |chunks| && Fresh(handles, old(driver))
                && driver == Backed(old(driver), base, chunks, handles)
      ensures ptr == 0 && !late ==> driver == Dropped(old(driver), base)
      ensures base in allocs && allocs == Recorded(old(allocs), base, allocs[base]) && !allocs[base].asleep
      ensures Sized(allocs[base]) && (ptr != 0 ==> allocs[base] == NewRecord(chunks, handles))
    {
      PlaceholderRoom(driver, base, chunks);
      var hs;
      hs, late := CreateAndMap(base, chunks);
      handles := hs;
      ptr := base;
      if errorCode != 0 {
        if late { FirstMapped(old(driver), base, chunks, handles); }
        GiveUp(base, aligned);
        hs := Anything(|chunks|);  // the storage of the handles is freed
        ptr := 0;
      }
      allocs := allocs[base := Alloc(aligned, chunks, hs, false)];  // made before; it refers to the handles by pointers
    }

    /** What is found in memory that has been freed. */
    method Anything(n: nat) returns (values: seq<nat>)
      ensures |values| == n
    {
      values := [];
      while |values| < n
        invariant |values| <= n
      {
        var v: int := *;
        values := values + [if v < 0 then 0 else v];
      }
    }

    /** Free the address range of an allocation that failed. */
    method GiveUp(base: nat, size: nat)
      requires errorCode != 0 && base in driver.reserved && driver.reserved[base] == size && base !in foreign
      modifies this`driver, this`foreign, this`errorCode, this`log
      ensures log == old(log).(resident := log.resident)
      ensures foreign == old(foreign)
      ensures errorCode == if Unmapped(old(driver), base, size) then old(errorCode) else FREE_ERROR
      ensures driver == if Unmapped(old(driver), base, size) then Dropped(old(driver), base) else old(driver)
    {
      var status := AddressFree(base, size);
      if status != 0 {
        errorCode := status;
      }
    }

    /** `sleep` for one allocation: release its chunks, free the address range so that the memory is reclaimed, and
        reserve the same addresses again as a placeholder. Anyone may take them in between; the allocation then sleeps
        without a range. An error left by an earlier call is reported now, and the range is kept as it is. A stale
        record is treated no differently: that always raises an error, and changes nothing if and only if the record is
        harmless. */
    method Sleep(p: nat) returns (ok: bool)
      requires Orderly() && p in allocs && !allocs[p].asleep
      modifies this`driver, this`foreign, this`errorCode, this`allocs, this`log
      ensures old(log).refused <= log.refused && old(log).displaced <= log.displaced
      ensures old(Valid()) && p in old(driver).reserved ==>
                && (ok <==>
                      old(errorCode) == 0 && log.refused == old(log).refused && log.displaced == old(log).displaced)
                && (old(errorCode) == 0 ==>
                      log.resident <= Outside(old(log).resident, p, old(allocs)[p].size))
      ensures Orderly() && errorCode == 0 && allocs == Slept(old(allocs), p) && (ok ==> old(errorCode) == 0)
      ensures driver.reserved == old(driver).reserved || driver.reserved == old(driver).reserved - {p}
      ensures old(Valid()) && p in old(driver).reserved ==>
                && Valid()
                && driver == if ok || old(errorCode) != 0 then SleptDriver(old(driver), p, old(allocs)[p])
                             else Dropped(SleptDriver(old(driver), p, old(allocs)[p]), p)
      ensures p !in old(driver).reserved ==>
                var al := old(allocs)[p];
                && !ok && foreign == old(foreign) && driver == AfterBoth(old(driver), p, al.chunks, al.handles)
                && (Harmless(old(driver), p, al) <==> driver == old(driver))
                && (old(Valid()) ==> (Valid() <==> Harmless(old(driver), p, al)))
    {
      var al := allocs[p];
      ghost var d := driver;
      ok := PutToSleep(p, al.size, al.chunks, al.handles);
      allocs := allocs[p := al.(asleep := true)];  // in any case, even when an error is raised
      BothHarmless(d, p, al);
      if NoError(d, p, al.chunks, al.handles) { NoErrorMapped(d, p, al); }
      if State(d, old(allocs)) {
        if p in d.reserved {
          forall a | a in Addresses(p, al.chunks) ensures p <= a < p + al.size {
            var i :| 0 <= i < |al.chunks| && Addresses(p, al.chunks)[i] == a;
            TileInside(p, al.chunks, i);
          }
          SleptHeld(d, old(allocs), p, AfterBoth(d, p, al.chunks, al.handles));
        } else {
          SleptUnheld(d, old(allocs), p, driver);
        }
      }
    }

    /** `python_unmap_and_release`. */
    method PutToSleep(p: nat, size: nat, chunks: seq<nat>, handles: seq<nat>) returns (ok: bool)
      requires DriverOk(driver) && ForeignOk(driver.reserved, foreign) && |chunks| == |handles| && 0 < size
      modifies this`driver, this`foreign, this`errorCode, this`log
      ensures old(log).refused <= log.refused && old(log).displaced <= log.displaced
      ensures DriverOk(driver) && ForeignOk(driver.reserved, foreign) && errorCode == 0
      ensures var d := AfterBoth(old(driver), p, chunks, handles);
              var clean := old(errorCode) == 0 && NoError(old(driver), p, chunks, handles);
              && d.reserved == old(driver).reserved && driver.mapped == d.mapped && driver.live == d.live
              && (!clean ==> !ok && driver == d && foreign == old(foreign))
              && (clean && OwnRange(d, p, size) ==> driver == if ok then d else Dropped(d, p))
              && (clean && OwnRange(d, p, size) ==> forall a | a in log.resident ::
                    (a in old(log).resident || a in Addresses(p, chunks)) && !(p <= a < p + size))
              && (OwnRange(d, p, size) ==>
                    (ok <==> clean && log.refused == old(log).refused && log.displaced == old(log).displaced))
              && (!OwnRange(d, p, size) ==> driver == d || (p !in d.reserved && driver == Reserved(d, p, size)))
              && (p in old(driver).mapped && p !in d.reserved ==> !ok && driver == d && foreign == old(foreign))
    {
      BothOk(driver, p, chunks, handles);
      if p in driver.mapped { MappedNotForeign(driver, foreign, p); }
      UnmapAndRelease(p, chunks, handles);
      if errorCode == 0 {
        Replace(p, size);
      }
      ok := errorCode == 0;
      errorCode := 0;
    }

    /** Free the range at `p` and reserve it again. */
    method Replace(p: nat, size: nat)
      requires errorCode == 0 && DriverOk(driver) && 0 < size && ForeignOk(driver.reserved, foreign)
      modifies this`driver, this`foreign, this`errorCode, this`log
      ensures old(log).refused <= log.refused && old(log).displaced <= log.displaced
      ensures OwnRange(old(driver), p, size) ==>
                && (errorCode == 0 <==> log.refused == old(log).refused && log.displaced == old(log).displaced)
                && log.resident <= Outside(old(log).resident, p, size)
      ensures DriverOk(driver) && ForeignOk(driver.reserved, foreign)
      ensures driver.mapped == old(driver).mapped && driver.live == old(driver).live
      ensures OwnRange(old(driver), p, size) ==>
              driver == if errorCode == 0 then old(driver) else Dropped(old(driver), p)
      ensures !OwnRange(old(driver), p, size) ==>
                driver == old(driver) || (p !in old(driver).reserved && driver == Reserved(old(driver), p, size))
      ensures p !in old(driver).reserved && p !in old(foreign) ==>
                errorCode != 0 && driver == old(driver) && foreign == old(foreign)
    {
      var status := AddressFree(p, size);
      if status != 0 {
        errorCode := status;
        return;
      }
      ghost var d := driver;
      FreedOk(old(driver), p, size, d);
      Interference();
      var reserved;
      status, reserved := ReserveRocm(size, 0, p);
      if status != 0 {
        errorCode := status;
        return;
      }
      ReservedOk(d, reserved, size);
      if reserved != p {
        ReservedDropped(d, reserved, size);
        var _ := AddressFree(reserved, size);
        errorCode := 1;
      } else {
        if OwnRange(old(driver), p, size) { DroppedReserved(old(driver), p); }
        ForeignReserved(d.reserved, foreign, p, size);
      }
    }

    /** `wake_up` for one allocation. It does not look whether the allocation still has its range: without it nothing
        can be mapped unless other ranges of ours lie there, and then the records no longer describe the driver. An
        error left by an earlier call makes it fail and may cost a handle (`leaked`). */
    method Wake(p: nat) returns (ok: bool, ghost late: bool, ghost leaked: bool)
      requires Orderly() && p in allocs && allocs[p].asleep
      modifies this`driver, this`errorCode, this`allocs, this`log
      ensures old(log).refused <= log.refused
      ensures ok <==> && old(errorCode) == 0 && log.refused == old(log).refused
                      && AllPlaced(old(driver), p, old(allocs)[p].chunks)
      ensures old(Valid()) && p in old(driver).reserved ==> AllPlaced(old(driver), p, old(allocs)[p].chunks)
      ensures Orderly() && errorCode == 0 && driver.reserved == old(driver).reserved
      ensures ok ==>
                && !late && !leaked && Woke(old(driver), old(allocs), driver, allocs, p)
                && Usable(log, p, allocs[p].chunks)
      ensures !ok ==> allocs == old(allocs)
      ensures !ok && !late && !leaked ==> driver == old(driver)
      ensures late ==> exists handles :: BackedBy(old(driver), driver, p, allocs[p].chunks, handles)
      ensures leaked ==> LeakedOne(old(driver), driver, allocs[p].chunks)
      ensures if old(errorCode) != 0 then !ok && !late else !leaked
      ensures ok || late ==> AllPlaced(old(driver), p, allocs[p].chunks)
      ensures Clear(old(driver).reserved, p, old(allocs)[p].size) ==> !ok && !late
      ensures old(Valid()) ==> (Valid() <==> driver == old(driver) || (ok && p in driver.reserved))
    {
      var al := allocs[p];
      assert Shaped(al);
      if State(driver, allocs) && p in driver.reserved { HeldRoom(driver, allocs, p); }
      var handles;
      handles, late := CreateAndMap(p, al.chunks);
      ok := errorCode == 0;
      leaked := !ok && !late && driver != old(driver);
      errorCode := 0;
      if ok || late {
        assert BackedBy(old(driver), driver, p, al.chunks, handles);
        BackedAgainst(old(driver), p, al.chunks, handles);
      }
      if ok {
        allocs := allocs[p := al.(handles := handles, asleep := false)];
      }
      WakeJudged(old(driver), old(allocs), p, handles, driver, allocs, ok, late, leaked);
    }

    /** `my_free`: the record goes; an awake allocation is unmapped and released first. The range is freed by the size
        the caller passes, which must be the aligned one. A range lost by a failed sleep may by now be someone else's.
        Freeing a stale record does harm unless the record is harmless. */
    method Free(p: nat, size: nat)
      requires Valid() && p in allocs
      modifies this`driver, this`foreign, this`errorCode, this`allocs, this`log
      ensures allocs == old(allocs) - {p}
      ensures p in old(driver).reserved ==>
                var d := if old(allocs)[p].asleep then old(driver) else SleptDriver(old(driver), p, old(allocs)[p]);
                && foreign == old(foreign)
                && (Valid() <==> size == old(allocs)[p].size)
                && (errorCode == 0 <==> old(errorCode) == 0 && size == old(allocs)[p].size)
                && driver == (if size == old(allocs)[p].size then Dropped(d, p) else d)
                && (size == old(allocs)[p].size ==> log.resident == Outside(log.resident, p, size))
      ensures p !in old(driver).reserved ==>
                var (al, taken) := (old(allocs)[p], p in old(foreign) && old(foreign)[p] == size);
                && (Valid() <==> al.asleep || Harmless(old(driver), p, al))
                && (driver == old(driver) <==> al.asleep || Harmless(old(driver), p, al))
                && (driver == old(driver) ==> (errorCode == 0 <==> old(errorCode) == 0 && taken && al.asleep))
                && foreign == if taken then old(foreign) - {p} else old(foreign)
    {
      var al := allocs[p];
      allocs := allocs - {p};
      FreeJudged(driver, foreign, old(allocs), p, size);
      FreeMemory(p, size, al);
    }

    /** The driver calls of `my_free`. */
    method FreeMemory(p: nat, size: nat, al: Alloc)
      requires Sized(al)
      modifies this`driver, this`foreign, this`errorCode, this`log
      ensures var d := BeforeFree(old(driver), p, al);
              var quiet := al.asleep || NoError(old(driver), p, al.chunks, al.handles);
              var taken := p in old(foreign) && old(foreign)[p] == size;
              && driver == (if OwnRange(d, p, size) then Dropped(d, p) else d)
              && (OwnRange(d, p, size) ==> log.resident == Outside(log.resident, p, size))
              && foreign == (if !OwnRange(d, p, size) && taken then old(foreign) - {p} else old(foreign))
              && (errorCode == 0 <==> old(errorCode) == 0 && quiet && (OwnRange(d, p, size) || taken))
              && (!OwnRange(d, p, size) && !taken ==> errorCode == FREE_ERROR)
    {
      if !al.asleep {
        UnmapAndRelease(p, al.chunks, al.handles);
      }
      var status := AddressFree(p, size);
      if status != 0 {
        errorCode := status;
      }
    }

    /** `sleep`: all awake allocations, one by one; the first error ends it, at record `failed`, with the driver then in
        state `before`. When it succeeds no physical memory is held, and every address range is still reserved. A stale
        record makes it fail; it does no harm if and only if it is harmless by then. */
    method SleepAll() returns (ok: bool, ghost failed: nat, ghost before: Driver)
      requires Valid()
      modifies this`driver, this`foreign, this`errorCode, this`allocs, this`log
      ensures old(log).refused <= log.refused && old(log).displaced <= log.displaced
      ensures old(errorCode) == 0 ==>
                (ok <==> && old(NoneStale())
                         && log.refused == old(log).refused && log.displaced == old(log).displaced)
      ensures Orderly() && SameRecords(old(allocs), allocs) && (errorCode == 0 || errorCode == old(errorCode))
      ensures Stale(driver, allocs) <= Stale(old(driver), old(allocs))
      ensures ok ==>
                && Valid() && old(NoneStale()) && driver == Driver(old(driver).reserved, map[], map[])
                && (old(errorCode) == 0 ==> log.resident <= old(log).resident)
                && forall p | p in allocs :: allocs[p].asleep
      ensures !ok ==>
                && failed in allocs && !old(allocs)[failed].asleep && allocs[failed].asleep
                && PartlyAsleep(old(driver), before) && State(before, Recorded(allocs, failed, old(allocs)[failed]))
                && (Valid() <==> failed in before.reserved || Harmless(before, failed, old(allocs)[failed]))
      ensures StaleHarmless(old(driver), old(allocs)) ==> Valid()
    {
      var todo := allocs.Keys;
      ok, failed, before := true, 0, driver;
      while todo != {}
        invariant ok && Valid() && (errorCode == 0 || errorCode == old(errorCode))
        invariant Going(old(allocs), allocs, todo, true)
        invariant SleptSoFar(old(driver), old(allocs), driver, allocs, todo)
        invariant log.refused == old(log).refused && log.displaced == old(log).displaced
        invariant old(errorCode) == 0 ==> log.resident <= old(log).resident
        decreases todo
      {
        var p :| p in todo;
        GoingOn(old(allocs), allocs, todo, true, p, []);
        if !allocs[p].asleep {
          ghost var was := allocs;
          failed, before := p, driver;
          ok := Sleep(p);
          if !ok {
            SleepStopped(old(driver), old(allocs), before, was, todo, p, driver);
            return;
          }
          SleptOne(old(driver), old(allocs), before, was, todo, p);
        } else {
          AsleepAlready(old(driver), old(allocs), driver, allocs, todo, p);
        }
        todo := todo - {p};
      }
      AllAsleepNothingLive(driver, allocs);
    }

    /** `wake_up`: all sleeping allocations. When it succeeds every allocation is awake, with the same chunks as before;
        the records still describe the driver if and only if none of those woken was without its range. */
    method WakeAll() returns (ok: bool, ghost late: bool, ghost leaked: bool)
      requires Valid()
      modifies this`driver, this`errorCode, this`allocs, this`log
      ensures old(log).refused <= log.refused && (ok ==> log.refused == old(log).refused)
      ensures old(errorCode) == 0 && log.refused == old(log).refused && SleepersHeld(old(driver), old(allocs)) ==> ok
      ensures Orderly() && SameRecords(old(allocs), allocs) && driver.reserved == old(driver).reserved
      ensures errorCode == 0 || errorCode == old(errorCode)
      ensures ok ==> !late && !leaked && forall p | p in allocs :: !allocs[p].asleep
      ensures Valid() <==> !late && !leaked && AllHeld(old(allocs), allocs, driver)
    {
      var todo := allocs.Keys;
      ok, late, leaked := true, false, false;
      ghost var stray: nat := 0;
      while todo != {}
        invariant ok && !late && !leaked && Orderly() && driver.reserved == old(driver).reserved
        invariant Going(old(allocs), allocs, todo, false) && (errorCode == 0 || errorCode == old(errorCode))
        invariant Judged(driver, allocs, AllHeld(old(allocs), allocs, driver), stray)
        invariant log.refused == old(log).refused
        decreases todo
      {
        var p :| p in todo;
        if allocs[p].asleep {
          ghost var d, before := driver, allocs;
          ghost var well := AllHeld(old(allocs), allocs, driver);
          ok, late, leaked := Wake(p);
          if !ok {
            assert SleepersHeld(old(driver), old(allocs)) ==> well && p in d.reserved;
            WakeFailed(d, allocs, driver, p, well, stray, late, leaked);
            return;
          }
          GoingOn(old(allocs), before, todo, false, p, allocs[p].handles);
          WokenOne(old(allocs), before, d, p, allocs[p].handles, todo);
          WokenState(d, before, driver, allocs, p, well, stray);
          stray := if well then p else stray;
        } else {
          GoingOn(old(allocs), allocs, todo, false, p, []);
        }
        todo := todo - {p};
      }
      if !AllHeld(old(allocs), allocs, driver) { StrayInvalid(driver, allocs, stray); }
    }
  }

  /** Every sleeping allocation has its range. */
  ghost predicate SleepersHeld(d: Driver, allocs: map<nat, Alloc>) {
    forall p | p in allocs && allocs[p].asleep :: p in d.reserved
  }

  /** Every allocation woken since `allocs0` has its range. */
  ghost predicate AllHeld(allocs0: map<nat, Alloc>, allocs: map<nat, Alloc>, d: Driver) {
    forall p | p in allocs0 && p in allocs && allocs0[p].asleep && !allocs[p].asleep :: p in d.reserved
  }

  /** `well` says that the records describe the driver; otherwise `stray` is a mapping that belongs to no record. */
  ghost predicate Judged(d: Driver, allocs: map<nat, Alloc>, well: bool, stray: nat) {
    if well then State(d, allocs) else Stray(d, allocs, stray)
  }

  lemma {:induction false} WokenState(d: Driver, allocs: map<nat, Alloc>, d1: Driver, allocs1: map<nat, Alloc>, p: nat,
                                      well: bool, stray: nat)
    requires Judged(d, allocs, well, stray) && p in allocs && allocs[p].asleep && Shaped(allocs[p])
    requires Woke(d, allocs, d1, allocs1, p) && AllPlaced(d, p, allocs[p].chunks)
    ensures Judged(d1, allocs1, well && p in d.reserved, if well then p else stray)
  {
    var handles := allocs1[p].handles;
    if !well {
      StrayStays(d, allocs, stray, p, handles);
    } else if p in d.reserved {
      WakeKeeps(d, allocs, p, handles);
    } else {
      StrayMade(d, allocs, p, handles, allocs1);
    }
  }

  lemma {:induction false} WakeFailed(d: Driver, allocs: map<nat, Alloc>, d1: Driver, p: nat, well: bool, stray: nat,
                                      late: bool, leaked: bool)
    requires DriverOk(d) && Judged(d, allocs, well, stray) && p in allocs && allocs[p].asleep && Shaped(allocs[p])
    requires late ==>
               && AllPlaced(d, p, allocs[p].chunks)
               && exists handles :: BackedBy(d, d1, p, allocs[p].chunks, handles)
    requires leaked ==> LeakedOne(d, d1, allocs[p].chunks)
    requires !late && !leaked ==> d1 == d
    ensures State(d1, allocs) <==> !late && !leaked && well
  {
    if late {
      var handles :| BackedBy(d, d1, p, allocs[p].chunks, handles);
      if well {
        StrayMade(d, allocs, p, handles, allocs);
        StrayInvalid(d1, allocs, p);
      } else {
        StrayStays(d, allocs, stray, p, handles);
        StrayInvalid(d1, allocs, stray);
      }
    } else if leaked {
      LeakInvalid(d, d1, allocs[p].chunks, allocs);
    } else if !well {
      StrayInvalid(d, allocs, stray);
    }
  }

  /** One more allocation woken. */
  lemma {:induction false} WokenOne(allocs0: map<nat, Alloc>, allocs: map<nat, Alloc>, d: Driver, p: nat,
                                    handles: seq<nat>, todo: set<nat>)
    requires Going(allocs0, allocs, todo, false) && p in todo && allocs[p].asleep
    ensures AllHeld(allocs0, Woken(allocs, p, handles), d) <==> AllHeld(allocs0, allocs, d) && p in d.reserved
  {
    var allocs1 := Woken(allocs, p, handles);
    if AllHeld(allocs0, allocs1, d) {
      forall q | q in allocs0 && q in allocs && allocs0[q].asleep && !allocs[q].asleep ensures q in d.reserved {
        assert !allocs1[q].asleep;
      }
      assert allocs0[p].asleep && !allocs1[p].asleep;
    }
  }

  /** No stale record can do harm. */
  ghost predicate StaleHarmless(d: Driver, allocs: map<nat, Alloc>)
    requires RecordsOk(allocs)
  {
    forall p | p in Stale(d, allocs) :: Harmless(d, p, allocs[p])
  }

  /** The driver when `my_free` comes to free the range. */
  ghost function BeforeFree(d: Driver, p: nat, al: Alloc): Driver
    requires Sized(al)
  {
    if al.asleep then d else AfterBoth(d, p, al.chunks, al.handles)
  }

  /** Freeing leaves the records in order if and only if the range goes with its record. */
  lemma {:induction false} FreeJudged(d: Driver, foreign: map<nat, nat>, allocs: map<nat, Alloc>, p: nat, size: nat)
    requires State(d, allocs) && ForeignOk(d.reserved, foreign) && p in allocs && Sized(allocs[p])
    ensures var d1 := BeforeFree(d, p, allocs[p]);
            && (p in d.reserved ==>
                  && p !in foreign && (OwnRange(d1, p, size) <==> size == allocs[p].size)
                  && (!allocs[p].asleep ==>
                        d1 == SleptDriver(d, p, allocs[p]) && NoError(d, p, allocs[p].chunks, allocs[p].handles))
                  && State(Dropped(d1, p), allocs - {p}) && !State(d1, allocs - {p})
                  && ForeignOk(Dropped(d1, p).reserved, foreign))
            && (p !in d.reserved ==>
                  && d1.reserved == d.reserved && !OwnRange(d1, p, size) && (State(d1, allocs - {p}) <==> d1 == d)
                  && (d1 == d <==> allocs[p].asleep || Harmless(d, p, allocs[p]))
                  && (d1 == d && !allocs[p].asleep ==> !NoError(d, p, allocs[p].chunks, allocs[p].handles)))
  {
    var d1 := BeforeFree(d, p, allocs[p]);
    if p in d.reserved {
      assert HeldOk(d, p, allocs[p]);
      NotForeign(d.reserved, foreign, p);
      if allocs[p].asleep {
        PlaceholderDropped(d, allocs, p, allocs - {p});
      } else {
        SleptHeld(d, allocs, p, d1);
        PlaceholderDropped(d1, Slept(allocs, p), p, allocs - {p});
      }
    } else {
      RecordForgotten(d, allocs - {p}, allocs, p);
      if !allocs[p].asleep {
        BothHarmless(d, p, allocs[p]);
        BothStale(d, allocs, p, allocs[p], d1, allocs - {p});
      }
    }
  }

  /** What a new record does to the stale ones. */
  lemma {:induction false} StaleRecorded(d: Driver, allocs: map<nat, Alloc>, d1: Driver, allocs1: map<nat, Alloc>,
                                         base: nat)
    requires base in allocs1 && allocs1 == Recorded(allocs, base, allocs1[base]) && !allocs1[base].asleep
    requires forall q | q != base :: q in d1.reserved <==> q in d.reserved
    ensures Stale(d1, allocs1) == if base in d1.reserved then Stale(d, allocs) - {base} else Stale(d, allocs) + {base}
  {
  }

  lemma {:induction false} FreedOk(d: Driver, p: nat, size: nat, d1: Driver)
    requires DriverOk(d) && d1 == (if OwnRange(d, p, size) then Dropped(d, p) else d)
    ensures DriverOk(d1)
  {
    if OwnRange(d, p, size) {
      forall b, c | b in d1.reserved && c in d1.reserved && b != c ensures Apart(d1.reserved, b, c) {
        assert Apart(d.reserved, b, c);
      }
      SameMappings(d, d1, p, size);
    }
  }

  lemma {:induction false} ReservedOk(d: Driver, p: nat, size: nat)
    requires DriverOk(d) && Clear(d.reserved, p, size) && 0 < size
    ensures p !in d.reserved && DriverOk(Reserved(d, p, size)) && OwnRange(Reserved(d, p, size), p, size)
  {
    ClearUnmapped(d, p, size);
    ReservedRanges(d.reserved, p, size);
    SameMappings(d, Reserved(d, p, size), p, size);
  }

  lemma {:induction false} SleptHeld(d: Driver, allocs: map<nat, Alloc>, p: nat, d1: Driver)
    requires State(d, allocs) && p in d.reserved && !allocs[p].asleep && Sized(allocs[p])
    requires d1 == AfterBoth(d, p, allocs[p].chunks, allocs[p].handles)
    ensures d1 == SleptDriver(d, p, allocs[p]) && NoError(d, p, allocs[p].chunks, allocs[p].handles)
    ensures OwnRange(d1, p, allocs[p].size)
    ensures State(d1, Slept(allocs, p)) && State(Dropped(d1, p), Slept(allocs, p))
  {
    assert HeldOk(d, p, allocs[p]);
    BothBacked(d, p, allocs[p].chunks, allocs[p].handles);
    SleepKeeps(d, allocs, p);
    assert HeldOk(d1, p, Slept(allocs, p)[p]);
    PlaceholderDropped(d1, Slept(allocs, p), p, Slept(allocs, p));
  }

  /** A stale record: `d1` is what the attempt to put it to sleep leaves. */
  lemma {:induction false} SleptUnheld(d: Driver, allocs: map<nat, Alloc>, p: nat, d1: Driver)
    requires State(d, allocs) && p in allocs && p !in d.reserved && Sized(allocs[p])
    requires d1 == AfterBoth(d, p, allocs[p].chunks, allocs[p].handles)
    ensures State(d1, Slept(allocs, p)) <==> Harmless(d, p, allocs[p])
  {
    BothHarmless(d, p, allocs[p]);
    BothStale(d, allocs, p, allocs[p], d1, Slept(allocs, p));
    if d1 == d { StaleSlept(d, allocs, p); }
  }

  /** Where something of ours is mapped, no one else has a range. */
  lemma {:induction false} MappedNotForeign(d: Driver, foreign: map<nat, nat>, p: nat)
    requires MappingsOk(d) && ForeignOk(d.reserved, foreign) && p in d.mapped
    ensures p !in foreign
  {
    assert MappingOk(d, p);
    var b :| InRange(d, p, d.mapped[p].size, b);
    assert p in foreign ==> Disjoint(p, foreign[p], b, d.reserved[b]);
  }

  lemma {:induction false} StaleSlept(d: Driver, allocs: map<nat, Alloc>, p: nat)
    requires State(d, allocs) && p in allocs && p !in d.reserved
    ensures State(d, Slept(allocs, p))
  {
    var allocs1 := Slept(allocs, p);
    forall q | q in d.reserved ensures HeldOk(d, q, allocs1[q]) { assert HeldOk(d, q, allocs[q]); }
    forall a | a in d.mapped ensures Owned(d, allocs1, a) {
      assert Owned(d, allocs, a);
      SameOwner(d, allocs, d, allocs1, p, a);
    }
  }

  /** `d` holds the ranges of `d0` and some of its mappings and handles. */
  ghost predicate PartlyAsleep(d0: Driver, d: Driver) {
    && d.reserved == d0.reserved
    && (forall a | a in d.mapped :: a in d0.mapped && d.mapped[a] == d0.mapped[a])
    && (forall h | h in d.live :: h in d0.live)
  }

  /** While all allocations are put to sleep, the stale ones are still to do. */
  ghost predicate SleptSoFar(d0: Driver, allocs0: map<nat, Alloc>, d: Driver, allocs: map<nat, Alloc>, todo: set<nat>) {
    PartlyAsleep(d0, d) && Stale(d, allocs) == Stale(d0, allocs0) && Stale(d0, allocs0) <= todo
  }

  lemma {:induction false} SleptOne(d0: Driver, allocs0: map<nat, Alloc>, d: Driver, allocs: map<nat, Alloc>,
                                    todo: set<nat>,
                                    p: nat)
    requires SleptSoFar(d0, allocs0, d, allocs, todo) && p in d.reserved && p in allocs
    ensures SleptSoFar(d0, allocs0, SleptDriver(d, p, allocs[p]), Slept(allocs, p), todo - {p})
  {
    assert p !in Stale(d, allocs);
    SleptStale(d, allocs, p, SleptDriver(d, p, allocs[p]));
  }

  lemma {:induction false} AsleepAlready(d0: Driver, allocs0: map<nat, Alloc>, d: Driver, allocs: map<nat, Alloc>,
                                         todo: set<nat>, p: nat)
    requires SleptSoFar(d0, allocs0, d, allocs, todo) && p in allocs && allocs[p].asleep
    ensures SleptSoFar(d0, allocs0, d, allocs, todo - {p})
  {
    assert p !in Stale(d, allocs);
  }

  lemma {:induction false} SleepStopped(d0: Driver, allocs0: map<nat, Alloc>, d: Driver, allocs: map<nat, Alloc>,
                                        todo: set<nat>, p: nat, d1: Driver)
    requires RecordsOk(allocs0) && SleptSoFar(d0, allocs0, d, allocs, todo) && p in allocs
    requires d1.reserved == d.reserved || d1.reserved == d.reserved - {p}
    ensures Stale(d1, Slept(allocs, p)) <= Stale(d0, allocs0) && Recorded(Slept(allocs, p), p, allocs[p]) == allocs
    ensures StaleHarmless(d0, allocs0) && p in Stale(d0, allocs0) ==> Harmless(d, p, allocs0[p])
    ensures Stale(d0, allocs0) == {} && !allocs[p].asleep ==> p in d.reserved
  {
    SleptStale(d, allocs, p, d1);
    assert !allocs[p].asleep && p !in d.reserved ==> p in Stale(d, allocs);
  }

  lemma {:induction false} SleptStale(d: Driver, allocs: map<nat, Alloc>, p: nat, d1: Driver)
    requires p in allocs && (d1.reserved == d.reserved || d1.reserved == d.reserved - {p})
    ensures Stale(d1, Slept(allocs, p)) == Stale(d, allocs) - {p}
    ensures Recorded(Slept(allocs, p), p, allocs[p]) == allocs
  {
  }

  /** All records but those in `todo` have been put to sleep, or woken; those still to do have not been touched. */
  ghost predicate Going(allocs0: map<nat, Alloc>, allocs: map<nat, Alloc>, todo: set<nat>, asleep: bool) {
    && SameRecords(allocs0, allocs) && todo <= allocs.Keys
    && (forall p | p in allocs && p !in todo :: allocs[p].asleep == asleep)
    && (forall p | p in allocs && p in todo :: allocs[p] == allocs0[p])
  }

  lemma {:induction false} GoingOn(allocs0: map<nat, Alloc>, allocs: map<nat, Alloc>, todo: set<nat>, asleep: bool,
                                   p: nat, handles: seq<nat>)
    requires Going(allocs0, allocs, todo, asleep) && p in todo
    ensures allocs[p].asleep == asleep ==> Going(allocs0, allocs, todo - {p}, asleep)
    ensures asleep ==> Going(allocs0, Slept(allocs, p), todo - {p}, asleep)
    ensures !asleep ==> Going(allocs0, Woken(allocs, p, handles), todo - {p}, asleep)
  {
  }

  /** The same allocations, of the same size and cut in the same chunks. */
  ghost predicate SameRecords(allocs: map<nat, Alloc>, allocs1: map<nat, Alloc>) {
    && allocs1.Keys == allocs.Keys
    && forall p | p in allocs :: allocs1[p].size == allocs[p].size && allocs1[p].chunks == allocs[p].chunks
  }

  /** Where no range of ours lies no chunk can be mapped. */
  lemma {:induction false} NoRange(d: Driver, p: nat, chunks: seq<nat>)
    requires Positive(chunks) && 0 < Total(chunks) && AllPlaced(d, p, chunks)
    ensures !Clear(d.reserved, p, Total(chunks))
  {
    TileInside(p, chunks, 0);
    assert Placed(d, Addresses(p, chunks)[0], chunks[0]);
  }

  /** Mapping chunks changes the driver and keeps its order, and some range of ours lies there. */
  lemma {:induction false} BackedAgainst(d: Driver, p: nat, chunks: seq<nat>, handles: seq<nat>)
    requires MappingsOk(d) && Positive(chunks) && 0 < Total(chunks) && AllPlaced(d, p, chunks)
    requires |handles| == |chunks| && Fresh(handles, d)
    ensures MappingsOk(Backed(d, p, chunks, handles)) && Backed(d, p, chunks, handles) != d
    ensures !Clear(d.reserved, p, Total(chunks))
  {
    BackedMappingsOk(d, p, chunks, handles);
    NoRange(d, p, chunks);
    BackedEntries(d, p, chunks, handles);
    assert Placed(d, Addresses(p, chunks)[0], chunks[0]);
  }

  /** After an attempt to wake `p`, the records describe the driver if and only if nothing has changed, or the
      allocation is awake in its own range. */
  lemma {:induction false} WakeJudged(d: Driver, allocs: map<nat, Alloc>, p: nat, handles: seq<nat>, d1: Driver,
                                      allocs1: map<nat, Alloc>, ok: bool, late: bool, leaked: bool)
    requires DriverOk(d) && p in allocs && allocs[p].asleep && Shaped(allocs[p])
    requires ok || late ==>
               && BackedBy(d, d1, p, allocs[p].chunks, handles) && AllPlaced(d, p, allocs[p].chunks) && d1 != d
               && allocs1 == (if ok then Woken(allocs, p, handles) else allocs)
    requires leaked ==> !ok && !late && LeakedOne(d, d1, allocs[p].chunks)
    requires !ok ==> allocs1 == allocs
    requires !ok && !late && !leaked ==> d1 == d
    ensures State(d, allocs) ==> (State(d1, allocs1) <==> d1 == d || (ok && p in d.reserved))
    ensures leaked ==> d1 != d && MappingsOk(d1)
  {
    if leaked { LeakInvalid(d, d1, allocs[p].chunks, allocs1); }
    if State(d, allocs) {
      if ok && p in d.reserved {
        WakeKeeps(d, allocs, p, handles);
      } else if ok || late {
        StrayMade(d, allocs, p, handles, allocs1);
        StrayInvalid(d1, allocs1, p);
      }
    }
  }

  lemma {:induction false} RecordForgotten(d: Driver, allocs1: map<nat, Alloc>, allocs: map<nat, Alloc>, p: nat)
    requires State(d, allocs) && p !in d.reserved && allocs1 == allocs - {p}
    ensures State(d, allocs1)
  {
    forall q | q in d.reserved ensures HeldOk(d, q, allocs1[q]) { assert HeldOk(d, q, allocs[q]); }
    forall a | a in d.mapped ensures Owned(d, allocs1, a) {
      assert Owned(d, allocs, a);
      var q :| OwnedBy(d, allocs, a, q);
      assert OwnedBy(d, allocs1, a, q);
    }
  }

  // ----- lemmas on driver states -----

  ghost function MappedUpTo(d: Driver, addrs: seq<nat>, ms: seq<Mapping>, n: nat): Driver
    requires n <= |addrs| == |ms|
  {
    d.(mapped := d.mapped + Zip(addrs, ms, 0, n))
  }

  ghost function MappedAt(d: Driver, a: nat, m: Mapping): Driver { d.(mapped := d.mapped[a := m]) }

  /** Room found while some chunks of the call are mapped was there before the call. */
  lemma {:induction false} PlacedBefore(d: Driver, d1: Driver, addrs: seq<nat>, ms: seq<Mapping>, n: nat,
                                        chunks: seq<nat>)
    requires n < |addrs| == |ms| == |chunks| && d1.mapped == d.mapped && d1.reserved == d.reserved
    requires forall j {:trigger addrs[j]} | 0 <= j < n :: Placed(d, addrs[j], chunks[j])
    requires Placed(MappedUpTo(d1, addrs, ms, n), addrs[n], chunks[n])
    ensures Placed(d, addrs[n], chunks[n])
  {
    var d2, a := MappedUpTo(d1, addrs, ms, n), addrs[n];
    ZipKeys(addrs, ms, 0, n);
    forall b ensures FarFrom(d, a, chunks[n], b) {
      assert FarFrom(d2, a, chunks[n], b);
      assert forall j | 0 <= j < n :: addrs[0..n][j] == addrs[j];
    }
  }

  /** ... and the other way round: the chunks of a range do not get in each other's way. */
  lemma {:induction false} PlacedStill(d: Driver, d1: Driver, base: nat, chunks: seq<nat>, ms: seq<Mapping>, n: nat)
    requires n < |chunks| == |ms| && d1.mapped == d.mapped && d1.reserved == d.reserved && Positive(chunks)
    requires forall j | 0 <= j < |chunks| :: ms[j].size == chunks[j]
    ensures AllPlaced(d, base, chunks) ==>
              Placed(MappedUpTo(d1, Addresses(base, chunks), ms, n), Addresses(base, chunks)[n], chunks[n])
  {
    if AllPlaced(d, base, chunks) {
      var addrs := Addresses(base, chunks);
      var d2, a := MappedUpTo(d1, addrs, ms, n), addrs[n];
      assert Placed(d, addrs[n], chunks[n]);
      AddressesDistinct(base, chunks);
      ZipKeys(addrs, ms, 0, n);
      forall b ensures FarFrom(d2, a, chunks[n], b) && (b in d2.mapped ==> b != a) {
        assert FarFrom(d, a, chunks[n], b);
        if b in addrs[0..n] {
          var j :| 0 <= j < n && addrs[j] == b;
          ZipAt(addrs, ms, 0, n, j);
          OffsetsTile(chunks, j, n);
        }
      }
    }
  }

  /** The next chunk can be mapped if the range had room for all. */
  lemma {:induction false} Mappable(d: Driver, d1: Driver, base: nat, chunks: seq<nat>, handles: seq<nat>,
                                    ms: seq<Mapping>, i: nat)
    requires i < |handles| == |chunks| && Distinct(handles) && Positive(chunks) && ms == Mappings(chunks, handles)
    requires d1 == d.(live := d.live + Chunks(chunks, handles))
    ensures var d2 := MappedUpTo(d1, Addresses(base, chunks), ms, i);
            AllPlaced(d, base, chunks) ==>
              && handles[i] in d2.live && d2.live[handles[i]] == chunks[i]
              && Placed(d2, Addresses(base, chunks)[i], chunks[i])
  {
    ZipAt(handles, chunks, 0, |handles|, i);
    PlacedStill(d, d1, base, chunks, ms, i);
  }

  /** A placeholder has room for the chunks of its record. */
  lemma {:induction false} HeldRoom(d: Driver, allocs: map<nat, Alloc>, p: nat)
    requires State(d, allocs) && p in d.reserved && allocs[p].asleep
    ensures AllPlaced(d, p, allocs[p].chunks)
  {
    assert HeldOk(d, p, allocs[p]);
    PlaceholderRoom(d, p, allocs[p].chunks);
  }

  /** Every chunk of the range can be accessed and has been zeroed. */
  ghost predicate Usable(log: Log, base: nat, chunks: seq<nat>) {
    forall i {:trigger Addresses(base, chunks)[i]} | 0 <= i < |chunks| ::
      Addresses(base, chunks)[i] in log.accessible && Addresses(base, chunks)[i] in log.zeroed
  }

  lemma {:induction false} AllInRange(d1: Driver, log: Log, d: Driver, base: nat, chunks: seq<nat>, handles: seq<nat>)
    requires Positive(chunks) && |chunks| == |handles| && Distinct(handles) && d1 == Backed(d, base, chunks, handles)
    ensures (forall a | a in d1.mapped && base <= a < base + Total(chunks) ::
               a in log.accessible && a in log.zeroed) ==>
              Usable(log, base, chunks)
  {
    BackedEntries(d, base, chunks, handles);
    forall i | 0 <= i < |chunks|
      ensures Addresses(base, chunks)[i] in d1.mapped
      ensures base <= Addresses(base, chunks)[i] < base + Total(chunks)
    {
      TileInside(base, chunks, i);
    }
  }

  lemma {:induction false} MappedNext(d: Driver, addrs: seq<nat>, ms: seq<Mapping>, n: nat)
    requires n < |addrs| == |ms|
    ensures MappedUpTo(d, addrs, ms, n + 1) == MappedAt(MappedUpTo(d, addrs, ms, n), addrs[n], ms[n])
  {
    ZipAdded(d.mapped, addrs, ms, n);
  }

  ghost function NewRecord(chunks: seq<nat>, handles: seq<nat>): Alloc { Alloc(Total(chunks), chunks, handles, false) }

  lemma {:induction false} NewPlaceholder(d: Driver, allocs: map<nat, Alloc>, base: nat, chunks: seq<nat>)
    requires State(d, allocs) && Positive(chunks) && 0 < Total(chunks) && Clear(d.reserved, base, Total(chunks))
    ensures base !in d.reserved && MappingsOk(Reserved(d, base, Total(chunks)))
    ensures Unmapped(Reserved(d, base, Total(chunks)), base, Total(chunks))
    ensures var asleep := Alloc(Total(chunks), chunks, chunks, true);
            State(Reserved(d, base, Total(chunks)), Recorded(allocs, base, asleep))
  {
    PlaceholderAdded(d, allocs, base, Alloc(Total(chunks), chunks, chunks, true));
    ClearUnmapped(d, base, Total(chunks));
  }

  lemma {:induction false} NewFailed(d: Driver, allocs: map<nat, Alloc>, base: nat, chunks: seq<nat>,
                                     allocs1: map<nat, Alloc>)
    requires State(d, allocs) && Positive(chunks) && 0 < Total(chunks) && Clear(d.reserved, base, Total(chunks))
    requires forall q | q in allocs && q != base :: q in allocs1 && allocs1[q] == allocs[q]
    ensures Dropped(Reserved(d, base, Total(chunks)), base) == d && State(d, allocs1)
  {
    NewPlaceholder(d, allocs, base, chunks);
    ReservedDropped(d, base, Total(chunks));
    var asleep := Alloc(Total(chunks), chunks, chunks, true);
    PlaceholderDropped(Reserved(d, base, Total(chunks)), Recorded(allocs, base, asleep), base, allocs1);
  }

  lemma {:induction false} NewMapped(d: Driver, allocs: map<nat, Alloc>, base: nat, chunks: seq<nat>, handles: seq<nat>)
    requires State(d, allocs) && Positive(chunks) && 0 < Total(chunks) && Clear(d.reserved, base, Total(chunks))
    requires |handles| == |chunks| && Fresh(handles, Reserved(d, base, Total(chunks)))
    ensures var d1 := Backed(Reserved(d, base, Total(chunks)), base, chunks, handles);
            var allocs1 := Recorded(allocs, base, NewRecord(chunks, handles));
            State(d1, allocs1) && Allocated(d, allocs, d1, allocs1, base)
  {
    NewPlaceholder(d, allocs, base, chunks);
    var asleep := Recorded(allocs, base, Alloc(Total(chunks), chunks, chunks, true));
    WakeKeeps(Reserved(d, base, Total(chunks)), asleep, base, handles);
    WokenRecorded(allocs, base, chunks, handles);
  }

  lemma {:induction false} WokenRecorded(allocs: map<nat, Alloc>, p: nat, chunks: seq<nat>, handles: seq<nat>)
    ensures Woken(Recorded(allocs, p, Alloc(Total(chunks), chunks, chunks, true)), p, handles)
         == Recorded(allocs, p, NewRecord(chunks, handles))
  {
  }

  lemma {:induction false} NotForeign(ranges: map<nat, nat>, foreign: map<nat, nat>, base: nat)
    requires ForeignOk(ranges, foreign) && base in ranges && 0 < ranges[base]
    ensures base !in foreign
  {
  }

  /** A backed range is in use: it cannot be freed. */
  lemma {:induction false} FirstMapped(d: Driver, base: nat, chunks: seq<nat>, handles: seq<nat>)
    requires 0 < Total(chunks) && Positive(chunks) && |chunks| == |handles| && Fresh(handles, d)
    ensures !Unmapped(Backed(d, base, chunks, handles), base, Total(chunks))
  {
    BackedEntries(d, base, chunks, handles);
    assert Addresses(base, chunks)[0] == base;
  }

  lemma {:induction false} ForeignReserved(ranges: map<nat, nat>, foreign: map<nat, nat>, base: nat, size: nat)
    requires ForeignOk(ranges, foreign) && Clear(foreign, base, size)
    ensures ForeignOk(ranges[base := size], foreign)
  {
  }

  predicate OwnRange(d: Driver, a: nat, size: nat) {
    a in d.reserved && d.reserved[a] == size && Unmapped(d, a, size)
  }
}
