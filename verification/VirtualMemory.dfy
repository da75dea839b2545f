/** The driver's virtual-memory state: reserved address ranges, live physical handles and the mappings of handles
    into ranges. Its calls may fail; cleanup calls succeed when they are legal. A handle may be released while it is
    mapped: the memory then stays until it is unmapped, and its number is not given out before. */
module VirtualMemory {

  /** A physical chunk mapped at some address. */
  datatype Mapping = Mapping(size: nat, handle: nat)

  /** `reserved` maps the base address of each range held by this allocator to its size, `live` each physical handle to
      its size, and `mapped` the start address of each mapping to the mapping. */
  datatype Driver = Driver(reserved: map<nat, nat>, live: map<nat, nat>, mapped: map<nat, Mapping>)

  /** With what the driver answers a cleanup call that is not legal; all that matters is that these differ. */
  const UNMAP_ERROR: int := 1
  const RELEASE_ERROR: int := 2
  const FREE_ERROR: int := 3

  /** What happened in the driver that its state does not show: how many calls it refused for reasons of its own, how
      often it reserved a range elsewhere than asked, which mapped chunks can be accessed and have been zeroed, and
      where chunks have been unmapped whose memory is still resident, which it is until the address range is freed. */
  datatype Log = Log(refused: nat, displaced: nat, accessible: set<nat>, zeroed: set<nat>, resident: set<nat>)

  /** The addresses outside `[a, a + n)`. */
  ghost function Outside(s: set<nat>, a: nat, n: nat): set<nat> { set x | x in s && !(a <= x < a + n) }

  predicate Disjoint(a: nat, n: nat, b: nat, m: nat) {
    a + n <= b || b + m <= a
  }

  predicate Inside(a: nat, n: nat, b: nat, m: nat) {
    b <= a && a + n <= b + m
  }

  /** None of the ranges overlaps `[a, a + n)`. */
  predicate Clear(ranges: map<nat, nat>, a: nat, n: nat) {
    forall b | b in ranges :: Disjoint(a, n, b, ranges[b])
  }

  predicate Unmapped(d: Driver, a: nat, n: nat) {
    forall b | b in d.mapped :: Disjoint(a, n, b, d.mapped[b].size)
  }

  predicate HandleUnmapped(d: Driver, h: nat) {
    forall b | b in d.mapped :: d.mapped[b].handle != h
  }

  ghost predicate Apart(ranges: map<nat, nat>, b: nat, c: nat) {
    b in ranges && c in ranges && Disjoint(b, ranges[b], c, ranges[c])
  }

  ghost predicate RangesOk(ranges: map<nat, nat>) {
    && (forall b | b in ranges :: 0 < ranges[b])
    && (forall b, c {:trigger Apart(ranges, b, c)} | b in ranges && c in ranges && b != c :: Apart(ranges, b, c))
  }

  /** Ranges held by anyone else do not overlap ours. */
  ghost predicate ForeignOk(ranges: map<nat, nat>, foreign: map<nat, nat>) {
    forall b | b in foreign :: 0 < foreign[b] && Clear(ranges, b, foreign[b])
  }

  /** A mapping lies in a reserved range. */
  ghost predicate MappingOk(d: Driver, a: nat) {
    && a in d.mapped && 0 < d.mapped[a].size
    && exists b :: InRange(d, a, d.mapped[a].size, b)
  }

  ghost predicate InRange(d: Driver, a: nat, size: nat, b: nat) {
    b in d.reserved && Inside(a, size, b, d.reserved[b])
  }

  /** Some reserved range contains `[a, a + n)`. */
  predicate HasRange(ranges: map<nat, nat>, a: nat, n: nat) {
    exists b | b in ranges :: Inside(a, n, b, ranges[b])
  }

  ghost predicate FarFrom(d: Driver, a: nat, n: nat, b: nat) {
    b in d.mapped ==> Disjoint(a, n, b, d.mapped[b].size)
  }

  /** A chunk can be mapped at `a`: in a range of ours, and away from everything mapped. */
  ghost predicate Placed(d: Driver, a: nat, n: nat) {
    a !in d.mapped && HasRange(d.reserved, a, n) && forall b {:trigger FarFrom(d, a, n, b)} :: FarFrom(d, a, n, b)
  }

  ghost predicate Separate(d: Driver, a: nat, b: nat) {
    && a in d.mapped && b in d.mapped
    && Disjoint(a, d.mapped[a].size, b, d.mapped[b].size) && d.mapped[a].handle != d.mapped[b].handle
  }

  /** Mappings are sound, do not overlap, and each has a handle of its own. */
  ghost predicate MappingsOk(d: Driver) {
    && (forall a {:trigger MappingOk(d, a)} | a in d.mapped :: MappingOk(d, a))
    && (forall a, b {:trigger Separate(d, a, b)} | a in d.mapped && b in d.mapped && a != b :: Separate(d, a, b))
  }

  ghost predicate DriverOk(d: Driver) {
    RangesOk(d.reserved) && MappingsOk(d)
  }

  // ----- chunks -----

  ghost predicate Positive(chunks: seq<nat>) {
    forall i | 0 <= i < |chunks| :: 0 < chunks[i]
  }

  /** Sum of the first `n` chunk sizes: the offset of chunk `n`. */
  function Offset(chunks: seq<nat>, n: nat): nat
    requires n <= |chunks|
  {
    if n == 0 then 0 else Offset(chunks, n - 1) + chunks[n - 1]
  }

  function Total(chunks: seq<nat>): nat { Offset(chunks, |chunks|) }

  /** Chunks tile the range: each begins where the one before it ends. */
  lemma {:induction false} OffsetsTile(chunks: seq<nat>, i: nat, j: nat)
    requires i < j <= |chunks|
    ensures Offset(chunks, i) + chunks[i] <= Offset(chunks, j)
    ensures j == i + 1 ==> Offset(chunks, j) == Offset(chunks, i) + chunks[i]
  {
    if i + 1 < j { OffsetsTile(chunks, i, j - 1); }
  }

  /** Where the chunks of a range that begins at `base` are mapped. */
  function Addresses(base: nat, chunks: seq<nat>): (addrs: seq<nat>)
    ensures |addrs| == |chunks|
  {
    seq(|chunks|, i requires 0 <= i < |chunks| => base + Offset(chunks, i))
  }

  ghost predicate Distinct(s: seq<nat>) {
    forall i, j | 0 <= i < j < |s| :: s[i] != s[j]
  }

  lemma {:induction false} AddressesDistinct(base: nat, chunks: seq<nat>)
    requires Positive(chunks)
    ensures Distinct(Addresses(base, chunks))
  {
    forall i, j | 0 <= i < j < |chunks| ensures Addresses(base, chunks)[i] != Addresses(base, chunks)[j] {
      OffsetsTile(chunks, i, j);
    }
  }

  /** The map from `keys[i]` to `vals[i]`, for `lo <= i < hi`. */
  ghost function Zip<V>(keys: seq<nat>, vals: seq<V>, lo: nat, hi: nat): map<nat, V>
    requires lo <= hi <= |keys| == |vals|
  {
    if lo == hi then map[] else Zip(keys, vals, lo, hi - 1)[keys[hi - 1] := vals[hi - 1]]
  }

  lemma {:induction false} ZipKeys<V>(keys: seq<nat>, vals: seq<V>, lo: nat, hi: nat)
    requires lo <= hi <= |keys| == |vals|
    ensures forall k | k in Zip(keys, vals, lo, hi) :: k in keys[lo..hi]
    ensures forall i | lo <= i < hi :: keys[i] in Zip(keys, vals, lo, hi)
  {
    if lo < hi {
      ZipKeys(keys, vals, lo, hi - 1);
      assert keys[lo..hi] == keys[lo..hi - 1] + [keys[hi - 1]];
    }
  }

  lemma {:induction false} ZipAt<V>(keys: seq<nat>, vals: seq<V>, lo: nat, hi: nat, i: nat)
    requires Distinct(keys) && lo <= i < hi <= |keys| == |vals|
    ensures keys[i] in Zip(keys, vals, lo, hi) && Zip(keys, vals, lo, hi)[keys[i]] == vals[i]
  {
    if i < hi - 1 { ZipAt(keys, vals, lo, hi - 1, i); }
  }

  /** Dropping the first entry of `m + Zip(...)`, when its key is not in `m`. */
  lemma {:induction false} ZipDrop<V>(m: map<nat, V>, keys: seq<nat>, vals: seq<V>, lo: nat, hi: nat)
    requires Distinct(keys) && lo < hi <= |keys| == |vals| && keys[lo] !in m
    ensures var t := m + Zip(keys, vals, lo, hi);
            keys[lo] in t && t[keys[lo]] == vals[lo] && t - {keys[lo]} == m + Zip(keys, vals, lo + 1, hi)
  {
    var z, k, v := Zip(keys, vals, lo, hi - 1), keys[hi - 1], vals[hi - 1];
    assert m + z[k := v] == (m + z)[k := v];
    if lo + 1 < hi {
      ZipDrop(m, keys, vals, lo, hi - 1);
      assert (m + z)[k := v] - {keys[lo]} == (m + z - {keys[lo]})[k := v];
      assert (m + Zip(keys, vals, lo + 1, hi - 1))[k := v] == m + Zip(keys, vals, lo + 1, hi);
    } else {
      assert (m + z)[k := v] - {k} == m + z;
    }
  }
}
