/** The store and load calls as written, each system call preceded by whatever other threads do in between. Every step
    taken here is a step of the block store's state machine, so all that holds of its runs holds of these calls. */
module FsIo {
  import opened Arithmetic
  import opened BlockStore
  import opened BlockSafety

  /** What the block store's runs say of a batch of loads. */
  lemma {:induction false} LoadedSoFar(plan: Plan, d0: Disk, blanks: seq<seq<Bytes>>, moves: seq<Move>, me: nat,
                                       t: Thread)
    requires InitOk(plan, d0, blanks) && me < |plan| && t == Ran(plan, d0, blanks, moves).threads[me]
    requires t.k <= |plan[me]|
    requires forall j | 0 <= j < |plan[me]| :: plan[me][j].Load?
    ensures forall j | 0 <= j < t.k :: Loaded(plan, d0, plan[me][j], t.bufs[j])
    ensures forall j | 0 <= j < t.k && SizesMatch(plan, d0, plan[me][j].source) ::
            Known(plan, d0, plan[me][j].source, t.bufs[j])
  {
    forall j | 0 <= j < t.k
      ensures Loaded(plan, d0, plan[me][j], t.bufs[j])
      ensures SizesMatch(plan, d0, plan[me][j].source) ==> Known(plan, d0, plan[me][j].source, t.bufs[j])
    {
      LoadsComplete(plan, d0, blanks, moves, me, j);
    }
  }

  /** What a call leaves in the list of errors. */
  ghost function Answer(err: int): seq<int> { if err == 0 then [] else [err] }

  class Device {
    const plan: Plan
    const d0: Disk
    const blanks: seq<seq<Bytes>>
    var disk: Disk
    var threads: seq<Thread>
    ghost var moves: seq<Move>
    var views: multiset<nat>  // buffer views held on Python objects
    ghost var errors: seq<int>  // with which the operating system has answered the calls made here
    ghost var denied: nat       // views that could not be had

    ghost predicate Valid()
      reads this
    {
      InitOk(plan, d0, blanks) && System(disk, threads) == Ran(plan, d0, blanks, moves)
    }

    constructor (plan: Plan, d0: Disk, blanks: seq<seq<Bytes>>)
      requires InitOk(plan, d0, blanks)
      ensures Valid() && disk == d0 && this.plan == plan && this.blanks == blanks
      ensures |threads| == |plan| && forall i | 0 <= i < |plan| :: threads[i] == Thread(0, Begin, blanks[i], 0)
      ensures views == multiset{} && errors == [] && denied == 0
    {
      this.plan, this.d0, this.blanks := plan, d0, blanks;
      disk, threads, moves, views, errors, denied := d0, Started(blanks), [], multiset{}, [], 0;
    }

    method Take(i: nat, c: Outcome)
      requires Valid()
      modifies this`disk, this`threads, this`moves
      ensures Valid() && System(disk, threads) == Advance(plan, System(old(disk), old(threads)), i, c)
    {
      var s := Advance(plan, System(disk, threads), i, c);
      disk, threads := s.disk, s.threads;
      RunNext(plan, System(d0, Started(blanks)), moves, Move(i, c));
      moves := moves + [Move(i, c)];
    }

    /** Any number of steps of threads other than `me`. */
    method Others(me: nat)
      requires Valid() && me < |plan|
      modifies this`disk, this`threads, this`moves
      ensures Valid() && threads[me] == old(threads[me])
    {
      var n: int := *;
      while 0 < n
        invariant Valid() && threads[me] == old(threads[me])
      {
        n := n - 1;
        var i: nat, c: Outcome := *, *;
        if i != me {
          Take(i, c);
        }
      }
    }

    /** Thread `me` is in phase `phase` of call `op`. */
    ghost predicate At(me: nat, op: Op, phase: Phase)
      reads this
    {
      && Valid() && me < |plan| && !Halted(plan[me], threads[me])
      && plan[me][threads[me].k] == op && threads[me].phase == phase
    }

    // ----- system calls of thread `me`, with what the operating system answers -----

    method Access(me: nat, path: Path, ghost op: Op) returns (found: bool)
      requires At(me, op, Begin) && op.Store? && op.dest == path
      modifies this`disk, this`threads, this`moves
      ensures Valid()
      ensures found ==> path in disk.names && threads[me] == NextOp(old(threads[me]))
      ensures !found ==> threads[me] == old(threads[me]).(phase := Create)
    {
      Others(me);
      var c: Outcome := *;
      found := c.err == 0 && path in disk.names;
      Take(me, c);
    }

    /** Make the parent directories and create the file; fails if it exists. */
    method CreateNew(me: nat, path: Path, ghost op: Op) returns (err: int, fd: nat)
      requires At(me, op, Create) && op.Store? && op.tmp == path
      modifies this`disk, this`threads, this`moves, this`errors
      ensures Valid() && errors == old(errors) + Answer(err)
      ensures threads[me] == if err == 0 then old(threads[me]).(phase := Write(fd, 0)) else Fail(old(threads[me]), err)
    {
      Others(me);
      var c: Outcome := *;
      fd := c.n;
      err := if c.err != 0 then c.err else if path in disk.names || fd in disk.data then EIO else 0;
      errors := errors + if c.err == 0 && path !in disk.names && fd !in disk.data then []
                         else [if c.err == 0 then EIO else c.err];
      Take(me, c);
    }

    /** One `write` call: pieces arrive, then it returns how many bytes were written, or an error. */
    method WriteFd(me: nat, fd: nat, src: Bytes, ghost op: Op) returns (written: int, errno: int)
      requires At(me, op, Write(fd, 0)) && op.Store? && op.block == src
      modifies this`disk, this`threads, this`moves, this`errors
      ensures Valid() && (written < 0 ==> errno != 0)
      ensures errors == old(errors) + Answer(if written < 0 then errno else if written == |src| then 0 else EIO)
      ensures threads[me] == old(threads[me]).(phase := if written == |src| then Close(fd)
                                                        else Undo(if written < 0 then errno else EIO))
    {
      written := 0;
      while true
        invariant Valid() && 0 <= written <= |src| && threads[me] == old(threads[me]).(phase := Write(fd, written))
        invariant errors == old(errors)
        decreases |src| - written
      {
        Others(me);
        var c: Outcome := *;
        Take(me, c);
        if c.err == 0 && written < c.n <= |src| {
          written := c.n;
        } else {
          errno := c.err;
          errors := errors + Answer(if c.err != 0 then c.err else if written < |src| then EIO else 0);
          written := if errno != 0 then -1 else written;
          return;
        }
      }
    }

    method CloseFd(me: nat, fd: nat, ghost op: Op) returns (errno: int)
      requires At(me, op, Close(fd)) && op.Store?
      modifies this`disk, this`threads, this`moves, this`errors
      ensures Valid() && errors == old(errors) + Answer(errno)
      ensures threads[me] == old(threads[me]).(phase := if errno == 0 then Rename(fd) else Undo(errno))
    {
      Others(me);
      var c: Outcome := *;
      errno := c.err;
      errors := errors + Answer(c.err);
      Take(me, c);
    }

    method RenameFile(me: nat, tmp: Path, dest: Path, ghost op: Op, ghost fd: nat) returns (errno: int)
      requires At(me, op, Rename(fd)) && op.Store? && op.tmp == tmp && op.dest == dest
      modifies this`disk, this`threads, this`moves, this`errors
      ensures Valid() && errors == old(errors) + Answer(errno)
      ensures errno == 0 ==>
                && dest in disk.names && disk.names[dest] == fd && threads[me] == NextOp(old(threads[me]))
                && fd in disk.data && disk.data[fd] == op.block
      ensures errno != 0 ==> threads[me] == old(threads[me]).(phase := Undo(errno))
    {
      Others(me);
      RunInv(plan, d0, blanks, moves);
      assert ThreadOk(plan, d0, disk, plan[me], threads[me], blanks[me]);
      var c: Outcome := *;
      errno := c.err;
      errors := errors + Answer(c.err);
      Take(me, c);
    }

    method UnlinkTemp(me: nat, tmp: Path, ghost op: Op, ghost err: int)
      requires At(me, op, Undo(err)) && op.Store? && op.tmp == tmp
      modifies this`disk, this`threads, this`moves
      ensures Valid() && tmp !in disk.names && threads[me] == Fail(old(threads[me]), err)
    {
      Others(me);
      var c: Outcome := *;
      Take(me, c);
    }

    /** Store one block: 0, or the error of the step that failed, which is the one error the operating system has
        answered with. On success the destination was there, or it now holds the block; on failure the thread's
        temporary file is gone. */
    method StoreBlock(me: nat, tmp: Path, dest: Path, src: Bytes) returns (err: int, ghost found: bool)
      requires At(me, Store(tmp, dest, src), Begin)
      modifies this`disk, this`threads, this`moves, this`errors
      ensures Valid() && errors == old(errors) + Answer(err)
      ensures err == 0 ==>
                found || (dest in disk.names && disk.names[dest] in disk.data && disk.data[disk.names[dest]] == src)
      ensures threads[me] == if err == 0 then NextOp(old(threads[me])) else Fail(old(threads[me]), err)
      ensures err == 0 ==> dest in disk.names
    {
      ghost var op := Store(tmp, dest, src);
      var present := Access(me, dest, op);
      err, found := 0, present;
      if present {
        return;
      }
      var fd;
      err, fd := CreateNew(me, tmp, op);
      if err != 0 {
        return;
      }
      var written, errno := WriteFd(me, fd, src, op);
      if written < 0 || written != |src| {
        err := if written < 0 then errno else EIO;
        UnlinkTemp(me, tmp, op, err);
        return;
      }
      err := Publish(me, tmp, dest, fd, op);
    }

    /** Close the file and give it its name. */
    method Publish(me: nat, tmp: Path, dest: Path, fd: nat, ghost op: Op) returns (err: int)
      requires At(me, op, Close(fd)) && op.Store? && op.tmp == tmp && op.dest == dest
      modifies this`disk, this`threads, this`moves, this`errors
      ensures Valid() && errors == old(errors) + Answer(err)
      ensures var t := old(threads[me]).(phase := Begin);
              threads[me] == if err == 0 then NextOp(t) else Fail(t, err)
      ensures err == 0 ==>
                dest in disk.names && disk.names[dest] in disk.data && disk.data[disk.names[dest]] == op.block
    {
      err := CloseFd(me, fd, op);
      if err != 0 {
        UnlinkTemp(me, tmp, op, err);
        return;
      }
      err := RenameFile(me, tmp, dest, op, fd);
      if err != 0 {
        UnlinkTemp(me, tmp, op, err);
      }
    }

    method OpenRead(me: nat, path: Path, ghost op: Op) returns (err: int, fd: nat)
      requires At(me, op, Begin) && op.Load? && op.source == path
      modifies this`disk, this`threads, this`moves, this`errors
      ensures Valid() && errors == old(errors) + Answer(err)
      ensures threads[me] == if err == 0 then old(threads[me]).(phase := Read(fd)) else Fail(old(threads[me]), err)
    {
      Others(me);
      var c: Outcome := *;
      fd := 0;
      errors := errors + if c.err == 0 && path in disk.names then [] else [if c.err == 0 then EIO else c.err];
      if c.err == 0 && path in disk.names {
        err, fd := 0, disk.names[path];
      } else {
        err := if c.err != 0 then c.err else EIO;
      }
      Take(me, c);
    }

    method Copy(data: Bytes, dst: array<Byte>, n: nat)
      requires n <= |data| && n <= dst.Length
      modifies dst
      ensures dst[..] == Overwritten(old(dst[..]), data, n)
    {
      for j := 0 to n
        invariant forall i | 0 <= i < dst.Length :: dst[i] == if i < j then data[i] else old(dst[i])
      {
        dst[j] := data[j];
      }
    }

    /** One `read` call. An error may come after some bytes have been copied. */
    method ReadFd(me: nat, fd: nat, dst: array<Byte>, ghost op: Op)
      returns (bytesRead: int, errno: int, ghost found: Bytes)
      requires At(me, op, Read(fd)) && op.Load? && op.size == dst.Length && threads[me].bufs[threads[me].k] == dst[..]
      modifies this`disk, this`threads, this`moves, this`errors, dst
      ensures Valid() && bytesRead <= dst.Length && (bytesRead < 0 ==> errno != 0)
      ensures errors == old(errors) + Answer(if bytesRead < 0 then errno else 0)
      ensures 0 <= bytesRead ==>
                && Known(plan, d0, op.source, found) && bytesRead == Min(|found|, dst.Length)
                && dst[..] == found[..bytesRead] + old(dst[bytesRead..])
      ensures var t := old(threads[me]).(bufs := old(threads[me]).bufs[old(threads[me]).k := dst[..]]);
              threads[me] == if bytesRead < 0 then Fail(t, errno)
                             else if bytesRead < dst.Length then t.(phase := Unlink)
                             else NextOp(t)
    {
      Others(me);
      RunInv(plan, d0, blanks, moves);
      assert ThreadOk(plan, d0, disk, plan[me], threads[me], blanks[me]);
      var err: int, count: int := *, *;
      var c := Outcome(err, if count < 0 then 0 else count);
      var data := disk.data[fd];
      var n := Min(|data|, dst.Length);
      var got := if c.err == 0 then n else Min(c.n, n);
      Copy(data, dst, got);
      found := data;
      errno := c.err;
      errors := errors + Answer(c.err);
      bytesRead := if errno != 0 then -1 else n;
      Take(me, c);
    }

    method UnlinkSource(me: nat, path: Path, ghost op: Op)
      requires At(me, op, Unlink) && op.Load? && op.source == path
      modifies this`disk, this`threads, this`moves
      ensures Valid() && path !in disk.names && threads[me] == Fail(old(threads[me]), EIO)
    {
      Others(me);
      var c: Outcome := *;
      Take(me, c);
    }

    /** Load one block into `dst`: 0, or the error of the step that failed. Without an error of the operating system the
        file has been read, and the load succeeds if and only if it is long enough. */
    method LoadBlock(me: nat, source: Path, dst: array<Byte>) returns (err: int, ghost found: Bytes)
      requires At(me, Load(source, dst.Length), Begin) && threads[me].bufs[threads[me].k] == dst[..]
      modifies this`disk, this`threads, this`moves, this`errors, dst
      ensures Valid()
      ensures errors == old(errors) || (err != 0 && errors == old(errors) + [err])
      ensures errors == old(errors) ==>
                && Known(plan, d0, source, found) && err == (if |found| < dst.Length then EIO else 0)
                && (err == 0 ==> dst[..] == found[..dst.Length])
      ensures var t := old(threads[me]).(bufs := old(threads[me]).bufs[old(threads[me]).k := dst[..]]);
              threads[me] == if err == 0 then NextOp(t) else Fail(t, err)
    {
      ghost var op := Load(source, dst.Length);
      found := [];
      var fd;
      err, fd := OpenRead(me, source, op);
      if err != 0 {
        assert threads[me].bufs == old(threads[me]).bufs[threads[me].k := dst[..]];
        return;
      }
      var bytesRead, errno;
      bytesRead, errno, found := ReadFd(me, fd, dst, op);
      if bytesRead < 0 {
        err := errno;
        return;
      }
      if bytesRead < dst.Length {
        UnlinkSource(me, source, op);
        err := EIO;
        return;
      }
      err := 0;
    }

    // ----- batches -----

    /** A view on every object of the list, or none: if one cannot be had, those already taken are given back. */
    method ExtractBuffers(objects: seq<nat>) returns (ok: bool)
      modifies this`views, this`denied
      ensures denied == old(denied) + if ok then 0 else 1
      ensures views == if ok then old(views) + multiset(objects) else old(views)
    {
      for i := 0 to |objects|
        invariant views == old(views) + multiset(objects[..i]) && denied == old(denied)
      {
        var granted: bool := *;
        if !granted {
          denied := denied + 1;
          ReleaseBuffers(objects[..i], old(views));
          return false;
        }
        views := views + multiset{objects[i]};
        assert objects[..i + 1] == objects[..i] + [objects[i]];
      }
      assert objects[..|objects|] == objects;
      return true;
    }

    /** Release one view of each object; `rest` is what remains. */
    method ReleaseBuffers(objects: seq<nat>, ghost rest: multiset<nat>)
      requires views == rest + multiset(objects)
      modifies this`views
      ensures views == rest
    {
      assert objects[0..] == objects;
      for i := 0 to |objects|
        invariant views == rest + multiset(objects[i..])
      {
        assert objects[i..] == [objects[i]] + objects[i + 1..];
        assert objects[i] in views;  // never released twice
        views := views - multiset{objects[i]};
      }
    }

    /** Store a batch, one call after the other, up to the first that fails; destinations from there on are not touched.
        Views on the buffers are given back on every exit. */
    method BatchStore(me: nat, tmps: seq<Path>, dests: seq<Path>, blocks: seq<Bytes>, objects: seq<nat>)
      returns (ok: bool, failedIndex: int, errno: int)
      requires Valid() && me < |plan| && threads[me].k == 0 && threads[me].phase == Begin && threads[me].failed == 0
      requires |tmps| == |dests| == |blocks| == |objects| == |plan[me]|
      requires forall j | 0 <= j < |tmps| :: plan[me][j] == Store(tmps[j], dests[j], blocks[j])
      modifies this
      ensures Valid() && views == old(views) && threads[me].k <= |plan[me]|
      ensures ok <==> denied == old(denied)
      ensures !ok ==> disk == old(disk) && threads == old(threads)
      ensures ok ==> Halted(plan[me], threads[me])
      ensures failedIndex < 0 ==> failedIndex == -1 && errno == 0
      ensures ok && failedIndex < 0 ==> threads[me].k == |tmps| && threads[me].failed == 0
      ensures ok && 0 <= failedIndex ==> threads[me].k == failedIndex && threads[me].failed == errno != 0
      ensures errors == old(errors) + if ok && 0 <= failedIndex then [errno] else []
      ensures ok ==> forall j | 0 <= j < threads[me].k && NoneShort(plan, d0, dests[j]) :: dests[j] in disk.names
      ensures ok ==> forall j | 0 <= j < |tmps| :: tmps[j] in disk.names <==> tmps[j] in d0.names
      ensures ok ==> forall j | threads[me].k <= j < |tmps| && OnlyCall(plan, me, j, dests[j]) ::
                       NameSame(disk, d0, dests[j])
    {
      failedIndex, errno := -1, 0;
      ok := ExtractBuffers(objects);
      if !ok {
        return;
      }
      var i := 0;
      while i < |tmps|
        invariant Valid() && 0 <= i <= |tmps| && threads[me].k == i && threads[me].phase == Begin
        invariant threads[me].failed == 0
        invariant views == old(views) + multiset(objects) && failedIndex == -1 && errno == 0 && errors == old(errors)
        invariant denied == old(denied)
      {
        var err, _ := StoreBlock(me, tmps[i], dests[i], blocks[i]);
        if err != 0 {
          failedIndex, errno := i, err;
          break;
        }
        i := i + 1;
      }
      ReleaseBuffers(objects, old(views));
      forall j | 0 <= j < threads[me].k && NoneShort(plan, d0, dests[j]) ensures dests[j] in disk.names {
        StoresDone(plan, d0, blanks, moves, me, j);
      }
      forall j | 0 <= j < |tmps| ensures tmps[j] in disk.names <==> tmps[j] in d0.names {
        NoTempLeft(plan, d0, blanks, moves, me, j, tmps[j]);
      }
      forall j | threads[me].k <= j < |tmps| && OnlyCall(plan, me, j, dests[j]) ensures NameSame(disk, d0, dests[j]) {
        NotYetStored(plan, d0, blanks, moves, me, j, dests[j]);
      }
    }

    /** The loop of a batch of loads. */
    method LoadLoop(me: nat, sources: seq<Path>, buffers: seq<array<Byte>>) returns (failedIndex: int, errno: int)
      requires Valid() && me < |plan| && threads[me].k == 0 && threads[me].phase == Begin && threads[me].failed == 0
      requires |sources| == |buffers| == |plan[me]|
      requires forall j | 0 <= j < |sources| :: plan[me][j] == Load(sources[j], buffers[j].Length)
      requires forall j | 0 <= j < |sources| :: threads[me].bufs[j] == buffers[j][..]
      requires forall j, l | 0 <= j < l < |buffers| :: buffers[j] != buffers[l]
      modifies this`disk, this`threads, this`moves, this`errors, set j | 0 <= j < |buffers| :: buffers[j]
      ensures failedIndex < 0 ==> failedIndex == -1 && errno == 0 && errors == old(errors)
      ensures 0 <= failedIndex && errors == old(errors) ==> errno == EIO
      ensures errors == old(errors) || errors == old(errors) + [errno]
      ensures Valid() && Halted(plan[me], threads[me]) && threads[me].k <= |sources|
      ensures failedIndex < 0 ==> threads[me].k == |sources| && threads[me].failed == 0
      ensures 0 <= failedIndex ==> threads[me].k == failedIndex && threads[me].failed == errno != 0
      ensures |threads[me].bufs| == |buffers| && forall j | 0 <= j < |buffers| :: threads[me].bufs[j] == buffers[j][..]
      ensures forall j | threads[me].k < j < |buffers| :: buffers[j][..] == old(buffers[j][..])
    {
      failedIndex, errno := -1, 0;
      var i := 0;
      while i < |sources|
        invariant Valid() && 0 <= i <= |sources| && threads[me].k == i && threads[me].phase == Begin
        invariant threads[me].failed == 0
        invariant failedIndex == -1 && errno == 0 && errors == old(errors)
        invariant |threads[me].bufs| == |buffers|
        invariant forall j | 0 <= j < |buffers| :: threads[me].bufs[j] == buffers[j][..]
        invariant forall j | i <= j < |buffers| :: buffers[j][..] == old(buffers[j][..])
      {
        var err, _ := LoadBlock(me, sources[i], buffers[i]);
        if err != 0 {
          failedIndex, errno := i, err;
          break;
        }
        i := i + 1;
      }
    }

    /** Load a batch, one call after the other, up to the first that fails; `failedIndex` is then the number of blocks
        loaded. Those are complete, and the buffers behind the failed one are as they were. */
    method BatchLoad(me: nat, sources: seq<Path>, buffers: seq<array<Byte>>, objects: seq<nat>)
      returns (ok: bool, failedIndex: int, errno: int)
      requires Valid() && me < |plan| && threads[me].k == 0 && threads[me].phase == Begin && threads[me].failed == 0
      requires |sources| == |buffers| == |objects| == |plan[me]|
      requires forall j | 0 <= j < |sources| :: plan[me][j] == Load(sources[j], buffers[j].Length)
      requires forall j | 0 <= j < |sources| :: threads[me].bufs[j] == buffers[j][..]
      requires forall j, l | 0 <= j < l < |buffers| :: buffers[j] != buffers[l]
      modifies this, set j | 0 <= j < |buffers| :: buffers[j]
      ensures Valid() && views == old(views) && threads[me].k <= |plan[me]|
      ensures ok <==> denied == old(denied)
      ensures !ok ==> disk == old(disk) && threads == old(threads)
      ensures ok ==> Halted(plan[me], threads[me])
      ensures failedIndex < 0 ==> failedIndex == -1 && errno == 0
      ensures ok && failedIndex < 0 ==> threads[me].k == |sources| && threads[me].failed == 0
      ensures ok && 0 <= failedIndex ==> threads[me].k == failedIndex && threads[me].failed == errno != 0
      ensures ok && failedIndex < 0 ==> errors == old(errors)
      ensures ok && 0 <= failedIndex ==>
                errors == old(errors) + [errno] || (errors == old(errors) && errno == EIO)
      ensures ok ==> forall j | 0 <= j < threads[me].k :: Loaded(plan, d0, plan[me][j], buffers[j][..])
      ensures ok ==> forall j | 0 <= j < threads[me].k && SizesMatch(plan, d0, sources[j]) ::
              Known(plan, d0, sources[j], buffers[j][..])
      ensures forall j | threads[me].k < j < |buffers| :: buffers[j][..] == old(buffers[j][..])
    {
      failedIndex, errno := -1, 0;
      ok := ExtractBuffers(objects);
      if !ok {
        return;
      }
      failedIndex, errno := LoadLoop(me, sources, buffers);
      ReleaseBuffers(objects, old(views));
      LoadedSoFar(plan, d0, blanks, moves, me, threads[me]);
    }
  }
}
