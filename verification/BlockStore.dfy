/** The on-disk block store: any number of threads, each running a batch of store or load calls, over one file system.
    Every system call is one step (a write is several, one for each piece that reaches the file), and steps of different
    threads interleave in any order. */
module BlockStore {
  import opened Arithmetic

  type Path = string
  newtype Byte = x: int | 0 <= x < 256
  type Bytes = seq<Byte>

  const EIO: int := 5

  /** `names` maps paths to inodes, `data` inodes to contents. An inode without a name can still be open. */
  datatype Disk = Disk(names: map<Path, nat>, data: map<nat, Bytes>)

  datatype Op = Store(tmp: Path, dest: Path, block: Bytes) | Load(source: Path, size: nat)

  /** Where a thread is in its current call. */
  datatype Phase =
    | Begin
    | Create
    | Write(fd: nat, done: nat)
    | Close(fd: nat)
    | Rename(fd: nat)
    | Undo(err: int)
    | Read(fd: nat)
    | Unlink

  /** Call `k` of the batch is current; `failed` is the error that ended the batch, or 0. `bufs` holds the loaders'
      destination buffers. */
  datatype Thread = Thread(k: nat, phase: Phase, bufs: seq<Bytes>, failed: int)

  /** What the operating system decides in a step: success or an error, and a number (of an inode, of bytes). */
  datatype Outcome = Outcome(err: int, n: nat)

  datatype System = System(disk: Disk, threads: seq<Thread>)

  type Plan = seq<seq<Op>>

  predicate Halted(ops: seq<Op>, t: Thread) { t.failed != 0 || |ops| <= t.k }

  function NextOp(t: Thread): Thread { t.(k := t.k + 1, phase := Begin) }
  function Fail(t: Thread, err: int): Thread { t.(phase := Begin, failed := if err == 0 then EIO else err) }

  // ----- the steps of one call -----

  function StoreStep(op: Op, disk: Disk, t: Thread, c: Outcome): (Disk, Thread)
    requires op.Store?
  {
    match t.phase
    case Begin =>  // access
      (disk, if c.err == 0 && op.dest in disk.names then NextOp(t) else t.(phase := Create))
    case Create =>  // parent directories, then open(O_CREAT | O_EXCL)
      if c.err != 0 || op.tmp in disk.names || c.n in disk.data then (disk, Fail(t, c.err))
      else (Disk(disk.names[op.tmp := c.n], disk.data[c.n := []]), t.(phase := Write(c.n, 0)))
    case Write(fd, done) =>  // another piece arrives, or the call returns
      if c.err == 0 && done < c.n <= |op.block| then
        (disk.(data := disk.data[fd := op.block[..c.n]]), t.(phase := Write(fd, c.n)))
      else if c.err == 0 && done == |op.block| then (disk, t.(phase := Close(fd)))
      else (disk, t.(phase := Undo(if c.err == 0 then EIO else c.err)))
    case Close(fd) =>
      (disk, t.(phase := if c.err == 0 then Rename(fd) else Undo(c.err)))
    case Rename(fd) =>
      if c.err == 0 then (disk.(names := (disk.names - {op.tmp})[op.dest := fd]), NextOp(t))
      else (disk, t.(phase := Undo(c.err)))
    case Undo(err) =>  // unlink
      (disk.(names := disk.names - {op.tmp}), Fail(t, err))
    case _ => (disk, t)
  }

  /** `buf` with its first bytes overwritten by those of `data`. */
  function Overwritten(buf: Bytes, data: Bytes, n: nat): (r: Bytes)
    requires n <= |buf| && n <= |data|
    ensures |r| == |buf|
  {
    data[..n] + buf[n..]
  }

  function LoadStep(op: Op, disk: Disk, t: Thread, c: Outcome): (Disk, Thread)
    requires op.Load? && t.k < |t.bufs| && |t.bufs[t.k]| == op.size
  {
    match t.phase
    case Begin =>  // open
      (disk, if c.err == 0 && op.source in disk.names then t.(phase := Read(disk.names[op.source])) else Fail(t, c.err))
    case Read(fd) =>
      if fd !in disk.data then (disk, t) else
      var data := disk.data[fd];
      var n := Min(|data|, op.size);
      var got := if c.err == 0 then n else Min(c.n, n);
      var t1 := t.(bufs := t.bufs[t.k := Overwritten(t.bufs[t.k], data, got)]);
      (disk, if c.err != 0 then Fail(t1, c.err) else if n < op.size then t1.(phase := Unlink) else NextOp(t1))
    case Unlink =>
      (disk.(names := disk.names - {op.source}), Fail(t, EIO))
    case _ => (disk, t)
  }

  predicate Shaped(ops: seq<Op>, t: Thread) {
    |t.bufs| == |ops| && forall j | 0 <= j < |ops| && ops[j].Load? :: |t.bufs[j]| == ops[j].size
  }

  function Step(ops: seq<Op>, disk: Disk, t: Thread, c: Outcome): (Disk, Thread)
    requires Shaped(ops, t)
  {
    if Halted(ops, t) then (disk, t)
    else if ops[t.k].Store? then StoreStep(ops[t.k], disk, t, c)
    else LoadStep(ops[t.k], disk, t, c)
  }

  predicate SystemShaped(plan: Plan, s: System) {
    |s.threads| == |plan| && forall i | 0 <= i < |plan| :: Shaped(plan[i], s.threads[i])
  }

  function Advance(plan: Plan, s: System, i: nat, c: Outcome): (s': System)
    requires SystemShaped(plan, s)
    ensures SystemShaped(plan, s')
  {
    if i < |plan| then
      var (disk, t) := Step(plan[i], s.disk, s.threads[i], c);
      System(disk, s.threads[i := t])
    else s
  }

  datatype Move = Move(thread: nat, outcome: Outcome)

  function Run(plan: Plan, s: System, moves: seq<Move>): (s': System)
    requires SystemShaped(plan, s)
    ensures SystemShaped(plan, s')
    decreases |moves|
  {
    if moves == [] then s
    else
      var last := moves[|moves| - 1];
      Advance(plan, Run(plan, s, moves[..|moves| - 1]), last.thread, last.outcome)
  }

  lemma {:induction false} RunNext(plan: Plan, s: System, moves: seq<Move>, m: Move)
    requires SystemShaped(plan, s)
    ensures Run(plan, s, moves + [m]) == Advance(plan, Run(plan, s, moves), m.thread, m.outcome)
  {
    assert (moves + [m])[..|moves|] == moves;
  }

  // ----- who may use which path -----

  ghost predicate TempAt(plan: Plan, i: nat, k: nat, p: Path) {
    i < |plan| && k < |plan[i]| && plan[i][k].Store? && plan[i][k].tmp == p
  }

  ghost predicate IsTemp(plan: Plan, p: Path) { exists i, k :: TempAt(plan, i, k, p) }

  /** Every temporary path belongs to one call, and no destination or source is one. */
  ghost predicate PlanOk(plan: Plan) {
    && (forall i, k, i', k', p {:trigger TempAt(plan, i, k, p), TempAt(plan, i', k', p)} |
          TempAt(plan, i, k, p) && TempAt(plan, i', k', p) :: i == i' && k == k')
    && (forall i, k | 0 <= i < |plan| && 0 <= k < |plan[i]| ::
          !IsTemp(plan, if plan[i][k].Store? then plan[i][k].dest else plan[i][k].source))
  }

  ghost predicate StoredAt(plan: Plan, i: nat, k: nat, p: Path, b: Bytes) {
    i < |plan| && k < |plan[i]| && plan[i][k].Store? && plan[i][k].dest == p && plan[i][k].block == b
  }

  /** `b` is the whole buffer of some store call for `p`, or what `p` held in the beginning. */
  ghost predicate Known(plan: Plan, d0: Disk, p: Path, b: Bytes) {
    || (exists i, k :: StoredAt(plan, i, k, p, b))
    || (p in d0.names && d0.names[p] in d0.data && d0.data[d0.names[p]] == b)
  }
}
