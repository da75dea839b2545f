/** What every interleaving of storers and loaders keeps true. */
module BlockSafety {
  import opened BlockStore

  // ----- the invariant -----

  /** The file being written by this thread, if any. */
  ghost predicate Mid(ops: seq<Op>, t: Thread) {
    && !Halted(ops, t) && ops[t.k].Store?
    && (t.phase.Write? || t.phase.Close? || t.phase.Rename? || t.phase.Undo?)
  }

  ghost predicate HasTemp(ops: seq<Op>, t: Thread, p: Path) { Mid(ops, t) && ops[t.k].tmp == p }

  ghost predicate TempOwned(plan: Plan, threads: seq<Thread>, i: nat, p: Path) {
    i < |plan| == |threads| && HasTemp(plan[i], threads[i], p)
  }

  /** A name: a destination or source holds a whole block; a temporary file is that of a thread at work on it, or was
      there in the beginning. */
  ghost predicate NameOk(plan: Plan, d0: Disk, s: System, p: Path) {
    && p in s.disk.names && s.disk.names[p] in s.disk.data
    && (!IsTemp(plan, p) ==> Known(plan, d0, p, s.disk.data[s.disk.names[p]]))
    && (IsTemp(plan, p) ==>
          (p in d0.names && s.disk.names[p] == d0.names[p]) || exists i :: TempOwned(plan, s.threads, i, p))
  }

  ghost predicate TwoNames(disk: Disk, p: Path, q: Path) {
    p in disk.names && q in disk.names && disk.names[p] != disk.names[q]
  }

  ghost predicate OpenForWrite(disk: Disk, op: Op, fd: nat, b: Bytes)
    requires op.Store?
  {
    op.tmp in disk.names && disk.names[op.tmp] == fd && fd in disk.data && disk.data[fd] == b
  }

  /** No temporary path names `fd`: nobody writes to it. */
  ghost predicate Sealed(plan: Plan, disk: Disk, fd: nat) {
    forall p | p in disk.names && IsTemp(plan, p) :: disk.names[p] != fd
  }

  ghost predicate TooShort(plan: Plan, d0: Disk, p: Path, size: nat) {
    exists b :: Known(plan, d0, p, b) && |b| < size
  }

  ghost predicate PhaseOk(plan: Plan, d0: Disk, disk: Disk, op: Op, phase: Phase) {
    match phase
    case Begin => true
    case Create => op.Store?
    case Write(fd, done) =>
      op.Store? && done <= |op.block| && OpenForWrite(disk, op, fd, op.block[..done]) && op.tmp !in d0.names
    case Close(fd) => op.Store? && OpenForWrite(disk, op, fd, op.block) && op.tmp !in d0.names
    case Rename(fd) => op.Store? && OpenForWrite(disk, op, fd, op.block) && op.tmp !in d0.names
    case Undo(err) => op.Store? && op.tmp in disk.names && op.tmp !in d0.names && err != 0
    case Read(fd) => op.Load? && fd in disk.data && Known(plan, d0, op.source, disk.data[fd]) && Sealed(plan, disk, fd)
    case Unlink => op.Load? && TooShort(plan, d0, op.source, op.size)
  }

  /** `buf` is the beginning of a whole block. */
  ghost predicate Loaded(plan: Plan, d0: Disk, op: Op, buf: Bytes)
    requires op.Load?
  {
    exists b :: Known(plan, d0, op.source, b) && op.size <= |b| && buf == b[..op.size]
  }

  ghost predicate BufOk(plan: Plan, d0: Disk, op: Op, j: nat, k: nat, buf: Bytes, blank: Bytes) {
    && (op.Load? && j < k ==> Loaded(plan, d0, op, buf))
    && (k < j || op.Store? ==> buf == blank)
  }

  /** Loads before `k` are complete, buffers behind it untouched. */
  ghost predicate BufsOk(plan: Plan, d0: Disk, ops: seq<Op>, t: Thread, blank: seq<Bytes>) {
    && Shaped(ops, t) && |blank| == |ops|
    && forall j {:trigger BufOk(plan, d0, ops[j], j, t.k, t.bufs[j], blank[j])} | 0 <= j < |ops| ::
         BufOk(plan, d0, ops[j], j, t.k, t.bufs[j], blank[j])
  }

  ghost predicate ThreadOk(plan: Plan, d0: Disk, disk: Disk, ops: seq<Op>, t: Thread, blank: seq<Bytes>) {
    && t.k <= |ops| && BufsOk(plan, d0, ops, t, blank)
    && (Halted(ops, t) ==> t.phase.Begin?)
    && (!Halted(ops, t) ==> PhaseOk(plan, d0, disk, ops[t.k], t.phase))
  }

  ghost predicate Inv(plan: Plan, d0: Disk, blanks: seq<seq<Bytes>>, s: System) {
    && |s.threads| == |plan| == |blanks|
    && (forall p {:trigger NameOk(plan, d0, s, p)} | p in s.disk.names :: NameOk(plan, d0, s, p))
    && (forall p, q {:trigger TwoNames(s.disk, p, q)} | p in s.disk.names && q in s.disk.names && p != q ::
          TwoNames(s.disk, p, q))
    && (forall p {:trigger IsTemp(plan, p)} | p in d0.names && IsTemp(plan, p) ::
          p in s.disk.names && s.disk.names[p] == d0.names[p])
    && (forall i {:trigger ThreadOk(plan, d0, s.disk, plan[i], s.threads[i], blanks[i])} | 0 <= i < |plan| ::
          ThreadOk(plan, d0, s.disk, plan[i], s.threads[i], blanks[i]))
  }

  // ----- a step as the other threads see it -----

  function Mine(op: Op): Path { if op.Store? then op.tmp else op.source }

  ghost predicate TempKept(disk: Disk, disk': Disk, q: Path) {
    (q in disk'.names <==> q in disk.names) && (q in disk.names ==> disk'.names[q] == disk.names[q])
  }

  ghost predicate DataKept(plan: Plan, disk: Disk, disk': Disk, mine: Path, fd: nat) {
    && fd in disk.data && fd in disk'.data
    && (disk'.data[fd] == disk.data[fd] || (IsTemp(plan, mine) && mine in disk.names && disk.names[mine] == fd))
  }

  /** Only the thread's own temporary path changes hands, and only the file there is written to. */
  ghost predicate Rely(plan: Plan, disk: Disk, disk': Disk, mine: Path) {
    && (forall q {:trigger TempKept(disk, disk', q)} | IsTemp(plan, q) && q != mine :: TempKept(disk, disk', q))
    && (forall fd {:trigger DataKept(plan, disk, disk', mine, fd)} | fd in disk.data ::
          DataKept(plan, disk, disk', mine, fd))
    && (IsTemp(plan, mine) && mine in disk'.names ==>
          (mine in disk.names && disk'.names[mine] == disk.names[mine]) || disk'.names[mine] !in disk.data)
  }

  lemma {:induction false} StoreRely(plan: Plan, disk: Disk, op: Op, t: Thread, c: Outcome, d0: Disk)
    requires op.Store? && IsTemp(plan, op.tmp) && !IsTemp(plan, op.dest) && PhaseOk(plan, d0, disk, op, t.phase)
    ensures Rely(plan, disk, StoreStep(op, disk, t, c).0, op.tmp)
  {
    var disk' := StoreStep(op, disk, t, c).0;
    forall q | IsTemp(plan, q) && q != op.tmp ensures TempKept(disk, disk', q) {}
    forall fd | fd in disk.data ensures DataKept(plan, disk, disk', op.tmp, fd) {}
  }

  lemma {:induction false} LoadRely(plan: Plan, disk: Disk, op: Op, t: Thread, c: Outcome)
    requires op.Load? && !IsTemp(plan, op.source) && t.k < |t.bufs| && |t.bufs[t.k]| == op.size
    ensures Rely(plan, disk, LoadStep(op, disk, t, c).0, op.source)
  {
    var disk' := LoadStep(op, disk, t, c).0;
    forall q | IsTemp(plan, q) && q != op.source ensures TempKept(disk, disk', q) {}
    forall fd | fd in disk.data ensures DataKept(plan, disk, disk', op.source, fd) {}
  }

  /** Another thread's phase survives a step. */
  lemma {:induction false} OtherPhase(plan: Plan, d0: Disk, disk: Disk, disk': Disk, mine: Path, op: Op, phase: Phase)
    requires Rely(plan, disk, disk', mine) && PhaseOk(plan, d0, disk, op, phase)
    requires op.Store? ==> IsTemp(plan, op.tmp) && op.tmp != mine
    requires forall p, q {:trigger TwoNames(disk, p, q)} | p in disk.names && q in disk.names && p != q ::
             TwoNames(disk, p, q)
    ensures PhaseOk(plan, d0, disk', op, phase)
  {
    if op.Store? {
      assert TempKept(disk, disk', op.tmp);
      if op.tmp in disk.names && disk.names[op.tmp] in disk.data {
        assert DataKept(plan, disk, disk', mine, disk.names[op.tmp]);
        assert mine in disk.names ==> TwoNames(disk, mine, op.tmp);
      }
    } else if phase.Read? {
      assert DataKept(plan, disk, disk', mine, phase.fd);
      forall p | p in disk'.names && IsTemp(plan, p) ensures disk'.names[p] != phase.fd {
        assert p != mine ==> TempKept(disk, disk', p);
      }
    }
  }

  // ----- a step as the thread itself sees it -----

  lemma {:induction false} BufsKept(plan: Plan, d0: Disk, ops: seq<Op>, t: Thread, t': Thread, blank: seq<Bytes>)
    requires BufsOk(plan, d0, ops, t, blank) && t.k < |ops| && Shaped(ops, t')
    requires forall j | 0 <= j < |ops| && j != t.k :: t'.bufs[j] == t.bufs[j]
    requires ops[t.k].Store? ==> t'.bufs[t.k] == t.bufs[t.k]
    requires t'.k == t.k || (t'.k == t.k + 1 && (ops[t.k].Load? ==> Loaded(plan, d0, ops[t.k], t'.bufs[t.k])))
    ensures BufsOk(plan, d0, ops, t', blank)
  {
    forall j | 0 <= j < |ops| ensures BufOk(plan, d0, ops[j], j, t'.k, t'.bufs[j], blank[j]) {
      assert BufOk(plan, d0, ops[j], j, t.k, t.bufs[j], blank[j]);
    }
  }

  lemma {:induction false} StoreSelf(plan: Plan, d0: Disk, disk: Disk, ops: seq<Op>, t: Thread, c: Outcome,
                                     blank: seq<Bytes>)
    requires ThreadOk(plan, d0, disk, ops, t, blank) && !Halted(ops, t) && ops[t.k].Store?
    requires ops[t.k].tmp in d0.names ==> ops[t.k].tmp in disk.names
    ensures var (disk', t') := StoreStep(ops[t.k], disk, t, c); ThreadOk(plan, d0, disk', ops, t', blank)
  {
    var (disk', t') := StoreStep(ops[t.k], disk, t, c);
    BufsKept(plan, d0, ops, t, t', blank);
    assert t.phase.Write? ==> ops[t.k].block[..|ops[t.k].block|] == ops[t.k].block;
  }

  lemma {:induction false} LoadSelf(plan: Plan, d0: Disk, disk: Disk, ops: seq<Op>, t: Thread, c: Outcome,
                                    blank: seq<Bytes>)
    requires ThreadOk(plan, d0, disk, ops, t, blank) && !Halted(ops, t) && ops[t.k].Load?
    requires var p := ops[t.k].source; p in disk.names ==>
               && disk.names[p] in disk.data && Known(plan, d0, p, disk.data[disk.names[p]])
               && Sealed(plan, disk, disk.names[p])
    ensures var (disk', t') := LoadStep(ops[t.k], disk, t, c); ThreadOk(plan, d0, disk', ops, t', blank)
  {
    var op := ops[t.k];
    var (disk', t') := LoadStep(op, disk, t, c);
    if t'.k == t.k + 1 {
      var data := disk.data[t.phase.fd];
      assert t'.bufs[t.k] == data[..op.size];
      assert Loaded(plan, d0, op, t'.bufs[t.k]);
    }
    BufsKept(plan, d0, ops, t, t', blank);
  }

  // ----- names -----

  /** A name that the step leaves alone. */
  lemma {:induction false} NameKept(plan: Plan, d0: Disk, s: System, s': System, i: nat, p: Path)
    requires NameOk(plan, d0, s, p) && i < |plan| == |s.threads| == |s'.threads|
    requires s'.threads == s.threads[i := s'.threads[i]]
    requires TempKept(s.disk, s'.disk, p) && s.disk.names[p] in s'.disk.data
    requires !IsTemp(plan, p) ==> s'.disk.data[s.disk.names[p]] == s.disk.data[s.disk.names[p]]
    requires HasTemp(plan[i], s.threads[i], p) ==> HasTemp(plan[i], s'.threads[i], p)
    ensures NameOk(plan, d0, s', p)
  {
    if IsTemp(plan, p) && exists j :: TempOwned(plan, s.threads, j, p) {
      var j :| TempOwned(plan, s.threads, j, p);
      assert TempOwned(plan, s'.threads, j, p);
    }
  }

  lemma {:induction false} StoreName(plan: Plan, d0: Disk, blanks: seq<seq<Bytes>>, s: System, i: nat, c: Outcome,
                                     p: Path)
    requires PlanOk(plan) && Inv(plan, d0, blanks, s) && SystemShaped(plan, s)
    requires i < |plan| && !Halted(plan[i], s.threads[i]) && plan[i][s.threads[i].k].Store?
    requires p in Advance(plan, s, i, c).disk.names
    ensures NameOk(plan, d0, Advance(plan, s, i, c), p)
  {
    var t, s' := s.threads[i], Advance(plan, s, i, c);
    var op := plan[i][t.k];
    assert ThreadOk(plan, d0, s.disk, plan[i], t, blanks[i]);
    assert TempAt(plan, i, t.k, op.tmp) && !IsTemp(plan, op.dest);
    if p == op.tmp {
      assert TempOwned(plan, s'.threads, i, p) || NameOk(plan, d0, s, p);
      if Mid(plan[i], s'.threads[i]) { assert TempOwned(plan, s'.threads, i, p); }
      else { NameKept(plan, d0, s, s', i, p); }
    } else if p == op.dest && t.phase.Rename? && c.err == 0 {
      assert StoredAt(plan, i, t.k, p, op.block);
    } else {
      assert NameOk(plan, d0, s, p);
      assert op.tmp in s.disk.names ==> TwoNames(s.disk, p, op.tmp);
      NameKept(plan, d0, s, s', i, p);
    }
  }

  lemma {:induction false} LoadName(plan: Plan, d0: Disk, blanks: seq<seq<Bytes>>, s: System, i: nat, c: Outcome,
                                    p: Path)
    requires PlanOk(plan) && Inv(plan, d0, blanks, s) && SystemShaped(plan, s)
    requires i < |plan| && !Halted(plan[i], s.threads[i]) && plan[i][s.threads[i].k].Load?
    requires p in Advance(plan, s, i, c).disk.names
    ensures NameOk(plan, d0, Advance(plan, s, i, c), p)
  {
    assert NameOk(plan, d0, s, p);
    NameKept(plan, d0, s, Advance(plan, s, i, c), i, p);
  }

  lemma {:induction false} NamesDiffer(plan: Plan, d0: Disk, blanks: seq<seq<Bytes>>, s: System, i: nat, c: Outcome,
                                       p: Path, q: Path)
    requires Inv(plan, d0, blanks, s) && SystemShaped(plan, s) && i < |plan| && !Halted(plan[i], s.threads[i])
    requires var d := Advance(plan, s, i, c).disk; p in d.names && q in d.names && p != q
    ensures TwoNames(Advance(plan, s, i, c).disk, p, q)
  {
    var t := s.threads[i];
    var op := plan[i][t.k];
    assert ThreadOk(plan, d0, s.disk, plan[i], t, blanks[i]);
    assert p in s.disk.names ==> NameOk(plan, d0, s, p);
    assert q in s.disk.names ==> NameOk(plan, d0, s, q);
    assert p in s.disk.names && q in s.disk.names ==> TwoNames(s.disk, p, q);
    if op.Store? && op.tmp in s.disk.names {
      assert p in s.disk.names && p != op.tmp ==> TwoNames(s.disk, p, op.tmp);
      assert q in s.disk.names && q != op.tmp ==> TwoNames(s.disk, q, op.tmp);
    }
  }

  /** Temporary files that were there in the beginning are never touched. */
  lemma {:induction false} LitterKept(plan: Plan, d0: Disk, blanks: seq<seq<Bytes>>, s: System, i: nat, c: Outcome,
                                      p: Path)
    requires PlanOk(plan) && Inv(plan, d0, blanks, s) && SystemShaped(plan, s) && i < |plan|
    requires !Halted(plan[i], s.threads[i])
    requires p in d0.names && IsTemp(plan, p)
    ensures TempKept(s.disk, Advance(plan, s, i, c).disk, p)
  {
    assert ThreadOk(plan, d0, s.disk, plan[i], s.threads[i], blanks[i]);
    var op := plan[i][s.threads[i].k];
    assert !IsTemp(plan, if op.Store? then op.dest else op.source);
  }

  lemma {:induction false} StepRely(plan: Plan, d0: Disk, blanks: seq<seq<Bytes>>, s: System, i: nat, c: Outcome)
    requires PlanOk(plan) && Inv(plan, d0, blanks, s) && SystemShaped(plan, s) && i < |plan|
    requires !Halted(plan[i], s.threads[i])
    ensures Rely(plan, s.disk, Advance(plan, s, i, c).disk, Mine(plan[i][s.threads[i].k]))
  {
    var t := s.threads[i];
    var op := plan[i][t.k];
    assert ThreadOk(plan, d0, s.disk, plan[i], t, blanks[i]);
    if op.Store? {
      assert TempAt(plan, i, t.k, op.tmp) && !IsTemp(plan, op.dest);
      StoreRely(plan, s.disk, op, t, c, d0);
    } else {
      assert !IsTemp(plan, op.source);
      LoadRely(plan, s.disk, op, t, c);
    }
  }

  lemma {:induction false} StepSelf(plan: Plan, d0: Disk, blanks: seq<seq<Bytes>>, s: System, i: nat, c: Outcome)
    requires PlanOk(plan) && Inv(plan, d0, blanks, s) && SystemShaped(plan, s) && i < |plan|
    requires !Halted(plan[i], s.threads[i])
    ensures var s' := Advance(plan, s, i, c); ThreadOk(plan, d0, s'.disk, plan[i], s'.threads[i], blanks[i])
  {
    var t := s.threads[i];
    var op := plan[i][t.k];
    assert ThreadOk(plan, d0, s.disk, plan[i], t, blanks[i]);
    if op.Store? {
      assert TempAt(plan, i, t.k, op.tmp) && IsTemp(plan, op.tmp);
      StoreSelf(plan, d0, s.disk, plan[i], t, c, blanks[i]);
    } else {
      var p := op.source;
      assert !IsTemp(plan, p);
      if p in s.disk.names {
        assert NameOk(plan, d0, s, p);
        forall q | q in s.disk.names && IsTemp(plan, q) ensures s.disk.names[q] != s.disk.names[p] {
          assert TwoNames(s.disk, p, q);
        }
      }
      LoadSelf(plan, d0, s.disk, plan[i], t, c, blanks[i]);
    }
  }

  lemma {:induction false} StepOther(plan: Plan, d0: Disk, blanks: seq<seq<Bytes>>, s: System, i: nat, c: Outcome,
                                     j: nat)
    requires PlanOk(plan) && Inv(plan, d0, blanks, s) && SystemShaped(plan, s) && i < |plan|
    requires !Halted(plan[i], s.threads[i])
    requires j < |plan| && j != i
    ensures var s' := Advance(plan, s, i, c); ThreadOk(plan, d0, s'.disk, plan[j], s'.threads[j], blanks[j])
  {
    var t, u := s.threads[i], s.threads[j];
    assert ThreadOk(plan, d0, s.disk, plan[j], u, blanks[j]);
    StepRely(plan, d0, blanks, s, i, c);
    var op := plan[i][t.k];
    assert op.Store? ==> TempAt(plan, i, t.k, op.tmp);
    assert op.Load? ==> !IsTemp(plan, op.source);
    if !Halted(plan[j], u) {
      assert plan[j][u.k].Store? ==> TempAt(plan, j, u.k, plan[j][u.k].tmp);
      OtherPhase(plan, d0, s.disk, Advance(plan, s, i, c).disk, Mine(op), plan[j][u.k], u.phase);
    }
  }

  /** Every step of every thread keeps the invariant, whatever the operating system decides. */
  lemma {:induction false} AdvanceInv(plan: Plan, d0: Disk, blanks: seq<seq<Bytes>>, s: System, i: nat, c: Outcome)
    requires PlanOk(plan) && Inv(plan, d0, blanks, s) && SystemShaped(plan, s)
    ensures Inv(plan, d0, blanks, Advance(plan, s, i, c))
  {
    var s' := Advance(plan, s, i, c);
    if i < |plan| && !Halted(plan[i], s.threads[i]) {
      forall p | p in s'.disk.names ensures NameOk(plan, d0, s', p) {
        if plan[i][s.threads[i].k].Store? {
          StoreName(plan, d0, blanks, s, i, c, p);
        } else {
          LoadName(plan, d0, blanks, s, i, c, p);
        }
      }
      forall p, q | p in s'.disk.names && q in s'.disk.names && p != q ensures TwoNames(s'.disk, p, q) {
        NamesDiffer(plan, d0, blanks, s, i, c, p, q);
      }
      forall p | p in d0.names && IsTemp(plan, p) ensures p in s'.disk.names && s'.disk.names[p] == d0.names[p] {
        LitterKept(plan, d0, blanks, s, i, c, p);
      }
      forall j | 0 <= j < |plan| ensures ThreadOk(plan, d0, s'.disk, plan[j], s'.threads[j], blanks[j]) {
        if j == i { StepSelf(plan, d0, blanks, s, i, c); } else { StepOther(plan, d0, blanks, s, i, c, j); }
      }
    } else {
      assert s' == s;
    }
  }

  // ----- every interleaving -----

  /** A disk in order: every name has an inode of its own. */
  ghost predicate DiskOk(d: Disk) {
    && (forall p | p in d.names :: d.names[p] in d.data)
    && (forall p, q {:trigger TwoNames(d, p, q)} | p in d.names && q in d.names && p != q :: TwoNames(d, p, q))
  }

  function Started(blanks: seq<seq<Bytes>>): seq<Thread> {
    seq(|blanks|, i requires 0 <= i < |blanks| => Thread(0, Begin, blanks[i], 0))
  }

  ghost predicate InitOk(plan: Plan, d0: Disk, blanks: seq<seq<Bytes>>) {
    PlanOk(plan) && DiskOk(d0) && SystemShaped(plan, System(d0, Started(blanks)))
  }

  lemma {:induction false} InitInv(plan: Plan, d0: Disk, blanks: seq<seq<Bytes>>)
    requires InitOk(plan, d0, blanks)
    ensures Inv(plan, d0, blanks, System(d0, Started(blanks)))
  {
    var s := System(d0, Started(blanks));
    forall p | p in d0.names ensures NameOk(plan, d0, s, p) {}
    forall i | 0 <= i < |plan| ensures ThreadOk(plan, d0, s.disk, plan[i], s.threads[i], blanks[i]) {
      forall j | 0 <= j < |plan[i]| ensures BufOk(plan, d0, plan[i][j], j, 0, s.threads[i].bufs[j], blanks[i][j]) {}
    }
  }

  lemma {:induction false} RunInv(plan: Plan, d0: Disk, blanks: seq<seq<Bytes>>, moves: seq<Move>)
    requires InitOk(plan, d0, blanks)
    ensures Inv(plan, d0, blanks, Run(plan, System(d0, Started(blanks)), moves))
    decreases |moves|
  {
    if moves == [] {
      InitInv(plan, d0, blanks);
    } else {
      var last := moves[|moves| - 1];
      RunInv(plan, d0, blanks, moves[..|moves| - 1]);
      var s := Run(plan, System(d0, Started(blanks)), moves[..|moves| - 1]);
      AdvanceInv(plan, d0, blanks, s, last.thread, last.outcome);
    }
  }

  function Ran(plan: Plan, d0: Disk, blanks: seq<seq<Bytes>>, moves: seq<Move>): System
    requires SystemShaped(plan, System(d0, Started(blanks)))
  {
    Run(plan, System(d0, Started(blanks)), moves)
  }

  /** A destination that exists holds the complete buffer of some store call for it, or what it held in the beginning.
      */
  lemma {:induction false} BlocksComplete(plan: Plan, d0: Disk, blanks: seq<seq<Bytes>>, moves: seq<Move>, p: Path)
    requires InitOk(plan, d0, blanks) && p in Ran(plan, d0, blanks, moves).disk.names && !IsTemp(plan, p)
    ensures var d := Ran(plan, d0, blanks, moves).disk; d.names[p] in d.data && Known(plan, d0, p, d.data[d.names[p]])
  {
    RunInv(plan, d0, blanks, moves);
    assert NameOk(plan, d0, Ran(plan, d0, blanks, moves), p);
  }

  ghost predicate LoadAt(plan: Plan, i: nat, k: nat, p: Path) {
    i < |plan| && k < |plan[i]| && plan[i][k].Load? && plan[i][k].source == p
  }

  /** Every load of `p` asks for as many bytes as every block stored there has. */
  ghost predicate SizesMatch(plan: Plan, d0: Disk, p: Path) {
    forall i: nat, k: nat, b {:trigger LoadAt(plan, i, k, p), Known(plan, d0, p, b)} |
      LoadAt(plan, i, k, p) && Known(plan, d0, p, b) ::
      |b| == plan[i][k].size
  }

  /** Call `j` of a batch of loads: if the batch has got past it, its buffer holds one complete block; if the batch has
      not reached it (also when it failed before), its buffer is as it was. */
  lemma {:induction false} LoadsComplete(plan: Plan, d0: Disk, blanks: seq<seq<Bytes>>, moves: seq<Move>, i: nat,
                                         j: nat)
    requires InitOk(plan, d0, blanks) && i < |plan| && j < |plan[i]| && plan[i][j].Load?
    ensures var t := Ran(plan, d0, blanks, moves).threads[i];
            && (j < t.k ==> Loaded(plan, d0, plan[i][j], t.bufs[j]))
            && (j < t.k && SizesMatch(plan, d0, plan[i][j].source) ==> Known(plan, d0, plan[i][j].source, t.bufs[j]))
            && (t.k < j ==> t.bufs[j] == blanks[i][j])
  {
    RunInv(plan, d0, blanks, moves);
    var s := Ran(plan, d0, blanks, moves);
    var t, op := s.threads[i], plan[i][j];
    assert ThreadOk(plan, d0, s.disk, plan[i], t, blanks[i]);
    assert BufOk(plan, d0, op, j, t.k, t.bufs[j], blanks[i][j]);
    if j < t.k && SizesMatch(plan, d0, op.source) {
      var b :| Known(plan, d0, op.source, b) && op.size <= |b| && t.bufs[j] == b[..op.size];
      assert LoadAt(plan, i, j, op.source);
      assert b[..op.size] == b;
    }
  }

  // ----- blocks are not deleted -----

  /** No load of `p` asks for more bytes than any block stored there has. */
  ghost predicate NoneShort(plan: Plan, d0: Disk, p: Path) {
    forall i: nat, k: nat, b {:trigger LoadAt(plan, i, k, p), Known(plan, d0, p, b)} |
      LoadAt(plan, i, k, p) && Known(plan, d0, p, b) :: plan[i][k].size <= |b|
  }

  lemma {:induction false} StepKeepsBlock(plan: Plan, d0: Disk, blanks: seq<seq<Bytes>>, s: System, i: nat,
                                          c: Outcome, p: Path)
    requires PlanOk(plan) && Inv(plan, d0, blanks, s) && SystemShaped(plan, s)
    requires NoneShort(plan, d0, p) && !IsTemp(plan, p) && p in s.disk.names
    ensures p in Advance(plan, s, i, c).disk.names
  {
    if i < |plan| && !Halted(plan[i], s.threads[i]) {
      var t := s.threads[i];
      assert ThreadOk(plan, d0, s.disk, plan[i], t, blanks[i]);
      if plan[i][t.k].Store? {
        assert TempAt(plan, i, t.k, plan[i][t.k].tmp);
      } else {
        assert LoadAt(plan, i, t.k, plan[i][t.k].source);
      }
    }
  }

  /** If no load asks for more than a block has, a block once there stays for ever. */
  lemma {:induction false} BlockStays(plan: Plan, d0: Disk, blanks: seq<seq<Bytes>>, moves: seq<Move>,
                                      more: seq<Move>, p: Path)
    requires InitOk(plan, d0, blanks) && NoneShort(plan, d0, p) && !IsTemp(plan, p)
    requires p in Ran(plan, d0, blanks, moves).disk.names
    ensures p in Ran(plan, d0, blanks, moves + more).disk.names
    decreases |more|
  {
    if more == [] {
      assert moves + more == moves;
    } else {
      var n := |more| - 1;
      BlockStays(plan, d0, blanks, moves, more[..n], p);
      RunInv(plan, d0, blanks, moves + more[..n]);
      assert (moves + more)[..|moves| + n] == moves + more[..n];
      StepKeepsBlock(plan, d0, blanks, Ran(plan, d0, blanks, moves + more[..n]), more[n].thread, more[n].outcome, p);
    }
  }

  /** A batch of stores that has got past call `j` has made its destination exist. */
  lemma {:induction false} StoresDone(plan: Plan, d0: Disk, blanks: seq<seq<Bytes>>, moves: seq<Move>, i: nat, j: nat)
    requires InitOk(plan, d0, blanks) && i < |plan| && j < |plan[i]| && plan[i][j].Store?
    requires NoneShort(plan, d0, plan[i][j].dest) && j < Ran(plan, d0, blanks, moves).threads[i].k
    ensures plan[i][j].dest in Ran(plan, d0, blanks, moves).disk.names
    decreases |moves|
  {
    var n, p := |moves| - 1, plan[i][j].dest;
    var s := Ran(plan, d0, blanks, moves[..n]);
    RunInv(plan, d0, blanks, moves[..n]);
    assert ThreadOk(plan, d0, s.disk, plan[i], s.threads[i], blanks[i]);
    assert !IsTemp(plan, p);
    if j < s.threads[i].k {
      StoresDone(plan, d0, blanks, moves[..n], i, j);
      StepKeepsBlock(plan, d0, blanks, s, moves[n].thread, moves[n].outcome, p);
    } else {
      StepDone(plan[i], s.disk, s.threads[i], moves[n].outcome);
    }
  }

  lemma {:induction false} StepDone(ops: seq<Op>, disk: Disk, t: Thread, c: Outcome)
    requires Shaped(ops, t) && t.k < |ops| && Step(ops, disk, t, c).1.k != t.k
    ensures Step(ops, disk, t, c).1.k == t.k + 1
    ensures ops[t.k].Store? ==> ops[t.k].dest in Step(ops, disk, t, c).0.names
  {
  }

  /** A load that finds a block shorter than it asks for deletes it and fails. */
  lemma {:induction false} ShortBlockDeleted(plan: Plan, s: System, i: nat)
    requires SystemShaped(plan, s) && i < |plan| && !Halted(plan[i], s.threads[i])
    requires var t := s.threads[i]; t.phase.Begin? && plan[i][t.k].Load?
    requires var p := plan[i][s.threads[i].k].source;
             && p in s.disk.names && s.disk.names[p] in s.disk.data
             && |s.disk.data[s.disk.names[p]]| < plan[i][s.threads[i].k].size
    ensures var good := Move(i, Outcome(0, 0)); var s' := Run(plan, s, [good, good, good]);
            plan[i][s.threads[i].k].source !in s'.disk.names && s'.threads[i].failed == EIO
  {
    var good := Move(i, Outcome(0, 0));
    assert [good, good, good][..2] == [good, good] && [good, good][..1] == [good] && [good][..0] == [];
    var s1 := Advance(plan, s, i, good.outcome);
    var s2 := Advance(plan, s1, i, good.outcome);
    assert Run(plan, s, [good]) == s1;
    assert Run(plan, s, [good, good]) == s2;
  }

  // ----- what a call does when it is left alone -----

  lemma {:induction false} RunJoin(plan: Plan, s: System, a: seq<Move>, b: seq<Move>)
    requires SystemShaped(plan, s)
    ensures Run(plan, s, a + b) == Run(plan, Run(plan, s, a), b)
    decreases |b|
  {
    if b == [] {
      assert a + b == a;
    } else {
      var n := |b| - 1;
      assert a + b == (a + b[..n]) + [b[n]] && b == b[..n] + [b[n]];
      RunJoin(plan, s, a, b[..n]);
      RunNext(plan, s, a + b[..n], b[n]);
      RunNext(plan, Run(plan, s, a), b[..n], b[n]);
    }
  }

  lemma {:induction false} RunOne(plan: Plan, s: System, m: Move)
    requires SystemShaped(plan, s)
    ensures Run(plan, s, [m]) == Advance(plan, s, m.thread, m.outcome)
  {
    assert [m][..0] == [];
  }

  /** Moves of thread `i` that write the block piece by piece; `ends` are the numbers of bytes that have arrived. */
  function Pieces(i: nat, ends: seq<nat>): seq<Move> {
    seq(|ends|, j requires 0 <= j < |ends| => Move(i, Outcome(0, ends[j])))
  }

  ghost predicate Rising(done: nat, ends: seq<nat>, size: nat) {
    && (forall j | 0 <= j < |ends| :: done < ends[j] <= size)
    && forall j, k | 0 <= j < k < |ends| :: ends[j] < ends[k]
  }

  ghost function LastOf(done: nat, ends: seq<nat>): nat { if ends == [] then done else ends[|ends| - 1] }

  /** Thread `i` is about to begin a store whose destination and temporary file are not there. */
  ghost predicate StoreReady(plan: Plan, s: System, i: nat) {
    && SystemShaped(plan, s) && i < |plan| && !Halted(plan[i], s.threads[i])
    && s.threads[i].phase.Begin? && plan[i][s.threads[i].k].Store?
    && var op := plan[i][s.threads[i].k]; op.dest !in s.disk.names && op.tmp !in s.disk.names && op.tmp != op.dest
  }

  /** The state in the middle of a store: the first bytes of the block are in file `fd`, under the temporary name. */
  ghost function Storing(plan: Plan, s: System, i: nat, fd: nat, n: nat, phase: Phase): System
    requires StoreReady(plan, s, i) && n <= |plan[i][s.threads[i].k].block|
  {
    var op := plan[i][s.threads[i].k];
    System(Disk(s.disk.names[op.tmp := fd], s.disk.data[fd := op.block[..n]]),
           s.threads[i := s.threads[i].(phase := phase)])
  }

  lemma {:induction false} StoreBegun(plan: Plan, s: System, i: nat, fd: nat, a: Outcome)
    requires StoreReady(plan, s, i) && fd !in s.disk.data
    ensures Run(plan, s, [Move(i, a), Move(i, Outcome(0, fd))]) == Storing(plan, s, i, fd, 0, Write(fd, 0))
  {
    var (first, second) := (Move(i, a), Move(i, Outcome(0, fd)));
    assert [first, second] == [first] + [second];
    RunJoin(plan, s, [first], [second]);
    RunOne(plan, s, first);
    RunOne(plan, Run(plan, s, [first]), second);
  }

  lemma {:induction false} PiecesWritten(plan: Plan, s: System, i: nat, fd: nat, ends: seq<nat>)
    requires StoreReady(plan, s, i) && Rising(0, ends, |plan[i][s.threads[i].k].block|)
    ensures var n := LastOf(0, ends);
            && SystemShaped(plan, Storing(plan, s, i, fd, 0, Write(fd, 0)))
            && Run(plan, Storing(plan, s, i, fd, 0, Write(fd, 0)), Pieces(i, ends)) ==
               Storing(plan, s, i, fd, n, Write(fd, n))
    decreases |ends|
  {
    if ends != [] {
      var n := |ends| - 1;
      PiecesWritten(plan, s, i, fd, ends[..n]);
      assert Pieces(i, ends) == Pieces(i, ends[..n]) + [Move(i, Outcome(0, ends[n]))];
      RunNext(plan, Storing(plan, s, i, fd, 0, Write(fd, 0)), Pieces(i, ends[..n]), Move(i, Outcome(0, ends[n])));
      PieceWritten(plan, s, i, fd, LastOf(0, ends[..n]), ends[n]);
    }
  }

  lemma {:induction false} PieceWritten(plan: Plan, s: System, i: nat, fd: nat, done: nat, n: nat)
    requires StoreReady(plan, s, i) && done < n <= |plan[i][s.threads[i].k].block|
    ensures var s1 := Storing(plan, s, i, fd, done, Write(fd, done));
            && SystemShaped(plan, s1)
            && Advance(plan, s1, i, Outcome(0, n)) == Storing(plan, s, i, fd, n, Write(fd, n))
  {
  }

  /** Access, creation, and a write that arrives in any pieces. */
  function Opening(i: nat, a: Outcome, fd: nat, ends: seq<nat>): seq<Move> {
    [Move(i, a), Move(i, Outcome(0, fd))] + Pieces(i, ends)
  }

  lemma {:induction false} Opened(plan: Plan, s: System, i: nat, a: Outcome, fd: nat, ends: seq<nat>)
    requires StoreReady(plan, s, i) && fd !in s.disk.data && Rising(0, ends, |plan[i][s.threads[i].k].block|)
    ensures var n := LastOf(0, ends);
            && SystemShaped(plan, Storing(plan, s, i, fd, n, Write(fd, n)))
            && Run(plan, s, Opening(i, a, fd, ends)) == Storing(plan, s, i, fd, n, Write(fd, n))
  {
    StoreBegun(plan, s, i, fd, a);
    RunJoin(plan, s, [Move(i, a), Move(i, Outcome(0, fd))], Pieces(i, ends));
    PiecesWritten(plan, s, i, fd, ends);
  }

  /** One more answer in the middle of a store. */
  lemma {:induction false} StoringStep(plan: Plan, s: System, i: nat, fd: nat, n: nat, phase: Phase, c: Outcome,
                                       next: Phase)
    requires StoreReady(plan, s, i) && n <= |plan[i][s.threads[i].k].block|
    requires || (phase == Write(fd, n) && c.err == 0 && n == |plan[i][s.threads[i].k].block| && next == Close(fd))
             || (phase == Close(fd) && c.err == 0 && next == Rename(fd))
             || ((phase == Write(fd, n) || phase == Close(fd) || phase == Rename(fd)) && c.err != 0
                 && next == Undo(c.err))
             || (phase == Write(fd, n) && c.err == 0 && n < |plan[i][s.threads[i].k].block| && next == Undo(EIO)
                 && !(n < c.n <= |plan[i][s.threads[i].k].block|))
    ensures var s1 := Storing(plan, s, i, fd, n, phase);
            SystemShaped(plan, s1) && Advance(plan, s1, i, c) == Storing(plan, s, i, fd, n, next)
  {
  }

  /** The whole block written, and the file closed if `closed`. */
  function Written(i: nat, a: Outcome, fd: nat, ends: seq<nat>, closed: bool): seq<Move> {
    Opening(i, a, fd, ends) + [Move(i, Outcome(0, 0))] + if closed then [Move(i, Outcome(0, 0))] else []
  }

  lemma {:induction false} BlockWritten(plan: Plan, s: System, i: nat, a: Outcome, fd: nat, ends: seq<nat>,
                                        closed: bool)
    requires StoreReady(plan, s, i) && fd !in s.disk.data
    requires var size := |plan[i][s.threads[i].k].block|; Rising(0, ends, size) && LastOf(0, ends) == size
    ensures var (n, phase) := (LastOf(0, ends), if closed then Rename(fd) else Close(fd));
            && SystemShaped(plan, Storing(plan, s, i, fd, n, phase))
            && Run(plan, s, Written(i, a, fd, ends, closed)) == Storing(plan, s, i, fd, n, phase)
  {
    var (good, n) := (Move(i, Outcome(0, 0)), LastOf(0, ends));
    Opened(plan, s, i, a, fd, ends);
    RunNext(plan, s, Opening(i, a, fd, ends), good);
    StoringStep(plan, s, i, fd, n, Write(fd, n), Outcome(0, 0), Close(fd));
    if closed {
      RunNext(plan, s, Opening(i, a, fd, ends) + [good], good);
      StoringStep(plan, s, i, fd, n, Close(fd), Outcome(0, 0), Rename(fd));
    } else {
      assert Written(i, a, fd, ends, closed) == Opening(i, a, fd, ends) + [good];
    }
  }

  /** When every call succeeds the destination holds the block, the temporary name is gone, and the batch goes on. */
  lemma {:induction false} StoreSucceeds(plan: Plan, s: System, i: nat, a: Outcome, fd: nat, ends: seq<nat>)
    requires StoreReady(plan, s, i) && fd !in s.disk.data
    requires var size := |plan[i][s.threads[i].k].block|; Rising(0, ends, size) && LastOf(0, ends) == size
    ensures var op := plan[i][s.threads[i].k];
            Run(plan, s, Written(i, a, fd, ends, true) + [Move(i, Outcome(0, 0))]) ==
            System(Disk(s.disk.names[op.dest := fd], s.disk.data[fd := op.block]),
                   s.threads[i := s.threads[i].(k := s.threads[i].k + 1)])
  {
    var (good, op) := (Move(i, Outcome(0, 0)), plan[i][s.threads[i].k]);
    BlockWritten(plan, s, i, a, fd, ends, true);
    RunNext(plan, s, Written(i, a, fd, ends, true), good);
    Renamed(plan, s, i, fd);
  }

  lemma {:induction false} Renamed(plan: Plan, s: System, i: nat, fd: nat)
    requires StoreReady(plan, s, i)
    ensures var op := plan[i][s.threads[i].k];
            var s1 := Storing(plan, s, i, fd, |op.block|, Rename(fd));
            && SystemShaped(plan, s1)
            && Advance(plan, s1, i, Outcome(0, 0)) ==
               System(Disk(s.disk.names[op.dest := fd], s.disk.data[fd := op.block]),
                      s.threads[i := s.threads[i].(k := s.threads[i].k + 1)])
  {
    var op := plan[i][s.threads[i].k];
    assert op.block[..|op.block|] == op.block;
    TempRemoved(s.disk.names, op.tmp, fd);
  }

  lemma {:induction false} ThreeMoves(plan: Plan, s: System, a: Move, b: Move, c: Move)
    requires SystemShaped(plan, s)
    ensures var s1 := Advance(plan, s, a.thread, a.outcome);
            var s2 := Advance(plan, s1, b.thread, b.outcome);
            && Run(plan, s, [a, b]) == s2
            && Run(plan, s, [a, b, c]) == Advance(plan, s2, c.thread, c.outcome)
  {
    assert [a, b, c][..2] == [a, b] && [a, b][..1] == [a];
    RunOne(plan, s, a);
  }

  /** The batch of thread `i` has failed with `err`, and no name has changed. */
  ghost predicate Undone(plan: Plan, s: System, i: nat, s': System, err: int)
    requires i < |s.threads|
  {
    && s'.disk.names == s.disk.names
    && s'.threads == s.threads[i := s.threads[i].(failed := err)]
  }

  /** When a call of a store answers with an error, the batch fails with that error and the names are as before:
      creating the file, ... */
  lemma {:induction false} CreateFails(plan: Plan, s: System, i: nat, a: Outcome, e: Outcome)
    requires StoreReady(plan, s, i) && e.err != 0
    ensures Undone(plan, s, i, Run(plan, s, [Move(i, a), Move(i, e)]), e.err)
  {
    ThreeMoves(plan, s, Move(i, a), Move(i, e), Move(i, e));
  }

  /** ... writing it (or a write that ends early, which counts as an input/output error), ... */
  lemma {:induction false} WriteFails(plan: Plan, s: System, i: nat, a: Outcome, fd: nat, ends: seq<nat>, e: Outcome,
                                      u: Outcome)
    requires StoreReady(plan, s, i) && fd !in s.disk.data
    requires var size := |plan[i][s.threads[i].k].block|;
             && Rising(0, ends, size)
             && (e.err != 0 || (LastOf(0, ends) < size && !(LastOf(0, ends) < e.n <= size)))
    ensures var moves := Opening(i, a, fd, ends) + [Move(i, e)] + [Move(i, u)];
            Undone(plan, s, i, Run(plan, s, moves), if e.err == 0 then EIO else e.err)
  {
    var (n, err) := (LastOf(0, ends), if e.err == 0 then EIO else e.err);
    Opened(plan, s, i, a, fd, ends);
    StoringStep(plan, s, i, fd, n, Write(fd, n), e, Undo(err));
    GivenUp(plan, s, i, fd, n, Opening(i, a, fd, ends), e, u, err);
  }

  /** ... closing it, or giving it its name. */
  lemma {:induction false} PublishFails(plan: Plan, s: System, i: nat, a: Outcome, fd: nat, ends: seq<nat>, e: Outcome,
                                        u: Outcome, closed: bool)
    requires StoreReady(plan, s, i) && fd !in s.disk.data && e.err != 0
    requires var size := |plan[i][s.threads[i].k].block|; Rising(0, ends, size) && LastOf(0, ends) == size
    ensures var moves := Written(i, a, fd, ends, closed) + [Move(i, e)] + [Move(i, u)];
            Undone(plan, s, i, Run(plan, s, moves), e.err)
  {
    var n := LastOf(0, ends);
    BlockWritten(plan, s, i, a, fd, ends, closed);
    StoringStep(plan, s, i, fd, n, if closed then Rename(fd) else Close(fd), e, Undo(e.err));
    GivenUp(plan, s, i, fd, n, Written(i, a, fd, ends, closed), e, u, e.err);
  }

  /** An answer that ends the store, and the removal of the temporary file. */
  lemma {:induction false} GivenUp(plan: Plan, s: System, i: nat, fd: nat, n: nat, moves: seq<Move>, e: Outcome,
                                   u: Outcome, err: int)
    requires StoreReady(plan, s, i) && n <= |plan[i][s.threads[i].k].block| && err != 0
    requires Advance(plan, Run(plan, s, moves), i, e) == Storing(plan, s, i, fd, n, Undo(err))
    ensures Undone(plan, s, i, Run(plan, s, moves + [Move(i, e)] + [Move(i, u)]), err)
  {
    RunNext(plan, s, moves, Move(i, e));
    RunNext(plan, s, moves + [Move(i, e)], Move(i, u));
    TempRemoved(s.disk.names, plan[i][s.threads[i].k].tmp, fd);
  }

  lemma {:induction false} TempRemoved(names: map<Path, nat>, tmp: Path, fd: nat)
    requires tmp !in names
    ensures names[tmp := fd] - {tmp} == names
  {
  }

  /** A destination that is there already is left alone. */
  lemma {:induction false} StoreSkips(plan: Plan, s: System, i: nat, n: nat)
    requires SystemShaped(plan, s) && i < |plan| && !Halted(plan[i], s.threads[i]) && s.threads[i].phase.Begin?
    requires plan[i][s.threads[i].k].Store? && plan[i][s.threads[i].k].dest in s.disk.names
    ensures Run(plan, s, [Move(i, Outcome(0, n))]) ==
            s.(threads := s.threads[i := s.threads[i].(k := s.threads[i].k + 1)])
  {
    RunOne(plan, s, Move(i, Outcome(0, n)));
  }

  /** Thread `i` is about to begin a load of a file that is there. */
  ghost predicate LoadReady(plan: Plan, s: System, i: nat) {
    && SystemShaped(plan, s) && i < |plan| && !Halted(plan[i], s.threads[i])
    && s.threads[i].phase.Begin? && plan[i][s.threads[i].k].Load?
    && var p := plan[i][s.threads[i].k].source; p in s.disk.names && s.disk.names[p] in s.disk.data
  }

  /** A load of a block that is long enough fills the buffer with its first bytes and changes nothing else. */
  lemma {:induction false} LoadSucceeds(plan: Plan, s: System, i: nat)
    requires LoadReady(plan, s, i)
    requires var op := plan[i][s.threads[i].k]; op.size <= |s.disk.data[s.disk.names[op.source]]|
    ensures var (good, op, t) := (Move(i, Outcome(0, 0)), plan[i][s.threads[i].k], s.threads[i]);
            var data := s.disk.data[s.disk.names[op.source]];
            Run(plan, s, [good, good]) ==
            s.(threads := s.threads[i := t.(k := t.k + 1, bufs := t.bufs[t.k := data[..op.size]])])
  {
    var (good, op, t) := (Move(i, Outcome(0, 0)), plan[i][s.threads[i].k], s.threads[i]);
    ThreeMoves(plan, s, good, good, good);
    var data := s.disk.data[s.disk.names[op.source]];
    assert Overwritten(t.bufs[t.k], data, op.size) == data[..op.size];
  }

  /** An error of `open` or `read` ends the batch with that error and leaves every file alone. */
  lemma {:induction false} LoadFails(plan: Plan, s: System, i: nat, e: Outcome)
    requires LoadReady(plan, s, i) && e.err != 0
    ensures Run(plan, s, [Move(i, e)]) == s.(threads := s.threads[i := s.threads[i].(failed := e.err)])
    ensures var s' := Run(plan, s, [Move(i, Outcome(0, 0)), Move(i, e)]);
            s'.disk == s.disk && s'.threads[i].failed == e.err && s'.threads[i].k == s.threads[i].k
  {
    RunOne(plan, s, Move(i, e));
    ThreeMoves(plan, s, Move(i, Outcome(0, 0)), Move(i, e), Move(i, e));
  }

  // ----- calls that have not been reached -----

  predicate NamesPath(op: Op, p: Path) { if op.Store? then op.dest == p else op.source == p }

  /** Call `j` of batch `i` is the only one that names `p`. */
  ghost predicate OnlyCall(plan: Plan, i: nat, j: nat, p: Path) {
    && i < |plan| && j < |plan[i]| && plan[i][j].Store? && plan[i][j].dest == p
    && forall m, k | 0 <= m < |plan| && 0 <= k < |plan[m]| && NamesPath(plan[m][k], p) :: m == i && k == j
  }

  ghost predicate NameSame(disk: Disk, d0: Disk, p: Path) {
    (p in disk.names <==> p in d0.names) && (p in d0.names ==> disk.names[p] == d0.names[p])
  }

  /** A step touches the path its call names only when it ends the call. */
  lemma {:induction false} StepNames(op: Op, disk: Disk, t: Thread, c: Outcome, p: Path)
    requires (op.Store? ==> p != op.tmp) && (op.Load? ==> t.k < |t.bufs| && |t.bufs[t.k]| == op.size)
    requires !NamesPath(op, p) || op.Store?
    ensures var (disk', t') := if op.Store? then StoreStep(op, disk, t, c) else LoadStep(op, disk, t, c);
            t.k <= t'.k <= t.k + 1 && (NameSame(disk', disk, p) || (NamesPath(op, p) && t'.k == t.k + 1))
  {
  }

  /** A destination that no other call names is left alone until its own call has succeeded. */
  lemma {:induction false} NotYetStored(plan: Plan, d0: Disk, blanks: seq<seq<Bytes>>, moves: seq<Move>, i: nat, j: nat,
                                        p: Path)
    requires InitOk(plan, d0, blanks) && OnlyCall(plan, i, j, p) && Ran(plan, d0, blanks, moves).threads[i].k <= j
    ensures NameSame(Ran(plan, d0, blanks, moves).disk, d0, p)
    decreases |moves|
  {
    if moves != [] {
      var n := |moves| - 1;
      var (s, m) := (Ran(plan, d0, blanks, moves[..n]), moves[n].thread);
      assert !IsTemp(plan, p);
      if m < |plan| && !Halted(plan[m], s.threads[m]) {
        var op := plan[m][s.threads[m].k];
        assert op.Store? ==> TempAt(plan, m, s.threads[m].k, op.tmp);
        StepNames(op, s.disk, s.threads[m], moves[n].outcome, p);
      }
      NotYetStored(plan, d0, blanks, moves[..n], i, j, p);
    }
  }

  // ----- the end of a run -----

  /** When a batch has ended, in success or failure, none of its temporary files is left but those that were there
      before. */
  lemma {:induction false} NoTempLeft(plan: Plan, d0: Disk, blanks: seq<seq<Bytes>>, moves: seq<Move>, i: nat, k: nat,
                                      p: Path)
    requires InitOk(plan, d0, blanks) && TempAt(plan, i, k, p)
    requires Halted(plan[i], Ran(plan, d0, blanks, moves).threads[i])
    ensures p in Ran(plan, d0, blanks, moves).disk.names <==> p in d0.names
  {
    RunInv(plan, d0, blanks, moves);
    var s := Ran(plan, d0, blanks, moves);
    assert IsTemp(plan, p);
    if p in s.disk.names && p !in d0.names {
      assert NameOk(plan, d0, s, p);
      var j: nat :| TempOwned(plan, s.threads, j, p);
      assert TempAt(plan, j, s.threads[j].k, p);
    }
  }

  /** Upper bound on the steps a batch has left, from call `k` on. */
  function Work(ops: seq<Op>, k: nat): nat
    decreases |ops| - k
  {
    if |ops| <= k then 0 else (if ops[k].Store? then |ops[k].block| + 6 else 3) + Work(ops, k + 1)
  }

  function Left(ops: seq<Op>, t: Thread): int {
    if Halted(ops, t) then 0
    else Work(ops, t.k) - (match t.phase
                           case Begin => 0
                           case Create => 1
                           case Write(fd, done) => 2 + done
                           case Close(fd) => 3 + (if ops[t.k].Store? then |ops[t.k].block| else 0)
                           case Rename(fd) => 4 + (if ops[t.k].Store? then |ops[t.k].block| else 0)
                           case Undo(err) => 5 + (if ops[t.k].Store? then |ops[t.k].block| else 0)
                           case Read(fd) => 1
                           case Unlink => 2)
  }

  /** Every step of a batch that has not ended brings it closer to its end: every interleaving ends. */
  lemma {:induction false} StepsRunOut(plan: Plan, d0: Disk, blanks: seq<seq<Bytes>>, moves: seq<Move>, i: nat,
                                       c: Outcome)
    requires InitOk(plan, d0, blanks) && i < |plan| && !Halted(plan[i], Ran(plan, d0, blanks, moves).threads[i])
    ensures var s := Ran(plan, d0, blanks, moves); var s' := Advance(plan, s, i, c);
            && 0 <= Left(plan[i], s'.threads[i]) < Left(plan[i], s.threads[i])
            && forall j | 0 <= j < |plan| && j != i :: s'.threads[j] == s.threads[j]
  {
    RunInv(plan, d0, blanks, moves);
    var s := Ran(plan, d0, blanks, moves);
    assert ThreadOk(plan, d0, s.disk, plan[i], s.threads[i], blanks[i]);
    StepCounts(plan, d0, s.disk, plan[i], s.threads[i], c);
  }

  lemma {:induction false} StepCounts(plan: Plan, d0: Disk, disk: Disk, ops: seq<Op>, t: Thread, c: Outcome)
    requires Shaped(ops, t) && !Halted(ops, t) && PhaseOk(plan, d0, disk, ops[t.k], t.phase)
    ensures 0 <= Left(ops, Step(ops, disk, t, c).1) < Left(ops, t)
  {
  }

  function AllLeft(plan: Plan, threads: seq<Thread>, n: nat): int
    requires n <= |plan| == |threads|
  {
    if n == 0 then 0 else AllLeft(plan, threads, n - 1) + Left(plan[n - 1], threads[n - 1])
  }

  lemma {:induction false} AllLeftStep(plan: Plan, threads: seq<Thread>, i: nat, t: Thread, n: nat)
    requires n <= |plan| == |threads| && i < |plan|
    ensures AllLeft(plan, threads[i := t], n)
         == AllLeft(plan, threads, n) + if i < n then Left(plan[i], t) - Left(plan[i], threads[i]) else 0
  {
    if 0 < n { AllLeftStep(plan, threads, i, t, n - 1); }
  }

  /** Move `n` goes to a batch that has not ended. */
  ghost predicate Useful(plan: Plan, d0: Disk, blanks: seq<seq<Bytes>>, moves: seq<Move>, n: nat)
    requires SystemShaped(plan, System(d0, Started(blanks))) && n < |moves|
  {
    var i := moves[n].thread;
    i < |plan| && !Halted(plan[i], Ran(plan, d0, blanks, moves[..n]).threads[i])
  }

  lemma {:induction false} MoveCounts(plan: Plan, d0: Disk, blanks: seq<seq<Bytes>>, moves: seq<Move>)
    requires InitOk(plan, d0, blanks) && moves != [] && Useful(plan, d0, blanks, moves, |moves| - 1)
    ensures AllLeft(plan, Ran(plan, d0, blanks, moves).threads, |plan|)
          < AllLeft(plan, Ran(plan, d0, blanks, moves[..|moves| - 1]).threads, |plan|)
  {
    var last := |moves| - 1;
    var (s, i, c) := (Ran(plan, d0, blanks, moves[..last]), moves[last].thread, moves[last].outcome);
    StepsRunOut(plan, d0, blanks, moves[..last], i, c);
    AllLeftStep(plan, s.threads, i, Advance(plan, s, i, c).threads[i], |plan|);
  }

  ghost predicate AllUseful(plan: Plan, d0: Disk, blanks: seq<seq<Bytes>>, moves: seq<Move>)
    requires SystemShaped(plan, System(d0, Started(blanks)))
  {
    forall n {:trigger Useful(plan, d0, blanks, moves, n)} | 0 <= n < |moves| :: Useful(plan, d0, blanks, moves, n)
  }

  lemma {:induction false} UsefulBefore(plan: Plan, d0: Disk, blanks: seq<seq<Bytes>>, moves: seq<Move>)
    requires InitOk(plan, d0, blanks) && moves != [] && AllUseful(plan, d0, blanks, moves)
    ensures AllUseful(plan, d0, blanks, moves[..|moves| - 1])
  {
    var last := |moves| - 1;
    forall n | 0 <= n < last ensures Useful(plan, d0, blanks, moves[..last], n) {
      assert Useful(plan, d0, blanks, moves, n);
      assert moves[..last][..n] == moves[..n];
    }
  }

  /** Every run ends, whatever the order and whatever fails: it has no more steps than the batches have work. */
  lemma {:induction false} RunsEnd(plan: Plan, d0: Disk, blanks: seq<seq<Bytes>>, moves: seq<Move>)
    requires InitOk(plan, d0, blanks) && AllUseful(plan, d0, blanks, moves)
    ensures |moves| + AllLeft(plan, Ran(plan, d0, blanks, moves).threads, |plan|)
         <= AllLeft(plan, Started(blanks), |plan|)
    ensures |moves| <= AllLeft(plan, Started(blanks), |plan|)
    decreases |moves|
  {
    LeftNonneg(plan, d0, blanks, moves, |plan|);
    if moves != [] {
      UsefulBefore(plan, d0, blanks, moves);
      RunsEnd(plan, d0, blanks, moves[..|moves| - 1]);
      MoveCounts(plan, d0, blanks, moves);
    }
  }

  lemma {:induction false} LeftNonneg(plan: Plan, d0: Disk, blanks: seq<seq<Bytes>>, moves: seq<Move>, n: nat)
    requires InitOk(plan, d0, blanks) && n <= |plan|
    ensures 0 <= AllLeft(plan, Ran(plan, d0, blanks, moves).threads, n)
  {
    if 0 < n {
      LeftNonneg(plan, d0, blanks, moves, n - 1);
      var i := n - 1;
      if !Halted(plan[i], Ran(plan, d0, blanks, moves).threads[i]) {
        StepsRunOut(plan, d0, blanks, moves, i, Outcome(0, 0));
      }
    }
  }
}
