/** A grid of scan programs that overwrite the inputs they read, run one memory access at a time and
    in any interleaving, against a reference that reads untouched copies of all inputs.

    A program is described by what it touches: its rows of the flat `delta` and `z` buffers (`out`
    aliases `delta`, `out_z` aliases `z`), the state cell it starts from, and the state cells it
    saves into after each chunk. The per-token arithmetic is a parameter. */
module ScanGrid {

  datatype Program<!S> = Program(
    active: bool,                    // false: its slot is the null block
    deltaBase: nat, zBase: nat, len: nat, hasZ: bool,
    loadCell: int,                   // negative: start from `zero`
    zero: S,
    bounds: seq<nat>,                // tokens before each chunk, and finally `len`
    cells: seq<nat>,                 // the cell saved into after each chunk
    update: (nat, real, S) -> S,
    emit: (nat, real, S) -> real,
    gate: (real, real) -> real)

  datatype Mem<S> = Mem(delta: seq<real>, z: seq<real>, ssm: seq<S>)

  ghost predicate ProgramOk<S>(k: Program<S>) {
    && |k.bounds| == |k.cells| + 1
    && k.bounds[0] == 0 && k.bounds[|k.cells|] == k.len
    && forall i, j | 0 <= i <= j < |k.bounds| :: k.bounds[i] <= k.bounds[j]
  }

  ghost predicate Fits<S>(k: Program<S>, m: Mem<S>) {
    k.active ==>
      && k.deltaBase + k.len <= |m.delta|
      && (k.hasZ ==> k.zBase + k.len <= |m.z|)
      && k.loadCell < |m.ssm|
      && forall c | 0 <= c < |k.cells| :: k.cells[c] < |m.ssm|
  }

  ghost predicate WritesDelta<S>(k: Program<S>, a: int) {
    k.active && k.deltaBase <= a < k.deltaBase + k.len
  }

  ghost predicate WritesZ<S>(k: Program<S>, a: int) {
    k.active && k.hasZ && k.zBase <= a < k.zBase + k.len
  }

  ghost predicate WritesCell<S>(k: Program<S>, a: nat) {
    k.active && a in k.cells
  }

  ghost predicate UsesCell<S>(k: Program<S>, a: nat) {
    k.active && (a in k.cells || a == k.loadCell)
  }

  /** Nothing that `k` writes is read or written by `j`. */
  ghost predicate Apart<S>(k: Program<S>, j: Program<S>) {
    && (forall a :: !(WritesDelta(k, a) && WritesDelta(j, a)))
    && (forall a :: !(WritesZ(k, a) && WritesZ(j, a)))
    && (forall a :: !(WritesCell(k, a) && UsesCell(j, a)))
  }

  // ----- reference -----

  function Update<S>(k: Program<S>, i: nat, delta: real, s: S): S { k.update(i, delta, s) }
  function Emit<S>(k: Program<S>, i: nat, delta: real, s: S): real { k.emit(i, delta, s) }
  function Gate<S>(k: Program<S>, out: real, z: real): real { k.gate(out, z) }

  /** The unchunked fold of the first `n` tokens. */
  function StateAfter<S>(k: Program<S>, m: Mem<S>, n: nat): S
    requires k.active && Fits(k, m) && n <= k.len
  {
    if n == 0 then (if k.loadCell < 0 then k.zero else m.ssm[k.loadCell])
    else Update(k, n - 1, m.delta[k.deltaBase + n - 1], StateAfter(k, m, n - 1))
  }

  function OutAt<S>(k: Program<S>, m: Mem<S>, i: nat): real
    requires k.active && Fits(k, m) && i < k.len
  {
    Emit(k, i, m.delta[k.deltaBase + i], StateAfter(k, m, i + 1))
  }

  function GatedAt<S>(k: Program<S>, m: Mem<S>, i: nat): real
    requires k.active && k.hasZ && Fits(k, m) && i < k.len
  {
    Gate(k, OutAt(k, m, i), m.z[k.zBase + i])
  }

  /** Content of cell `a` once the first `n` chunks are saved: the last chunk saved there wins. */
  function SavedCell<S>(k: Program<S>, m: Mem<S>, a: nat, n: nat): S
    requires k.active && ProgramOk(k) && Fits(k, m) && n <= |k.cells| && a < |m.ssm|
  {
    if n == 0 then m.ssm[a]
    else if k.cells[n - 1] == a then StateAfter(k, m, k.bounds[n])
    else SavedCell(k, m, a, n - 1)
  }

  ghost predicate GridOk<S>(ks: seq<Program<S>>, m: Mem<S>) {
    && (forall i | 0 <= i < |ks| :: ProgramOk(ks[i]) && Fits(ks[i], m))
    && (forall i, j | 0 <= i < |ks| && 0 <= j < |ks| && i != j :: Apart(ks[i], ks[j]))
  }

  ghost function RefDelta<S>(ks: seq<Program<S>>, m: Mem<S>, a: nat): real
    requires GridOk(ks, m) && a < |m.delta|
  {
    if i :| 0 <= i < |ks| && WritesDelta(ks[i], a) then OutAt(ks[i], m, a - ks[i].deltaBase) else m.delta[a]
  }

  ghost function RefZ<S>(ks: seq<Program<S>>, m: Mem<S>, a: nat): real
    requires GridOk(ks, m) && a < |m.z|
  {
    if i :| 0 <= i < |ks| && WritesZ(ks[i], a) then GatedAt(ks[i], m, a - ks[i].zBase) else m.z[a]
  }

  ghost function RefState<S>(ks: seq<Program<S>>, m: Mem<S>, a: nat): S
    requires GridOk(ks, m) && a < |m.ssm|
  {
    if i :| 0 <= i < |ks| && WritesCell(ks[i], a) then SavedCell(ks[i], m, a, |ks[i].cells|) else m.ssm[a]
  }

  /** The memory that a launch of the whole grid must leave behind. */
  ghost function Reference<S>(ks: seq<Program<S>>, m: Mem<S>): Mem<S>
    requires GridOk(ks, m)
  {
    Mem(seq(|m.delta|, a requires 0 <= a < |m.delta| => RefDelta(ks, m, a)),
        seq(|m.z|, a requires 0 <= a < |m.z| => RefZ(ks, m, a)),
        seq(|m.ssm|, a requires 0 <= a < |m.ssm| => RefState(ks, m, a)))
  }

  // ----- one program, one memory access at a time -----

  datatype Phase =
    | Begin
    | Token                   // about to load the next token of the chunk
    | StoreOut(out: real)     // about to store `out` over `delta`
    | StoreGated(out: real)   // about to gate `out` and store it over `z`
    | Save                    // chunk finished: about to store the state
    | Halted

  datatype Thread<S> = Thread(phase: Phase, chunk: nat, pos: nat, state: S)

  ghost predicate ThreadOk<S>(k: Program<S>, t: Thread<S>)
    requires ProgramOk(k)
  {
    k.active ==>
      match t.phase
      case Begin => t.chunk == 0 && t.pos == 0
      case Halted => t.chunk == |k.cells| && t.pos == k.len
      case Token => t.chunk <= |k.cells| && k.bounds[t.chunk] <= t.pos <= k.len
                    && (t.chunk < |k.cells| ==> t.pos <= k.bounds[t.chunk + 1])
      case Save => t.chunk < |k.cells| && t.pos == k.bounds[t.chunk + 1]
      case StoreOut(_) => t.chunk < |k.cells| && k.bounds[t.chunk] <= t.pos < k.bounds[t.chunk + 1]
      case StoreGated(_) => k.hasZ && t.chunk < |k.cells| && k.bounds[t.chunk] <= t.pos < k.bounds[t.chunk + 1]
  }

  function Step<S>(k: Program<S>, t: Thread<S>, m: Mem<S>): (Thread<S>, Mem<S>)
    requires ProgramOk(k) && Fits(k, m) && ThreadOk(k, t)
  {
    if !k.active || t.phase.Halted? then (t.(phase := Halted), m)
    else
      match t.phase
      case Begin =>
        (Thread(Token, 0, 0, if k.loadCell < 0 then k.zero else m.ssm[k.loadCell]), m)
      case Token =>
        if t.chunk == |k.cells| then (t.(phase := Halted), m)
        else if t.pos == k.bounds[t.chunk + 1] then (t.(phase := Save), m)
        else
          var delta := m.delta[k.deltaBase + t.pos];
          var state := Update(k, t.pos, delta, t.state);
          (t.(phase := StoreOut(Emit(k, t.pos, delta, state)), state := state), m)
      case StoreOut(out) =>
        (if k.hasZ then t.(phase := StoreGated(out)) else t.(phase := Token, pos := t.pos + 1),
         m.(delta := m.delta[k.deltaBase + t.pos := out]))
      case StoreGated(out) =>
        var a := k.zBase + t.pos;
        (t.(phase := Token, pos := t.pos + 1), m.(z := m.z[a := Gate(k, out, m.z[a])]))
      case Save =>
        (t.(phase := Token, chunk := t.chunk + 1), m.(ssm := m.ssm[k.cells[t.chunk] := t.state]))
  }

  // ----- progress of one program against the reference -----

  /** Tokens folded into the state, and tokens whose output is stored over `delta`. */
  function Folded<S>(t: Thread<S>): nat { t.pos + if t.phase.StoreGated? || t.phase.StoreOut? then 1 else 0 }
  function Stored<S>(t: Thread<S>): nat { t.pos + if t.phase.StoreGated? then 1 else 0 }

  /** `m0` is the memory at launch: the rows and cells of `k` are exactly at the point its thread has
      reached, and the thread holds the state of the unchunked fold over the untouched inputs. */
  ghost predicate Progress<S>(k: Program<S>, t: Thread<S>, m0: Mem<S>, m: Mem<S>)
    requires ProgramOk(k) && Fits(k, m0) && Fits(k, m) && |m0.ssm| == |m.ssm|
  {
    && ThreadOk(k, t)
    && (k.active ==>
          && (forall a {:trigger WritesDelta(k, a)} | WritesDelta(k, a) ::
                m.delta[a] == if a - k.deltaBase < Stored(t) then OutAt(k, m0, a - k.deltaBase) else m0.delta[a])
          && (forall a {:trigger WritesZ(k, a)} | WritesZ(k, a) ::
                m.z[a] == if a - k.zBase < t.pos then GatedAt(k, m0, a - k.zBase) else m0.z[a])
          && (forall a: nat {:trigger UsesCell(k, a)} | UsesCell(k, a) :: m.ssm[a] == SavedCell(k, m0, a, t.chunk))
          && (!t.phase.Begin? ==> t.state == StateAfter(k, m0, Folded(t)))
          && (t.phase.StoreOut? || t.phase.StoreGated? ==> t.phase.out == OutAt(k, m0, t.pos)))
  }

  /** `m1` differs from `m` only inside the footprint of `k`. */
  ghost predicate OnlyTouches<S>(k: Program<S>, m: Mem<S>, m1: Mem<S>) {
    && |m1.delta| == |m.delta| && |m1.z| == |m.z| && |m1.ssm| == |m.ssm|
    && (forall a | 0 <= a < |m.delta| && !WritesDelta(k, a) :: m1.delta[a] == m.delta[a])
    && (forall a | 0 <= a < |m.z| && !WritesZ(k, a) :: m1.z[a] == m.z[a])
    && (forall a | 0 <= a < |m.ssm| && !WritesCell(k, a) :: m1.ssm[a] == m.ssm[a])
  }

  ghost predicate InStep<S>(k: Program<S>, t: Thread<S>, m0: Mem<S>, m: Mem<S>) {
    && ProgramOk(k) && Fits(k, m0) && Fits(k, m) && |m0.ssm| == |m.ssm|
    && Progress(k, t, m0, m)
  }

  /** A step stays inside the footprint and on the course set by the reference. */
  lemma {:induction false} StepProgress<S>(k: Program<S>, t: Thread<S>, m0: Mem<S>, m: Mem<S>)
    requires InStep(k, t, m0, m)
    ensures var (t1, m1) := Step(k, t, m);
            OnlyTouches(k, m, m1) && InStep(k, t1, m0, m1)
  {
    if k.active {
      match t.phase
      case Begin => BeginProgress(k, t, m0, m);
      case Token => TokenProgress(k, t, m0, m);
      case StoreOut(_) => OutProgress(k, t, m0, m);
      case StoreGated(_) => GatedProgress(k, t, m0, m);
      case Save => SaveProgress(k, t, m0, m);
      case Halted =>
    }
  }

  lemma {:induction false} BeginProgress<S>(k: Program<S>, t: Thread<S>, m0: Mem<S>, m: Mem<S>)
    requires InStep(k, t, m0, m) && t.phase.Begin? && k.active
    ensures InStep(k, Step(k, t, m).0, m0, m)
  {
    if 0 <= k.loadCell { assert UsesCell(k, k.loadCell); }
  }

  lemma {:induction false} TokenProgress<S>(k: Program<S>, t: Thread<S>, m0: Mem<S>, m: Mem<S>)
    requires InStep(k, t, m0, m) && t.phase.Token? && k.active
    ensures InStep(k, Step(k, t, m).0, m0, m)
  {
    if t.chunk < |k.cells| && t.pos < k.bounds[t.chunk + 1] { LoadProgress(k, t, m0, m); }
  }

  lemma {:induction false} LoadProgress<S>(k: Program<S>, t: Thread<S>, m0: Mem<S>, m: Mem<S>)
    requires InStep(k, t, m0, m) && t.phase.Token? && k.active
    requires t.chunk < |k.cells| && t.pos < k.bounds[t.chunk + 1]
    ensures InStep(k, Step(k, t, m).0, m0, m)
  {
    assert k.bounds[t.chunk + 1] <= k.bounds[|k.cells|];
    assert WritesDelta(k, k.deltaBase + t.pos);
    assert m.delta[k.deltaBase + t.pos] == m0.delta[k.deltaBase + t.pos];
  }

  lemma {:induction false} OutProgress<S>(k: Program<S>, t: Thread<S>, m0: Mem<S>, m: Mem<S>)
    requires InStep(k, t, m0, m) && t.phase.StoreOut? && k.active
    ensures var (t1, m1) := Step(k, t, m);
            OnlyTouches(k, m, m1) && InStep(k, t1, m0, m1)
  {
    assert k.bounds[t.chunk + 1] <= k.bounds[|k.cells|];
    assert WritesDelta(k, k.deltaBase + t.pos);
  }

  lemma {:induction false} GatedProgress<S>(k: Program<S>, t: Thread<S>, m0: Mem<S>, m: Mem<S>)
    requires InStep(k, t, m0, m) && t.phase.StoreGated? && k.active
    ensures var (t1, m1) := Step(k, t, m);
            OnlyTouches(k, m, m1) && InStep(k, t1, m0, m1)
  {
    assert k.bounds[t.chunk + 1] <= k.bounds[|k.cells|];
    assert WritesZ(k, k.zBase + t.pos);
  }

  lemma {:induction false} SaveProgress<S>(k: Program<S>, t: Thread<S>, m0: Mem<S>, m: Mem<S>)
    requires InStep(k, t, m0, m) && t.phase.Save? && k.active
    ensures var (t1, m1) := Step(k, t, m);
            OnlyTouches(k, m, m1) && InStep(k, t1, m0, m1)
  {
    var (t1, m1) := Step(k, t, m);
    assert WritesCell(k, k.cells[t.chunk]);
    assert k.bounds[t.chunk + 1] <= k.bounds[|k.cells|];
    assert t1.chunk < |k.cells| ==> k.bounds[t1.chunk] <= k.bounds[t1.chunk + 1];
  }

  lemma {:induction false} ProgressFramed<S>(k: Program<S>, j: Program<S>, t: Thread<S>, m0: Mem<S>, m: Mem<S>,
                                             m1: Mem<S>)
    requires InStep(j, t, m0, m)
    requires Apart(k, j) && OnlyTouches(k, m, m1)
    ensures InStep(j, t, m0, m1)
  {
    if j.active {
      forall a | WritesDelta(j, a) ensures m1.delta[a] == m.delta[a] {
        assert !(WritesDelta(k, a) && WritesDelta(j, a));
      }
      forall a | WritesZ(j, a) ensures m1.z[a] == m.z[a] {
        assert !(WritesZ(k, a) && WritesZ(j, a));
      }
      forall a: nat | UsesCell(j, a) ensures m1.ssm[a] == m.ssm[a] {
        assert !(WritesCell(k, a) && UsesCell(j, a));
      }
    }
  }

  // ----- the grid -----

  datatype Grid<S> = Grid(threads: seq<Thread<S>>, mem: Mem<S>)

  /** Every program is on course, and nothing outside the footprints has changed. */
  ghost predicate GridInv<S>(ks: seq<Program<S>>, m0: Mem<S>, g: Grid<S>)
    requires GridOk(ks, m0)
  {
    var m := g.mem;
    && |g.threads| == |ks|
    && |m.delta| == |m0.delta| && |m.z| == |m0.z| && |m.ssm| == |m0.ssm|
    && (forall i | 0 <= i < |ks| :: InStep(ks[i], g.threads[i], m0, m))
    && (forall a | 0 <= a < |m.delta| && m.delta[a] != m0.delta[a] ::
          exists i :: 0 <= i < |ks| && WritesDelta(ks[i], a))
    && (forall a | 0 <= a < |m.z| && m.z[a] != m0.z[a] :: exists i :: 0 <= i < |ks| && WritesZ(ks[i], a))
    && (forall a | 0 <= a < |m.ssm| && m.ssm[a] != m0.ssm[a] :: exists i :: 0 <= i < |ks| && WritesCell(ks[i], a))
  }

  ghost function Launched<S>(ks: seq<Program<S>>, m0: Mem<S>): Grid<S> {
    Grid(seq(|ks|, i requires 0 <= i < |ks| => Thread(Begin, 0, 0, ks[i].zero)), m0)
  }

  function Advance<S>(ks: seq<Program<S>>, g: Grid<S>, i: nat): Grid<S>
    requires i < |ks| == |g.threads|
    requires ProgramOk(ks[i]) && Fits(ks[i], g.mem) && ThreadOk(ks[i], g.threads[i])
  {
    var (t, m) := Step(ks[i], g.threads[i], g.mem);
    Grid(g.threads[i := t], m)
  }

  lemma {:induction false} AdvanceInv<S>(ks: seq<Program<S>>, m0: Mem<S>, g: Grid<S>, i: nat)
    requires GridOk(ks, m0) && GridInv(ks, m0, g) && i < |ks|
    ensures GridInv(ks, m0, Advance(ks, g, i))
  {
    var g1 := Advance(ks, g, i);
    StepProgress(ks[i], g.threads[i], m0, g.mem);
    forall j | 0 <= j < |ks| ensures InStep(ks[j], g1.threads[j], m0, g1.mem) {
      if j != i { ProgressFramed(ks[i], ks[j], g.threads[j], m0, g.mem, g1.mem); }
    }
    forall a | 0 <= a < |g.mem.delta| && g1.mem.delta[a] != m0.delta[a]
      ensures exists j :: 0 <= j < |ks| && WritesDelta(ks[j], a)
    {
      if !WritesDelta(ks[i], a) { assert g1.mem.delta[a] == g.mem.delta[a]; }
    }
    forall a | 0 <= a < |g.mem.z| && g1.mem.z[a] != m0.z[a]
      ensures exists j :: 0 <= j < |ks| && WritesZ(ks[j], a)
    {
      if !WritesZ(ks[i], a) { assert g1.mem.z[a] == g.mem.z[a]; }
    }
    forall a | 0 <= a < |g.mem.ssm| && g1.mem.ssm[a] != m0.ssm[a]
      ensures exists j :: 0 <= j < |ks| && WritesCell(ks[j], a)
    {
      if !WritesCell(ks[i], a) { assert g1.mem.ssm[a] == g.mem.ssm[a]; }
    }
  }

  /** Run the programs named by `schedule`, one memory access each, in that order. */
  ghost function Run<S>(ks: seq<Program<S>>, m0: Mem<S>, schedule: seq<nat>): (g: Grid<S>)
    requires GridOk(ks, m0) && forall n | 0 <= n < |schedule| :: schedule[n] < |ks|
    ensures GridInv(ks, m0, g)
  {
    if schedule == [] then Launched(ks, m0)
    else
      var last := |schedule| - 1;
      var g := Run(ks, m0, schedule[..last]);
      AdvanceInv(ks, m0, g, schedule[last]);
      Advance(ks, g, schedule[last])
  }

  ghost predicate AllHalted<S>(g: Grid<S>) {
    forall i | 0 <= i < |g.threads| :: g.threads[i].phase.Halted?
  }

  /** Whatever the interleaving, a finished grid leaves the memory of the reference. */
  lemma {:induction false} AnyInterleaving<S>(ks: seq<Program<S>>, m0: Mem<S>, schedule: seq<nat>)
    requires GridOk(ks, m0) && forall n | 0 <= n < |schedule| :: schedule[n] < |ks|
    requires AllHalted(Run(ks, m0, schedule))
    ensures Run(ks, m0, schedule).mem == Reference(ks, m0)
  {
    var g := Run(ks, m0, schedule);
    HaltedDelta(ks, m0, g);
    HaltedZ(ks, m0, g);
    HaltedState(ks, m0, g);
  }

  lemma {:induction false} HaltedDelta<S>(ks: seq<Program<S>>, m0: Mem<S>, g: Grid<S>)
    requires GridOk(ks, m0) && GridInv(ks, m0, g) && AllHalted(g)
    ensures g.mem.delta == Reference(ks, m0).delta
  {
    forall a | 0 <= a < |m0.delta| ensures g.mem.delta[a] == RefDelta(ks, m0, a) {
      forall i | 0 <= i < |ks| && WritesDelta(ks[i], a)
        ensures g.mem.delta[a] == OutAt(ks[i], m0, a - ks[i].deltaBase)
      {
        assert InStep(ks[i], g.threads[i], m0, g.mem);
      }
    }
  }

  lemma {:induction false} HaltedZ<S>(ks: seq<Program<S>>, m0: Mem<S>, g: Grid<S>)
    requires GridOk(ks, m0) && GridInv(ks, m0, g) && AllHalted(g)
    ensures g.mem.z == Reference(ks, m0).z
  {
    forall a | 0 <= a < |m0.z| ensures g.mem.z[a] == RefZ(ks, m0, a) {
      forall i | 0 <= i < |ks| && WritesZ(ks[i], a)
        ensures g.mem.z[a] == GatedAt(ks[i], m0, a - ks[i].zBase)
      {
        assert InStep(ks[i], g.threads[i], m0, g.mem);
      }
    }
  }

  lemma {:induction false} HaltedState<S>(ks: seq<Program<S>>, m0: Mem<S>, g: Grid<S>)
    requires GridOk(ks, m0) && GridInv(ks, m0, g) && AllHalted(g)
    ensures g.mem.ssm == Reference(ks, m0).ssm
  {
    forall a | 0 <= a < |m0.ssm| ensures g.mem.ssm[a] == RefState(ks, m0, a) {
      forall i | 0 <= i < |ks| && WritesCell(ks[i], a)
        ensures g.mem.ssm[a] == SavedCell(ks[i], m0, a, |ks[i].cells|)
      {
        assert InStep(ks[i], g.threads[i], m0, g.mem);
        assert UsesCell(ks[i], a);
      }
    }
  }

  // ----- one program run alone, in place -----

  function DeltaAfter<S>(k: Program<S>, m0: Mem<S>, pos: nat): (d: seq<real>)
    requires k.active && Fits(k, m0) && pos <= k.len
    ensures |d| == |m0.delta|
  {
    seq(|m0.delta|, a requires 0 <= a < |m0.delta| =>
      if k.deltaBase <= a < k.deltaBase + pos then OutAt(k, m0, a - k.deltaBase) else m0.delta[a])
  }

  function ZAfter<S>(k: Program<S>, m0: Mem<S>, pos: nat): (z: seq<real>)
    requires k.active && Fits(k, m0) && pos <= k.len
    ensures |z| == |m0.z|
  {
    seq(|m0.z|, a requires 0 <= a < |m0.z| =>
      if k.hasZ && k.zBase <= a < k.zBase + pos then GatedAt(k, m0, a - k.zBase) else m0.z[a])
  }

  function CellsAfter<S>(k: Program<S>, m0: Mem<S>, c: nat): (s: seq<S>)
    requires k.active && ProgramOk(k) && Fits(k, m0) && c <= |k.cells|
    ensures |s| == |m0.ssm|
  {
    seq(|m0.ssm|, a requires 0 <= a < |m0.ssm| => SavedCell(k, m0, a, c))
  }

  /** One token, on the tensors themselves: `out` goes over `delta` and `out_z` over `z`. */
  method RunToken<S>(k: Program<S>, pos: nat, state0: S, delta: array<real>, z: array<real>, ghost m0: Mem<S>)
    returns (state: S)
    requires k.active && Fits(k, m0) && pos < k.len && delta != z
    requires state0 == StateAfter(k, m0, pos)
    requires delta[..] == DeltaAfter(k, m0, pos) && z[..] == ZAfter(k, m0, pos)
    modifies delta, z
    ensures state == StateAfter(k, m0, pos + 1)
    ensures delta[..] == DeltaAfter(k, m0, pos + 1) && z[..] == ZAfter(k, m0, pos + 1)
  {
    assert |delta[..]| == |m0.delta| && |z[..]| == |m0.z|;
    assert delta[..][k.deltaBase + pos] == m0.delta[k.deltaBase + pos];
    var deltaVal := delta[k.deltaBase + pos];
    state := Update(k, pos, deltaVal, state0);
    var out := Emit(k, pos, deltaVal, state);
    delta[k.deltaBase + pos] := out;
    assert delta[..] == DeltaAfter(k, m0, pos)[k.deltaBase + pos := OutAt(k, m0, pos)];
    assert delta[..] == DeltaAfter(k, m0, pos + 1);
    if k.hasZ {
      assert z[..][k.zBase + pos] == m0.z[k.zBase + pos];
      z[k.zBase + pos] := Gate(k, out, z[k.zBase + pos]);
      assert z[..] == ZAfter(k, m0, pos)[k.zBase + pos := GatedAt(k, m0, pos)];
    }
    assert z[..] == ZAfter(k, m0, pos + 1);
  }

  /** The tokens of one chunk. */
  method RunChunk<S>(k: Program<S>, tokensProcessed: nat, chunkTokens: nat, state0: S,
                     delta: array<real>, z: array<real>, ghost m0: Mem<S>)
    returns (state: S)
    requires k.active && Fits(k, m0) && tokensProcessed + chunkTokens <= k.len && delta != z
    requires state0 == StateAfter(k, m0, tokensProcessed)
    requires delta[..] == DeltaAfter(k, m0, tokensProcessed) && z[..] == ZAfter(k, m0, tokensProcessed)
    modifies delta, z
    ensures state == StateAfter(k, m0, tokensProcessed + chunkTokens)
    ensures delta[..] == DeltaAfter(k, m0, tokensProcessed + chunkTokens)
    ensures z[..] == ZAfter(k, m0, tokensProcessed + chunkTokens)
  {
    state := state0;
    for localPos := 0 to chunkTokens
      invariant state == StateAfter(k, m0, tokensProcessed + localPos)
      invariant delta[..] == DeltaAfter(k, m0, tokensProcessed + localPos)
      invariant z[..] == ZAfter(k, m0, tokensProcessed + localPos)
    {
      state := RunToken(k, tokensProcessed + localPos, state, delta, z, m0);
    }
  }

  /** One pass of the outer loop: the tokens of the chunk, then its state into the chosen cell. */
  method RunAndSave<S>(k: Program<S>, ghost chunk: nat, tokensProcessed: nat, chunkTokens: nat, cell: nat, state0: S,
                       delta: array<real>, z: array<real>, ssm: array<S>, ghost m0: Mem<S>)
    returns (state: S)
    requires k.active && ProgramOk(k) && Fits(k, m0) && chunk < |k.cells|
    requires delta != z && ssm as object != delta && ssm as object != z
    requires tokensProcessed == k.bounds[chunk] && tokensProcessed + chunkTokens == k.bounds[chunk + 1] <= k.len
    requires cell == k.cells[chunk] && state0 == StateAfter(k, m0, tokensProcessed)
    requires delta[..] == DeltaAfter(k, m0, tokensProcessed) && z[..] == ZAfter(k, m0, tokensProcessed)
    requires ssm[..] == CellsAfter(k, m0, chunk)
    modifies delta, z, ssm
    ensures state == StateAfter(k, m0, k.bounds[chunk + 1])
    ensures delta[..] == DeltaAfter(k, m0, k.bounds[chunk + 1]) && z[..] == ZAfter(k, m0, k.bounds[chunk + 1])
    ensures ssm[..] == CellsAfter(k, m0, chunk + 1)
  {
    assert |ssm[..]| == |m0.ssm|;
    state := RunChunk(k, tokensProcessed, chunkTokens, state0, delta, z, m0);
    ssm[cell] := state;
    assert ssm[..] == CellsAfter(k, m0, chunk)[cell := state];
    assert ssm[..] == CellsAfter(k, m0, chunk + 1);
  }

  lemma {:induction false} UnsavedCell<S>(k: Program<S>, m0: Mem<S>, a: nat, c: nat)
    requires k.active && ProgramOk(k) && Fits(k, m0) && c <= |k.cells| && a < |m0.ssm| && a !in k.cells
    ensures SavedCell(k, m0, a, c) == m0.ssm[a]
  {
    if 0 < c { UnsavedCell(k, m0, a, c - 1); }
  }

  /** A program run alone leaves the reference memory of the grid that holds only it. */
  lemma {:induction false} SoloRun<S>(k: Program<S>, m0: Mem<S>)
    requires k.active && ProgramOk(k) && Fits(k, m0)
    ensures GridOk([k], m0)
    ensures Mem(DeltaAfter(k, m0, k.len), ZAfter(k, m0, k.len), CellsAfter(k, m0, |k.cells|)) == Reference([k], m0)
  {
    var ks := [k];
    assert forall i | 0 <= i < |ks| :: ks[i] == k;
    forall a | 0 <= a < |m0.delta| ensures RefDelta(ks, m0, a) == DeltaAfter(k, m0, k.len)[a] {
      assert WritesDelta(ks[0], a) || !WritesDelta(ks[0], a);
    }
    forall a | 0 <= a < |m0.z| ensures RefZ(ks, m0, a) == ZAfter(k, m0, k.len)[a] {
      assert WritesZ(ks[0], a) || !WritesZ(ks[0], a);
    }
    forall a | 0 <= a < |m0.ssm| ensures RefState(ks, m0, a) == CellsAfter(k, m0, |k.cells|)[a] {
      if !WritesCell(ks[0], a) { UnsavedCell(k, m0, a, |k.cells|); }
    }
  }

  // ----- termination -----

  /** Steps a program still has to take. */
  function StepsLeft<S>(k: Program<S>, t: Thread<S>): int {
    var perToken := if k.hasZ then 3 else 2;
    var rest := perToken * (k.len - t.pos) + 2 * (|k.cells| - t.chunk);
    if t.phase.Halted? then 0
    else if !k.active then 1
    else
      match t.phase
      case Begin => rest + 2
      case Token => rest + 1
      case StoreGated(_) => rest - 1
      case _ => rest
  }

  lemma {:induction false} StepCounts<S>(k: Program<S>, t: Thread<S>, m: Mem<S>)
    requires ProgramOk(k) && Fits(k, m) && ThreadOk(k, t)
    ensures StepsLeft(k, t) >= 0
    ensures StepsLeft(k, t) == 0 <==> t.phase.Halted?
    ensures StepsLeft(k, Step(k, t, m).0) == if t.phase.Halted? then 0 else StepsLeft(k, t) - 1
  {
    if k.active && (t.phase.StoreOut? || t.phase.StoreGated? || t.phase.Save?) {
      assert k.bounds[t.chunk + 1] <= k.bounds[|k.cells|];
    }
  }

  lemma {:induction false} AdvanceCounts<S>(ks: seq<Program<S>>, m0: Mem<S>, g: Grid<S>, j: nat, i: nat)
    requires GridOk(ks, m0) && GridInv(ks, m0, g) && j < |ks| && i < |ks|
    ensures var left := StepsLeft(ks[i], g.threads[i]);
            && 0 <= left && (left == 0 <==> g.threads[i].phase.Halted?)
            && StepsLeft(ks[i], Advance(ks, g, j).threads[i]) == (if i == j && 0 < left then left - 1 else left)
  {
    assert InStep(ks[i], g.threads[i], m0, g.mem);
    StepCounts(ks[i], g.threads[i], g.mem);
  }

  lemma {:induction false} CountLast(schedule: seq<nat>, i: nat)
    requires schedule != []
    ensures var last := |schedule| - 1;
            multiset(schedule)[i] == multiset(schedule[..last])[i] + if schedule[last] == i then 1 else 0
  {
    assert schedule == schedule[..|schedule| - 1] + [schedule[|schedule| - 1]];
  }

  lemma {:induction false} RunLast<S>(ks: seq<Program<S>>, m0: Mem<S>, schedule: seq<nat>)
    requires GridOk(ks, m0) && schedule != [] && forall n | 0 <= n < |schedule| :: schedule[n] < |ks|
    ensures var last := |schedule| - 1;
            Run(ks, m0, schedule) == Advance(ks, Run(ks, m0, schedule[..last]), schedule[last])
  {
  }

  /** However the schedule interleaves the programs, the number of steps a program still has to take is fixed by how
      often it was scheduled. */
  lemma {:induction false} StepsLeftAfter<S>(ks: seq<Program<S>>, m0: Mem<S>, schedule: seq<nat>, i: nat)
    requires GridOk(ks, m0) && i < |ks| && forall n | 0 <= n < |schedule| :: schedule[n] < |ks|
    ensures var total := StepsLeft(ks[i], Thread(Begin, 0, 0, ks[i].zero));
            StepsLeft(ks[i], Run(ks, m0, schedule).threads[i]) ==
            if multiset(schedule)[i] < total then total - multiset(schedule)[i] else 0
    decreases |schedule|
  {
    if schedule == [] {
      AdvanceCounts(ks, m0, Run(ks, m0, []), i, i);
    } else {
      CountLast(schedule, i);
      StepsLeftAfter(ks, m0, schedule[..|schedule| - 1], i);
      RunLast(ks, m0, schedule);
      AdvanceCounts(ks, m0, Run(ks, m0, schedule[..|schedule| - 1]), schedule[|schedule| - 1], i);
    }
  }

  /** Every schedule that gives a program its steps lets it finish: a program has halted if and only if it was given as
      many steps as it needs. */
  lemma {:induction false} HaltsWhenDone<S>(ks: seq<Program<S>>, m0: Mem<S>, schedule: seq<nat>, i: nat)
    requires GridOk(ks, m0) && i < |ks| && forall n | 0 <= n < |schedule| :: schedule[n] < |ks|
    ensures Run(ks, m0, schedule).threads[i].phase.Halted? <==>
            StepsLeft(ks[i], Thread(Begin, 0, 0, ks[i].zero)) <= multiset(schedule)[i]
  {
    StepsLeftAfter(ks, m0, schedule, i);
    AdvanceCounts(ks, m0, Run(ks, m0, schedule), i, i);
  }

  // ----- what the reference holds in the rows of one program -----

  lemma {:induction false} OutputKept<S>(ks: seq<Program<S>>, i: nat, m: Mem<S>, t: nat)
    requires GridOk(ks, m) && i < |ks| && ks[i].active && t < ks[i].len
    ensures Reference(ks, m).delta[ks[i].deltaBase + t] == OutAt(ks[i], m, t)
    ensures ks[i].hasZ ==> Reference(ks, m).z[ks[i].zBase + t] == GatedAt(ks[i], m, t)
  {
    var a := ks[i].deltaBase + t;
    assert WritesDelta(ks[i], a);
    assert forall q | 0 <= q < |ks| && q != i :: !(WritesDelta(ks[q], a) && WritesDelta(ks[i], a));
    if ks[i].hasZ {
      var e := ks[i].zBase + t;
      assert WritesZ(ks[i], e);
      assert forall q | 0 <= q < |ks| && q != i :: !(WritesZ(ks[q], e) && WritesZ(ks[i], e));
    }
  }

  // ----- checkpoints and resumption -----

  /** A cell that no later chunk saves into ends up with the fold of exactly the tokens up to the end of
      its chunk, whatever the chunking. */
  lemma {:induction false} Checkpoint<S>(ks: seq<Program<S>>, m: Mem<S>, i: nat, c: nat)
    requires GridOk(ks, m) && i < |ks| && ks[i].active && c < |ks[i].cells|
    requires forall d | c < d < |ks[i].cells| :: ks[i].cells[d] != ks[i].cells[c]
    ensures Reference(ks, m).ssm[ks[i].cells[c]] == StateAfter(ks[i], m, ks[i].bounds[c + 1])
  {
    var a := ks[i].cells[c];
    assert WritesCell(ks[i], a);
    forall j | 0 <= j < |ks| && WritesCell(ks[j], a) ensures j == i {
      assert UsesCell(ks[i], a);
    }
    SavedStays(ks[i], m, c, |ks[i].cells|);
  }

  lemma {:induction false} SavedStays<S>(k: Program<S>, m: Mem<S>, c: nat, n: nat)
    requires k.active && ProgramOk(k) && Fits(k, m) && c < n <= |k.cells|
    requires forall d | c < d < |k.cells| :: k.cells[d] != k.cells[c]
    ensures SavedCell(k, m, k.cells[c], n) == StateAfter(k, m, k.bounds[c + 1])
  {
    if c + 1 < n { SavedStays(k, m, c, n - 1); }
  }

  /** The recurrence of one request in one dimension, over its tokens from the very first. */
  datatype Recurrence<!S> = Recurrence(zero: S, step: (nat, S) -> S, emit: (nat, S) -> real)

  function StepAt<S>(r: Recurrence<S>, n: nat, s: S): S { r.step(n, s) }
  function EmitAt<S>(r: Recurrence<S>, n: nat, s: S): real { r.emit(n, s) }

  function FoldTo<S>(r: Recurrence<S>, n: nat): S {
    if n == 0 then r.zero else StepAt(r, n - 1, FoldTo(r, n - 1))
  }

  /** Token `i` of the program is token `n + i` of the request. */
  ghost predicate SameToken<S(!new)>(k: Program<S>, m: Mem<S>, r: Recurrence<S>, n: nat, i: nat)
    requires k.active && Fits(k, m) && i < k.len
  {
    var delta := m.delta[k.deltaBase + i];
    forall s :: Update(k, i, delta, s) == StepAt(r, n + i, s) && Emit(k, i, delta, s) == EmitAt(r, n + i, s)
  }

  /** The program carries the request on after `n` tokens: it starts from the state after `n` tokens and
      its own tokens are the request's next ones. */
  ghost predicate CarriesOn<S(!new)>(k: Program<S>, m: Mem<S>, r: Recurrence<S>, n: nat)
    requires k.active && Fits(k, m)
  {
    && StateAfter(k, m, 0) == FoldTo(r, n)
    && forall i | 0 <= i < k.len :: SameToken(k, m, r, n, i)
  }

  /** Restarting from a saved state equals never having stopped: states and outputs are those of the one
      uninterrupted fold over the whole request. */
  lemma {:induction false} Resume<S(!new)>(k: Program<S>, m: Mem<S>, r: Recurrence<S>, n: nat, i: nat)
    requires k.active && Fits(k, m) && CarriesOn(k, m, r, n) && i <= k.len
    ensures StateAfter(k, m, i) == FoldTo(r, n + i)
    ensures 0 < i ==> OutAt(k, m, i - 1) == EmitAt(r, n + i - 1, FoldTo(r, n + i))
  {
    if 0 < i {
      Resume(k, m, r, n, i - 1);
      assert SameToken(k, m, r, n, i - 1);
      assert StateAfter(k, m, i) == Update(k, i - 1, m.delta[k.deltaBase + (i - 1)], StateAfter(k, m, i - 1));
    }
  }
}
