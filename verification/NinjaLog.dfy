/** Reading a build log: lines of the same command are merged into one target, and what belongs to an earlier build is
    dropped. Times are in milliseconds. */
module NinjaLog {

  datatype Line = Malformed | Line(start: int, end: int, name: string, hash: string)

  /** An entry of the insertion-ordered dictionary of targets. */
  datatype Target = Target(hash: string, start: int, end: int, names: seq<string>)

  // ----- which lines belong to the last build -----

  function LastEnd(lines: seq<Line>, k: nat): int
    requires k <= |lines|
  {
    if k == 0 then 0 else if lines[k - 1].Line? then lines[k - 1].end else LastEnd(lines, k - 1)
  }

  ghost predicate Clashes(a: Line, b: Line) {
    a.Line? && b.Line? && a.hash == b.hash && (a.start != b.start || a.end != b.end)
  }

  /** Line `k` opens a new build: its end lies before the end of the line in front of it, or its command has been seen
      in this build with other times. */
  ghost predicate Resets(lines: seq<Line>, since: nat, k: nat)
    requires k < |lines|
  {
    && lines[k].Line?
    && (lines[k].end < LastEnd(lines, k) || exists j | since <= j < k :: Clashes(lines[j], lines[k]))
  }

  /** Where the build that line `k` belongs to begins. */
  ghost function Since(lines: seq<Line>, showAll: bool, k: nat): (s: nat)
    requires k <= |lines|
    ensures s <= k
  {
    if k == 0 || showAll then 0
    else
      var s := Since(lines, showAll, k - 1);
      if Resets(lines, s, k - 1) then k - 1 else s
  }

  // ----- grouping -----

  predicate Named(l: Line, h: string) { l.Line? && l.hash == h }

  /** The names on the lines of command `h`, in order. */
  function NamesOf(lines: seq<Line>, s: nat, k: nat, h: string): seq<string>
    requires s <= k <= |lines|
  {
    if k == s then []
    else NamesOf(lines, s, k - 1, h) + if Named(lines[k - 1], h) then [lines[k - 1].name] else []
  }

  function AllNames(lines: seq<Line>, s: nat, k: nat): seq<string>
    requires s <= k <= |lines|
  {
    if k == s then [] else AllNames(lines, s, k - 1) + if lines[k - 1].Line? then [lines[k - 1].name] else []
  }

  function Flat(targets: seq<Target>): seq<string> {
    if targets == [] then [] else Flat(targets[..|targets| - 1]) + targets[|targets| - 1].names
  }

  predicate Unique(targets: seq<Target>) {
    forall a, b | 0 <= a < b < |targets| :: targets[a].hash != targets[b].hash
  }

  /** Line `j` has gone into the target with its hash. */
  ghost predicate Covered(lines: seq<Line>, j: nat, targets: seq<Target>, showAll: bool)
    requires j < |lines|
  {
    exists a :: CoveredBy(lines[j], targets, a, showAll)
  }

  ghost predicate CoveredBy(l: Line, targets: seq<Target>, a: int, showAll: bool) {
    && l.Line? && 0 <= a < |targets| && targets[a].hash == l.hash
    && (!showAll ==> targets[a].start == l.start && targets[a].end == l.end)
  }

  /** Line `j` is the first of the target's command in `[s, k)`, and gave it its times. */
  ghost predicate MadeFrom(lines: seq<Line>, s: nat, k: nat, t: Target, j: nat)
    requires s <= k <= |lines|
  {
    && s <= j < k && Named(lines[j], t.hash) && lines[j].start == t.start && lines[j].end == t.end
    && forall i | s <= i < j :: !Named(lines[i], t.hash)
  }

  /** Every line of command `later` has a line of command `first` before it. */
  ghost predicate Precedes(lines: seq<Line>, s: nat, k: nat, first: string, later: string)
    requires s <= k <= |lines|
  {
    forall j | s <= j < k && Named(lines[j], later) :: exists i | s <= i < j :: Named(lines[i], first)
  }

  /** Targets stand in the order of their first lines. */
  ghost predicate InOrder(lines: seq<Line>, s: nat, k: nat, targets: seq<Target>)
    requires s <= k <= |lines|
  {
    forall a, b {:trigger Precedes(lines, s, k, targets[a].hash, targets[b].hash)} | 0 <= a < b < |targets| ::
      Precedes(lines, s, k, targets[a].hash, targets[b].hash)
  }

  /** Target `a` has the times of the first line of its command in `[s, k)`, and the names of all of them. */
  ghost predicate TargetOk(lines: seq<Line>, s: nat, k: nat, targets: seq<Target>, a: nat)
    requires s <= k <= |lines| && a < |targets|
  {
    && targets[a].names == NamesOf(lines, s, k, targets[a].hash)
    && exists j :: MadeFrom(lines, s, k, targets[a], j)
  }

  /** Lines `[s, k)` are partitioned into targets. */
  ghost predicate Grouped(lines: seq<Line>, showAll: bool, s: nat, k: nat, targets: seq<Target>) {
    && s <= k <= |lines| && Unique(targets) && InOrder(lines, s, k, targets)
    && (forall a {:trigger TargetOk(lines, s, k, targets, a)} | 0 <= a < |targets| :: TargetOk(lines, s, k, targets, a))
    && (forall j {:trigger Covered(lines, j, targets, showAll)} | s <= j < k && lines[j].Line? ::
          Covered(lines, j, targets, showAll))
  }

  predicate EndsInOrder(targets: seq<Target>) {
    forall a, b | 0 <= a < b < |targets| :: targets[a].end <= targets[b].end
  }

  function Find(targets: seq<Target>, h: string): (a: int)
    ensures -1 <= a < |targets|
    ensures 0 <= a ==> targets[a].hash == h
    ensures a < 0 ==> forall b | 0 <= b < |targets| :: targets[b].hash != h
  {
    if targets == [] then -1
    else if targets[|targets| - 1].hash == h then |targets| - 1
    else Find(targets[..|targets| - 1], h)
  }

  lemma {:induction false} NoNames(lines: seq<Line>, s: nat, k: nat, h: string)
    requires s <= k <= |lines| && forall j | s <= j < k :: !Named(lines[j], h)
    ensures NamesOf(lines, s, k, h) == []
  {
    if s < k { NoNames(lines, s, k - 1, h); }
  }

  // ----- one line more -----

  /** Targets keep their place, hash and times. */
  ghost predicate Extends(targets: seq<Target>, targets': seq<Target>) {
    && |targets| <= |targets'|
    && forall b | 0 <= b < |targets| :: targets'[b] == targets[b].(names := targets'[b].names)
  }

  lemma {:induction false} CoveredStill(lines: seq<Line>, j: nat, targets: seq<Target>, targets': seq<Target>,
                                        showAll: bool)
    requires j < |lines| && Covered(lines, j, targets, showAll) && Extends(targets, targets')
    ensures Covered(lines, j, targets', showAll)
  {
    var b :| CoveredBy(lines[j], targets, b, showAll);
    assert CoveredBy(lines[j], targets', b, showAll);
  }

  lemma {:induction false} TargetStill(lines: seq<Line>, s: nat, k: nat, targets: seq<Target>, targets': seq<Target>,
                                       b: nat)
    requires s <= k < |lines| && b < |targets| && TargetOk(lines, s, k, targets, b) && Extends(targets, targets')
    requires targets'[b].names == targets[b].names + if Named(lines[k], targets[b].hash) then [lines[k].name] else []
    ensures TargetOk(lines, s, k + 1, targets', b)
  {
    var j :| MadeFrom(lines, s, k, targets[b], j);
    assert MadeFrom(lines, s, k + 1, targets'[b], j);
  }

  lemma {:induction false} OrderStill(lines: seq<Line>, s: nat, k: nat, targets: seq<Target>)
    requires s <= k < |lines| && InOrder(lines, s, k, targets)
    requires forall a {:trigger TargetOk(lines, s, k, targets, a)} | 0 <= a < |targets| ::
               TargetOk(lines, s, k, targets, a)
    ensures InOrder(lines, s, k + 1, targets)
  {
    forall a, b | 0 <= a < b < |targets|
      ensures Precedes(lines, s, k + 1, targets[a].hash, targets[b].hash)
    {
      assert TargetOk(lines, s, k, targets, a) && Precedes(lines, s, k, targets[a].hash, targets[b].hash);
      var j :| MadeFrom(lines, s, k, targets[a], j);
    }
  }

  function WithName(t: Target, name: string): Target { t.(names := t.names + [name]) }

  /** Line `k` appended to target `a`. */
  lemma {:induction false} Appended(lines: seq<Line>, showAll: bool, s: nat, k: nat, targets: seq<Target>, a: nat)
    requires Grouped(lines, showAll, s, k, targets) && k < |lines| && CoveredBy(lines[k], targets, a, showAll)
    ensures Grouped(lines, showAll, s, k + 1, targets[a := WithName(targets[a], lines[k].name)])
  {
    var targets', k' := targets[a := WithName(targets[a], lines[k].name)], k + 1;
    OrderStill(lines, s, k, targets);
    forall b | 0 <= b < |targets'| ensures TargetOk(lines, s, k', targets', b) {
      assert TargetOk(lines, s, k, targets, b);
      TargetStill(lines, s, k, targets, targets', b);
    }
    assert CoveredBy(lines[k], targets', a, showAll);
    forall j | s <= j < k' && lines[j].Line? ensures Covered(lines, j, targets', showAll) {
      if j < k {
        assert Covered(lines, j, targets, showAll);
        CoveredStill(lines, j, targets, targets', showAll);
      }
    }
  }

  lemma {:induction false} NotSeen(lines: seq<Line>, showAll: bool, s: nat, k: nat, targets: seq<Target>, h: string)
    requires Grouped(lines, showAll, s, k, targets) && Find(targets, h) < 0
    ensures NamesOf(lines, s, k, h) == [] && forall j | s <= j < k :: !Named(lines[j], h)
  {
    forall j | s <= j < k ensures !Named(lines[j], h) {
      if lines[j].Line? {
        assert Covered(lines, j, targets, showAll);
        var b :| CoveredBy(lines[j], targets, b, showAll);
      }
    }
    NoNames(lines, s, k, h);
  }

  function NewTarget(l: Line): Target requires l.Line? { Target(l.hash, l.start, l.end, [l.name]) }

  lemma {:induction false} LastInOrder(lines: seq<Line>, s: nat, k: nat, targets: seq<Target>, t: Target)
    requires s <= k < |lines| && InOrder(lines, s, k + 1, targets)
    requires forall j | s <= j < k :: !Named(lines[j], t.hash)
    requires forall a {:trigger TargetOk(lines, s, k, targets, a)} | 0 <= a < |targets| ::
               TargetOk(lines, s, k, targets, a)
    ensures InOrder(lines, s, k + 1, targets + [t])
  {
    forall a | 0 <= a < |targets| ensures Precedes(lines, s, k + 1, targets[a].hash, t.hash) {
      assert TargetOk(lines, s, k, targets, a);
      var j :| MadeFrom(lines, s, k, targets[a], j);
    }
  }

  /** Line `k` opens a new target. */
  lemma {:induction false} Opened(lines: seq<Line>, showAll: bool, s: nat, k: nat, targets: seq<Target>)
    requires Grouped(lines, showAll, s, k, targets) && k < |lines| && lines[k].Line? && Find(targets, lines[k].hash) < 0
    ensures Grouped(lines, showAll, s, k + 1, targets + [NewTarget(lines[k])])
  {
    var targets', k' := targets + [NewTarget(lines[k])], k + 1;
    assert targets'[..|targets|] == targets;
    NotSeen(lines, showAll, s, k, targets, lines[k].hash);
    OrderStill(lines, s, k, targets);
    LastInOrder(lines, s, k, targets, NewTarget(lines[k]));
    assert MadeFrom(lines, s, k', targets'[|targets|], k);
    forall b | 0 <= b < |targets'| ensures TargetOk(lines, s, k', targets', b) {
      if b < |targets| {
        assert TargetOk(lines, s, k, targets, b);
        TargetStill(lines, s, k, targets, targets', b);
      }
    }
    assert CoveredBy(lines[k], targets', |targets|, showAll);
    forall j | s <= j < k' && lines[j].Line? ensures Covered(lines, j, targets', showAll) {
      if j < k {
        assert Covered(lines, j, targets, showAll);
        CoveredStill(lines, j, targets, targets', showAll);
      }
    }
  }

  lemma {:induction false} Skipped(lines: seq<Line>, showAll: bool, s: nat, k: nat, targets: seq<Target>)
    requires Grouped(lines, showAll, s, k, targets) && k < |lines| && lines[k].Malformed?
    ensures Grouped(lines, showAll, s, k + 1, targets)
  {
    var k' := k + 1;
    OrderStill(lines, s, k, targets);
    forall b | 0 <= b < |targets| ensures TargetOk(lines, s, k', targets, b) {
      assert TargetOk(lines, s, k, targets, b);
      TargetStill(lines, s, k, targets, targets, b);
    }
    forall j | s <= j < k' && lines[j].Line? ensures Covered(lines, j, targets, showAll) {}
  }

  /** The dictionary tells whether the command has been seen in this build with other times. */
  lemma {:induction false} ClashFound(lines: seq<Line>, s: nat, k: nat, targets: seq<Target>)
    requires Grouped(lines, false, s, k, targets) && k < |lines| && lines[k].Line?
    ensures var a := Find(targets, lines[k].hash);
            (exists j | s <= j < k :: Clashes(lines[j], lines[k]))
              <==> 0 <= a && (targets[a].start != lines[k].start || targets[a].end != lines[k].end)
  {
    var a := Find(targets, lines[k].hash);
    if j :| s <= j < k && Clashes(lines[j], lines[k]) {
      assert Covered(lines, j, targets, false);
      var b :| CoveredBy(lines[j], targets, b, false);
      assert a == b;
    } else if 0 <= a {
      assert TargetOk(lines, s, k, targets, a);
      var j: nat :| MadeFrom(lines, s, k, targets[a], j);
      assert !Clashes(lines[j], lines[k]);
    }
  }

  /** The names of the lines of the commands in `hs`, command by command. */
  function Gathered(lines: seq<Line>, s: nat, k: nat, hs: seq<string>): seq<string>
    requires s <= k <= |lines|
  {
    if hs == [] then [] else Gathered(lines, s, k, hs[..|hs| - 1]) + NamesOf(lines, s, k, hs[|hs| - 1])
  }

  lemma {:induction false} GatheredNext(lines: seq<Line>, s: nat, k: nat, hs: seq<string>)
    requires s <= k < |lines| && forall a, b | 0 <= a < b < |hs| :: hs[a] != hs[b]
    ensures multiset(Gathered(lines, s, k + 1, hs))
         == multiset(Gathered(lines, s, k, hs)) +
            if lines[k].Line? && lines[k].hash in hs then multiset{lines[k].name} else multiset{}
  {
    if hs != [] {
      var n := |hs| - 1;
      assert hs == hs[..n] + [hs[n]];
      GatheredNext(lines, s, k, hs[..n]);
      assert hs[n] !in hs[..n];
    }
  }

  lemma {:induction false} GatheredNone(lines: seq<Line>, s: nat, hs: seq<string>)
    requires s <= |lines|
    ensures Gathered(lines, s, s, hs) == []
  {
    if hs != [] { GatheredNone(lines, s, hs[..|hs| - 1]); }
  }

  ghost predicate Listed(lines: seq<Line>, j: nat, hs: seq<string>)
    requires j < |lines|
  {
    lines[j].Line? ==> lines[j].hash in hs
  }

  ghost predicate Balanced(lines: seq<Line>, s: nat, k: nat, hs: seq<string>)
    requires s <= k <= |lines|
  {
    multiset(Gathered(lines, s, k, hs)) == multiset(AllNames(lines, s, k))
  }

  lemma {:induction false} BalancedNone(lines: seq<Line>, s: nat, hs: seq<string>)
    requires s <= |lines|
    ensures Balanced(lines, s, s, hs)
  {
    GatheredNone(lines, s, hs);
  }

  lemma {:induction false} GatheredStep(lines: seq<Line>, s: nat, k: nat, hs: seq<string>)
    requires s <= k < |lines| && (forall a, b | 0 <= a < b < |hs| :: hs[a] != hs[b]) && Listed(lines, k, hs)
    requires Balanced(lines, s, k, hs)
    ensures Balanced(lines, s, k + 1, hs)
  {
    GatheredNext(lines, s, k, hs);
    AllNamesNext(lines, s, k);
  }

  lemma {:induction false} GatheredAll(lines: seq<Line>, s: nat, k: nat, hs: seq<string>)
    requires s <= k <= |lines| && forall a, b | 0 <= a < b < |hs| :: hs[a] != hs[b]
    requires forall j {:trigger Listed(lines, j, hs)} | s <= j < k :: Listed(lines, j, hs)
    ensures Balanced(lines, s, k, hs)
  {
    if k == s {
      BalancedNone(lines, s, hs);
    } else {
      GatheredAll(lines, s, k - 1, hs);
      assert Listed(lines, k - 1, hs);
      GatheredStep(lines, s, k - 1, hs);
    }
  }

  lemma {:induction false} AllNamesNext(lines: seq<Line>, s: nat, k: nat)
    requires s <= k < |lines|
    ensures multiset(AllNames(lines, s, k + 1))
         == multiset(AllNames(lines, s, k)) + if lines[k].Line? then multiset{lines[k].name} else multiset{}
  {
  }

  function Hashes(targets: seq<Target>): (hs: seq<string>)
    ensures |hs| == |targets| && forall a | 0 <= a < |hs| :: hs[a] == targets[a].hash
  {
    seq(|targets|, a requires 0 <= a < |targets| => targets[a].hash)
  }

  lemma {:induction false} FlatGathered(lines: seq<Line>, s: nat, k: nat, targets: seq<Target>)
    requires s <= k <= |lines|
    requires forall a | 0 <= a < |targets| :: targets[a].names == NamesOf(lines, s, k, targets[a].hash)
    ensures Flat(targets) == Gathered(lines, s, k, Hashes(targets))
  {
    if targets != [] {
      var n := |targets| - 1;
      FlatGathered(lines, s, k, targets[..n]);
      assert Hashes(targets)[..n] == Hashes(targets[..n]);
    }
  }

  /** Every name on a line is in the targets, as often as there are lines with it. */
  lemma {:induction false} EachNameOnce(lines: seq<Line>, showAll: bool, s: nat, k: nat, targets: seq<Target>)
    requires Grouped(lines, showAll, s, k, targets)
    ensures multiset(Flat(targets)) == multiset(AllNames(lines, s, k))
  {
    forall a | 0 <= a < |targets| ensures targets[a].names == NamesOf(lines, s, k, targets[a].hash) {
      assert TargetOk(lines, s, k, targets, a);
    }
    forall j | s <= j < k ensures Listed(lines, j, Hashes(targets)) {
      if lines[j].Line? {
        assert Covered(lines, j, targets, showAll);
        var b :| CoveredBy(lines[j], targets, b, showAll);
        assert Hashes(targets)[b] == lines[j].hash;
      }
    }
    FlatGathered(lines, s, k, targets);
    GatheredAll(lines, s, k, Hashes(targets));
  }

  predicate EndsUpTo(targets: seq<Target>, last: int) {
    EndsInOrder(targets) && forall a | 0 <= a < |targets| :: targets[a].end <= last
  }

  lemma {:induction false} EndsAdded(targets: seq<Target>, last: int, t: Target)
    requires EndsUpTo(targets, last) && (targets == [] || last <= t.end)
    ensures EndsUpTo(targets + [t], t.end)
  {
  }

  lemma {:induction false} EndsKept(targets: seq<Target>, last: int, a: nat, name: string, end: int)
    requires EndsUpTo(targets, last) && a < |targets| && last <= end
    ensures EndsUpTo(targets[a := WithName(targets[a], name)], end)
  {
  }

  /** The targets of the last build in the log (of all builds, with `showAll`): its well-formed lines are partitioned by
      command, the targets stand in the order of their first lines, and a target has the times of its first line, which
      are those of every line in it unless `showAll`. */
  method ReadTargets(lines: seq<Line>, showAll: bool) returns (targets: seq<Target>)
    ensures Grouped(lines, showAll, Since(lines, showAll, |lines|), |lines|, targets)
    ensures multiset(Flat(targets)) == multiset(AllNames(lines, Since(lines, showAll, |lines|), |lines|))
    ensures !showAll ==> EndsInOrder(targets)
  {
    targets := [];
    var lastEndSeen := 0;
    for k := 0 to |lines|
      invariant Grouped(lines, showAll, Since(lines, showAll, k), k, targets)
      invariant lastEndSeen == LastEnd(lines, k)
      invariant !showAll ==> EndsUpTo(targets, lastEndSeen)
    {
      if lines[k].Malformed? {
        Skipped(lines, showAll, Since(lines, showAll, k), k, targets);
      } else {
        var Line(start, end, name, hash) := lines[k];
        ghost var s := Since(lines, showAll, k);
        if !showAll && end < lastEndSeen {
          targets := [];
          s := k;
        }
        if !showAll { ClashFound(lines, s, k, targets); }
        var at := Find(targets, hash);
        if 0 <= at && !showAll && (targets[at].start != start || targets[at].end != end) {
          targets := [];
          at := -1;
          s := k;
        }
        assert s == Since(lines, showAll, k + 1);
        if at < 0 {
          Opened(lines, showAll, s, k, targets);
          if !showAll { EndsAdded(targets, lastEndSeen, NewTarget(lines[k])); }
          targets := targets + [Target(hash, start, end, [name])];
        } else {
          Appended(lines, showAll, s, k, targets, at);
          if !showAll { EndsKept(targets, lastEndSeen, at, name, end); }
          targets := targets[at := WithName(targets[at], name)];
        }
        lastEndSeen := end;
      }
    }
    EachNameOnce(lines, showAll, Since(lines, showAll, |lines|), |lines|, targets);
  }
}
