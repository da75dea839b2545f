/** Weighted durations of build steps: a sweep over start and stop events keeps one running total, from which each
    step's share is read off as a difference. Time is exact here. */
module BuildReport {

  datatype Task = Task(start: real, end: real)
  datatype Event = Event(time: real, stop: bool, target: nat)
  datatype Report = IndexError | KeyError | Report(weighted: seq<real>, total: real)

  /** Sorted by time, starts before stops; events of the same kind at the same time in any order. */
  predicate Before(a: Event, b: Event) { a.time < b.time || (a.time == b.time && (!a.stop || b.stop)) }
  predicate Ordered(ev: seq<Event>) { forall j, k | 0 <= j < k < |ev| :: Before(ev[j], ev[k]) }

  function StartOf(tasks: seq<Task>, i: nat): Event requires i < |tasks| { Event(tasks[i].start, false, i) }
  function StopOf(tasks: seq<Task>, i: nat): Event requires i < |tasks| { Event(tasks[i].end, true, i) }

  /** `ev` holds the start and the stop of every task once, and nothing else, in order. */
  ghost predicate Sweepable(tasks: seq<Task>, ev: seq<Event>) {
    && Ordered(ev) && (forall j, k | 0 <= j < k < |ev| :: ev[j] != ev[k])
    && (forall i | 0 <= i < |tasks| :: StartOf(tasks, i) in ev && StopOf(tasks, i) in ev)
    && (forall k | 0 <= k < |ev| :: ev[k].target < |tasks| &&
          ev[k] == if ev[k].stop then StopOf(tasks, ev[k].target) else StartOf(tasks, ev[k].target))
  }

  // ----- the direct account -----

  /** The task runs throughout the gap between two times. */
  predicate Spans(t: Task, lo: real, hi: real) { t.start <= lo && hi <= t.end }

  /** How many of the first `n` tasks run throughout the gap. */
  function Count(tasks: seq<Task>, n: nat, lo: real, hi: real): nat
    requires n <= |tasks|
  {
    if n == 0 then 0 else Count(tasks, n - 1, lo, hi) + if Spans(tasks[n - 1], lo, hi) then 1 else 0
  }

  /** What each task running in the gap is charged for it. */
  function Share(tasks: seq<Task>, lo: real, hi: real): real {
    var n := Count(tasks, |tasks|, lo, hi);
    if lo < hi && 0 < n then (hi - lo) / n as real else 0.0
  }

  /** Task `i`'s charges for the gaps between the first `k` events. */
  function Direct(tasks: seq<Task>, ev: seq<Event>, i: nat, k: nat): real
    requires i < |tasks| && k <= |ev|
  {
    if k <= 1 then 0.0 else Direct(tasks, ev, i, k - 1) + Charge(tasks, i, ev[k - 2].time, ev[k - 1].time)
  }

  function Charge(tasks: seq<Task>, i: nat, lo: real, hi: real): real
    requires i < |tasks|
  {
    if Spans(tasks[i], lo, hi) then Share(tasks, lo, hi) else 0.0
  }

  /** Time between the first `k` events during which at least one task ran. */
  function Busy(tasks: seq<Task>, ev: seq<Event>, k: nat): real
    requires k <= |ev|
  {
    if k <= 1 then 0.0
    else Busy(tasks, ev, k - 1) + BusyGap(tasks, ev[k - 2].time, ev[k - 1].time)
  }

  function BusyGap(tasks: seq<Task>, lo: real, hi: real): real {
    if lo < hi && 0 < Count(tasks, |tasks|, lo, hi) then hi - lo else 0.0
  }

  // ----- the tasks running after `k` events -----

  ghost predicate Begun(tasks: seq<Task>, ev: seq<Event>, k: nat, i: nat)
    requires k <= |ev| && i < |tasks|
  {
    StartOf(tasks, i) in ev[..k]
  }

  ghost predicate Ended(tasks: seq<Task>, ev: seq<Event>, k: nat, i: nat)
    requires k <= |ev| && i < |tasks|
  {
    StopOf(tasks, i) in ev[..k]
  }

  /** In a gap of positive length, the tasks begun and not ended are those that span it. */
  lemma {:induction false} RunningSpans(tasks: seq<Task>, ev: seq<Event>, k: nat, i: nat)
    requires Sweepable(tasks, ev) && 0 < k < |ev| && i < |tasks| && ev[k - 1].time < ev[k].time
    ensures Begun(tasks, ev, k, i) <==> tasks[i].start <= ev[k - 1].time
    ensures Ended(tasks, ev, k, i) <==> tasks[i].end < ev[k].time
  {
    InFront(ev, k, StartOf(tasks, i));
    InFront(ev, k, StopOf(tasks, i));
  }

  lemma {:induction false} InFront(ev: seq<Event>, k: nat, e: Event)
    requires Ordered(ev) && 0 < k < |ev| && ev[k - 1].time < ev[k].time && e in ev
    ensures e in ev[..k] <==> e.time <= ev[k - 1].time
    ensures e in ev[..k] <==> e.time < ev[k].time
  {
    var j :| 0 <= j < |ev| && ev[j] == e;
    if j < k {
      assert ev[..k][j] == e;
      assert j < k - 1 ==> Before(ev[j], ev[k - 1]);
    } else {
      assert k < j ==> Before(ev[k], ev[j]);
      forall l | 0 <= l < k ensures ev[l] != e { assert l < k - 1 ==> Before(ev[l], ev[k - 1]); }
    }
  }

  lemma {:induction false} CountIs(tasks: seq<Task>, n: nat, lo: real, hi: real, spanning: set<nat>)
    requires n <= |tasks| && forall i: nat :: i in spanning <==> i < n && Spans(tasks[i], lo, hi)
    ensures |spanning| == Count(tasks, n, lo, hi)
  {
    if n == 0 {
      assert spanning == {};
    } else {
      CountIs(tasks, n - 1, lo, hi, spanning - {n - 1});
    }
  }

  /** Where task `i` stands after `k` events and `g - 1` gaps, given the running total. */
  ghost predicate Accounted(tasks: seq<Task>, ev: seq<Event>, k: nat, g: nat, i: nat, last: real,
                            running: map<nat, real>, weighted: seq<real>)
    requires k <= |ev| && g <= |ev| && i < |tasks| == |weighted|
  {
    && (i in running <==> Begun(tasks, ev, k, i) && !Ended(tasks, ev, k, i))
    && (i in running ==> Direct(tasks, ev, i, g) == last - running[i])
    && (!Begun(tasks, ev, k, i) ==> Direct(tasks, ev, i, g) == 0.0)
    && (!Ended(tasks, ev, k, i) ==> weighted[i] == 0.0)
    && (Ended(tasks, ev, k, i) ==>
          Begun(tasks, ev, k, i) && tasks[i].start <= tasks[i].end && weighted[i] == Direct(tasks, ev, i, g))
  }

  ghost predicate AllAccounted(tasks: seq<Task>, ev: seq<Event>, k: nat, g: nat, last: real, running: map<nat, real>,
                               weighted: seq<real>)
    requires k <= |ev| && g <= |ev| && |tasks| == |weighted|
  {
    && (forall i | i in running :: i < |tasks|)
    && (forall i | 0 <= i < |tasks| :: Accounted(tasks, ev, k, g, i, last, running, weighted))
  }

  lemma {:induction false} GapStep(tasks: seq<Task>, ev: seq<Event>, k: nat, i: nat, last: real,
                                   running: map<nat, real>, weighted: seq<real>)
    requires Sweepable(tasks, ev) && 0 < k < |ev| && i < |tasks| == |weighted|
    requires Accounted(tasks, ev, k, k, i, last, running, weighted)
    ensures var last' := last + Share(tasks, ev[k - 1].time, ev[k].time);
            Accounted(tasks, ev, k, k + 1, i, last', running, weighted)
  {
    var lo, hi := ev[k - 1].time, ev[k].time;
    assert Direct(tasks, ev, i, k + 1) == Direct(tasks, ev, i, k) + Charge(tasks, i, lo, hi);
    if lo < hi {
      RunningSpans(tasks, ev, k, i);
    }
  }

  /** The number of running tasks divides the gap as the direct account does. */
  lemma {:induction false} SharedGap(tasks: seq<Task>, ev: seq<Event>, k: nat, last: real, running: map<nat, real>,
                                     weighted: seq<real>)
    requires Sweepable(tasks, ev) && 0 < k < |ev| && |tasks| == |weighted|
    requires AllAccounted(tasks, ev, k, k, last, running, weighted)
    ensures var (lo, hi) := (ev[k - 1].time, ev[k].time);
            Share(tasks, lo, hi) == if 0 < |running| then (hi - lo) / |running| as real else 0.0
  {
    var lo, hi := ev[k - 1].time, ev[k].time;
    assert Before(ev[k - 1], ev[k]);
    if lo < hi {
      forall i: nat ensures i in running.Keys <==> i < |tasks| && Spans(tasks[i], lo, hi) {
        if i < |tasks| {
          RunningSpans(tasks, ev, k, i);
          assert Accounted(tasks, ev, k, k, i, last, running, weighted);
        }
      }
      CountIs(tasks, |tasks|, lo, hi, running.Keys);
      assert |running.Keys| == |running|;
    }
  }

  /** One event more. */
  lemma {:induction false} OneMore(ev: seq<Event>, k: nat, e: Event)
    requires k < |ev|
    ensures e in ev[..k + 1] <==> e in ev[..k] || e == ev[k]
  {
    assert ev[..k + 1] == ev[..k] + [ev[k]];
  }

  lemma {:induction false} EventStep(tasks: seq<Task>, ev: seq<Event>, k: nat, i: nat, last: real,
                                     running: map<nat, real>, weighted: seq<real>,
                  running': map<nat, real>, weighted': seq<real>)
    requires Sweepable(tasks, ev) && k < |ev| && i < |tasks| == |weighted| == |weighted'|
    requires Accounted(tasks, ev, k, k + 1, i, last, running, weighted)
    requires var j := ev[k].target;
             if ev[k].stop then
               j in running && running' == running - {j} && weighted' == weighted[j := last - running[j]]
             else running' == running[j := last] && weighted' == weighted
    ensures Accounted(tasks, ev, k + 1, k + 1, i, last, running', weighted')
  {
    OneMore(ev, k, StartOf(tasks, i));
    OneMore(ev, k, StopOf(tasks, i));
    assert ev[k] !in ev[..k];
    if ev[k] == StopOf(tasks, i) { StartedFirst(tasks, ev, k, i); }
  }

  /** A task stopped while running has not ended before it started. */
  lemma {:induction false} StartedFirst(tasks: seq<Task>, ev: seq<Event>, k: nat, i: nat)
    requires Sweepable(tasks, ev) && k < |ev| && i < |tasks| && ev[k] == StopOf(tasks, i)
    ensures Begun(tasks, ev, k, i) <==> tasks[i].start <= tasks[i].end
  {
    var j :| 0 <= j < |ev| && ev[j] == StartOf(tasks, i);
    if j < k {
      assert Before(ev[j], ev[k]) && ev[..k][j] == ev[j];
    } else {
      assert Before(ev[k], ev[j]);
    }
  }

  // ----- totals -----

  function Sum(xs: seq<real>, n: nat): real
    requires n <= |xs|
  {
    if n == 0 then 0.0 else Sum(xs, n - 1) + xs[n - 1]
  }

  lemma {:induction false} SumUpdate(xs: seq<real>, j: nat, v: real, n: nat)
    requires n <= |xs| && j < |xs|
    ensures Sum(xs[j := v], n) == Sum(xs, n) + if j < n then v - xs[j] else 0.0
  {
    if 0 < n { SumUpdate(xs, j, v, n - 1); }
  }

  lemma {:induction false} ChargesAdded(tasks: seq<Task>, ev: seq<Event>, k: nat, n: nat)
    requires 1 < k <= |ev| && n <= |tasks|
    ensures var (lo, hi) := (ev[k - 2].time, ev[k - 1].time);
            SumDirect(tasks, ev, k, n) ==
            SumDirect(tasks, ev, k - 1, n) + Count(tasks, n, lo, hi) as real * Share(tasks, lo, hi)
  {
    if 0 < n { ChargesAdded(tasks, ev, k, n - 1); }
  }

  function SumDirect(tasks: seq<Task>, ev: seq<Event>, k: nat, n: nat): real
    requires k <= |ev| && n <= |tasks|
  {
    if n == 0 then 0.0 else SumDirect(tasks, ev, k, n - 1) + Direct(tasks, ev, n - 1, k)
  }

  lemma {:induction false} ShareTimes(x: real, n: nat)
    requires 0 < n
    ensures n as real * (x / n as real) == x
    ensures 0.0 <= x ==> 0.0 <= x / n as real <= x
  {
  }

  lemma {:induction false} GapConserved(tasks: seq<Task>, lo: real, hi: real)
    ensures Count(tasks, |tasks|, lo, hi) as real * Share(tasks, lo, hi) == BusyGap(tasks, lo, hi)
  {
    var n := Count(tasks, |tasks|, lo, hi);
    if lo < hi && 0 < n { ShareTimes(hi - lo, n); }
  }

  /** All charges together are the time during which something ran. */
  lemma {:induction false} ChargesConserve(tasks: seq<Task>, ev: seq<Event>, k: nat)
    requires k <= |ev|
    ensures SumDirect(tasks, ev, k, |tasks|) == Busy(tasks, ev, k)
  {
    if k <= 1 {
      NoCharges(tasks, ev, k, |tasks|);
    } else {
      ChargesConserve(tasks, ev, k - 1);
      ChargesAdded(tasks, ev, k, |tasks|);
      GapConserved(tasks, ev[k - 2].time, ev[k - 1].time);
    }
  }

  lemma {:induction false} NoCharges(tasks: seq<Task>, ev: seq<Event>, k: nat, n: nat)
    requires k <= 1 && k <= |ev| && n <= |tasks|
    ensures SumDirect(tasks, ev, k, n) == 0.0
  {
    if 0 < n { NoCharges(tasks, ev, k, n - 1); }
  }

  // ----- a task is charged at most its duration -----

  lemma {:induction false} CountPositive(tasks: seq<Task>, n: nat, i: nat, lo: real, hi: real)
    requires i < n <= |tasks| && Spans(tasks[i], lo, hi)
    ensures 0 < Count(tasks, n, lo, hi)
  {
    if i < n - 1 { CountPositive(tasks, n - 1, i, lo, hi); }
  }

  function Clamp(t: Task,
                 x: real): real { if x <= t.start then 0.0 else if x <= t.end then x - t.start else t.end - t.start }

  /** No event time falls inside a gap. */
  lemma {:induction false} NothingInside(ev: seq<Event>, k: nat, e: Event)
    requires Ordered(ev) && 0 < k < |ev| && e in ev
    ensures ev[k - 1].time <= ev[k].time && (ev[k - 1].time < e.time ==> ev[k].time <= e.time)
  {
    assert Before(ev[k - 1], ev[k]);
    if ev[k - 1].time < ev[k].time { InFront(ev, k, e); }
  }

  /** A task is charged at most the length of a gap, and only for a gap in which it ran. */
  lemma {:induction false} ChargeAtMost(tasks: seq<Task>, i: nat, lo: real, hi: real)
    requires i < |tasks| && lo <= hi
    ensures 0.0 <= Charge(tasks, i, lo, hi) <= if Spans(tasks[i], lo, hi) then hi - lo else 0.0
  {
    if Spans(tasks[i], lo, hi) {
      CountPositive(tasks, |tasks|, i, lo, hi);
      ShareTimes(hi - lo, Count(tasks, |tasks|, lo, hi));
    }
  }

  /** No task starts before the first event. */
  lemma {:induction false} FirstStart(tasks: seq<Task>, ev: seq<Event>, i: nat)
    requires Sweepable(tasks, ev) && i < |tasks| && ev != []
    ensures ev[0].time <= tasks[i].start
  {
    var j :| 0 <= j < |ev| && ev[j] == StartOf(tasks, i);
    assert 0 < j ==> Before(ev[0], ev[j]);
  }

  lemma {:induction false} ClampGrows(t: Task, lo: real, hi: real, c: real)
    requires t.start <= t.end && lo <= hi && c <= if Spans(t, lo, hi) then hi - lo else 0.0
    requires lo < t.start ==> hi <= t.start
    ensures Clamp(t, lo) + c <= Clamp(t, hi)
  {
  }

  lemma {:induction false} ChargedAtMost(tasks: seq<Task>, ev: seq<Event>, i: nat, k: nat)
    requires Sweepable(tasks, ev) && i < |tasks| && tasks[i].start <= tasks[i].end && 0 < k <= |ev|
    ensures 0.0 <= Direct(tasks, ev, i, k) <= Clamp(tasks[i], ev[k - 1].time)
  {
    if k == 1 {
      FirstStart(tasks, ev, i);
    } else {
      ChargedAtMost(tasks, ev, i, k - 1);
      var lo, hi := ev[k - 2].time, ev[k - 1].time;
      NothingInside(ev, k - 1, StartOf(tasks, i));
      ChargeAtMost(tasks, i, lo, hi);
      ClampGrows(tasks[i], lo, hi, Charge(tasks, i, lo, hi));
    }
  }

  /** A task's weighted duration lies between 0 and its duration. */
  lemma {:induction false} WeightedAtMostDuration(tasks: seq<Task>, ev: seq<Event>, i: nat)
    requires Sweepable(tasks, ev) && i < |tasks| && tasks[i].start <= tasks[i].end
    ensures 0.0 <= Direct(tasks, ev, i, |ev|) <= tasks[i].end - tasks[i].start
  {
    assert StartOf(tasks, i) in ev;
    ChargedAtMost(tasks, ev, i, |ev|);
  }

  // ----- the sweep -----

  predicate Distinct(ev: seq<Event>) { forall j, k | 0 <= j < k < |ev| :: ev[j] != ev[k] }

  /** Insert one event into a sorted list. */
  method Insert(ev: seq<Event>, e: Event) returns (r: seq<Event>)
    requires Ordered(ev) && Distinct(ev) && e !in ev
    ensures Ordered(r) && Distinct(r) && forall x :: x in r <==> x in ev || x == e
  {
    var k := |ev|;
    while 0 < k && !Before(ev[k - 1], e)
      invariant 0 <= k <= |ev| && forall j | k <= j < |ev| :: Before(e, ev[j])
    {
      k := k - 1;
    }
    Inserted(ev, e, k);
    r := ev[..k] + [e] + ev[k..];
  }

  lemma {:induction false} Inserted(ev: seq<Event>, e: Event, k: nat)
    requires Ordered(ev) && Distinct(ev) && e !in ev && k <= |ev| && (0 < k ==> Before(ev[k - 1], e))
    requires forall j | k <= j < |ev| :: Before(e, ev[j])
    ensures var r := ev[..k] + [e] + ev[k..]; Ordered(r) && Distinct(r) && forall x :: x in r <==> x in ev || x == e
  {
    var r := ev[..k] + [e] + ev[k..];
    forall a, b | 0 <= a < b < |r| ensures Before(r[a], r[b]) && r[a] != r[b] {
      var a', b' := if a < k then a else a - 1, if b < k then b else b - 1;
      assert a == k || r[a] == ev[a'];
      assert b == k || r[b] == ev[b'];
      if b == k { assert a < k - 1 ==> Before(ev[a], ev[k - 1]); }
    }
    assert ev == ev[..k] + ev[k..];
  }

  /** Sort events; which of equal ones comes first does not matter. */
  method Sort(ev: seq<Event>) returns (r: seq<Event>)
    requires Distinct(ev)
    ensures Ordered(r) && Distinct(r) && forall x :: x in r <==> x in ev
  {
    r := [];
    for k := 0 to |ev|
      invariant Ordered(r) && Distinct(r) && forall x :: x in r <==> x in ev[..k]
    {
      assert ev[..k + 1] == ev[..k] + [ev[k]];
      r := Insert(r, ev[k]);
    }
    assert ev[..|ev|] == ev;
  }

  /** The list holds the events of the first `n` tasks. */
  ghost predicate Listed(tasks: seq<Task>, ev: seq<Event>, n: nat) {
    && n <= |tasks| && Distinct(ev)
    && (forall i | 0 <= i < n :: StartOf(tasks, i) in ev && StopOf(tasks, i) in ev)
    && (forall e | e in ev :: e.target < n && (e == StartOf(tasks, e.target) || e == StopOf(tasks, e.target)))
  }

  method ListEvents(tasks: seq<Task>) returns (ev: seq<Event>)
    ensures Listed(tasks, ev, |tasks|)
  {
    ev := [];
    for i := 0 to |tasks|
      invariant Listed(tasks, ev, i)
    {
      ev := ev + [StartOf(tasks, i)] + [StopOf(tasks, i)];
    }
  }

  /** The running total advances as the direct account does. */
  lemma {:induction false} GapSteps(tasks: seq<Task>, ev: seq<Event>, k: nat, last: real, running: map<nat, real>,
                                    weighted: seq<real>)
    requires Sweepable(tasks, ev) && k < |ev| && |tasks| == |weighted|
    requires AllAccounted(tasks, ev, k, k, last, running, weighted)
    ensures var lo := ev[if 0 < k then k - 1 else 0].time;
            var last' := if 0 < |running| then last + (ev[k].time - lo) / |running| as real else last;
            AllAccounted(tasks, ev, k, k + 1, last', running, weighted)
  {
    if 0 < k {
      SharedGap(tasks, ev, k, last, running, weighted);
      var last' := last + Share(tasks, ev[k - 1].time, ev[k].time);
      var g := k + 1;
      forall i | 0 <= i < |tasks| ensures Accounted(tasks, ev, k, g, i, last', running, weighted) {
        GapStep(tasks, ev, k, i, last, running, weighted);
      }
    } else {
      NoneBegun(tasks, ev, last, running, weighted);
    }
  }

  lemma {:induction false} NoneBegun(tasks: seq<Task>, ev: seq<Event>, last: real, running: map<nat, real>,
                                     weighted: seq<real>)
    requires ev != [] && |tasks| == |weighted| && AllAccounted(tasks, ev, 0, 0, last, running, weighted)
    ensures running == map[] && AllAccounted(tasks, ev, 0, 1, last, running, weighted)
  {
    forall i | 0 <= i < |tasks| ensures i !in running && Accounted(tasks, ev, 0, 1, i, last, running, weighted) {
      assert Accounted(tasks, ev, 0, 0, i, last, running, weighted);
    }
  }

  lemma {:induction false} StartSteps(tasks: seq<Task>, ev: seq<Event>, k: nat, last: real, running: map<nat, real>,
                                      weighted: seq<real>)
    requires Sweepable(tasks, ev) && k < |ev| && |tasks| == |weighted| && !ev[k].stop
    requires AllAccounted(tasks, ev, k, k + 1, last, running, weighted)
    ensures AllAccounted(tasks, ev, k + 1, k + 1, last, running[ev[k].target := last], weighted)
  {
    var k1, running' := k + 1, running[ev[k].target := last];
    forall i | 0 <= i < |tasks| ensures Accounted(tasks, ev, k1, k1, i, last, running', weighted) {
      EventStep(tasks, ev, k, i, last, running, weighted, running', weighted);
    }
  }

  /** A stop event finds its task running, unless the task ends before it starts. */
  lemma {:induction false} StopFinds(tasks: seq<Task>, ev: seq<Event>, k: nat, last: real, running: map<nat, real>,
                                     weighted: seq<real>)
    requires Sweepable(tasks, ev) && k < |ev| && |tasks| == |weighted| && ev[k].stop
    requires AllAccounted(tasks, ev, k, k + 1, last, running, weighted)
    ensures ev[k].target in running <==> tasks[ev[k].target].start <= tasks[ev[k].target].end
  {
    var i := ev[k].target;
    assert Accounted(tasks, ev, k, k + 1, i, last, running, weighted);
    StartedFirst(tasks, ev, k, i);
    assert ev[k] !in ev[..k];
  }

  lemma {:induction false} StopSteps(tasks: seq<Task>, ev: seq<Event>, k: nat, last: real, running: map<nat, real>,
                                     weighted: seq<real>)
    requires Sweepable(tasks, ev) && k < |ev| && |tasks| == |weighted| && ev[k].stop && ev[k].target in running
    requires AllAccounted(tasks, ev, k, k + 1, last, running, weighted)
    ensures var j := ev[k].target;
            && AllAccounted(tasks, ev, k + 1, k + 1, last, running - {j}, weighted[j := last - running[j]])
            && weighted[j] == 0.0
  {
    var j := ev[k].target;
    var k1, running', weighted' := k + 1, running - {j}, weighted[j := last - running[j]];
    forall i | 0 <= i < |tasks| ensures Accounted(tasks, ev, k1, k1, i, last, running', weighted') {
      EventStep(tasks, ev, k, i, last, running, weighted, running', weighted');
    }
    assert Accounted(tasks, ev, k, k + 1, j, last, running, weighted);
  }

  lemma {:induction false} AllEnded(tasks: seq<Task>, ev: seq<Event>, last: real, running: map<nat, real>,
                                    weighted: seq<real>)
    requires Sweepable(tasks, ev) && |tasks| == |weighted|
    requires AllAccounted(tasks, ev, |ev|, |ev|, last, running, weighted)
    ensures running == map[]
    ensures forall i | 0 <= i < |tasks| :: tasks[i].start <= tasks[i].end && weighted[i] == Direct(tasks, ev, i, |ev|)
  {
    assert ev[..|ev|] == ev;
    forall i | 0 <= i < |tasks|
      ensures i !in running && tasks[i].start <= tasks[i].end && weighted[i] == Direct(tasks, ev, i, |ev|)
    {
      assert Accounted(tasks, ev, |ev|, |ev|, i, last, running, weighted);
    }
  }

  /** Scan the events with the tasks now running and one running total. `ok` is false when a stop event does not find
      its task, which raises a KeyError. */
  method Sweep(tasks: seq<Task>, ev: seq<Event>) returns (ok: bool, weighted: seq<real>, weightedTotal: real)
    requires Sweepable(tasks, ev) && ev != []
    ensures ok <==> forall i | 0 <= i < |tasks| :: tasks[i].start <= tasks[i].end
    ensures ok ==> |weighted| == |tasks| && weightedTotal == Sum(weighted, |tasks|)
    ensures ok ==> forall i | 0 <= i < |tasks| :: weighted[i] == Direct(tasks, ev, i, |ev|)
  {
    ok := true;
    var runningTasks: map<nat, real> := map[];
    weighted := seq(|tasks|, _ => 0.0);
    weightedTotal := 0.0;
    var lastTime, lastWeightedTime := ev[0].time, 0.0;
    ZeroSum(|tasks|, |tasks|);
    for k := 0 to |ev|
      invariant ok && |weighted| == |tasks| && lastTime == ev[if 0 < k then k - 1 else 0].time
      invariant AllAccounted(tasks, ev, k, k, lastWeightedTime, runningTasks, weighted)
      invariant weightedTotal == Sum(weighted, |tasks|)
    {
      var Event(time, stop, target) := ev[k];
      var numRunning := |runningTasks|;
      GapSteps(tasks, ev, k, lastWeightedTime, runningTasks, weighted);
      if 0 < numRunning {
        lastWeightedTime := lastWeightedTime + (time - lastTime) / numRunning as real;
      }
      assert AllAccounted(tasks, ev, k, k + 1, lastWeightedTime, runningTasks, weighted);
      if !stop {
        StartSteps(tasks, ev, k, lastWeightedTime, runningTasks, weighted);
        runningTasks := runningTasks[target := lastWeightedTime];
      } else {
        StopFinds(tasks, ev, k, lastWeightedTime, runningTasks, weighted);
        if target !in runningTasks {
          ok := false;
          return;
        }
        var weightedDuration := lastWeightedTime - runningTasks[target];
        StopSteps(tasks, ev, k, lastWeightedTime, runningTasks, weighted);
        SumUpdate(weighted, target, weightedDuration, |tasks|);
        weighted := weighted[target := weightedDuration];
        weightedTotal := weightedTotal + weightedDuration;
        runningTasks := runningTasks - {target};
      }
      lastTime := time;
    }
    AllEnded(tasks, ev, lastWeightedTime, runningTasks, weighted);
    assert |runningTasks| == 0;
  }

  lemma {:induction false} ZeroSum(m: nat, n: nat)
    requires n <= m
    ensures Sum(seq(m, _ => 0.0), n) == 0.0
  {
    if 0 < n { ZeroSum(m, n - 1); }
  }

  /** Weighted durations of all entries. They are charged gap by gap, each gap shared equally among the tasks running in
      it; together they make up the time during which anything ran. The sweep fails only on an entry that ends before it
      starts, or when there are no entries. */
  method SummarizeEntries(tasks: seq<Task>) returns (r: Report, ghost ev: seq<Event>)
    ensures Sweepable(tasks, ev)
    ensures r.IndexError? <==> tasks == []
    ensures r.KeyError? <==> exists i | 0 <= i < |tasks| :: tasks[i].end < tasks[i].start
    ensures r.Report? ==>
              && |r.weighted| == |tasks| && r.total == Sum(r.weighted, |tasks|) == Busy(tasks, ev, |ev|)
              && (forall i | 0 <= i < |tasks| :: r.weighted[i] == Direct(tasks, ev, i, |ev|))
              && (forall i | 0 <= i < |tasks| :: 0.0 <= r.weighted[i] <= tasks[i].end - tasks[i].start)
  {
    var events := ListEvents(tasks);
    events := Sort(events);
    ev := events;
    assert tasks != [] ==> StartOf(tasks, 0) in events;
    assert events != [] ==> events[0].target < |tasks|;
    if events == [] {
      return IndexError, ev;
    }
    var ok, weighted, weightedTotal := Sweep(tasks, events);
    r := if ok then Report(weighted, weightedTotal) else KeyError;
    if ok {
      SumsAgree(tasks, ev, r.weighted, |tasks|);
      ChargesConserve(tasks, ev, |ev|);
      forall i | 0 <= i < |tasks| ensures 0.0 <= r.weighted[i] <= tasks[i].end - tasks[i].start {
        WeightedAtMostDuration(tasks, ev, i);
      }
    }
  }

  lemma {:induction false} SumsAgree(tasks: seq<Task>, ev: seq<Event>, xs: seq<real>, n: nat)
    requires n <= |tasks| == |xs| && forall i | 0 <= i < |tasks| :: xs[i] == Direct(tasks, ev, i, |ev|)
    ensures Sum(xs, n) == SumDirect(tasks, ev, |ev|, n)
  {
    if 0 < n { SumsAgree(tasks, ev, xs, n - 1); }
  }
}
