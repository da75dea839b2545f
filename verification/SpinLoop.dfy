/** Waiting for a buffer to change: poll a callback, arm the processor's monitor, poll once more, then sleep until the
    monitored line is written. A writer may act between any two steps, and the clock goes on. */
module SpinLoop {

  /** Where the loop is. `Wait` is the processor sleeping on the monitor. */
  datatype Phase = Poll | Timer | Arm | Recheck | Wait | Pause | Return(result: bool) | Error

  datatype Config = Config(monitor: bool, timeout: real)

  /** `cond` is what the callback would return; it changes only when the buffer is written. `iteration` is the 32-bit
      counter and `loops` what it would be without wrapping. `polled` is the callback's last answer, `measured` the last
      time measured and `clockReads` how often the clock was read. */
  datatype State = State(phase: Phase, cond: bool, armed: bool, triggered: bool, iteration: nat, loops: nat,
                         now: real, start: real, polled: bool, measured: real, clockReads: nat)

  datatype Action = Writer(cond: bool) | Tick(time: real) | Spin(fails: bool)

  const WRAP: nat := 0x1_0000_0000

  predicate HaveTimeout(c: Config) { 0.000000001 < c.timeout }

  /** The clock is read when the counter's four low bits are zero. */
  predicate ReadsClock(c: Config, s: State) { HaveTimeout(c) && s.iteration % 16 == 0 }

  function Next(c: Config, s: State): State {
    s.(iteration := (s.iteration + 1) % WRAP, loops := s.loops + 1, phase := if c.monitor then Arm else Pause)
  }

  function SpinStep(c: Config, s: State, fails: bool): State {
    match s.phase
    case Poll =>
      if fails then s.(phase := Error)
      else s.(polled := s.cond, phase := if s.cond then Return(true) else Timer)
    case Timer =>
      if !ReadsClock(c, s) then Next(c, s)
      else if fails then s.(phase := Error)
      else
        var s1 := s.(measured := s.now - s.start, clockReads := s.clockReads + 1);
        if c.timeout <= s1.measured then s1.(phase := Return(false)) else Next(c, s1)
    case Arm => s.(armed := true, triggered := false, phase := Recheck)
    case Recheck =>
      if fails then s.(phase := Error)
      else s.(polled := s.cond, phase := if s.cond then Return(true) else Wait)
    case Wait => s.(armed := false, phase := Poll)  // woken by the monitor or by its own timeout
    case Pause => s.(phase := Poll)
    case _ => s
  }

  function Step(c: Config, s: State, a: Action): State {
    match a
    case Writer(cond) => s.(cond := cond, triggered := s.triggered || s.armed)
    case Tick(time) => if s.now <= time then s.(now := time) else s
    case Spin(fails) => SpinStep(c, s, fails)
  }

  function Run(c: Config, s: State, actions: seq<Action>): State
    decreases |actions|
  {
    if actions == [] then s else Step(c, Run(c, s, actions[..|actions| - 1]), actions[|actions| - 1])
  }

  function Started(cond: bool, now: real): State {
    State(Poll, cond, false, false, 0, 0, now, now, false, 0.0, 0)
  }

  // ----- the invariant -----

  /** How many of the numbers below `n` are multiples of 16. */
  function Sixteenths(n: nat): nat { (n + 15) / 16 }

  predicate Inv(c: Config, s: State) {
    && (s.phase.Wait? ==> s.armed && (s.cond ==> s.triggered))
    && (s.phase.Recheck? ==> s.armed)
    && (s.phase.Arm? || s.phase.Recheck? || s.phase.Wait? ==> c.monitor)
    && s.iteration == s.loops % WRAP
    && (s.phase == Return(true) ==> s.polled)
    && (s.phase == Return(false) ==> HaveTimeout(c) && c.timeout <= s.measured <= s.now - s.start)
    && s.clockReads == (if !HaveTimeout(c) then 0
                        else if s.phase == Return(false) then Sixteenths(s.loops + 1)
                        else Sixteenths(s.loops))
    && s.start <= s.now
  }

  /** The 32-bit counter wraps at a multiple of 16, so its low bits go on as if it did not. */
  lemma {:induction false} LowBits(loops: nat)
    ensures (loops % WRAP) % 16 == loops % 16
    ensures (loops % WRAP + 1) % WRAP == (loops + 1) % WRAP
    ensures Sixteenths(loops + 1) == Sixteenths(loops) + if loops % 16 == 0 then 1 else 0
  {
    var q := loops / WRAP;
    assert loops == q * WRAP + loops % WRAP;
    assert q * WRAP == q * 0x1000_0000 * 16;
  }

  /** The step that counts an iteration, having read the clock if it was due. */
  lemma {:induction false} TimerInv(c: Config, s: State, fails: bool)
    requires Inv(c, s) && s.phase.Timer?
    ensures Inv(c, SpinStep(c, s, fails))
  {
    LowBits(s.loops);
    if ReadsClock(c, s) && !fails { MeasuredInv(c, s); }
  }

  lemma {:induction false} MeasuredInv(c: Config, s: State)
    requires Inv(c, s) && s.phase.Timer? && ReadsClock(c, s)
    ensures Inv(c, SpinStep(c, s, false))
  {
    LowBits(s.loops);
  }

  lemma {:induction false} StepInv(c: Config, s: State, a: Action)
    requires Inv(c, s)
    ensures Inv(c, Step(c, s, a))
  {
    if a.Spin? && s.phase.Timer? { TimerInv(c, s, a.fails); }
  }

  lemma {:induction false} RunInv(c: Config, cond: bool, now: real, actions: seq<Action>)
    ensures Inv(c, Run(c, Started(cond, now), actions))
    decreases |actions|
  {
    if actions != [] {
      var n := |actions| - 1;
      RunInv(c, cond, now, actions[..n]);
      StepInv(c, Run(c, Started(cond, now), actions[..n]), actions[n]);
    }
  }

  /** No wake-up is lost: against any writer, the loop never sleeps on an untriggered monitor while the condition holds.
      */
  lemma {:induction false} NoLostWakeup(c: Config, cond: bool, now: real, actions: seq<Action>)
    requires var s := Run(c, Started(cond, now), actions); s.phase.Wait? && s.cond
    ensures Run(c, Started(cond, now), actions).triggered
  {
    RunInv(c, cond, now, actions);
  }

  /** `true` is returned right after the callback said so, at the moment it holds; `false` only when a measurement has
      reached the timeout. */
  lemma {:induction false} ReturnsForAReason(c: Config, cond: bool, now: real, actions: seq<Action>, a: Action)
    requires var s := Run(c, Started(cond, now), actions); !s.phase.Return? && Step(c, s, a).phase.Return?
    ensures var s := Run(c, Started(cond, now), actions); var s' := Step(c, s, a);
            && a.Spin? && !a.fails
            && (s'.phase.result ==> (s.phase.Poll? || s.phase.Recheck?) && s.cond && s'.polled)
            && (!s'.phase.result ==>
                  0.000000001 < c.timeout <= s'.measured == s.now - now && s.loops % 16 == 0)
  {
    RunInv(c, cond, now, actions);
    StartStays(c, cond, now, actions);
    StepReturns(c, Run(c, Started(cond, now), actions), a);
  }

  lemma {:induction false} StepReturns(c: Config, s: State, a: Action)
    requires Inv(c, s) && !s.phase.Return? && Step(c, s, a).phase.Return?
    ensures var s' := Step(c, s, a);
            && a.Spin? && !a.fails
            && (s'.phase.result ==> (s.phase.Poll? || s.phase.Recheck?) && s.cond && s'.polled)
            && (!s'.phase.result ==> HaveTimeout(c) && c.timeout <= s'.measured == s.now - s.start && s.loops % 16 == 0)
  {
    if s.phase.Timer? { TimerReturns(c, s, a); }
  }

  lemma {:induction false} TimerReturns(c: Config, s: State, a: Action)
    requires Inv(c, s) && s.phase.Timer? && Step(c, s, a).phase.Return?
    ensures var s' := Step(c, s, a);
            && a.Spin? && !a.fails && !s'.phase.result
            && HaveTimeout(c) && c.timeout <= s'.measured == s.now - s.start && s.loops % 16 == 0
  {
    LowBits(s.loops);
  }

  lemma {:induction false} StartStays(c: Config, cond: bool, now: real, actions: seq<Action>)
    ensures Run(c, Started(cond, now), actions).start == now
    decreases |actions|
  {
    if actions != [] {
      var n := |actions| - 1;
      StartStays(c, cond, now, actions[..n]);
      StartKept(c, Run(c, Started(cond, now), actions[..n]), actions[n]);
    }
  }

  lemma {:induction false} StartKept(c: Config, s: State, a: Action)
    ensures Step(c, s, a).start == s.start
  {
  }

  /** The clock is read exactly in iterations 0, 16, 32 and so on, also beyond the wrap of the counter, and only with a
      timeout. */
  lemma {:induction false} ClockEverySixteenth(c: Config, cond: bool, now: real, actions: seq<Action>)
    ensures var s := Run(c, Started(cond, now), actions);
            && (s.phase.Timer? ==>
                  Step(c, s, Spin(false)).clockReads ==
                  s.clockReads + if 0.000000001 < c.timeout && s.loops % 16 == 0 then 1 else 0)
            && (!s.phase.Timer? ==> Step(c, s, Spin(false)).clockReads == s.clockReads)
            && (0.000000001 < c.timeout && s.phase != Return(false) ==> s.clockReads == Sixteenths(s.loops))
            && (c.timeout <= 0.000000001 ==> s.clockReads == 0)
  {
    RunInv(c, cond, now, actions);
    LowBits(Run(c, Started(cond, now), actions).loops);
  }

  /** Nobody takes the condition back, and the loop's own steps succeed. */
  predicate Undisturbed(a: Action) { a.Tick? || a == Writer(true) || a == Spin(false) }

  function Spins(actions: seq<Action>): nat {
    if actions == [] then 0 else Spins(actions[..|actions| - 1]) + if actions[|actions| - 1].Spin? then 1 else 0
  }

  /** How many steps the loop is away from returning once the condition holds. */
  function Distance(s: State): nat {
    match s.phase
    case Return(_) => 0
    case Error => 0
    case Poll => 1
    case Recheck => 1
    case Timer => 3
    case _ => 2
  }

  lemma {:induction false} Closer(c: Config, s: State, a: Action)
    requires s.cond && !s.phase.Error? && Undisturbed(a)
    ensures var s' := Step(c, s, a);
            && s'.cond && !s'.phase.Error?
            && (a.Spin? ==> Distance(s') < Distance(s) || Distance(s) == Distance(s') == 0)
            && (!a.Spin? ==> Distance(s') == Distance(s))
  {
  }

  /** Once the condition holds and stays, three steps of the loop end it, however the clock and further writes come in
      between. */
  lemma {:induction false} EndsSoon(c: Config, s: State, actions: seq<Action>)
    requires s.cond && !s.phase.Error? && (forall k | 0 <= k < |actions| :: Undisturbed(actions[k]))
    ensures Run(c, s, actions).cond && !Run(c, s, actions).phase.Error?
    ensures Distance(Run(c, s, actions)) + Spins(actions) <= Distance(s) || Distance(Run(c, s, actions)) == 0
    ensures 3 <= Spins(actions) ==> Run(c, s, actions).phase.Return?
    decreases |actions|
  {
    if actions != [] {
      var n := |actions| - 1;
      EndsSoon(c, s, actions[..n]);
      Closer(c, Run(c, s, actions[..n]), actions[n]);
    }
  }

  /** The loop's own steps succeed; the condition may come and go. */
  predicate Succeeds(a: Action) { !a.Spin? || !a.fails }

  function PassesLeft(loops: nat): nat { if loops % 16 == 0 then 0 else 16 - loops % 16 }

  /** How many steps the loop is at most away from the reading of the clock in iteration 0, 16, 32 and so on: five for
      each pass, and those up to the next `Timer`. */
  function ToTimeout(s: State): nat {
    var passes := PassesLeft(s.loops);
    match s.phase
    case Return(_) => 0
    case Error => 0
    case Timer => 5 * passes + 1
    case Poll => 5 * passes + 2
    case Pause => 5 * passes + 3
    case Wait => 5 * passes + 3
    case Recheck => 5 * passes + 4
    case Arm => 5 * passes + 5
  }

  ghost predicate TimedOut(c: Config, s: State) {
    Inv(c, s) && 0.000000001 < c.timeout <= s.now - s.start && !s.phase.Error?
  }

  lemma {:induction false} CloserToTimeout(c: Config, s: State, a: Action)
    requires TimedOut(c, s) && Succeeds(a)
    ensures var s' := Step(c, s, a);
            && TimedOut(c, s')
            && (a.Spin? ==> ToTimeout(s') < ToTimeout(s) || ToTimeout(s) == ToTimeout(s') == 0)
            && (!a.Spin? ==> ToTimeout(s') == ToTimeout(s))
  {
    StepInv(c, s, a);
    if a.Spin? && s.phase.Timer? { TimerCloser(c, s); }
  }

  lemma {:induction false} TimerCloser(c: Config, s: State)
    requires TimedOut(c, s) && s.phase.Timer?
    ensures var s' := SpinStep(c, s, false); !s'.phase.Error? && ToTimeout(s') < ToTimeout(s)
  {
    LowBits(s.loops);
    if s.loops % 16 != 0 { PassDone(s.loops); }
  }

  lemma {:induction false} PassDone(loops: nat)
    requires loops % 16 != 0
    ensures PassesLeft(loops) == PassesLeft(loops + 1) + 1
  {
  }

  /** Once the clock has reached the timeout, sixteen passes of at most five steps end the loop, whatever the writer
      does. */
  lemma {:induction false} TimesOut(c: Config, s: State, actions: seq<Action>)
    requires TimedOut(c, s) && (forall k | 0 <= k < |actions| :: Succeeds(actions[k]))
    ensures TimedOut(c, Run(c, s, actions))
    ensures ToTimeout(Run(c, s, actions)) + Spins(actions) <= ToTimeout(s) || ToTimeout(Run(c, s, actions)) == 0
    ensures 80 <= Spins(actions) ==> Run(c, s, actions).phase.Return?
    decreases |actions|
  {
    if actions != [] {
      var n := |actions| - 1;
      TimesOut(c, s, actions[..n]);
      CloserToTimeout(c, Run(c, s, actions[..n]), actions[n]);
    }
  }

  // ----- one pass of the loop -----

  /** A pass in which the callback answers no and the time is not up: with the monitor the loop arms it, asks again and
      waits; without it the loop pauses. Then the next pass begins. */
  lemma {:induction false} QuietPass(c: Config, s: State)
    requires Inv(c, s) && s.phase.Poll? && !s.cond
    requires !(0.000000001 < c.timeout <= s.now - s.start && s.loops % 16 == 0)
    ensures var a := Spin(false);
            var s2 := Step(c, Step(c, s, a), a);
            && Step(c, s, a).phase == Timer && s2.loops == s.loops + 1
            && (!c.monitor ==> s2.phase == Pause && Step(c, s2, a).phase == Poll)
            && (c.monitor ==>
                  var (s3, s4) := (Step(c, s2, a), Step(c, Step(c, s2, a), a));
                  && s2.phase == Arm && s3.phase == Recheck && s3.armed && !s3.triggered
                  && s4.phase == Wait && Step(c, s4, a).phase == Poll && !Step(c, s4, a).armed)
  {
    LowBits(s.loops);
    assert ReadsClock(c, Step(c, s, Spin(false))) <==> 0.000000001 < c.timeout && s.loops % 16 == 0;
  }

  /** A callback that fails, or a clock that cannot be read when it is due, ends the loop with an error. */
  lemma {:induction false} FailureEnds(c: Config, s: State)
    requires Inv(c, s)
    ensures Step(c, s, Spin(true)).phase == Error <==>
            || s.phase.Poll? || s.phase.Recheck? || s.phase.Error?
            || (s.phase.Timer? && 0.000000001 < c.timeout && s.loops % 16 == 0)
  {
    LowBits(s.loops);
  }

  // ----- the loop's body as written -----

  /** The loop itself has not moved. */
  predicate Still(s: State, s': State) {
    && s'.phase == s.phase && s'.armed == s.armed && s'.iteration == s.iteration
    && s'.loops == s.loops && s'.start == s.start
  }

  class Spinner {
    const c: Config
    const cond0: bool
    const now0: real
    var s: State
    ghost var actions: seq<Action>
    ghost var failures: nat  // of the callback and of the clock

    ghost predicate Valid()
      reads this
    {
      s == Run(c, Started(cond0, now0), actions)
    }

    constructor (c: Config, cond: bool, now: real)
      ensures Valid() && s == Started(cond, now) && failures == 0
      ensures s.phase.Poll? && !s.armed && !s.triggered && !s.polled && s.loops == s.clockReads == 0 && s.start == now
    {
      this.c, cond0, now0 := c, cond, now;
      s, actions, failures := Started(cond, now), [], 0;
    }

    method Take(a: Action)
      requires Valid()
      modifies this`s, this`actions
      ensures Valid() && s == Step(c, old(s), a)
    {
      s := Step(c, s, a);
      assert (actions + [a])[..|actions|] == actions;
      actions := actions + [a];
    }

    /** The writer and the clock do what they like; the loop itself does not move. */
    method World()
      requires Valid()
      modifies this`s, this`actions
      ensures Valid() && Still(old(s), s)
    {
      var n: int := *;
      while 0 < n
        invariant Valid() && Still(old(s), s)
      {
        n := n - 1;
        var writes: bool, cond: bool, time: real := *, *, *;
        Take(if writes then Writer(cond) else Tick(time));
      }
    }

    /** Call the callback. */
    method Callback() returns (error: bool, ok: bool)
      requires Valid() && (s.phase.Poll? || s.phase.Recheck?)
      modifies this`s, this`actions, this`failures
      ensures failures == old(failures) + if error then 1 else 0
      ensures Valid() && (!error ==> ok == s.cond == s.polled)
      ensures s.phase == if error then Error else if ok then Return(true)
                         else if old(s.phase).Poll? then Timer else Wait
      ensures s.loops == old(s.loops)
    {
      World();
      var fails: bool := *;
      if fails {
        failures := failures + 1;
      }
      error, ok := fails, s.cond;
      Take(Spin(error));
    }

    /** Every 16th time, look at the clock. */
    method CheckTime() returns (error: bool, expired: bool)
      requires Valid() && s.phase.Timer?
      modifies this`s, this`actions, this`failures
      ensures failures == old(failures) + if error then 1 else 0
      ensures !error ==> (expired <==> 0.000000001 < c.timeout <= s.now - s.start && old(s.loops) % 16 == 0)
      ensures Valid() && (error ==> !expired)
      ensures s.phase == if error then Error else if expired then Return(false) else if c.monitor then Arm else Pause
      ensures !error && !expired ==> s.loops == old(s.loops) + 1
    {
      World();
      RunInv(c, cond0, now0, actions);
      LowBits(s.loops);
      error, expired := false, false;
      if ReadsClock(c, s) {
        error := *;
        if error {
          failures := failures + 1;
        }
        var elapsed := s.now - s.start;
        expired := !error && c.timeout <= elapsed;
      }
      Take(Spin(error));
    }

    /** Arm the monitor, ask once more, then wait. */
    method MonitorWait() returns (error: bool, ok: bool)
      requires Valid() && s.phase.Arm?
      modifies this`s, this`actions, this`failures
      ensures failures == old(failures) + if error then 1 else 0
      ensures Valid()
      ensures s.phase == if error then Error else if ok then Return(true) else Poll
      ensures s.loops == old(s.loops)
    {
      World();
      Take(Spin(false));  // arm
      error, ok := Callback();
      if !error && !ok {
        World();
        Take(Spin(false));  // wait
      }
    }

    /** One pass of the loop. It ends the loop if the callback says so, on an error, or when the time is up; otherwise
        the next pass begins. */
    method Turn() returns (done: bool, error: bool, result: bool)
      requires Valid() && s.phase.Poll?
      modifies this`s, this`actions, this`failures
      ensures failures == old(failures) + if error then 1 else 0
      ensures Valid() && (error ==> done)
      ensures s.phase == if error then Error else if done then Return(result) else Poll
      ensures !done ==> s.loops == old(s.loops) + 1
    {
      done := true;
      error, result := Callback();
      if error || result {
        return;
      }
      var expired;
      error, expired := CheckTime();
      if error || expired {
        return;
      }
      if c.monitor {
        error, result := MonitorWait();
        done := error || result;
      } else {
        World();
        Take(Spin(false));  // pause
        done := false;
      }
    }
  }
}
