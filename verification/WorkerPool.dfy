/** Clients sharing one first-in-first-out queue of prompts, followed by one sentinel for each client. Steps of
    different clients interleave in any order; a client may also die of an error while it works on a prompt. */
module WorkerPool {

  datatype Item = Prompt(idx: nat) | Sentinel
  datatype Client = Waiting | Working(idx: nat) | Stopped | Crashed(idx: nat)

  /** `unfinished` is the queue's count of items put in and not yet reported done. */
  datatype Pool = Pool(queue: seq<Item>, results: seq<nat>, clients: seq<Client>, unfinished: int)

  function Filled(prompts: nat, sentinels: nat): (q: seq<Item>)
    ensures |q| == prompts + sentinels
    ensures forall k | 0 <= k < |q| :: q[k] == if k < prompts then Prompt(k) else Sentinel
  {
    seq(prompts, k requires 0 <= k => Prompt(k)) + seq(sentinels, k => Sentinel)
  }

  /** Client `i` goes on, if it can: it takes the next item, or ends its work on a prompt, successfully or not. */
  function Step(s: Pool, i: nat, ok: bool): (s': Pool)
    ensures |s'.clients| == |s.clients|
  {
    if |s.clients| <= i then s else
    match s.clients[i]
    case Waiting =>
      if s.queue == [] then s
      else if s.queue[0].Sentinel? then
        Pool(s.queue[1..], s.results, s.clients[i := Stopped], s.unfinished - 1)
      else
        s.(queue := s.queue[1..], clients := s.clients[i := Working(s.queue[0].idx)])
    case Working(idx) =>
      if ok then Pool(s.queue, s.results + [idx], s.clients[i := Waiting], s.unfinished - 1)
      else s.(clients := s.clients[i := Crashed(idx)])
    case _ => s
  }

  datatype Move = Move(client: nat, ok: bool)

  function Run(s: Pool, moves: seq<Move>): (s': Pool)
    ensures |s'.clients| == |s.clients|
    decreases |moves|
  {
    if moves == [] then s
    else var last := moves[|moves| - 1]; Step(Run(s, moves[..|moves| - 1]), last.client, last.ok)
  }

  function Started(prompts: nat, clients: nat): Pool {
    Pool(Filled(prompts, clients), [], seq(clients, k => Waiting), prompts + clients)
  }

  // ----- the invariant -----

  function On(c: Client, p: nat): nat { if c == Working(p) || c == Crashed(p) then 1 else 0 }

  /** How many clients hold prompt `p`. */
  function Holders(clients: seq<Client>, p: nat): nat {
    if clients == [] then 0 else Holders(clients[..|clients| - 1], p) + On(clients[|clients| - 1], p)
  }

  function Flag(b: bool): nat { if b then 1 else 0 }

  function NumStopped(clients: seq<Client>): nat {
    if clients == [] then 0 else NumStopped(clients[..|clients| - 1]) + Flag(clients[|clients| - 1].Stopped?)
  }

  function NumWorking(clients: seq<Client>): nat {
    if clients == [] then 0 else NumWorking(clients[..|clients| - 1]) + Flag(clients[|clients| - 1].Working?)
  }

  function NumBusy(clients: seq<Client>): nat {
    if clients == [] then 0
    else NumBusy(clients[..|clients| - 1]) + Flag(clients[|clients| - 1].Working? || clients[|clients| - 1].Crashed?)
  }

  lemma {:induction false} CountsAfter(clients: seq<Client>, i: nat, c: Client, p: nat)
    requires i < |clients|
    ensures Holders(clients[i := c], p) == Holders(clients, p) - On(clients[i], p) + On(c, p)
    ensures NumStopped(clients[i := c]) == NumStopped(clients) - Flag(clients[i].Stopped?) + Flag(c.Stopped?)
    ensures NumWorking(clients[i := c]) == NumWorking(clients) - Flag(clients[i].Working?) + Flag(c.Working?)
    ensures NumBusy(clients[i := c])
         == NumBusy(clients) - Flag(clients[i].Working? || clients[i].Crashed?) + Flag(c.Working? || c.Crashed?)
  {
    var n := |clients| - 1;
    if i == n {
      assert clients[i := c][..n] == clients[..n];
    } else {
      CountsAfter(clients[..n], i, c, p);
      assert clients[i := c][..n] == clients[..n][i := c];
    }
  }

  ghost predicate Once(prompts: nat, s: Pool, t: nat, p: nat) {
    multiset(s.results)[p] + Holders(s.clients, p) == Flag(p < t && p < prompts)
  }

  /** After `t` items have been taken: each prompt taken is in the results once or in the hands of one client; sentinels
      taken and clients stopped are as many. */
  ghost predicate Inv(prompts: nat, n: nat, s: Pool, t: nat) {
    && |s.clients| == n && t <= prompts + n && s.queue == Filled(prompts, n)[t..]
    && NumStopped(s.clients) == (if t <= prompts then 0 else t - prompts)
    && (forall p {:trigger Once(prompts, s, t, p)} :: Once(prompts, s, t, p))
    && s.unfinished == |s.queue| + NumBusy(s.clients)
  }

  /** How many items step `i` takes. */
  function Takes(s: Pool, i: nat): nat { Flag(i < |s.clients| && s.clients[i].Waiting? && s.queue != []) }

  /** The item taken by a step that takes one. */
  lemma {:induction false} NextItem(prompts: nat, n: nat, s: Pool, t: nat)
    requires t <= prompts + n && s.queue == Filled(prompts, n)[t..] && s.queue != []
    ensures s.queue[0] == (if t < prompts then Prompt(t) else Sentinel) && s.queue[1..] == Filled(prompts, n)[t + 1..]
  {
  }

  lemma {:induction false} OnceStep(prompts: nat, n: nat, s: Pool, t: nat, i: nat, ok: bool, p: nat)
    requires Once(prompts, s, t, p) && |s.clients| == n && t <= prompts + n && s.queue == Filled(prompts, n)[t..]
    ensures Once(prompts, Step(s, i, ok), t + Takes(s, i), p)
  {
    if i < n {
      var s' := Step(s, i, ok);
      CountsAfter(s.clients, i, s'.clients[i], p);
      if s.queue != [] { NextItem(prompts, n, s, t); }
      assert s'.clients == s.clients[i := s'.clients[i]];
    }
  }

  lemma {:induction false} StepInv(prompts: nat, n: nat, s: Pool, t: nat, i: nat, ok: bool)
    requires Inv(prompts, n, s, t)
    ensures Inv(prompts, n, Step(s, i, ok), t + Takes(s, i))
  {
    var s', t' := Step(s, i, ok), t + Takes(s, i);
    forall p ensures Once(prompts, s', t', p) {
      assert Once(prompts, s, t, p);
      OnceStep(prompts, n, s, t, i, ok, p);
    }
    if i < n {
      CountsAfter(s.clients, i, s'.clients[i], 0);
      if s.queue != [] { NextItem(prompts, n, s, t); }
      assert s'.clients == s.clients[i := s'.clients[i]];
    }
  }

  lemma {:induction false} NobodyYet(n: nat, p: nat)
    ensures var c := seq(n, k => Waiting);
            Holders(c, p) == 0 && NumStopped(c) == 0 && NumBusy(c) == 0 && NumWorking(c) == 0
  {
    if 0 < n {
      assert seq(n, k => Waiting)[..n - 1] == seq(n - 1, k => Waiting);
      NobodyYet(n - 1, p);
    }
  }

  lemma {:induction false} RunInv(prompts: nat, n: nat, moves: seq<Move>) returns (t: nat)
    ensures Inv(prompts, n, Run(Started(prompts, n), moves), t)
    decreases |moves|
  {
    if moves == [] {
      t := 0;
      NobodyYet(n, 0);
      assert Filled(prompts, n)[0..] == Filled(prompts, n);
      forall p ensures Once(prompts, Started(prompts, n), 0, p) { NobodyYet(n, p); }
    } else {
      var k := |moves| - 1;
      var t0 := RunInv(prompts, n, moves[..k]);
      StepInv(prompts, n, Run(Started(prompts, n), moves[..k]), t0, moves[k].client, moves[k].ok);
      t := t0 + Takes(Run(Started(prompts, n), moves[..k]), moves[k].client);
    }
  }

  // ----- what every interleaving does -----

  lemma {:induction false} StoppedAtMost(clients: seq<Client>)
    ensures NumStopped(clients) <= |clients|
    ensures NumStopped(clients) == |clients| <==> forall i | 0 <= i < |clients| :: clients[i].Stopped?
  {
    if clients != [] {
      var n := |clients| - 1;
      StoppedAtMost(clients[..n]);
      assert forall i | 0 <= i < n :: clients[..n][i] == clients[i];
    }
  }

  /** A client that waits finds an item: nobody waits for ever. */
  lemma {:induction false} NoDeadlock(prompts: nat, n: nat, moves: seq<Move>, i: nat)
    requires i < n && Run(Started(prompts, n), moves).clients[i].Waiting?
    ensures Run(Started(prompts, n), moves).queue != []
  {
    var t := RunInv(prompts, n, moves);
    StoppedAtMost(Run(Started(prompts, n), moves).clients);
  }

  lemma {:induction false} SomeStopped(clients: seq<Client>, i: nat)
    requires i < |clients| && clients[i].Stopped?
    ensures 0 < NumStopped(clients)
  {
    if i < |clients| - 1 { SomeStopped(clients[..|clients| - 1], i); }
  }

  /** No client stops while a prompt is queued. */
  lemma {:induction false} NoneStopsEarly(prompts: nat, n: nat, moves: seq<Move>, i: nat, k: nat)
    requires var s := Run(Started(prompts, n), moves); i < |s.clients| && s.clients[i].Stopped? && k < |s.queue|
    ensures Run(Started(prompts, n), moves).queue[k].Sentinel?
  {
    var t := RunInv(prompts, n, moves);
    SomeStopped(Run(Started(prompts, n), moves).clients, i);
  }

  ghost predicate Halted(s: Pool) {
    forall i | 0 <= i < |s.clients| :: s.clients[i].Stopped? || s.clients[i].Crashed?
  }

  lemma {:induction false} HeldByNone(clients: seq<Client>, p: nat)
    ensures Holders(clients, p) == 0 <==> forall i | 0 <= i < |clients| :: On(clients[i], p) == 0
  {
    if clients != [] {
      var n := |clients| - 1;
      HeldByNone(clients[..n], p);
      assert forall i | 0 <= i < n :: clients[..n][i] == clients[i];
    }
  }

  /** When every client has stopped, each has taken one sentinel, the queue is empty, and every prompt is in the results
      exactly once. */
  lemma {:induction false} EveryPromptOnce(prompts: nat, n: nat, moves: seq<Move>)
    requires forall i | 0 <= i < |Run(Started(prompts, n), moves).clients| ::
             Run(Started(prompts, n), moves).clients[i].Stopped?
    requires 0 < n
    ensures var s := Run(Started(prompts, n), moves);
            && s.queue == [] && s.unfinished == 0
            && forall p: nat :: multiset(s.results)[p] == if p < prompts then 1 else 0
  {
    var s := Run(Started(prompts, n), moves);
    var t := RunInv(prompts, n, moves);
    StoppedAtMost(s.clients);
    NobodyBusy(s.clients);
    forall p: nat ensures multiset(s.results)[p] == if p < prompts then 1 else 0 {
      assert Once(prompts, s, t, p);
      HeldByNone(s.clients, p);
    }
  }

  lemma {:induction false} NobodyBusy(clients: seq<Client>)
    requires forall i | 0 <= i < |clients| :: clients[i].Stopped?
    ensures NumBusy(clients) == 0
  {
    if clients != [] { NobodyBusy(clients[..|clients| - 1]); }
  }

  /** With errors, too: once all clients have ended, the prompts missing from the results are those that clients died on
      and those still queued, and no prompt is in the results twice. If one client has ended properly, none is queued.
      */
  lemma {:induction false} LostToCrashes(prompts: nat, n: nat, moves: seq<Move>, p: nat)
    requires Halted(Run(Started(prompts, n), moves)) && p < prompts
    ensures var s := Run(Started(prompts, n), moves);
            && multiset(s.results)[p] <= 1
            && (p !in s.results <==>
                  (exists j | 0 <= j < |s.clients| :: s.clients[j] == Crashed(p)) || Prompt(p) in s.queue)
            && ((exists i | 0 <= i < |s.clients| :: s.clients[i].Stopped?) ==> Prompt(p) !in s.queue)
  {
    var s := Run(Started(prompts, n), moves);
    var t := RunInv(prompts, n, moves);
    assert Once(prompts, s, t, p);
    HeldByNone(s.clients, p);
    if j :| 0 <= j < |s.clients| && On(s.clients[j], p) != 0 {
      assert s.clients[j] == Crashed(p);
    }
    assert p in s.results <==> p in multiset(s.results);
    QueuedPrompt(prompts, n, t, p);
    if i :| 0 <= i < |s.clients| && s.clients[i].Stopped? { SomeStopped(s.clients, i); }
  }

  lemma {:induction false} QueuedPrompt(prompts: nat, n: nat, t: nat, p: nat)
    requires t <= prompts + n && p < prompts
    ensures Prompt(p) in Filled(prompts, n)[t..] <==> t <= p
  {
    if t <= p { assert Filled(prompts, n)[t..][p - t] == Prompt(p); }
  }

  /** Clients die only of failures. */
  lemma {:induction false} NobodyDies(prompts: nat, n: nat, moves: seq<Move>, i: nat)
    requires (forall k | 0 <= k < |moves| :: moves[k].ok) && i < n
    ensures !Run(Started(prompts, n), moves).clients[i].Crashed?
    decreases |moves|
  {
    if moves != [] { NobodyDies(prompts, n, moves[..|moves| - 1], i); }
  }

  /** If nothing fails, a run that has ended has every prompt in the results exactly once. */
  lemma {:induction false} AllDone(prompts: nat, n: nat, moves: seq<Move>)
    requires 0 < n && (forall k | 0 <= k < |moves| :: moves[k].ok) && Halted(Run(Started(prompts, n), moves))
    ensures var s := Run(Started(prompts, n), moves);
            && s.queue == [] && s.unfinished == 0
            && forall p: nat :: multiset(s.results)[p] == if p < prompts then 1 else 0
  {
    forall i | 0 <= i < n ensures Run(Started(prompts, n), moves).clients[i].Stopped? {
      NobodyDies(prompts, n, moves, i);
    }
    EveryPromptOnce(prompts, n, moves);
  }

  function Left(s: Pool): nat { 2 * |s.queue| + NumWorking(s.clients) }

  /** Every step of a client that has not ended brings the end closer: every interleaving ends. */
  lemma {:induction false} StepsRunOut(prompts: nat, n: nat, moves: seq<Move>, i: nat, ok: bool)
    requires var s := Run(Started(prompts, n), moves); i < n && (s.clients[i].Waiting? || s.clients[i].Working?)
    ensures var s := Run(Started(prompts, n), moves); Left(Step(s, i, ok)) < Left(s)
  {
    var s := Run(Started(prompts, n), moves);
    if s.clients[i].Waiting? { NoDeadlock(prompts, n, moves, i); }
    CountsAfter(s.clients, i, Step(s, i, ok).clients[i], 0);
  }

  /** Move `k` goes to a client that has not ended. */
  ghost predicate Useful(prompts: nat, n: nat, moves: seq<Move>, k: nat)
    requires k < |moves|
  {
    var s := Run(Started(prompts, n), moves[..k]);
    var i := moves[k].client;
    i < n && (s.clients[i].Waiting? || s.clients[i].Working?)
  }

  /** Every run ends, whatever the order and whoever fails: it takes at most two steps for each item of the queue. */
  lemma {:induction false} RunsEnd(prompts: nat, n: nat, moves: seq<Move>)
    requires forall k {:trigger Useful(prompts, n, moves, k)} | 0 <= k < |moves| :: Useful(prompts, n, moves, k)
    ensures |moves| + Left(Run(Started(prompts, n), moves)) <= 2 * (prompts + n)
    decreases |moves|
  {
    if moves == [] {
      NobodyYet(n, 0);
    } else {
      var last := |moves| - 1;
      assert Useful(prompts, n, moves, last);
      forall k | 0 <= k < last ensures Useful(prompts, n, moves[..last], k) {
        assert Useful(prompts, n, moves, k);
        assert moves[..last][..k] == moves[..k];
      }
      RunsEnd(prompts, n, moves[..last]);
      StepsRunOut(prompts, n, moves[..last], moves[last].client, moves[last].ok);
    }
  }

  lemma {:induction false} NeverMoreLeft(s: Pool, i: nat, ok: bool)
    ensures Left(Step(s, i, ok)) <= Left(s)
  {
    if i < |s.clients| { CountsAfter(s.clients, i, Step(s, i, ok).clients[i], 0); }
  }

  // ----- the loops as written -----

  class Extraction {
    const prompts: nat
    const numClients: nat
    var queue: seq<Item>
    var results: seq<nat>
    var clients: seq<Client>
    var unfinished: int
    ghost var moves: seq<Move>
    ghost var failures: nat

    ghost function State(): Pool
      reads this
    {
      Pool(queue, results, clients, unfinished)
    }

    ghost predicate Valid()
      reads this
    {
      State() == Run(Started(prompts, numClients), moves)
    }

    /** Put all prompts into the queue, then one sentinel for each client. */
    constructor (prompts: nat, numClients: nat)
      ensures Valid() && this.prompts == prompts && this.numClients == numClients && moves == [] && failures == 0
    {
      this.prompts, this.numClients := prompts, numClients;
      results, clients, moves, failures := [], seq(numClients, k => Waiting), [], 0;
      var q: seq<Item> := [];
      for idx := 0 to prompts
        invariant q == Filled(prompts, numClients)[..idx]
      {
        q := q + [Prompt(idx)];
      }
      for k := 0 to numClients
        invariant q == Filled(prompts, numClients)[..prompts + k]
      {
        q := q + [Sentinel];
      }
      assert q == Filled(prompts, numClients);
      queue, unfinished := q, |q|;
    }

    /** One step of any client. */
    method Take(i: nat, ok: bool)
      requires Valid()
      modifies this`queue, this`results, this`clients, this`unfinished, this`moves
      ensures Valid() && State() == Step(old(State()), i, ok)
    {
      var s := Step(Pool(queue, results, clients, unfinished), i, ok);
      queue, results, clients, unfinished := s.queue, s.results, s.clients, s.unfinished;
      assert (moves + [Move(i, ok)])[..|moves|] == moves;
      moves := moves + [Move(i, ok)];
    }

    /** While client `me` awaits something, the others go on. */
    method Others(me: nat)
      requires Valid() && me < numClients
      modifies this`queue, this`results, this`clients, this`unfinished, this`moves
      ensures Valid() && clients[me] == old(clients[me]) && Left(State()) <= old(Left(State()))
    {
      var n: int := *;
      while 0 < n
        invariant Valid() && clients[me] == old(clients[me]) && Left(State()) <= old(Left(State()))
      {
        n := n - 1;
        var i: nat, ok: bool := *, *;
        if i != me {
          NeverMoreLeft(State(), i, ok);
          Take(i, ok);
        }
      }
    }

    /** One client, from start to end. The queue is never empty when it asks for an item. */
    method ClientLoop(me: nat)
      requires Valid() && me < numClients && clients[me].Waiting?
      modifies this`queue, this`results, this`clients, this`unfinished, this`moves, this`failures
      ensures Valid() && if failures == old(failures) then clients[me].Stopped? else clients[me].Crashed?
    {
      while true
        invariant Valid() && clients[me].Waiting? && failures == old(failures)
        decreases Left(State())
      {
        Others(me);
        NoDeadlock(prompts, numClients, moves, me);
        var item := queue[0];
        StepsRunOut(prompts, numClients, moves, me, true);
        Take(me, true);  // get
        if item.Sentinel? {
          return;
        }
        Others(me);  // generate, then read the hidden states
        var failed: bool := *;
        StepsRunOut(prompts, numClients, moves, me, !failed);
        Take(me, !failed);
        if failed {
          failures := failures + 1;
          return;
        }
      }
    }
  }
}
