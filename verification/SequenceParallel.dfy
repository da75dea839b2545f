/** Token counts of data-parallel ranks, split again among the ranks of each sequence-parallel group. */
module SequenceParallel {
  import opened Arithmetic
  import opened Options

  function Sum(xs: seq<nat>): nat { if xs == [] then 0 else Sum(xs[..|xs| - 1]) + xs[|xs| - 1] }

  /** Each element `times` times in a row. */
  function RepeatInterleave(xs: seq<nat>, times: nat): seq<nat> {
    if xs == [] then [] else RepeatInterleave(xs[..|xs| - 1], times) + Copies(xs[|xs| - 1], times)
  }

  function Copies(x: nat, n: nat): (s: seq<nat>)
    ensures |s| == n
  {
    seq(n, _ => x)
  }

  /** Every rank's tokens divided among its group, rounded up. */
  function Shares(tokens: seq<nat>, sp: nat): (shares: seq<nat>)
    requires 0 < sp
    ensures |shares| == |tokens|
  {
    seq(|tokens|, i requires 0 <= i < |tokens| => (tokens[i] + sp - 1) / sp)
  }

  /** `_compute_sp_num_tokens`: the share of each rank, once for every member of its group. */
  function SpNumTokens(tokens: seq<nat>, sp: nat): seq<nat>
    requires 0 < sp
  {
    RepeatInterleave(Shares(tokens, sp), sp)
  }

  lemma {:induction false} RepeatLength(xs: seq<nat>, times: nat)
    ensures |RepeatInterleave(xs, times)| == |xs| * times
  {
    if xs != [] {
      RepeatLength(xs[..|xs| - 1], times);
      assert |xs| * times == (|xs| - 1) * times + times;
    }
  }

  lemma {:induction false} RepeatAt(xs: seq<nat>, times: nat, i: nat, j: nat)
    requires i < |xs| && j < times
    ensures i * times + j < |RepeatInterleave(xs, times)| && RepeatInterleave(xs, times)[i * times + j] == xs[i]
  {
    var n := |xs| - 1;
    RepeatLength(xs[..n], times);
    if i < n { RepeatAt(xs[..n], times, i, j); }
  }

  /** Member `j` of group `i` gets the group's tokens divided by its size, rounded up. */
  lemma {:induction false} LocalSizeAt(tokens: seq<nat>, sp: nat, i: nat, j: nat)
    requires i < |tokens| && j < sp
    ensures |SpNumTokens(tokens, sp)| == |tokens| * sp && i * sp + j < |SpNumTokens(tokens, sp)|
    ensures SpNumTokens(tokens, sp)[i * sp + j] == Cdiv(tokens[i], sp)
  {
    RepeatLength(Shares(tokens, sp), sp);
    RepeatAt(Shares(tokens, sp), sp, i, j);
  }

  lemma {:induction false} SumAppend(xs: seq<nat>, ys: seq<nat>)
    ensures Sum(xs + ys) == Sum(xs) + Sum(ys)
  {
    if ys == [] {
      assert xs + ys == xs;
    } else {
      var n := |ys| - 1;
      SumAppend(xs, ys[..n]);
      assert (xs + ys)[..|xs| + n] == xs + ys[..n];
    }
  }

  lemma {:induction false} SumSame(n: nat, x: nat)
    ensures Sum(Copies(x, n)) == n * x
  {
    if 0 < n {
      SumSame(n - 1, x);
      assert Copies(x, n)[..n - 1] == Copies(x, n - 1);
      assert n * x == (n - 1) * x + x;
    }
  }

  /** `cu` holds the prefix sums of `xs`. */
  ghost predicate PrefixSums(cu: seq<nat>, xs: seq<nat>) {
    |cu| == |xs| && forall k | 0 <= k < |cu| :: cu[k] == Sum(xs[..k + 1])
  }

  lemma {:induction false} OneMore(cu: seq<nat>, xs: seq<nat>, x: nat)
    requires PrefixSums(cu, xs)
    ensures PrefixSums(cu + [Sum(xs) + x], xs + [x]) && Sum(xs + [x]) == Sum(xs) + x
  {
    var ys := xs + [x];
    assert ys[..|xs|] == xs && ys[..|ys|] == ys;
    forall k | 0 <= k < |cu| ensures Sum(ys[..k + 1]) == cu[k] { assert ys[..k + 1] == xs[..k + 1]; }
  }

  class DPMetadata {
    const tokens: seq<nat>
    var localSizes: Option<seq<nat>>

    constructor (tokens: seq<nat>)
      ensures this.tokens == tokens && localSizes == None
    {
      this.tokens := tokens;
      localSizes := None;
    }

    /** `sp_local_sizes`: its body finds the local sizes published, and they are cleared when it is left, by an
        exception or not. `seen` is what the body is given. */
    method SpLocalSizes(sp: nat) returns (seen: Option<seq<nat>>, raised: bool)
      requires 0 < sp
      modifies this
      ensures seen == Some(SpNumTokens(tokens, sp)) && localSizes == None
    {
      localSizes := Some(SpNumTokens(tokens, sp));
      seen := GetChunkSizes();
      raised := Body();
      localSizes := None;  // finally
    }

    /** `get_chunk_sizes_across_dp_rank`, which asserts that there are any. */
    method GetChunkSizes() returns (sizes: Option<seq<nat>>)
      ensures sizes == localSizes
    {
      sizes := localSizes;
    }

    /** Anything; another use of `sp_local_sizes` inside clears the local sizes early. */
    method Body() returns (raised: bool)
      modifies this
    {
      raised := *;
      if * {
        localSizes := None;
      }
    }

    /** The running sum goes on over the members of one group. */
    static method AddGroup(cu0: seq<nat>, acc0: nat, share: nat, sp: nat, ghost done: seq<nat>)
      returns (cu: seq<nat>, acc: nat)
      requires PrefixSums(cu0, done) && acc0 == Sum(done)
      ensures PrefixSums(cu, done + Copies(share, sp)) && acc == Sum(done + Copies(share, sp))
    {
      cu, acc := cu0, acc0;
      assert done + Copies(share, 0) == done;
      for j := 0 to sp
        invariant PrefixSums(cu, done + Copies(share, j)) && acc == Sum(done + Copies(share, j))
      {
        OneMore(cu, done + Copies(share, j), share);
        assert done + Copies(share, j) + [share] == done + Copies(share, j + 1);
        acc := acc + share;
        cu := cu + [acc];
      }
    }

    /** `cu_tokens_across_sp`: shares by a rounding formula of its own, repeated and summed up. The entries are the
        prefix sums of the list that `sp_local_sizes` publishes; the last covers all tokens and exceeds them by less
        than the group size for each rank. */
    method CuTokensAcrossSp(sp: nat) returns (cu: seq<nat>)
      requires 0 < sp
      ensures PrefixSums(cu, SpNumTokens(tokens, sp)) && |cu| == |tokens| * sp
      ensures tokens != [] ==>
                && cu != [] && cu[|cu| - 1] == sp * Sum(Shares(tokens, sp))
                && Sum(tokens) <= cu[|cu| - 1] <= Sum(tokens) + |tokens| * (sp - 1)
    {
      cu := [];
      var acc := 0;
      ghost var all := Shares(tokens, sp);
      for i := 0 to |tokens|
        invariant PrefixSums(cu, RepeatInterleave(all[..i], sp)) && acc == Sum(RepeatInterleave(all[..i], sp))
      {
        RoundingsAgree(tokens, sp, i);
        var share := (tokens[i] - 1 + sp) / sp;
        cu, acc := AddGroup(cu, acc, share, sp, RepeatInterleave(all[..i], sp));
        assert all[..i + 1][..i] == all[..i] && all[..i + 1][i] == share;
      }
      assert all[..|tokens|] == all;
      RepeatLength(all, sp);
      if tokens != [] { LastEntry(tokens, sp, cu); }
    }
  }

  /** The two rounding formulas give the same share, also for a rank without tokens. */
  lemma {:induction false} RoundingsAgree(tokens: seq<nat>, sp: nat, i: nat)
    requires 0 < sp && i < |tokens|
    ensures 0 <= (tokens[i] - 1 + sp) / sp == Shares(tokens, sp)[i]
  {
    assert tokens[i] - 1 + sp == tokens[i] + sp - 1;
  }

  lemma {:induction false} LastEntry(tokens: seq<nat>, sp: nat, cu: seq<nat>)
    requires 0 < sp && PrefixSums(cu, SpNumTokens(tokens, sp)) && |cu| == |tokens| * sp && tokens != []
    ensures cu != [] && cu[|cu| - 1] == sp * Sum(Shares(tokens, sp))
    ensures Sum(tokens) <= cu[|cu| - 1] <= Sum(tokens) + |tokens| * (sp - 1)
  {
    var xs := SpNumTokens(tokens, sp);
    MulMonotone(1, |tokens|, sp);
    assert xs[..|xs|] == xs;
    TotalIs(Shares(tokens, sp), sp);
    PaddingBound(tokens, sp);
  }

  /** Repeating multiplies the sum. */
  lemma {:induction false} TotalIs(xs: seq<nat>, times: nat)
    ensures Sum(RepeatInterleave(xs, times)) == times * Sum(xs)
  {
    if xs != [] {
      var n := |xs| - 1;
      TotalIs(xs[..n], times);
      SumAppend(RepeatInterleave(xs[..n], times), Copies(xs[n], times));
      SumSame(times, xs[n]);
      assert times * (Sum(xs[..n]) + xs[n]) == times * Sum(xs[..n]) + times * xs[n];
    }
  }

  /** Rounding up adds at most `sp - 1` tokens for each rank. */
  lemma {:induction false} PaddingBound(tokens: seq<nat>, sp: nat)
    requires 0 < sp
    ensures Sum(tokens) <= sp * Sum(Shares(tokens, sp)) <= Sum(tokens) + |tokens| * (sp - 1)
  {
    if tokens != [] {
      var n := |tokens| - 1;
      assert Shares(tokens, sp)[..n] == Shares(tokens[..n], sp);
      PaddingBound(tokens[..n], sp);
      OneMoreRank(Sum(Shares(tokens[..n], sp)), tokens[n], sp, n);
    }
  }

  lemma {:induction false} OneMoreRank(shares: nat, x: nat, sp: nat, n: nat)
    requires 0 < sp
    ensures sp * shares + x <= sp * (shares + Cdiv(x, sp)) <= sp * shares + x + sp - 1
    ensures (n + 1) * (sp - 1) == n * (sp - 1) + sp - 1
  {
    CdivBounds(x, sp);
    assert sp * (shares + Cdiv(x, sp)) == sp * shares + Cdiv(x, sp) * sp;
  }
}
