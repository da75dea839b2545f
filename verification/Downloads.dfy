/** Downloads with retries, and responses read under a size limit. */
module Downloads {
  import opened Options

  type Bytes = seq<nat>

  const BACKOFF: nat := 4

  /** How one attempt goes. A failure may come before the file is opened or after some chunks have been written to it.
      */
  datatype Attempt = Success(chunks: seq<Bytes>) | Failure(begun: bool, chunks: seq<Bytes>, retryable: bool)

  function Pow(k: nat): nat { if k == 0 then 1 else BACKOFF * Pow(k - 1) }

  function Joined(chunks: seq<Bytes>): Bytes {
    if chunks == [] then [] else Joined(chunks[..|chunks| - 1]) + chunks[|chunks| - 1]
  }

  function MaxRetries(limit: int): nat { if limit <= 1 then 1 else limit }

  predicate Final(a: Attempt) { a.Success? || !a.retryable }

  /** The last attempt made: the first that succeeds or fails for good, or the last allowed. */
  function LastAttempt(script: seq<Attempt>, limit: int, k: nat): (n: nat)
    requires k < MaxRetries(limit) <= |script|
    ensures k <= n < MaxRetries(limit) && (forall j | k <= j < n :: !Final(script[j]))
    ensures Final(script[n]) || n + 1 == MaxRetries(limit)
    decreases MaxRetries(limit) - k
  {
    if Final(script[k]) || k + 1 == MaxRetries(limit) then k else LastAttempt(script, limit, k + 1)
  }

  lemma {:induction false} LastAttemptIs(script: seq<Attempt>, limit: int, k: nat, n: nat)
    requires k <= n < MaxRetries(limit) <= |script| && (forall j | k <= j < n :: !Final(script[j]))
    requires Final(script[n]) || n + 1 == MaxRetries(limit)
    ensures LastAttempt(script, limit, k) == n
    decreases n - k
  {
    if k < n { LastAttemptIs(script, limit, k + 1, n); }
  }

  /** The base timeout, four times as long with each attempt; no timeout stays none. */
  function AttemptTimeout(base: Option<real>, k: nat): Option<real> {
    if base.None? then None else Some(base.value * Pow(k) as real)
  }

  predicate FourTimes(a: Option<real>, b: Option<real>) {
    if a.None? then b.None? else b.Some? && b.value == 4.0 * a.value
  }

  lemma {:induction false} NextTimeout(base: Option<real>, k: nat)
    ensures AttemptTimeout(base, 0) == base
    ensures 0 < k ==> FourTimes(AttemptTimeout(base, k - 1), AttemptTimeout(base, k))
  {
    assert Pow(0) as real == 1.0;
    if base.Some? { assert AttemptTimeout(base, 0).value == base.value && base == Some(base.value); }
    if 0 < k { assert Pow(k) as real == 4.0 * Pow(k - 1) as real; }
  }

  class Connection {
    var file: Option<Bytes>     // what is at the destination
    var timeouts: seq<Option<real>>
    var slept: nat

    /** Write the chunks of a response to the file. */
    method WriteChunks(chunks: seq<Bytes>)
      modifies this`file
      ensures file == Some(Joined(chunks))
    {
      file := Some([]);  // opened for writing
      for k := 0 to |chunks|
        invariant file == Some(Joined(chunks[..k]))
      {
        assert chunks[..k + 1][..k] == chunks[..k];
        file := Some(file.value + chunks[k]);
      }
      assert chunks[..|chunks|] == chunks;
    }

    /** One attempt; whatever is at the destination is removed when it fails. */
    method DownloadOnce(timeout: Option<real>, outcome: Attempt) returns (ok: bool)
      modifies this`file, this`timeouts
      ensures timeouts == old(timeouts) + [timeout]
      ensures ok == outcome.Success?
      ensures file == if ok then Some(Joined(outcome.chunks)) else None
    {
      timeouts := timeouts + [timeout];
      if outcome.Success? || outcome.begun {
        WriteChunks(outcome.chunks);
      }
      ok := outcome.Success?;
      if !ok && file != None {
        file := None;
      }
    }

    /** Attempts until one succeeds, fails for good, or is the last allowed; each with four times the timeout of the one
        before and a pause four times as long. */
    method Download(limit: int, baseTimeout: Option<real>, script: seq<Attempt>) returns (ok: bool)
      requires MaxRetries(limit) <= |script| && timeouts == [] && slept == 0
      modifies this
      ensures |timeouts| == LastAttempt(script, limit, 0) + 1 <= MaxRetries(limit)
      ensures limit <= 1 ==> |timeouts| == 1
      ensures 1 <= limit && (forall k | 0 <= k < limit :: script[k].Failure? && script[k].retryable) ==>
                |timeouts| == limit
      ensures timeouts[0] == baseTimeout
      ensures forall k | 0 < k < |timeouts| :: FourTimes(timeouts[k - 1], timeouts[k])
      ensures 3 * slept == Pow(|timeouts| - 1) - 1
      ensures ok == script[|timeouts| - 1].Success?
      ensures file == if ok then Some(Joined(script[|timeouts| - 1].chunks)) else None
    {
      var maxRetries := MaxRetries(limit);
      for attempt := 0 to maxRetries
        invariant |timeouts| == attempt < maxRetries && 3 * slept == Pow(attempt) - 1
        invariant 0 < attempt ==> timeouts[0] == baseTimeout
        invariant 0 < attempt ==> timeouts[attempt - 1] == AttemptTimeout(baseTimeout, attempt - 1)
        invariant forall k | 0 < k < attempt :: FourTimes(timeouts[k - 1], timeouts[k])
        invariant forall k | 0 <= k < attempt :: !Final(script[k])
      {
        NextTimeout(baseTimeout, attempt);
        ok := DownloadOnce(AttemptTimeout(baseTimeout, attempt), script[attempt]);
        if ok {
          LastAttemptIs(script, limit, 0, attempt);
          return;
        }
        if !script[attempt].retryable || maxRetries <= attempt + 1 {
          LastAttemptIs(script, limit, 0, attempt);
          return;
        }
        slept := slept + Pow(attempt);
      }
      assert false;  // never reached: the last attempt returns or raises
    }
  }

  // ----- bounded reading -----

  /** The tighter of the configured limit and the caller's; the flag says that it is the configured one. */
  function SizeLimit(configured: Option<nat>, caller: Option<nat>): (r: (Option<nat>, bool))
    ensures forall n: nat :: Allows(r.0, n) <==> Allows(configured, n) && Allows(caller, n)
    ensures r.1 <==> r.0.Some? && r.0 == configured
  {
    if configured.Some? && (caller.None? || configured.value <= caller.value) then (configured, true)
    else (caller, false)
  }

  predicate Allows(limit: Option<nat>, n: nat) { limit.None? || n <= limit.value }

  predicate Announced(limit: Option<nat>, contentLength: Option<int>) {
    limit.None? || contentLength.None? || contentLength.value <= limit.value
  }

  /** The bytes of a response, or the error of a limit exceeded; `media` says that it is the configured one. */
  datatype Response = Body(bytes: Bytes) | TooLarge(limit: nat, received: int, media: bool)

  /** Read a response chunk by chunk, giving up as soon as more has come than allowed: what is kept never exceeds the
      limit. The error names the limit that both allow least, and a size that exceeds it: the one announced, or as much
      as had come. */
  method ReadResponse(stream: seq<Bytes>, contentLength: Option<int>, configured: Option<nat>, caller: Option<nat>)
    returns (r: Response, kept: seq<Bytes>)
    ensures r.Body? <==> && Allows(configured, |Joined(stream)|) && Allows(caller, |Joined(stream)|)
                         && Announced(configured, contentLength) && Announced(caller, contentLength)
    ensures r.Body? ==> r.bytes == Joined(stream)
    ensures r.TooLarge? ==>
              && (configured == Some(r.limit) || caller == Some(r.limit)) && (r.media <==> configured == Some(r.limit))
              && Allows(configured, r.limit) && Allows(caller, r.limit) && r.limit < r.received
              && |Joined(kept)| <= r.limit
              && (contentLength == Some(r.received) || |Joined(kept)| < r.received <= |Joined(stream)|)
  {
    kept := [];
    var (limit, media) := SizeLimit(configured, caller);
    if limit.None? {
      return Body(Joined(stream)), stream;
    }
    if contentLength.Some? && limit.value < contentLength.value {
      return TooLarge(limit.value, contentLength.value, media), kept;
    }
    var received := 0;
    for k := 0 to |stream|
      invariant received == |Joined(stream[..k])| <= limit.value && Joined(kept) == Joined(stream[..k])
    {
      assert stream[..k + 1][..k] == stream[..k];
      if stream[k] != [] {
        received := received + |stream[k]|;
        if limit.value < received {
          JoinedGrows(stream, k + 1);
          return TooLarge(limit.value, received, media), kept;
        }
        assert (kept + [stream[k]])[..|kept|] == kept;
        kept := kept + [stream[k]];
      }
    }
    assert stream[..|stream|] == stream;
    return Body(Joined(kept)), kept;
  }

  lemma {:induction false} JoinedGrows(chunks: seq<Bytes>, k: nat)
    requires k <= |chunks|
    ensures |Joined(chunks[..k])| <= |Joined(chunks)|
    decreases |chunks|
  {
    if k < |chunks| {
      var n := |chunks| - 1;
      assert chunks[..n][..k] == chunks[..k];
      JoinedGrows(chunks[..n], k);
    } else {
      assert chunks[..k] == chunks;
    }
  }
}
