// The model client: a circuit breaker in front of a bounded retry loop.  Times
// and delays are real numbers; the clock never goes back.
module Breaker {
  import opened Events
  import opened Protocol

  // The breaker's fields.
  datatype State = State(failures: nat, openedAt: real)

  predicate Admits(limit: positive, cooldown: nat, b: State, now: real) {
    b.failures < limit || now - b.openedAt >= cooldown as real
  }

  // An admission after the cooldown starts counting afresh.
  function Checked(limit: positive, b: State): State { if b.failures < limit then b else b.(failures := 0) }

  function Failed(limit: positive, b: State, now: real): State {
    State(b.failures + 1, if b.failures + 1 >= limit then now else b.openedAt)
  }

  function Succeeded(): State { State(0, 0.0) }

  // An admitted call: when it was let through, when it ended, and how.
  datatype Attempt = Attempt(start: real, end: real, ok: bool)

  function AfterAttempt(limit: positive, b: State, a: Attempt): State {
    if a.ok then Succeeded() else Failed(limit, Checked(limit, b), a.end)
  }

  // Calls let through one after the other, by a clock that never goes back.
  ghost predicate LetThrough(limit: positive, cooldown: nat, b: State, calls: seq<Attempt>)
    decreases |calls|
  {
    calls == [] || (
      Admits(limit, cooldown, b, calls[0].start) && calls[0].start <= calls[0].end
      && (|calls| > 1 ==> calls[0].end <= calls[1].start)
      && LetThrough(limit, cooldown, AfterAttempt(limit, b, calls[0]), calls[1..]))
  }

  lemma {:induction false} StartsOrdered(limit: positive, cooldown: nat, b: State, calls: seq<Attempt>)
    requires LetThrough(limit, cooldown, b, calls) && |calls| > 1
    ensures calls[1].start <= calls[|calls| - 1].start
    decreases |calls|
  {
    if |calls| > 2 {
      StartsOrdered(limit, cooldown, AfterAttempt(limit, b, calls[0]), calls[1..]);
      assert calls[1..][|calls| - 2] == calls[|calls| - 1];
      assert calls[1].start <= calls[1].end <= calls[2].start by {
        var rest := calls[1..];
        assert rest[0] == calls[1] && rest[1] == calls[2];
        assert LetThrough(limit, cooldown, AfterAttempt(limit, b, calls[0]), rest);
      }
    }
  }

  // More failures than are left before the breaker opens span its cooldown.
  lemma {:induction false} FailuresSpan(limit: positive, cooldown: nat, b: State, calls: seq<Attempt>)
    requires LetThrough(limit, cooldown, b, calls) && calls != []
    requires forall i :: 0 <= i < |calls| ==> !calls[i].ok
    requires |calls| + Checked(limit, b).failures > limit
    ensures calls[|calls| - 1].start >= calls[0].end + cooldown as real
    decreases |calls|
  {
    var b' := AfterAttempt(limit, b, calls[0]);
    var rest := calls[1..];
    assert forall i :: 0 <= i < |rest| ==> rest[i] == calls[i + 1];
    StartsOrdered(limit, cooldown, b, calls);
    if Checked(limit, b).failures + 1 < limit {
      FailuresSpan(limit, cooldown, b', rest);
    } else {
      assert Admits(limit, cooldown, b', rest[0].start);
    }
  }

  lemma {:induction false} SuffixLetThrough(limit: positive, cooldown: nat, b: State, calls: seq<Attempt>, i: nat)
    returns (b': State)
    requires LetThrough(limit, cooldown, b, calls) && i <= |calls|
    ensures LetThrough(limit, cooldown, b', calls[i..])
    decreases i
  {
    if i == 0 {
      b' := b;
      assert calls[0..] == calls;
    } else {
      b' := SuffixLetThrough(limit, cooldown, AfterAttempt(limit, b, calls[0]), calls[1..], i - 1);
      assert calls[1..][i - 1..] == calls[i..];
    }
  }

  lemma {:induction false} PrefixLetThrough(limit: positive, cooldown: nat, b: State, calls: seq<Attempt>, n: nat)
    requires LetThrough(limit, cooldown, b, calls) && n <= |calls|
    ensures LetThrough(limit, cooldown, b, calls[..n])
    decreases n
  {
    if n > 0 {
      PrefixLetThrough(limit, cooldown, AfterAttempt(limit, b, calls[0]), calls[1..], n - 1);
      assert calls[1..][..n - 1] == calls[..n][1..];
    }
  }

  // Whatever state the breaker starts in, any limit + 1 failing calls let
  // through in a row span at least the cooldown: a shorter window has at most
  // limit of them without a success in between.
  lemma WindowBound(limit: positive, cooldown: nat, b: State, calls: seq<Attempt>, i: nat)
    requires LetThrough(limit, cooldown, b, calls) && i + limit < |calls|
    requires forall k :: i <= k <= i + limit ==> !calls[k].ok
    ensures calls[i + limit].start >= calls[i].end + cooldown as real
  {
    hide LetThrough;
    var b' := SuffixLetThrough(limit, cooldown, b, calls, i);
    var window := calls[i..][..limit + 1];
    PrefixLetThrough(limit, cooldown, b', calls[i..], limit + 1);
    assert forall k :: 0 <= k < |window| ==> window[k] == calls[i + k];
    FailuresSpan(limit, cooldown, b', window);
  }

  class CircuitBreaker {
    const maxFailures: positive
    const cooldown: nat
    var failureCount: nat
    var openedAt: real

    function Value(): State
      reads this
    {
      State(failureCount, openedAt)
    }

    constructor (maxFailures: positive, cooldown: nat)
      ensures this.maxFailures == maxFailures && this.cooldown == cooldown && Value() == State(0, 0.0)
    {
      this.maxFailures, this.cooldown := maxFailures, cooldown;
      failureCount, openedAt := 0, 0.0;
    }

    // A refusal changes nothing.
    method Check(now: real) returns (o: Outcome)
      modifies this
      ensures !o.Killed? && (o.Ok? <==> old(failureCount) < maxFailures || now - old(openedAt) >= cooldown as real)
      ensures openedAt == old(openedAt)
      ensures failureCount == if o.Ok? && old(failureCount) >= maxFailures then 0 else old(failureCount)
    {
      if failureCount < maxFailures {
        return Ok;
      }
      if now - openedAt < cooldown as real {
        return Raised(CIRCUIT_OPEN);
      }
      failureCount := 0;
      o := Ok;
    }

    method RecordSuccess()
      modifies this
      ensures failureCount == 0 && openedAt == 0.0
    {
      failureCount := 0;
      openedAt := 0.0;
    }

    method RecordFailure(now: real)
      modifies this
      ensures failureCount == old(failureCount) + 1
      ensures openedAt == if old(failureCount) + 1 >= maxFailures then now else old(openedAt)
    {
      failureCount := failureCount + 1;
      if failureCount >= maxFailures { openedAt := now; }
    }
  }

  // ----- the retry loop -----

  // How one request ends; a Retry-After header counts once it reads as a
  // number.
  datatype Reply = Body(response: Response) | HttpError(code: nat, retryAfter: Option<real>) | Malformed

  datatype Retry = Retry(attempt: nat, delay: real)

  type Delay = r: real | r >= 0.0 witness 0.0

  // The loop goes on only after an overload answer or something unreadable.
  predicate Overloaded(r: Reply) { r.Malformed? || (r.HttpError? && r.code in {429, 529}) }

  // The server asked for a delay of its own.
  predicate Asks(r: Reply) { r.HttpError? && r.retryAfter.Some? }

  function AskedDelay(r: Reply): real {
    if Asks(r) && r.retryAfter.value > 0.0 then r.retryAfter.value else 0.0
  }

  function Pow2(n: nat): (p: nat)
    ensures p > 0
  {
    if n == 0 then 1 else 2 * Pow2(n - 1)
  }

  // The delay after the k-th answer: what the server asked for, or exponential
  // with some jitter.
  predicate Paced(base: Delay, k: nat, reply: Reply, retry: Retry) {
    retry.attempt == k + 1
    && if Asks(reply) then retry.delay == AskedDelay(reply)
       else base * Pow2(k) as real <= retry.delay <= base * Pow2(k) as real + base
  }

  predicate AllPaced(base: Delay, replies: seq<Reply>, retries: seq<Retry>) {
    |retries| <= |replies| && forall k :: 0 <= k < |retries| ==> Paced(base, k, replies[k], retries[k])
  }

  lemma PacedMore(base: Delay, replies: seq<Reply>, retries: seq<Retry>, r: Retry)
    requires AllPaced(base, replies, retries) && |retries| < |replies| && Paced(base, |retries|, replies[|retries|], r)
    ensures AllPaced(base, replies, retries + [r])
  {
    hide Paced;
  }

  function Slept(retries: seq<Retry>): real {
    if retries == [] then 0.0 else Slept(retries[..|retries| - 1]) + retries[|retries| - 1].delay
  }

  function Asked(replies: seq<Reply>): real {
    if replies == [] then 0.0 else Asked(replies[..|replies| - 1]) + AskedDelay(replies[|replies| - 1])
  }

  // What n retries may cost besides the delays servers asked for.
  function Allowance(base: Delay, n: nat): real { base * (Pow2(n) as real + n as real - 1.0) }

  lemma AllowanceStep(base: Delay, n: nat)
    ensures Allowance(base, n + 1) == Allowance(base, n) + base * Pow2(n) as real + base
  {
  }

  lemma StepPositive(base: Delay, n: nat)
    ensures base * Pow2(n) as real >= 0.0
  {
  }

  // The total sleep of a call is within the allowance of its retries and what
  // servers asked for; without a Retry-After it is base * (2^n + n - 1).
  lemma {:induction false} SleepBound(base: Delay, replies: seq<Reply>, retries: seq<Retry>)
    requires |retries| == |replies| && AllPaced(base, replies, retries)
    ensures Slept(retries) <= Allowance(base, |retries|) + Asked(replies)
    ensures (forall k :: 0 <= k < |replies| ==> !Asks(replies[k])) ==> Slept(retries) <= Allowance(base, |retries|)
  {
    hide Pow2, Allowance;
    if retries == [] {
      NoAllowance(base);
    } else {
      var n := |retries| - 1;
      SleepBound(base, replies[..n], retries[..n]);
      AllowanceStep(base, n);
      StepPositive(base, n);
    }
  }

  lemma NoAllowance(base: Delay)
    ensures Allowance(base, 0) == 0.0
  {
  }

  class LLMClient {
    const maxRetries: positive
    const base: Delay
    const breaker: CircuitBreaker
    var lastRetries: seq<Retry>

    constructor (maxRetries: positive, base: Delay, breaker: CircuitBreaker)
      ensures this.maxRetries == maxRetries && this.base == base && this.breaker == breaker
    {
      this.maxRetries, this.base, this.breaker := maxRetries, base, breaker;
      lastRetries := [];
    }

    method Clock(now: real) returns (later: real)
      ensures later >= now
    {
      var elapsed: real := *;
      later := if elapsed >= 0.0 then now + elapsed else now;
    }

    // What a call does, whatever the server answers.  A refused one changes
    // nothing.  An admitted one makes requests up to the first final answer or
    // the limit, succeeds exactly if the last answer is a body, updates the
    // breaker exactly once, and records one retry, paced by the answer before
    // it, between any two requests.
    method Call(now: real, replies: seq<Reply>) returns (o: Outcome, response: Option<Response>, requests: nat, later: real)
      requires |replies| >= maxRetries
      modifies this, breaker
      ensures !o.Killed? && later >= now
      ensures requests > 0 <==>
        old(breaker.failureCount) < breaker.maxFailures || now - old(breaker.openedAt) >= breaker.cooldown as real
      ensures requests <= maxRetries
      ensures forall i :: 0 <= i < requests - 1 ==> Overloaded(replies[i])
      ensures 0 < requests < maxRetries ==> !Overloaded(replies[requests - 1])
      ensures requests == 0 ==> o.Raised? && breaker.Value() == old(breaker.Value()) && lastRetries == old(lastRetries)
      ensures requests > 0 ==>
        breaker.Value() == AfterAttempt(breaker.maxFailures, old(breaker.Value()), Attempt(now, later, o.Ok?))
      ensures o.Ok? ==> breaker.failureCount == 0
      ensures requests > 0 && o.Raised? ==>
        var failures := if old(breaker.failureCount) < breaker.maxFailures then old(breaker.failureCount) + 1 else 1;
        breaker.failureCount == failures && breaker.openedAt == if failures >= breaker.maxFailures then later else old(breaker.openedAt)
      ensures o.Ok? <==> requests > 0 && replies[requests - 1].Body?
      ensures response == if o.Ok? then Some(replies[requests - 1].response) else None
      ensures requests > 0 ==> |lastRetries| + 1 == requests && AllPaced(base, replies[..requests - 1], lastRetries)
    {
      hide Pow2, AllPaced;
      response, requests, later := None, 0, now;
      :- breaker.Check(now);
      lastRetries := [];
      NonePaced(base, replies[..0]);
      while true
        invariant requests < maxRetries && |lastRetries| == requests && later >= now
        invariant forall i :: 0 <= i < requests ==> Overloaded(replies[i])
        invariant breaker.Value() == Checked(breaker.maxFailures, old(breaker.Value()))
        invariant AllPaced(base, replies[..requests], lastRetries)
        decreases maxRetries - requests
      {
        var attempt := requests;
        requests := requests + 1;
        later := Clock(later);
        match replies[attempt]
        case Body(r) =>
          breaker.RecordSuccess();
          return Ok, Some(r), requests, later;
        case HttpError(code, retryAfter) =>
          if (code != 429 && code != 529) || attempt == maxRetries - 1 {
            breaker.RecordFailure(later);
            return Raised(NETWORK_FAILURE), None, requests, later;
          }
          RecordRetry(attempt, replies, retryAfter);
        case Malformed =>
          if attempt == maxRetries - 1 {
            breaker.RecordFailure(later);
            return Raised(NETWORK_FAILURE), None, requests, later;
          }
          RecordRetry(attempt, replies, None);
        later := Clock(later);
      }
    }

    lemma NonePaced(base: Delay, replies: seq<Reply>)
      ensures AllPaced(base, replies, [])
    {
    }

    method RecordRetry(attempt: nat, ghost replies: seq<Reply>, retryAfter: Option<real>)
      requires |lastRetries| == attempt < |replies| && AllPaced(base, replies[..attempt], lastRetries)
      requires retryAfter == if Asks(replies[attempt]) then replies[attempt].retryAfter else None
      modifies this
      ensures |lastRetries| == attempt + 1 && AllPaced(base, replies[..attempt + 1], lastRetries)
    {
      hide Pow2, Paced;
      var delay := RetryDelay(attempt, retryAfter);
      DelayPaced(attempt, replies[attempt], delay);
      PacedMore(base, replies[..attempt + 1], lastRetries, Retry(attempt + 1, delay));
      lastRetries := lastRetries + [Retry(attempt + 1, delay)];
    }

    lemma DelayPaced(attempt: nat, reply: Reply, delay: real)
      requires Asks(reply) ==> delay == AskedDelay(reply)
      requires !Asks(reply) ==> base * Pow2(attempt) as real <= delay <= base * Pow2(attempt) as real + base
      ensures Paced(base, attempt, reply, Retry(attempt + 1, delay))
    {
    }

    // Exponential in the attempt with some jitter, unless the server said.
    method RetryDelay(attempt: nat, retryAfter: Option<real>) returns (delay: real)
      ensures retryAfter.Some? ==> delay == if retryAfter.value > 0.0 then retryAfter.value else 0.0
      ensures retryAfter.None? ==> base * Pow2(attempt) as real <= delay <= base * Pow2(attempt) as real + base
    {
      if retryAfter.Some? {
        return if retryAfter.value > 0.0 then retryAfter.value else 0.0;
      }
      var drawn: real := *;
      var jitter := if 0.0 <= drawn <= base then drawn else 0.0;
      delay := base * Pow2(attempt) as real + jitter;
    }
  }
}
