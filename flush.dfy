/** The flusher: a time gate, a drain loop that sends prefix batches of at
    most 50 records and removes a batch only once its request succeeded, and
    the back-off state (consecutive failures, earliest time of the next
    request) fed by Retry-After values and a clamped exponential back-off.

    The network is an input: request number `k` of a drain of queue `type`
    gets the exchange `respond(kind, k)`, which carries the classified
    outcome, the clock reading when its handler runs and the jitter that
    `arc4random_uniform(30)` would draw.  The JSON encoder is an abstract
    partial function.  Times are whole seconds. */
module Flush {
  import opened Values

  /** Largest number of records in one request. */
  const BatchSize: nat := 50

  /** Bounds of the exponential back-off, in seconds. */
  const MinRetryBackOff: int := 60
  const MaxRetryBackOff: int := 600

  /** `arc4random_uniform(30)` */
  type Jitter = j: nat | j < 30

  /** A classified response: success (HTTP 200 with a parsable body) or
      failure (transport error, other status, no data, parse error), with the
      Retry-After header's value in seconds when present. */
  datatype Outcome = Success(retryAfter: Option<nat>) | Failure(retryAfter: Option<nat>)

  /** One round trip as seen by the response handler. */
  datatype Exchange = Exchange(outcome: Outcome, now: int, jitter: Jitter)

  /** The two ingestion endpoints. */
  datatype FlushType = Events | People {
    function Path(): string {
      match this
      case Events => "/track/"
      case People => "/engage/"
    }
  }

  /** What the flusher consults: the encoder, the network, and the clock
      reading at each queue's time gate. */
  datatype Environment = Environment(encode: Queue -> Option<string>,
                                     respond: (FlushType, nat) -> Exchange,
                                     gateTime: FlushType -> int)

  /** The back-off state: `networkConsecutiveFailures` and
      `networkRequestsAllowedAfterTime`. */
  datatype Backoff = Backoff(failures: nat, allowedAfter: int)

  function Pow2(n: nat): (r: nat)
    ensures r >= 1
  {
    if n == 0 then 1 else 2 * Pow2(n - 1)
  }

  /** `retryBackOffTimeWithConsecutiveFailures`: 2^(f-1) * 60 seconds plus
      jitter, clamped to [60, 600] (for f = 0 the power is one half). */
  function RetryBackOffTime(failureCount: nat, jitter: Jitter): (t: int)
    ensures MinRetryBackOff <= t <= MaxRetryBackOff
    ensures failureCount >= 1 ==>
      var base := Min(MaxRetryBackOff, Pow2(failureCount - 1) * 60);
      base <= t <= base + jitter
  {
    var time := (if failureCount == 0 then 30 else Pow2(failureCount - 1) * 60) + jitter;
    Min(Max(MinRetryBackOff, time), MaxRetryBackOff)
  }

  /** `updateRetryDelay`: the new earliest time of the next request.  The
      Retry-After value (zero when absent) applies after every response; the
      back-off is added as a lower bound only from the second consecutive
      failure on. */
  function RetryDeadline(failures: nat, retryAfter: Option<nat>, now: int, jitter: Jitter): (t: int)
    ensures t >= now + retryAfter.GetOr(0)
    ensures failures <= 1 ==> t == now + retryAfter.GetOr(0)
    ensures failures > 1 ==>
      t >= now + RetryBackOffTime(failures, jitter)
      && (t == now + retryAfter.GetOr(0) || t == now + RetryBackOffTime(failures, jitter))
  {
    var retryTime := retryAfter.GetOr(0);
    var retryTime := if failures > 1 then Max(retryTime, RetryBackOffTime(failures, jitter)) else retryTime;
    now + retryTime
  }

  /** `flushRequestHandler`: a failure adds one to the failure count, a
      success resets it; either way the retry delay is then updated. */
  function HandleResponse(b: Backoff, x: Exchange): (b': Backoff)
    ensures x.outcome.Success? ==> b'.failures == 0
    ensures x.outcome.Failure? ==> b'.failures == b.failures + 1
    ensures b'.allowedAfter == RetryDeadline(b'.failures, x.outcome.retryAfter, x.now, x.jitter)
  {
    var failures := if x.outcome.Success? then 0 else b.failures + 1;
    Backoff(failures, RetryDeadline(failures, x.outcome.retryAfter, x.now, x.jitter))
  }

  /** The `i`-th batch of `q` when it is cut into batches of `BatchSize`. */
  function Chunk(q: Queue, i: nat): Queue {
    q[Min(|q|, BatchSize * i)..Min(|q|, BatchSize * i + BatchSize)]
  }

  lemma ChunkShift(q: Queue, i: nat)
    requires |q| >= BatchSize
    ensures Chunk(q[BatchSize..], i) == Chunk(q, i + 1)
  {
  }

  /** The outcome of one drain: what stays queued, the back-off state, the
      batches sent (one per request, in order), how many of them were
      removed, and the number of the next request. */
  datatype DrainResult = DrainResult(rest: Queue, backoff: Backoff, sent: seq<Queue>,
                                     delivered: nat, nextAttempt: nat)

  /** The drain loop as a function: send the head batch of at most 50
      records; on success remove exactly it and go on, on a failed request or
      an encoding failure stop with everything from that batch on queued. */
  function Drain(q: Queue, b: Backoff, attempt: nat, kind: FlushType, env: Environment): DrainResult
    decreases |q|
  {
    if |q| == 0 then DrainResult([], b, [], 0, attempt)
    else
      var n := Min(|q|, BatchSize);
      var batch := q[..n];
      if env.encode(batch).None? then DrainResult(q, b, [], 0, attempt)
      else
        var x := env.respond(kind, attempt);
        var b' := HandleResponse(b, x);
        if x.outcome.Failure? then DrainResult(q, b', [batch], 0, attempt + 1)
        else
          var r := Drain(q[n..], b', attempt + 1, kind, env);
          DrainResult(r.rest, r.backoff, [batch] + r.sent, r.delivered + 1, r.nextAttempt)
  }

  /** The shape of a drain: at most one request fails, the requests are
      numbered consecutively, and what stays queued is exactly the suffix
      after the removed batches. */
  lemma {:induction false} DrainShape(q: Queue, b: Backoff, attempt: nat, kind: FlushType, env: Environment)
    ensures var r := Drain(q, b, attempt, kind, env);
      && r.delivered <= |r.sent| <= r.delivered + 1
      && r.nextAttempt == attempt + |r.sent|
      && r.rest == q[Min(|q|, BatchSize * r.delivered)..]
    decreases |q|
  {
    if |q| > 0 {
      var n := Min(|q|, BatchSize);
      if env.encode(q[..n]).Some? {
        var x := env.respond(kind, attempt);
        if x.outcome.Success? {
          var b' := HandleResponse(b, x);
          var r' := Drain(q[n..], b', attempt + 1, kind, env);
          DrainShape(q[n..], b', attempt + 1, kind, env);
          var r := Drain(q, b, attempt, kind, env);
          assert r == DrainResult(r'.rest, r'.backoff, [q[..n]] + r'.sent, r'.delivered + 1, r'.nextAttempt);
          if r'.delivered > 0 {
            assert n == BatchSize;
            assert q[n..][Min(|q[n..]|, BatchSize * r'.delivered)..] == q[Min(|q|, BatchSize * r.delivered)..];
          }
        }
      }
    }
  }

  /** `flushQueue(_:queue:)`: the time gate in front of the drain. */
  function GatedFlush(q: Queue, b: Backoff, kind: FlushType, env: Environment): (r: DrainResult)
    ensures env.gateTime(kind) < b.allowedAfter ==> r.rest == q && r.backoff == b && r.sent == []
  {
    if env.gateTime(kind) < b.allowedAfter then DrainResult(q, b, [], 0, 0)
    else Drain(q, b, 0, kind, env)
  }

  /** The requests of a drain carry consecutive batches of the queue, in
      queue order, starting at its head. */
  lemma {:induction false} DrainSendsChunks(q: Queue, b: Backoff, attempt: nat, kind: FlushType, env: Environment)
    ensures var r := Drain(q, b, attempt, kind, env);
      forall i :: 0 <= i < |r.sent| ==> r.sent[i] == Chunk(q, i)
    decreases |q|
  {
    if |q| > 0 {
      var n := Min(|q|, BatchSize);
      if env.encode(q[..n]).Some? {
        var x := env.respond(kind, attempt);
        if x.outcome.Success? {
          var b' := HandleResponse(b, x);
          var r' := Drain(q[n..], b', attempt + 1, kind, env);
          DrainSendsChunks(q[n..], b', attempt + 1, kind, env);
          var r := Drain(q, b, attempt, kind, env);
          assert r.sent == [q[..n]] + r'.sent;
          forall i | 0 <= i < |r.sent| ensures r.sent[i] == Chunk(q, i) {
            if i == 0 {
              assert r.sent[0] == q[..n] == Chunk(q, 0);
            } else {
              assert r.sent[i] == r'.sent[i - 1];
              assert q[n..] != [];
              ChunkShift(q, i - 1);
            }
          }
        }
      }
    }
  }

  /** Every batch a drain removed was answered with a success. */
  lemma {:induction false} DrainRemovesOnlyAcknowledged(q: Queue, b: Backoff, attempt: nat, kind: FlushType, env: Environment)
    ensures var r := Drain(q, b, attempt, kind, env);
      forall k :: attempt <= k < attempt + r.delivered ==> env.respond(kind, k).outcome.Success?
    decreases |q|
  {
    if |q| > 0 {
      var n := Min(|q|, BatchSize);
      if env.encode(q[..n]).Some? {
        var x := env.respond(kind, attempt);
        if x.outcome.Success? {
          var b' := HandleResponse(b, x);
          DrainRemovesOnlyAcknowledged(q[n..], b', attempt + 1, kind, env);
        }
      }
    }
  }

  /** A drain stops at the first failure: a batch sent but not removed was
      answered with a failure and heads what stays queued; a drain that stops
      with records left and no failed request stopped because the head batch
      could not be encoded. */
  lemma {:induction false} DrainStopsAtFirstFailure(q: Queue, b: Backoff, attempt: nat, kind: FlushType, env: Environment)
    ensures var r := Drain(q, b, attempt, kind, env);
      && (|r.sent| == r.delivered + 1 ==>
            && r.rest != []
            && r.sent[r.delivered] == r.rest[..Min(|r.rest|, BatchSize)]
            && env.respond(kind, attempt + r.delivered).outcome.Failure?)
      && (|r.sent| == r.delivered && r.rest != [] ==>
            env.encode(r.rest[..Min(|r.rest|, BatchSize)]).None?)
    decreases |q|
  {
    if |q| > 0 {
      var n := Min(|q|, BatchSize);
      if env.encode(q[..n]).Some? {
        var x := env.respond(kind, attempt);
        if x.outcome.Success? {
          var b' := HandleResponse(b, x);
          var r' := Drain(q[n..], b', attempt + 1, kind, env);
          DrainStopsAtFirstFailure(q[n..], b', attempt + 1, kind, env);
          var r := Drain(q, b, attempt, kind, env);
          assert r == DrainResult(r'.rest, r'.backoff, [q[..n]] + r'.sent, r'.delivered + 1, r'.nextAttempt);
          assert attempt + r.delivered == (attempt + 1) + r'.delivered;
          if |r.sent| == r.delivered + 1 {
            assert r.sent[r.delivered] == r'.sent[r'.delivered];
          }
        } else {
          var r := Drain(q, b, attempt, kind, env);
          assert r == DrainResult(q, HandleResponse(b, x), [q[..n]], 0, attempt + 1);
        }
      } else {
        assert Drain(q, b, attempt, kind, env) == DrainResult(q, b, [], 0, attempt);
      }
    }
  }

  /** The back-off state a drain leaves: untouched when nothing was sent,
      failures reset after a drain that ended with a success, and one more
      failure than before the last request (which is the first one, or
      follows a success) when the drain stopped on a failed request. */
  lemma {:induction false} DrainBackoff(q: Queue, b: Backoff, attempt: nat, kind: FlushType, env: Environment)
    ensures var r := Drain(q, b, attempt, kind, env);
      && (r.sent == [] ==> r.backoff == b)
      && (r.sent != [] && |r.sent| == r.delivered ==> r.backoff.failures == 0)
      && (|r.sent| == r.delivered + 1 ==>
            var x := env.respond(kind, attempt + r.delivered);
            && r.backoff.failures == (if r.delivered == 0 then b.failures else 0) + 1
            && r.backoff.allowedAfter == RetryDeadline(r.backoff.failures, x.outcome.retryAfter, x.now, x.jitter))
    decreases |q|
  {
    if |q| > 0 {
      var n := Min(|q|, BatchSize);
      if env.encode(q[..n]).Some? {
        var x := env.respond(kind, attempt);
        if x.outcome.Success? {
          var b' := HandleResponse(b, x);
          var r' := Drain(q[n..], b', attempt + 1, kind, env);
          DrainBackoff(q[n..], b', attempt + 1, kind, env);
          var r := Drain(q, b, attempt, kind, env);
          assert r == DrainResult(r'.rest, r'.backoff, [q[..n]] + r'.sent, r'.delivered + 1, r'.nextAttempt);
          assert attempt + r.delivered == (attempt + 1) + r'.delivered;
          if r'.sent == [] {
            assert r.backoff == b' && b'.failures == 0;
          }
        }
      }
    }
  }

  /** With an encoder and a network that never fail, a drain empties the
      queue in ceil(K/50) requests and leaves the failure count at zero. */
  lemma {:induction false} AlwaysSuccessEmptiesQueue(q: Queue, b: Backoff, attempt: nat, kind: FlushType, env: Environment)
    requires forall batch :: env.encode(batch).Some?
    requires forall k :: env.respond(kind, k).outcome.Success?
    ensures var r := Drain(q, b, attempt, kind, env);
      && r.rest == []
      && |r.sent| == r.delivered == (|q| + BatchSize - 1) / BatchSize
      && (q != [] ==> r.backoff.failures == 0)
    decreases |q|
  {
    if |q| > 0 {
      var n := Min(|q|, BatchSize);
      var x := env.respond(kind, attempt);
      assert env.encode(q[..n]).Some?;
      assert x.outcome.Success?;
      var r' := Drain(q[n..], HandleResponse(b, x), attempt + 1, kind, env);
      AlwaysSuccessEmptiesQueue(q[n..], HandleResponse(b, x), attempt + 1, kind, env);
      var r := Drain(q, b, attempt, kind, env);
      assert r == DrainResult(r'.rest, r'.backoff, [q[..n]] + r'.sent, r'.delivered + 1, r'.nextAttempt);
      if |q| <= BatchSize {
        assert q[n..] == [];
        assert (|q| + BatchSize - 1) / BatchSize == 1;
      } else {
        assert |q[n..]| == |q| - BatchSize;
        assert (|q| + BatchSize - 1) / BatchSize == (|q| - BatchSize + BatchSize - 1) / BatchSize + 1;
      }
    }
  }

  /** Sixty queued records and an always-successful network: two requests,
      of 50 and then 10 records, in queue order, and an empty queue. */
  lemma SixtyRecordsTakeTwoRequests(q: Queue, b: Backoff, kind: FlushType, env: Environment)
    requires |q| == 60
    requires env.gateTime(kind) >= b.allowedAfter
    requires forall batch :: env.encode(batch).Some?
    requires forall k :: env.respond(kind, k).outcome.Success?
    ensures var r := GatedFlush(q, b, kind, env);
      && r.rest == []
      && r.sent == [q[..50], q[50..]]
      && r.backoff.failures == 0
  {
    AlwaysSuccessEmptiesQueue(q, b, 0, kind, env);
    var r := Drain(q, b, 0, kind, env);
    assert |r.sent| == 2;
    assert r.sent[0] == Chunk(q, 0) == q[..50];
    assert r.sent[1] == Chunk(q, 1) == q[50..];
  }

  /** Two flushes of a queue holding one event against a server answering
      5xx without Retry-After: the event stays queued, the failure count is
      2 and the next request is at least two minutes away. */
  lemma TwoServerErrorsBackOff(e: Properties, b: Backoff, kind: FlushType, env1: Environment, env2: Environment)
    requires b.failures == 0
    requires env1.gateTime(kind) >= b.allowedAfter
    requires env1.encode([e]).Some? && env2.encode([e]).Some?
    requires env1.respond(kind, 0).outcome == Failure(None)
    requires env2.respond(kind, 0).outcome == Failure(None)
    requires env2.gateTime(kind) >= env1.respond(kind, 0).now
    ensures var r1 := GatedFlush([e], b, kind, env1);
      var r2 := GatedFlush(r1.rest, r1.backoff, kind, env2);
      && r1.rest == [e] && r1.backoff.failures == 1
      && r1.backoff.allowedAfter == env1.respond(kind, 0).now
      && r2.rest == [e] && r2.backoff.failures == 2
      && r2.backoff.allowedAfter >= env2.respond(kind, 0).now + 120
  {
    var r1 := GatedFlush([e], b, kind, env1);
    assert [e][..Min(1, BatchSize)] == [e];
    assert r1.rest == [e];
    var r2 := GatedFlush(r1.rest, r1.backoff, kind, env2);
    assert RetryBackOffTime(2, env2.respond(kind, 0).jitter) >= 120;
  }

  /** A successful response carrying Retry-After: 60 resets the failure count
      and still holds the next request back by sixty seconds. */
  lemma RetryAfterHonouredOnSuccess(q: Queue, b: Backoff, kind: FlushType, env: Environment)
    requires 0 < |q| <= BatchSize
    requires env.gateTime(kind) >= b.allowedAfter
    requires env.encode(q).Some?
    requires env.respond(kind, 0).outcome == Success(Some(60))
    ensures var r := GatedFlush(q, b, kind, env);
      && r.rest == []
      && r.backoff == Backoff(0, env.respond(kind, 0).now + 60)
  {
    assert q[..Min(|q|, BatchSize)] == q;
    var x := env.respond(kind, 0);
    var b' := HandleResponse(b, x);
    assert b' == Backoff(0, x.now + 60);
    assert q[Min(|q|, BatchSize)..] == [];
    assert Drain(q, b, 0, kind, env) == DrainResult([], b', [q], 1, 1);
  }

  /** A single failed request without Retry-After imposes no delay: the queue
      is kept whole after exactly one request, the failure count becomes 1
      and requests are allowed again at once. */
  lemma SingleFailureImposesNoDelay(q: Queue, kind: FlushType, env: Environment)
    requires 0 < |q| <= BatchSize
    requires env.gateTime(kind) >= 0
    requires env.encode(q).Some?
    requires env.respond(kind, 0).outcome == Failure(None)
    ensures var r := GatedFlush(q, Backoff(0, 0), kind, env);
      && r.rest == q && |r.sent| == 1
      && r.backoff == Backoff(1, env.respond(kind, 0).now)
  {
    assert q[..Min(|q|, BatchSize)] == q;
  }

  /** Back-off never shrinks as failures accumulate (for the same jitter). */
  lemma {:induction false} RetryBackOffTimeMonotonic(f1: nat, f2: nat, jitter: Jitter)
    requires f1 <= f2
    ensures RetryBackOffTime(f1, jitter) <= RetryBackOffTime(f2, jitter)
  {
    if 1 <= f1 {
      Pow2Monotonic(f1 - 1, f2 - 1);
    }
  }

  lemma {:induction false} Pow2Monotonic(a: nat, b: nat)
    requires a <= b
    ensures Pow2(a) <= Pow2(b)
    decreases b
  {
    if a < b {
      Pow2Monotonic(a, b - 1);
    }
  }

  /** The flusher object: the back-off fields and the settings it keeps. */
  class Flush {
    var networkRequestsAllowedAfterTime: int
    var useIPAddressForGeoLocation: bool
    var networkConsecutiveFailures: nat
    var flushOnBackground: bool
    var flushInterval: real

    /** The back-off state held in the two fields. */
    function State(): Backoff
      reads this
    {
      Backoff(networkConsecutiveFailures, networkRequestsAllowedAfterTime)
    }

    constructor ()
      ensures State() == Backoff(0, 0)
      ensures useIPAddressForGeoLocation && flushOnBackground && flushInterval == 0.0
    {
      networkRequestsAllowedAfterTime := 0;
      useIPAddressForGeoLocation := true;
      networkConsecutiveFailures := 0;
      flushOnBackground := true;
      flushInterval := 0.0;
    }

    method FlushEventsQueue(eventsQueue: Queue, env: Environment) returns (rest: Queue)
      modifies this`networkConsecutiveFailures, this`networkRequestsAllowedAfterTime
      ensures var r := GatedFlush(eventsQueue, old(State()), Events, env);
        rest == r.rest && State() == r.backoff
    {
      rest := FlushQueue(Events, eventsQueue, env);
    }

    method FlushPeopleQueue(peopleQueue: Queue, env: Environment) returns (rest: Queue)
      modifies this`networkConsecutiveFailures, this`networkRequestsAllowedAfterTime
      ensures var r := GatedFlush(peopleQueue, old(State()), People, env);
        rest == r.rest && State() == r.backoff
    {
      rest := FlushQueue(People, peopleQueue, env);
    }

    /** The time gate: before the allowed-after time, return at once. */
    method FlushQueue(kind: FlushType, queue: Queue, env: Environment) returns (rest: Queue)
      modifies this`networkConsecutiveFailures, this`networkRequestsAllowedAfterTime
      ensures var r := GatedFlush(queue, old(State()), kind, env);
        rest == r.rest && State() == r.backoff
    {
      if env.gateTime(kind) < networkRequestsAllowedAfterTime {
        return queue;
      }
      rest := DrainQueue(queue, kind, env);
    }

    /** The drain loop over the `inout` queue. */
    method DrainQueue(queue: Queue, kind: FlushType, env: Environment) returns (rest: Queue)
      modifies this`networkConsecutiveFailures, this`networkRequestsAllowedAfterTime
      ensures var r := Drain(queue, old(State()), 0, kind, env);
        rest == r.rest && State() == r.backoff
    {
      ghost var target := Drain(queue, State(), 0, kind, env);
      rest := queue;
      var attempt: nat := 0;
      while |rest| > 0
        invariant Drain(rest, State(), attempt, kind, env).rest == target.rest
        invariant Drain(rest, State(), attempt, kind, env).backoff == target.backoff
        decreases |rest|
      {
        var shouldContinue := false;
        var batchSize := Min(|rest|, BatchSize);
        var batch := rest[..batchSize];
        var requestData := env.encode(batch);
        if requestData.Some? {
          var success := FlushRequestHandler(env.respond(kind, attempt));
          attempt := attempt + 1;
          if success {
            rest := rest[batchSize..];
          }
          shouldContinue := success;
        }
        if !shouldContinue {
          break;
        }
      }
    }

    /** `flushRequestHandler`: count the failure or reset the count, then
      update the retry delay; report whether the request succeeded. */
    method FlushRequestHandler(x: Exchange) returns (success: bool)
      modifies this`networkConsecutiveFailures, this`networkRequestsAllowedAfterTime
      ensures success == x.outcome.Success?
      ensures State() == HandleResponse(old(State()), x)
    {
      if x.outcome.Failure? {
        networkConsecutiveFailures := networkConsecutiveFailures + 1;
        UpdateRetryDelay(x.outcome.retryAfter, x.now, x.jitter);
        success := false;
      } else {
        networkConsecutiveFailures := 0;
        UpdateRetryDelay(x.outcome.retryAfter, x.now, x.jitter);
        success := true;
      }
    }

    /** `updateRetryDelay` */
    method UpdateRetryDelay(retryAfter: Option<nat>, now: int, jitter: Jitter)
      modifies this`networkRequestsAllowedAfterTime
      ensures networkRequestsAllowedAfterTime == RetryDeadline(networkConsecutiveFailures, retryAfter, now, jitter)
    {
      var retryTime: int := if retryAfter.Some? then retryAfter.value else 0;
      if networkConsecutiveFailures > 1 {
        retryTime := Max(retryTime, RetryBackOffTime(networkConsecutiveFailures, jitter));
      }
      networkRequestsAllowedAfterTime := now + retryTime;
    }
  }
}
