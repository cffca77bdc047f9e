/** The second flusher class, `Flushing`: the same time gate, drain loop and
    back-off as `Flush`.  Its methods
    are proved against the specification functions of the `Flush` module, so
    both classes are shown to flush identically. */
module Flushing {
  import opened Values
  import opened Flush

  class Flushing {
    var networkRequestsAllowedAfterTime: int
    var useIPAddressForGeoLocation: bool
    var networkConsecutiveFailures: nat
    var flushInterval: real

    /** The back-off state held in the two fields. */
    function State(): Backoff
      reads this
    {
      Backoff(networkConsecutiveFailures, networkRequestsAllowedAfterTime)
    }

    constructor ()
      ensures State() == Backoff(0, 0)
      ensures useIPAddressForGeoLocation && flushInterval == 0.0
    {
      networkRequestsAllowedAfterTime := 0;
      useIPAddressForGeoLocation := true;
      networkConsecutiveFailures := 0;
      flushInterval := 0.0;
    }

    method FlushEventsQueue(eventsQueue: Queue, env: Environment) returns (rest: Queue)
      modifies this`networkConsecutiveFailures, this`networkRequestsAllowedAfterTime
      ensures var r := GatedFlush(eventsQueue, old(State()), Events, env);
        rest == r.rest && State() == r.backoff
    {
      rest := FlushQueue(Events, eventsQueue, env);
    }

    method FlushPeopleQueue(peopleQueue: Queue, env: Environment) returns (rest: Queue)
      modifies this`networkConsecutiveFailures, this`networkRequestsAllowedAfterTime
      ensures var r := GatedFlush(peopleQueue, old(State()), People, env);
        rest == r.rest && State() == r.backoff
    {
      rest := FlushQueue(People, peopleQueue, env);
    }

    /** The time gate: before the allowed-after time, return at once. */
    method FlushQueue(kind: FlushType, queue: Queue, env: Environment) returns (rest: Queue)
      modifies this`networkConsecutiveFailures, this`networkRequestsAllowedAfterTime
      ensures var r := GatedFlush(queue, old(State()), kind, env);
        rest == r.rest && State() == r.backoff
    {
      if env.gateTime(kind) < networkRequestsAllowedAfterTime {
        return queue;
      }
      rest := FlushQueueAsync(queue, kind, env);
    }

    /** The drain loop over the `inout` queue; each request is awaited
        before the next batch is cut. */
    method FlushQueueAsync(queue: Queue, kind: FlushType, env: Environment) returns (rest: Queue)
      modifies this`networkConsecutiveFailures, this`networkRequestsAllowedAfterTime
      ensures var r := Drain(queue, old(State()), 0, kind, env);
        rest == r.rest && State() == r.backoff
    {
      ghost var target := Drain(queue, State(), 0, kind, env);
      rest := queue;
      var attempt: nat := 0;
      while |rest| > 0
        invariant Drain(rest, State(), attempt, kind, env).rest == target.rest
        invariant Drain(rest, State(), attempt, kind, env).backoff == target.backoff
        decreases |rest|
      {
        var shouldContinue := false;
        var batchSize := Min(|rest|, BatchSize);
        var batch := rest[..batchSize];
        var requestData := env.encode(batch);
        if requestData.Some? {
          var success := FlushRequestHandler(env.respond(kind, attempt));
          attempt := attempt + 1;
          if success {
            rest := rest[batchSize..];
          }
          shouldContinue := success;
        }
        if !shouldContinue {
          break;
        }
      }
    }

    /** Count the failure or reset the count, then update the retry delay;
        report whether the request succeeded. */
    method FlushRequestHandler(x: Exchange) returns (success: bool)
      modifies this`networkConsecutiveFailures, this`networkRequestsAllowedAfterTime
      ensures success == x.outcome.Success?
      ensures State() == HandleResponse(old(State()), x)
    {
      if x.outcome.Failure? {
        networkConsecutiveFailures := networkConsecutiveFailures + 1;
        UpdateRetryDelay(x.outcome.retryAfter, x.now, x.jitter);
        success := false;
      } else {
        networkConsecutiveFailures := 0;
        UpdateRetryDelay(x.outcome.retryAfter, x.now, x.jitter);
        success := true;
      }
    }

    method UpdateRetryDelay(retryAfter: Option<nat>, now: int, jitter: Jitter)
      modifies this`networkRequestsAllowedAfterTime
      ensures networkRequestsAllowedAfterTime == RetryDeadline(networkConsecutiveFailures, retryAfter, now, jitter)
    {
      var retryTime: int := if retryAfter.Some? then retryAfter.value else 0;
      if networkConsecutiveFailures > 1 {
        retryTime := Max(retryTime, RetryBackOffTime(networkConsecutiveFailures, jitter));
      }
      networkRequestsAllowedAfterTime := now + retryTime;
    }
  }
}
