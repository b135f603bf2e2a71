/** `RetryOnThrottleAsync` (src/Transport/Connectivity/TaskWithRetryExtensions.cs):
    a send is re-attempted after a fixed delay while the broker answers
    "server busy", up to a maximum number of retries. The send delegates are
    replaced by what each attempt does, given by attempt number. */
module TaskWithRetry {
  import opened Exceptions

  /** Which delegate an attempt runs: `action` on the first attempt,
      `retryAction` (which builds fresh message instances) afterwards. */
  datatype ActionKind = FirstAction | RetryAction

  /** What running a delegate does: complete, or throw. */
  datatype AttemptOutcome = Completed | Threw(error: Exception)

  predicate IsServerBusy(o: AttemptOutcome)
  {
    o.Threw? && o.error.kind.ServerBusy?
  }

  /** One call: the delegates run, in order; the delays awaited between
      attempts; and how the call ends. */
  datatype RetryRun = RetryRun(actions: seq<ActionKind>, delays: seq<int>, result: AttemptOutcome)

  /** The number of retries still allowed when `retryAttempts` have been made. */
  function RetriesLeft(maxRetryAttempts: int, retryAttempts: nat): nat
  {
    if maxRetryAttempts > retryAttempts then maxRetryAttempts - retryAttempts else 0
  }

  /** `RetryOnThrottleAsync(action, retryAction, delay, maxRetryAttempts, retryAttempts)`.
      `attempt(k)` is what the attempt made when the counter is `k` does. */
  function RetryOnThrottle(attempt: nat -> AttemptOutcome, delay: int, maxRetryAttempts: int, retryAttempts: nat := 0)
    : (run: RetryRun)
    ensures 1 <= |run.actions| <= RetriesLeft(maxRetryAttempts, retryAttempts) + 1
    ensures |run.delays| == |run.actions| - 1
    ensures run.actions[0] == if retryAttempts == 0 then FirstAction else RetryAction
    ensures forall k :: 1 <= k < |run.actions| ==> run.actions[k] == RetryAction
    ensures forall k :: 0 <= k < |run.delays| ==> run.delays[k] == delay
    decreases RetriesLeft(maxRetryAttempts, retryAttempts)
  {
    var kind := if retryAttempts == 0 then FirstAction else RetryAction;
    var outcome := attempt(retryAttempts);
    if IsServerBusy(outcome) && retryAttempts < maxRetryAttempts then
      var rest := RetryOnThrottle(attempt, delay, maxRetryAttempts, retryAttempts + 1);
      RetryRun([kind] + rest.actions, [delay] + rest.delays, rest.result)
    else
      RetryRun([kind], [], outcome)
  }

  /** The shape of every call: all attempts but the last were throttled, the
      call ends with what the last attempt did (a completed attempt ends it,
      a non-throttling exception propagates as is, and a throttling exception
      is rethrown only once the retries are used up). */
  lemma {:induction false} RetryRunShape(attempt: nat -> AttemptOutcome, delay: int, maxRetryAttempts: int, retryAttempts: nat)
    ensures var run := RetryOnThrottle(attempt, delay, maxRetryAttempts, retryAttempts);
            && (forall j: nat :: retryAttempts <= j < retryAttempts + |run.actions| - 1 ==> IsServerBusy(attempt(j)))
            && run.result == attempt(retryAttempts + |run.actions| - 1)
            && (IsServerBusy(run.result) ==> retryAttempts + |run.actions| - 1 >= maxRetryAttempts)
    decreases RetriesLeft(maxRetryAttempts, retryAttempts)
  {
    var outcome := attempt(retryAttempts);
    if IsServerBusy(outcome) && retryAttempts < maxRetryAttempts {
      RetryRunShape(attempt, delay, maxRetryAttempts, retryAttempts + 1);
    }
  }

  /** Starting from the first attempt, a call makes at most
      `maxRetryAttempts + 1` attempts: one `action` and at most
      `maxRetryAttempts` runs of `retryAction`. */
  lemma AttemptsAreBounded(attempt: nat -> AttemptOutcome, delay: int, maxRetryAttempts: int)
    ensures var run := RetryOnThrottle(attempt, delay, maxRetryAttempts);
            && run.actions[0] == FirstAction
            && |run.actions| - 1 <= RetriesLeft(maxRetryAttempts, 0)
            && (forall k :: 1 <= k < |run.actions| ==> run.actions[k] == RetryAction)
  {
  }

  /** If every attempt is throttled, the call makes exactly the allowed
      number of attempts and then rethrows. */
  lemma {:induction false} PersistentThrottlingExhaustsRetries(attempt: nat -> AttemptOutcome, delay: int, maxRetryAttempts: int, retryAttempts: nat)
    requires forall k: nat :: IsServerBusy(attempt(k))
    ensures var run := RetryOnThrottle(attempt, delay, maxRetryAttempts, retryAttempts);
            |run.actions| == RetriesLeft(maxRetryAttempts, retryAttempts) + 1 && IsServerBusy(run.result)
    decreases RetriesLeft(maxRetryAttempts, retryAttempts)
  {
    if retryAttempts < maxRetryAttempts {
      PersistentThrottlingExhaustsRetries(attempt, delay, maxRetryAttempts, retryAttempts + 1);
    }
  }

  /** An exception other than server-busy is not retried. */
  lemma OtherExceptionsPropagate(attempt: nat -> AttemptOutcome, delay: int, maxRetryAttempts: int, retryAttempts: nat)
    requires attempt(retryAttempts).Threw? && !attempt(retryAttempts).error.kind.ServerBusy?
    ensures RetryOnThrottle(attempt, delay, maxRetryAttempts, retryAttempts).actions == [if retryAttempts == 0 then FirstAction else RetryAction]
    ensures RetryOnThrottle(attempt, delay, maxRetryAttempts, retryAttempts).result == attempt(retryAttempts)
  {
  }
}
