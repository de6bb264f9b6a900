# Forward recovery for saga steps

This project is a Dafny model of the forward-recovery policy of the ServiceComb
saga core. When a saga step fails, forward recovery retries the step's
transaction in place. It does not compensate earlier steps.

`ForwardRecovery.apply(task, request, parentResponse)` calls
`request.transaction().send(serviceName, parentResponse)` in a loop. The loop
ends in one of three ways:

- a call succeeds, and its response is returned;
- the transaction's retry budget (`retries`) is spent, and
  `TransactionAbortedException` is thrown;
- the sleep of `failRetryDelayMilliseconds` after a failure is interrupted, and
  `TransactionFailedException` is thrown.

A fourth exit is a `Throwable` from `send` that is not an `Exception`, such as
a `java.lang.Error`. The `catch (Exception e)` at line 34 does not catch it,
so it leaves `apply` unchanged, with no sleep and no further send. The model
calls this outcome `Escaped`.

A budget of `retries <= 0` means "retry for ever".

Modules:

- `SagaCore` (`saga_core.dfy`) holds the values the policy works with:
  - `Transaction`: the retry budget and the `send` oracle;
  - `Request`: the service name, the transaction and the delay;
  - `SendResult`: one answer of `send`: `Ok(response)`, `Failed(kind)` for an
    `Exception`, or `Thrown(fatal)` for another `Throwable`;
  - `Outcome`: `Succeeded(response, attempts)`, `Aborted(attempts)`,
    `Cancelled(attempts)`, `Escaped(fatal, attempts)` or `Unfinished(attempts)`;
  - `JavaInt` and `Increment`: Java's `int` and its wrapping `i++`.
  - `Event`: one observable action, either `Send(serviceName, parent)` or
    `Sleep(ms)`.
- `ForwardRecovery` (`forward_recovery.dfy`) holds the policy:
  - `IsRetryable`: the budget check on the `int` loop counter;
  - `Counter`: the counter's value after `k` increments;
  - `RetriesForever` and `WithinBudget`: the budget stated on attempt numbers;
  - `Description`: the policy's name;
  - `RunFrom` and `Run`: the loop as a specification function;
  - `Trace`: the events of a run with a given outcome;
  - `Apply`: the loop itself, an imperative method whose `while` loop is
    proved equal to `Run` and `Trace`.
- `ForwardRecoveryProofs` (`forward_recovery_proofs.dfy`) holds the
  properties.

The collaborators are oracles:

- `Transaction.send` is a function of the attempt index, the service name and
  the parent response. The attempt index stands for whatever state the remote
  side keeps between calls.
- The interruption of `Thread.sleep` is a function `sleepInterrupted` from the
  attempt index to `bool`.

The loop need not end when `retries <= 0`. So `Run` and `Apply` take a `fuel`
bound on the number of attempts they follow. `Unfinished(n)` means the loop
was still retrying after `n` attempts. `FuelMonotone` proves that fuel never
changes an outcome once one is reached. `BoundedBudgetTerminates` proves that
`retries + 1` attempts of fuel always reach one when the budget does not retry
for ever.

The policy class has no instance fields, so the model has no class.

Three facts about the budget come straight from the code:

- A budget of 0 means retry for ever, not one attempt. The `retries() <= 0 ||`
  test at line 60 makes it so (`AlwaysFailingRetriesForever`).
- The budget is read from `request.transaction().retries()` at line 60. The
  model keeps it in `Transaction.retries`.
- A budget of `Integer.MAX_VALUE` also retries for ever. The counter `i` is an
  `int`. After attempt `i = 2^31 - 1` fails, `i++` at line 31 gives
  `Integer.MIN_VALUE`, which passes the `i <= retries` test at line 60. So the
  loop never throws `TransactionAbortedException` at that budget.
  `CounterWrapsAtMaxBudget` shows the wrap and `NeverAbortsWhenUnbounded`
  covers the budget. `RetriesForever` names the two budgets that never run
  out: `retries <= 0` and `Integer.MAX_VALUE`. The bounded-budget lemmas
  (`AbortedIff`, `AttemptsBounded`, `AlwaysFailingAborts`,
  `BoundedBudgetTerminates`) hold for every other budget.

## Model

| member | source | states |
|---|---|---|
| ForwardRecovery.Apply | saga-core/src/main/java/org/apache/servicecomb/saga/core/ForwardRecovery.java:29-57 | The retry loop's outcome equals `Run`. Its events, in order, equal `Trace` of that outcome. |
| ForwardRecoveryProofs.RetryBudget | saga-core/src/main/java/org/apache/servicecomb/saga/core/ForwardRecovery.java:59-61 | The check on the `int` counter agrees with the budget on attempt numbers. Every attempt within the budget passes it. Under a budget that does not retry for ever, attempt number `retries + 1` fails it. |
| ForwardRecoveryProofs.CounterCounts | saga-core/src/main/java/org/apache/servicecomb/saga/core/ForwardRecovery.java:31 | Until it reaches `Integer.MAX_VALUE`, the counter equals the number of `i++` steps made. |
| ForwardRecoveryProofs.CounterWrapsAtMaxBudget | saga-core/src/main/java/org/apache/servicecomb/saga/core/ForwardRecovery.java:31 | One step past `Integer.MAX_VALUE` the counter is `Integer.MIN_VALUE`. Under a budget of `Integer.MAX_VALUE`, that value passes the check at line 60. |
| ForwardRecoveryProofs.AllowedPrefixWithinBudget | saga-core/src/main/java/org/apache/servicecomb/saga/core/ForwardRecovery.java:59-61 | If the check passed before each of the first `m` attempts, each of them was within the budget. |
| ForwardRecovery.Description | saga-core/src/main/java/org/apache/servicecomb/saga/core/ForwardRecovery.java:63-66 | The policy's name is the constant `"ForwardRecovery"`, the class's simple name. |
| ForwardRecoveryProofs.RunFromShape | saga-core/src/main/java/org/apache/servicecomb/saga/core/ForwardRecovery.java:31-43 | Every attempt before the last one was within budget, failed, and slept without interrupt. The last step is the one the outcome names. No more than the fuel's attempts are made. |
| ForwardRecoveryProofs.RunFromSkip | saga-core/src/main/java/org/apache/servicecomb/saga/core/ForwardRecovery.java:31-42 | A run of within-budget failures with uninterrupted sleeps only advances the counter. It uses up one unit of fuel per attempt. |
| ForwardRecoveryProofs.SucceededIff | saga-core/src/main/java/org/apache/servicecomb/saga/core/ForwardRecovery.java:31-33 | `apply` returns `response` after `n` sends exactly when the earlier attempts failed quietly and attempt `n-1` was within budget and answered `response`. The first success is returned unchanged. Nothing follows it. |
| ForwardRecoveryProofs.CancelledIff | saga-core/src/main/java/org/apache/servicecomb/saga/core/ForwardRecovery.java:41-50 | `TransactionFailedException` comes after `n` sends exactly when the earlier attempts failed quietly and attempt `n-1` failed and its sleep was interrupted. No send follows the interrupt. |
| ForwardRecoveryProofs.EscapedIff | saga-core/src/main/java/org/apache/servicecomb/saga/core/ForwardRecovery.java:33-34 | A non-`Exception` throwable leaves `apply` unchanged after `n` sends exactly when the earlier attempts failed quietly and attempt `n-1`, within budget, threw it. No sleep and no send follow it. |
| ForwardRecoveryProofs.AbortedIff | saga-core/src/main/java/org/apache/servicecomb/saga/core/ForwardRecovery.java:31-56 | `TransactionAbortedException` comes after `n` sends exactly when `0 < retries < Integer.MAX_VALUE`, `n == retries + 1`, and all `n` sends failed without interrupt. |
| ForwardRecoveryProofs.UnfinishedIff | saga-core/src/main/java/org/apache/servicecomb/saga/core/ForwardRecovery.java:31-43 | The loop is still retrying after `fuel` attempts exactly when all of them failed quietly and the budget allows one more. |
| ForwardRecoveryProofs.AttemptsBounded | saga-core/src/main/java/org/apache/servicecomb/saga/core/ForwardRecovery.java:60 | Under a budget that does not retry for ever, at most `retries + 1` sends are made, whatever the answers and interrupts. |
| ForwardRecoveryProofs.NeverAbortsWhenUnbounded | saga-core/src/main/java/org/apache/servicecomb/saga/core/ForwardRecovery.java:44-60 | With `retries <= 0` or `retries == Integer.MAX_VALUE`, `TransactionAbortedException` is never thrown. |
| ForwardRecoveryProofs.AlwaysFailingRetriesForever | saga-core/src/main/java/org/apache/servicecomb/saga/core/ForwardRecovery.java:60 | Under a budget that retries for ever (0 and `Integer.MAX_VALUE` included), if every send fails and no sleep is interrupted, the loop is still retrying after any number of attempts. |
| ForwardRecoveryProofs.AlwaysFailingAborts | saga-core/src/main/java/org/apache/servicecomb/saga/core/ForwardRecovery.java:31-56 | Under a budget that does not retry for ever, the first `retries + 1` sends all fail and no sleep is interrupted. Then exactly `retries + 1` sends and as many sleeps happen, and the abort follows. |
| ForwardRecoveryProofs.BoundedBudgetTerminates | saga-core/src/main/java/org/apache/servicecomb/saga/core/ForwardRecovery.java:60 | Under a budget that does not retry for ever, `retries + 1` attempts are enough to reach a terminal outcome. |
| ForwardRecoveryProofs.FuelMonotone | saga-core/src/main/java/org/apache/servicecomb/saga/core/ForwardRecovery.java:31-43 | Once a terminal outcome is reached, more fuel gives the same outcome. The fuel bound never changes the policy's result. |
| ForwardRecoveryProofs.OnlyVerdictsMatter | saga-core/src/main/java/org/apache/servicecomb/saga/core/ForwardRecovery.java:33-34 | The outcome depends only on what `send` answers for the request's service name and unchanged parent response. It does not depend on the kind of `Exception` thrown. An interrupt inside `send` counts as an ordinary failure. |
| ForwardRecoveryProofs.RoundsShape | saga-core/src/main/java/org/apache/servicecomb/saga/core/ForwardRecovery.java:33-41 | `k` failed rounds are `2k` events. Each round is a send with the service name and parent response, then a sleep of the delay. |
| ForwardRecoveryProofs.TraceShape | saga-core/src/main/java/org/apache/servicecomb/saga/core/ForwardRecovery.java:33-41 | Sends and sleeps alternate. Every send gets the same service name and the unchanged parent response. Every failed send, the last one included, is followed by one sleep of `failRetryDelayMilliseconds`. A success, or a throwable that escapes, is the last event, with no sleep after it. |
| ForwardRecoveryProofs.SendsCounted | saga-core/src/main/java/org/apache/servicecomb/saga/core/ForwardRecovery.java:31-33 | The number of sends in the events equals the number of attempts the outcome reports. |
| ForwardRecoveryProofs.RoundsSends | saga-core/src/main/java/org/apache/servicecomb/saga/core/ForwardRecovery.java:33 | `k` failed rounds hold exactly `k` sends. |
| ForwardRecoveryProofs.FailTwiceThenOkScenario | saga-core/src/main/java/org/apache/servicecomb/saga/core/ForwardRecovery.java:29-57 | Setup: `retries = 2`, a 10 ms delay, two failures, then `"ok"`. The result is `"ok"` after three sends and two sleeps of 10 ms. |

## Left out

- Logging through slf4j (lines 26, 35-40, 45-49) is left out. It is diagnostics only and does not change the outcome.
- The `task` parameter of `apply` is left out. The code never reads it.
- The text of the abort message (lines 53-56) is left out. Only the kind of failure is modelled.
- Real time and thread interruption are not modelled. A sleep is an event carrying its length, and whether it is interrupted is an oracle.
- The delay is a `nat`. Java's `Thread.sleep` throws `IllegalArgumentException` for a negative delay, and that exception would escape `apply`. That path is not modelled.
- `Transaction.send`, `SagaRequest`, `SagaTask` and `SagaResponse` are not part of this model. `send` is an oracle, and the response is a type parameter.
- The oracle `send` is indexed by a `nat` attempt number, separate from the `int` counter. The counter wraps after 2^31 failed attempts. Only the budget check reads the counter, and under a budget of `retries <= 0` that check passes whatever the counter's value.
- Run, Apply: the loop under an unbounded budget is followed only as far as the `fuel` parameter allows. `Unfinished` stands for "still retrying", and FuelMonotone shows that fuel never changes a reached outcome.
- Where `description()` gets its name is not modelled. The code uses reflection (`getClass().getSimpleName()`); the model returns the constant.
- Backward recovery and the saga executor that picks a policy are not part of this model.
