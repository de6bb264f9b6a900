// Properties of the forward-recovery retry loop: which outcome each
// sequence of answers and interrupts leads to, how many sends the budget
// allows, what the caller and the remote side observe, and that the
// attempt fuel of the model never changes an outcome once one is reached.

module ForwardRecoveryProofs {
  import opened SagaCore
  import opened ForwardRecovery

  // ---------------------------------------------------------------------
  // The budget check on the `int` counter
  // ---------------------------------------------------------------------

  /** Until it reaches `Integer.MAX_VALUE`, the counter equals the number of
      increments made. */
  lemma {:induction false} CounterCounts(k: nat)
    requires k <= IntMax
    ensures Counter(k) == k
  {
    if k > 0 {
      CounterCounts(k - 1);
    }
  }

  /** One more increment past `Integer.MAX_VALUE` gives `Integer.MIN_VALUE`,
      which passes the check of a budget of `Integer.MAX_VALUE`. */
  lemma CounterWrapsAtMaxBudget<R>(transaction: Transaction<R>)
    requires transaction.retries == IntMax
    ensures Counter(IntMax + 1) == IntMin
    ensures AttemptAllowed(IntMax + 1, transaction)
  {
    CounterCounts(IntMax);
  }

  /** The check on the counter agrees with the budget on attempt numbers:
      every attempt within the budget passes it, and under a budget that
      does not retry forever, attempt number `retries + 1` fails it. */
  lemma RetryBudget<R>(k: nat, transaction: Transaction<R>)
    ensures WithinBudget(k, transaction) ==> AttemptAllowed(k, transaction)
    ensures !RetriesForever(transaction) ==> !AttemptAllowed(transaction.retries + 1, transaction)
  {
    if !RetriesForever(transaction) {
      CounterCounts(transaction.retries + 1);
      if k <= transaction.retries {
        CounterCounts(k);
      }
    }
  }

  /** If the budget check passed before each of the first `m` attempts,
      each of them was within the budget. */
  lemma AllowedPrefixWithinBudget<R>(transaction: Transaction<R>, m: nat)
    requires forall j :: 0 <= j < m ==> AttemptAllowed(j, transaction)
    ensures forall j :: 0 <= j < m ==> WithinBudget(j, transaction)
  {
    if !RetriesForever(transaction) {
      RetryBudget(0, transaction);
      assert m <= transaction.retries + 1;
    }
  }

  /** If each of the first `m` attempts is within the budget, the budget
      check passes before each of them. */
  lemma WithinBudgetPrefixAllowed<R>(transaction: Transaction<R>, m: nat)
    requires forall j :: 0 <= j < m ==> WithinBudget(j, transaction)
    ensures forall j :: 0 <= j < m ==> AttemptAllowed(j, transaction)
  {
    forall j | 0 <= j < m
      ensures AttemptAllowed(j, transaction)
    {
      RetryBudget(j, transaction);
    }
  }

  // ---------------------------------------------------------------------
  // What each outcome says about the attempts before it
  // ---------------------------------------------------------------------

  /** From the budget check of attempt `i` on: every attempt before the last
      one passed the check and failed quietly, and the last step is what the
      outcome names. */
  lemma {:induction false} RunFromShape<R>(req: Request<R>, parent: R, sleepInterrupted: nat -> bool, i: nat, fuel: nat)
    ensures var o := RunFrom(req, parent, sleepInterrupted, i, fuel);
      i <= QuietFailures(o) <= i + fuel &&
      (forall j :: i <= j < QuietFailures(o) ==>
         AttemptAllowed(j, req.transaction) && FailedQuietly(req, parent, sleepInterrupted, j)) &&
      match o
      case Succeeded(response, n) =>
        n == QuietFailures(o) + 1 && n <= i + fuel && AttemptAllowed(n - 1, req.transaction) &&
        req.transaction.send(n - 1, req.serviceName, parent) == Ok(response)
      case Cancelled(n) =>
        n == QuietFailures(o) + 1 && n <= i + fuel && AttemptAllowed(n - 1, req.transaction) &&
        req.transaction.send(n - 1, req.serviceName, parent).Failed? && sleepInterrupted(n - 1)
      case Escaped(fatal, n) =>
        n == QuietFailures(o) + 1 && n <= i + fuel && AttemptAllowed(n - 1, req.transaction) &&
        req.transaction.send(n - 1, req.serviceName, parent) == Thrown(fatal)
      case Aborted(n) =>
        !AttemptAllowed(n, req.transaction)
      case Unfinished(n) =>
        n == i + fuel && AttemptAllowed(n, req.transaction)
    decreases fuel
  {
    if AttemptAllowed(i, req.transaction) && fuel > 0
       && FailedQuietly(req, parent, sleepInterrupted, i) {
      RunFromShape(req, parent, sleepInterrupted, i + 1, fuel - 1);
    }
  }

  /** Attempts that pass the check and fail quietly only move the loop on:
      from `i`, the loop reaches the budget check of `k` with `k - i` less
      fuel. */
  lemma {:induction false} RunFromSkip<R>(req: Request<R>, parent: R, sleepInterrupted: nat -> bool, i: nat, k: nat, fuel: nat)
    requires i <= k <= i + fuel
    requires forall j :: i <= j < k ==>
      AttemptAllowed(j, req.transaction) && FailedQuietly(req, parent, sleepInterrupted, j)
    ensures RunFrom(req, parent, sleepInterrupted, i, fuel) == RunFrom(req, parent, sleepInterrupted, k, fuel - (k - i))
    decreases k - i
  {
    if i < k {
      RunFromSkip(req, parent, sleepInterrupted, i + 1, k, fuel - 1);
    }
  }

  /** Reaching attempt number `n - 1` within the budget after `n - 1` quiet
      failures: the loop arrives there, and that attempt passes the check. */
  lemma ReachAttempt<R>(req: Request<R>, parent: R, sleepInterrupted: nat -> bool, fuel: nat, n: nat)
    requires 1 <= n <= fuel && WithinBudget(n - 1, req.transaction)
    requires forall j :: 0 <= j < n - 1 ==> FailedQuietly(req, parent, sleepInterrupted, j)
    ensures Run(req, parent, sleepInterrupted, fuel) == RunFrom(req, parent, sleepInterrupted, n - 1, fuel - (n - 1))
    ensures AttemptAllowed(n - 1, req.transaction)
  {
    WithinBudgetPrefixAllowed(req.transaction, n);
    RunFromSkip(req, parent, sleepInterrupted, 0, n - 1, fuel);
  }

  /** `apply` returns response `response` after `n` sends exactly when the
      attempts before attempt `n - 1` all failed and slept undisturbed, and
      attempt `n - 1`, within the budget, answered `response`: the first
      success is returned unchanged and nothing follows it. */
  lemma {:induction false} SucceededIff<R>(req: Request<R>, parent: R, sleepInterrupted: nat -> bool, fuel: nat, response: R, n: nat)
    ensures Run(req, parent, sleepInterrupted, fuel) == Succeeded(response, n) <==>
      (1 <= n <= fuel && WithinBudget(n - 1, req.transaction) &&
       (forall j :: 0 <= j < n - 1 ==> FailedQuietly(req, parent, sleepInterrupted, j)) &&
       req.transaction.send(n - 1, req.serviceName, parent) == Ok(response))
  {
    RunFromShape(req, parent, sleepInterrupted, 0, fuel);
    if Run(req, parent, sleepInterrupted, fuel) == Succeeded(response, n) {
      AllowedPrefixWithinBudget(req.transaction, n);
    }
    if 1 <= n <= fuel && WithinBudget(n - 1, req.transaction) &&
       (forall j :: 0 <= j < n - 1 ==> FailedQuietly(req, parent, sleepInterrupted, j)) {
      ReachAttempt(req, parent, sleepInterrupted, fuel, n);
    }
  }

  /** `apply` throws TransactionFailedException after `n` sends exactly when
      the attempts before attempt `n - 1` all failed and slept undisturbed,
      and attempt `n - 1`, within the budget, failed and its sleep was
      interrupted: no send follows the interrupt. */
  lemma {:induction false} CancelledIff<R>(req: Request<R>, parent: R, sleepInterrupted: nat -> bool, fuel: nat, n: nat)
    ensures Run(req, parent, sleepInterrupted, fuel) == Cancelled(n) <==>
      (1 <= n <= fuel && WithinBudget(n - 1, req.transaction) &&
       (forall j :: 0 <= j < n - 1 ==> FailedQuietly(req, parent, sleepInterrupted, j)) &&
       req.transaction.send(n - 1, req.serviceName, parent).Failed? && sleepInterrupted(n - 1))
  {
    RunFromShape(req, parent, sleepInterrupted, 0, fuel);
    if Run(req, parent, sleepInterrupted, fuel) == Cancelled(n) {
      AllowedPrefixWithinBudget(req.transaction, n);
    }
    if 1 <= n <= fuel && WithinBudget(n - 1, req.transaction) &&
       (forall j :: 0 <= j < n - 1 ==> FailedQuietly(req, parent, sleepInterrupted, j)) {
      ReachAttempt(req, parent, sleepInterrupted, fuel, n);
    }
  }

  /** A throwable that is not an `Exception` leaves `apply` unchanged after
      `n` sends exactly when the attempts before attempt `n - 1` all failed
      and slept undisturbed, and attempt `n - 1`, within the budget, threw
      it: no sleep and no send follow it. */
  lemma {:induction false} EscapedIff<R>(req: Request<R>, parent: R, sleepInterrupted: nat -> bool, fuel: nat, fatal: FatalError, n: nat)
    ensures Run(req, parent, sleepInterrupted, fuel) == Escaped(fatal, n) <==>
      (1 <= n <= fuel && WithinBudget(n - 1, req.transaction) &&
       (forall j :: 0 <= j < n - 1 ==> FailedQuietly(req, parent, sleepInterrupted, j)) &&
       req.transaction.send(n - 1, req.serviceName, parent) == Thrown(fatal))
  {
    RunFromShape(req, parent, sleepInterrupted, 0, fuel);
    if Run(req, parent, sleepInterrupted, fuel) == Escaped(fatal, n) {
      AllowedPrefixWithinBudget(req.transaction, n);
    }
    if 1 <= n <= fuel && WithinBudget(n - 1, req.transaction) &&
       (forall j :: 0 <= j < n - 1 ==> FailedQuietly(req, parent, sleepInterrupted, j)) {
      ReachAttempt(req, parent, sleepInterrupted, fuel, n);
    }
  }

  /** `apply` throws TransactionAbortedException after `n` sends exactly
      when the budget does not retry forever (it is positive and below
      `Integer.MAX_VALUE`), `n` is `retries + 1`, and every one of those
      sends failed and slept undisturbed. */
  lemma {:induction false} AbortedIff<R>(req: Request<R>, parent: R, sleepInterrupted: nat -> bool, fuel: nat, n: nat)
    ensures Run(req, parent, sleepInterrupted, fuel) == Aborted(n) <==>
      (0 < req.transaction.retries < IntMax && n == req.transaction.retries + 1 && n <= fuel &&
       forall j :: 0 <= j < n ==> FailedQuietly(req, parent, sleepInterrupted, j))
  {
    RunFromShape(req, parent, sleepInterrupted, 0, fuel);
    RetryBudget(n, req.transaction);
    RetryBudget(0, req.transaction);
    if Run(req, parent, sleepInterrupted, fuel) == Aborted(n) {
      AllowedPrefixWithinBudget(req.transaction, n);
      assert n > 0;
      assert WithinBudget(n - 1, req.transaction);
    }
    if 0 < req.transaction.retries < IntMax && n == req.transaction.retries + 1 && n <= fuel &&
       forall j :: 0 <= j < n ==> FailedQuietly(req, parent, sleepInterrupted, j) {
      WithinBudgetPrefixAllowed(req.transaction, n);
      RunFromSkip(req, parent, sleepInterrupted, 0, n, fuel);
    }
  }

  /** The model's fuel runs out (the real loop is still retrying) exactly
      when all `fuel` attempts failed and slept undisturbed and the budget
      allows one more. */
  lemma {:induction false} UnfinishedIff<R>(req: Request<R>, parent: R, sleepInterrupted: nat -> bool, fuel: nat, n: nat)
    ensures Run(req, parent, sleepInterrupted, fuel) == Unfinished(n) <==>
      (n == fuel && WithinBudget(fuel, req.transaction) &&
       forall j :: 0 <= j < fuel ==> FailedQuietly(req, parent, sleepInterrupted, j))
  {
    RunFromShape(req, parent, sleepInterrupted, 0, fuel);
    if Run(req, parent, sleepInterrupted, fuel) == Unfinished(n) {
      AllowedPrefixWithinBudget(req.transaction, n + 1);
    }
    if n == fuel && WithinBudget(fuel, req.transaction) &&
       forall j :: 0 <= j < fuel ==> FailedQuietly(req, parent, sleepInterrupted, j) {
      WithinBudgetPrefixAllowed(req.transaction, fuel + 1);
      RunFromSkip(req, parent, sleepInterrupted, 0, fuel, fuel);
    }
  }

  // ---------------------------------------------------------------------
  // The budget
  // ---------------------------------------------------------------------

  /** Under a budget that does not retry forever, `apply` calls `send` at
      most `retries + 1` times, whatever the answers and interrupts. */
  lemma {:induction false} AttemptsBounded<R>(req: Request<R>, parent: R, sleepInterrupted: nat -> bool, fuel: nat)
    requires !RetriesForever(req.transaction)
    ensures Run(req, parent, sleepInterrupted, fuel).attempts <= req.transaction.retries + 1
  {
    var o := Run(req, parent, sleepInterrupted, fuel);
    match o
    case Succeeded(response, n) => SucceededIff(req, parent, sleepInterrupted, fuel, response, n);
    case Cancelled(n) => CancelledIff(req, parent, sleepInterrupted, fuel, n);
    case Escaped(fatal, n) => EscapedIff(req, parent, sleepInterrupted, fuel, fatal, n);
    case Aborted(n) => AbortedIff(req, parent, sleepInterrupted, fuel, n);
    case Unfinished(n) => UnfinishedIff(req, parent, sleepInterrupted, fuel, n);
  }

  /** With a budget of `retries <= 0`, or of `Integer.MAX_VALUE` (where the
      counter wraps to `Integer.MIN_VALUE` instead of exceeding it), `apply`
      never throws TransactionAbortedException. */
  lemma {:induction false} NeverAbortsWhenUnbounded<R>(req: Request<R>, parent: R, sleepInterrupted: nat -> bool, fuel: nat)
    requires RetriesForever(req.transaction)
    ensures !Run(req, parent, sleepInterrupted, fuel).Aborted?
  {
    var o := Run(req, parent, sleepInterrupted, fuel);
    RunFromShape(req, parent, sleepInterrupted, 0, fuel);
    RetryBudget(o.attempts, req.transaction);
  }

  /** With a budget that retries forever, a transaction that always fails
      and sleeps that are never interrupted keep the loop going: after any
      number of attempts it is still retrying. A budget of 0 is "retry for
      ever", not "one attempt". */
  lemma {:induction false} AlwaysFailingRetriesForever<R>(req: Request<R>, parent: R, sleepInterrupted: nat -> bool, fuel: nat)
    requires RetriesForever(req.transaction)
    requires forall j :: FailedQuietly(req, parent, sleepInterrupted, j)
    ensures Run(req, parent, sleepInterrupted, fuel) == Unfinished(fuel)
  {
    UnfinishedIff(req, parent, sleepInterrupted, fuel, fuel);
  }

  /** Under a budget that does not retry forever, a transaction whose first
      `retries + 1` answers are failures, with no sleep interrupted, is
      called exactly `retries + 1` times, and then
      TransactionAbortedException is thrown after as many sleeps. */
  lemma {:induction false} AlwaysFailingAborts<R>(req: Request<R>, parent: R, sleepInterrupted: nat -> bool, fuel: nat)
    requires !RetriesForever(req.transaction) && fuel > req.transaction.retries
    requires forall j :: 0 <= j <= req.transaction.retries ==> FailedQuietly(req, parent, sleepInterrupted, j)
    ensures Run(req, parent, sleepInterrupted, fuel) == Aborted(req.transaction.retries + 1)
    ensures |Trace(req, parent, Run(req, parent, sleepInterrupted, fuel))| == 2 * (req.transaction.retries + 1)
  {
    AbortedIff(req, parent, sleepInterrupted, fuel, req.transaction.retries + 1);
    TraceShape(req, parent, sleepInterrupted, fuel);
  }

  /** Under a budget that does not retry forever, `retries + 1` attempts of
      fuel are enough for the model to reach a terminal outcome. */
  lemma {:induction false} BoundedBudgetTerminates<R>(req: Request<R>, parent: R, sleepInterrupted: nat -> bool, fuel: nat)
    requires !RetriesForever(req.transaction) && fuel > req.transaction.retries
    ensures !Run(req, parent, sleepInterrupted, fuel).Unfinished?
  {
    UnfinishedIff(req, parent, sleepInterrupted, fuel, Run(req, parent, sleepInterrupted, fuel).attempts);
  }

  /** Fuel only limits how far the model follows the loop: once an outcome
      is reached, more fuel reaches the same outcome. */
  lemma {:induction false} FuelMonotone<R>(req: Request<R>, parent: R, sleepInterrupted: nat -> bool, i: nat, fuel: nat, more: nat)
    requires fuel <= more
    requires !RunFrom(req, parent, sleepInterrupted, i, fuel).Unfinished?
    ensures RunFrom(req, parent, sleepInterrupted, i, more) == RunFrom(req, parent, sleepInterrupted, i, fuel)
    decreases fuel
  {
    if AttemptAllowed(i, req.transaction) && FailedQuietly(req, parent, sleepInterrupted, i) {
      FuelMonotone(req, parent, sleepInterrupted, i + 1, fuel - 1, more - 1);
    }
  }

  // ---------------------------------------------------------------------
  // What the policy looks at
  // ---------------------------------------------------------------------

  /** Two answers the policy cannot tell apart: the same response, both an
      `Exception` of whatever kind, or the same uncaught throwable. */
  ghost predicate SameVerdict<R>(a: SendResult<R>, b: SendResult<R>)
  {
    (a.Ok? && b.Ok? && a.response == b.response) || (a.Failed? && b.Failed?) ||
    (a.Thrown? && b.Thrown? && a.fatal == b.fatal)
  }

  /** The outcome depends only on what `send` answers when called with the
      request's service name and the unchanged parent response, and not on
      the kind of exception it throws: an interrupt raised inside `send`
      counts as an ordinary failure. */
  lemma {:induction false} OnlyVerdictsMatter<R>(req: Request<R>, other: Request<R>, parent: R, sleepInterrupted: nat -> bool, i: nat, fuel: nat)
    requires other.serviceName == req.serviceName
    requires other.transaction.retries == req.transaction.retries
    requires forall j :: SameVerdict(req.transaction.send(j, req.serviceName, parent),
                                     other.transaction.send(j, req.serviceName, parent))
    ensures RunFrom(req, parent, sleepInterrupted, i, fuel) == RunFrom(other, parent, sleepInterrupted, i, fuel)
    decreases fuel
  {
    assert SameVerdict(req.transaction.send(i, req.serviceName, parent),
                       other.transaction.send(i, req.serviceName, parent));
    if fuel > 0 {
      OnlyVerdictsMatter(req, other, parent, sleepInterrupted, i + 1, fuel - 1);
    }
  }

  // ---------------------------------------------------------------------
  // What the caller and the remote side observe
  // ---------------------------------------------------------------------

  /** The events of `k` failed rounds alternate a send with the request's
      service name and unchanged parent response, and a sleep of the
      request's delay. */
  lemma {:induction false} RoundsShape<R>(req: Request<R>, parent: R, k: nat)
    ensures |Rounds(req, parent, k)| == 2 * k
    ensures forall j :: 0 <= j < 2 * k ==>
      Rounds(req, parent, k)[j] ==
        if j % 2 == 0 then Send(req.serviceName, parent) else Sleep(req.failRetryDelayMilliseconds)
  {
    if k > 0 {
      RoundsShape(req, parent, k - 1);
    }
  }

  /** Every send of an `apply` call receives the same service name and the
      same unchanged parent response; every failed send is followed by
      exactly one sleep of the request's delay, the last failed one
      included; a success, or a throwable that escapes, is the last event,
      with no sleep after it. */
  lemma {:induction false} TraceShape<R>(req: Request<R>, parent: R, sleepInterrupted: nat -> bool, fuel: nat)
    ensures var o := Run(req, parent, sleepInterrupted, fuel);
      var t := Trace(req, parent, o);
      |t| == (if o.Succeeded? || o.Escaped? then 2 * o.attempts - 1 else 2 * o.attempts) &&
      forall j :: 0 <= j < |t| ==>
        t[j] == if j % 2 == 0 then Send(req.serviceName, parent) else Sleep(req.failRetryDelayMilliseconds)
  {
    var o := Run(req, parent, sleepInterrupted, fuel);
    RunFromShape(req, parent, sleepInterrupted, 0, fuel);
    RoundsShape(req, parent, QuietFailures(o));
  }

  /** The number of sends in an event sequence. */
  function Sends<R>(events: seq<Event<R>>): nat
  {
    if events == [] then 0
    else Sends(events[..|events| - 1]) + if events[|events| - 1].Send? then 1 else 0
  }

  /** The events of an `apply` call hold exactly as many sends as the
      outcome counts attempts. */
  lemma {:induction false} SendsCounted<R>(req: Request<R>, parent: R, sleepInterrupted: nat -> bool, fuel: nat)
    ensures var o := Run(req, parent, sleepInterrupted, fuel);
      Sends(Trace(req, parent, o)) == o.attempts
  {
    var o := Run(req, parent, sleepInterrupted, fuel);
    RunFromShape(req, parent, sleepInterrupted, 0, fuel);
    RoundsSends(req, parent, QuietFailures(o));
    var rounds := Rounds(req, parent, QuietFailures(o));
    match o
    case Succeeded(_, _) =>
      assert Trace(req, parent, o)[..|rounds|] == rounds;
    case Escaped(_, _) =>
      assert Trace(req, parent, o)[..|rounds|] == rounds;
    case Cancelled(_) =>
      var t := Trace(req, parent, o);
      assert t[..|t| - 1][..|rounds|] == rounds;
    case _ =>
      assert Trace(req, parent, o) == rounds;
  }

  /** `k` failed rounds hold `k` sends. */
  lemma {:induction false} RoundsSends<R>(req: Request<R>, parent: R, k: nat)
    ensures Sends(Rounds(req, parent, k)) == k
  {
    if k > 0 {
      RoundsSends(req, parent, k - 1);
      var r := Rounds(req, parent, k);
      assert r[..|r| - 1][..|r| - 2] == Rounds(req, parent, k - 1);
    }
  }

  // ---------------------------------------------------------------------
  // A concrete run
  // ---------------------------------------------------------------------

  /** A transaction with budget 2 that fails on its first two calls and
      answers "ok" on the third. */
  function FailTwiceThenOk(): Transaction<string>
  {
    Transaction(2, (i: nat, service: string, parent: string) =>
      if i < 2 then Failed(TransportFailure) else Ok("ok"))
  }

  /** With a delay of 10 ms and no interrupt, `apply` returns "ok" after
      three sends and two sleeps of 10 ms. */
  lemma {:induction false} FailTwiceThenOkScenario(fuel: nat)
    requires fuel >= 3
    ensures var req := Request("inventory", FailTwiceThenOk(), 10);
      var o := Run(req, "parent", (i: nat) => false, fuel);
      o == Succeeded("ok", 3) &&
      Trace(req, "parent", o) ==
        [Send("inventory", "parent"), Sleep(10), Send("inventory", "parent"), Sleep(10), Send("inventory", "parent")]
  {
    var req := Request("inventory", FailTwiceThenOk(), 10);
    SucceededIff(req, "parent", (i: nat) => false, fuel, "ok", 3);
  }
}
