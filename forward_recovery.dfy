// The forward-recovery policy: retry the step's transaction in place until
// it succeeds, the retry budget is spent, or the sleep between attempts is
// interrupted.

module ForwardRecovery {
  import opened SagaCore

  /** The policy's name as it reports it in diagnostics: the class's simple
      name. */
  function Description(): (name: string)
    ensures name == "ForwardRecovery"
  {
    "ForwardRecovery"
  }

  /** The budget check made on the loop counter `i` before each attempt. */
  predicate IsRetryable<R>(i: JavaInt, transaction: Transaction<R>)
  {
    transaction.retries <= 0 || i <= transaction.retries
  }

  /** The value of the `int` loop counter after `k` increments. */
  function Counter(k: nat): JavaInt
  {
    if k == 0 then 0 else Increment(Counter(k - 1))
  }

  /** The budget check passes before attempt number `k` (counted from 0). */
  predicate AttemptAllowed<R>(k: nat, transaction: Transaction<R>)
  {
    IsRetryable(Counter(k), transaction)
  }

  /** Budgets under which the budget check never fails: `retries <= 0`,
      and `Integer.MAX_VALUE`, where every counter value is at most the
      budget. */
  predicate RetriesForever<R>(transaction: Transaction<R>)
  {
    transaction.retries <= 0 || transaction.retries == IntMax
  }

  /** Attempt number `k` is within the budget: the reference meaning of the
      budget, stated on attempt numbers rather than on the counter. */
  predicate WithinBudget<R>(k: nat, transaction: Transaction<R>)
  {
    RetriesForever(transaction) || k <= transaction.retries
  }

  /** The attempt `i` failed and the sleep after it was not interrupted, so
      the loop goes on to the budget check for `i + 1`. */
  predicate FailedQuietly<R>(req: Request<R>, parent: R, sleepInterrupted: nat -> bool, i: nat)
  {
    req.transaction.send(i, req.serviceName, parent).Failed? && !sleepInterrupted(i)
  }

  /** The loop from the budget check of attempt number `i` on, allowed at
      most `fuel` more attempts. */
  function RunFrom<R>(req: Request<R>, parent: R, sleepInterrupted: nat -> bool, i: nat, fuel: nat): Outcome<R>
    decreases fuel
  {
    if !AttemptAllowed(i, req.transaction) then Aborted(i)
    else if fuel == 0 then Unfinished(i)
    else match req.transaction.send(i, req.serviceName, parent)
      case Ok(response) => Succeeded(response, i + 1)
      case Thrown(fatal) => Escaped(fatal, i + 1)
      case Failed(_) =>
        if sleepInterrupted(i) then Cancelled(i + 1)
        else RunFrom(req, parent, sleepInterrupted, i + 1, fuel - 1)
  }

  /** The outcome of `apply`, observed over at most `fuel` attempts. */
  function Run<R>(req: Request<R>, parent: R, sleepInterrupted: nat -> bool, fuel: nat): Outcome<R>
  {
    RunFrom(req, parent, sleepInterrupted, 0, fuel)
  }

  /** Number of attempts that failed and were followed by a sleep that ran
      to its end (a success, a cancellation or an escaping throwable ends
      its last attempt). */
  function QuietFailures<R>(o: Outcome<R>): nat
  {
    match o
    case Succeeded(_, n) => if n == 0 then 0 else n - 1
    case Cancelled(n) => if n == 0 then 0 else n - 1
    case Escaped(_, n) => if n == 0 then 0 else n - 1
    case Aborted(n) => n
    case Unfinished(n) => n
  }

  /** The events of `k` attempts that each failed and slept. */
  function Rounds<R>(req: Request<R>, parent: R, k: nat): seq<Event<R>>
  {
    if k == 0 then []
    else Rounds(req, parent, k - 1) + [Send(req.serviceName, parent), Sleep(req.failRetryDelayMilliseconds)]
  }

  /** The events of an `apply` call that ended with outcome `o`. */
  function Trace<R>(req: Request<R>, parent: R, o: Outcome<R>): seq<Event<R>>
  {
    Rounds(req, parent, QuietFailures(o)) +
      match o
      case Succeeded(_, _) => [Send(req.serviceName, parent)]
      case Escaped(_, _) => [Send(req.serviceName, parent)]
      case Cancelled(_) => [Send(req.serviceName, parent), Sleep(req.failRetryDelayMilliseconds)]
      case _ => []
  }

  /** The retry loop of `apply`. The transaction's `send` and the
      interruption of each sleep are oracles; `fuel` bounds the number of
      attempts the model follows, and `Unfinished` says the loop was still
      retrying when it ran out. `i` is the source's `int` counter and
      `attempt` the number of sends made so far. The result is the outcome
      and the events in the order they happened. */
  method Apply<R>(req: Request<R>, parent: R, sleepInterrupted: nat -> bool, fuel: nat)
    returns (outcome: Outcome<R>, events: seq<Event<R>>)
    ensures outcome == Run(req, parent, sleepInterrupted, fuel)
    ensures events == Trace(req, parent, outcome)
  {
    var i: JavaInt := 0;
    var attempt: nat := 0;
    events := [];
    while IsRetryable(i, req.transaction)
      invariant attempt <= fuel
      invariant i == Counter(attempt)
      invariant RunFrom(req, parent, sleepInterrupted, attempt, fuel - attempt) == Run(req, parent, sleepInterrupted, fuel)
      invariant events == Rounds(req, parent, attempt)
      decreases fuel - attempt
    {
      if attempt == fuel {
        return Unfinished(attempt), events;
      }
      events := events + [Send(req.serviceName, parent)];
      var answer := req.transaction.send(attempt, req.serviceName, parent);
      match answer {
        case Ok(response) =>
          return Succeeded(response, attempt + 1), events;
        case Thrown(fatal) =>
          return Escaped(fatal, attempt + 1), events;
        case Failed(_) =>
      }
      events := events + [Sleep(req.failRetryDelayMilliseconds)];
      if sleepInterrupted(attempt) {
        return Cancelled(attempt + 1), events;
      }
      i := Increment(i);
      attempt := attempt + 1;
    }
    outcome := Aborted(attempt);
  }
}
