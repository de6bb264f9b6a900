// The values a recovery policy works with in the saga core: the step's
// request and its transaction, the transaction's answer to one call, the
// terminal outcome of one `apply` call, and the observable events of that
// call (sends and inter-attempt sleeps).

module SagaCore {

  const IntMin: int := -0x8000_0000
  const IntMax: int := 0x7fff_ffff

  /** A Java `int`. */
  type JavaInt = x: int | -0x8000_0000 <= x <= 0x7fff_ffff

  /** Java's `i++` on an `int`: the true sum reduced to 32 bits in two's
      complement, so the largest value wraps to the smallest. */
  function Increment(i: JavaInt): (r: JavaInt)
    ensures r == IntMin + (i - IntMin + 1) % 0x1_0000_0000
  {
    if i == IntMax then IntMin else i + 1
  }

  /** The kind of `Exception` a call to `send` may throw. The policy's
      `catch (Exception e)` treats every kind alike, an interrupt raised
      inside `send` included. */
  datatype SendError = TransportFailure | BusinessFailure | InterruptedInSend

  /** A `Throwable` that is not an `Exception` (a `java.lang.Error`): the
      policy does not catch it. */
  datatype FatalError = OutOfMemory | StackOverflow | OtherError

  /** What one call of `transaction.send(serviceName, parent)` produces:
      a response, an `Exception`, or a `Throwable` that is not one. */
  datatype SendResult<R> = Ok(response: R) | Failed(error: SendError) | Thrown(fatal: FatalError)

  /** The transaction of a saga step: its retry budget (a Java `int`;
      `retries <= 0` means retry forever) and its behaviour, an oracle that
      answers the call made at a given attempt number with the given service
      name and parent response. The attempt number stands for whatever state
      the remote side keeps between calls. */
  datatype Transaction<!R> = Transaction(
    retries: JavaInt,
    send: (nat, string, R) -> SendResult<R>
  )

  /** A saga request: the target service, its transaction, and the delay
      taken after each failed attempt. */
  datatype Request<!R> = Request(
    serviceName: string,
    transaction: Transaction<R>,
    failRetryDelayMilliseconds: nat
  )

  /** Outcome of one `apply` call, with the number of `send` calls made.
      Succeeded is the returned response, Aborted the
      TransactionAbortedException of an exhausted budget, Cancelled the
      TransactionFailedException of an interrupted sleep, Escaped a
      non-`Exception` throwable of `send` passing through unchanged.
      Unfinished means the model's attempt fuel ran out while the loop was
      still retrying: the real loop has not ended yet. */
  datatype Outcome<R> =
    | Succeeded(response: R, attempts: nat)
    | Aborted(attempts: nat)
    | Cancelled(attempts: nat)
    | Escaped(fatal: FatalError, attempts: nat)
    | Unfinished(attempts: nat)

  /** What an `apply` call does that its caller or the remote side can
      observe: a call of `send` with its arguments, and a sleep with its
      length. */
  datatype Event<R> = Send(serviceName: string, parentResponse: R) | Sleep(milliseconds: nat)
}
