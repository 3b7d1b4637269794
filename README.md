# NATS synchronous subscription and `Requestor` command line — a Dafny model

This project models two small sequential pieces of the Java NATS client
(`io.nats.client`, `io.nats.examples`):

1. **The synchronous subscription** (`SyncSubscriptionImpl`), module `Client`.
   A subscription holds its connection, subject, optional queue group, pending
   message/byte limits, the auto-unsubscribe threshold `max`, the `delivered`
   counter, the `closed` and `slowConsumer` flags, and a message channel that
   may be null. `nextMessage` checks, in this order: closed (fails with
   `BadSubscription`), slow consumer (`SlowConsumer`), threshold reached
   (`MaxMessages`); only then does it take from the channel — with a timeout,
   an empty channel yields "no message", which is not an error. A delivered
   message increments `delivered`; when that reaches `max`, the connection's
   `removeSub` is called once and the message is still returned.
   The value model (`PullState`, `Next`, `Run`) describes one call and a run
   of calls; the classes `Connection`, `Channel` and `SyncSubscription` are
   the objects, and `SyncSubscription.NextMessage` is proved to do what
   `Next` says. The connection is seen only through the log of `removeSub`
   calls it receives; the channel counts how often it was asked for a
   message.
2. **`Requestor.parseArgs`**, module `Examples`: the command line
   `[-s <url> | --server <url>]... <subject> <message>`. `Parse` gives the
   meaning of a command line, `WellFormed` is an independent description of
   the accepted lines, and `Requestor.ParseArgs` is the imperative parser
   (a copy of the arguments, the payload and subject taken from the end, then
   a loop over the remaining tokens), proved against them.

The implementation file of `SyncSubscriptionImpl` is not part of this model;
its behaviour is taken from the assertions of
`src/test/java/io/nats/client/SyncSubscriptionImplTest.java`. Where these
leave a choice:
- the order closed, then slow consumer, then threshold is chosen where no
  test combines those flags (the tests do fix that a slow consumer is
  reported ahead of an exceeded threshold);
- the threshold counts as reached when `max > 0 && delivered >= max`, both
  for the `MaxMessages` check and for the auto-unsubscribe after a delivery
  (the test's 41 delivered against a maximum of 40 satisfies either reading);
  with this reading the removal is requested at most once;
- the slow-consumer flag is sticky: reporting it does not clear it;
- the library constants `DEFAULT_MAX_PENDING_MSGS` (65536),
  `DEFAULT_MAX_PENDING_BYTES` (64 MiB) and `Nats.DEFAULT_URL`
  (`nats://localhost:4222`) are defined in files that are not part of this
  model; the values given are the client library's defaults.

## Model

| member | source | states |
|---|---|---|
| Client.Next | src/test/java/io/nats/client/SyncSubscriptionImplTest.java:135-266 | closed fails with BadSubscription before anything else and leaves the state alone; slow consumer fails next, ahead of an exceeded threshold; an exceeded threshold fails with MaxMessages; none of these consults the channel; an expired timeout on an empty channel is an empty result; otherwise the channel's head is returned and removed, `delivered` grows by one, and removal is requested exactly when the threshold is reached |
| Client.RunCounts | src/test/java/io/nats/client/SyncSubscriptionImplTest.java:168-185 | over any number of calls only the channel and `delivered` change, and `delivered` grows by exactly the number of messages returned |
| Client.RunIsFifo | src/test/java/io/nats/client/SyncSubscriptionImplTest.java:135-165 | messages are returned in channel order with no loss or duplication: received followed by still-queued equals the original queue |
| Client.RefusedRun | src/test/java/io/nats/client/SyncSubscriptionImplTest.java:235-266 | a closed, slow or over-threshold subscription stays so: any number of calls returns nothing, requests no removal and changes nothing |
| Client.RunRespectsMax | src/test/java/io/nats/client/SyncSubscriptionImplTest.java:199-214 | with a threshold set, no run delivers past it: at most `max - delivered` messages are returned |
| Client.RunUnsubscribesOnce | src/test/java/io/nats/client/SyncSubscriptionImplTest.java:167-185 | a run requests removal once if its deliveries cross the threshold and never otherwise, however many calls follow |
| Client.Connection.RemoveSub | src/test/java/io/nats/client/SyncSubscriptionImplTest.java:182 | each `removeSub` call is recorded, in order |
| Client.Channel.Poll | src/test/java/io/nats/client/SyncSubscriptionImplTest.java:156-162 | `poll(timeout)` returns and removes the head, or null on an empty queue; counts one retrieval |
| Client.Channel.Take | src/test/java/io/nats/client/SyncSubscriptionImplTest.java:141-143 | `take()` returns and removes the head of a non-empty queue; counts one retrieval |
| Client.SyncSubscription.constructor | src/test/java/io/nats/client/SyncSubscriptionImplTest.java:101-114 | keeps the given connection, subject and queue; pending limits are the defaults; no threshold, nothing delivered, open, not slow, with an empty channel of its own |
| Client.SyncSubscription.SetPendingLimits | src/test/java/io/nats/client/SyncSubscriptionImplTest.java:116-131 | both limits read back as given, a negative byte limit included; nothing else changes |
| Client.SyncSubscription.SetMax | src/test/java/io/nats/client/SyncSubscriptionImplTest.java:175 | sets the threshold and nothing else |
| Client.SyncSubscription.SetSlowConsumer | src/test/java/io/nats/client/SyncSubscriptionImplTest.java:263 | sets the slow-consumer flag and nothing else |
| Client.SyncSubscription.SetChannel | src/test/java/io/nats/client/SyncSubscriptionImplTest.java:141 | replaces the channel, possibly by null, and nothing else |
| Client.SyncSubscription.NextMessage | src/test/java/io/nats/client/SyncSubscriptionImplTest.java:134-214 | the outcome and new state are those of `Next`; `removeSub(this)` is called once exactly when `Next` requests removal; the channel is asked once when no check fails and never otherwise; limits are unchanged |
| Examples.FlagsError | src/test/java/io/nats/examples/Requestor.java:69-86 | the walk over the leading tokens only ever fails with a missing argument or an unexpected token |
| Examples.FlagsUrl | src/test/java/io/nats/examples/Requestor.java:73-81 | the URL reached by the walk is the starting URL or one of the tokens walked, the value of some flag |
| Examples.ErrorMessage | src/test/java/io/nats/examples/Requestor.java:55-84 | the three exception texts: the fixed message for too few arguments, "<flag> requires an argument" (the flag, then the fixed suffix), "Unexpected token: '<tok>'" (the fixed prefix, then the token in single quotes) |
| Examples.ErrorMessageIdentifiesError | src/test/java/io/nats/examples/Requestor.java:55-84 | different errors never give the same text, so the message tells which error it was and which token caused it |
| Examples.Parse | src/test/java/io/nats/examples/Requestor.java:54-66 | fewer than two arguments, and only that, fails with TooFewArgs; on success the payload is the last argument and the subject the one before; with exactly two arguments the URL is the default |
| Examples.FlagsErrorIffMalformed | src/test/java/io/nats/examples/Requestor.java:69-86 | the leading tokens are accepted exactly when they are `<flag> <value>` pairs with flag `-s` or `--server` |
| Examples.FlagsUrlIsLastValue | src/test/java/io/nats/examples/Requestor.java:73-81 | on accepted tokens the URL is the last flag's value, or the starting URL when there are none |
| Examples.UnexpectedTokenAt | src/test/java/io/nats/examples/Requestor.java:82-84 | a non-flag token in flag position, after well-formed pairs, fails with "Unexpected token" naming it |
| Examples.MissingArgumentAtEnd | src/test/java/io/nats/examples/Requestor.java:75-77 | a flag with no token after it, after well-formed pairs, fails with "requires an argument" naming the flag |
| Examples.ParseAcceptsExactly | src/test/java/io/nats/examples/Requestor.java:54-87 | a command line is accepted if and only if it has a subject and payload and well-formed flags; the URL is then the last flag value, or `DEFAULT_URL` |
| Examples.LastServerWins | src/test/java/io/nats/examples/Requestor.java:79 | with repeated flags the last one's value is the URL |
| Examples.Requestor.constructor | src/test/java/io/nats/examples/Requestor.java:21-23 | the URL starts as `DEFAULT_URL`; subject and payload start null |
| Examples.Requestor.ParseArgs | src/test/java/io/nats/examples/Requestor.java:54-87 | null or fewer than two arguments fails with TooFewArgs and changes nothing; otherwise payload and subject are set from the end, the error is the walk's first error and the URL the one the walk reached, even when it stopped at an error; from the default URL the result agrees with `Parse`; the caller's array is unchanged |

## Left out

- Client.SyncSubscription.NextMessage: a call without a timeout on an empty channel waits for a delivery or a close, which a single thread cannot see finish; and when no check fails, a null channel would presumably make the call fail on a null reference (the implementation is not part of this model, and no test reaches that case). `Returns` excludes both cases by the `requires`.
- Blocking, wake-on-close and interruption of a waiting `nextMessage` (SyncSubscriptionImplTest.java:216-233): they need another thread and real time. An expired timeout is modelled as "empty channel, so no message".
- The timeout's value and unit: only whether a timeout was given matters.
- `close()` and the delivery path (enqueue, drop on full, setting the slow-consumer flag from pending counts): their implementation is not part of this model; the flags are set directly, as the tests do.
- What `removeSub` does inside the connection (routing table, closing the subscription): the connection is external; only the calls are recorded.
- The Java getters (`getConnection`, `getSubject`, `getQueue`, `getPendingMsgsLimit`, `getPendingBytesLimit`): they are the fields themselves.
- `delivered` and `max` are unbounded integers; the 64-bit overflow of Java's `long` is not modelled.
- Mockito, logging and executor set-up of the test class.
- `NatsThread` (worker threads with latches, atomic counters, exception handler): concurrency only, no sequential logic.
- `Requestor.run`, `main` and `usage`: network connection, request/reply and printing.
- Examples.Requestor.ParseArgs: null elements inside `args`: in flag position the Java `switch` throws a `NullPointerException`; as subject, payload or flag value the null is stored. Neither case can occur here, since Dafny strings are never null.
