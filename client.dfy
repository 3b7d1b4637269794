/**
 * The synchronous (pull) subscription of the NATS client: its identity,
 * pending limits, delivery counters and flags, its message channel, and the
 * `nextMessage` state machine with its auto-unsubscribe side effect.
 *
 * The first half is a value model of what one `nextMessage` call reads and
 * writes (`PullState`, `Next`) and of a run of successive calls (`Run`), with
 * the lemmas about such runs. The second half holds the objects themselves
 * (`Connection`, `Channel`, `SyncSubscription`), whose methods are proved
 * against the value model.
 */
module Client {
  import opened Wrappers

  /** Default pending-message limit of a new subscription (65536 messages). */
  const DEFAULT_MAX_PENDING_MSGS: int := 65536
  /** Default pending-byte limit of a new subscription (64 MiB). */
  const DEFAULT_MAX_PENDING_BYTES: int := 65536 * 1024

  newtype byte = x: int | 0 <= x < 256

  /** A delivered message; immutable once built. */
  datatype Message = Message(subject: string, replyTo: Option<string>, data: seq<byte>)

  /** What a call to `nextMessage` produces: a message, nothing (the timeout
      expired), or one of the three failures it raises. */
  datatype Outcome =
    | Msg(m: Message)
    | NoMsg
    | BadSubscription
    | SlowConsumer
    | MaxMessages

  /** The fields of a subscription that `nextMessage` consults and updates.
      `mailbox` is `None` when the subscription has no channel. */
  datatype PullState = PullState(
    closed: bool,
    slowConsumer: bool,
    max: int,
    delivered: int,
    mailbox: Option<seq<Message>>)

  /** The auto-unsubscribe threshold is set (`max > 0`) and reached. */
  predicate Reached(max: int, delivered: int) {
    max > 0 && delivered >= max
  }

  /** The failure, if any, that `nextMessage` raises before it looks at the
      channel, in the order the checks are made. */
  function Refusal(s: PullState): Option<Outcome> {
    if s.closed then Some(BadSubscription)
    else if s.slowConsumer then Some(SlowConsumer)
    else if Reached(s.max, s.delivered) then Some(MaxMessages)
    else None
  }

  /** A call returns in a single-threaded world: it is refused, or the channel
      exists and either has a message or the call waits with a timeout. */
  predicate Returns(s: PullState, timed: bool) {
    Refusal(s).Some? || (s.mailbox.Some? && (timed || s.mailbox.value != []))
  }

  /** One call's effect: its outcome, the new state, and whether it asked
      the connection to remove the subscription. */
  datatype Pull = Pull(outcome: Outcome, after: PullState, unsubscribe: bool)

  /** One call of `nextMessage`, with (`timed`) or without a timeout. */
  function Next(s: PullState, timed: bool): (p: Pull)
    requires Returns(s, timed)
    // closed wins over everything, and the channel is never consulted
    ensures s.closed ==> p == Pull(BadSubscription, s, false)
    // a slow consumer is reported before an exceeded threshold
    ensures !s.closed && s.slowConsumer ==> p == Pull(SlowConsumer, s, false)
    ensures !s.closed && !s.slowConsumer && Reached(s.max, s.delivered) ==>
              p == Pull(MaxMessages, s, false)
    // an expired timeout on an empty channel is an empty result, not an error
    ensures Refusal(s).None? && s.mailbox.value == [] ==> p == Pull(NoMsg, s, false)
    // otherwise the head of the channel is returned, counted, and the call
    // unsubscribes exactly when the count reaches the threshold
    ensures Refusal(s).None? && s.mailbox.value != [] ==>
              p.outcome == Msg(s.mailbox.value[0]) &&
              p.after == s.(delivered := s.delivered + 1, mailbox := Some(s.mailbox.value[1..])) &&
              (p.unsubscribe <==> Reached(s.max, s.delivered + 1))
    // only a delivered message can trigger the removal
    ensures p.unsubscribe ==> p.outcome.Msg?
  {
    match Refusal(s)
    case Some(failure) => Pull(failure, s, false)
    case None =>
      var queue := s.mailbox.value;
      if queue == [] then Pull(NoMsg, s, false)
      else
        var delivered := s.delivered + 1;
        Pull(Msg(queue[0]), s.(delivered := delivered, mailbox := Some(queue[1..])),
             Reached(s.max, delivered))
  }

  /** What a run of successive calls produced: the messages received in
      order, the number of removal requests, and the final state. */
  datatype Session = Session(received: seq<Message>, removals: nat, last: PullState)

  /** `n` successive calls of `nextMessage` with a timeout, from `s`. */
  function Run(s: PullState, n: nat): Session
    requires Returns(s, true)
    decreases n
  {
    if n == 0 then Session([], 0, s)
    else
      var p := Next(s, true);
      var rest := Run(p.after, n - 1);
      Session((if p.outcome.Msg? then [p.outcome.m] else []) + rest.received,
              (if p.unsubscribe then 1 else 0) + rest.removals,
              rest.last)
  }

  /** A run changes only the channel and the delivery counter, and the
      counter grows by exactly the number of messages received. */
  lemma {:induction false} RunCounts(s: PullState, n: nat)
    requires Returns(s, true)
    ensures var r := Run(s, n);
      r.last == s.(delivered := r.last.delivered, mailbox := r.last.mailbox) &&
      r.last.mailbox.Some? == s.mailbox.Some? &&
      r.last.delivered == s.delivered + |r.received|
    decreases n
  {
    if n > 0 {
      RunCounts(Next(s, true).after, n - 1);
    }
  }

  /** Messages come out in the order they are queued, with no loss and no
      duplication: what was received followed by what is still queued is
      exactly the original queue. */
  lemma {:induction false} RunIsFifo(s: PullState, n: nat)
    requires s.mailbox.Some?
    ensures Run(s, n).last.mailbox.Some?
    ensures Run(s, n).received + Run(s, n).last.mailbox.value == s.mailbox.value
    decreases n
  {
    if n > 0 {
      var p := Next(s, true);
      RunIsFifo(p.after, n - 1);
      var rest := Run(p.after, n - 1);
      if p.outcome.Msg? {
        calc {
          Run(s, n).received + Run(s, n).last.mailbox.value;
          [s.mailbox.value[0]] + (rest.received + rest.last.mailbox.value);
          [s.mailbox.value[0]] + s.mailbox.value[1..];
          s.mailbox.value;
        }
      }
    }
  }

  /** A subscription that is refused (closed, slow, or over its threshold)
      stays refused: nothing is received, removed or changed. */
  lemma {:induction false} RefusedRun(s: PullState, n: nat)
    requires Refusal(s).Some?
    ensures Run(s, n) == Session([], 0, s)
    decreases n
  {
    if n > 0 {
      RefusedRun(s, n - 1);
    }
  }

  /** With a threshold set, a run never delivers past it. */
  lemma {:induction false} RunRespectsMax(s: PullState, n: nat)
    requires Returns(s, true)
    requires s.max > 0 && s.delivered <= s.max
    ensures Run(s, n).last.delivered <= s.max
    ensures |Run(s, n).received| <= s.max - s.delivered
    decreases n
  {
    RunCounts(s, n);
    if n > 0 {
      var p := Next(s, true);
      RunRespectsMax(p.after, n - 1);
    }
  }

  /** Auto-unsubscribe happens exactly once, on the call whose delivery
      reaches the threshold, however many calls follow: a run requests
      removal once if it crosses the threshold and never otherwise. */
  lemma {:induction false} RunUnsubscribesOnce(s: PullState, n: nat)
    requires Returns(s, true)
    ensures Run(s, n).removals ==
              if !Reached(s.max, s.delivered) && Reached(s.max, Run(s, n).last.delivered) then 1 else 0
    decreases n
  {
    if n > 0 {
      var p := Next(s, true);
      RunUnsubscribesOnce(p.after, n - 1);
      RunCounts(p.after, n - 1);
      if p.unsubscribe {
        assert Reached(p.after.max, p.after.delivered);
      }
    }
  }

  /** The owning connection, seen through the `removeSub` calls that its
      subscriptions make on it. */
  class Connection {
    /** Every `removeSub` call received, in order. */
    var removeSubCalls: seq<SyncSubscription>

    constructor ()
      ensures removeSubCalls == []
    {
      removeSubCalls := [];
    }

    /** `removeSub(sub)`: records the request to drop `s`. */
    method RemoveSub(s: SyncSubscription)
      modifies this
      ensures removeSubCalls == old(removeSubCalls) + [s]
    {
      removeSubCalls := removeSubCalls + [s];
    }
  }

  /** The subscription's message channel, a FIFO blocking queue. */
  class Channel {
    var items: seq<Message>
    /** How many times a message was asked for (`take` or `poll`). */
    ghost var retrievals: nat

    constructor (init: seq<Message>)
      ensures items == init && retrievals == 0
    {
      items := init;
      retrievals := 0;
    }

    /** `poll(timeout)`: the head of the queue, or null once the timeout
        expires on an empty queue. */
    method Poll() returns (m: Option<Message>)
      modifies this
      ensures retrievals == old(retrievals) + 1
      ensures old(items) == [] ==> m == None && items == []
      ensures old(items) != [] ==> m == Some(old(items)[0]) && items == old(items)[1..]
    {
      retrievals := retrievals + 1;
      if items == [] {
        m := None;
      } else {
        m := Some(items[0]);
        items := items[1..];
      }
    }

    /** `take()`: the head of the queue; on an empty queue the caller
        would wait for a delivery, which a single thread cannot see. */
    method Take() returns (m: Message)
      requires items != []
      modifies this
      ensures retrievals == old(retrievals) + 1
      ensures m == old(items)[0] && items == old(items)[1..]
    {
      retrievals := retrievals + 1;
      m := items[0];
      items := items[1..];
    }
  }

  /** A synchronous subscription: the application pulls messages from it. */
  class SyncSubscription {
    const conn: Connection
    const subject: string
    const queue: Option<string>
    var pendingMsgsLimit: int
    var pendingBytesLimit: int
    /** Auto-unsubscribe threshold; 0 (or less) means none. */
    var max: int
    var delivered: int
    var closed: bool
    var slowConsumer: bool
    /** The message channel; may be null. */
    var mch: Channel?

    /** The part of this subscription that `nextMessage` works on. */
    function View(): PullState
      reads this, mch
    {
      PullState(closed, slowConsumer, max, delivered,
                if mch == null then None else Some(mch.items))
    }

    /** A new subscription on `subj` (and queue group `queue`) of `nc`:
        default pending limits, no threshold, nothing delivered, open, and
        an empty channel of its own. */
    constructor (nc: Connection, subj: string, queue: Option<string>)
      ensures conn == nc && subject == subj && this.queue == queue
      ensures pendingMsgsLimit == DEFAULT_MAX_PENDING_MSGS
      ensures pendingBytesLimit == DEFAULT_MAX_PENDING_BYTES
      ensures max == 0 && delivered == 0 && !closed && !slowConsumer
      ensures mch != null && fresh(mch) && mch.items == [] && mch.retrievals == 0
    {
      conn := nc;
      subject := subj;
      this.queue := queue;
      pendingMsgsLimit := DEFAULT_MAX_PENDING_MSGS;
      pendingBytesLimit := DEFAULT_MAX_PENDING_BYTES;
      max := 0;
      delivered := 0;
      closed := false;
      slowConsumer := false;
      mch := new Channel([]);
    }

    /** Replaces both pending limits as given, a negative value included. */
    method SetPendingLimits(msgs: int, bytes: int)
      modifies this
      ensures pendingMsgsLimit == msgs && pendingBytesLimit == bytes
      ensures mch == old(mch) && View() == old(View())
    {
      pendingMsgsLimit := msgs;
      pendingBytesLimit := bytes;
    }

    /** Sets the auto-unsubscribe threshold. */
    method SetMax(n: int)
      modifies this
      ensures max == n
      ensures pendingMsgsLimit == old(pendingMsgsLimit) && pendingBytesLimit == old(pendingBytesLimit)
      ensures mch == old(mch) && View() == old(View()).(max := n)
    {
      max := n;
    }

    /** Sets or clears the slow-consumer flag. */
    method SetSlowConsumer(b: bool)
      modifies this
      ensures slowConsumer == b
      ensures pendingMsgsLimit == old(pendingMsgsLimit) && pendingBytesLimit == old(pendingBytesLimit)
      ensures mch == old(mch) && View() == old(View()).(slowConsumer := b)
    {
      slowConsumer := b;
    }

    /** Replaces the message channel, possibly by null. */
    method SetChannel(ch: Channel?)
      modifies this
      ensures mch == ch
      ensures pendingMsgsLimit == old(pendingMsgsLimit) && pendingBytesLimit == old(pendingBytesLimit)
      ensures closed == old(closed) && slowConsumer == old(slowConsumer)
      ensures max == old(max) && delivered == old(delivered)
    {
      mch := ch;
    }

    /** `nextMessage()` (timeout `None`) or `nextMessage(timeout)`: checks
        closed, then slow consumer, then the threshold, and only then takes
        from the channel; a delivery that reaches the threshold asks the
        connection, once, to remove this subscription, and is still returned. */
    method NextMessage(timeout: Option<nat>) returns (r: Outcome)
      requires Returns(View(), timeout.Some?)
      modifies this, mch, conn
      ensures mch == old(mch)
      ensures var p := Next(old(View()), timeout.Some?);
        r == p.outcome && View() == p.after &&
        conn.removeSubCalls == old(conn.removeSubCalls) + (if p.unsubscribe then [this] else [])
      // the channel is asked exactly once when no check fails, never otherwise
      ensures mch != null ==>
        mch.retrievals == old(mch.retrievals) + (if Refusal(old(View())).None? then 1 else 0)
      ensures pendingMsgsLimit == old(pendingMsgsLimit) && pendingBytesLimit == old(pendingBytesLimit)
    {
      if closed {
        return BadSubscription;
      }
      if slowConsumer {
        return SlowConsumer;
      }
      if Reached(max, delivered) {
        return MaxMessages;
      }
      var m: Option<Message>;
      if timeout.Some? {
        m := mch.Poll();
      } else {
        var head := mch.Take();
        m := Some(head);
      }
      if m.None? {
        return NoMsg;
      }
      delivered := delivered + 1;
      if Reached(max, delivered) {
        conn.RemoveSub(this);
      }
      r := Msg(m.value);
    }
  }
}
