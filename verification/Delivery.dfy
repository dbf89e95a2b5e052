/** Who gets an appended event, what ends a queue, and that a queue neither loses, repeats
    nor reorders anything while it is registered. */
module Delivery {
  import opened Common
  import opened ReplayModel
  import opened RunsModel
  import opened FeedModel
  import opened ReplayWindow

  predicate ListensTo(f: Feed, run: RunScope, c: nat) {
    run in f.subscribers && c in f.subscribers[run]
  }

  lemma ListensToIsSubscribed(f: Feed)
    ensures forall run, c :: ListensTo(f, run, c) <==> c in SubscribersOf(f.subscribers, run)
  {
  }

  /** What the store knows of a registered queue. */
  lemma ListenerIsOpen(f: Feed, limits: Limits, run: RunScope, c: nat)
    requires FeedOK(f, limits) && ListensTo(f, run, c)
    ensures c in f.channels && c in f.origin && f.origin[c].run == run && !f.channels[c].closed
    ensures |f.channels[c].items| <= limits.subscriberQueue
    ensures f.origin[c].first + |f.channels[c].items| == |LogOf(f.log, run)|
  {
    hide LogsOK, BuffersOK, OpenOnesRegistered, LogOf, ChannelOK;
    assert Registered(f.channels, f.origin, f.log, run, c);
    assert QueueOK(f.channels, f.origin, f.log, limits.subscriberQueue, c);
  }

  // ----- appending ----------------------------------------------------------------------------

  /** What an append of `e` to the run does to one queue. */
  ghost predicate Offers(f: Feed, g: Feed, run: RunScope, c: nat, e: Event, capacity: int)
    requires c in f.channels
  {
    && c in g.channels
    && var before := f.channels[c];
       if !ListensTo(f, run, c) then g.channels[c] == before
       else if |before.items| < capacity then
         g.channels[c] == Channel(before.items + [e], false) && ListensTo(g, run, c)
       else
         |before.items| == capacity && g.channels[c] == Channel(before.items, true) && !ListensTo(g, run, c)
  }

  /** What an append changes outside the run's buffer. */
  ghost predicate Appends(f: Feed, g: Feed, run: RunScope, e: Event, capacity: int) {
    && g.nextEventID == e.eventID == f.nextEventID + 1
    && (forall other :: LogOf(g.log, other) == if other == run then LogOf(f.log, run) + [e] else LogOf(f.log, other))
    && (forall c | c in f.channels :: Offers(f, g, run, c, e, capacity)) && g.channels.Keys == f.channels.Keys
    && (forall other, c :: ListensTo(g, other, c) ==> ListensTo(f, other, c))
    && (forall other, c | other != run :: ListensTo(f, other, c) ==> ListensTo(g, other, c))
    && g.active == f.active && g.nextSubscriberID == f.nextSubscriberID && g.origin == f.origin
  }

  lemma AppendOffers(f: Feed, limits: Limits, run: RunScope, body: string, sizeBytes: int, createdAt: int, enforceAt: int, c: nat)
    requires FeedOK(f, limits) && ValidRunScope(run) && sizeBytes >= 0 && c in f.channels
    ensures var (g, r) := Append(f, limits, run, body, sizeBytes, createdAt, enforceAt);
            r.Ok? && Offers(f, g, run, c, r.value, limits.subscriberQueue)
  {
    hide FeedOK, Enforced, LogOf, SetSubscribers, ListensTo, SubscribersOf;
    ListensToIsSubscribed(f);
    ListensToIsSubscribed(Append(f, limits, run, body, sizeBytes, createdAt, enforceAt).0);
    if ListensTo(f, run, c) { ListenerIsOpen(f, limits, run, c); }
  }

  lemma AppendListeners(f: Feed, limits: Limits, run: RunScope, body: string, sizeBytes: int, createdAt: int, enforceAt: int)
    requires FeedOK(f, limits) && ValidRunScope(run) && sizeBytes >= 0
    ensures var (g, r) := Append(f, limits, run, body, sizeBytes, createdAt, enforceAt);
            && (forall other, c :: ListensTo(g, other, c) ==> ListensTo(f, other, c))
            && (forall other, c | other != run :: ListensTo(f, other, c) ==> ListensTo(g, other, c))
  {
    hide FeedOK, Enforced, Published, LogOf, SetSubscribers, ListensTo, SubscribersOf;
    ListensToIsSubscribed(f);
    ListensToIsSubscribed(Append(f, limits, run, body, sizeBytes, createdAt, enforceAt).0);
  }

  /** In every reachable state an append gives the event the next id and its own body, size and
      time, and puts it at the end of the run's log and of each queue of the run that has room.
      A full queue of the run is closed and forgotten as it is; no other queue is touched. */
  lemma AppendReaches(limits: Limits, epoch: string, ops: seq<FeedOp>, run: RunScope, body: string, sizeBytes: nat,
                      createdAt: int, enforceAt: int)
    requires limits.Normalized() && Named(run)
    ensures var f := State(limits, epoch, ops); var (g, r) := Append(f, limits, run, body, sizeBytes, createdAt, enforceAt);
            && r == Ok(Event(f.nextEventID + 1, run, body, createdAt / 1_000_000, sizeBytes))
            && Appends(f, g, run, r.value, limits.subscriberQueue)
  {
    hide FeedOK, State, Offers, ListensTo;
    var f := State(limits, epoch, ops);
    ReachableOK(limits, epoch, ops);
    forall c | c in f.channels
      ensures Offers(f, Append(f, limits, run, body, sizeBytes, createdAt, enforceAt).0, run, c,
                     Append(f, limits, run, body, sizeBytes, createdAt, enforceAt).1.value, limits.subscriberQueue)
    {
      AppendOffers(f, limits, run, body, sizeBytes, createdAt, enforceAt, c);
    }
    AppendListeners(f, limits, run, body, sizeBytes, createdAt, enforceAt);
    AppendFields(f, limits, run, body, sizeBytes, createdAt, enforceAt);
    hide Append;
  }

  lemma AppendFields(f: Feed, limits: Limits, run: RunScope, body: string, sizeBytes: nat, createdAt: int, enforceAt: int)
    requires ValidRunScope(run)
    ensures var (g, r) := Append(f, limits, run, body, sizeBytes, createdAt, enforceAt);
            var e := Event(f.nextEventID + 1, run, body, createdAt / 1_000_000, sizeBytes);
            && r == Ok(e) && g.nextEventID == f.nextEventID + 1
            && (forall other :: LogOf(g.log, other) == if other == run then LogOf(f.log, run) + [e] else LogOf(f.log, other))
            && g.channels.Keys == f.channels.Keys
            && g.active == f.active && g.nextSubscriberID == f.nextSubscriberID && g.origin == f.origin
  {
    hide Enforced, SetSubscribers, WithRoom, SubscribersOf;
  }

  lemma ReachableOK(limits: Limits, epoch: string, ops: seq<FeedOp>)
    requires limits.Normalized()
    ensures FeedOK(State(limits, epoch, ops), limits)
  {
    hide FeedOK;
    EveryStateOK(limits, epoch, ops);
  }

  /** Without a complete run id, or with a negative size, nothing is appended. */
  lemma BadAppendIsRefused(f: Feed, limits: Limits, run: RunScope, body: string, sizeBytes: int, createdAt: int, enforceAt: int)
    requires !Named(run) || sizeBytes < 0
    ensures Append(f, limits, run, body, sizeBytes, createdAt, enforceAt) == (f, Err(InvalidRequest))
  {
  }

  // ----- subscribing and closing ------------------------------------------------------------------

  /** The run is its chat's run and still going. */
  predicate Live(active: map<Scope, RunRecord>, run: RunScope) {
    Going(active, run.chat) && active[run.chat].runID == run.runID
  }

  /** Exactly a live run is given a queue: a new one, empty, open, and registered for that run. */
  lemma SubscribeGivesNewQueue(limits: Limits, epoch: string, ops: seq<FeedOp>, run: RunScope)
    requires limits.Normalized() && Named(run)
    ensures var f := State(limits, epoch, ops); var (g, r) := Subscribe(f, run); var id := f.nextSubscriberID + 1;
            && r == Ok(if Live(f.active, run) then Some(id) else None) && id !in f.channels
            && g.channels == (if Live(f.active, run) then f.channels[id := Channel([], false)] else f.channels)
            && (forall other, c :: ListensTo(g, other, c) <==>
                  ListensTo(f, other, c) || (Live(f.active, run) && other == run && c == id))
            && g.nextSubscriberID == id && g.log == f.log && g.replay == f.replay && g.nextEventID == f.nextEventID
            && g.active == f.active
  {
    hide State, FeedOK;
    ReachableOK(limits, epoch, ops);
    NewQueue(State(limits, epoch, ops), limits, run);
  }

  lemma SubscribeVerdict(f: Feed, run: RunScope)
    requires ValidRunScope(run)
    ensures var (g, r) := Subscribe(f, run); var id := f.nextSubscriberID + 1;
            && r == Ok(if Live(f.active, run) then Some(id) else None)
            && g.nextSubscriberID == id && g.log == f.log && g.replay == f.replay && g.nextEventID == f.nextEventID
            && g.active == f.active
  {
    hide LogOf, SubscribersOf;
  }

  lemma NewQueue(f: Feed, limits: Limits, run: RunScope)
    requires FeedOK(f, limits) && ValidRunScope(run)
    ensures var (g, r) := Subscribe(f, run); var id := f.nextSubscriberID + 1;
            && r == Ok(if Live(f.active, run) then Some(id) else None) && id !in f.channels
            && g.channels == (if Live(f.active, run) then f.channels[id := Channel([], false)] else f.channels)
            && (forall other, c :: ListensTo(g, other, c) <==>
                  ListensTo(f, other, c) || (Live(f.active, run) && other == run && c == id))
            && g.nextSubscriberID == id && g.log == f.log && g.replay == f.replay && g.nextEventID == f.nextEventID
            && g.active == f.active
  {
    hide Subscribe, Live, LogsOK, BuffersOK, SubscribersOK, OpenOnesRegistered, QueueOK, LogOf, ListensTo, SubscribersOf;
    var id := f.nextSubscriberID + 1;
    assert forall c | c in f.channels :: c <= f.nextSubscriberID;
    SubscribeVerdict(f, run);
    SubscribeAdds(f, run);
    AddedSubscriber(f.subscribers, run, id);
    ListensToIsSubscribed(f);
    ListensToIsSubscribed(Subscribe(f, run).0);
  }

  /** Ending a run closes its queues, as they are, and no others. */
  lemma CloseEndsQueues(f: Feed, run: RunScope)
    ensures var g := CloseSubscribers(f, run);
            && g.channels.Keys == f.channels.Keys
            && (forall c | c in f.channels :: g.channels[c] ==
                  Channel(f.channels[c].items, f.channels[c].closed || ListensTo(f, run, c)))
            && (forall other, c :: ListensTo(g, other, c) <==> ListensTo(f, other, c) && other != run)
            && g == f.(channels := g.channels, subscribers := g.subscribers)
  {
  }

  /** Unsubscribing closes the one queue, if the run still has it. */
  lemma UnsubscribeEndsOne(f: Feed, run: RunScope, id: nat)
    ensures var g := Unsubscribe(f, run, id);
            && g.channels.Keys == f.channels.Keys
            && (forall c | c in f.channels :: g.channels[c] ==
                  Channel(f.channels[c].items, f.channels[c].closed || (c == id && ListensTo(f, run, c))))
            && (forall other, c :: ListensTo(g, other, c) <==> ListensTo(f, other, c) && !(other == run && c == id))
            && g == f.(channels := g.channels, subscribers := g.subscribers)
  {
    hide SetSubscribers, SubscribersOf, ListensTo;
    ListensToIsSubscribed(f);
    ListensToIsSubscribed(Unsubscribe(f, run, id));
    assert run !in f.subscribers ==> SubscribersOf(f.subscribers, run) == {} by { NoSubscribers(f, run); }
  }

  lemma NoSubscribers(f: Feed, run: RunScope)
    ensures run !in f.subscribers ==> SubscribersOf(f.subscribers, run) == {}
  {
  }

  // ----- what ends a queue ------------------------------------------------------------------------

  /** The operation ends the open queue `c`: its run's event finds it full, its run ends, or
      its subscriber leaves. */
  predicate Ends(f: Feed, limits: Limits, op: FeedOp, c: nat)
    requires c in f.channels && c in f.origin
  {
    var run := f.origin[c].run;
    match op
    case OpAppend(r, _, sizeBytes, createdAt, enforceAt) =>
      r == run && Named(r) && sizeBytes >= 0 && f.clock <= createdAt <= enforceAt
      && |f.channels[c].items| == limits.subscriberQueue
    case OpCloseSubscribers(r) => r == run
    case OpUnsubscribe(r, id) => r == run && id == c
    case _ => false
  }

  lemma OpenIsListener(f: Feed, limits: Limits, c: nat)
    requires FeedOK(f, limits) && c in f.channels && !f.channels[c].closed
    ensures c in f.origin && ListensTo(f, f.origin[c].run, c)
    ensures forall run :: ListensTo(f, run, c) ==> run == f.origin[c].run
    ensures |f.channels[c].items| <= limits.subscriberQueue
  {
    hide LogsOK, BuffersOK, LogOf, ChannelOK;
    assert QueueOK(f.channels, f.origin, f.log, limits.subscriberQueue, c);
    forall run | ListensTo(f, run, c) ensures run == f.origin[c].run {
      assert Registered(f.channels, f.origin, f.log, run, c);
    }
  }

  lemma EndsIff(f: Feed, limits: Limits, epoch: string, op: FeedOp, c: nat)
    requires FeedOK(f, limits) && c in f.channels && !f.channels[c].closed && c in f.origin
    ensures var g := ApplyFeed(f, limits, epoch, op); c in g.channels && (g.channels[c].closed <==> Ends(f, limits, op, c))
  {
    hide FeedOK, Append, Replay, Unsubscribe, CloseSubscribers, ListensTo, Correlates, IsTerminal, LogOf, SubscribersOf;
    OpenIsListener(f, limits, c);
    match op
    case OpAppend(run, body, sizeBytes, createdAt, enforceAt) =>
      if ValidRunScope(run) && sizeBytes >= 0 {
        AppendOffers(f, limits, run, body, sizeBytes, createdAt, enforceAt, c);
      } else {
        BadAppendIsRefused(f, limits, run, body, sizeBytes, createdAt, enforceAt);
      }
    case OpSubscribe(run) => SubscribeKeepsQueue(f, limits, run, c);
    case OpUnsubscribe(run, id) => UnsubscribeEndsOne(f, run, id);
    case OpCloseSubscribers(run) => CloseEndsQueues(f, run);
    case OpReplay(cursor, now) => ReplayKeepsQueues(f, limits, epoch, cursor, now);
    case _ =>
  }

  lemma SubscribeKeepsQueue(f: Feed, limits: Limits, run: RunScope, c: nat)
    requires FeedOK(f, limits) && c in f.channels
    ensures var g := Subscribe(f, run).0; c in g.channels && g.channels[c] == f.channels[c]
  {
    hide LogsOK, BuffersOK, SubscribersOK, OpenOnesRegistered, QueueOK, LogOf, SubscribersOf;
  }

  lemma ReplayKeepsQueues(f: Feed, limits: Limits, epoch: string, cursor: Cursor, now: int)
    ensures var g := Replay(f, limits, epoch, cursor, now).0;
            g.channels == f.channels && g.subscribers == f.subscribers && g.origin == f.origin && g.log == f.log
  {
    hide Enforced, Answer;
  }

  /** In every reachable state, nothing else does. */
  lemma QueueEndsIff(limits: Limits, epoch: string, ops: seq<FeedOp>, op: FeedOp, c: nat)
    requires limits.Normalized()
    requires var f := State(limits, epoch, ops); c in f.channels && !f.channels[c].closed
    ensures var f := State(limits, epoch, ops); var g := ApplyFeed(f, limits, epoch, op);
            c in f.origin && c in g.channels && (g.channels[c].closed <==> Ends(f, limits, op, c))
  {
    hide State, FeedOK, Ends, ApplyFeed;
    ReachableOK(limits, epoch, ops);
    OpenIsListener(State(limits, epoch, ops), limits, c);
    EndsIff(State(limits, epoch, ops), limits, epoch, op, c);
  }

  /** Except for a subscription and a receive, operations leave the set of queues and their
      places in the log as they are. */
  ghost predicate SameQueues(f: Feed, g: Feed) {
    && g.channels.Keys == f.channels.Keys && g.origin == f.origin
    && forall run :: LogOf(f.log, run) <= LogOf(g.log, run)
  }

  lemma AppendKeepsQueues(f: Feed, limits: Limits, run: RunScope, body: string, sizeBytes: int, createdAt: int, enforceAt: int)
    ensures SameQueues(f, Append(f, limits, run, body, sizeBytes, createdAt, enforceAt).0)
  {
    hide Enforced, SubscribersOf, SetSubscribers, WithRoom, Offered;
  }

  lemma OthersKeepQueues(f: Feed, limits: Limits, epoch: string, op: FeedOp)
    requires !op.OpSubscribe? && !op.OpReceive?
    ensures SameQueues(f, ApplyFeed(f, limits, epoch, op))
  {
    hide Append, Replay, Unsubscribe, CloseSubscribers, LogOf, ListensTo;
    match op
    case OpAppend(run, body, sizeBytes, createdAt, enforceAt) =>
      AppendKeepsQueues(f, limits, run, body, sizeBytes, createdAt, enforceAt);
    case OpUnsubscribe(run, id) => UnsubscribeEndsOne(f, run, id);
    case OpCloseSubscribers(run) => CloseEndsQueues(f, run);
    case OpReplay(cursor, now) => ReplayKeepsQueues(f, limits, epoch, cursor, now);
    case _ =>
  }

  /** A queue is new only by subscribing, and then empty and open. */
  lemma NewIsOpen(f: Feed, limits: Limits, epoch: string, op: FeedOp, c: nat)
    requires c !in f.channels && c in ApplyFeed(f, limits, epoch, op).channels
    ensures var g := ApplyFeed(f, limits, epoch, op);
            && op.OpSubscribe? && Subscribe(f, op.run).1 == Ok(Some(c)) && g.channels[c] == Channel([], false)
            && c in g.origin && g.origin[c] == Origin(op.run, |LogOf(f.log, op.run)|)
  {
    hide Append, Replay, Unsubscribe, CloseSubscribers, LogOf, Subscribe;
    if op.OpSubscribe? {
      SubscribeAdds(f, op.run);
      SubscribedID(f, op.run);
    } else if !op.OpReceive? {
      OthersKeepQueues(f, limits, epoch, op);
    }
  }

  lemma SubscribedID(f: Feed, run: RunScope)
    ensures var r := Subscribe(f, run).1; r.Ok? && r.value.Some? ==> r.value.value == f.nextSubscriberID + 1
  {
    hide Correlates, IsTerminal, LogOf, SubscribersOf;
  }

  /** Every closed queue was ended so, by some operation of the run. */
  lemma {:induction false} EveryEndHasACause(limits: Limits, epoch: string, ops: seq<FeedOp>, c: nat) returns (i: nat)
    requires limits.Normalized() && c in State(limits, epoch, ops).channels && State(limits, epoch, ops).channels[c].closed
    ensures i < |ops|
    ensures var f := State(limits, epoch, ops[..i]);
            c in f.channels && c in f.origin && !f.channels[c].closed && Ends(f, limits, ops[i], c)
  {
    hide ApplyFeed, Ends;
    var init := ops[..|ops| - 1];
    var f := State(limits, epoch, init);
    if c in f.channels && f.channels[c].closed {
      i := EveryEndHasACause(limits, epoch, init, c);
      assert init[..i] == ops[..i];
    } else {
      i := |ops| - 1;
      if c in f.channels {
        QueueEndsIff(limits, epoch, init, ops[i], c);
      } else {
        NewIsOpen(f, limits, epoch, ops[i], c);
      }
    }
  }

  // ----- what a subscriber gets --------------------------------------------------------------------

  /** The events received from queue `c`, in order. */
  ghost function Taken(limits: Limits, epoch: string, ops: seq<FeedOp>, c: nat): seq<Event> {
    if ops == [] then []
    else
      var init, op := ops[..|ops| - 1], ops[|ops| - 1];
      Taken(limits, epoch, init, c) + TakenBy(State(limits, epoch, init), op, c)
  }

  function TakenBy(f: Feed, op: FeedOp, c: nat): seq<Event> {
    if op == OpReceive(c) && Receive(f, c).1.Item? then [Receive(f, c).1.event] else []
  }

  /** Operation `i` subscribed queue `c`. */
  predicate SubscribedAt(limits: Limits, epoch: string, ops: seq<FeedOp>, i: nat, c: nat) {
    i < |ops| && ops[i].OpSubscribe? && Subscribe(State(limits, epoch, ops[..i]), ops[i].run).1 == Ok(Some(c))
  }

  /** The queue and what was taken from it are one stretch of the run's log from index `s` on. */
  ghost predicate Fifo(f: Feed, taken: seq<Event>, run: RunScope, s: nat, c: nat) {
    && c in f.channels && c in f.origin && f.origin[c] == Origin(run, s + |taken|)
    && s + |taken| <= |LogOf(f.log, run)| && taken == LogOf(f.log, run)[s..s + |taken|]
  }

  lemma FifoLonger(f: Feed, g: Feed, taken: seq<Event>, run: RunScope, s: nat, c: nat)
    requires Fifo(f, taken, run, s, c) && LogOf(f.log, run) <= LogOf(g.log, run)
    requires c in g.channels && c in g.origin && g.origin[c] == f.origin[c]
    ensures Fifo(g, taken, run, s, c)
  {
    hide LogOf;
  }

  lemma ReceivedFifo(f: Feed, limits: Limits, taken: seq<Event>, run: RunScope, s: nat, c: nat)
    requires FeedOK(f, limits) && Fifo(f, taken, run, s, c)
    ensures Fifo(Receive(f, c).0, taken + TakenBy(f, OpReceive(c), c), run, s, c)
  {
    hide LogsOK, BuffersOK, SubscribersOK, OpenOnesRegistered, LogOf;
    assert QueueOK(f.channels, f.origin, f.log, limits.subscriberQueue, c);
    var log := LogOf(f.log, run);
    if f.channels[c].items != [] {
      var e := f.channels[c].items[0];
      assert log[s + |taken|] == e;
      assert log[s..s + |taken| + 1] == log[s..s + |taken|] + [e];
    } else {
      assert taken + [] == taken;
    }
  }

  lemma StepFifo(f: Feed, limits: Limits, epoch: string, op: FeedOp, taken: seq<Event>, run: RunScope, s: nat, c: nat)
    requires FeedOK(f, limits) && Fifo(f, taken, run, s, c)
    ensures Fifo(ApplyFeed(f, limits, epoch, op), taken + TakenBy(f, op, c), run, s, c)
  {
    hide Fifo, Append, Replay, Unsubscribe, CloseSubscribers, Subscribe, LogOf, FeedOK;
    if op == OpReceive(c) {
      ReceivedFifo(f, limits, taken, run, s, c);
    } else {
      assert taken + [] == taken;
      FifoQueue(f, taken, run, s, c);
      StepMoves(f, limits, epoch, op, run, c);
      FifoLonger(f, ApplyFeed(f, limits, epoch, op), taken, run, s, c);
    }
  }

  lemma FifoQueue(f: Feed, taken: seq<Event>, run: RunScope, s: nat, c: nat)
    requires Fifo(f, taken, run, s, c)
    ensures c in f.channels && c in f.origin
  {
  }

  /** No operation but a receive moves a queue in its log. */
  lemma StepMoves(f: Feed, limits: Limits, epoch: string, op: FeedOp, run: RunScope, c: nat)
    requires FeedOK(f, limits) && c in f.channels && c in f.origin && op != OpReceive(c)
    ensures var g := ApplyFeed(f, limits, epoch, op);
            LogOf(f.log, run) <= LogOf(g.log, run) && c in g.channels && c in g.origin && g.origin[c] == f.origin[c]
  {
    hide BuffersOK, LogsOK, SubscribersOK, OpenOnesRegistered, QueueOK, Append, Replay, Unsubscribe, CloseSubscribers,
      Subscribe, LogOf;
    if op.OpSubscribe? {
      SubscribeAdds(f, op.run);
    } else if !op.OpReceive? {
      OthersKeepQueues(f, limits, epoch, op);
    }
  }

  lemma {:induction false} NothingTakenBefore(limits: Limits, epoch: string, ops: seq<FeedOp>, c: nat)
    requires c !in State(limits, epoch, ops).channels
    ensures Taken(limits, epoch, ops, c) == []
  {
    hide ApplyFeed;
    if ops != [] {
      var init := ops[..|ops| - 1];
      QueuesStay(State(limits, epoch, init), limits, epoch, ops[|ops| - 1], c);
      NothingTakenBefore(limits, epoch, init, c);
    }
  }

  lemma QueuesStay(f: Feed, limits: Limits, epoch: string, op: FeedOp, c: nat)
    ensures c in f.channels ==> c in ApplyFeed(f, limits, epoch, op).channels
  {
    hide Append, Replay, Unsubscribe, CloseSubscribers, Subscribe, LogOf;
    if op.OpSubscribe? {
      SubscribeAdds(f, op.run);
    } else if !op.OpReceive? {
      OthersKeepQueues(f, limits, epoch, op);
    }
  }

  lemma {:induction false} EveryQueueIsFifo(limits: Limits, epoch: string, ops: seq<FeedOp>, i: nat, c: nat)
    requires limits.Normalized() && SubscribedAt(limits, epoch, ops, i, c)
    ensures var s := |LogOf(State(limits, epoch, ops[..i]).log, ops[i].run)|;
            Fifo(State(limits, epoch, ops), Taken(limits, epoch, ops, c), ops[i].run, s, c)
  {
    hide ApplyFeed, FeedOK, Fifo, TakenBy, Subscribe;
    var init := ops[..|ops| - 1];
    var f := State(limits, epoch, init);
    ReachableOK(limits, epoch, init);
    if i == |ops| - 1 {
      JustSubscribed(f, limits, epoch, ops[i].run, c);
      NothingTakenBefore(limits, epoch, init, c);
      assert Taken(limits, epoch, ops, c) == [] by { NotTaken(f, ops[i], c); }
    } else {
      assert init[..i] == ops[..i];
      EveryQueueIsFifo(limits, epoch, init, i, c);
      StepFifo(f, limits, epoch, ops[|ops| - 1], Taken(limits, epoch, init, c), ops[i].run,
               |LogOf(State(limits, epoch, ops[..i]).log, ops[i].run)|, c);
    }
  }

  lemma NotTaken(f: Feed, op: FeedOp, c: nat)
    requires !op.OpReceive?
    ensures TakenBy(f, op, c) == []
  {
  }

  lemma JustSubscribed(f: Feed, limits: Limits, epoch: string, run: RunScope, c: nat)
    requires FeedOK(f, limits) && Subscribe(f, run).1 == Ok(Some(c))
    ensures c !in f.channels && Fifo(ApplyFeed(f, limits, epoch, OpSubscribe(run)), [], run, |LogOf(f.log, run)|, c)
  {
    hide LogsOK, BuffersOK, SubscribersOK, OpenOnesRegistered, QueueOK, LogOf, SubscribersOf, Correlates, IsTerminal;
    assert forall c | c in f.channels :: c <= f.nextSubscriberID;
  }

  /** What a subscriber received, followed by what its queue still holds, is exactly what was
      appended to the run since it subscribed, in order: all of it while the queue is
      registered, and up to some event afterwards. */
  lemma SubscriberGetsTheLog(limits: Limits, epoch: string, ops: seq<FeedOp>, i: nat, c: nat)
    requires limits.Normalized() && SubscribedAt(limits, epoch, ops, i, c)
    ensures var f := State(limits, epoch, ops); var run := ops[i].run;
            var log, s := LogOf(f.log, run), |LogOf(State(limits, epoch, ops[..i]).log, run)|;
            && c in f.channels && s <= |log|
            && Taken(limits, epoch, ops, c) + f.channels[c].items <= log[s..]
            && (!f.channels[c].closed ==> Taken(limits, epoch, ops, c) + f.channels[c].items == log[s..])
  {
    hide State, FeedOK, LogOf, SubscribedAt, Taken;
    EveryQueueIsFifo(limits, epoch, ops, i, c);
    ReachableOK(limits, epoch, ops);
    assert i < |ops| && ops[i].OpSubscribe? by { SubscribeOp(limits, epoch, ops, i, c); }
    Delivered(State(limits, epoch, ops), limits, Taken(limits, epoch, ops, c), ops[i].run,
              |LogOf(State(limits, epoch, ops[..i]).log, ops[i].run)|, c);
  }

  lemma SubscribeOp(limits: Limits, epoch: string, ops: seq<FeedOp>, i: nat, c: nat)
    requires SubscribedAt(limits, epoch, ops, i, c)
    ensures i < |ops| && ops[i].OpSubscribe?
  {
  }

  lemma Delivered(f: Feed, limits: Limits, taken: seq<Event>, run: RunScope, s: nat, c: nat)
    requires FeedOK(f, limits) && Fifo(f, taken, run, s, c)
    ensures s <= |LogOf(f.log, run)| && taken + f.channels[c].items <= LogOf(f.log, run)[s..]
    ensures !f.channels[c].closed ==> taken + f.channels[c].items == LogOf(f.log, run)[s..]
  {
    hide LogsOK, BuffersOK, LogOf;
    assert QueueOK(f.channels, f.origin, f.log, limits.subscriberQueue, c);
    if !f.channels[c].closed {
      assert c in SubscribersOf(f.subscribers, run);
      assert Registered(f.channels, f.origin, f.log, run, c);
    }
  }

  /** Receiving takes the oldest event of a queue; a queue that has none tells whether it has
      ended or more may come. */
  lemma ReceiveVerdict(limits: Limits, epoch: string, ops: seq<FeedOp>, c: nat)
    requires limits.Normalized() && c in State(limits, epoch, ops).channels
    ensures var f := State(limits, epoch, ops); var (g, r) := Receive(f, c); var before := f.channels[c];
            if before.items == [] then g == f && r == if before.closed then Drained else Blocked
            else
              && r == Item(before.items[0]) && g.channels == f.channels[c := Channel(before.items[1..], before.closed)]
              && g == f.(channels := g.channels, origin := g.origin)
  {
    hide State, FeedOK;
    ReachableOK(limits, epoch, ops);
    QueueHasPlace(State(limits, epoch, ops), limits, c);
  }

  lemma QueueHasPlace(f: Feed, limits: Limits, c: nat)
    requires FeedOK(f, limits) && c in f.channels
    ensures c in f.origin
  {
    hide LogsOK, BuffersOK, SubscribersOK, OpenOnesRegistered, ChannelOK, LogOf;
    assert QueueOK(f.channels, f.origin, f.log, limits.subscriberQueue, c);
  }

  lemma BadSubscribeIsRefused(f: Feed, run: RunScope)
    requires !Named(run)
    ensures Subscribe(f, run) == (f, Err(InvalidRequest))
  {
  }

  /** No set of subscribers is kept empty. */
  ghost predicate NoneEmpty(f: Feed) {
    forall run | run in f.subscribers :: f.subscribers[run] != {}
  }

  lemma StepKeepsNoneEmpty(f: Feed, limits: Limits, epoch: string, op: FeedOp)
    requires NoneEmpty(f)
    ensures NoneEmpty(ApplyFeed(f, limits, epoch, op))
  {
    hide Enforced, Published, Closed, WithRoom, LogOf, SubscribersOf, Answer, Correlates, IsTerminal;
  }

  /** In every reachable state only runs with a subscriber have an entry. */
  lemma {:induction false} EntriesHaveSubscribers(limits: Limits, epoch: string, ops: seq<FeedOp>)
    ensures NoneEmpty(State(limits, epoch, ops))
  {
    hide ApplyFeed;
    if ops != [] {
      EntriesHaveSubscribers(limits, epoch, ops[..|ops| - 1]);
      StepKeepsNoneEmpty(State(limits, epoch, ops[..|ops| - 1]), limits, epoch, ops[|ops| - 1]);
    }
  }
}
