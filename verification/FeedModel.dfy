/** The delivery side of the chat state store: appends, replay buffers and bounded
    subscriber queues, next to the full append log that they stand for. Each function
    is one critical section of the store. */
module FeedModel {
  import opened Common
  import opened ReplayModel
  import opened RunsModel

  /** A bounded queue handed to one subscriber; receivers drain it even after it is closed. */
  datatype Channel = Channel(items: seq<Event>, closed: bool)

  /** Where a queue stands in the log of its run: its first queued event has index `first`. */
  datatype Origin = Origin(run: RunScope, first: nat)

  /** `log`, `origin` and `clock` record the history; the store itself keeps only the rest. */
  datatype Feed = Feed(
    nextEventID: nat,
    nextSubscriberID: nat,
    active: map<Scope, RunRecord>,
    replay: map<RunScope, ReplayBuffer>,
    subscribers: map<RunScope, set<nat>>,
    channels: map<nat, Channel>,
    log: map<RunScope, seq<Event>>,
    origin: map<nat, Origin>,
    clock: int)

  const EMPTY_FEED := Feed(0, 0, map[], map[], map[], map[], map[], map[], 0)

  function LogOf(log: map<RunScope, seq<Event>>, run: RunScope): seq<Event> {
    if run in log then log[run] else []
  }

  function BufferOf(replay: map<RunScope, ReplayBuffer>, run: RunScope): ReplayBuffer {
    if run in replay then replay[run] else EMPTY_BUFFER
  }

  function SubscribersOf(subscribers: map<RunScope, set<nat>>, run: RunScope): set<nat> {
    if run in subscribers then subscribers[run] else {}
  }

  // ----- publishing ------------------------------------------------------------

  /** A full queue is closed instead of blocking the publisher. */
  function Offered(channel: Channel, event: Event, capacity: int): Channel {
    if |channel.items| < capacity then channel.(items := channel.items + [event]) else channel.(closed := true)
  }

  function Published(channels: map<nat, Channel>, ids: set<nat>, event: Event, capacity: int): map<nat, Channel> {
    map c | c in channels :: if c in ids then Offered(channels[c], event, capacity) else channels[c]
  }

  function Closed(channels: map<nat, Channel>, ids: set<nat>): map<nat, Channel> {
    map c | c in channels :: if c in ids then channels[c].(closed := true) else channels[c]
  }

  function WithRoom(channels: map<nat, Channel>, ids: set<nat>, capacity: int): set<nat> {
    set c | c in ids && c in channels && |channels[c].items| < capacity
  }

  function SetSubscribers(subscribers: map<RunScope, set<nat>>, run: RunScope, ids: set<nat>)
    : (r: map<RunScope, set<nat>>)
    ensures forall other :: SubscribersOf(r, other) == if other == run then ids else SubscribersOf(subscribers, other)
  {
    if ids == {} then subscribers - {run} else subscribers[run := ids]
  }

  function Append(f: Feed, limits: Limits, run: RunScope, body: string, sizeBytes: int, createdAt: int, enforceAt: int)
    : (Feed, Result<Event, StoreError>)
  {
    if !ValidRunScope(run) || sizeBytes < 0 then (f, Err(InvalidRequest))
    else
      var event := Event(f.nextEventID + 1, run, body, UnixMilli(createdAt), sizeBytes);
      var ids := SubscribersOf(f.subscribers, run);
      (f.(nextEventID := f.nextEventID + 1,
          replay := f.replay[run := Enforced(Pushed(BufferOf(f.replay, run), event), limits, enforceAt)],
          channels := Published(f.channels, ids, event, limits.subscriberQueue),
          subscribers := SetSubscribers(f.subscribers, run, WithRoom(f.channels, ids, limits.subscriberQueue)),
          log := f.log[run := LogOf(f.log, run) + [event]],
          clock := enforceAt),
       Ok(event))
  }

  // ----- subscribing -------------------------------------------------------------

  function Subscribe(f: Feed, run: RunScope): (Feed, Result<Option<nat>, StoreError>) {
    if !ValidRunScope(run) then (f, Err(InvalidRequest))
    else
      var id := f.nextSubscriberID + 1;
      if !Correlates(f.active, run) || IsTerminal(f.active[run.chat].state)
      then (f.(nextSubscriberID := id), Ok(None))
      else
        (f.(nextSubscriberID := id,
            subscribers := f.subscribers[run := SubscribersOf(f.subscribers, run) + {id}],
            channels := f.channels[id := Channel([], false)],
            origin := f.origin[id := Origin(run, |LogOf(f.log, run)|)]),
         Ok(Some(id)))
  }

  function Unsubscribe(f: Feed, run: RunScope, id: nat): Feed {
    var ids := SubscribersOf(f.subscribers, run);
    if run !in f.subscribers then f
    else
      f.(channels := Closed(f.channels, ids * {id}),
         subscribers := SetSubscribers(f.subscribers, run, ids - {id}))
  }

  function CloseSubscribers(f: Feed, run: RunScope): Feed {
    f.(channels := Closed(f.channels, SubscribersOf(f.subscribers, run)), subscribers := f.subscribers - {run})
  }

  datatype Received = Item(event: Event) | Drained | Blocked

  /** One receive: a queued event first, then the end of a closed queue. */
  function Receive(f: Feed, id: nat): (Feed, Received) {
    if id !in f.channels || id !in f.origin then (f, Blocked)
    else
      var channel := f.channels[id];
      if channel.items == [] then (f, if channel.closed then Drained else Blocked)
      else
        (f.(channels := f.channels[id := channel.(items := channel.items[1..])],
            origin := f.origin[id := f.origin[id].(first := f.origin[id].first + 1)]),
         Item(channel.items[0]))
  }

  // ----- replay ---------------------------------------------------------------------

  datatype Cursor = Cursor(epoch: string, run: RunScope, afterEventID: nat)

  function Replay(f: Feed, limits: Limits, epoch: string, cursor: Cursor, now: int)
    : (Feed, Result<ReplayResult, ReplayFailure>)
  {
    var buffer := BufferOf(f.replay, cursor.run);
    if cursor.epoch != epoch || buffer.events == [] then (f, Err(UnavailableAfterRestart))
    else
      var kept := Enforced(buffer, limits, now);
      if kept.events == [] then (f.(replay := f.replay - {cursor.run}, clock := now), Err(UnavailableAfterRestart))
      else (f.(replay := f.replay[cursor.run := kept], clock := now), Answer(kept, cursor.afterEventID))
  }

  // ----- invariant ------------------------------------------------------------------

  ghost predicate LogsOK(f: Feed) {
    forall run | run in f.log :: LogOK(f.log[run], run, f.nextEventID, f.clock)
  }

  ghost predicate BuffersOK(f: Feed) {
    forall run | run in f.replay :: BufferOK(f.replay[run], LogOf(f.log, run))
  }

  /** A queue holds a gap-free stretch of its run's log. */
  ghost predicate ChannelOK(channel: Channel, origin: Origin, log: seq<Event>) {
    && origin.first + |channel.items| <= |log|
    && channel.items == log[origin.first..origin.first + |channel.items|]
  }

  ghost predicate QueueOK(channels: map<nat, Channel>, origin: map<nat, Origin>, log: map<RunScope, seq<Event>>,
                          capacity: int, c: nat)
  {
    && c in channels && c in origin
    && |channels[c].items| <= capacity
    && ChannelOK(channels[c], origin[c], LogOf(log, origin[c].run))
  }

  ghost predicate ChannelsOK(f: Feed, capacity: int) {
    forall c | c in f.channels :: c <= f.nextSubscriberID && QueueOK(f.channels, f.origin, f.log, capacity, c)
  }

  /** A registered queue is open and reaches the end of the log, so a send on it never
      hits a closed queue and no queue is closed twice. */
  ghost predicate Registered(channels: map<nat, Channel>, origin: map<nat, Origin>, log: map<RunScope, seq<Event>>,
                             run: RunScope, c: nat)
  {
    && c in channels && c in origin
    && origin[c].run == run
    && !channels[c].closed
    && origin[c].first + |channels[c].items| == |LogOf(log, run)|
  }

  ghost predicate SubscribersOK(f: Feed) {
    forall run, c | c in SubscribersOf(f.subscribers, run) :: Registered(f.channels, f.origin, f.log, run, c)
  }

  /** No open queue is forgotten. */
  ghost predicate OpenOnesRegistered(f: Feed) {
    forall c | c in f.channels && c in f.origin && !f.channels[c].closed ::
      c in SubscribersOf(f.subscribers, f.origin[c].run)
  }

  ghost predicate FeedOK(f: Feed, limits: Limits) {
    && limits.Normalized()
    && LogsOK(f) && BuffersOK(f) && ChannelsOK(f, limits.subscriberQueue) && SubscribersOK(f) && OpenOnesRegistered(f)
  }

  lemma LogExtends(log: seq<Event>, run: RunScope, next: nat, clock: int, event: Event, clock': int)
    requires LogOK(log, run, next, clock) && clock <= clock'
    requires event.eventID == next + 1 && event.run == run
    requires UnixMilli(clock) <= event.createdAtUnixMS <= UnixMilli(clock')
    ensures LogOK(log + [event], run, next + 1, clock')
  {
  }

  lemma LogAges(log: seq<Event>, run: RunScope, next: nat, clock: int, next': nat, clock': int)
    requires LogOK(log, run, next, clock) && clock <= clock' && next <= next'
    ensures LogOK(log, run, next', clock')
  {
  }

  lemma ChannelGrows(channel: Channel, origin: Origin, log: seq<Event>, event: Event, capacity: int)
    requires ChannelOK(channel, origin, log) && |channel.items| <= capacity
    ensures ChannelOK(channel, origin, log + [event])
    ensures origin.first + |channel.items| == |log| ==>
              ChannelOK(Offered(channel, event, capacity), origin, log + [event])
    ensures |Offered(channel, event, capacity).items| <= capacity
  {
    var n := origin.first + |channel.items|;
    assert (log + [event])[origin.first..n] == log[origin.first..n];
    if n == |log| {
      assert (log + [event])[origin.first..n + 1] == log[origin.first..n] + [event];
    }
  }

  lemma AppendKeepsLogs(f: Feed, limits: Limits, run: RunScope, body: string, sizeBytes: int, createdAt: int, enforceAt: int)
    requires FeedOK(f, limits) && f.clock <= createdAt <= enforceAt
    ensures LogsOK(Append(f, limits, run, body, sizeBytes, createdAt, enforceAt).0)
  {
    hide Enforced, BufferOK, QueueOK, Registered, Published, SetSubscribers;
    var (g, r) := Append(f, limits, run, body, sizeBytes, createdAt, enforceAt);
    if r.Ok? {
      assert LogOK(LogOf(f.log, run), run, f.nextEventID, f.clock);
      LogExtends(LogOf(f.log, run), run, f.nextEventID, f.clock, r.value, enforceAt);
      forall other | other in g.log && other != run ensures LogOK(g.log[other], other, g.nextEventID, g.clock) {
        LogAges(f.log[other], other, f.nextEventID, f.clock, g.nextEventID, g.clock);
      }
    }
  }

  lemma AppendKeepsBuffers(f: Feed, limits: Limits, run: RunScope, body: string, sizeBytes: int, createdAt: int, enforceAt: int)
    requires BuffersOK(f)
    ensures BuffersOK(Append(f, limits, run, body, sizeBytes, createdAt, enforceAt).0)
  {
    hide Enforced, BufferOK;
    var (g, r) := Append(f, limits, run, body, sizeBytes, createdAt, enforceAt);
    if r.Ok? {
      EmptyBufferOK(LogOf(f.log, run));
      AppendBufferOK(BufferOf(f.replay, run), LogOf(f.log, run), r.value, limits, enforceAt);
      forall other | other in g.replay && other != run ensures BufferOK(g.replay[other], LogOf(g.log, other)) {
        assert LogOf(g.log, other) == LogOf(f.log, other);
      }
    }
  }

  lemma AppendKeepsChannels(f: Feed, limits: Limits, run: RunScope, body: string, sizeBytes: int, createdAt: int, enforceAt: int)
    requires FeedOK(f, limits)
    ensures ChannelsOK(Append(f, limits, run, body, sizeBytes, createdAt, enforceAt).0, limits.subscriberQueue)
  {
    hide Enforced, BufferOK, LogOK, ChannelOK;
    var (g, r) := Append(f, limits, run, body, sizeBytes, createdAt, enforceAt);
    if r.Ok? {
      forall c | c in g.channels ensures QueueOK(g.channels, g.origin, g.log, limits.subscriberQueue, c) {
        assert QueueOK(f.channels, f.origin, f.log, limits.subscriberQueue, c);
        ChannelGrows(f.channels[c], f.origin[c], LogOf(f.log, f.origin[c].run), r.value, limits.subscriberQueue);
        if c in SubscribersOf(f.subscribers, run) {
          assert Registered(f.channels, f.origin, f.log, run, c);
        }
      }
    }
  }

  lemma AppendKeepsSubscribers(f: Feed, limits: Limits, run: RunScope, body: string, sizeBytes: int, createdAt: int, enforceAt: int)
    requires FeedOK(f, limits)
    ensures SubscribersOK(Append(f, limits, run, body, sizeBytes, createdAt, enforceAt).0)
  {
    hide Enforced, BufferOK, LogOK, QueueOK;
    var (g, r) := Append(f, limits, run, body, sizeBytes, createdAt, enforceAt);
    if r.Ok? {
      forall other, c | c in SubscribersOf(g.subscribers, other)
        ensures Registered(g.channels, g.origin, g.log, other, c)
      {
        assert Registered(f.channels, f.origin, f.log, other, c);
        assert c in SubscribersOf(f.subscribers, run) ==> Registered(f.channels, f.origin, f.log, run, c);
      }
    }
  }

  lemma AppendKeepsOpenOnes(f: Feed, limits: Limits, run: RunScope, body: string, sizeBytes: int, createdAt: int, enforceAt: int)
    requires OpenOnesRegistered(f)
    ensures OpenOnesRegistered(Append(f, limits, run, body, sizeBytes, createdAt, enforceAt).0)
  {
    hide Enforced;
  }

  lemma AppendKeepsOK(f: Feed, limits: Limits, run: RunScope, body: string, sizeBytes: int, createdAt: int, enforceAt: int)
    requires FeedOK(f, limits) && f.clock <= createdAt <= enforceAt
    ensures FeedOK(Append(f, limits, run, body, sizeBytes, createdAt, enforceAt).0, limits)
  {
    hide Enforced, BufferOK, LogOK, QueueOK, Registered, Append;
    AppendKeepsLogs(f, limits, run, body, sizeBytes, createdAt, enforceAt);
    AppendKeepsBuffers(f, limits, run, body, sizeBytes, createdAt, enforceAt);
    AppendKeepsChannels(f, limits, run, body, sizeBytes, createdAt, enforceAt);
    AppendKeepsSubscribers(f, limits, run, body, sizeBytes, createdAt, enforceAt);
    AppendKeepsOpenOnes(f, limits, run, body, sizeBytes, createdAt, enforceAt);
  }

  lemma FreshQueueOK(log: map<RunScope, seq<Event>>, run: RunScope)
    ensures ChannelOK(Channel([], false), Origin(run, |LogOf(log, run)|), LogOf(log, run))
  {
  }

  lemma SubscribeKeepsChannels(f: Feed, limits: Limits, run: RunScope)
    requires limits.Normalized() && ChannelsOK(f, limits.subscriberQueue)
    ensures ChannelsOK(Subscribe(f, run).0, limits.subscriberQueue)
  {
    hide BufferOK, LogOK, ChannelOK, LogOf, SubscribersOf, Correlates, IsTerminal, ValidRunScope;
    var (g, r) := Subscribe(f, run);
    FreshQueueOK(f.log, run);
    forall c | c in g.channels
      ensures c <= g.nextSubscriberID && QueueOK(g.channels, g.origin, g.log, limits.subscriberQueue, c)
    {
      if c in f.channels {
        assert QueueOK(f.channels, f.origin, f.log, limits.subscriberQueue, c);
      }
    }
  }

  /** What a successful subscription adds. */
  lemma SubscribeAdds(f: Feed, run: RunScope)
    ensures var (g, r) := Subscribe(f, run); var id := f.nextSubscriberID + 1;
            && g.log == f.log
            && (if r.Ok? && r.value.Some? then
                  && g.channels == f.channels[id := Channel([], false)]
                  && g.origin == f.origin[id := Origin(run, |LogOf(f.log, run)|)]
                  && g.subscribers == f.subscribers[run := SubscribersOf(f.subscribers, run) + {id}]
                else g.channels == f.channels && g.origin == f.origin && g.subscribers == f.subscribers)
  {
    hide LogOf, SubscribersOf, Correlates, IsTerminal, ValidRunScope;
  }

  lemma AddedSubscriber(subscribers: map<RunScope, set<nat>>, run: RunScope, id: nat)
    ensures forall other ::
              SubscribersOf(subscribers[run := SubscribersOf(subscribers, run) + {id}], other) ==
              SubscribersOf(subscribers, other) + (if other == run then {id} else {})
  {
  }

  lemma FreshRegistered(channels: map<nat, Channel>, origin: map<nat, Origin>, log: map<RunScope, seq<Event>>, run: RunScope, id: nat)
    requires id in channels && channels[id] == Channel([], false)
    requires id in origin && origin[id] == Origin(run, |LogOf(log, run)|)
    ensures Registered(channels, origin, log, run, id)
  {
  }

  lemma StaysRegistered(f: Feed, g: Feed, run: RunScope, c: nat, id: nat)
    requires Registered(f.channels, f.origin, f.log, run, c) && g.log == f.log && c != id
    requires g.channels.Keys == f.channels.Keys + {id} && g.origin.Keys == f.origin.Keys + {id}
    requires g.channels[c] == f.channels[c] && g.origin[c] == f.origin[c]
    ensures Registered(g.channels, g.origin, g.log, run, c)
  {
    hide LogOf;
  }

  lemma SubscribeKeepsSubscribers(f: Feed, limits: Limits, run: RunScope)
    requires ChannelsOK(f, limits.subscriberQueue) && SubscribersOK(f)
    ensures SubscribersOK(Subscribe(f, run).0)
  {
    hide Subscribe, SubscribersOf, LogOf, QueueOK, Registered;
    SubscribeAdds(f, run);
    AddedSubscriber(f.subscribers, run, f.nextSubscriberID + 1);
    var (g, r) := Subscribe(f, run);
    var id := f.nextSubscriberID + 1;
    if r.Ok? && r.value.Some? {
      forall other, c | c in SubscribersOf(g.subscribers, other)
        ensures Registered(g.channels, g.origin, g.log, other, c)
      {
        if other == run && c == id {
          FreshRegistered(g.channels, g.origin, g.log, run, id);
        } else {
          assert Registered(f.channels, f.origin, f.log, other, c);
          assert c in f.channels by { RegisteredExists(f, other, c); }
          StaysRegistered(f, g, other, c, id);
        }
      }
    }
  }

  lemma RegisteredExists(f: Feed, run: RunScope, c: nat)
    requires Registered(f.channels, f.origin, f.log, run, c)
    ensures c in f.channels && c in f.origin
  {
  }

  lemma SubscribeKeepsOK(f: Feed, limits: Limits, run: RunScope)
    requires FeedOK(f, limits)
    ensures FeedOK(Subscribe(f, run).0, limits)
  {
    hide BufferOK, LogOK, QueueOK, Registered;
    SubscribeKeepsChannels(f, limits, run);
    SubscribeKeepsSubscribers(f, limits, run);
  }

  function Without(f: Feed, run: RunScope, gone: set<nat>): Feed {
    f.(channels := Closed(f.channels, gone),
       subscribers := SetSubscribers(f.subscribers, run, SubscribersOf(f.subscribers, run) - gone))
  }

  lemma WithoutKeepsChannels(f: Feed, capacity: int, run: RunScope, gone: set<nat>)
    requires ChannelsOK(f, capacity)
    ensures ChannelsOK(Without(f, run, gone), capacity)
  {
    var g := Without(f, run, gone);
    forall c | c in g.channels ensures c <= g.nextSubscriberID && QueueOK(g.channels, g.origin, g.log, capacity, c) {
      assert QueueOK(f.channels, f.origin, f.log, capacity, c);
    }
  }

  lemma WithoutKeepsSubscribers(f: Feed, run: RunScope, gone: set<nat>)
    requires SubscribersOK(f) && gone <= SubscribersOf(f.subscribers, run)
    ensures SubscribersOK(Without(f, run, gone))
  {
    var g := Without(f, run, gone);
    forall other, c | c in SubscribersOf(g.subscribers, other)
      ensures Registered(g.channels, g.origin, g.log, other, c)
    {
      assert Registered(f.channels, f.origin, f.log, other, c);
      assert c in gone ==> Registered(f.channels, f.origin, f.log, run, c);
    }
  }

  /** Taking queues out of a run's set and closing them leaves the rest registered. */
  lemma ClosingKeepsOK(f: Feed, limits: Limits, run: RunScope, gone: set<nat>)
    requires FeedOK(f, limits) && gone <= SubscribersOf(f.subscribers, run)
    ensures FeedOK(Without(f, run, gone), limits)
  {
    hide BufferOK, LogOK, QueueOK, Registered;
    WithoutKeepsChannels(f, limits.subscriberQueue, run, gone);
    WithoutKeepsSubscribers(f, run, gone);
  }

  lemma UnsubscribeKeepsOK(f: Feed, limits: Limits, run: RunScope, id: nat)
    requires FeedOK(f, limits)
    ensures FeedOK(Unsubscribe(f, run, id), limits)
  {
    hide BufferOK, LogOK, QueueOK, Registered;
    var ids := SubscribersOf(f.subscribers, run);
    assert ids - ids * {id} == ids - {id};
    ClosingKeepsOK(f, limits, run, ids * {id});
  }

  lemma CloseSubscribersKeepsOK(f: Feed, limits: Limits, run: RunScope)
    requires FeedOK(f, limits)
    ensures FeedOK(CloseSubscribers(f, run), limits)
  {
    hide BufferOK, LogOK, QueueOK, Registered;
    var ids := SubscribersOf(f.subscribers, run);
    assert ids - ids == {};
    ClosingKeepsOK(f, limits, run, ids);
  }

  lemma TakenFromFront(channel: Channel, origin: Origin, log: seq<Event>)
    requires ChannelOK(channel, origin, log) && channel.items != []
    ensures ChannelOK(channel.(items := channel.items[1..]), origin.(first := origin.first + 1), log)
  {
    var n := origin.first;
    assert log[n..n + |channel.items|][1..] == log[n + 1..n + |channel.items|];
  }

  lemma ReceiveKeepsChannels(f: Feed, capacity: int, id: nat)
    requires ChannelsOK(f, capacity)
    ensures ChannelsOK(Receive(f, id).0, capacity)
  {
    hide ChannelOK;
    var (g, r) := Receive(f, id);
    if r.Item? {
      TakenFromFront(f.channels[id], f.origin[id], LogOf(f.log, f.origin[id].run));
      forall c | c in g.channels ensures c <= g.nextSubscriberID && QueueOK(g.channels, g.origin, g.log, capacity, c) {
        assert QueueOK(f.channels, f.origin, f.log, capacity, c);
      }
    }
  }

  lemma ReceiveKeepsSubscribers(f: Feed, id: nat)
    requires SubscribersOK(f)
    ensures SubscribersOK(Receive(f, id).0)
  {
    var (g, r) := Receive(f, id);
    if r.Item? {
      forall run, c | c in SubscribersOf(g.subscribers, run)
        ensures Registered(g.channels, g.origin, g.log, run, c)
      {
        assert Registered(f.channels, f.origin, f.log, run, c);
      }
    }
  }

  lemma ReceiveKeepsOK(f: Feed, limits: Limits, id: nat)
    requires FeedOK(f, limits)
    ensures FeedOK(Receive(f, id).0, limits)
  {
    hide BufferOK, LogOK, QueueOK, Registered;
    ReceiveKeepsChannels(f, limits.subscriberQueue, id);
    ReceiveKeepsSubscribers(f, id);
  }

  lemma ReplayKeepsBuffers(f: Feed, limits: Limits, epoch: string, cursor: Cursor, now: int)
    requires BuffersOK(f)
    ensures BuffersOK(Replay(f, limits, epoch, cursor, now).0)
  {
    hide Enforced, BufferOK;
    var run := cursor.run;
    if run in f.replay {
      EnforcedBufferOK(f.replay[run], LogOf(f.log, run), limits, now);
    }
  }

  lemma TimePasses(f: Feed, now: int)
    requires LogsOK(f) && f.clock <= now
    ensures LogsOK(f.(clock := now))
  {
    hide LogOK;
    forall run | run in f.log ensures LogOK(f.log[run], run, f.nextEventID, now) {
      LogAges(f.log[run], run, f.nextEventID, f.clock, f.nextEventID, now);
    }
  }

  lemma ReplayKeepsOK(f: Feed, limits: Limits, epoch: string, cursor: Cursor, now: int)
    requires FeedOK(f, limits) && f.clock <= now
    ensures FeedOK(Replay(f, limits, epoch, cursor, now).0, limits)
  {
    hide Enforced, BufferOK, LogOK, QueueOK, Registered;
    ReplayKeepsBuffers(f, limits, epoch, cursor, now);
    TimePasses(f, now);
  }

  lemma ActiveRunsKeepOK(f: Feed, limits: Limits, active: map<Scope, RunRecord>)
    requires FeedOK(f, limits)
    ensures FeedOK(f.(active := active), limits)
  {
    hide BufferOK, LogOK, QueueOK, Registered;
  }

  // ----- every run of the store ---------------------------------------------------

  /** Anything another caller of the store can do to this state. Changes of the active
      runs are unconstrained here, which covers every start, bind, update and removal. */
  datatype FeedOp =
    | OpAppend(run: RunScope, body: string, sizeBytes: int, createdAt: int, enforceAt: int)
    | OpSubscribe(run: RunScope)
    | OpUnsubscribe(run: RunScope, id: nat)
    | OpCloseSubscribers(run: RunScope)
    | OpReceive(id: nat)
    | OpReplay(cursor: Cursor, now: int)
    | OpActiveRuns(active: map<Scope, RunRecord>)

  /** The clock never runs backwards: a step with an older reading does not happen. */
  function ApplyFeed(f: Feed, limits: Limits, epoch: string, op: FeedOp): Feed {
    match op
    case OpAppend(run, body, sizeBytes, createdAt, enforceAt) =>
      if f.clock <= createdAt <= enforceAt then Append(f, limits, run, body, sizeBytes, createdAt, enforceAt).0 else f
    case OpSubscribe(run) => Subscribe(f, run).0
    case OpUnsubscribe(run, id) => Unsubscribe(f, run, id)
    case OpCloseSubscribers(run) => CloseSubscribers(f, run)
    case OpReceive(id) => Receive(f, id).0
    case OpReplay(cursor, now) => if f.clock <= now then Replay(f, limits, epoch, cursor, now).0 else f
    case OpActiveRuns(active) => f.(active := active)
  }

  lemma ApplyKeepsOK(f: Feed, limits: Limits, epoch: string, op: FeedOp)
    requires FeedOK(f, limits)
    ensures FeedOK(ApplyFeed(f, limits, epoch, op), limits)
  {
    hide Append, Subscribe, Unsubscribe, CloseSubscribers, Receive, Replay, BufferOK, LogOK, QueueOK, Registered;
    match op
    case OpAppend(run, body, sizeBytes, createdAt, enforceAt) =>
      if f.clock <= createdAt <= enforceAt {
        AppendKeepsOK(f, limits, run, body, sizeBytes, createdAt, enforceAt);
      }
    case OpSubscribe(run) => SubscribeKeepsOK(f, limits, run);
    case OpUnsubscribe(run, id) => UnsubscribeKeepsOK(f, limits, run, id);
    case OpCloseSubscribers(run) => CloseSubscribersKeepsOK(f, limits, run);
    case OpReceive(id) => ReceiveKeepsOK(f, limits, id);
    case OpReplay(cursor, now) => if f.clock <= now { ReplayKeepsOK(f, limits, epoch, cursor, now); }
    case OpActiveRuns(active) =>
  }

  function ApplyFeedAll(f: Feed, limits: Limits, epoch: string, ops: seq<FeedOp>): Feed {
    if ops == [] then f else ApplyFeed(ApplyFeedAll(f, limits, epoch, ops[..|ops| - 1]), limits, epoch, ops[|ops| - 1])
  }

  /** Whatever the callers do, buffers and queues keep standing for the full log. */
  lemma {:induction false} EveryStateOK(limits: Limits, epoch: string, ops: seq<FeedOp>)
    requires limits.Normalized()
    ensures FeedOK(ApplyFeedAll(EMPTY_FEED, limits, epoch, ops), limits)
  {
    if ops != [] {
      EveryStateOK(limits, epoch, ops[..|ops| - 1]);
      ApplyKeepsOK(ApplyFeedAll(EMPTY_FEED, limits, epoch, ops[..|ops| - 1]), limits, epoch, ops[|ops| - 1]);
    }
  }

  /** Replay refines the full log in every reachable state: a successful answer to an
      event cursor, or to a start that is still available, is exactly the events ever
      appended to that run above the cursor. */
  lemma ReplayRefinesLog(limits: Limits, epoch: string, ops: seq<FeedOp>, cursor: Cursor, now: int)
    requires limits.Normalized()
    ensures var f := ApplyFeedAll(EMPTY_FEED, limits, epoch, ops);
            var r := Replay(f, limits, epoch, cursor, now).1;
            r.Ok? && (cursor.afterEventID > 0 || r.value.fromStartAvailable) ==>
              r.value.events == Above(LogOf(f.log, cursor.run), cursor.afterEventID)
  {
    EveryStateOK(limits, epoch, ops);
    ReplayIsComplete(ApplyFeedAll(EMPTY_FEED, limits, epoch, ops), limits, epoch, cursor, now);
  }

  lemma ReplayIsComplete(f: Feed, limits: Limits, epoch: string, cursor: Cursor, now: int)
    requires FeedOK(f, limits)
    ensures var r := Replay(f, limits, epoch, cursor, now).1;
            r.Ok? && (cursor.afterEventID > 0 || r.value.fromStartAvailable) ==>
              r.value.events == Above(LogOf(f.log, cursor.run), cursor.afterEventID)
  {
    var r := Replay(f, limits, epoch, cursor, now).1;
    if r.Ok? && (cursor.afterEventID > 0 || r.value.fromStartAvailable) {
      var log := LogOf(f.log, cursor.run);
      EnforcedBufferOK(f.replay[cursor.run], log, limits, now);
      AnswerIsComplete(Enforced(f.replay[cursor.run], limits, now), log, cursor.run, f.nextEventID, f.clock,
                       cursor.afterEventID);
    }
  }

  /** A cursor whose own event survives the cut of this very replay is always answered, completely. */
  lemma BufferedCursorReplays(f: Feed, limits: Limits, epoch: string, run: RunScope, now: int, i: nat)
    requires FeedOK(f, limits) && run in f.replay && i < |Enforced(f.replay[run], limits, now).events|
    ensures var id := Enforced(f.replay[run], limits, now).events[i].eventID;
            var r := Replay(f, limits, epoch, Cursor(epoch, run, id), now).1;
            r.Ok? && r.value.events == Above(LogOf(f.log, run), id)
  {
    var log := LogOf(f.log, run);
    EnforcedBufferOK(f.replay[run], log, limits, now);
    EnforcedIsSuffix(f.replay[run], limits, now);
    assert LogOK(log, run, f.nextEventID, f.clock) by {
      assert run in f.log;
    }
    BufferedCursorSucceeds(Enforced(f.replay[run], limits, now), log, run, f.nextEventID, f.clock, i);
  }

  /** It takes two appends: the second run of a store is refused from its start although
      nothing was evicted anywhere. */
  lemma SecondRunRefusedFromStart(limits: Limits, epoch: string, first: RunScope, second: RunScope)
    requires limits.Normalized() && ValidRunScope(first) && ValidRunScope(second) && first != second
    ensures var f := ApplyFeedAll(EMPTY_FEED, limits, epoch, [OpAppend(first, "", 0, 0, 0), OpAppend(second, "", 0, 0, 0)]);
            && Replay(f, limits, epoch, Cursor(epoch, second, 0), 0).1 == Err(CursorEvicted)
            && f.replay[second].events == LogOf(f.log, second) == [Event(2, second, "", 0, 0)]
  {
    hide Append, Replay;
    var op1, op2 := OpAppend(first, "", 0, 0, 0), OpAppend(second, "", 0, 0, 0);
    assert [op1, op2][..1] == [op1] && [op1][..0] == [];
    var f1 := ApplyFeedAll(EMPTY_FEED, limits, epoch, [op1]);
    assert f1 == ApplyFeed(ApplyFeedAll(EMPTY_FEED, limits, epoch, []), limits, epoch, op1);
    assert ApplyFeedAll(EMPTY_FEED, limits, epoch, []) == EMPTY_FEED;
    assert f1 == Append(EMPTY_FEED, limits, first, "", 0, 0, 0).0;
    FirstAppend(EMPTY_FEED, limits, first);
    FirstAppend(f1, limits, second);
    RefusedFromStart(ApplyFeedAll(EMPTY_FEED, limits, epoch, [op1, op2]), limits, epoch, second);
  }

  lemma FirstAppend(f: Feed, limits: Limits, run: RunScope)
    requires limits.Normalized() && ValidRunScope(run) && run !in f.replay && run !in f.log
    ensures var g := Append(f, limits, run, "", 0, 0, 0).0; var e := Event(f.nextEventID + 1, run, "", 0, 0);
            && g.nextEventID == f.nextEventID + 1 && g.clock == 0
            && g.replay == f.replay[run := ReplayBuffer([e], 0, 0)] && g.log == f.log[run := [e]]
  {
    NewEventStays(limits, Event(f.nextEventID + 1, run, "", 0, 0));
  }

  lemma RefusedFromStart(f: Feed, limits: Limits, epoch: string, run: RunScope)
    requires limits.Normalized() && run in f.replay
    requires f.replay[run] == ReplayBuffer([Event(2, run, "", 0, 0)], 0, 0)
    ensures Replay(f, limits, epoch, Cursor(epoch, run, 0), 0).1 == Err(CursorEvicted)
  {
    NewEventStays(limits, Event(2, run, "", 0, 0));
  }

  lemma NewEventStays(limits: Limits, e: Event)
    requires limits.Normalized() && e.sizeBytes == 0 && e.createdAtUnixMS == 0
    ensures Enforced(Pushed(EMPTY_BUFFER, e), limits, 0) == ReplayBuffer([e], 0, 0)
  {
    assert [] + [e] == [e];
  }

  /** Even an incomplete success is a tail of the log: no event in the middle is missing. */
  lemma ReplayIsTail(f: Feed, limits: Limits, epoch: string, cursor: Cursor, now: int)
    requires FeedOK(f, limits) && Replay(f, limits, epoch, cursor, now).1.Ok?
    ensures var log := LogOf(f.log, cursor.run);
            exists k | 0 <= k <= |log| ::
              Replay(f, limits, epoch, cursor, now).1.value.events == Above(log[k..], cursor.afterEventID)
  {
    hide Enforced, Above, LogsOK, ChannelsOK, SubscribersOK, OpenOnesRegistered;
    var log := LogOf(f.log, cursor.run);
    EnforcedBufferOK(f.replay[cursor.run], log, limits, now);
    var kept := Enforced(f.replay[cursor.run], limits, now);
    BufferIsTail(kept, log, cursor.afterEventID);
  }

  lemma BufferIsTail(buffer: ReplayBuffer, log: seq<Event>, afterEventID: nat)
    requires BufferOK(buffer, log)
    ensures exists k | 0 <= k <= |log| :: Above(buffer.events, afterEventID) == Above(log[k..], afterEventID)
  {
    hide Above;
    assert Above(buffer.events, afterEventID) == Above(log[|log| - |buffer.events|..], afterEventID);
  }
}
