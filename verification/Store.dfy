/** The chat state store itself: its fields, updated in place under one lock. Every method is
    one critical section, and its contract ties the new fields to the functions of the model
    modules, about which the run-wide properties are proved. Clock readings are parameters. */
module ChatState {
  import opened Common
  import opened ReplayModel
  import opened RunsModel
  import FM = FeedModel
  import PM = PendingModel
  import IM = IdempotencyModel

  const MINUTE := 60_000 * NANOS_PER_MILLI

  datatype StoreLimits = StoreLimits(feed: Limits, pendingTTL: int, activeRunsCap: int, pendingCap: int, idempotencyCap: int)
  {
    predicate Normalized() {
      feed.Normalized() && pendingTTL > 0 && activeRunsCap > 0 && pendingCap > 0 && idempotencyCap > 0
    }
  }

  function OrDefault(value: int, default: int): int { if value <= 0 then default else value }

  function NormalizedLimits(l: StoreLimits): (r: StoreLimits)
    ensures r.Normalized() && (l.Normalized() ==> r == l)
  {
    StoreLimits(
      Limits(OrDefault(l.feed.replayMaxEvents, 2000), OrDefault(l.feed.replayMaxBytes, 8 * 1024 * 1024),
             OrDefault(l.feed.replayTTL, 30 * MINUTE), OrDefault(l.feed.subscriberQueue, 256)),
      OrDefault(l.pendingTTL, 30 * MINUTE), OrDefault(l.activeRunsCap, 1000), OrDefault(l.pendingCap, 1000),
      OrDefault(l.idempotencyCap, 1000))
  }

  /** The limits of a store: what is given, and for the rest 2000 events, 8 MiB and half an hour
      of replay, queues of 256 events, pending requests for half an hour, and a thousand each of
      runs, pending requests and keys. */
  lemma LimitsVerdict(l: StoreLimits)
    ensures var r := NormalizedLimits(l);
            && r.feed.replayMaxEvents == (if l.feed.replayMaxEvents > 0 then l.feed.replayMaxEvents else 2000)
            && r.feed.replayMaxBytes == (if l.feed.replayMaxBytes > 0 then l.feed.replayMaxBytes else 8_388_608)
            && r.feed.replayTTL == (if l.feed.replayTTL > 0 then l.feed.replayTTL else 1_800_000_000_000)
            && r.feed.subscriberQueue == (if l.feed.subscriberQueue > 0 then l.feed.subscriberQueue else 256)
            && r.pendingTTL == (if l.pendingTTL > 0 then l.pendingTTL else 1_800_000_000_000)
            && r.activeRunsCap == (if l.activeRunsCap > 0 then l.activeRunsCap else 1000)
            && r.pendingCap == (if l.pendingCap > 0 then l.pendingCap else 1000)
            && r.idempotencyCap == (if l.idempotencyCap > 0 then l.idempotencyCap else 1000)
  {
  }

  /** Evicts from the front until the buffer is within its limits. */
  method EnforceReplayLimits(full: ReplayBuffer, limits: Limits, now: int) returns (buffer: ReplayBuffer)
    ensures buffer == Enforced(full, limits, now)
  {
    buffer := full;
    while buffer.events != []
      invariant Enforced(buffer, limits, now) == Enforced(full, limits, now)
      decreases |buffer.events|
    {
      var oldest := buffer.events[0];
      var tooManyEvents := |buffer.events| > limits.replayMaxEvents;
      var tooManyBytes := buffer.bytes > limits.replayMaxBytes;
      var expired := now - oldest.createdAtUnixMS * NANOS_PER_MILLI > limits.replayTTL;
      if !tooManyEvents && !tooManyBytes && !expired { return; }
      buffer := buffer.(startEvictedBeforeEventID := oldest.eventID + 1);
      buffer := buffer.(bytes := buffer.bytes - oldest.sizeBytes);
      buffer := buffer.(events := buffer.events[1..]);
    }
  }

  /** The events of a buffer above the cursor, collected front to back. */
  method EventsAbove(events: seq<Event>, afterEventID: nat) returns (result: seq<Event>)
    ensures result == Above(events, afterEventID)
  {
    result := [];
    for i := 0 to |events|
      invariant result == Above(events[..i], afterEventID)
    {
      assert events[..i + 1][..i] == events[..i];
      if events[i].eventID > afterEventID { result := result + [events[i]]; }
    }
    assert events[..|events|] == events;
  }

  /** What a buffer within its limits answers to a cursor. */
  method AnswerCursor(buffer: ReplayBuffer, afterEventID: nat) returns (r: Result<ReplayResult, ReplayFailure>)
    requires buffer.events != []
    ensures r == Answer(buffer, afterEventID)
  {
    hide Above;
    var oldest: int := buffer.events[0].eventID;
    var newest := buffer.events[|buffer.events| - 1].eventID;
    var fromStartAvailable := buffer.startEvictedBeforeEventID == 0;
    if afterEventID < oldest - 1 && !(afterEventID == 0 && !fromStartAvailable) { return Err(CursorEvicted); }
    if afterEventID > newest { return Err(OutOfRange); }
    var events := EventsAbove(buffer.events, afterEventID);
    r := Ok(ReplayResult(events, oldest, newest, fromStartAvailable, buffer.startEvictedBeforeEventID));
  }

  /** Offers the event to each queue in turn, in any order: a full queue is closed and leaves. */
  method OfferToAll(queues: map<nat, FM.Channel>, ids: set<nat>, event: Event, capacity: int)
    returns (after: map<nat, FM.Channel>, kept: set<nat>)
    requires ids <= queues.Keys
    ensures after == FM.Published(queues, ids, event, capacity)
    ensures kept == FM.WithRoom(queues, ids, capacity)
  {
    var todo := ids;
    after, kept := queues, ids;
    while todo != {}
      invariant todo <= ids && after.Keys == queues.Keys
      invariant forall c | c in after ::
                  after[c] == if c in ids && c !in todo then FM.Offered(queues[c], event, capacity) else queues[c]
      invariant forall c :: c in kept <==> c in ids && (c in todo || |queues[c].items| < capacity)
      decreases |todo|
    {
      var id :| id in todo;
      todo := todo - {id};
      if |after[id].items| < capacity {
        after := after[id := after[id].(items := after[id].items + [event])];
      } else {
        kept := kept - {id};
        after := after[id := after[id].(closed := true)];
      }
    }
  }

  /** Closes each queue in turn, in any order. */
  method CloseAll(queues: map<nat, FM.Channel>, ids: set<nat>) returns (after: map<nat, FM.Channel>)
    requires ids <= queues.Keys
    ensures after == FM.Closed(queues, ids)
  {
    var todo := ids;
    after := queues;
    while todo != {}
      invariant todo <= ids && after.Keys == queues.Keys
      invariant forall c | c in after :: after[c] == if c in ids && c !in todo then queues[c].(closed := true) else queues[c]
      decreases |todo|
    {
      var id :| id in todo;
      todo := todo - {id};
      after := after[id := after[id].(closed := true)];
    }
  }

  ghost predicate CapsHold(limits: StoreLimits, runs: Runs, pending: PM.PendingTable, entries: IM.Entries) {
    && runs.Used() <= limits.activeRunsCap
    && |PM.LiveKeys(pending)| <= limits.pendingCap
    && |entries| <= limits.idempotencyCap
  }

  lemma FewerRunsHold(limits: StoreLimits, before: Runs, after: Runs, pending: PM.PendingTable, entries: IM.Entries)
    requires CapsHold(limits, before, pending, entries) && after.Used() <= before.Used()
    ensures CapsHold(limits, after, pending, entries)
  {
  }

  /** The records after a cleanup pass at `now`, if one ran. */
  function SweptPending(pending: PM.PendingTable, limits: StoreLimits, ran: bool, now: int): PM.PendingTable {
    if ran then PM.Cleaned(pending, limits.pendingTTL, now) else pending
  }

  function SweptEntries(entries: IM.Entries, limits: StoreLimits, ran: bool, now: int): IM.Entries {
    if ran then IM.CleanedEntries(entries, limits.feed.replayTTL, now) else entries
  }

  class Store {
    const epoch: string
    const limits: StoreLimits

    var nextEventID: nat
    var nextSubscriberID: nat
    var activeRuns: map<Scope, RunRecord>
    var activeRunReservations: map<IdempotencyScope, Scope>
    var replay: map<RunScope, ReplayBuffer>
    var subscribers: map<RunScope, set<nat>>
    var channels: map<nat, FM.Channel>
    var pending: PM.PendingTable
    var idempotency: IM.Entries

    ghost var log: map<RunScope, seq<Event>>
    ghost var origin: map<nat, FM.Origin>
    ghost var clock: int

    // ----- what the fields stand for ------------------------------------------------

    ghost function Feed(): FM.Feed
      reads this
    {
      FM.Feed(nextEventID, nextSubscriberID, activeRuns, replay, subscribers, channels, log, origin, clock)
    }

    ghost function RunsView(): Runs
      reads `activeRuns, `activeRunReservations
    {
      Runs(activeRuns, activeRunReservations)
    }

    ghost predicate Valid()
      reads this
    {
      && limits.Normalized() && FM.FeedOK(Feed(), limits.feed) && PM.TableOK(pending)
      && CapsHold(limits, RunsView(), pending, idempotency)
    }

    constructor (epoch: string, options: StoreLimits)
      ensures Valid() && limits == NormalizedLimits(options) && this.epoch == epoch
      ensures Feed() == FM.EMPTY_FEED && RunsView() == Runs(map[], map[]) && pending == map[] && idempotency == map[]
    {
      this.epoch := epoch;
      limits := NormalizedLimits(options);
      nextEventID, nextSubscriberID := 0, 0;
      activeRuns, activeRunReservations := map[], map[];
      replay, subscribers, channels := map[], map[], map[];
      pending, idempotency := map[], map[];
      log, origin, clock := map[], map[], 0;
    }

    // ----- cleanup ----------------------------------------------------------------------

    method CleanupPending(now: int)
      modifies `pending
      ensures pending == PM.Cleaned(old(pending), limits.pendingTTL, now)
    {
      var keys := pending.Keys;
      while keys != {}
        invariant keys <= old(pending).Keys
        invariant forall k :: k in pending <==>
                    k in old(pending) && (k in keys || !PM.Dropped(old(pending)[k], limits.pendingTTL, now))
        invariant forall k | k in pending :: pending[k] == if k in keys then old(pending)[k] else PM.Marked(old(pending)[k], now)
        decreases |keys|
      {
        var k :| k in keys;
        keys := keys - {k};
        var record := pending[k];
        if PM.Live(record) && UnixMilli(now) > record.expiresAtUnixMS {
          record := record.(status := PM.ExpiredStatus);
          pending := pending[k := record];
        }
        var retainUntil := record.expiresAtUnixMS * NANOS_PER_MILLI;
        if record.resolvedAtUnixMS > 0 {
          retainUntil := record.resolvedAtUnixMS * NANOS_PER_MILLI + limits.pendingTTL;
        }
        if !PM.Live(record) && now > retainUntil {
          pending := pending - {k};
        }
      }
    }

    method CleanupIdempotency(now: int)
      modifies `idempotency
      ensures idempotency == IM.CleanedEntries(old(idempotency), limits.feed.replayTTL, now)
    {
      var keys := idempotency.Keys;
      while keys != {}
        invariant keys <= old(idempotency).Keys
        invariant forall k :: k in idempotency <==>
                    k in old(idempotency) && (k in keys || !IM.Stale(old(idempotency)[k], limits.feed.replayTTL, now))
        invariant forall k | k in idempotency :: idempotency[k] == old(idempotency)[k]
        decreases |keys|
      {
        var k :| k in keys;
        keys := keys - {k};
        var entry := idempotency[k];
        if entry.state != IM.InFlight && now > entry.updatedAtUnixMS * NANOS_PER_MILLI + limits.feed.replayTTL {
          idempotency := idempotency - {k};
        }
      }
    }

    /** One cleanup pass: records are only removed, so every cap still holds. */
    method Cleanup(now: int)
      requires PM.TableOK(pending) && CapsHold(limits, RunsView(), pending, idempotency)
      modifies `pending, `idempotency
      ensures PM.TableOK(pending) && CapsHold(limits, RunsView(), pending, idempotency)
      ensures pending == SweptPending(old(pending), limits, true, now)
      ensures idempotency == SweptEntries(old(idempotency), limits, true, now)
    {
      CleanupPending(now);
      CleanupIdempotency(now);
      PM.CleanupOnlyRemoves(old(pending), limits.pendingTTL, now);
      SubsetSize(PM.LiveKeys(pending), PM.LiveKeys(old(pending)));
      IM.CleanupShrinks(old(idempotency), limits.feed.replayTTL, now);
    }

    // ----- runs and capacity --------------------------------------------------------------

    method StartRun(run: RunScope, idempotencyKey: string, cleanupAt: int, now: int)
      returns (r: Result<RunRecord, StoreError>)
      requires Valid()
      modifies `activeRuns, `pending, `idempotency
      ensures Valid()
      ensures pending == SweptPending(old(pending), limits, ValidRunScope(run), cleanupAt)
      ensures idempotency == SweptEntries(old(idempotency), limits, ValidRunScope(run), cleanupAt)
      ensures (RunsView(), r) == RunsModel.StartRun(old(RunsView()), limits.activeRunsCap, run, idempotencyKey, now)
    {
      hide FM.FeedOK, PM.TableOK, PM.LiveKeys, PM.Cleaned, IM.CleanedEntries, ValidRunScope, ValidIdempotencyScope;
      StartTakesFreeSlot(RunsView(), limits.activeRunsCap, run, idempotencyKey, now);
      if !ValidRunScope(run) { return Err(InvalidRequest); }
      Cleanup(cleanupAt);
      if run.chat in activeRuns && !IsTerminal(activeRuns[run.chat].state) { return Err(AlreadyRunning); }
      if |activeRuns| + |activeRunReservations| >= limits.activeRunsCap { return Err(ResourceExhausted); }
      var record := RunRecord(run.chat, run.runID, Starting, idempotencyKey, UnixMilli(now), UnixMilli(now));
      activeRuns := activeRuns[run.chat := record];
      FM.ActiveRunsKeepOK(old(Feed()), limits.feed, activeRuns);
      r := Ok(record);
    }

    method ReserveActiveRunCapacity(scope: IdempotencyScope, cleanupAt: int) returns (r: Result<(), StoreError>)
      requires Valid()
      modifies `activeRunReservations, `pending, `idempotency
      ensures Valid()
      ensures pending == SweptPending(old(pending), limits, ValidIdempotencyScope(scope), cleanupAt)
      ensures idempotency == SweptEntries(old(idempotency), limits, ValidIdempotencyScope(scope), cleanupAt)
      ensures (RunsView(), r) == RunsModel.ReserveCapacity(old(RunsView()), limits.activeRunsCap, scope)
    {
      hide FM.FeedOK, PM.TableOK, PM.LiveKeys, PM.Cleaned, IM.CleanedEntries, ValidRunScope, ValidIdempotencyScope;
      ReserveTakesFreeSlot(RunsView(), limits.activeRunsCap, scope);
      if !ValidIdempotencyScope(scope) { return Err(InvalidRequest); }
      Cleanup(cleanupAt);
      if scope in activeRunReservations { return Ok(()); }
      if |activeRuns| + |activeRunReservations| >= limits.activeRunsCap { return Err(ResourceExhausted); }
      activeRunReservations := activeRunReservations[scope := Scope(scope.sessionGroupID, scope.workspaceID, scope.chatID)];
      r := Ok(());
    }

    method ReleaseActiveRunCapacity(scope: IdempotencyScope) returns (r: Result<(), StoreError>)
      requires Valid()
      modifies `activeRunReservations
      ensures Valid()
      ensures (RunsView(), r) == RunsModel.ReleaseCapacity(old(RunsView()), scope)
    {
      hide FM.FeedOK, PM.TableOK, PM.LiveKeys, PM.Cleaned, IM.CleanedEntries, ValidRunScope, ValidIdempotencyScope;
      ReleaseKeepsTotal(RunsView(), scope);
      if !ValidIdempotencyScope(scope) { return Err(InvalidRequest); }
      activeRunReservations := activeRunReservations - {scope};
      r := Ok(());
    }

    method StartRunWithReservation(reservation: IdempotencyScope, run: RunScope, idempotencyKey: string, cleanupAt: int, now: int)
      returns (r: Result<RunRecord, StoreError>)
      requires Valid()
      modifies `activeRuns, `activeRunReservations, `pending, `idempotency
      ensures Valid()
      ensures pending == SweptPending(old(pending), limits, ValidIdempotencyScope(reservation) && ValidRunScope(run), cleanupAt)
      ensures idempotency == SweptEntries(old(idempotency), limits, ValidIdempotencyScope(reservation) && ValidRunScope(run), cleanupAt)
      ensures (RunsView(), r) == RunsModel.StartRunWithReservation(old(RunsView()), reservation, run, idempotencyKey, now)
    {
      hide FM.FeedOK, PM.TableOK, PM.LiveKeys, PM.Cleaned, IM.CleanedEntries, ValidRunScope, ValidIdempotencyScope;
      ConsumingKeepsTotal(RunsView(), reservation, run, idempotencyKey, now);
      if !ValidIdempotencyScope(reservation) { return Err(InvalidRequest); }
      if !ValidRunScope(run) { return Err(InvalidRequest); }
      Cleanup(cleanupAt);
      if reservation !in activeRunReservations { return Err(InvalidRequest); }
      if run.chat in activeRuns && !IsTerminal(activeRuns[run.chat].state) { return Err(AlreadyRunning); }
      var record := RunRecord(run.chat, run.runID, Starting, idempotencyKey, UnixMilli(now), UnixMilli(now));
      activeRuns := activeRuns[run.chat := record];
      activeRunReservations := activeRunReservations - {reservation};
      FM.ActiveRunsKeepOK(old(Feed()), limits.feed, activeRuns);
      r := Ok(record);
    }

    method UpdateRunState(run: RunScope, state: RunState, now: int) returns (r: Result<RunRecord, StoreError>)
      requires Valid()
      modifies `activeRuns
      ensures Valid()
      ensures (RunsView(), r) == RunsModel.UpdateRunState(old(RunsView()), run, state, now)
    {
      hide FM.FeedOK, PM.TableOK, PM.LiveKeys, PM.Cleaned, IM.CleanedEntries, ValidRunScope, ValidIdempotencyScope;
      UpdateKeepsTotal(RunsView(), run, state, now);
      if !ValidRunScope(run) { return Err(InvalidRequest); }
      if run.chat !in activeRuns || activeRuns[run.chat].runID != run.runID { return Err(UnknownActiveRun); }
      var record := activeRuns[run.chat].(state := state);
      record := record.(updatedAtUnixMS := UnixMilli(now));
      activeRuns := activeRuns[run.chat := record];
      FM.ActiveRunsKeepOK(old(Feed()), limits.feed, activeRuns);
      r := Ok(record);
    }

    method RestoreRunStateAfterPending(run: RunScope, now: int) returns (r: Result<RunRecord, StoreError>)
      requires Valid()
      modifies `activeRuns
      ensures Valid()
      ensures (RunsView(), r) == RunsModel.RestoreRunStateAfterPending(old(RunsView()), run, now)
    {
      hide FM.FeedOK, PM.TableOK, PM.LiveKeys, PM.Cleaned, IM.CleanedEntries, ValidRunScope, ValidIdempotencyScope;
      RestoreKeepsTotal(RunsView(), run, now);
      if !ValidRunScope(run) { return Err(InvalidRequest); }
      if run.chat !in activeRuns || activeRuns[run.chat].runID != run.runID { return Err(UnknownActiveRun); }
      var record := activeRuns[run.chat];
      if record.state != Interrupting {
        record := record.(state := Running, updatedAtUnixMS := UnixMilli(now));
        activeRuns := activeRuns[run.chat := record];
        FM.ActiveRunsKeepOK(old(Feed()), limits.feed, activeRuns);
      }
      r := Ok(record);
    }

    method BindRunID(run: RunScope, runID: string, now: int) returns (r: Result<RunRecord, StoreError>)
      requires Valid()
      modifies `activeRuns
      ensures Valid()
      ensures (RunsView(), r) == RunsModel.BindRunID(old(RunsView()), run, runID, now)
    {
      hide FM.FeedOK, PM.TableOK, PM.LiveKeys, PM.Cleaned, IM.CleanedEntries, ValidRunScope, ValidIdempotencyScope;
      BindKeepsTotal(RunsView(), run, runID, now);
      if !ValidRunScope(run) { return Err(InvalidRequest); }
      if runID == "" { return Err(InvalidRequest); }
      if run.chat !in activeRuns || activeRuns[run.chat].runID != run.runID { return Err(UnknownActiveRun); }
      var record := activeRuns[run.chat].(runID := runID, updatedAtUnixMS := UnixMilli(now));
      activeRuns := activeRuns[run.chat := record];
      FM.ActiveRunsKeepOK(old(Feed()), limits.feed, activeRuns);
      r := Ok(record);
    }

    /** Closes and forgets every queue of the run. */
    method CloseRunSubscribers(run: RunScope)
      requires FM.SubscribersOf(subscribers, run) <= channels.Keys
      modifies `subscribers, `channels
      ensures channels == FM.Closed(old(channels), FM.SubscribersOf(old(subscribers), run))
      ensures subscribers == old(subscribers) - {run}
    {
      channels := CloseAll(channels, if run in subscribers then subscribers[run] else {});
      subscribers := subscribers - {run};
    }

    lemma RegisteredQueuesExist(run: RunScope)
      requires FM.FeedOK(Feed(), limits.feed)
      ensures FM.SubscribersOf(subscribers, run) <= channels.Keys
    {
      hide BufferOK, LogOK, FM.QueueOK;
      forall c | c in FM.SubscribersOf(subscribers, run) ensures c in channels {
        assert FM.Registered(channels, origin, log, run, c);
      }
    }

    /** Forgets the run and ends its streams. */
    method EndRun(run: RunScope)
      requires FM.FeedOK(Feed(), limits.feed)
      modifies `activeRuns, `subscribers, `channels
      ensures activeRuns == old(activeRuns) - {run.chat} && FM.FeedOK(Feed(), limits.feed)
      ensures Feed() == FM.CloseSubscribers(old(Feed()), run).(active := activeRuns)
    {
      hide FM.FeedOK, FM.Closed;
      activeRuns := activeRuns - {run.chat};
      FM.ActiveRunsKeepOK(old(Feed()), limits.feed, activeRuns);
      FM.CloseSubscribersKeepsOK(Feed(), limits.feed, run);
      RegisteredQueuesExist(run);
      CloseRunSubscribers(run);
    }

    method CompleteRun(run: RunScope, state: RunState, now: int) returns (r: Result<RunRecord, StoreError>)
      requires Valid()
      modifies `activeRuns, `subscribers, `channels
      ensures Valid()
      ensures (RunsView(), r) == RunsModel.CompleteRun(old(RunsView()), run, state, now)
      ensures Feed() == (if r.Ok? then FM.CloseSubscribers(old(Feed()), run) else old(Feed())).(active := activeRuns)
    {
      hide FM.FeedOK, PM.TableOK, CapsHold, ValidRunScope, FM.CloseSubscribers;
      CompleteFreesSlot(RunsView(), run, state, now);
      FewerRunsHold(limits, RunsView(), RunsModel.CompleteRun(RunsView(), run, state, now).0, pending, idempotency);
      if !IsTerminal(state) { return Err(InvalidRequest); }
      if !ValidRunScope(run) { return Err(InvalidRequest); }
      if run.chat !in activeRuns || activeRuns[run.chat].runID != run.runID { return Err(UnknownActiveRun); }
      var record := activeRuns[run.chat].(state := state, updatedAtUnixMS := UnixMilli(now));
      EndRun(run);
      r := Ok(record);
    }

    /** The active run of a chat, if it has one that is not terminal. */
    method ActiveRun(chat: Scope) returns (r: Option<RunRecord>)
      ensures r == if Busy(activeRuns, chat) then Some(activeRuns[chat]) else None
    {
      if chat !in activeRuns || IsTerminal(activeRuns[chat].state) { return None; }
      r := Some(activeRuns[chat]);
    }

    // ----- events --------------------------------------------------------------------------

    /** Offers the event to every queue of the run; a full queue is closed and forgotten. */
    method PublishEvent(run: RunScope, event: Event)
      requires FM.SubscribersOf(subscribers, run) <= channels.Keys
      modifies `subscribers, `channels
      ensures var ids := old(FM.SubscribersOf(subscribers, run)); var capacity := limits.feed.subscriberQueue;
              && channels == FM.Published(old(channels), ids, event, capacity)
              && subscribers == FM.SetSubscribers(old(subscribers), run, FM.WithRoom(old(channels), ids, capacity))
    {
      if run in subscribers {
        var kept;
        channels, kept := OfferToAll(channels, subscribers[run], event, limits.feed.subscriberQueue);
        subscribers := subscribers[run := kept];
      } else {
        assert channels == FM.Published(channels, {}, event, limits.feed.subscriberQueue);
      }
      if run !in subscribers || subscribers[run] == {} {
        subscribers := subscribers - {run};
      }
    }

    /** The part of an append after validation and cleanup. */
    method RecordEvent(run: RunScope, body: string, sizeBytes: nat, createdAt: int, enforceAt: int) returns (record: Event)
      requires ValidRunScope(run) && FM.SubscribersOf(subscribers, run) <= channels.Keys
      modifies `nextEventID, `replay, `subscribers, `channels, `log, `clock
      ensures (Feed(), Ok(record)) == FM.Append(old(Feed()), limits.feed, run, body, sizeBytes, createdAt, enforceAt)
    {
      hide FM.Published, FM.WithRoom, FM.SetSubscribers, Enforced;
      nextEventID := nextEventID + 1;
      record := Event(nextEventID, run, body, UnixMilli(createdAt), sizeBytes);
      var buffer := if run in replay then replay[run] else EMPTY_BUFFER;
      buffer := buffer.(events := buffer.events + [record]);
      buffer := buffer.(bytes := buffer.bytes + record.sizeBytes);
      buffer := EnforceReplayLimits(buffer, limits.feed, enforceAt);
      replay := replay[run := buffer];
      PublishEvent(run, record);
      log := log[run := FM.LogOf(log, run) + [record]];
      clock := enforceAt;
    }

    method AppendEvent(run: RunScope, body: string, sizeBytes: int, cleanupAt: int, createdAt: int, enforceAt: int)
      returns (r: Result<Event, StoreError>)
      requires Valid() && clock <= createdAt <= enforceAt
      modifies `nextEventID, `replay, `subscribers, `channels, `pending, `idempotency, `log, `clock
      ensures Valid()
      ensures pending == SweptPending(old(pending), limits, ValidRunScope(run) && sizeBytes >= 0, cleanupAt)
      ensures idempotency == SweptEntries(old(idempotency), limits, ValidRunScope(run) && sizeBytes >= 0, cleanupAt)
      ensures r.Ok? <==> ValidRunScope(run) && sizeBytes >= 0
      ensures clock == if r.Ok? then enforceAt else old(clock)
      ensures (Feed(), r) == FM.Append(old(Feed()), limits.feed, run, body, sizeBytes, createdAt, enforceAt)
    {
      hide FM.FeedOK, PM.TableOK, CapsHold, PM.Cleaned, IM.CleanedEntries, FM.Published, FM.WithRoom, FM.SetSubscribers, Enforced;
      FM.AppendKeepsOK(Feed(), limits.feed, run, body, sizeBytes, createdAt, enforceAt);
      RegisteredQueuesExist(run);
      if !ValidRunScope(run) { return Err(InvalidRequest); }
      if sizeBytes < 0 { return Err(InvalidRequest); }
      Cleanup(cleanupAt);
      var record := RecordEvent(run, body, sizeBytes, createdAt, enforceAt);
      r := Ok(record);
    }

    method AddQueue(run: RunScope, id: nat)
      modifies `subscribers, `channels, `origin
      ensures Feed() == old(Feed()).(subscribers := old(subscribers)[run := FM.SubscribersOf(old(subscribers), run) + {id}],
                                     channels := old(channels)[id := FM.Channel([], false)],
                                     origin := old(origin)[id := FM.Origin(run, |FM.LogOf(log, run)|)])
    {
      var members := if run in subscribers then subscribers[run] else {};
      channels := channels[id := FM.Channel([], false)];
      subscribers := subscribers[run := members + {id}];
      origin := origin[id := FM.Origin(run, |FM.LogOf(log, run)|)];
    }

    method Subscribe(run: RunScope) returns (r: Result<Option<nat>, StoreError>)
      requires Valid()
      modifies `nextSubscriberID, `subscribers, `channels, `origin
      ensures Valid()
      ensures (Feed(), r) == FM.Subscribe(old(Feed()), run)
    {
      hide FM.FeedOK, PM.TableOK, CapsHold, FM.SubscribersOf, FM.LogOf, ValidRunScope;
      FM.SubscribeKeepsOK(Feed(), limits.feed, run);
      if !ValidRunScope(run) { return Err(InvalidRequest); }
      nextSubscriberID := nextSubscriberID + 1;
      var id := nextSubscriberID;
      if run.chat !in activeRuns || activeRuns[run.chat].runID != run.runID || IsTerminal(activeRuns[run.chat].state) {
        return Ok(None);
      }
      AddQueue(run, id);
      r := Ok(Some(id));
    }

    /** The function handed out by `Subscribe`; calling it again changes nothing. */
    method Unsubscribe(run: RunScope, id: nat)
      requires Valid()
      modifies `subscribers, `channels
      ensures Valid()
      ensures Feed() == FM.Unsubscribe(old(Feed()), run, id)
    {
      hide FM.FeedOK, PM.TableOK, CapsHold;
      FM.UnsubscribeKeepsOK(Feed(), limits.feed, run, id);
      RegisteredQueuesExist(run);
      if run !in subscribers { return; }
      var members := subscribers[run];
      if id in members {
        members := members - {id};
        channels := channels[id := channels[id].(closed := true)];
      }
      assert members == old(subscribers)[run] - {id};
      assert channels == FM.Closed(old(channels), old(subscribers)[run] * {id});
      subscribers := if members == {} then subscribers - {run} else subscribers[run := members];
    }

    /** One receive from a queue. */
    method Receive(id: nat) returns (r: FM.Received)
      requires Valid()
      modifies `channels, `origin
      ensures Valid()
      ensures (Feed(), r) == FM.Receive(old(Feed()), id)
    {
      hide FM.FeedOK, PM.TableOK, CapsHold;
      FM.ReceiveKeepsOK(Feed(), limits.feed, id);
      if id in channels { QueueHasOrigin(id); }
      if id !in channels { return FM.Blocked; }
      if channels[id].items == [] { return if channels[id].closed then FM.Drained else FM.Blocked; }
      r := FM.Item(channels[id].items[0]);
      channels := channels[id := channels[id].(items := channels[id].items[1..])];
      origin := origin[id := origin[id].(first := origin[id].first + 1)];
    }

    lemma QueueHasOrigin(id: nat)
      requires FM.FeedOK(Feed(), limits.feed) && id in channels
      ensures id in origin
    {
      assert FM.QueueOK(channels, origin, log, limits.feed.subscriberQueue, id);
    }

    method Replay(cursor: FM.Cursor, cleanupAt: int, now: int) returns (r: Result<ReplayResult, ReplayFailure>)
      requires Valid() && clock <= now
      modifies `replay, `pending, `idempotency, `clock
      ensures Valid()
      ensures pending == SweptPending(old(pending), limits, true, cleanupAt)
      ensures idempotency == SweptEntries(old(idempotency), limits, true, cleanupAt)
      ensures (Feed(), r) == FM.Replay(old(Feed()), limits.feed, epoch, cursor, now)
    {
      hide FM.FeedOK, PM.TableOK, CapsHold, PM.Cleaned, IM.CleanedEntries, Answer, Enforced;
      FM.ReplayKeepsOK(Feed(), limits.feed, epoch, cursor, now);
      Cleanup(cleanupAt);
      if cursor.epoch != epoch { return Err(UnavailableAfterRestart); }
      var run := cursor.run;
      if run !in replay || replay[run].events == [] { return Err(UnavailableAfterRestart); }
      var buffer := EnforceReplayLimits(replay[run], limits.feed, now);
      KeepBuffer(run, buffer, now);
      if buffer.events == [] { return Err(UnavailableAfterRestart); }
      r := AnswerCursor(buffer, cursor.afterEventID);
    }

    /** An empty buffer is forgotten. */
    method KeepBuffer(run: RunScope, buffer: ReplayBuffer, now: int)
      modifies `replay, `clock
      ensures Feed() == old(Feed()).(clock := now, replay := if buffer.events == [] then old(replay) - {run}
                                                              else old(replay)[run := buffer])
    {
      clock := now;
      if buffer.events == [] {
        replay := replay - {run};
      } else {
        replay := replay[run := buffer];
      }
    }

    // ----- pending requests -------------------------------------------------------------------

    /** Counts the live records one by one. */
    method ActivePendingCount() returns (count: nat)
      ensures count == |PM.LiveKeys(pending)|
    {
      count := 0;
      var keys := pending.Keys;
      ghost var seen: set<PM.PendingKey> := {};
      while keys != {}
        invariant keys <= pending.Keys
        invariant forall k :: k in seen <==> k in pending && k !in keys && PM.Live(pending[k])
        invariant count == |seen|
        decreases |keys|
      {
        var k :| k in keys;
        keys := keys - {k};
        if PM.Live(pending[k]) {
          count := count + 1;
          seen := seen + {k};
        }
      }
      assert seen == PM.LiveKeys(pending);
    }

    method AdmitPending(key: PM.PendingKey, ttl: int, now: int) returns (r: PM.Registration)
      modifies `pending
      ensures (pending, r) == PM.Admit(old(pending), limits.pendingCap, limits.pendingTTL, key, ttl, now)
    {
      var count := ActivePendingCount();
      if count >= limits.pendingCap { return PM.Refused(ResourceExhausted); }
      var own := ttl;
      if own <= 0 { own := limits.pendingTTL; }
      var record := PM.PendingRecord(PM.ActiveStatus, UnixMilli(now), UnixMilli(now + own), 0);
      pending := pending[key := record];
      r := PM.Registered(record);
    }

    method RegisterPending(key: PM.PendingKey, ttl: int, cleanupAt: int, now: int) returns (r: PM.Registration)
      requires Valid()
      modifies `pending, `idempotency
      ensures Valid()
      ensures (pending, r) == PM.Register(old(pending), limits.pendingCap, limits.pendingTTL, key, ttl, cleanupAt, now)
      ensures idempotency == SweptEntries(old(idempotency), limits, ValidRunScope(key.run) && key.pendingRequestID != "", cleanupAt)
    {
      hide FM.FeedOK, PM.TableOK, PM.Cleaned, PM.LiveKeys, PM.Admit, IM.CleanedEntries, ValidRunScope, ValidIdempotencyScope;
      PM.StepKeepsTable(pending, limits.pendingCap, limits.pendingTTL, PM.OpRegister(key, ttl, cleanupAt, now));
      if !ValidRunScope(key.run) { return PM.Refused(InvalidRequest); }
      if key.pendingRequestID == "" { return PM.Refused(InvalidRequest); }
      Cleanup(cleanupAt);
      r := AdmitPending(key, ttl, now);
    }

    method RegisterPendingForActiveRun(key: PM.PendingKey, ttl: int, cleanupAt: int, now: int) returns (r: PM.Registration)
      requires Valid()
      modifies `activeRuns, `pending, `idempotency
      ensures Valid()
      ensures (activeRuns, pending, r) ==
              PM.RegisterForActiveRun(old(activeRuns), old(pending), limits.pendingCap, limits.pendingTTL, key, ttl, cleanupAt, now)
      ensures idempotency == SweptEntries(old(idempotency), limits, ValidRunScope(key.run) && key.pendingRequestID != "", cleanupAt)
    {
      hide FM.FeedOK, PM.TableOK, PM.Cleaned, PM.LiveKeys, PM.Admit, IM.CleanedEntries, ValidRunScope;
      PM.StepKeepsTable(pending, limits.pendingCap, limits.pendingTTL, PM.OpRegister(key, ttl, cleanupAt, now));
      if !ValidRunScope(key.run) { return PM.Refused(InvalidRequest); }
      if key.pendingRequestID == "" { return PM.Refused(InvalidRequest); }
      Cleanup(cleanupAt);
      if key.run.chat !in activeRuns || activeRuns[key.run.chat].runID != key.run.runID
         || activeRuns[key.run.chat].state == Interrupting || IsTerminal(activeRuns[key.run.chat].state)
      {
        return PM.NoSuchRun;
      }
      r := AdmitPending(key, ttl, now);
      if !r.Registered? { return; }
      var active := activeRuns[key.run.chat].(state := RunState.Pending);
      activeRuns := activeRuns[key.run.chat := active.(updatedAtUnixMS := UnixMilli(now))];
      FM.ActiveRunsKeepOK(old(Feed()), limits.feed, activeRuns);
    }

    method ClaimPendingResolution(key: PM.PendingKey, cleanupAt: int, now: int) returns (r: Result<PM.PendingRecord, StoreError>)
      requires Valid()
      modifies `pending, `idempotency
      ensures Valid()
      ensures (pending, r) == PM.Claim(old(pending), limits.pendingTTL, key, cleanupAt, now)
      ensures idempotency == SweptEntries(old(idempotency), limits, ValidRunScope(key.run), cleanupAt)
    {
      hide FM.FeedOK, PM.TableOK, PM.Cleaned, PM.LiveKeys, IM.CleanedEntries, ValidRunScope, ValidIdempotencyScope;
      PM.StepKeepsTable(pending, limits.pendingCap, limits.pendingTTL, PM.OpClaim(key, cleanupAt, now));
      if !ValidRunScope(key.run) { return Err(InvalidRequest); }
      Cleanup(cleanupAt);
      if key !in pending { return Err(PendingUnavailable); }
      if UnixMilli(now) > pending[key].expiresAtUnixMS {
        pending := pending[key := pending[key].(status := PM.ExpiredStatus)];
        return Err(PendingUnavailable);
      }
      if pending[key].status != PM.ActiveStatus { return Err(PendingAlreadyResolved); }
      pending := pending[key := pending[key].(status := PM.ClaimedStatus)];
      r := Ok(pending[key]);
    }

    method ReleasePendingResolutionClaim(key: PM.PendingKey, cleanupAt: int, now: int) returns (r: Result<(), StoreError>)
      requires Valid()
      modifies `pending, `idempotency
      ensures Valid()
      ensures (pending, r) == PM.ReleaseClaim(old(pending), limits.pendingTTL, key, cleanupAt, now)
      ensures idempotency == SweptEntries(old(idempotency), limits, ValidRunScope(key.run), cleanupAt)
    {
      hide FM.FeedOK, PM.TableOK, PM.Cleaned, PM.LiveKeys, IM.CleanedEntries, ValidRunScope, ValidIdempotencyScope;
      PM.StepKeepsTable(pending, limits.pendingCap, limits.pendingTTL, PM.OpReleaseClaim(key, cleanupAt, now));
      if !ValidRunScope(key.run) { return Err(InvalidRequest); }
      Cleanup(cleanupAt);
      if key !in pending { return Err(PendingUnavailable); }
      if pending[key].status != PM.ClaimedStatus { return Err(PendingAlreadyResolved); }
      if UnixMilli(now) > pending[key].expiresAtUnixMS {
        pending := pending[key := pending[key].(status := PM.ExpiredStatus)];
        return Err(PendingUnavailable);
      }
      pending := pending[key := pending[key].(status := PM.ActiveStatus)];
      r := Ok(());
    }

    /** The record of a request that can still be answered. */
    method Pending(key: PM.PendingKey, cleanupAt: int) returns (r: Option<PM.PendingRecord>)
      requires Valid()
      modifies `pending, `idempotency
      ensures Valid()
      ensures (pending, r) == PM.Lookup(old(pending), limits.pendingTTL, key, cleanupAt)
      ensures idempotency == SweptEntries(old(idempotency), limits, ValidRunScope(key.run), cleanupAt)
    {
      hide FM.FeedOK, PM.TableOK, PM.Cleaned, PM.LiveKeys, IM.CleanedEntries, ValidRunScope, ValidIdempotencyScope;
      if !ValidRunScope(key.run) { return None; }
      Cleanup(cleanupAt);
      if key !in pending { return None; }
      if pending[key].status != PM.ActiveStatus && pending[key].status != PM.ClaimedStatus { return None; }
      r := Some(pending[key]);
    }

    method ResolvePending(key: PM.PendingKey, cleanupAt: int, now: int) returns (r: Result<PM.PendingRecord, StoreError>)
      requires Valid()
      modifies `pending, `idempotency
      ensures Valid()
      ensures (pending, r) == PM.Resolve(old(pending), limits.pendingTTL, key, cleanupAt, now)
      ensures idempotency == SweptEntries(old(idempotency), limits, ValidRunScope(key.run), cleanupAt)
    {
      hide FM.FeedOK, PM.TableOK, PM.Cleaned, PM.LiveKeys, IM.CleanedEntries, ValidRunScope, ValidIdempotencyScope;
      PM.StepKeepsTable(pending, limits.pendingCap, limits.pendingTTL, PM.OpResolve(key, cleanupAt, now));
      if !ValidRunScope(key.run) { return Err(InvalidRequest); }
      Cleanup(cleanupAt);
      if key !in pending { return Err(PendingUnavailable); }
      if UnixMilli(now) > pending[key].expiresAtUnixMS {
        pending := pending[key := pending[key].(status := PM.ExpiredStatus)];
        return Err(PendingUnavailable);
      }
      if pending[key].status != PM.ActiveStatus && pending[key].status != PM.ClaimedStatus { return Err(PendingAlreadyResolved); }
      pending := pending[key := pending[key].(status := PM.ResolvedStatus, resolvedAtUnixMS := UnixMilli(now))];
      r := Ok(pending[key]);
    }

    // ----- idempotency ---------------------------------------------------------------------------

    method ReserveIdempotency(scope: IdempotencyScope, cleanupAt: int, now: int) returns (r: IM.Reservation)
      requires Valid()
      modifies `pending, `idempotency
      ensures Valid() && pending == SweptPending(old(pending), limits, ValidIdempotencyScope(scope), cleanupAt)
      ensures (idempotency, r) ==
              IM.Reserve(old(idempotency), limits.idempotencyCap, limits.feed.replayTTL, scope, cleanupAt, now)
    {
      hide FM.FeedOK, PM.TableOK, PM.Cleaned, PM.LiveKeys, IM.CleanedEntries, ValidRunScope, ValidIdempotencyScope;
      if !ValidIdempotencyScope(scope) { return IM.NotReserved(InvalidRequest); }
      Cleanup(cleanupAt);
      var storeKey := IM.KeyOf(scope);
      if storeKey in idempotency {
        if idempotency[storeKey].scope != scope { return IM.NotReserved(IdempotencyScopeMismatch); }
        return IM.Reused(idempotency[storeKey]);
      }
      if |idempotency| >= limits.idempotencyCap { return IM.NotReserved(ResourceExhausted); }
      var entry := IM.Entry(scope, IM.InFlight, UnixMilli(now), UnixMilli(now));
      idempotency := idempotency[storeKey := entry];
      r := IM.Fresh(entry);
    }

    method CompleteIdempotency(scope: IdempotencyScope, result: IM.ResultRef, cleanupAt: int, now: int)
      returns (r: Result<IM.Entry, StoreError>)
      requires Valid()
      modifies `pending, `idempotency
      ensures Valid() && pending == SweptPending(old(pending), limits, ValidIdempotencyScope(scope), cleanupAt)
      ensures (idempotency, r) == IM.Complete(old(idempotency), limits.feed.replayTTL, scope, result, cleanupAt, now)
    {
      hide FM.FeedOK, PM.TableOK, PM.Cleaned, PM.LiveKeys, IM.CleanedEntries, ValidRunScope, ValidIdempotencyScope;
      if !ValidIdempotencyScope(scope) { return Err(InvalidRequest); }
      Cleanup(cleanupAt);
      var storeKey := IM.KeyOf(scope);
      if storeKey !in idempotency || idempotency[storeKey].scope != scope { return Err(IdempotencyUnavailable); }
      var entry := idempotency[storeKey].(state := IM.Succeeded(result));
      entry := entry.(updatedAtUnixMS := UnixMilli(now));
      idempotency := idempotency[storeKey := entry];
      r := Ok(entry);
    }

    method ReleaseIdempotency(scope: IdempotencyScope, cleanupAt: int) returns (r: Result<(), StoreError>)
      requires Valid()
      modifies `pending, `idempotency
      ensures Valid() && pending == SweptPending(old(pending), limits, ValidIdempotencyScope(scope), cleanupAt)
      ensures (idempotency, r) == IM.ReleaseKey(old(idempotency), limits.feed.replayTTL, scope, cleanupAt)
    {
      hide FM.FeedOK, PM.TableOK, PM.Cleaned, PM.LiveKeys, IM.CleanedEntries, ValidRunScope, ValidIdempotencyScope;
      if !ValidIdempotencyScope(scope) { return Err(InvalidRequest); }
      Cleanup(cleanupAt);
      var storeKey := IM.KeyOf(scope);
      if storeKey !in idempotency || idempotency[storeKey].scope != scope { return Err(IdempotencyUnavailable); }
      if idempotency[storeKey].state != IM.InFlight { return Err(IdempotencyUnavailable); }
      IM.RemovalShrinks(idempotency, storeKey);
      idempotency := idempotency - {storeKey};
      r := Ok(());
    }
  }
}
