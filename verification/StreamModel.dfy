/** One event stream against a store that everybody else keeps using. Opening takes three
    critical sections (look the run up, join the subscribers, read the replay); reading
    drains the replay and then the queue. Any store operation of other callers may fall
    between any two of these steps. */
module StreamModel {
  import opened Common
  import opened ReplayModel
  import opened RunsModel
  import opened FeedModel

  datatype NoticeCode = StartEvictedNotice | CursorEvictedNotice | UnavailableNotice

  datatype Message = EventMessage(event: Event) | ReplayNotice(code: NoticeCode) | Narrowed

  datatype EventCursor = EventCursor(epoch: string, chatID: string, runID: string, eventID: nat)

  /** What the caller asks for: a plain id, a cursor that cannot be decoded, or a decoded one. */
  datatype CursorArg = PlainID(afterEventID: nat) | Undecodable | EventAt(cursor: EventCursor)

  datatype Phase =
    | Unopened
    | Found(cursor: Cursor, live: bool)
    | Joined(cursor: Cursor, queue: Option<nat>, joinedAt: nat)
    | Open(cursor: Cursor, queue: Option<nat>, joinedAt: nat)
    | NoRun
    | Refused

  /** The last five fields record history: the events handed to the caller, whether the
      stream opened with a notice, whether it opened stale (see `ReadStep`), how much of the
      log the replayed and delivered events account for, and whether any event was replayed. */
  datatype World = World(
    feed: Feed,
    phase: Phase,
    replay: seq<Message>,
    lastSentID: nat,
    delivered: seq<Event>,
    noticed: bool,
    stale: bool,
    covered: nat,
    replayed: bool)

  const START := World(EMPTY_FEED, Unopened, [], 0, [], false, false, 0, false)

  datatype Action =
    | Others(op: FeedOp)
    | Lookup(chat: Scope, arg: CursorArg)
    | Join
    | Read(now: int)
    | Next
    | Close

  function NewestID(log: seq<Event>): nat {
    if log == [] then 0 else log[|log| - 1].eventID
  }

  function Messages(events: seq<Event>): (r: seq<Message>)
    ensures |r| == |events| && forall i | 0 <= i < |r| :: r[i] == EventMessage(events[i])
  {
    if events == [] then [] else [EventMessage(events[0])] + Messages(events[1..])
  }

  /** The queue of this stream is private: other callers neither receive from it nor drop it. */
  predicate Foreign(w: World, op: FeedOp) {
    match op
    case OpReceive(id) => w.phase.Open? || w.phase.Joined? ==> w.phase.queue != Some(id)
    case OpUnsubscribe(_, id) => w.phase.Open? || w.phase.Joined? ==> w.phase.queue != Some(id)
    case _ => true
  }

  /** No part of a decoded cursor may be missing. */
  predicate Parses(cursor: EventCursor) {
    cursor.epoch != "" && cursor.chatID != "" && cursor.runID != "" && cursor.eventID != 0
  }

  function LookupStep(w: World, epoch: string, chat: Scope, arg: CursorArg): World {
    var busy := Busy(w.feed.active, chat);
    if arg.Undecodable? || (arg.EventAt? && !(Parses(arg.cursor) && arg.cursor.chatID == chat.chatID))
    then w.(phase := Refused)
    else if arg.PlainID? && !busy then w.(phase := NoRun, replay := [Narrowed])
    else
      var run := RunScope(chat, if arg.EventAt? then arg.cursor.runID else w.feed.active[chat].runID);
      var cursor := if arg.EventAt? then Cursor(arg.cursor.epoch, run, arg.cursor.eventID)
                    else Cursor(epoch, run, arg.afterEventID);
      w.(phase := Found(cursor, busy && w.feed.active[chat].runID == run.runID))
  }

  function JoinStep(w: World): World
    requires w.phase.Found?
  {
    var at := w.feed.nextEventID;
    if !w.phase.live then w.(phase := Joined(w.phase.cursor, None, at))
    else
      var (feed, r) := Subscribe(w.feed, w.phase.cursor.run);
      if r.Err? then w.(phase := Refused)
      else w.(feed := feed, phase := Joined(w.phase.cursor, r.value, at))
  }

  /** A cursor beyond the buffer refuses the stream and gives its queue back. */
  function AfterRead(feed: Feed, refused: bool, run: RunScope, queue: Option<nat>): Feed {
    if refused && queue.Some? then Unsubscribe(feed, run, queue.value) else feed
  }

  /** The messages a stream opens with. */
  function Opening(r: Result<ReplayResult, ReplayFailure>, afterEventID: nat): seq<Message> {
    match r
    case Err(OutOfRange) => []
    case Err(CursorEvicted) => [ReplayNotice(CursorEvictedNotice)]
    case Err(UnavailableAfterRestart) => [ReplayNotice(UnavailableNotice)]
    case Ok(result) =>
      (if StartLost(r, afterEventID) then [ReplayNotice(StartEvictedNotice)] else []) + Messages(result.events)
  }

  predicate StartLost(r: Result<ReplayResult, ReplayFailure>, afterEventID: nat) {
    r.Ok? && !r.value.fromStartAvailable && afterEventID == 0
  }

  predicate QueueHasItems(f: Feed, queue: Option<nat>) {
    queue.Some? && queue.value in f.channels && f.channels[queue.value].items != []
  }

  /** A stream opens stale when the replay has nothing above the cursor although events
      were queued since it joined: those are not above the cursor either. */
  function ReadStep(w: World, limits: Limits, epoch: string, now: int): World
    requires w.phase.Joined?
  {
    var cursor := w.phase.cursor;
    var (feed, r) := Replay(w.feed, limits, epoch, cursor, now);
    var refused := r == Err(OutOfRange);
    w.(feed := AfterRead(feed, refused, cursor.run, w.phase.queue),
       phase := if refused then Refused else Open(cursor, w.phase.queue, w.phase.joinedAt),
       replay := Opening(r, cursor.afterEventID),
       noticed := r.Err? || StartLost(r, cursor.afterEventID),
       stale := r.Ok? && !StartLost(r, cursor.afterEventID) && r.value.events == [] && QueueHasItems(w.feed, w.phase.queue),
       covered := |LogOf(feed.log, cursor.run)|,
       replayed := r.Ok? && r.value.events != [])
  }

  /** What one call of Next hands out: a replayed message, a live event, or nothing. */
  function NextStep(w: World): World
    requires w.phase.Open?
  {
    if w.replay != [] then
      var message := w.replay[0];
      if message.EventMessage? then
        w.(replay := w.replay[1..], lastSentID := Max(w.lastSentID, message.event.eventID),
           delivered := w.delivered + [message.event])
      else w.(replay := w.replay[1..])
    else if w.phase.queue.None? then w
    else
      var (feed, r) := Receive(w.feed, w.phase.queue.value);
      if !r.Item? then w
      else if r.event.eventID <= w.lastSentID then w.(feed := feed)
      else w.(feed := feed, lastSentID := r.event.eventID, delivered := w.delivered + [r.event],
              covered := w.covered + 1)
  }

  function Max(a: nat, b: nat): nat { if a < b then b else a }

  function Step(w: World, limits: Limits, epoch: string, action: Action): World {
    match action
    case Others(op) => if Foreign(w, op) then w.(feed := ApplyFeed(w.feed, limits, epoch, op)) else w
    case Lookup(chat, arg) => if w.phase.Unopened? then LookupStep(w, epoch, chat, arg) else w
    case Join => if w.phase.Found? then JoinStep(w) else w
    case Read(now) => if w.phase.Joined? && w.feed.clock <= now then ReadStep(w, limits, epoch, now) else w
    case Next => if w.phase.Open? then NextStep(w) else w
    case Close =>
      if w.phase.Open? && w.phase.queue.Some?
      then w.(feed := Unsubscribe(w.feed, w.phase.cursor.run, w.phase.queue.value)) else w
  }

  function Run(limits: Limits, epoch: string, actions: seq<Action>): World {
    if actions == [] then START
    else Step(Run(limits, epoch, actions[..|actions| - 1]), limits, epoch, actions[|actions| - 1])
  }

  // ----- invariant -----------------------------------------------------------------

  /** The events still waiting in the replayed messages. */
  ghost function Waiting(replay: seq<Message>): seq<Event> {
    if replay == [] then []
    else if replay[0].EventMessage? then [replay[0].event] + Waiting(replay[1..])
    else Waiting(replay[1..])
  }

  lemma {:induction false} WaitingMessages(events: seq<Event>)
    ensures Waiting(Messages(events)) == events
  {
    if events != [] {
      WaitingMessages(events[1..]);
      assert Messages(events)[1..] == Messages(events[1..]);
    }
  }

  ghost function Log(w: World): seq<Event>
    requires w.phase.Joined? || w.phase.Open?
  {
    LogOf(w.feed.log, w.phase.cursor.run)
  }

  /** The queue was made for this run, after `joinedAt` was the newest id. */
  ghost predicate QueueTied(f: Feed, run: RunScope, queue: Option<nat>, joinedAt: nat) {
    && joinedAt <= f.nextEventID
    && (queue.Some? ==>
          && queue.value in f.channels && queue.value in f.origin
          && f.origin[queue.value].run == run
          && f.origin[queue.value].first <= |LogOf(f.log, run)|
          && NewerThan(LogOf(f.log, run), f.origin[queue.value].first, joinedAt))
  }

  ghost predicate NewerThan(log: seq<Event>, first: nat, id: nat) {
    forall i | first <= i < |log| :: log[i].eventID > id
  }

  /** Ids already handed out or waiting increase, and the filter of `Next` is at their end. */
  ghost predicate Ordered(delivered: seq<Event>, waiting: seq<Event>, lastSentID: nat) {
    && IdsIncrease(delivered + waiting)
    && (if delivered == [] then lastSentID == 0 else lastSentID == delivered[|delivered| - 1].eventID)
    && forall i | 0 <= i < |delivered + waiting| :: (delivered + waiting)[i].eventID >= 1
  }

  /** The promise of a stream that opened without a notice: what was delivered and what
      waits is exactly the covered part of the log above the cursor. */
  ghost predicate Complete(log: seq<Event>, all: seq<Event>, covered: nat, afterEventID: nat) {
    covered <= |log| && all == Above(log[..covered], afterEventID)
  }

  /** The queue holds nothing beyond the first uncovered event, and while nothing was
      replayed or delivered it holds nothing before that event either. */
  ghost predicate NoGap(f: Feed, queue: Option<nat>, covered: nat, nothingYet: bool) {
    queue.Some? && queue.value in f.channels && queue.value in f.origin ==>
      var first := f.origin[queue.value].first;
      && first <= covered
      && (nothingYet ==> first == covered || (f.channels[queue.value].closed && f.channels[queue.value].items == []))
  }

  ghost predicate PhaseOK(w: World) {
    && (!w.phase.Open? ==> w.delivered == [] && Waiting(w.replay) == [])
    && (w.phase.Unopened? || w.phase.Found? || w.phase.Joined? ==> !w.noticed && w.replay == [])
    && (w.phase.Joined? || w.phase.Open? ==> QueueTied(w.feed, w.phase.cursor.run, w.phase.queue, w.phase.joinedAt))
  }

  ghost predicate Promise(w: World) {
    w.phase.Open? && !w.noticed && !w.stale ==>
      var all := w.delivered + Waiting(w.replay);
      && Complete(Log(w), all, w.covered, w.phase.cursor.afterEventID)
      && NoGap(w.feed, w.phase.queue, w.covered, all == [])
      && w.phase.cursor.afterEventID <= NewestID(Log(w)[..w.covered])
  }

  ghost predicate Sound(w: World, limits: Limits) {
    && FeedOK(w.feed, limits)
    && Ordered(w.delivered, Waiting(w.replay), w.lastSentID)
    && PhaseOK(w)
    && Promise(w)
  }

  // ----- other callers ---------------------------------------------------------------

  /** Nothing another caller does rewrites a run's log or moves a queue it does not own. */
  lemma OthersOnlyExtend(f: Feed, limits: Limits, epoch: string, op: FeedOp, run: RunScope)
    ensures var g := ApplyFeed(f, limits, epoch, op);
            && f.nextEventID <= g.nextEventID
            && LogOf(f.log, run) <= LogOf(g.log, run)
            && NewerThan(LogOf(g.log, run), |LogOf(f.log, run)|, f.nextEventID)
  {
    match op
    case OpAppend(_, _, _, _, _) =>
    case OpReplay(_, _) =>
    case _ =>
  }

  lemma OthersKeepQueue(f: Feed, limits: Limits, epoch: string, op: FeedOp, c: nat)
    requires c in f.channels && c in f.origin && c <= f.nextSubscriberID && op != OpReceive(c)
    ensures var g := ApplyFeed(f, limits, epoch, op); c in g.channels && c in g.origin && g.origin[c] == f.origin[c]
  {
    match op
    case OpAppend(_, _, _, _, _) =>
    case OpReplay(_, _) =>
    case _ =>
  }

  lemma QueueStaysTied(f: Feed, limits: Limits, epoch: string, op: FeedOp, run: RunScope, queue: Option<nat>, joinedAt: nat)
    requires FeedOK(f, limits) && QueueTied(f, run, queue, joinedAt)
    requires queue.Some? ==> op != OpReceive(queue.value)
    ensures var g := ApplyFeed(f, limits, epoch, op);
            && QueueTied(g, run, queue, joinedAt)
            && (queue.Some? ==> g.origin[queue.value] == f.origin[queue.value])
  {
    OthersOnlyExtend(f, limits, epoch, op, run);
    if queue.Some? {
      OthersKeepQueue(f, limits, epoch, op, queue.value);
      var old0, new0 := LogOf(f.log, run), LogOf(ApplyFeed(f, limits, epoch, op).log, run);
      forall i | f.origin[queue.value].first <= i < |new0| ensures new0[i].eventID > joinedAt {
        if i < |old0| { assert new0[i] == old0[i]; }
      }
    }
  }

  lemma ClosedEmptyStays(f: Feed, limits: Limits, epoch: string, op: FeedOp, c: nat)
    requires FeedOK(f, limits) && c in f.channels && c in f.origin && f.channels[c] == Channel([], true)
    ensures var g := ApplyFeed(f, limits, epoch, op); c in g.channels && g.channels[c] == Channel([], true)
  {
    hide Enforced, BufferOK, LogOK, ChannelOK;
    match op
    case OpAppend(run, _, _, _, _) =>
      assert c in SubscribersOf(f.subscribers, run) ==> Registered(f.channels, f.origin, f.log, run, c);
    case OpSubscribe(_) =>
      assert c <= f.nextSubscriberID;
    case _ =>
  }

  lemma CompleteExtends(log: seq<Event>, log': seq<Event>, all: seq<Event>, covered: nat, afterEventID: nat)
    requires Complete(log, all, covered, afterEventID) && log <= log'
    ensures Complete(log', all, covered, afterEventID)
  {
    assert log'[..covered] == log[..covered];
  }

  lemma OthersKeepPromise(w: World, limits: Limits, epoch: string, op: FeedOp)
    requires FeedOK(w.feed, limits) && w.phase.Open? && Foreign(w, op) && Promise(w)
    requires QueueTied(w.feed, w.phase.cursor.run, w.phase.queue, w.phase.joinedAt)
    ensures Promise(w.(feed := ApplyFeed(w.feed, limits, epoch, op)))
  {
    hide ApplyFeed, FeedOK, Above;
    var v := w.(feed := ApplyFeed(w.feed, limits, epoch, op));
    if !w.noticed && !w.stale {
      QueueStaysTied(w.feed, limits, epoch, op, w.phase.cursor.run, w.phase.queue, w.phase.joinedAt);
      OthersOnlyExtend(w.feed, limits, epoch, op, w.phase.cursor.run);
      CompleteExtends(Log(w), Log(v), w.delivered + Waiting(w.replay), w.covered, w.phase.cursor.afterEventID);
      assert Log(v)[..w.covered] == Log(w)[..w.covered];
      if w.phase.queue.Some? && w.feed.channels[w.phase.queue.value] == Channel([], true) {
        ClosedEmptyStays(w.feed, limits, epoch, op, w.phase.queue.value);
      }
    }
  }

  lemma OthersKeepSound(w: World, limits: Limits, epoch: string, op: FeedOp)
    requires Sound(w, limits) && Foreign(w, op)
    ensures Sound(w.(feed := ApplyFeed(w.feed, limits, epoch, op)), limits)
  {
    hide ApplyFeed, FeedOK, Complete, NoGap;
    ApplyKeepsOK(w.feed, limits, epoch, op);
    if w.phase.Joined? || w.phase.Open? {
      QueueStaysTied(w.feed, limits, epoch, op, w.phase.cursor.run, w.phase.queue, w.phase.joinedAt);
      if w.phase.Open? { OthersKeepPromise(w, limits, epoch, op); }
    }
  }

  // ----- opening ---------------------------------------------------------------------

  /** A fresh queue stands at the end of the log, and so does having none. */
  lemma SubscribeTies(f: Feed, run: RunScope)
    ensures QueueTied(f, run, None, f.nextEventID)
    ensures var (g, r) := Subscribe(f, run); r.Ok? ==> QueueTied(g, run, r.value, f.nextEventID)
  {
    hide LogOf, Correlates, IsTerminal, ValidRunScope, SubscribersOf;
  }

  lemma JoinKeepsPhase(w: World)
    requires PhaseOK(w) && w.phase.Found?
    ensures PhaseOK(JoinStep(w)) && !JoinStep(w).phase.Open?
  {
    hide Subscribe, QueueTied, Waiting;
    SubscribeTies(w.feed, w.phase.cursor.run);
    var r := Subscribe(w.feed, w.phase.cursor.run).1;
    assert r.Ok? || r.Err?;
  }

  lemma JoinKeepsSound(w: World, limits: Limits)
    requires Sound(w, limits) && w.phase.Found?
    ensures Sound(JoinStep(w), limits)
  {
    hide FeedOK, Subscribe, PhaseOK, Ordered;
    SubscribeKeepsOK(w.feed, limits, w.phase.cursor.run);
    JoinKeepsPhase(w);
  }

  lemma AboveOrdered(events: seq<Event>, afterEventID: nat)
    requires IdsIncrease(events) && forall i | 0 <= i < |events| :: events[i].eventID >= 1
    ensures Ordered([], Above(events, afterEventID), 0)
  {
    AboveContents(events, afterEventID);
    var above := Above(events, afterEventID);
    assert [] + above == above;
    forall i | 0 <= i < |above| ensures above[i].eventID >= 1 {
      assert above[i] in events;
    }
  }

  lemma KeptEvents(buffer: ReplayBuffer, log: seq<Event>, run: RunScope, next: nat, clock: int, limits: Limits, now: int)
    requires BufferOK(buffer, log) && LogOK(log, run, next, clock)
    ensures var kept := Enforced(buffer, limits, now).events;
            IdsIncrease(kept) && forall i | 0 <= i < |kept| :: kept[i].eventID >= 1
  {
    hide Enforced, BufferOK;
    var kept := Enforced(buffer, limits, now).events;
    EnforcedBufferOK(buffer, log, limits, now);
    BufferIsLogEnd(Enforced(buffer, limits, now), log);
    var k := |log| - |kept|;
    assert forall i | 0 <= i < |kept| :: kept[i] == log[k + i];
  }

  lemma ReplayedEvents(f: Feed, limits: Limits, epoch: string, cursor: Cursor, now: int)
    requires LogsOK(f) && BuffersOK(f) && Replay(f, limits, epoch, cursor, now).1.Ok?
    ensures Ordered([], Replay(f, limits, epoch, cursor, now).1.value.events, 0)
  {
    KeptEvents(f.replay[cursor.run], LogOf(f.log, cursor.run), cursor.run, f.nextEventID, f.clock, limits, now);
    AboveOrdered(Enforced(f.replay[cursor.run], limits, now).events, cursor.afterEventID);
  }

  lemma OpeningEvents(r: Result<ReplayResult, ReplayFailure>, afterEventID: nat)
    ensures Waiting(Opening(r, afterEventID)) == if r.Ok? then r.value.events else []
  {
    if r.Ok? {
      WaitingMessages(r.value.events);
      var opening := Opening(r, afterEventID);
      if StartLost(r, afterEventID) {
        assert opening[1..] == Messages(r.value.events);
      } else {
        assert opening == Messages(r.value.events);
      }
    }
  }

  lemma ReadFeed(f: Feed, limits: Limits, epoch: string, cursor: Cursor, now: int)
    ensures var g := Replay(f, limits, epoch, cursor, now).0;
            g.log == f.log && g.channels == f.channels && g.origin == f.origin && g.nextEventID == f.nextEventID
  {
  }

  lemma NewestAfterRead(f: Feed, limits: Limits, epoch: string, cursor: Cursor, now: int)
    requires LogsOK(f) && BuffersOK(f) && Replay(f, limits, epoch, cursor, now).1.Ok?
    ensures cursor.afterEventID <= NewestID(LogOf(f.log, cursor.run))
  {
    hide Enforced, BufferOK, LogOK, Above;
    var log := LogOf(f.log, cursor.run);
    var kept := Enforced(f.replay[cursor.run], limits, now);
    EnforcedBufferOK(f.replay[cursor.run], log, limits, now);
    BufferIsLogEnd(kept, log);
    assert kept.events[|kept.events| - 1] == log[|log| - 1];
  }

  /** An empty queue nobody has read from is at the end of the log, unless it was closed. */
  lemma UnreadQueue(f: Feed, limits: Limits, run: RunScope, c: nat, joinedAt: nat)
    requires FeedOK(f, limits) && QueueTied(f, run, Some(c), joinedAt) && f.channels[c].items == []
    ensures f.channels[c] == Channel([], true) || f.origin[c].first == |LogOf(f.log, run)|
  {
    hide BufferOK, LogOK, ChannelOK;
    if !f.channels[c].closed {
      assert Registered(f.channels, f.origin, f.log, run, c);
    }
  }

  lemma ReadPromise(w: World, limits: Limits, epoch: string, now: int)
    requires Sound(w, limits) && w.phase.Joined?
    ensures Promise(ReadStep(w, limits, epoch, now))
  {
    hide Replay, FeedOK, Above, Opening;
    var v := ReadStep(w, limits, epoch, now);
    if v.phase.Open? && !v.noticed && !v.stale {
      var r := Replay(w.feed, limits, epoch, w.phase.cursor, now).1;
      OpeningEvents(r, w.phase.cursor.afterEventID);
      ReadFeed(w.feed, limits, epoch, w.phase.cursor, now);
      assert LogsOK(w.feed) && BuffersOK(w.feed) by { FeedParts(w.feed, limits); }
      ReplayIsComplete(w.feed, limits, epoch, w.phase.cursor, now);
      NewestAfterRead(w.feed, limits, epoch, w.phase.cursor, now);
      assert Log(v)[..|Log(v)|] == Log(v);
      assert v.delivered + Waiting(v.replay) == Waiting(v.replay);
      if w.phase.queue.Some? && w.feed.channels[w.phase.queue.value].items == [] {
        UnreadQueue(w.feed, limits, w.phase.cursor.run, w.phase.queue.value, w.phase.joinedAt);
      }
    }
  }

  lemma FeedParts(f: Feed, limits: Limits)
    requires FeedOK(f, limits)
    ensures LogsOK(f) && BuffersOK(f)
  {
  }

  lemma AfterReadKeepsOK(f: Feed, limits: Limits, epoch: string, cursor: Cursor, now: int, refused: bool, queue: Option<nat>)
    requires FeedOK(f, limits) && f.clock <= now
    ensures FeedOK(AfterRead(Replay(f, limits, epoch, cursor, now).0, refused, cursor.run, queue), limits)
  {
    ReplayKeepsOK(f, limits, epoch, cursor, now);
    if queue.Some? {
      UnsubscribeKeepsOK(Replay(f, limits, epoch, cursor, now).0, limits, cursor.run, queue.value);
    }
  }

  lemma ReadKeepsFeedOK(w: World, limits: Limits, epoch: string, now: int)
    requires FeedOK(w.feed, limits) && w.phase.Joined? && w.feed.clock <= now
    ensures FeedOK(ReadStep(w, limits, epoch, now).feed, limits)
  {
    var r := Replay(w.feed, limits, epoch, w.phase.cursor, now).1;
    AfterReadKeepsOK(w.feed, limits, epoch, w.phase.cursor, now, r == Err(OutOfRange), w.phase.queue);
  }

  lemma ReadKeepsPhase(w: World, limits: Limits, epoch: string, now: int)
    requires PhaseOK(w) && w.phase.Joined?
    ensures PhaseOK(ReadStep(w, limits, epoch, now))
  {
    ReadFeed(w.feed, limits, epoch, w.phase.cursor, now);
    OpeningEvents(Replay(w.feed, limits, epoch, w.phase.cursor, now).1, w.phase.cursor.afterEventID);
  }

  lemma ReadOrdered(w: World, limits: Limits, epoch: string, now: int)
    requires LogsOK(w.feed) && BuffersOK(w.feed) && w.phase.Joined? && w.delivered == [] && w.lastSentID == 0
    ensures var v := ReadStep(w, limits, epoch, now); Ordered(v.delivered, Waiting(v.replay), v.lastSentID)
  {
    var r := Replay(w.feed, limits, epoch, w.phase.cursor, now).1;
    OpeningEvents(r, w.phase.cursor.afterEventID);
    if r.Ok? {
      ReplayedEvents(w.feed, limits, epoch, w.phase.cursor, now);
    }
  }

  lemma ReadKeepsSound(w: World, limits: Limits, epoch: string, now: int)
    requires Sound(w, limits) && w.phase.Joined? && w.feed.clock <= now
    ensures Sound(ReadStep(w, limits, epoch, now), limits)
  {
    ReadKeepsFeedOK(w, limits, epoch, now);
    ReadPromise(w, limits, epoch, now);
    ReadKeepsPhase(w, limits, epoch, now);
    ReadOrdered(w, limits, epoch, now);
  }

  // ----- reading ---------------------------------------------------------------------

  lemma TakeKeepsOrder(delivered: seq<Event>, event: Event, rest: seq<Event>, lastSentID: nat)
    requires Ordered(delivered, [event] + rest, lastSentID)
    ensures Ordered(delivered + [event], rest, Max(lastSentID, event.eventID))
    ensures delivered + [event] + rest == delivered + ([event] + rest)
  {
    var all, n := delivered + ([event] + rest), |delivered|;
    assert delivered + [event] + rest == all;
    assert all[n] == event && (n > 0 ==> all[n - 1] == delivered[n - 1]);
  }

  lemma NextFromReplay(w: World, limits: Limits)
    requires Sound(w, limits) && w.phase.Open? && w.replay != []
    ensures Sound(NextStep(w), limits)
  {
    hide FeedOK, Ordered, Complete, NoGap, QueueTied;
    if w.replay[0].EventMessage? {
      TakeKeepsOrder(w.delivered, w.replay[0].event, Waiting(w.replay[1..]), w.lastSentID);
    }
  }

  lemma LiveItem(w: World, limits: Limits)
    requires Sound(w, limits) && w.phase.Open? && w.phase.queue.Some?
    requires Receive(w.feed, w.phase.queue.value).1.Item?
    ensures var n := w.feed.origin[w.phase.queue.value].first;
            && n < |Log(w)| && Receive(w.feed, w.phase.queue.value).1.event == Log(w)[n]
            && Log(w)[n].eventID > w.phase.joinedAt && Log(w)[n].eventID >= 1
            && IdsIncrease(Log(w))
  {
    hide Enforced, BufferOK, Registered, Complete, NoGap;
    assert QueueOK(w.feed.channels, w.feed.origin, w.feed.log, limits.subscriberQueue, w.phase.queue.value);
  }

  /** A live event is skipped exactly when it is already covered, and otherwise is the
      first uncovered one. */
  lemma SkippedIffCovered(log: seq<Event>, delivered: seq<Event>, covered: nat, afterEventID: nat, lastSentID: nat, n: nat)
    requires IdsIncrease(log) && Complete(log, delivered, covered, afterEventID)
    requires Ordered(delivered, [], lastSentID)
    requires n < |log| && n <= covered && log[n].eventID >= 1 && (delivered == [] ==> n == covered)
    requires afterEventID <= NewestID(log[..covered])
    ensures log[n].eventID <= lastSentID <==> n < covered
    ensures n == covered ==>
              && Complete(log, delivered + [log[n]], covered + 1, afterEventID)
              && afterEventID <= NewestID(log[..covered + 1])
  {
    var done := log[..covered];
    if delivered != [] {
      AboveLast(done, afterEventID);
      assert done[|done| - 1] == log[covered - 1];
    }
    if n == covered {
      assert log[..n + 1][..n] == log[..n];
    }
  }

  lemma ReceiveMoves(f: Feed, limits: Limits, run: RunScope, c: nat, joinedAt: nat)
    requires FeedOK(f, limits) && QueueTied(f, run, Some(c), joinedAt) && Receive(f, c).1.Item?
    ensures var g := Receive(f, c).0;
            && g.log == f.log && c in g.origin && g.origin[c].first == f.origin[c].first + 1
            && QueueTied(g, run, Some(c), joinedAt)
  {
    assert QueueOK(f.channels, f.origin, f.log, limits.subscriberQueue, c);
  }

  lemma NextPromise(w: World, limits: Limits)
    requires Sound(w, limits) && w.phase.Open? && w.phase.queue.Some? && w.replay == []
    requires Receive(w.feed, w.phase.queue.value).1.Item?
    ensures Promise(NextStep(w))
  {
    hide FeedOK, Above, QueueTied;
    ReceiveMoves(w.feed, limits, w.phase.cursor.run, w.phase.queue.value, w.phase.joinedAt);
    if !w.noticed && !w.stale {
      LiveItem(w, limits);
      var n := w.feed.origin[w.phase.queue.value].first;
      assert w.delivered + Waiting(w.replay) == w.delivered;
      var v := NextStep(w);
      assert v.delivered + Waiting(v.replay) == v.delivered;
      SkippedIffCovered(Log(w), w.delivered, w.covered, w.phase.cursor.afterEventID, w.lastSentID, n);
    }
  }

  lemma OrderedExtends(delivered: seq<Event>, lastSentID: nat, event: Event)
    requires Ordered(delivered, [], lastSentID) && event.eventID > lastSentID
    ensures Ordered(delivered + [event], [], event.eventID)
  {
    assert delivered + [] == delivered;
    assert (delivered + [event]) + [] == delivered + [event];
  }

  lemma NextFromQueue(w: World, limits: Limits)
    requires Sound(w, limits) && w.phase.Open? && w.phase.queue.Some? && w.replay == []
    requires Receive(w.feed, w.phase.queue.value).1.Item?
    ensures Sound(NextStep(w), limits)
  {
    ReceiveKeepsOK(w.feed, limits, w.phase.queue.value);
    ReceiveMoves(w.feed, limits, w.phase.cursor.run, w.phase.queue.value, w.phase.joinedAt);
    NextPromise(w, limits);
    var event := Receive(w.feed, w.phase.queue.value).1.event;
    if event.eventID > w.lastSentID {
      OrderedExtends(w.delivered, w.lastSentID, event);
    }
  }

  lemma NextKeepsSound(w: World, limits: Limits)
    requires Sound(w, limits) && w.phase.Open?
    ensures Sound(NextStep(w), limits)
  {
    if w.replay != [] {
      NextFromReplay(w, limits);
    } else if w.phase.queue.Some? && Receive(w.feed, w.phase.queue.value).1.Item? {
      NextFromQueue(w, limits);
    }
  }

  lemma CloseKeepsSound(w: World, limits: Limits)
    requires Sound(w, limits) && w.phase.Open? && w.phase.queue.Some?
    ensures Sound(w.(feed := Unsubscribe(w.feed, w.phase.cursor.run, w.phase.queue.value)), limits)
  {
    hide FeedOK, Above;
    UnsubscribeKeepsOK(w.feed, limits, w.phase.cursor.run, w.phase.queue.value);
    QueueStaysTied(w.feed, limits, "", OpUnsubscribe(w.phase.cursor.run, w.phase.queue.value),
                   w.phase.cursor.run, w.phase.queue, w.phase.joinedAt);
  }

  lemma LookupKeepsSound(w: World, limits: Limits, epoch: string, chat: Scope, arg: CursorArg)
    requires Sound(w, limits) && w.phase.Unopened?
    ensures Sound(LookupStep(w, epoch, chat, arg), limits)
  {
    hide FeedOK, Ordered;
    assert Waiting([Narrowed]) == [];
  }

  lemma StepKeepsSound(w: World, limits: Limits, epoch: string, action: Action)
    requires Sound(w, limits)
    ensures Sound(Step(w, limits, epoch, action), limits)
  {
    hide Sound, LookupStep, JoinStep, ReadStep, NextStep, ApplyFeed, Unsubscribe;
    match action
    case Others(op) => if Foreign(w, op) { OthersKeepSound(w, limits, epoch, op); }
    case Lookup(chat, arg) => if w.phase.Unopened? { LookupKeepsSound(w, limits, epoch, chat, arg); }
    case Join => if w.phase.Found? { JoinKeepsSound(w, limits); }
    case Read(now) => if w.phase.Joined? && w.feed.clock <= now { ReadKeepsSound(w, limits, epoch, now); }
    case Next => if w.phase.Open? { NextKeepsSound(w, limits); }
    case Close =>
      if w.phase.Open? && w.phase.queue.Some? { CloseKeepsSound(w, limits); }
  }

  lemma {:induction false} EveryRunSound(limits: Limits, epoch: string, actions: seq<Action>)
    requires limits.Normalized()
    ensures Sound(Run(limits, epoch, actions), limits)
  {
    if actions != [] {
      EveryRunSound(limits, epoch, actions[..|actions| - 1]);
      StepKeepsSound(Run(limits, epoch, actions[..|actions| - 1]), limits, epoch, actions[|actions| - 1]);
    }
  }

  // ----- main results ------------------------------------------------------------------

  /** Whatever falls between the steps of opening and reading, delivered ids strictly
      increase; and a stream that opened without a notice and not stale has delivered a
      gap-free, duplicate-free prefix of the run's full log above the cursor, also after
      its queue overflowed, was closed, or the run ended. */
  lemma DeliveredIsPrefixOfLog(limits: Limits, epoch: string, actions: seq<Action>)
    requires limits.Normalized()
    ensures var w := Run(limits, epoch, actions);
            && IdsIncrease(w.delivered)
            && (w.phase.Open? && !w.noticed && !w.stale ==>
                  w.delivered <= Above(LogOf(w.feed.log, w.phase.cursor.run), w.phase.cursor.afterEventID))
  {
    hide Run, FeedOK, Above;
    EveryRunSound(limits, epoch, actions);
    var w := Run(limits, epoch, actions);
    assert forall i | 0 <= i < |w.delivered| :: w.delivered[i] == (w.delivered + Waiting(w.replay))[i];
    if w.phase.Open? && !w.noticed && !w.stale {
      AbovePrefix(Log(w), w.covered, w.phase.cursor.afterEventID);
    }
  }

  /** No silent loss: once the replay and a still registered queue are drained, such a
      stream has delivered everything ever appended above its cursor. */
  lemma DrainedMeansCaughtUp(limits: Limits, epoch: string, actions: seq<Action>)
    requires limits.Normalized()
    ensures var w := Run(limits, epoch, actions);
            w.phase.Open? && !w.noticed && !w.stale && w.replay == []
            && w.phase.queue.Some? && w.phase.queue.value in SubscribersOf(w.feed.subscribers, w.phase.cursor.run)
            && w.phase.queue.value in w.feed.channels && w.feed.channels[w.phase.queue.value].items == [] ==>
              w.delivered == Above(LogOf(w.feed.log, w.phase.cursor.run), w.phase.cursor.afterEventID)
  {
    hide Run, BufferOK, LogOK, ChannelOK, Above;
    EveryRunSound(limits, epoch, actions);
    var w := Run(limits, epoch, actions);
    if w.phase.Open? && !w.noticed && !w.stale && w.replay == [] && w.phase.queue.Some?
       && w.phase.queue.value in SubscribersOf(w.feed.subscribers, w.phase.cursor.run)
       && w.phase.queue.value in w.feed.channels && w.feed.channels[w.phase.queue.value].items == []
    {
      assert Registered(w.feed.channels, w.feed.origin, w.feed.log, w.phase.cursor.run, w.phase.queue.value);
      assert Log(w)[..w.covered] == Log(w);
      assert w.delivered + Waiting(w.replay) == w.delivered;
    }
  }

  lemma QueuedAreNewer(f: Feed, limits: Limits, run: RunScope, c: nat, joinedAt: nat)
    requires FeedOK(f, limits) && QueueTied(f, run, Some(c), joinedAt) && f.channels[c].items != []
    ensures NewestID(LogOf(f.log, run)) > joinedAt
  {
    hide BufferOK, LogOK, Registered;
    assert QueueOK(f.channels, f.origin, f.log, limits.subscriberQueue, c);
  }

  /** A cursor no newer than the newest id given out when the stream joined is never stale. */
  lemma OldCursorIsNotStale(w: World, limits: Limits, epoch: string, now: int)
    requires Sound(w, limits) && w.phase.Joined? && w.phase.cursor.afterEventID <= w.phase.joinedAt
    ensures !ReadStep(w, limits, epoch, now).stale
  {
    hide Replay, FeedOK;
    ReplayIsComplete(w.feed, limits, epoch, w.phase.cursor, now);
    if QueueHasItems(w.feed, w.phase.queue) {
      QueuedAreNewer(w.feed, limits, w.phase.cursor.run, w.phase.queue.value, w.phase.joinedAt);
    }
    if Above(Log(w), w.phase.cursor.afterEventID) == [] {
      AboveEmpty(Log(w), w.phase.cursor.afterEventID);
    }
  }

  /** No stream with such a cursor is ever open and stale. */
  ghost predicate OldCursorOK(w: World) {
    w.phase.Open? && w.phase.cursor.afterEventID <= w.phase.joinedAt ==> !w.stale
  }

  lemma OldCursorStep(w: World, limits: Limits, epoch: string, action: Action)
    requires Sound(w, limits) && OldCursorOK(w)
    ensures OldCursorOK(Step(w, limits, epoch, action))
  {
    hide Sound, ApplyFeed, Replay, Unsubscribe, Receive;
    if action.Read? && w.phase.Joined? {
      if w.phase.cursor.afterEventID <= w.phase.joinedAt { OldCursorIsNotStale(w, limits, epoch, action.now); }
    }
  }

  lemma {:induction false} OldCursorsNeverStale(limits: Limits, epoch: string, actions: seq<Action>)
    requires limits.Normalized()
    ensures OldCursorOK(Run(limits, epoch, actions))
  {
    hide OldCursorOK, Step;
    if actions == [] {
      assert OldCursorOK(START) by { OldCursorAtStart(); }
    } else {
      OldCursorsNeverStale(limits, epoch, actions[..|actions| - 1]);
      EveryRunSound(limits, epoch, actions[..|actions| - 1]);
      OldCursorStep(Run(limits, epoch, actions[..|actions| - 1]), limits, epoch, actions[|actions| - 1]);
    }
  }

  lemma OldCursorAtStart()
    ensures OldCursorOK(START)
  {
  }

  /** The promise in terms a caller can check: a stream that opened without a notice, with a
      cursor no newer than the newest id when it subscribed, has delivered a gap-free,
      duplicate-free prefix of the run's full log above the cursor, in every run. */
  lemma OldCursorStreamIsPrefix(limits: Limits, epoch: string, actions: seq<Action>)
    requires limits.Normalized()
    ensures var w := Run(limits, epoch, actions);
            w.phase.Open? && !w.noticed && w.phase.cursor.afterEventID <= w.phase.joinedAt ==>
              w.delivered <= Above(LogOf(w.feed.log, w.phase.cursor.run), w.phase.cursor.afterEventID)
  {
    OldCursorsNeverStale(limits, epoch, actions);
    DeliveredIsPrefixOfLog(limits, epoch, actions);
    hide Run, Above;
  }

  /** The stream's first message is an event that is not above its cursor. */
  ghost predicate RepeatsOld(u: World) {
    && u.phase.Open? && |u.delivered| == 1 && u.delivered[0].eventID <= u.phase.cursor.afterEventID
    && !(u.delivered <= Above(Log(u), u.phase.cursor.afterEventID))
  }

  predicate OpensStale(w: World) { w.phase.Open? && !w.noticed && w.stale }

  /** A stale stream breaks the promise with its very next message: it hands out a queued
      event that is not above the cursor. So the promise holds exactly when not stale. */
  lemma StaleStreamRepeatsOldEvents(w: World, limits: Limits, epoch: string, now: int)
    requires Sound(w, limits) && w.phase.Joined? && OpensStale(ReadStep(w, limits, epoch, now))
    ensures RepeatsOld(NextStep(ReadStep(w, limits, epoch, now)))
  {
    hide Replay, Registered, BufferOK;
    var v := ReadStep(w, limits, epoch, now);
    var u := NextStep(v);
    var cursor := w.phase.cursor;
    ReadFeed(w.feed, limits, epoch, cursor, now);
    ReplayIsComplete(w.feed, limits, epoch, cursor, now);
    assert QueueOK(w.feed.channels, w.feed.origin, w.feed.log, limits.subscriberQueue, w.phase.queue.value);
    AboveEmpty(Log(w), cursor.afterEventID);
    assert v.replay == [];
    AboveSkips(Log(u), |Log(u)|, cursor.afterEventID);
  }

  // ----- when a stream can open stale ----------------------------------------------------

  function Continue(w: World, limits: Limits, epoch: string, more: seq<Action>): World {
    if more == [] then w
    else Step(Continue(w, limits, epoch, more[..|more| - 1]), limits, epoch, more[|more| - 1])
  }

  lemma ContinueOne(w: World, limits: Limits, epoch: string, more: seq<Action>, action: Action)
    ensures Continue(w, limits, epoch, more + [action]) == Step(Continue(w, limits, epoch, more), limits, epoch, action)
  {
    assert (more + [action])[..|more|] == more;
  }

  lemma {:induction false} RunContinues(limits: Limits, epoch: string, actions: seq<Action>, more: seq<Action>)
    ensures Run(limits, epoch, actions + more) == Continue(Run(limits, epoch, actions), limits, epoch, more)
  {
    hide Step;
    if more == [] {
      assert actions + more == actions;
    } else {
      RunContinues(limits, epoch, actions, more[..|more| - 1]);
      assert (actions + more)[..|actions + more| - 1] == actions + more[..|more| - 1];
    }
  }

  /** Cursor and subscribe point stay what they were when the stream joined. */
  predicate KeepsCursor(w: World, cursor: Cursor, joinedAt: nat) {
    w.phase.Refused? || ((w.phase.Joined? || w.phase.Open?) && w.phase.cursor == cursor && w.phase.joinedAt == joinedAt)
  }

  lemma {:induction false} CursorStays(w: World, limits: Limits, epoch: string, more: seq<Action>, cursor: Cursor, joinedAt: nat)
    requires KeepsCursor(w, cursor, joinedAt)
    ensures KeepsCursor(Continue(w, limits, epoch, more), cursor, joinedAt)
  {
    hide ApplyFeed, Replay, Unsubscribe, Receive, Subscribe;
    if more != [] { CursorStays(w, limits, epoch, more[..|more| - 1], cursor, joinedAt); }
  }

  /** A registered queue into which nothing was published yet. */
  ghost predicate Listening(f: Feed, run: RunScope, queue: nat) {
    queue in SubscribersOf(f.subscribers, run) && queue in f.channels && f.channels[queue] == Channel([], false)
  }

  /** A stream that has just joined a live run. */
  ghost predicate JustJoined(w: World, limits: Limits, queue: nat) {
    && FeedOK(w.feed, limits) && w.phase.Joined? && w.phase.queue == Some(queue)
    && ValidRunScope(w.phase.cursor.run) && Listening(w.feed, w.phase.cursor.run, queue)
  }

  lemma JustJoinedPhase(w: World, limits: Limits, queue: nat)
    requires JustJoined(w, limits, queue)
    ensures w.phase.Joined? && w.phase.queue == Some(queue)
  {
  }

  function Elsewhere(run: RunScope): (r: RunScope)
    ensures r != run && (ValidRunScope(run) ==> ValidRunScope(r))
  {
    run.(runID := run.runID + "x")
  }

  function Appending(run: RunScope, at: int): Action { Others(OpAppend(run, "", 0, at, at)) }

  lemma AppendingStep(w: World, limits: Limits, epoch: string, run: RunScope, at: int)
    requires w.feed.clock <= at
    ensures Step(w, limits, epoch, Appending(run, at)) == w.(feed := Append(w.feed, limits, run, "", 0, at, at).0)
  {
    hide Append;
  }

  lemma AppendElsewhereKeepsListening(f: Feed, limits: Limits, run: RunScope, queue: nat)
    requires FeedOK(f, limits) && ValidRunScope(run) && Listening(f, run, queue)
    ensures var g := Append(f, limits, Elsewhere(run), "", 0, f.clock, f.clock).0;
            Listening(g, run, queue) && g.nextEventID == f.nextEventID + 1
  {
    hide Enforced, LogOK, BufferOK, QueueOK;
    assert Registered(f.channels, f.origin, f.log, run, queue);
    assert queue in SubscribersOf(f.subscribers, Elsewhere(run)) ==>
             Registered(f.channels, f.origin, f.log, Elsewhere(run), queue);
  }

  /** An append to another run only uses up an id. */
  lemma AppendElsewhere(w: World, limits: Limits, epoch: string, queue: nat)
    requires JustJoined(w, limits, queue)
    ensures var v := Step(w, limits, epoch, Appending(Elsewhere(w.phase.cursor.run), w.feed.clock));
            && JustJoined(v, limits, queue) && v.phase == w.phase && v.feed.nextEventID == w.feed.nextEventID + 1
  {
    hide FeedOK, Append, Step, Listening;
    var run := Elsewhere(w.phase.cursor.run);
    AppendingStep(w, limits, epoch, run, w.feed.clock);
    AppendKeepsOK(w.feed, limits, run, "", 0, w.feed.clock, w.feed.clock);
    AppendElsewhereKeepsListening(w.feed, limits, w.phase.cursor.run, queue);
  }

  lemma {:induction false} UseUpIDs(w: World, limits: Limits, epoch: string, queue: nat, n: nat) returns (more: seq<Action>)
    requires JustJoined(w, limits, queue)
    ensures var v := Continue(w, limits, epoch, more);
            && JustJoined(v, limits, queue) && v.phase == w.phase && v.feed.nextEventID == w.feed.nextEventID + n
  {
    hide Step, FeedOK, Listening;
    if n == 0 {
      more := [];
    } else {
      var before := UseUpIDs(w, limits, epoch, queue, n - 1);
      var v := Continue(w, limits, epoch, before);
      var bump := Appending(Elsewhere(w.phase.cursor.run), v.feed.clock);
      more := before + [bump];
      AppendElsewhere(v, limits, epoch, queue);
      ContinueOne(w, limits, epoch, before, bump);
    }
  }

  /** An event without size, made just now, survives every cut. */
  lemma {:induction false} NewestStays(buffer: ReplayBuffer, limits: Limits, now: int)
    requires limits.Normalized() && buffer.bytes == SizeSum(buffer.events) && buffer.events != []
    requires var e := buffer.events[|buffer.events| - 1]; e.sizeBytes == 0 && !Expired(e, limits, now)
    ensures var kept := Enforced(buffer, limits, now).events;
            kept != [] && kept[|kept| - 1] == buffer.events[|buffer.events| - 1]
    decreases |buffer.events|
  {
    SizeSumOne(buffer.events);
    if MustEvict(buffer, limits, now) {
      NewestStays(EvictOldest(buffer), limits, now);
    }
  }

  lemma SizeSumOne(events: seq<Event>)
    ensures |events| == 1 ==> SizeSum(events) == events[0].sizeBytes
  {
    assert |events| == 1 ==> events[1..] == [];
  }

  /** The next whole millisecond. */
  function NextMilli(clock: int): (t: int)
    ensures t >= clock && UnixMilli(t) * NANOS_PER_MILLI == t
  {
    (UnixMilli(clock) + 1) * NANOS_PER_MILLI
  }

  /** The newest buffered event of the run, without size and made at `at`. */
  ghost predicate NewestIs(f: Feed, run: RunScope, id: nat, at: int) {
    && run in f.replay
    && var buffer := f.replay[run];
    && buffer.events != [] && buffer.bytes == SizeSum(buffer.events)
    && buffer.events[|buffer.events| - 1] == Event(id, run, "", UnixMilli(at), 0)
  }

  lemma PushedStays(buffer: ReplayBuffer, log: seq<Event>, e: Event, limits: Limits, now: int)
    requires BufferOK(buffer, log) && limits.Normalized() && e.sizeBytes == 0 && !Expired(e, limits, now)
    ensures var kept := Enforced(Pushed(buffer, e), limits, now);
            kept.events != [] && kept.bytes == SizeSum(kept.events) && kept.events[|kept.events| - 1] == e
  {
    hide Enforced, Expired;
    PushedBufferOK(buffer, log, e);
    NewestStays(Pushed(buffer, e), limits, now);
    AppendBufferOK(buffer, log, e, limits, now);
  }

  lemma JustMadeIsNotExpired(e: Event, limits: Limits, at: int)
    requires limits.Normalized() && e.createdAtUnixMS == UnixMilli(at) && UnixMilli(at) * NANOS_PER_MILLI == at
    ensures !Expired(e, limits, at)
  {
  }

  lemma AppendedBuffer(f: Feed, limits: Limits, run: RunScope, at: int)
    requires ValidRunScope(run)
    ensures var e := Event(f.nextEventID + 1, run, "", UnixMilli(at), 0); var g := Append(f, limits, run, "", 0, at, at).0;
            run in g.replay && g.replay[run] == Enforced(Pushed(BufferOf(f.replay, run), e), limits, at)
  {
    hide Enforced, Published, SetSubscribers, Pushed, BufferOf, UnixMilli;
  }

  lemma BufferOfRunOK(f: Feed, limits: Limits, run: RunScope)
    requires FeedOK(f, limits)
    ensures BufferOK(BufferOf(f.replay, run), LogOf(f.log, run))
  {
    hide BufferOK;
    EmptyBufferOK(LogOf(f.log, run));
  }

  lemma AppendBuffersNewest(f: Feed, limits: Limits, run: RunScope, at: int)
    requires FeedOK(f, limits) && ValidRunScope(run) && UnixMilli(at) * NANOS_PER_MILLI == at
    ensures NewestIs(Append(f, limits, run, "", 0, at, at).0, run, f.nextEventID + 1, at)
  {
    hide Append, Enforced, BufferOK, Pushed, SizeSum, BufferOf, LogOf, Expired;
    var e := Event(f.nextEventID + 1, run, "", UnixMilli(at), 0);
    JustMadeIsNotExpired(e, limits, at);
    BufferOfRunOK(f, limits, run);
    PushedStays(BufferOf(f.replay, run), LogOf(f.log, run), e, limits, at);
    AppendedBuffer(f, limits, run, at);
  }

  lemma AppendQueues(f: Feed, limits: Limits, run: RunScope, queue: nat, at: int)
    requires FeedOK(f, limits) && ValidRunScope(run) && Listening(f, run, queue)
    ensures QueueHasItems(Append(f, limits, run, "", 0, at, at).0, Some(queue))
  {
    hide Enforced, LogsOK, BuffersOK, ChannelsOK, SubscribersOK, OpenOnesRegistered;
  }

  /** One append to the run itself: it is the newest event, buffered and queued. */
  lemma AppendHere(w: World, limits: Limits, epoch: string, queue: nat)
    requires JustJoined(w, limits, queue)
    ensures var t := NextMilli(w.feed.clock); var run := w.phase.cursor.run;
            var v := Step(w, limits, epoch, Appending(run, t));
            && FeedOK(v.feed, limits) && v.phase == w.phase && v.feed.clock == t
            && QueueHasItems(v.feed, Some(queue)) && NewestIs(v.feed, run, w.feed.nextEventID + 1, t)
  {
    hide FeedOK, Step, Listening, Enforced, QueueHasItems, NewestIs, NextMilli;
    var t := NextMilli(w.feed.clock);
    var run := w.phase.cursor.run;
    AppendingStep(w, limits, epoch, run, t);
    AppendKeepsOK(w.feed, limits, run, "", 0, t, t);
    AppendBuffersNewest(w.feed, limits, run, t);
    AppendQueues(w.feed, limits, run, queue, t);
  }

  /** A cursor on the newest buffered event is answered with nothing. */
  lemma NewestAnswersNothing(f: Feed, limits: Limits, epoch: string, cursor: Cursor)
    requires FeedOK(f, limits) && cursor.epoch == epoch && UnixMilli(f.clock) * NANOS_PER_MILLI == f.clock
    requires NewestIs(f, cursor.run, cursor.afterEventID, f.clock)
    ensures var r := Replay(f, limits, epoch, cursor, f.clock).1; r.Ok? && r.value.events == []
  {
    hide QueueOK, Registered, Enforced, BufferOK;
    var run, now := cursor.run, f.clock;
    NewestStays(f.replay[run], limits, now);
    var log := LogOf(f.log, run);
    LogOfRunOK(f, limits, run);
    KeptEvents(f.replay[run], log, run, f.nextEventID, f.clock, limits, now);
    var kept := Enforced(f.replay[run], limits, now);
    AboveSkips(kept.events, |kept.events|, cursor.afterEventID);
    assert kept.events[|kept.events|..] == [];
  }

  lemma LogOfRunOK(f: Feed, limits: Limits, run: RunScope)
    requires FeedOK(f, limits)
    ensures LogOK(LogOf(f.log, run), run, f.nextEventID, f.clock)
  {
  }

  lemma ReadOpensStale(w: World, limits: Limits, epoch: string)
    requires FeedOK(w.feed, limits) && w.phase.Joined? && w.phase.cursor.epoch == epoch && w.phase.cursor.afterEventID > 0
    requires QueueHasItems(w.feed, w.phase.queue) && UnixMilli(w.feed.clock) * NANOS_PER_MILLI == w.feed.clock
    requires NewestIs(w.feed, w.phase.cursor.run, w.phase.cursor.afterEventID, w.feed.clock)
    ensures OpensStale(Step(w, limits, epoch, Read(w.feed.clock)))
  {
    hide FeedOK, Replay, NewestIs, QueueHasItems, Unsubscribe;
    NewestAnswersNothing(w.feed, limits, epoch, w.phase.cursor);
  }

  /** Any cursor above the newest id when the stream joined has such a continuation. */
  lemma NewerCursorCanOpenStale(w: World, limits: Limits, epoch: string, queue: nat) returns (more: seq<Action>)
    requires JustJoined(w, limits, queue) && w.phase.cursor.epoch == epoch
    requires w.phase.cursor.afterEventID > w.feed.nextEventID
    ensures OpensStale(Continue(w, limits, epoch, more))
  {
    hide Step, FeedOK, Listening, OpensStale, QueueHasItems, NewestIs, Continue, NextMilli, UnixMilli;
    var bumps := UseUpIDs(w, limits, epoch, queue, w.phase.cursor.afterEventID - w.feed.nextEventID - 1);
    var u := Continue(w, limits, epoch, bumps);
    var here := Appending(w.phase.cursor.run, NextMilli(u.feed.clock));
    AppendHere(u, limits, epoch, queue);
    var v := Step(u, limits, epoch, here);
    ReadOpensStale(v, limits, epoch);
    ContinueOne(w, limits, epoch, bumps, here);
    ContinueOne(w, limits, epoch, bumps + [here], Read(v.feed.clock));
    more := bumps + [here] + [Read(v.feed.clock)];
  }

  /** A stream about to subscribe to a live run, with a cursor of this process. */
  predicate AboutToJoin(w: World, epoch: string) {
    && w.phase.Found? && w.phase.cursor.epoch == epoch
    && JoinStep(w).phase.Joined? && JoinStep(w).phase.queue.Some?
  }

  lemma SubscribeListens(f: Feed, run: RunScope)
    requires var r := Subscribe(f, run).1; r.Ok? && r.value.Some?
    ensures Listening(Subscribe(f, run).0, run, Subscribe(f, run).1.value.value) && ValidRunScope(run)
  {
  }

  lemma JoinedIsListening(w: World, limits: Limits, epoch: string)
    requires Sound(w, limits) && AboutToJoin(w, epoch)
    ensures JustJoined(JoinStep(w), limits, JoinStep(w).phase.queue.value)
  {
    hide FeedOK, Subscribe, Listening;
    SubscribeKeepsOK(w.feed, limits, w.phase.cursor.run);
    SubscribeListens(w.feed, w.phase.cursor.run);
  }

  /** No continuation of a stream with an older cursor opens stale. */
  lemma OlderCursorNeverOpensStale(limits: Limits, epoch: string, actions: seq<Action>, more: seq<Action>)
    requires limits.Normalized() && AboutToJoin(Run(limits, epoch, actions), epoch)
    requires var w := Run(limits, epoch, actions); w.phase.cursor.afterEventID <= w.feed.nextEventID
    ensures !OpensStale(Continue(JoinStep(Run(limits, epoch, actions)), limits, epoch, more))
  {
    var w := Run(limits, epoch, actions);
    var joined := JoinStep(w);
    assert joined == Step(w, limits, epoch, Join);
    assert KeepsCursor(joined, w.phase.cursor, w.feed.nextEventID);
    hide Step, JoinStep, Run, Continue, AboutToJoin;
    CursorStays(joined, limits, epoch, more, w.phase.cursor, w.feed.nextEventID);
    RunContinues(limits, epoch, actions, [Join]);
    ContinueOne(w, limits, epoch, [], Join);
    ContinueNothing(w, limits, epoch);
    RunContinues(limits, epoch, actions + [Join], more);
    OldCursorsNeverStale(limits, epoch, actions + [Join] + more);
  }

  lemma ContinueNothing(w: World, limits: Limits, epoch: string)
    ensures [] + [Join] == [Join] && Continue(w, limits, epoch, []) == w
  {
  }

  /** The exact condition: such a stream can still open stale if and only if its cursor is
      above every id given out when it subscribes. */
  lemma CanOpenStaleIff(limits: Limits, epoch: string, actions: seq<Action>)
    requires limits.Normalized() && AboutToJoin(Run(limits, epoch, actions), epoch)
    ensures var w := Run(limits, epoch, actions);
            (exists more :: OpensStale(Continue(JoinStep(w), limits, epoch, more))) <==>
            w.phase.cursor.afterEventID > w.feed.nextEventID
  {
    hide Run, Step, Continue, OpensStale, Sound, JustJoined, FeedOK;
    var w := Run(limits, epoch, actions);
    if w.phase.cursor.afterEventID > w.feed.nextEventID {
      EveryRunSound(limits, epoch, actions);
      JoinedIsListening(w, limits, epoch);
      JoinStepFields(w, epoch);
      var more := NewerCursorCanOpenStale(JoinStep(w), limits, epoch, JoinStep(w).phase.queue.value);
    } else {
      forall more ensures !OpensStale(Continue(JoinStep(w), limits, epoch, more)) {
        OlderCursorNeverOpensStale(limits, epoch, actions, more);
      }
    }
  }

  lemma JoinStepFields(w: World, epoch: string)
    requires AboutToJoin(w, epoch)
    ensures JoinStep(w).phase.cursor == w.phase.cursor && JoinStep(w).feed.nextEventID == w.feed.nextEventID
  {
  }

  /** Such a stream is reachable: a run is active, and a caller names an event not yet made. */
  lemma StaleStreamIsReachable(limits: Limits, epoch: string, chat: Scope, record: RunRecord)
    requires limits.Normalized() && epoch != ""
    requires ValidRunScope(RunScope(chat, record.runID)) && !IsTerminal(record.state)
    ensures var look := Lookup(chat, EventAt(EventCursor(epoch, chat.chatID, record.runID, 1)));
            var w := Run(limits, epoch, [Others(OpActiveRuns(map[chat := record])), look]);
            w.phase.Found? && exists more :: OpensStale(Continue(JoinStep(w), limits, epoch, more))
  {
    var active := Others(OpActiveRuns(map[chat := record]));
    var look := Lookup(chat, EventAt(EventCursor(epoch, chat.chatID, record.runID, 1)));
    assert [active, look][..1] == [active] && [active][..0] == [];
    assert Run(limits, epoch, []) == START;
    assert Run(limits, epoch, [active]) == Step(START, limits, epoch, active);
    assert Run(limits, epoch, [active, look]) == Step(Step(START, limits, epoch, active), limits, epoch, look);
    CanOpenStaleIff(limits, epoch, [active, look]);
  }
}
