/** Opening and reading one chat event stream, on top of the store. The contracts tie each
    method to the steps of StreamModel; what may happen between those steps, and what is
    promised then, is proved there. */
module ChatStream {
  import opened Common
  import opened ReplayModel
  import opened RunsModel
  import FM = FeedModel
  import ChatState
  import opened StreamModel

  /** What one call of `Next` gives: a message, the end of the stream, or nothing yet (the
      caller would wait for the next event or for its cancellation). */
  datatype Delivery = Delivered(message: Message) | EndOfStream | StillWaiting

  /** `NextStep` taken `n` times. */
  ghost function NextSteps(w: World, n: nat): World
    requires w.phase.Open?
    ensures NextSteps(w, n).phase == w.phase
    decreases n
  {
    if n == 0 then w else NextStep(NextSteps(w, n - 1))
  }

  /** One live step, field by field. */
  lemma LiveStep(w: World)
    requires w.phase.Open? && w.replay == [] && w.phase.queue.Some?
    ensures var (feed, r) := FM.Receive(w.feed, w.phase.queue.value); var v := NextStep(w);
            && v.phase == w.phase && v.replay == w.replay
            && (!r.Item? ==> v == w && feed == w.feed)
            && (r.Item? ==>
                  && v.feed == feed
                  && v.lastSentID == Max(w.lastSentID, r.event.eventID)
                  && v.delivered == w.delivered + (if r.event.eventID > w.lastSentID then [r.event] else [])
                  && w.phase.queue.value in w.feed.channels && w.phase.queue.value in feed.channels
                  && |feed.channels[w.phase.queue.value].items| < |w.feed.channels[w.phase.queue.value].items|)
  {
  }

  class ChatEventStream {
    const store: ChatState.Store
    const scope: RunScope
    const live: Option<nat>
    var replay: seq<Message>
    var lastSentID: nat
    var closed: bool

    constructor (store: ChatState.Store, scope: RunScope, replay: seq<Message>, live: Option<nat>)
      ensures this.store == store && this.scope == scope && this.replay == replay && this.live == live
      ensures lastSentID == 0 && !closed
    {
      this.store, this.scope, this.replay, this.live := store, scope, replay, live;
      lastSentID, closed := 0, false;
    }

    /** The stream and its store are in the state `w` of the model. */
    ghost predicate Shows(w: World)
      reads this, store
    {
      && w.feed == store.Feed() && w.phase.Open? && w.phase.queue == live && w.phase.cursor.run == scope
      && w.replay == replay && w.lastSentID == lastSentID
    }

    /** Replayed messages first, then live events, skipping those already sent. The model
        takes one step for each message and one for each skipped event. */
    method Next(ghost w: World) returns (r: Delivery, ghost n: nat)
      requires store.Valid() && Shows(w) && Sound(w, store.limits.feed)
      modifies `replay, `lastSentID, store`channels, store`origin
      ensures store.Valid() && Shows(NextSteps(w, n)) && Sound(NextSteps(w, n), store.limits.feed)
      ensures NextSteps(w, n).delivered ==
              w.delivered + (if r.Delivered? && r.message.EventMessage? then [r.message.event] else [])
      ensures r.Delivered? || NextStep(NextSteps(w, n)) == NextSteps(w, n)
    {
      hide FM.FeedOK, Sound;
      if |replay| > 0 {
        NextKeepsSound(w, store.limits.feed);
        var message := replay[0];
        replay := replay[1..];
        if message.EventMessage? { lastSentID := Max(lastSentID, message.event.eventID); }
        assert NextSteps(w, 1) == NextStep(NextSteps(w, 0));
        return Delivered(message), 1;
      }
      if live.None? { return EndOfStream, 0; }
      r, n := NextLive(w);
    }

    method NextLive(ghost w: World) returns (r: Delivery, ghost n: nat)
      requires store.Valid() && Shows(w) && Sound(w, store.limits.feed) && replay == [] && live.Some?
      modifies `lastSentID, store`channels, store`origin
      ensures store.Valid() && Shows(NextSteps(w, n)) && Sound(NextSteps(w, n), store.limits.feed)
      ensures r.Delivered? ==> r.message.EventMessage? && NextSteps(w, n).delivered == w.delivered + [r.message.event]
      ensures !r.Delivered? ==> NextSteps(w, n).delivered == w.delivered && NextStep(NextSteps(w, n)) == NextSteps(w, n)
    {
      hide FM.FeedOK, Sound, FM.Receive, NextStep;
      n := 0;
      ghost var v := w;
      while true
        invariant store.Valid() && v == NextSteps(w, n) && Shows(v) && Sound(v, store.limits.feed)
        invariant replay == [] && v.delivered == w.delivered
        decreases if live.value in store.channels then |store.channels[live.value].items| else 0
      {
        NextKeepsSound(v, store.limits.feed);
        LiveStep(v);
        var received := store.Receive(live.value);
        if received == FM.Drained { return EndOfStream, n; }
        if received == FM.Blocked { return StillWaiting, n; }
        v, n := NextStep(v), n + 1;
        if received.event.eventID > lastSentID {
          lastSentID := received.event.eventID;
          return Delivered(EventMessage(received.event)), n;
        }
      }
    }

    /** Gives the queue back once, however often it is called. */
    method Close()
      requires store.Valid()
      modifies `closed, store`subscribers, store`channels
      ensures store.Valid() && closed
      ensures store.Feed() == if old(closed) || live.None? then old(store.Feed())
                              else FM.Unsubscribe(old(store.Feed()), scope, live.value)
    {
      if !closed {
        closed := true;
        if live.Some? { store.Unsubscribe(scope, live.value); }
      }
    }
  }

  /** Opening without interference: the three sections one after the other. */
  ghost function Opened(w: World, limits: Limits, epoch: string, chat: Scope, arg: CursorArg, now: int): World {
    var found := LookupStep(w, epoch, chat, arg);
    if !found.phase.Found? then found
    else
      var joined := JoinStep(found);
      if !joined.phase.Joined? then joined else ReadStep(joined, limits, epoch, now)
  }

  /** The first section: which run to follow from where, and whether it is the active one. */
  method FindRun(store: ChatState.Store, chat: Scope, arg: CursorArg, ghost w: World) returns (phase: Phase)
    requires w.feed == store.Feed()
    ensures var v := LookupStep(w, store.epoch, chat, arg);
            v.phase == phase && v == w.(phase := phase, replay := if phase.NoRun? then [Narrowed] else w.replay)
    ensures phase.Found? || phase.NoRun? || phase.Refused?
  {
    var epoch, run, after := store.epoch, None, 0;
    match arg {
      case Undecodable => return Refused;
      case PlainID(id) => after := id;
      case EventAt(cursor) =>
        if cursor.epoch == "" || cursor.chatID == "" || cursor.runID == "" || cursor.eventID == 0 { return Refused; }
        if cursor.chatID != chat.chatID { return Refused; }
        epoch, run, after := cursor.epoch, Some(cursor.runID), cursor.eventID;
    }
    var active := store.ActiveRun(chat);
    if run.None? && active.Some? { run := Some(active.value.runID); }
    if run.None? { return NoRun; }
    phase := Found(FM.Cursor(epoch, RunScope(chat, run.value), after), active.Some? && active.value.runID == run.value);
  }

  /** The second section: subscribes to an active run; the outer option tells success. */
  method JoinRun(store: ChatState.Store, run: RunScope, isActive: bool, ghost w: World) returns (r: Option<Option<nat>>)
    requires store.Valid() && w.feed == store.Feed()
    requires w.phase.Found? && w.phase.cursor.run == run && w.phase.live == isActive
    modifies store
    ensures store.Valid() && store.clock == old(store.clock)
    ensures var v := JoinStep(w);
            && v.feed == store.Feed()
            && (r.None? <==> v.phase.Refused?)
            && (r.Some? ==> v.phase.Joined? && v.phase.cursor == w.phase.cursor && v.phase.queue == r.value)
  {
    hide FM.FeedOK, FM.LogOf, ValidRunScope;
    if !isActive { return Some(None); }
    var joined := store.Subscribe(run);
    if joined.Err? { return None; }
    r := Some(joined.value);
  }

  /** The messages a successful replay opens with, appended one by one. */
  method OpeningMessages(result: ReplayResult, afterEventID: nat) returns (messages: seq<Message>)
    ensures messages == Opening(Ok(result), afterEventID)
  {
    hide Messages;
    messages := [];
    if !result.fromStartAvailable && afterEventID == 0 { messages := messages + [ReplayNotice(StartEvictedNotice)]; }
    ghost var notice := messages;
    MessagesOfNone(result.events);
    for i := 0 to |result.events|
      invariant messages == notice + Messages(result.events[..i])
    {
      MessagesGrow(result.events, i);
      messages := messages + [EventMessage(result.events[i])];
    }
    assert result.events[..|result.events|] == result.events;
  }

  lemma MessagesOfNone(events: seq<Event>)
    ensures Messages(events[..0]) == []
  {
  }

  lemma MessagesGrow(events: seq<Event>, i: nat)
    requires i < |events|
    ensures Messages(events[..i + 1]) == Messages(events[..i]) + [EventMessage(events[i])]
  {
    MessagesAppend(events[..i], events[i]);
    assert events[..i + 1] == events[..i] + [events[i]];
  }

  lemma {:induction false} MessagesAppend(events: seq<Event>, event: Event)
    ensures Messages(events + [event]) == Messages(events) + [EventMessage(event)]
  {
    if events != [] {
      MessagesAppend(events[1..], event);
      assert (events + [event])[1..] == events[1..] + [event];
    } else {
      assert ([event])[1..] == [];
    }
  }

  /** Reads the replay for a stream that has joined, or gives its queue back. */
  method ReadReplay(store: ChatState.Store, cursor: FM.Cursor, live: Option<nat>, cleanupAt: int, now: int, ghost w: World)
    returns (stream: Option<ChatEventStream>)
    requires store.Valid() && store.clock <= now && w.feed == store.Feed()
    requires w.phase.Joined? && w.phase.cursor == cursor && w.phase.queue == live && w.lastSentID == 0
    modifies store
    ensures store.Valid()
    ensures var v := ReadStep(w, store.limits.feed, store.epoch, now);
            && v.feed == store.Feed()
            && (stream.None? <==> v.phase.Refused?)
            && (stream.Some? ==> fresh(stream.value) && stream.value.store == store && stream.value.Shows(v))
  {
    hide FM.FeedOK, FM.Replay, FM.Unsubscribe, Opening;
    var messages := [];
    var r := store.Replay(cursor, cleanupAt, now);
    OpeningFailures(cursor.afterEventID);
    match r {
      case Err(CursorEvicted) => messages := [ReplayNotice(CursorEvictedNotice)];
      case Err(OutOfRange) =>
        if live.Some? { store.Unsubscribe(cursor.run, live.value); }
        return None;
      case Err(UnavailableAfterRestart) => messages := [ReplayNotice(UnavailableNotice)];
      case Ok(result) => messages := OpeningMessages(result, cursor.afterEventID);
    }
    var reading := new ChatEventStream(store, cursor.run, messages, live);
    stream := Some(reading);
  }

  lemma OpeningFailures(afterEventID: nat)
    ensures Opening(Err(CursorEvicted), afterEventID) == [ReplayNotice(CursorEvictedNotice)]
    ensures Opening(Err(UnavailableAfterRestart), afterEventID) == [ReplayNotice(UnavailableNotice)]
  {
  }

  /** The three sections of opening one after the other. Each of them may also be taken from
      any state other callers leave behind; this method adds only their order. */
  method StreamChatEvents(store: ChatState.Store, chat: Scope, arg: CursorArg, cleanupAt: int, now: int, ghost w: World)
    returns (stream: Option<ChatEventStream>)
    requires store.Valid() && store.clock <= now && w.feed == store.Feed() && w.phase.Unopened? && w.lastSentID == 0
    modifies store
    ensures store.Valid()
    ensures var v := Opened(w, store.limits.feed, store.epoch, chat, arg, now);
            && v.feed == store.Feed()
            && (stream.None? <==> v.phase.Refused?)
            && (stream.Some? ==> fresh(stream.value) && stream.value.store == store)
            && (stream.Some? && v.phase.NoRun? ==> stream.value.live == None && stream.value.replay == [Narrowed])
            && (stream.Some? && !v.phase.NoRun? ==> stream.value.Shows(v))
  {
    hide FM.FeedOK, LookupStep, JoinStep, ReadStep;
    var found := FindRun(store, chat, arg, w);
    if found.Refused? { return None; }
    if found.NoRun? {
      var narrowed := new ChatEventStream(store, RunScope(chat, ""), [Narrowed], None);
      return Some(narrowed);
    }
    ghost var v := LookupStep(w, store.epoch, chat, arg);
    var joined := JoinRun(store, found.cursor.run, found.live, v);
    if joined.None? { return None; }
    JoinKeepsSent(v);
    stream := ReadReplay(store, found.cursor, joined.value, cleanupAt, now, JoinStep(v));
  }

  lemma JoinKeepsSent(w: World)
    requires w.phase.Found?
    ensures JoinStep(w).lastSentID == w.lastSentID
  {
  }
}
