/** What every opened stream delivers, however it opened: a gap-free stretch of its run's log.
    Where the prefix promise above the cursor does not hold, the stretch begins with the
    replayed events, or, if nothing was replayed, right where the stream subscribed. */
module StreamGaps {
  import opened Common
  import opened ReplayModel
  import opened RunsModel
  import opened FeedModel
  import opened StreamModel

  /** The first events of the log are not above the id. */
  ghost predicate OlderUpTo(log: seq<Event>, n: nat, id: nat) {
    n <= |log| && forall i | 0 <= i < n :: log[i].eventID <= id
  }

  /** Where the queue stands in the log. */
  function FirstQueued(f: Feed, queue: Option<nat>): Option<nat> {
    if queue.Some? && queue.value in f.origin then Some(f.origin[queue.value].first) else None
  }

  /** Replayed and then live: everything up to the covered part of the log. */
  ghost predicate Reaches(log: seq<Event>, all: seq<Event>, covered: nat, first: Option<nat>) {
    && all != [] && |all| <= covered <= |log| && all == log[covered - |all|..covered]
    && (first.Some? ==> first.value <= covered)
  }

  /** Live only: everything from the subscribe point to the front of the queue. */
  ghost predicate FromJoin(log: seq<Event>, delivered: seq<Event>, first: Option<nat>, joinedAt: nat) {
    if first.None? then delivered == []
    else
      && |delivered| <= first.value <= |log|
      && delivered == log[first.value - |delivered|..first.value]
      && OlderUpTo(log, first.value - |delivered|, joinedAt)
      && NewerThan(log, first.value - |delivered|, joinedAt)
  }

  ghost predicate StretchOK(w: World) {
    && (w.phase.Joined? ==>
          var first := FirstQueued(w.feed, w.phase.queue); first.Some? ==> OlderUpTo(Log(w), first.value, w.phase.joinedAt))
    && (w.phase.Open? && w.replayed ==>
          !w.stale && Reaches(Log(w), w.delivered + Waiting(w.replay), w.covered, FirstQueued(w.feed, w.phase.queue)))
    && (w.phase.Open? && !w.replayed ==>
          Waiting(w.replay) == [] && FromJoin(Log(w), w.delivered, FirstQueued(w.feed, w.phase.queue), w.phase.joinedAt))
  }

  // ----- a longer log changes nothing ---------------------------------------------------

  lemma ReachesLonger(log: seq<Event>, log': seq<Event>, all: seq<Event>, covered: nat, first: Option<nat>)
    requires log <= log' && Reaches(log, all, covered, first)
    ensures Reaches(log', all, covered, first)
  {
    assert log'[..|log|] == log;
    assert log'[covered - |all|..covered] == log[covered - |all|..covered];
  }

  lemma FromJoinLonger(log: seq<Event>, log': seq<Event>, delivered: seq<Event>, first: Option<nat>, joinedAt: nat)
    requires log <= log' && FromJoin(log, delivered, first, joinedAt)
    requires first.Some? ==> NewerThan(log', first.value, joinedAt)
    ensures FromJoin(log', delivered, first, joinedAt)
  {
    assert log'[..|log|] == log;
    if first.Some? {
      var lo := first.value - |delivered|;
      assert log'[lo..first.value] == log[lo..first.value];
      forall i | lo <= i < |log'| ensures log'[i].eventID > joinedAt {
        if i < first.value { assert log'[i] == log[i]; }
      }
    }
  }

  lemma OthersKeepStretch(w: World, limits: Limits, epoch: string, op: FeedOp)
    requires Sound(w, limits) && StretchOK(w) && Foreign(w, op)
    ensures StretchOK(w.(feed := ApplyFeed(w.feed, limits, epoch, op)))
  {
    hide ApplyFeed, FeedOK, Ordered, Promise, Reaches, FromJoin, Waiting;
    var v := w.(feed := ApplyFeed(w.feed, limits, epoch, op));
    if w.phase.Joined? || w.phase.Open? {
      QueueStaysTied(w.feed, limits, epoch, op, w.phase.cursor.run, w.phase.queue, w.phase.joinedAt);
      OthersOnlyExtend(w.feed, limits, epoch, op, w.phase.cursor.run);
      var first := FirstQueued(w.feed, w.phase.queue);
      assert FirstQueued(v.feed, w.phase.queue) == first;
      if w.phase.Open? && w.replayed {
        ReachesLonger(Log(w), Log(v), w.delivered + Waiting(w.replay), w.covered, first);
      } else if w.phase.Open? {
        FromJoinLonger(Log(w), Log(v), w.delivered, first, w.phase.joinedAt);
      }
    }
  }

  // ----- opening ------------------------------------------------------------------------

  lemma JoinKeepsStretch(w: World, limits: Limits)
    requires Sound(w, limits) && w.phase.Found?
    ensures StretchOK(JoinStep(w))
  {
    hide BuffersOK, ChannelsOK, SubscribersOK, OpenOnesRegistered, Ordered, Promise;
    var run := w.phase.cursor.run;
    assert LogOK(LogOf(w.feed.log, run), run, w.feed.nextEventID, w.feed.clock);
  }

  /** Of increasing ids, those above a cursor are the last ones. */
  lemma {:induction false} AboveIsTail(events: seq<Event>, afterEventID: nat)
    requires IdsIncrease(events)
    ensures var n := |Above(events, afterEventID)|; n <= |events| && Above(events, afterEventID) == events[|events| - n..]
  {
    if events != [] {
      var init, last := events[..|events| - 1], events[|events| - 1];
      if last.eventID <= afterEventID {
        AboveSkips(events, |events|, afterEventID);
        assert events[|events|..] == [];
      } else {
        AboveIsTail(init, afterEventID);
        hide IdsIncrease;
        TailExtends(init, last, |Above(init, afterEventID)|);
        assert events == init + [last];
      }
    }
  }

  lemma TailExtends(init: seq<Event>, last: Event, n: nat)
    requires n <= |init|
    ensures (init + [last])[|init| - n..] == init[|init| - n..] + [last]
  {
  }

  /** What is above a cursor in a buffer is a tail of the log too. */
  lemma BufferTail(buffer: ReplayBuffer, log: seq<Event>, afterEventID: nat)
    requires BufferOK(buffer, log) && IdsIncrease(buffer.events)
    ensures var n := |Above(buffer.events, afterEventID)|; n <= |log| && Above(buffer.events, afterEventID) == log[|log| - n..]
  {
    AboveIsTail(buffer.events, afterEventID);
    hide IdsIncrease, Above;
    TailOfTail(log, |buffer.events|, |Above(buffer.events, afterEventID)|);
  }

  lemma TailOfTail(log: seq<Event>, m: nat, n: nat)
    requires n <= m <= |log|
    ensures log[|log| - m..][m - n..] == log[|log| - n..]
  {
  }

  /** The buffer a replay answers from. */
  lemma KeptBuffer(f: Feed, limits: Limits, epoch: string, cursor: Cursor, now: int)
    requires LogsOK(f) && BuffersOK(f) && Replay(f, limits, epoch, cursor, now).1.Ok?
    ensures cursor.run in f.replay
    ensures var kept := Enforced(f.replay[cursor.run], limits, now); var r := Replay(f, limits, epoch, cursor, now).1.value;
            && BufferOK(kept, LogOf(f.log, cursor.run)) && IdsIncrease(kept.events)
            && (forall i | 0 <= i < |kept.events| :: kept.events[i].eventID >= 1)
            && kept.events != [] && r.events == Above(kept.events, cursor.afterEventID)
  {
    hide Enforced, Above, BufferOK;
    var log := LogOf(f.log, cursor.run);
    EnforcedBufferOK(f.replay[cursor.run], log, limits, now);
    KeptEvents(f.replay[cursor.run], log, cursor.run, f.nextEventID, f.clock, limits, now);
  }

  lemma ReplayedTail(f: Feed, limits: Limits, epoch: string, cursor: Cursor, now: int)
    requires LogsOK(f) && BuffersOK(f) && Replay(f, limits, epoch, cursor, now).1.Ok?
    ensures var log := LogOf(f.log, cursor.run); var events := Replay(f, limits, epoch, cursor, now).1.value.events;
            |events| <= |log| && events == log[|log| - |events|..]
  {
    hide Replay, LogsOK, BuffersOK, BufferOK, Enforced, Above, IdsIncrease;
    KeptBuffer(f, limits, epoch, cursor, now);
    BufferTail(Enforced(f.replay[cursor.run], limits, now), LogOf(f.log, cursor.run), cursor.afterEventID);
  }

  lemma ReadKeepsStretch(w: World, limits: Limits, epoch: string, now: int)
    requires Sound(w, limits) && StretchOK(w) && w.phase.Joined?
    ensures StretchOK(ReadStep(w, limits, epoch, now))
  {
    hide Replay, FeedOK, Opening, Ordered, Promise;
    var v := ReadStep(w, limits, epoch, now);
    var r := Replay(w.feed, limits, epoch, w.phase.cursor, now).1;
    OpeningEvents(r, w.phase.cursor.afterEventID);
    ReadFeed(w.feed, limits, epoch, w.phase.cursor, now);
    if v.phase.Open? && v.replayed {
      FeedParts(w.feed, limits);
      ReplayedTail(w.feed, limits, epoch, w.phase.cursor, now);
      assert v.delivered + Waiting(v.replay) == Waiting(v.replay);
      assert Log(v)[..|Log(v)|] == Log(v);
    }
  }

  // ----- reading ------------------------------------------------------------------------

  lemma TakeKeepsStretch(w: World, limits: Limits)
    requires StretchOK(w) && w.phase.Open? && w.replay != []
    ensures StretchOK(NextStep(w))
  {
    hide Reaches, FromJoin;
    var v := NextStep(w);
    assert w.delivered + Waiting(w.replay) == v.delivered + Waiting(v.replay);
  }

  lemma ReachesGrows(log: seq<Event>, delivered: seq<Event>, covered: nat, first: nat, lastSentID: nat)
    requires Reaches(log, delivered, covered, Some(first)) && IdsIncrease(log) && first < |log|
    requires lastSentID == delivered[|delivered| - 1].eventID
    ensures log[first].eventID <= lastSentID <==> first < covered
    ensures first < covered ==> Reaches(log, delivered, covered, Some(first + 1))
    ensures first == covered ==> Reaches(log, delivered + [log[first]], covered + 1, Some(first + 1))
  {
    assert delivered[|delivered| - 1] == log[covered - 1];
    if first == covered {
      var lo := covered - |delivered|;
      assert log[lo..covered + 1] == log[lo..covered] + [log[covered]];
    }
  }

  lemma FromJoinGrows(log: seq<Event>, delivered: seq<Event>, first: nat, joinedAt: nat, lastSentID: nat)
    requires FromJoin(log, delivered, Some(first), joinedAt) && IdsIncrease(log) && first < |log| && log[first].eventID >= 1
    requires if delivered == [] then lastSentID == 0 else lastSentID == delivered[|delivered| - 1].eventID
    ensures log[first].eventID > lastSentID && FromJoin(log, delivered + [log[first]], Some(first + 1), joinedAt)
  {
    if delivered != [] { assert delivered[|delivered| - 1] == log[first - 1]; }
    var lo := first - |delivered|;
    assert log[lo..first + 1] == log[lo..first] + [log[first]];
  }

  lemma LiveKeepsStretch(w: World, limits: Limits)
    requires Sound(w, limits) && StretchOK(w) && w.phase.Open? && w.replay == [] && w.phase.queue.Some?
    requires Receive(w.feed, w.phase.queue.value).1.Item?
    ensures StretchOK(NextStep(w))
  {
    hide FeedOK, Promise, Reaches, FromJoin;
    LiveItem(w, limits);
    ReceiveMoves(w.feed, limits, w.phase.cursor.run, w.phase.queue.value, w.phase.joinedAt);
    var first := w.feed.origin[w.phase.queue.value].first;
    assert w.delivered + Waiting(w.replay) == w.delivered;
    var v := NextStep(w);
    assert v.delivered + Waiting(v.replay) == v.delivered;
    if w.replayed {
      ReachesSome(Log(w), w.delivered, w.covered, Some(first));
      ReachesGrows(Log(w), w.delivered, w.covered, first, w.lastSentID);
    } else {
      FromJoinGrows(Log(w), w.delivered, first, w.phase.joinedAt, w.lastSentID);
    }
  }

  lemma ReachesSome(log: seq<Event>, all: seq<Event>, covered: nat, first: Option<nat>)
    requires Reaches(log, all, covered, first)
    ensures all != [] && (first.Some? ==> first.value <= covered)
  {
  }

  lemma NextKeepsStretch(w: World, limits: Limits)
    requires Sound(w, limits) && StretchOK(w) && w.phase.Open?
    ensures StretchOK(NextStep(w))
  {
    hide Sound, StretchOK, Receive;
    if w.replay != [] {
      TakeKeepsStretch(w, limits);
    } else if w.phase.queue.Some? && Receive(w.feed, w.phase.queue.value).1.Item? {
      LiveKeepsStretch(w, limits);
    }
  }

  lemma StepKeepsStretch(w: World, limits: Limits, epoch: string, action: Action)
    requires Sound(w, limits) && StretchOK(w)
    ensures StretchOK(Step(w, limits, epoch, action))
  {
    hide Sound, Reaches, FromJoin, JoinStep, ReadStep, NextStep, ApplyFeed, Waiting, OlderUpTo;
    match action
    case Others(op) => if Foreign(w, op) { OthersKeepStretch(w, limits, epoch, op); }
    case Lookup(_, _) =>
    case Join => if w.phase.Found? { JoinKeepsStretch(w, limits); }
    case Read(now) => if w.phase.Joined? && w.feed.clock <= now { ReadKeepsStretch(w, limits, epoch, now); }
    case Next => if w.phase.Open? { NextKeepsStretch(w, limits); }
    case Close =>
  }

  lemma {:induction false} EveryRunStretch(limits: Limits, epoch: string, actions: seq<Action>)
    requires limits.Normalized()
    ensures StretchOK(Run(limits, epoch, actions))
  {
    hide Step, StretchOK;
    if actions == [] {
      assert StretchOK(START) by { StartStretch(); }
    } else {
      var init := actions[..|actions| - 1];
      EveryRunStretch(limits, epoch, init);
      EveryRunSound(limits, epoch, init);
      StepKeepsStretch(Run(limits, epoch, init), limits, epoch, actions[|actions| - 1]);
    }
  }

  lemma StartStretch()
    ensures StretchOK(START)
  {
  }

  // ----- main results ---------------------------------------------------------------------

  /** The events are the part of the log that starts at this position. */
  predicate StretchAt(log: seq<Event>, events: seq<Event>, lo: nat) {
    lo + |events| <= |log| && events == log[lo..lo + |events|]
  }

  lemma FrontOfStretch(log: seq<Event>, lo: nat, hi: nat, n: nat)
    requires lo + n <= hi <= |log|
    ensures log[lo..hi][..n] == log[lo..lo + n]
  {
  }

  /** Whatever the cursor, and with or without a notice: what a stream has delivered is a
      gap-free stretch of its run's log, in every run. */
  lemma EveryStreamIsGapFree(limits: Limits, epoch: string, actions: seq<Action>)
    requires limits.Normalized() && Run(limits, epoch, actions).phase.Open?
    ensures var w := Run(limits, epoch, actions); var log := LogOf(w.feed.log, w.phase.cursor.run);
            exists lo :: StretchAt(log, w.delivered, lo)
  {
    hide Run, Waiting;
    EveryRunStretch(limits, epoch, actions);
    var w := Run(limits, epoch, actions);
    var log, n := Log(w), |w.delivered|;
    if w.replayed {
      var all := w.delivered + Waiting(w.replay);
      var lo := w.covered - |all|;
      assert w.delivered == all[..n];
      FrontOfStretch(log, lo, w.covered, n);
      assert StretchAt(log, w.delivered, lo);
    } else {
      var first := FirstQueued(w.feed, w.phase.queue);
      if first.Some? {
        var lo := first.value - n;
        assert StretchAt(log, w.delivered, lo);
      } else {
        assert StretchAt(log, w.delivered, 0);
      }
    }
  }

  /** If nothing was replayed, after a report that the cursor is evicted or unavailable and
      on a stale stream among others, the stretch begins where the stream subscribed: it is a
      prefix of everything appended to the run since. */
  lemma LiveStreamStartsAtJoin(limits: Limits, epoch: string, actions: seq<Action>)
    requires limits.Normalized() && Run(limits, epoch, actions).phase.Open? && !Run(limits, epoch, actions).replayed
    ensures var w := Run(limits, epoch, actions);
            w.delivered <= Above(LogOf(w.feed.log, w.phase.cursor.run), w.phase.joinedAt)
  {
    hide Run, Waiting, Above;
    EveryRunStretch(limits, epoch, actions);
    var w := Run(limits, epoch, actions);
    var first := FirstQueued(w.feed, w.phase.queue);
    if first.Some? {
      AboveFromPoint(Log(w), first.value - |w.delivered|, w.phase.joinedAt);
      assert Log(w)[first.value - |w.delivered|..][..|w.delivered|] == w.delivered;
    }
  }

  lemma AboveFromPoint(log: seq<Event>, lo: nat, id: nat)
    requires OlderUpTo(log, lo, id) && NewerThan(log, lo, id)
    ensures Above(log, id) == log[lo..]
  {
    AboveSkips(log, lo, id);
    AllAbove(log[lo..], id);
  }

  lemma {:induction false} AllAbove(events: seq<Event>, id: nat)
    requires forall i | 0 <= i < |events| :: events[i].eventID > id
    ensures Above(events, id) == events
  {
    if events != [] {
      AllAbove(events[..|events| - 1], id);
      assert events == events[..|events| - 1] + [events[|events| - 1]];
    }
  }

  /** And such a stream misses nothing: with its queue still registered and drained it has
      delivered everything appended to the run since it subscribed. */
  lemma DrainedLiveStreamCaughtUp(limits: Limits, epoch: string, actions: seq<Action>)
    requires limits.Normalized()
    ensures var w := Run(limits, epoch, actions);
            w.phase.Open? && !w.replayed
            && w.phase.queue.Some? && w.phase.queue.value in SubscribersOf(w.feed.subscribers, w.phase.cursor.run)
            && w.phase.queue.value in w.feed.channels && w.feed.channels[w.phase.queue.value].items == [] ==>
              w.delivered == Above(LogOf(w.feed.log, w.phase.cursor.run), w.phase.joinedAt)
  {
    hide Run, BufferOK, LogOK, ChannelOK, Above, Waiting;
    EveryRunSound(limits, epoch, actions);
    EveryRunStretch(limits, epoch, actions);
    var w := Run(limits, epoch, actions);
    if w.phase.Open? && !w.replayed && w.phase.queue.Some?
       && w.phase.queue.value in SubscribersOf(w.feed.subscribers, w.phase.cursor.run)
       && w.phase.queue.value in w.feed.channels && w.feed.channels[w.phase.queue.value].items == []
    {
      assert Registered(w.feed.channels, w.feed.origin, w.feed.log, w.phase.cursor.run, w.phase.queue.value);
      AboveFromPoint(Log(w), |Log(w)| - |w.delivered|, w.phase.joinedAt);
    }
  }

  /** What decides between the two: a refused cursor replays nothing and neither does a stale
      stream; a stream from the start whose first events are gone replays the whole buffer. */
  lemma WhatIsReplayed(w: World, limits: Limits, epoch: string, now: int)
    requires Sound(w, limits) && w.phase.Joined?
    ensures var v := ReadStep(w, limits, epoch, now); var r := Replay(w.feed, limits, epoch, w.phase.cursor, now).1;
            && (v.replayed <==> Waiting(v.replay) != [])
            && (r.Err? || v.stale ==> !v.replayed)
            && (StartLost(r, w.phase.cursor.afterEventID) ==>
                  v.replayed && w.phase.cursor.run in w.feed.replay
                  && Waiting(v.replay) == Enforced(w.feed.replay[w.phase.cursor.run], limits, now).events)
  {
    hide FeedOK, Ordered, Promise, PhaseOK, Opening, Replay, Enforced, Above, AfterRead;
    var cursor := w.phase.cursor;
    var r := Replay(w.feed, limits, epoch, cursor, now).1;
    OpeningEvents(r, cursor.afterEventID);
    if StartLost(r, cursor.afterEventID) {
      FeedParts(w.feed, limits);
      KeptBuffer(w.feed, limits, epoch, cursor, now);
      AllAbove(Enforced(w.feed.replay[cursor.run], limits, now).events, 0);
    }
  }
}
