/** How a stream opens, told from the run's log, and what ends its queue. */
module StreamOpenings {
  import opened Common
  import opened ReplayModel
  import opened RunsModel
  import opened FeedModel
  import opened ReplayWindow
  import opened Delivery
  import opened StreamModel

  // ----- a stream is one more caller of the store ---------------------------------------------

  lemma AppliedOne(f: Feed, limits: Limits, epoch: string, op: FeedOp)
    ensures ApplyFeedAll(f, limits, epoch, [op]) == ApplyFeed(f, limits, epoch, op)
  {
    hide ApplyFeed;
    assert [op][..0] == [];
  }

  lemma AppliedTwo(f: Feed, limits: Limits, epoch: string, op: FeedOp, next: FeedOp)
    ensures ApplyFeedAll(f, limits, epoch, [op, next]) == ApplyFeed(ApplyFeed(f, limits, epoch, op), limits, epoch, next)
  {
    hide ApplyFeed;
    AppliedOne(f, limits, epoch, op);
    assert [op, next][..1] == [op];
  }

  lemma {:induction false} AppliedMore(f: Feed, limits: Limits, epoch: string, ops: seq<FeedOp>, more: seq<FeedOp>)
    ensures ApplyFeedAll(f, limits, epoch, ops + more) ==
            ApplyFeedAll(ApplyFeedAll(f, limits, epoch, ops), limits, epoch, more)
  {
    hide ApplyFeed;
    if more == [] {
      assert ops + more == ops;
    } else {
      AppliedMore(f, limits, epoch, ops, more[..|more| - 1]);
      assert (ops + more)[..|ops + more| - 1] == ops + more[..|more| - 1];
    }
  }

  lemma JoinIsSubscribe(w: World)
    requires w.phase.Found?
    ensures JoinStep(w).feed == if w.phase.live then Subscribe(w.feed, w.phase.cursor.run).0 else w.feed
  {
    hide Correlates, IsTerminal, LogOf, SubscribersOf;
  }

  lemma NextIsReceive(w: World)
    requires w.phase.Open?
    ensures NextStep(w).feed == w.feed || (w.phase.queue.Some? && NextStep(w).feed == Receive(w.feed, w.phase.queue.value).0)
  {
  }

  /** The operations of the store that a step of the stream amounts to. */
  lemma StepOps(w: World, limits: Limits, epoch: string, a: Action) returns (ops: seq<FeedOp>)
    ensures Step(w, limits, epoch, a).feed == ApplyFeedAll(w.feed, limits, epoch, ops)
  {
    hide LookupStep, JoinStep, NextStep, Subscribe, Receive, Replay, Unsubscribe, Opening, StartLost, QueueHasItems, LogOf;
    ops := [];
    match a
    case Others(op) =>
      if Foreign(w, op) { ops := [op]; AppliedOne(w.feed, limits, epoch, op); }
    case Lookup(chat, arg) => LookupLeavesFeed(w, epoch, chat, arg);
    case Join =>
      if w.phase.Found? {
        JoinIsSubscribe(w);
        if w.phase.live {
          ops := [OpSubscribe(w.phase.cursor.run)];
          AppliedOne(w.feed, limits, epoch, ops[0]);
        }
      }
    case Read(now) =>
      if w.phase.Joined? && w.feed.clock <= now {
        var cursor := w.phase.cursor;
        if w.phase.queue.Some? && Replay(w.feed, limits, epoch, cursor, now).1 == Err(OutOfRange) {
          ops := [OpReplay(cursor, now), OpUnsubscribe(cursor.run, w.phase.queue.value)];
          AppliedTwo(w.feed, limits, epoch, ops[0], ops[1]);
        } else {
          ops := [OpReplay(cursor, now)];
          AppliedOne(w.feed, limits, epoch, ops[0]);
        }
      }
    case Next =>
      if w.phase.Open? {
        NextIsReceive(w);
        if w.phase.queue.Some? && NextStep(w).feed != w.feed {
          ops := [OpReceive(w.phase.queue.value)];
          AppliedOne(w.feed, limits, epoch, ops[0]);
        }
      }
    case Close =>
      if w.phase.Open? && w.phase.queue.Some? {
        ops := [OpUnsubscribe(w.phase.cursor.run, w.phase.queue.value)];
        AppliedOne(w.feed, limits, epoch, ops[0]);
      }
  }

  lemma LookupLeavesFeed(w: World, epoch: string, chat: Scope, arg: CursorArg)
    ensures LookupStep(w, epoch, chat, arg).feed == w.feed
  {
  }

  /** Whatever a stream and everybody else do, the store is in a state that store operations reach. */
  lemma {:induction false} FeedIsReachable(limits: Limits, epoch: string, actions: seq<Action>) returns (ops: seq<FeedOp>)
    ensures StreamModel.Run(limits, epoch, actions).feed == ApplyFeedAll(EMPTY_FEED, limits, epoch, ops)
  {
    hide Step, ApplyFeed;
    ops := [];
    if actions != [] {
      var init := actions[..|actions| - 1];
      ops := FeedIsReachable(limits, epoch, init);
      var more := StepOps(StreamModel.Run(limits, epoch, init), limits, epoch, actions[|actions| - 1]);
      AppliedMore(EMPTY_FEED, limits, epoch, ops, more);
      ops := ops + more;
    }
  }

  // ----- opening -------------------------------------------------------------------------------

  /** Nothing but the opening read decides with what a stream opens. */
  ghost predicate ForeignOK(w: World, epoch: string) {
    && (w.phase.Open? && w.phase.cursor.epoch != epoch ==> w.noticed && !w.replayed && !w.stale)
    && (!w.phase.Open? && !w.phase.Refused? ==> !w.noticed && !w.replayed && !w.stale)
  }

  lemma ReadForeign(w: World, limits: Limits, epoch: string, now: int)
    requires w.phase.Joined?
    ensures ForeignOK(ReadStep(w, limits, epoch, now), epoch)
    ensures w.phase.cursor.epoch != epoch ==>
              && ReadStep(w, limits, epoch, now).replay == [ReplayNotice(UnavailableNotice)]
              && ReadStep(w, limits, epoch, now).feed == w.feed
              && ReadStep(w, limits, epoch, now).phase == Open(w.phase.cursor, w.phase.queue, w.phase.joinedAt)
  {
    hide Enforced, LogOf, Answer;
  }

  lemma StepForeign(w: World, limits: Limits, epoch: string, a: Action)
    requires ForeignOK(w, epoch)
    ensures ForeignOK(Step(w, limits, epoch, a), epoch)
  {
    hide ReadStep, ApplyFeed, Subscribe, Unsubscribe, Receive, Busy, Parses;
    match a
    case Read(now) => if w.phase.Joined? { ReadForeign(w, limits, epoch, now); }
    case _ =>
  }

  /** A cursor of another process never goes unnoticed: the stream opens with the notice that
      its past is unavailable, replays nothing, and so an open stream without a notice has a
      cursor of this process. */
  lemma {:induction false} ForeignCursorIsNoticed(limits: Limits, epoch: string, actions: seq<Action>)
    ensures var w := StreamModel.Run(limits, epoch, actions);
            && ForeignOK(w, epoch)
            && (w.phase.Open? && !w.noticed ==> w.phase.cursor.epoch == epoch)
  {
    hide Step;
    if actions != [] {
      ForeignCursorIsNoticed(limits, epoch, actions[..|actions| - 1]);
      StepForeign(StreamModel.Run(limits, epoch, actions[..|actions| - 1]), limits, epoch, actions[|actions| - 1]);
    }
  }

  /** The messages are a notice, if any, and then the log from index `m` on, one by one. */
  ghost predicate Carries(replay: seq<Message>, notice: Option<NoticeCode>, log: seq<Event>, m: nat) {
    var n := if notice.Some? then 1 else 0;
    && m <= |log| && |replay| == n + |log| - m
    && (notice.Some? ==> replay[0] == ReplayNotice(notice.value))
    && forall i | m <= i < |log| :: replay[n + i - m] == EventMessage(log[i])
  }

  /** Index `m` of the log is where the window from `k` on passes the cursor. */
  ghost predicate FirstAfter(log: seq<Event>, k: nat, after: nat, m: nat) {
    && k <= m <= |log|
    && (forall i | k <= i < m :: log[i].eventID <= after) && (forall i | m <= i < |log| :: log[i].eventID > after)
  }

  /** How a stream opens on the window that begins at `k`. */
  ghost predicate Opens(w: World, v: World, log: seq<Event>, k: nat, m: nat, lost: nat, own: bool)
    requires w.phase.Joined? && k <= |log|
  {
    var after := w.phase.cursor.afterEventID;
    if own && k < |log| && after > log[|log| - 1].eventID then v.phase == Refused && v.replay == []
    else
      && v.phase == Open(w.phase.cursor, w.phase.queue, w.phase.joinedAt)
      && (if !own || k == |log| then Carries(v.replay, Some(UnavailableNotice), log, |log|)
          else if after == 0 && lost != 0 then Carries(v.replay, Some(StartEvictedNotice), log, k)
          else if after + 1 < log[k].eventID then Carries(v.replay, Some(CursorEvictedNotice), log, |log|)
          else Carries(v.replay, None, log, m))
  }

  lemma OpeningCarries(r: Result<ReplayResult, ReplayFailure>, after: nat, log: seq<Event>, m: nat)
    requires r.Ok? && m <= |log| && r.value.events == log[m..]
    ensures Carries(Opening(r, after), if after == 0 && !r.value.fromStartAvailable then Some(StartEvictedNotice) else None, log, m)
  {
    hide Messages;
    var ms := Messages(r.value.events);
    if StartLost(r, after) {
      assert Opening(r, after) == [ReplayNotice(StartEvictedNotice)] + ms;
      MessagesCarry(log, m, [ReplayNotice(StartEvictedNotice)], ms);
    } else {
      assert Opening(r, after) == ms;
      MessagesCarry(log, m, [], ms);
    }
  }

  lemma MessagesCarry(log: seq<Event>, m: nat, notices: seq<Message>, ms: seq<Message>)
    requires m <= |log| && |notices| <= 1 && (|notices| == 1 ==> notices[0].ReplayNotice?)
    requires |ms| == |log| - m && forall i | 0 <= i < |ms| :: ms[i] == EventMessage(log[m..][i])
    ensures Carries(notices + ms, if notices == [] then None else Some(notices[0].code), log, m)
  {
    forall i | m <= i < |log| ensures (notices + ms)[|notices| + i - m] == EventMessage(log[i]) {
      assert (notices + ms)[|notices| + (i - m)] == ms[i - m];
      assert log[m..][i - m] == log[i];
    }
  }

  /** Above a cursor the window has one tail. */
  lemma AnsweredTail(log: seq<Event>, k: nat, after: nat, m: nat, events: seq<Event>)
    requires IdsIncrease(log) && FirstAfter(log, k, after, m)
    requires IdsIncrease(events) && forall e :: e in events <==> e in log[k..] && e.eventID > after
    ensures events == log[m..]
  {
    var tail := log[m..];
    assert forall e :: e in tail <==> e in events by {
      forall e ensures e in tail <==> e in events {
        if e in events { var i :| 0 <= i < |log[k..]| && log[k..][i] == e; assert log[k + i] == e; assert tail[k + i - m] == e; }
        if e in tail { var i :| 0 <= i < |tail| && tail[i] == e; assert log[m + i] == e && log[k..][m + i - k] == e; }
      }
    }
    SameMembers(events, tail);
  }

  lemma HasMember(events: seq<Event>)
    requires events != []
    ensures exists e :: e in events
  {
    assert events[0] in events;
  }

  /** Increasing sequences with the same members are equal. */
  lemma {:induction false} SameMembers(a: seq<Event>, b: seq<Event>)
    requires IdsIncrease(a) && IdsIncrease(b) && forall e :: e in a <==> e in b
    ensures a == b
    decreases |a|
  {
    if a == [] {
      if b != [] { HasMember(b); }
    } else {
      assert a[0] in b;
      assert b[0] in a;
      assert a[0] == b[0];
      assert a == [a[0]] + a[1..] && b == [b[0]] + b[1..];
      assert forall i | 0 <= i < |a[1..]| :: a[1..][i] == a[i + 1];
      assert forall i | 0 <= i < |b[1..]| :: b[1..][i] == b[i + 1];
      assert a[0] !in a[1..] && b[0] !in b[1..];
      assert forall e :: e in a <==> e == a[0] || e in a[1..];
      assert forall e :: e in b <==> e == b[0] || e in b[1..];
      SameMembers(a[1..], b[1..]);
    }
  }

  lemma NoticeAlone(r: Result<ReplayResult, ReplayFailure>, after: nat, log: seq<Event>)
    requires r.Err?
    ensures r == Err(OutOfRange) ==> Opening(r, after) == []
    ensures r == Err(CursorEvicted) ==> Carries(Opening(r, after), Some(CursorEvictedNotice), log, |log|)
    ensures r == Err(UnavailableAfterRestart) ==> Carries(Opening(r, after), Some(UnavailableNotice), log, |log|)
  {
  }

  lemma InWindow(log: seq<Event>, k: nat, after: nat, m: nat)
    requires FirstAfter(log, k, after, m)
    ensures k <= m <= |log|
  {
  }

  lemma AllAfterZero(log: seq<Event>, k: nat, m: nat)
    requires FirstAfter(log, k, 0, m) && forall i | 0 <= i < |log| :: log[i].eventID >= 1
    ensures m == k
  {
    assert k < |log| ==> log[k].eventID >= 1;
  }

  /** In every run a read opens the stream by the run's log alone: with the verdict of the
      longest end that still fits the limits, and the messages that belong to it. */
  lemma OpeningVerdict(limits: Limits, epoch: string, actions: seq<Action>, now: int, k: nat, m: nat)
    requires limits.Normalized()
    requires var w := StreamModel.Run(limits, epoch, actions);
             && w.phase.Joined? && w.feed.clock <= now && WindowAt(Log(w), k, limits, now)
             && FirstAfter(Log(w), k, w.phase.cursor.afterEventID, m)
    ensures var w := StreamModel.Run(limits, epoch, actions); var v := Step(w, limits, epoch, Read(now));
            Opens(w, v, Log(w), k, m, LostBefore(v.feed, w.phase.cursor.run), w.phase.cursor.epoch == epoch)
  {
    hide ApplyFeedAll, StreamModel.Run, ReadStep, Fits, Replay, Opens, Verdict, FirstAfter;
    var ops := FeedIsReachable(limits, epoch, actions);
    var w := StreamModel.Run(limits, epoch, actions);
    var cursor := w.phase.cursor;
    if cursor.epoch != epoch {
      ReadForeign(w, limits, epoch, now);
      OpensForeign(w, ReadStep(w, limits, epoch, now), k, m, LostBefore(w.feed, cursor.run));
    } else {
      ReplayAnswersFromWindow(limits, epoch, ops, cursor, now, k);
      EveryStateOK(limits, epoch, ops);
      LogIDs(w.feed, limits, cursor.run);
      ReadOpens(w, limits, epoch, now, k, m);
    }
  }

  lemma OpensForeign(w: World, v: World, k: nat, m: nat, lost: nat)
    requires w.phase.Joined? && k <= |Log(w)|
    requires v.phase == Open(w.phase.cursor, w.phase.queue, w.phase.joinedAt) && v.replay == [ReplayNotice(UnavailableNotice)]
    ensures Opens(w, v, Log(w), k, m, lost, false)
  {
  }

  /** What the read makes of the replay's answer. */
  lemma ReadFields(w: World, limits: Limits, epoch: string, now: int)
    requires w.phase.Joined?
    ensures var v := ReadStep(w, limits, epoch, now); var (g, r) := Replay(w.feed, limits, epoch, w.phase.cursor, now);
            && v.replay == Opening(r, w.phase.cursor.afterEventID) && v.feed.replay == g.replay
            && v.phase == (if r == Err(OutOfRange) then Refused else Open(w.phase.cursor, w.phase.queue, w.phase.joinedAt))
  {
    hide Replay, Opening, StartLost, QueueHasItems;
  }

  lemma ReadOpens(w: World, limits: Limits, epoch: string, now: int, k: nat, m: nat)
    requires w.phase.Joined? && w.phase.cursor.epoch == epoch && k <= |Log(w)|
    requires IdsIncrease(Log(w)) && forall i | 0 <= i < |Log(w)| :: Log(w)[i].eventID >= 1
    requires FirstAfter(Log(w), k, w.phase.cursor.afterEventID, m)
    requires var (g, r) := Replay(w.feed, limits, epoch, w.phase.cursor, now);
             Verdict(Log(w), k, LostBefore(g, w.phase.cursor.run), w.phase.cursor.afterEventID, r)
    ensures var v := ReadStep(w, limits, epoch, now);
            Opens(w, v, Log(w), k, m, LostBefore(v.feed, w.phase.cursor.run), true)
  {
    hide Replay, Opening, FirstAfter, IdsIncrease, ReadStep, Carries;
    ReadFields(w, limits, epoch, now);
    var (g, r) := Replay(w.feed, limits, epoch, w.phase.cursor, now);
    var v, log, after := ReadStep(w, limits, epoch, now), Log(w), w.phase.cursor.afterEventID;
    if r.Ok? {
      AnsweredTail(log, k, after, m, r.value.events);
      InWindow(log, k, after, m);
      OpeningCarries(r, after, log, m);
      if after == 0 { AllAfterZero(log, k, m); }
    } else {
      NoticeAlone(r, after, log);
    }
  }

  // ----- where a stream reads --------------------------------------------------------------------

  /** The lookup takes plain ids as ids of the chat's live run, and decoded cursors as they
      are if they are complete and of this chat. */
  ghost predicate LooksUp(w: World, epoch: string, chat: Scope, arg: CursorArg, v: World) {
    match arg
    case Undecodable => v.phase == Refused
    case PlainID(id) =>
      if chat in w.feed.active && Live(w.feed.active, RunScope(chat, w.feed.active[chat].runID))
      then v.phase == Found(Cursor(epoch, RunScope(chat, w.feed.active[chat].runID), id), true)
      else v.phase == NoRun && v.replay == [Narrowed]
    case EventAt(cursor) =>
      var run := RunScope(chat, cursor.runID);
      if cursor.epoch == "" || cursor.runID == "" || cursor.eventID == 0 || cursor.chatID == "" || cursor.chatID != chat.chatID
      then v.phase == Refused
      else v.phase == Found(Cursor(cursor.epoch, run, cursor.eventID), Live(w.feed.active, run))
  }

  lemma LookupTakesOwnRun(w: World, epoch: string, chat: Scope, arg: CursorArg)
    ensures var v := LookupStep(w, epoch, chat, arg); LooksUp(w, epoch, chat, arg, v) && v.feed == w.feed
  {
  }

  /** In every run the cursor of a stream is the one its caller looked up with. */
  lemma {:induction false} CursorIsCallers(limits: Limits, epoch: string, actions: seq<Action>) returns (i: nat)
    requires var w := StreamModel.Run(limits, epoch, actions); w.phase.Found? || w.phase.Joined? || w.phase.Open?
    ensures i < |actions| && actions[i].Lookup?
    ensures var before := StreamModel.Run(limits, epoch, actions[..i]);
            var after := LookupStep(before, epoch, actions[i].chat, actions[i].arg);
            && LooksUp(before, epoch, actions[i].chat, actions[i].arg, after)
            && after.phase.Found? && after.phase.cursor == StreamModel.Run(limits, epoch, actions).phase.cursor
  {
    hide LookupStep, JoinStep, ReadStep, NextStep, LooksUp, ApplyFeed, Unsubscribe;
    var init := actions[..|actions| - 1];
    var w := StreamModel.Run(limits, epoch, init);
    if w.phase.Unopened? {
      i := |actions| - 1;
      LookupTakesOwnRun(w, epoch, actions[i].chat, actions[i].arg);
    } else {
      PhaseMoves(w, limits, epoch, actions[|actions| - 1]);
      i := CursorIsCallers(limits, epoch, init);
      assert init[..i] == actions[..i];
    }
  }

  lemma PhaseMoves(w: World, limits: Limits, epoch: string, a: Action)
    requires !w.phase.Unopened?
    ensures var v := Step(w, limits, epoch, a);
            v.phase.Found? || v.phase.Joined? || v.phase.Open? ==>
              (w.phase.Found? || w.phase.Joined? || w.phase.Open?) && v.phase.cursor == w.phase.cursor
  {
    hide ApplyFeed, Subscribe, Unsubscribe, Receive, Replay, Opening, LogOf;
  }

  /** A stream subscribes exactly if its run was live when it was looked up and still is; then
      it has a queue of its own, and else none. */
  lemma JoinSubscribesIff(limits: Limits, epoch: string, actions: seq<Action>)
    requires limits.Normalized() && StreamModel.Run(limits, epoch, actions).phase.Found?
    requires Named(StreamModel.Run(limits, epoch, actions).phase.cursor.run)
    ensures var w := StreamModel.Run(limits, epoch, actions); var v := Step(w, limits, epoch, Join);
            && v.phase.Joined? && v.phase.cursor == w.phase.cursor && v.phase.joinedAt == w.feed.nextEventID
            && (v.phase.queue.Some? <==> w.phase.live && Live(w.feed.active, w.phase.cursor.run))
            && (v.phase.queue.Some? ==>
                  var c := v.phase.queue.value;
                  && c !in w.feed.channels && c in v.feed.channels && v.feed.channels[c] == Channel([], false)
                  && ListensTo(v.feed, w.phase.cursor.run, c))
  {
    hide StreamModel.Run, Subscribe, Live, State;
    var ops := FeedIsReachable(limits, epoch, actions);
    var w := StreamModel.Run(limits, epoch, actions);
    assert w.feed == State(limits, epoch, ops) by { StateOf(limits, epoch, ops); }
    SubscribeGivesNewQueue(limits, epoch, ops, w.phase.cursor.run);
  }

  /** A live run without a complete name cannot be subscribed to. */
  lemma UnnamedJoinIsRefused(w: World, limits: Limits, epoch: string)
    requires w.phase.Found? && w.phase.live && !Named(w.phase.cursor.run)
    ensures Step(w, limits, epoch, Join) == w.(phase := Refused)
  {
    BadSubscribeIsRefused(w.feed, w.phase.cursor.run);
    hide Subscribe;
  }

  lemma StateOf(limits: Limits, epoch: string, ops: seq<FeedOp>)
    ensures State(limits, epoch, ops) == ApplyFeedAll(EMPTY_FEED, limits, epoch, ops)
  {
  }

  // ----- what ends a stream's queue -----------------------------------------------------------------

  /** The queue of this stream, while it has one. */
  function OwnQueue(w: World): Option<nat> {
    if w.phase.Joined? || w.phase.Open? then w.phase.queue else None
  }

  /** The step ends the stream's open queue: an event of the run finds it full, the run's
      queues are closed, or the caller closes the stream. */
  predicate CutsOff(w: World, limits: Limits, a: Action, c: nat)
    requires c in w.feed.channels && c in w.feed.origin
  {
    (a.Others? && !a.op.OpUnsubscribe? && Ends(w.feed, limits, a.op, c)) || (a.Close? && w.phase.Open?)
  }

  lemma QueueIsTied(limits: Limits, epoch: string, actions: seq<Action>)
    requires limits.Normalized() && OwnQueue(StreamModel.Run(limits, epoch, actions)).Some?
    ensures var w := StreamModel.Run(limits, epoch, actions); var c := w.phase.queue.value;
            && FeedOK(w.feed, limits) && c in w.feed.channels && c in w.feed.origin && w.feed.origin[c].run == w.phase.cursor.run
  {
    hide StreamModel.Run, Ordered, Promise, FeedOK;
    EveryRunSound(limits, epoch, actions);
  }

  /** In every run, the queue of a stream is ended by nothing else; and a stream that is
      refused for its cursor leaves no queue behind. */
  lemma StreamQueueEndsIff(limits: Limits, epoch: string, actions: seq<Action>, a: Action)
    requires limits.Normalized()
    requires var w := StreamModel.Run(limits, epoch, actions);
             && OwnQueue(w).Some? && w.phase.queue.value in w.feed.channels && !w.feed.channels[w.phase.queue.value].closed
    ensures var w := StreamModel.Run(limits, epoch, actions); var v := Step(w, limits, epoch, a); var c := w.phase.queue.value;
            && c in w.feed.origin && c in v.feed.channels
            && (OwnQueue(v) == OwnQueue(w) || v.phase == Refused)
            && (v.feed.channels[c].closed <==> CutsOff(w, limits, a, c) || v.phase == Refused)
  {
    hide StreamModel.Run, Ends, FeedOK, ReadStep, NextStep, ApplyFeed;
    QueueIsTied(limits, epoch, actions);
    var w := StreamModel.Run(limits, epoch, actions);
    var c := w.phase.queue.value;
    match a
    case Others(op) =>
      if Foreign(w, op) {
        EndsIff(w.feed, limits, epoch, op, c);
        ForeignLeaves(w, limits, op, c);
      } else {
        ForeignOnly(w, limits, op, c);
      }
    case Read(now) => if w.phase.Joined? { ReadEndsQueue(w, limits, epoch, now, c); }
    case Next => if w.phase.Open? { NextKeepsOpen(w, c); }
    case Close => CloseEndsOwn(w, limits, c);
    case _ =>
  }

  /** Others do not unsubscribe this queue, and receiving ends none. */
  lemma ForeignOnly(w: World, limits: Limits, op: FeedOp, c: nat)
    requires OwnQueue(w) == Some(c) && !Foreign(w, op) && c in w.feed.channels && c in w.feed.origin
    ensures !CutsOff(w, limits, Others(op), c)
  {
  }

  lemma ForeignLeaves(w: World, limits: Limits, op: FeedOp, c: nat)
    requires OwnQueue(w) == Some(c) && Foreign(w, op) && c in w.feed.channels && c in w.feed.origin
    ensures Ends(w.feed, limits, op, c) ==> !op.OpUnsubscribe?
  {
  }

  lemma ReadEndsQueue(w: World, limits: Limits, epoch: string, now: int, c: nat)
    requires FeedOK(w.feed, limits) && w.phase.Joined? && w.phase.queue == Some(c)
    requires c in w.feed.channels && !w.feed.channels[c].closed && c in w.feed.origin && w.feed.origin[c].run == w.phase.cursor.run
    ensures var v := ReadStep(w, limits, epoch, now);
            && c in v.feed.channels && (v.feed.channels[c].closed <==> v.phase == Refused)
            && (OwnQueue(v) == Some(c) || v.phase == Refused)
  {
    hide FeedOK, Replay, Unsubscribe, Opening, StartLost, QueueHasItems, LogOf, ListensTo;
    var g := Replay(w.feed, limits, epoch, w.phase.cursor, now).0;
    ReplayKeepsQueues(w.feed, limits, epoch, w.phase.cursor, now);
    OpenIsListener(w.feed, limits, c);
    UnsubscribeEndsOne(g, w.phase.cursor.run, c);
    assert ListensTo(g, w.phase.cursor.run, c) by { SameListeners(w.feed, g, w.phase.cursor.run, c); }
  }

  lemma SameListeners(f: Feed, g: Feed, run: RunScope, c: nat)
    requires ListensTo(f, run, c) && g.subscribers == f.subscribers
    ensures ListensTo(g, run, c)
  {
  }

  lemma NextKeepsOpen(w: World, c: nat)
    requires w.phase.Open? && c in w.feed.channels && !w.feed.channels[c].closed
    ensures c in NextStep(w).feed.channels && !NextStep(w).feed.channels[c].closed && OwnQueue(NextStep(w)) == OwnQueue(w)
  {
  }

  lemma CloseEndsOwn(w: World, limits: Limits, c: nat)
    requires FeedOK(w.feed, limits) && OwnQueue(w) == Some(c)
    requires c in w.feed.channels && !w.feed.channels[c].closed && c in w.feed.origin && w.feed.origin[c].run == w.phase.cursor.run
    ensures var g := Unsubscribe(w.feed, w.phase.cursor.run, c); c in g.channels && g.channels[c].closed
  {
    hide FeedOK, Unsubscribe, ListensTo;
    OpenIsListener(w.feed, limits, c);
    UnsubscribeEndsOne(w.feed, w.phase.cursor.run, c);
  }

  // ----- what a call of Next hands out ---------------------------------------------------------------

  function NewestOf(events: seq<Event>): nat {
    if events == [] then 0 else events[|events| - 1].eventID
  }

  /** Each call gets on: it takes the next opening message, or else the oldest event of the
      queue; events are handed out, the latter only if they are newer than the last one handed
      out. With neither there is nothing to hand out yet. */
  ghost predicate Advances(w: World, v: World)
    requires w.phase.Open?
  {
    if w.replay != [] then
      && v.replay == w.replay[1..] && v.feed == w.feed && v.phase == w.phase
      && v.delivered == w.delivered + (if w.replay[0].EventMessage? then [w.replay[0].event] else [])
    else if w.phase.queue.Some? && w.phase.queue.value in w.feed.channels && w.feed.channels[w.phase.queue.value].items != [] then
      var c := w.phase.queue.value; var items := w.feed.channels[c].items;
      && v.replay == [] && v.phase == w.phase
      && v.feed.channels == w.feed.channels[c := Channel(items[1..], w.feed.channels[c].closed)]
      && v.feed == w.feed.(channels := v.feed.channels, origin := v.feed.origin)
      && v.delivered == w.delivered + (if items[0].eventID > NewestOf(w.delivered) then [items[0]] else [])
    else v == w
  }

  lemma NextAdvances(w: World, limits: Limits)
    requires w.phase.Open? && FeedOK(w.feed, limits) && w.lastSentID == NewestOf(w.delivered)
    ensures Advances(w, NextStep(w))
  {
    hide FeedOK;
    if w.phase.queue.Some? && w.phase.queue.value in w.feed.channels {
      QueueHasPlace(w.feed, limits, w.phase.queue.value);
    }
  }

  lemma SentIsNewest(w: World, limits: Limits)
    requires Sound(w, limits)
    ensures w.lastSentID == NewestOf(w.delivered) && FeedOK(w.feed, limits)
  {
    hide FeedOK, PhaseOK, Promise, IdsIncrease;
  }

  /** In every run. */
  lemma NextVerdict(limits: Limits, epoch: string, actions: seq<Action>)
    requires limits.Normalized() && StreamModel.Run(limits, epoch, actions).phase.Open?
    ensures Advances(StreamModel.Run(limits, epoch, actions), Step(StreamModel.Run(limits, epoch, actions), limits, epoch, Next))
  {
    hide StreamModel.Run, Sound, FeedOK, NextStep, Advances;
    EveryRunSound(limits, epoch, actions);
    SentIsNewest(StreamModel.Run(limits, epoch, actions), limits);
    NextAdvances(StreamModel.Run(limits, epoch, actions), limits);
  }
}
