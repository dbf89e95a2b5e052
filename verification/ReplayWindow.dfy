/** What a replay answers, told from the full log alone. The store evicts a little at every
    append and every replay; what is left at a replay is always the longest end of the run's
    whole log that fits the limits then, whenever and in how many passes the rest was evicted. */
module ReplayWindow {
  import opened Common
  import opened ReplayModel
  import opened RunsModel
  import opened FeedModel

  /** The three limits, written out. */
  ghost predicate Fits(events: seq<Event>, limits: Limits, now: int) {
    && |events| <= limits.replayMaxEvents
    && SizeSum(events) <= limits.replayMaxBytes
    && forall i | 0 <= i < |events| :: now - events[i].createdAtUnixMS * 1_000_000 <= limits.replayTTL
  }

  /** The longest end of the log within the limits begins at index `k`. */
  ghost predicate WindowAt(log: seq<Event>, k: nat, limits: Limits, now: int) {
    && k <= |log| && Fits(log[k..], limits, now)
    && forall j | 0 <= j < k :: !Fits(log[j..], limits, now)
  }

  /** There is exactly one. */
  lemma WindowIsUnique(log: seq<Event>, k: nat, m: nat, limits: Limits, now: int)
    requires WindowAt(log, k, limits, now) && WindowAt(log, m, limits, now)
    ensures k == m
  {
    hide Fits;
  }

  // ----- what no longer fits never fits again -----------------------------------------------

  lemma NeverFitsAgain(events: seq<Event>, limits: Limits, now: int, later: int)
    requires !Fits(events, limits, now) && now <= later
    ensures !Fits(events, limits, later)
  {
    hide SizeSum;
  }

  lemma LongerNeverFits(events: seq<Event>, e: Event, limits: Limits, now: int, later: int)
    requires !Fits(events, limits, now) && now <= later
    ensures !Fits(events + [e], limits, later)
  {
    hide SizeSum;
    SizeSumAppend(events, e);
    assert forall i | 0 <= i < |events| :: (events + [e])[i] == events[i];
  }

  /** Everything in front of the first `|log| - n` events was evicted for good. */
  ghost predicate EvictedForGood(log: seq<Event>, n: nat, limits: Limits, clock: int) {
    n <= |log| && forall j | 0 <= j < |log| - n :: !Fits(log[j..], limits, clock)
  }

  ghost predicate CutOK(f: Feed, limits: Limits) {
    forall run :: EvictedForGood(LogOf(f.log, run), |BufferOf(f.replay, run).events|, limits, f.clock)
  }

  lemma EvictionAges(log: seq<Event>, n: nat, limits: Limits, clock: int, later: int)
    requires EvictedForGood(log, n, limits, clock) && clock <= later
    ensures EvictedForGood(log, n, limits, later)
  {
    hide Fits;
    forall j | 0 <= j < |log| - n ensures !Fits(log[j..], limits, later) {
      NeverFitsAgain(log[j..], limits, clock, later);
    }
  }

  lemma EvictionGrows(log: seq<Event>, e: Event, n: nat, limits: Limits, clock: int, later: int)
    requires EvictedForGood(log, n, limits, clock) && clock <= later
    ensures EvictedForGood(log + [e], n + 1, limits, later)
  {
    hide Fits;
    forall j | 0 <= j < |log| - n ensures !Fits((log + [e])[j..], limits, later) {
      LongerNeverFits(log[j..], e, limits, clock, later);
      assert (log + [e])[j..] == log[j..] + [e];
    }
  }

  lemma FitsIsWithinLimits(events: seq<Event>, limits: Limits, now: int)
    ensures Fits(events, limits, now) <==> WithinLimits(events, limits, now)
  {
    hide SizeSum;
  }

  /** Cutting a buffer leaves the window of the log at that time. */
  lemma CutLeavesWindow(buffer: ReplayBuffer, log: seq<Event>, limits: Limits, now: int)
    requires BufferOK(buffer, log) && AgesSorted(log) && limits.Normalized()
    requires EvictedForGood(log, |buffer.events|, limits, now)
    ensures var kept := Enforced(buffer, limits, now).events;
            && |kept| <= |log| && kept == log[|log| - |kept|..]
            && WindowAt(log, |log| - |kept|, limits, now) && EvictedForGood(log, |kept|, limits, now)
  {
    hide Enforced, SizeSum, Fits, WithinLimits, Dropped;
    var k := |log| - |buffer.events|;
    EnforcedKeepsLongestFit(buffer, limits, now);
    var d := Dropped(buffer, limits, now);
    SuffixOfSuffix(log, k, d);
    FitsIsWithinLimits(log[k + d..], limits, now);
    forall j | 0 <= j < k + d ensures !Fits(log[j..], limits, now) {
      if j >= k {
        SuffixOfSuffix(log, k, j - k);
        FitsIsWithinLimits(log[j..], limits, now);
      }
    }
  }

  lemma AppendKeepsCut(f: Feed, limits: Limits, run: RunScope, body: string, sizeBytes: int, createdAt: int, enforceAt: int)
    requires FeedOK(f, limits) && CutOK(f, limits) && f.clock <= createdAt <= enforceAt
    ensures CutOK(Append(f, limits, run, body, sizeBytes, createdAt, enforceAt).0, limits)
  {
    hide Enforced, BufferOK, LogOK, QueueOK, Registered, Published, SetSubscribers, WithRoom, EvictedForGood;
    var (g, r) := Append(f, limits, run, body, sizeBytes, createdAt, enforceAt);
    if r.Ok? {
      forall other ensures EvictedForGood(LogOf(g.log, other), |BufferOf(g.replay, other).events|, limits, g.clock) {
        assert EvictedForGood(LogOf(f.log, other), |BufferOf(f.replay, other).events|, limits, f.clock);
        if other == run {
          AppendedCut(f, limits, run, r.value, enforceAt);
        } else {
          EvictionAges(LogOf(f.log, other), |BufferOf(f.replay, other).events|, limits, f.clock, enforceAt);
        }
      }
    }
  }

  lemma RunParts(f: Feed, limits: Limits, run: RunScope)
    requires FeedOK(f, limits)
    ensures LogOK(LogOf(f.log, run), run, f.nextEventID, f.clock) && BufferOK(BufferOf(f.replay, run), LogOf(f.log, run))
    ensures limits.Normalized() && AgesSorted(LogOf(f.log, run)) && IdsIncrease(LogOf(f.log, run))
  {
    hide FeedOK, BufferOK, IdsIncrease, AgesSorted;
    RunBuffer(f, limits, run);
    RunLog(f, limits, run);
  }

  lemma RunBuffer(f: Feed, limits: Limits, run: RunScope)
    requires FeedOK(f, limits)
    ensures BufferOK(BufferOf(f.replay, run), LogOf(f.log, run))
  {
    hide BufferOK, LogsOK, ChannelsOK, SubscribersOK, OpenOnesRegistered;
    EmptyBufferOK(LogOf(f.log, run));
  }

  lemma RunLog(f: Feed, limits: Limits, run: RunScope)
    requires FeedOK(f, limits)
    ensures LogOK(LogOf(f.log, run), run, f.nextEventID, f.clock) && limits.Normalized()
  {
    hide BuffersOK, ChannelsOK, SubscribersOK, OpenOnesRegistered;
  }

  lemma AppendedCut(f: Feed, limits: Limits, run: RunScope, e: Event, now: int)
    requires FeedOK(f, limits) && CutOK(f, limits) && f.clock <= now
    requires e.eventID == f.nextEventID + 1 && e.run == run && UnixMilli(f.clock) <= e.createdAtUnixMS <= UnixMilli(now)
    ensures EvictedForGood(LogOf(f.log, run) + [e], |Enforced(Pushed(BufferOf(f.replay, run), e), limits, now).events|, limits, now)
  {
    hide Enforced, FeedOK, BufferOK, LogOK, EvictedForGood, Fits, IdsIncrease, AgesSorted;
    var log, buffer := LogOf(f.log, run), BufferOf(f.replay, run);
    RunParts(f, limits, run);
    PushedBufferOK(buffer, log, e);
    EvictionGrows(log, e, |buffer.events|, limits, f.clock, now);
    LogExtends(log, run, f.nextEventID, f.clock, e, now);
    CutLeavesWindow(Pushed(buffer, e), log + [e], limits, now);
  }

  /** The buffer of a run at the time of a replay, cut, is the run's window. */
  lemma ReplayedWindow(f: Feed, limits: Limits, run: RunScope, now: int)
    requires FeedOK(f, limits) && CutOK(f, limits) && f.clock <= now
    ensures var log := LogOf(f.log, run); var kept := Enforced(BufferOf(f.replay, run), limits, now).events;
            && |kept| <= |log| && kept == log[|log| - |kept|..]
            && WindowAt(log, |log| - |kept|, limits, now) && EvictedForGood(log, |kept|, limits, now)
    ensures AgesSorted(LogOf(f.log, run)) && IdsIncrease(LogOf(f.log, run))
  {
    hide Enforced, FeedOK, BufferOK, LogOK, EvictedForGood, Fits, IdsIncrease, AgesSorted;
    var log, buffer := LogOf(f.log, run), BufferOf(f.replay, run);
    RunParts(f, limits, run);
    EvictionAges(log, |buffer.events|, limits, f.clock, now);
    CutLeavesWindow(buffer, log, limits, now);
  }

  lemma ReplayKeepsCut(f: Feed, limits: Limits, epoch: string, cursor: Cursor, now: int)
    requires FeedOK(f, limits) && CutOK(f, limits) && f.clock <= now
    ensures CutOK(Replay(f, limits, epoch, cursor, now).0, limits)
  {
    hide Enforced, FeedOK, EvictedForGood, Answer, WindowAt;
    var g := Replay(f, limits, epoch, cursor, now).0;
    forall other ensures EvictedForGood(LogOf(g.log, other), |BufferOf(g.replay, other).events|, limits, g.clock) {
      assert EvictedForGood(LogOf(f.log, other), |BufferOf(f.replay, other).events|, limits, f.clock);
      EvictionAges(LogOf(f.log, other), |BufferOf(f.replay, other).events|, limits, f.clock, now);
      if other == cursor.run { ReplayedWindow(f, limits, other, now); }
    }
  }

  lemma StepKeepsCut(f: Feed, limits: Limits, epoch: string, op: FeedOp)
    requires FeedOK(f, limits) && CutOK(f, limits)
    ensures CutOK(ApplyFeed(f, limits, epoch, op), limits)
  {
    hide Append, Replay, FeedOK, EvictedForGood, LogOf, BufferOf, SubscribersOf, SetSubscribers, Closed, Correlates, IsTerminal;
    match op
    case OpAppend(run, body, sizeBytes, createdAt, enforceAt) =>
      if f.clock <= createdAt <= enforceAt { AppendKeepsCut(f, limits, run, body, sizeBytes, createdAt, enforceAt); }
    case OpReplay(cursor, now) => if f.clock <= now { ReplayKeepsCut(f, limits, epoch, cursor, now); }
    case _ => SameBuffersKeepCut(f, ApplyFeed(f, limits, epoch, op), limits);
  }

  lemma SameBuffersKeepCut(f: Feed, g: Feed, limits: Limits)
    requires CutOK(f, limits) && g.log == f.log && g.replay == f.replay && g.clock == f.clock
    ensures CutOK(g, limits)
  {
    hide EvictedForGood;
    forall run ensures EvictedForGood(LogOf(g.log, run), |BufferOf(g.replay, run).events|, limits, g.clock) {
      assert EvictedForGood(LogOf(f.log, run), |BufferOf(f.replay, run).events|, limits, f.clock);
    }
  }

  lemma {:induction false} EveryStateIsCut(limits: Limits, epoch: string, ops: seq<FeedOp>)
    requires limits.Normalized()
    ensures CutOK(ApplyFeedAll(EMPTY_FEED, limits, epoch, ops), limits)
    ensures FeedOK(ApplyFeedAll(EMPTY_FEED, limits, epoch, ops), limits)
  {
    hide ApplyFeed, FeedOK, CutOK;
    EveryStateOK(limits, epoch, ops);
    if ops == [] {
      assert CutOK(EMPTY_FEED, limits) by { EmptyIsCut(limits); }
    } else {
      EveryStateIsCut(limits, epoch, ops[..|ops| - 1]);
      StepKeepsCut(ApplyFeedAll(EMPTY_FEED, limits, epoch, ops[..|ops| - 1]), limits, epoch, ops[|ops| - 1]);
    }
  }

  lemma EmptyIsCut(limits: Limits)
    ensures CutOK(EMPTY_FEED, limits)
  {
  }

  // ----- the answers --------------------------------------------------------------------------

  /** The recorded start eviction of a run, 0 if none. */
  function LostBefore(f: Feed, run: RunScope): nat {
    if run in f.replay then f.replay[run].startEvictedBeforeEventID else 0
  }

  /** A cursor of another process is refused before anything else, and nothing changes. */
  lemma ForeignCursorIsUnavailable(limits: Limits, epoch: string, ops: seq<FeedOp>, cursor: Cursor, now: int)
    requires cursor.epoch != epoch
    ensures var f := ApplyFeedAll(EMPTY_FEED, limits, epoch, ops);
            Replay(f, limits, epoch, cursor, now) == (f, Err(UnavailableAfterRestart))
  {
    hide ApplyFeedAll;
  }

  /** The verdict on any other cursor, from the window that begins at index `k` of the run's
      log: with nothing in the window the run is unavailable; else the cursor is beyond the
      newest event, before the oldest one that is left, or answered. */
  ghost predicate Verdict(log: seq<Event>, k: nat, lost: nat, after: nat, r: Result<ReplayResult, ReplayFailure>)
    requires k <= |log|
  {
    if k == |log| then r == Err(UnavailableAfterRestart)
    else
      && (r == Err(OutOfRange) <==> after > log[|log| - 1].eventID)
      && (r == Err(CursorEvicted) <==> after + 1 < log[k].eventID && (after > 0 || lost == 0))
      && (r.Ok? <==> after <= log[|log| - 1].eventID && (log[k].eventID <= after + 1 || (after == 0 && lost != 0)))
      && (r.Ok? ==>
            && r.value.oldestBufferedEventID == log[k].eventID
            && r.value.newestBufferedEventID == log[|log| - 1].eventID
            && r.value.startEvictedBeforeEventID == lost && (r.value.fromStartAvailable <==> lost == 0)
            && IdsIncrease(r.value.events)
            && forall e :: e in r.value.events <==> e in log[k..] && e.eventID > after)
  }

  lemma AnswerVerdict(buffer: ReplayBuffer, log: seq<Event>, after: nat)
    requires buffer.events != [] && |buffer.events| <= |log| && buffer.events == log[|log| - |buffer.events|..]
    requires IdsIncrease(log) && (forall i | 0 <= i < |log| :: log[i].eventID >= 1)
    ensures Verdict(log, |log| - |buffer.events|, buffer.startEvictedBeforeEventID, after, Answer(buffer, after))
  {
    hide Above;
    var k := |log| - |buffer.events|;
    assert buffer.events[0] == log[k] && buffer.events[|buffer.events| - 1] == log[|log| - 1];
    assert k < |log| - 1 ==> log[k].eventID < log[|log| - 1].eventID;
    AboveContents(buffer.events, after);
  }

  /** What a replay leaves behind: the run's buffer is its window, or forgotten when that is
      empty; its eviction mark moves with the window; no other part of the store changes. */
  ghost predicate LeavesWindow(f: Feed, g: Feed, run: RunScope, k: nat, now: int)
    requires k <= |LogOf(f.log, run)|
  {
    var log := LogOf(f.log, run);
    && (k < |log| ==> run in g.replay && g.replay[run].events == log[k..])
    && (k == |log| ==> run !in g.replay)
    && (LostBefore(g, run) == 0 || (k > 0 && LostBefore(g, run) == log[k - 1].eventID + 1))
    && (forall other | other != run ::
          (other in g.replay <==> other in f.replay) && (other in g.replay ==> g.replay[other] == f.replay[other]))
    && g == f.(replay := g.replay, clock := g.clock)
    && (g == f || g.clock == now)
  }

  lemma ReplayLeavesWindow(f: Feed, limits: Limits, epoch: string, cursor: Cursor, now: int, k: nat)
    requires FeedOK(f, limits) && CutOK(f, limits) && f.clock <= now && cursor.epoch == epoch
    requires WindowAt(LogOf(f.log, cursor.run), k, limits, now)
    requires BufferOf(f.replay, cursor.run).events != []
    ensures var (g, r) := Replay(f, limits, epoch, cursor, now);
            && LeavesWindow(f, g, cursor.run, k, now)
            && Verdict(LogOf(f.log, cursor.run), k, LostBefore(g, cursor.run), cursor.afterEventID, r)
  {
    hide Enforced, QueueOK, Registered, Fits, BufferOK, Answer, Verdict, LogOK;
    var run, log := cursor.run, LogOf(f.log, cursor.run);
    ReplayedWindow(f, limits, run, now);
    var kept := Enforced(f.replay[run], limits, now);
    WindowIsUnique(log, k, |log| - |kept.events|, limits, now);
    EnforcedBufferOK(f.replay[run], log, limits, now);
    BufferIsLogEnd(kept, log);
    if kept.events != [] {
      LogIDs(f, limits, run);
      AnswerVerdict(kept, log, cursor.afterEventID);
    } else {
      assert Verdict(log, k, 0, cursor.afterEventID, Err(UnavailableAfterRestart)) by { EmptyVerdict(log, 0, cursor.afterEventID); }
    }
  }

  lemma EmptyVerdict(log: seq<Event>, lost: nat, after: nat)
    ensures Verdict(log, |log|, lost, after, Err(UnavailableAfterRestart))
  {
  }

  lemma LogIDs(f: Feed, limits: Limits, run: RunScope)
    requires FeedOK(f, limits)
    ensures var log := LogOf(f.log, run); IdsIncrease(log) && forall i | 0 <= i < |log| :: log[i].eventID >= 1
  {
    hide FeedOK;
    RunLog(f, limits, run);
  }

  lemma EmptyStaysEmpty(buffer: ReplayBuffer, limits: Limits, now: int)
    requires buffer.events == []
    ensures Enforced(buffer, limits, now) == buffer
  {
  }

  /** In every reachable state the answer to a cursor of this process is the verdict of the
      longest fitting end of the run's log, and that end is what the store keeps. */
  lemma ReplayAnswersFromWindow(limits: Limits, epoch: string, ops: seq<FeedOp>, cursor: Cursor, now: int, k: nat)
    requires limits.Normalized() && cursor.epoch == epoch && ApplyFeedAll(EMPTY_FEED, limits, epoch, ops).clock <= now
    requires WindowAt(LogOf(ApplyFeedAll(EMPTY_FEED, limits, epoch, ops).log, cursor.run), k, limits, now)
    ensures var f := ApplyFeedAll(EMPTY_FEED, limits, epoch, ops); var (g, r) := Replay(f, limits, epoch, cursor, now);
            && Verdict(LogOf(f.log, cursor.run), k, LostBefore(g, cursor.run), cursor.afterEventID, r)
            && (if BufferOf(f.replay, cursor.run).events == [] then g == f else LeavesWindow(f, g, cursor.run, k, now))
  {
    hide FeedOK, CutOK, ApplyFeedAll, Verdict, LeavesWindow, Fits, Enforced;
    EveryStateIsCut(limits, epoch, ops);
    var f := ApplyFeedAll(EMPTY_FEED, limits, epoch, ops);
    if BufferOf(f.replay, cursor.run).events == [] {
      ReplayedWindow(f, limits, cursor.run, now);
      EmptyStaysEmpty(BufferOf(f.replay, cursor.run), limits, now);
      WindowIsUnique(LogOf(f.log, cursor.run), k, |LogOf(f.log, cursor.run)|, limits, now);
      EmptyVerdict(LogOf(f.log, cursor.run), LostBefore(f, cursor.run), cursor.afterEventID);
    } else {
      ReplayLeavesWindow(f, limits, epoch, cursor, now, k);
    }
  }

  // ----- when the start counts as lost ------------------------------------------------------------

  function State(limits: Limits, epoch: string, ops: seq<FeedOp>): Feed {
    ApplyFeedAll(EMPTY_FEED, limits, epoch, ops)
  }

  /** The index of the oldest event that is left in the run's buffer. */
  function OldestLeft(f: Feed, run: RunScope): int {
    |LogOf(f.log, run)| - |BufferOf(f.replay, run).events|
  }

  /** Operation `i` made the store forget the run's buffer, after `n` events of the run. */
  predicate ForgottenAt(limits: Limits, epoch: string, ops: seq<FeedOp>, i: nat, run: RunScope, n: int)
    requires i < |ops|
  {
    && run in State(limits, epoch, ops[..i]).replay && run !in State(limits, epoch, ops[..i + 1]).replay
    && |LogOf(State(limits, epoch, ops[..i]).log, run)| == n
  }

  ghost predicate Forgotten(limits: Limits, epoch: string, ops: seq<FeedOp>, run: RunScope, n: int) {
    exists i | 0 <= i < |ops| :: ForgottenAt(limits, epoch, ops, i, run, n)
  }

  /** How one step moves the oldest event left and the eviction mark of a run. */
  ghost predicate MarkMoves(f: Feed, g: Feed, run: RunScope) {
    if run in f.replay && run !in g.replay then g.log == f.log && LostBefore(g, run) == 0
    else
      || (OldestLeft(g, run) == OldestLeft(f, run) && LostBefore(g, run) == LostBefore(f, run))
      || (OldestLeft(g, run) > OldestLeft(f, run) && LostBefore(g, run) != 0)
  }

  lemma CutMovesMark(buffer: ReplayBuffer, limits: Limits, now: int)
    ensures var kept := Enforced(buffer, limits, now);
            || kept == buffer
            || (|kept.events| < |buffer.events| && kept.startEvictedBeforeEventID != 0)
  {
    hide Enforced, Dropped, SizeSum;
    EnforcedIsSuffix(buffer, limits, now);
  }

  lemma AppendMovesMark(f: Feed, limits: Limits, run: RunScope, body: string, sizeBytes: int, createdAt: int, enforceAt: int,
                        other: RunScope)
    ensures MarkMoves(f, Append(f, limits, run, body, sizeBytes, createdAt, enforceAt).0, other)
  {
    hide Enforced, SetSubscribers, Published, WithRoom;
    var (g, r) := Append(f, limits, run, body, sizeBytes, createdAt, enforceAt);
    if r.Ok? { CutMovesMark(Pushed(BufferOf(f.replay, run), r.value), limits, enforceAt); }
  }

  lemma ReplayMovesMark(f: Feed, limits: Limits, epoch: string, cursor: Cursor, now: int, other: RunScope)
    ensures MarkMoves(f, Replay(f, limits, epoch, cursor, now).0, other)
  {
    hide Enforced, Answer;
    CutMovesMark(BufferOf(f.replay, cursor.run), limits, now);
  }

  lemma StepMovesMark(f: Feed, limits: Limits, epoch: string, op: FeedOp, run: RunScope)
    ensures MarkMoves(f, ApplyFeed(f, limits, epoch, op), run)
  {
    hide Append, Replay, LogOf, BufferOf, SubscribersOf, SetSubscribers, Closed, Correlates, IsTerminal;
    match op
    case OpAppend(r, body, sizeBytes, createdAt, enforceAt) =>
      if f.clock <= createdAt <= enforceAt { AppendMovesMark(f, limits, r, body, sizeBytes, createdAt, enforceAt, run); }
    case OpReplay(cursor, now) => if f.clock <= now { ReplayMovesMark(f, limits, epoch, cursor, now, run); }
    case _ =>
  }

  lemma ForgottenGrows(limits: Limits, epoch: string, ops: seq<FeedOp>, run: RunScope, n: int)
    requires ops != []
    ensures var init := ops[..|ops| - 1];
            Forgotten(limits, epoch, ops, run, n) <==>
              Forgotten(limits, epoch, init, run, n) || ForgottenAt(limits, epoch, ops, |ops| - 1, run, n)
  {
    hide State;
    var init := ops[..|ops| - 1];
    forall i | 0 <= i < |init|
      ensures ForgottenAt(limits, epoch, init, i, run, n) <==> ForgottenAt(limits, epoch, ops, i, run, n)
    {
      assert init[..i] == ops[..i] && init[..i + 1] == ops[..i + 1];
    }
  }

  /** The start of a run counts as lost exactly when something is gone and the store did not
      forget the run just there: a forgotten buffer takes its mark along. */
  lemma {:induction false} StartLostIff(limits: Limits, epoch: string, ops: seq<FeedOp>, run: RunScope)
    requires limits.Normalized()
    ensures var f := State(limits, epoch, ops); var n := OldestLeft(f, run);
            && n >= 0
            && (LostBefore(f, run) != 0 <==> n > 0 && !Forgotten(limits, epoch, ops, run, n))
            && (forall m :: Forgotten(limits, epoch, ops, run, m) ==> m <= n)
  {
    hide ApplyFeed, FeedOK, Forgotten, ForgottenAt, BufferOK, LogOK, MarkMoves, OldestLeft, LostBefore;
    EveryStateOK(limits, epoch, ops);
    RunParts(State(limits, epoch, ops), limits, run);
    if ops == [] {
      NothingForgotten(limits, epoch, run);
    } else {
      var init := ops[..|ops| - 1];
      StartLostIff(limits, epoch, init, run);
      var f, g := State(limits, epoch, init), State(limits, epoch, ops);
      StepMovesMark(f, limits, epoch, ops[|ops| - 1], run);
      EveryStateOK(limits, epoch, init);
      RunParts(f, limits, run);
      forall m
        ensures Forgotten(limits, epoch, ops, run, m) <==>
                Forgotten(limits, epoch, init, run, m) || (run in f.replay && run !in g.replay && |LogOf(f.log, run)| == m)
      {
        ForgottenGrows(limits, epoch, ops, run, m);
        LastForgotten(limits, epoch, ops, run, m);
      }
      MarkedOldest(f, g, run);
    }
  }

  lemma LastForgotten(limits: Limits, epoch: string, ops: seq<FeedOp>, run: RunScope, n: int)
    requires ops != []
    ensures var f, g := State(limits, epoch, ops[..|ops| - 1]), State(limits, epoch, ops);
            ForgottenAt(limits, epoch, ops, |ops| - 1, run, n) <==>
              run in f.replay && run !in g.replay && |LogOf(f.log, run)| == n
  {
    hide State;
    assert ops[..|ops|] == ops;
  }

  lemma MarkedOldest(f: Feed, g: Feed, run: RunScope)
    requires BufferOK(BufferOf(g.replay, run), LogOf(g.log, run)) && MarkMoves(f, g, run)
    requires BufferOK(BufferOf(f.replay, run), LogOf(f.log, run))
    ensures OldestLeft(g, run) >= OldestLeft(f, run) >= 0
    ensures run in f.replay && run !in g.replay ==> LostBefore(g, run) == 0 && OldestLeft(g, run) == |LogOf(f.log, run)|
    ensures !(run in f.replay && run !in g.replay) ==>
              || (OldestLeft(g, run) == OldestLeft(f, run) && LostBefore(g, run) == LostBefore(f, run))
              || (OldestLeft(g, run) > OldestLeft(f, run) && LostBefore(g, run) != 0)
  {
  }

  lemma NothingForgotten(limits: Limits, epoch: string, run: RunScope)
    ensures var f := State(limits, epoch, []);
            OldestLeft(f, run) == 0 && LostBefore(f, run) == 0 && forall m :: !Forgotten(limits, epoch, [], run, m)
  {
  }

  /** So an answer says that the start is still available exactly when nothing of the run was
      evicted, or the store forgot the run where the window now begins. */
  lemma FromStartAvailableIff(limits: Limits, epoch: string, ops: seq<FeedOp>, cursor: Cursor, now: int, k: nat)
    requires limits.Normalized() && cursor.epoch == epoch && State(limits, epoch, ops).clock <= now
    requires WindowAt(LogOf(State(limits, epoch, ops).log, cursor.run), k, limits, now)
    requires Replay(State(limits, epoch, ops), limits, epoch, cursor, now).1.Ok?
    ensures Replay(State(limits, epoch, ops), limits, epoch, cursor, now).1.value.fromStartAvailable <==>
            k == 0 || Forgotten(limits, epoch, ops, cursor.run, k)
  {
    hide Enforced, Replay, Fits, Forgotten, BufferOK, LogOK, ForgottenAt;
    var f, g := State(limits, epoch, ops), Replay(State(limits, epoch, ops), limits, epoch, cursor, now).0;
    var more := ops + [OpReplay(cursor, now)];
    ReplayAnswersFromWindow(limits, epoch, ops, cursor, now, k);
    OkNeedsBuffer(f, limits, epoch, cursor, now);
    assert more[..|more| - 1] == ops;
    assert State(limits, epoch, more) == g;
    StartLostIff(limits, epoch, more, cursor.run);
    ForgottenGrows(limits, epoch, more, cursor.run, k);
    LastForgotten(limits, epoch, more, cursor.run, k);
  }

  lemma OkNeedsBuffer(f: Feed, limits: Limits, epoch: string, cursor: Cursor, now: int)
    requires Replay(f, limits, epoch, cursor, now).1.Ok?
    ensures BufferOf(f.replay, cursor.run).events != []
  {
  }

  lemma OneExpires(limits: Limits, e: Event, late: int)
    requires limits.Normalized() && e.sizeBytes == 0 && late - e.createdAtUnixMS * 1_000_000 > limits.replayTTL
    ensures Enforced(ReplayBuffer([e], 0, 0), limits, late).events == []
  {
    assert [e][1..] == [];
  }

  lemma OneStays(limits: Limits, e: Event, now: int)
    requires limits.Normalized() && e.sizeBytes == 0 && now - e.createdAtUnixMS * 1_000_000 <= limits.replayTTL
    ensures Enforced(ReplayBuffer([e], 0, 0), limits, now) == ReplayBuffer([e], 0, 0)
  {
  }

  lemma AppendOne(f: Feed, limits: Limits, run: RunScope, at: int)
    requires limits.Normalized() && ValidRunScope(run) && run !in f.replay
    requires at - at / 1_000_000 * 1_000_000 <= limits.replayTTL
    ensures var g := Append(f, limits, run, "", 0, at, at).0; var e := Event(f.nextEventID + 1, run, "", at / 1_000_000, 0);
            && run in g.replay && g.replay[run] == ReplayBuffer([e], 0, 0) && LogOf(g.log, run) == LogOf(f.log, run) + [e]
            && g.nextEventID == f.nextEventID + 1 && g.clock == at
  {
    var e := Event(f.nextEventID + 1, run, "", at / 1_000_000, 0);
    OneStays(limits, e, at);
    assert [] + [e] == [e];
    hide Enforced;
  }

  lemma ReplayForgets(f: Feed, limits: Limits, epoch: string, run: RunScope, e: Event, late: int)
    requires limits.Normalized() && run in f.replay && f.replay[run] == ReplayBuffer([e], 0, 0) && e.sizeBytes == 0
    requires late - e.createdAtUnixMS * 1_000_000 > limits.replayTTL
    ensures Replay(f, limits, epoch, Cursor(epoch, run, 1), late).0 == f.(replay := f.replay - {run}, clock := late)
  {
    OneExpires(limits, e, late);
    hide Enforced;
  }

  lemma ReplayAnswersOne(f: Feed, limits: Limits, epoch: string, run: RunScope, e: Event, now: int)
    requires limits.Normalized() && run in f.replay && f.replay[run] == ReplayBuffer([e], 0, 0) && e.sizeBytes == 0
    requires e.eventID == 2 && now - e.createdAtUnixMS * 1_000_000 <= limits.replayTTL
    ensures var r := Replay(f, limits, epoch, Cursor(epoch, run, 1), now).1;
            r == Ok(ReplayResult([e], 2, 2, true, 0))
  {
    OneStays(limits, e, now);
    assert Above([e], 1) == [e] by { assert [e][..0] == []; }
    hide Enforced;
  }

  lemma StateSnoc(limits: Limits, epoch: string, ops: seq<FeedOp>, op: FeedOp)
    ensures State(limits, epoch, ops + [op]) == ApplyFeed(State(limits, epoch, ops), limits, epoch, op)
  {
    hide ApplyFeed;
    assert (ops + [op])[..|ops|] == ops;
  }

  lemma StateOfNothing(limits: Limits, epoch: string)
    ensures State(limits, epoch, []) == EMPTY_FEED
  {
  }

  /** This happens: an event of a run expires, a replay forgets the run, and another event
      comes. A stream that resumes after the first event is then told that the start is still
      available, although that event is gone. */
  lemma ForgottenStartLooksAvailable(limits: Limits, epoch: string, run: RunScope)
    requires limits.Normalized() && limits.replayTTL >= 1_000_000 && ValidRunScope(run)
    ensures var late := limits.replayTTL + 1; var cursor := Cursor(epoch, run, 1);
            var f := State(limits, epoch, [OpAppend(run, "", 0, 0, 0), OpReplay(cursor, late), OpAppend(run, "", 0, late, late)]);
            var r := Replay(f, limits, epoch, cursor, late).1;
            && |LogOf(f.log, run)| == 2 && r.Ok? && r.value.fromStartAvailable
            && r.value.oldestBufferedEventID == 2 == LogOf(f.log, run)[1].eventID
  {
    hide Append, Replay, ApplyFeedAll;
    var late, cursor := limits.replayTTL + 1, Cursor(epoch, run, 1);
    var op1, op2, op3 := OpAppend(run, "", 0, 0, 0), OpReplay(cursor, late), OpAppend(run, "", 0, late, late);
    assert [] + [op1] == [op1] && [op1] + [op2] == [op1, op2] && [op1, op2] + [op3] == [op1, op2, op3];
    StateSnoc(limits, epoch, [], op1);
    StateSnoc(limits, epoch, [op1], op2);
    StateSnoc(limits, epoch, [op1, op2], op3);
    var f1, f2 := State(limits, epoch, [op1]), State(limits, epoch, [op1, op2]);
    var f3 := State(limits, epoch, [op1, op2, op3]);
    assert State(limits, epoch, []) == EMPTY_FEED by { StateOfNothing(limits, epoch); }
    AppendOne(EMPTY_FEED, limits, run, 0);
    ReplayForgets(f1, limits, epoch, run, Event(1, run, "", 0, 0), late);
    AppendOne(f2, limits, run, late);
    ReplayAnswersOne(f3, limits, epoch, run, Event(2, run, "", late / 1_000_000, 0), late);
  }
}
