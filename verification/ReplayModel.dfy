/** Values held by the chat state store for event delivery: identifiers, event
    records, the bounded replay buffer and the full append log it stands for.
    Times are in nanoseconds; stored times are whole milliseconds, as in the store. */
module ReplayModel {
  import opened Common

  datatype Scope = Scope(sessionGroupID: string, workspaceID: string, chatID: string)

  datatype RunScope = RunScope(chat: Scope, runID: string)

  predicate ValidRunScope(run: RunScope) {
    run.chat.sessionGroupID != "" && run.chat.workspaceID != "" && run.chat.chatID != "" && run.runID != ""
  }

  /** `body` stands for the labels and the typed payload copied from the input. */
  datatype Event = Event(eventID: nat, run: RunScope, body: string, createdAtUnixMS: int, sizeBytes: nat)

  datatype Limits = Limits(replayMaxEvents: int, replayMaxBytes: int, replayTTL: int, subscriberQueue: int)
  {
    predicate Normalized() {
      replayMaxEvents > 0 && replayMaxBytes > 0 && replayTTL > 0 && subscriberQueue > 0
    }
  }

  datatype ReplayBuffer = ReplayBuffer(events: seq<Event>, bytes: int, startEvictedBeforeEventID: nat)

  const EMPTY_BUFFER := ReplayBuffer([], 0, 0)

  const NANOS_PER_MILLI := 1_000_000

  function UnixMilli(now: int): int { now / NANOS_PER_MILLI }

  function SizeSum(events: seq<Event>): nat {
    if events == [] then 0 else events[0].sizeBytes + SizeSum(events[1..])
  }

  predicate Expired(event: Event, limits: Limits, now: int) {
    now - event.createdAtUnixMS * NANOS_PER_MILLI > limits.replayTTL
  }

  /** The three limits, stated of a whole run of buffered events. */
  ghost predicate WithinLimits(events: seq<Event>, limits: Limits, now: int) {
    && |events| <= limits.replayMaxEvents
    && SizeSum(events) <= limits.replayMaxBytes
    && forall i | 0 <= i < |events| :: !Expired(events[i], limits, now)
  }

  ghost predicate IdsIncrease(events: seq<Event>) {
    forall i, j | 0 <= i < j < |events| :: events[i].eventID < events[j].eventID
  }

  ghost predicate AgesSorted(events: seq<Event>) {
    forall i, j | 0 <= i < j < |events| :: events[i].createdAtUnixMS <= events[j].createdAtUnixMS
  }

  // ----- eviction -------------------------------------------------------------

  predicate MustEvict(buffer: ReplayBuffer, limits: Limits, now: int)
    requires buffer.events != []
  {
    |buffer.events| > limits.replayMaxEvents || buffer.bytes > limits.replayMaxBytes
    || Expired(buffer.events[0], limits, now)
  }

  function EvictOldest(buffer: ReplayBuffer): ReplayBuffer
    requires buffer.events != []
  {
    ReplayBuffer(buffer.events[1..], buffer.bytes - buffer.events[0].sizeBytes, buffer.events[0].eventID + 1)
  }

  function Enforced(buffer: ReplayBuffer, limits: Limits, now: int): ReplayBuffer
    decreases |buffer.events|
  {
    if buffer.events != [] && MustEvict(buffer, limits, now)
    then Enforced(EvictOldest(buffer), limits, now)
    else buffer
  }

  /** Number of events `Enforced` drops from the front. */
  ghost function Dropped(buffer: ReplayBuffer, limits: Limits, now: int): nat
    decreases |buffer.events|
  {
    if buffer.events != [] && MustEvict(buffer, limits, now)
    then 1 + Dropped(EvictOldest(buffer), limits, now)
    else 0
  }

  lemma {:induction false} EnforcedIsSuffix(buffer: ReplayBuffer, limits: Limits, now: int)
    ensures var k := Dropped(buffer, limits, now); var e := Enforced(buffer, limits, now);
            && k <= |buffer.events| && e.events == buffer.events[k..]
            && e.bytes - SizeSum(e.events) == buffer.bytes - SizeSum(buffer.events)
            && e.startEvictedBeforeEventID ==
               (if k == 0 then buffer.startEvictedBeforeEventID else buffer.events[k - 1].eventID + 1)
    decreases |buffer.events|
  {
    if buffer.events != [] && MustEvict(buffer, limits, now) {
      EnforcedIsSuffix(EvictOldest(buffer), limits, now);
    }
  }

  /** Enforcement keeps exactly the longest suffix within the count, byte and age
      limits: what is kept fits, and every longer suffix does not. */
  lemma {:induction false} EnforcedKeepsLongestFit(buffer: ReplayBuffer, limits: Limits, now: int)
    requires buffer.bytes == SizeSum(buffer.events) && AgesSorted(buffer.events) && limits.Normalized()
    ensures var k := Dropped(buffer, limits, now);
            && k <= |buffer.events| && Enforced(buffer, limits, now).events == buffer.events[k..]
            && Enforced(buffer, limits, now).bytes == SizeSum(buffer.events[k..])
            && WithinLimits(buffer.events[k..], limits, now)
            && forall j | 0 <= j < k :: !WithinLimits(buffer.events[j..], limits, now)
    decreases |buffer.events|
  {
    EnforcedIsSuffix(buffer, limits, now);
    if buffer.events != [] && MustEvict(buffer, limits, now) {
      var rest := EvictOldest(buffer);
      EnforcedKeepsLongestFit(rest, limits, now);
      assert forall j | 0 < j <= |buffer.events| :: buffer.events[j..] == rest.events[j - 1..];
      assert buffer.events[0..] == buffer.events;
    } else {
      assert buffer.events[0..] == buffer.events;
    }
  }

  // ----- reading ---------------------------------------------------------------

  /** The events with an id above the cursor, in order. */
  function Above(events: seq<Event>, afterEventID: nat): seq<Event> {
    if events == [] then []
    else
      var last := events[|events| - 1];
      var rest := Above(events[..|events| - 1], afterEventID);
      if last.eventID > afterEventID then rest + [last] else rest
  }

  lemma {:induction false} AbovePrefix(events: seq<Event>, n: nat, afterEventID: nat)
    requires n <= |events|
    ensures Above(events[..n], afterEventID) <= Above(events, afterEventID)
  {
    if n == |events| {
      assert events[..n] == events;
    } else {
      var init := events[..|events| - 1];
      AbovePrefix(init, n, afterEventID);
      assert init[..n] == events[..n];
    }
  }

  lemma {:induction false} AboveSkips(events: seq<Event>, k: nat, afterEventID: nat)
    requires k <= |events| && forall i | 0 <= i < k :: events[i].eventID <= afterEventID
    ensures Above(events, afterEventID) == Above(events[k..], afterEventID)
  {
    if k == |events| {
      if events != [] {
        assert events[..k - 1] == events[..|events| - 1];
        AboveSkips(events[..k - 1], k - 1, afterEventID);
        assert events[..k - 1][k - 1..] == [];
      }
    } else {
      var init := events[..|events| - 1];
      AboveSkips(init, k, afterEventID);
      assert events[k..][..|events| - k - 1] == init[k..];
    }
  }

  /** Everything above the cursor, nothing else, in append order. */
  lemma {:induction false} AboveContents(events: seq<Event>, afterEventID: nat)
    requires IdsIncrease(events)
    ensures IdsIncrease(Above(events, afterEventID))
    ensures forall e :: e in Above(events, afterEventID) <==> e in events && e.eventID > afterEventID
  {
    if events != [] {
      var init := events[..|events| - 1];
      AboveContents(init, afterEventID);
      assert events == init + [events[|events| - 1]];
      var rest := Above(init, afterEventID);
      forall e | e in rest ensures e.eventID < events[|events| - 1].eventID {
        assert e in init;
      }
    }
  }

  /** The last event of an increasing log is the last one above any cursor that leaves something. */
  lemma {:induction false} AboveLast(events: seq<Event>, afterEventID: nat)
    requires IdsIncrease(events) && Above(events, afterEventID) != []
    ensures events != []
    ensures var a := Above(events, afterEventID); a[|a| - 1] == events[|events| - 1]
    ensures events[|events| - 1].eventID > afterEventID
  {
    var last := events[|events| - 1];
    if last.eventID <= afterEventID {
      AboveContents(events, afterEventID);
      AboveSkips(events, |events|, afterEventID);
    }
  }

  lemma {:induction false} AboveEmpty(events: seq<Event>, afterEventID: nat)
    requires Above(events, afterEventID) == []
    ensures forall i | 0 <= i < |events| :: events[i].eventID <= afterEventID
  {
    if events != [] {
      AboveEmpty(events[..|events| - 1], afterEventID);
    }
  }

  // ----- the buffer stands for the log -----------------------------------------

  /** The full append log of one run. */
  ghost predicate LogOK(log: seq<Event>, run: RunScope, nextEventID: nat, clock: int) {
    && IdsIncrease(log) && AgesSorted(log)
    && forall i | 0 <= i < |log| ::
         log[i].run == run && 1 <= log[i].eventID <= nextEventID && log[i].createdAtUnixMS <= UnixMilli(clock)
  }

  /** A live buffer is a suffix of its run's log, `bytes` is the sum of the buffered
      sizes, and a recorded start eviction is exactly one past the newest evicted id. */
  ghost predicate BufferOK(buffer: ReplayBuffer, log: seq<Event>) {
    && |buffer.events| <= |log|
    && var k := |log| - |buffer.events|;
    && buffer.events == log[k..]
    && buffer.bytes == SizeSum(buffer.events)
    && (buffer.startEvictedBeforeEventID != 0 ==>
          k > 0 && buffer.startEvictedBeforeEventID == log[k - 1].eventID + 1)
  }

  /** While a start eviction is recorded it separates evicted ids from buffered ids. */
  lemma StartEvictionSeparates(buffer: ReplayBuffer, log: seq<Event>)
    requires BufferOK(buffer, log) && IdsIncrease(log) && buffer.startEvictedBeforeEventID != 0
    ensures forall i | 0 <= i < |log| - |buffer.events| :: log[i].eventID < buffer.startEvictedBeforeEventID
    ensures forall i | 0 <= i < |buffer.events| :: buffer.startEvictedBeforeEventID <= buffer.events[i].eventID
  {
    var k := |log| - |buffer.events|;
    assert forall i | 0 <= i < |buffer.events| :: buffer.events[i] == log[k + i];
  }

  lemma BufferIsLogEnd(buffer: ReplayBuffer, log: seq<Event>)
    requires BufferOK(buffer, log)
    ensures |buffer.events| <= |log| && buffer.events == log[|log| - |buffer.events|..]
    ensures buffer.startEvictedBeforeEventID != 0 ==>
              |log| > |buffer.events| && buffer.startEvictedBeforeEventID == log[|log| - |buffer.events| - 1].eventID + 1
  {
    hide SizeSum;
  }

  /** The end of an end of a log. */
  lemma SuffixOfSuffix(log: seq<Event>, k: nat, d: nat)
    requires k + d <= |log|
    ensures |log[k..]| == |log| - k && log[k..][d..] == log[k + d..]
    ensures d > 0 ==> log[k..][d - 1] == log[k + d - 1]
  {
  }

  lemma CutBufferOK(buffer: ReplayBuffer, cut: ReplayBuffer, log: seq<Event>, d: nat)
    requires BufferOK(buffer, log) && d <= |buffer.events| && cut.events == buffer.events[d..]
    requires cut.bytes - SizeSum(cut.events) == buffer.bytes - SizeSum(buffer.events)
    requires cut.startEvictedBeforeEventID ==
             if d == 0 then buffer.startEvictedBeforeEventID else buffer.events[d - 1].eventID + 1
    ensures BufferOK(cut, log)
  {
    hide SizeSum;
    SuffixOfSuffix(log, |log| - |buffer.events|, d);
  }

  lemma EnforcedBufferOK(buffer: ReplayBuffer, log: seq<Event>, limits: Limits, now: int)
    requires BufferOK(buffer, log)
    ensures BufferOK(Enforced(buffer, limits, now), log)
  {
    hide Enforced, Dropped, SizeSum, BufferOK;
    EnforcedIsSuffix(buffer, limits, now);
    CutBufferOK(buffer, Enforced(buffer, limits, now), log, Dropped(buffer, limits, now));
  }

  lemma {:induction false} SizeSumAppend(events: seq<Event>, e: Event)
    ensures SizeSum(events + [e]) == SizeSum(events) + e.sizeBytes
  {
    if events != [] {
      SizeSumAppend(events[1..], e);
      assert (events + [e])[1..] == events[1..] + [e];
    }
  }

  function Pushed(buffer: ReplayBuffer, e: Event): ReplayBuffer {
    buffer.(events := buffer.events + [e], bytes := buffer.bytes + e.sizeBytes)
  }

  lemma PushedBufferOK(buffer: ReplayBuffer, log: seq<Event>, e: Event)
    requires BufferOK(buffer, log)
    ensures BufferOK(Pushed(buffer, e), log + [e])
  {
    SizeSumAppend(buffer.events, e);
    var k := |log| - |buffer.events|;
    assert (log + [e])[k..] == log[k..] + [e];
  }

  /** One append: the event joins the log and the buffer, and the buffer is cut to its limits. */
  lemma AppendBufferOK(buffer: ReplayBuffer, log: seq<Event>, e: Event, limits: Limits, now: int)
    requires BufferOK(buffer, log)
    ensures BufferOK(Enforced(Pushed(buffer, e), limits, now), log + [e])
  {
    hide Enforced;
    PushedBufferOK(buffer, log, e);
    EnforcedBufferOK(Pushed(buffer, e), log + [e], limits, now);
  }

  lemma EmptyBufferOK(log: seq<Event>)
    ensures BufferOK(EMPTY_BUFFER, log)
  {
    assert log[|log|..] == [];
  }

  // ----- replay ------------------------------------------------------------------

  datatype ReplayFailure = UnavailableAfterRestart | CursorEvicted | OutOfRange

  datatype ReplayResult = ReplayResult(
    events: seq<Event>,
    oldestBufferedEventID: nat,
    newestBufferedEventID: nat,
    fromStartAvailable: bool,
    startEvictedBeforeEventID: nat)

  /** The answer to a cursor from a buffer already cut to its limits. */
  function Answer(buffer: ReplayBuffer, afterEventID: nat): Result<ReplayResult, ReplayFailure>
    requires buffer.events != []
  {
    var oldest := buffer.events[0].eventID;
    var newest := buffer.events[|buffer.events| - 1].eventID;
    var fromStart := buffer.startEvictedBeforeEventID == 0;
    if afterEventID < oldest - 1 && !(afterEventID == 0 && !fromStart) then Err(CursorEvicted)
    else if afterEventID > newest then Err(OutOfRange)
    else Ok(ReplayResult(Above(buffer.events, afterEventID), oldest, newest, fromStart,
                         buffer.startEvictedBeforeEventID))
  }

  /** A successful replay whose cursor is an event, or whose start is still available,
      returns every event ever appended to the run above the cursor, whatever was
      evicted or deleted before. */
  lemma AnswerIsComplete(buffer: ReplayBuffer, log: seq<Event>, run: RunScope, next: nat, clock: int, afterEventID: nat)
    requires LogOK(log, run, next, clock) && BufferOK(buffer, log) && buffer.events != []
    requires Answer(buffer, afterEventID).Ok?
    requires afterEventID > 0 || Answer(buffer, afterEventID).value.fromStartAvailable
    ensures Answer(buffer, afterEventID).value.events == Above(log, afterEventID)
  {
    hide BufferOK, Above, SizeSum;
    BufferIsLogEnd(buffer, log);
    var k := |log| - |buffer.events|;
    assert buffer.events[0] == log[k];
    AboveSkips(log, k, afterEventID);
  }

  /** A cursor whose own event is still buffered is always answered, and completely. */
  lemma BufferedCursorSucceeds(buffer: ReplayBuffer, log: seq<Event>, run: RunScope, next: nat, clock: int, i: nat)
    requires LogOK(log, run, next, clock) && BufferOK(buffer, log) && i < |buffer.events|
    ensures var cursor := buffer.events[i].eventID;
            Answer(buffer, cursor).Ok? && Answer(buffer, cursor).value.events == Above(log, cursor)
  {
    hide SizeSum;
    var k := |log| - |buffer.events|;
    var cursor := buffer.events[i].eventID;
    assert cursor == log[k + i].eventID;
    assert buffer.events[0] == log[k];
    assert buffer.events[|buffer.events| - 1] == log[|log| - 1];
    assert Answer(buffer, cursor).Ok?;
    AnswerIsComplete(buffer, log, run, next, clock, cursor);
  }

  /** What the buffer still has above a cursor falls short of the log exactly when the newest
      evicted event is above the cursor. */
  lemma MissingIff(buffer: ReplayBuffer, log: seq<Event>, afterEventID: nat)
    requires BufferOK(buffer, log) && IdsIncrease(log)
    ensures var k := |log| - |buffer.events|;
            Above(log, afterEventID) != Above(buffer.events, afterEventID) <==> k > 0 && log[k - 1].eventID > afterEventID
  {
    hide BufferOK, Above, IdsIncrease;
    BufferIsLogEnd(buffer, log);
    MissingFromIff(log, |log| - |buffer.events|, afterEventID);
  }

  lemma MissingFromIff(log: seq<Event>, k: nat, afterEventID: nat)
    requires k <= |log| && IdsIncrease(log)
    ensures Above(log, afterEventID) != Above(log[k..], afterEventID) <==> k > 0 && log[k - 1].eventID > afterEventID
  {
    if k == 0 {
      assert log[0..] == log;
    } else if log[k - 1].eventID <= afterEventID {
      AboveSkips(log, k, afterEventID);
    } else {
      MissingEvent(log, k, afterEventID);
    }
  }

  lemma MissingEvent(log: seq<Event>, k: nat, afterEventID: nat)
    requires 0 < k <= |log| && IdsIncrease(log) && log[k - 1].eventID > afterEventID
    ensures Above(log, afterEventID) != Above(log[k..], afterEventID)
  {
    hide Above;
    AboveContents(log, afterEventID);
    AboveContents(log[k..], afterEventID);
    assert log[k - 1] in Above(log, afterEventID) && log[k - 1] !in log[k..];
  }

  /** An eviction report is true, something after the cursor is gone, exactly when the cursor
      lies more than one below the recorded start eviction. */
  lemma EvictionReportIsTrueIff(buffer: ReplayBuffer, log: seq<Event>, afterEventID: nat)
    requires BufferOK(buffer, log) && IdsIncrease(log) && buffer.events != [] && buffer.startEvictedBeforeEventID != 0
    requires Answer(buffer, afterEventID) == Err(CursorEvicted)
    ensures Above(log, afterEventID) != Above(buffer.events, afterEventID) <==>
            afterEventID + 1 < buffer.startEvictedBeforeEventID
  {
    hide SizeSum;
    MissingIff(buffer, log, afterEventID);
  }

  /** Without a recorded start eviction a from-start cursor is answered exactly when the oldest
      buffered event has id 1, the first id of the whole store; it is reported evicted otherwise. */
  lemma FromStartAnsweredIff(buffer: ReplayBuffer, log: seq<Event>, run: RunScope, next: nat, clock: int)
    requires LogOK(log, run, next, clock) && BufferOK(buffer, log) && buffer.events != []
    requires buffer.startEvictedBeforeEventID == 0
    ensures Answer(buffer, 0).Ok? <==> buffer.events[0].eventID == 1
    ensures Answer(buffer, 0).Err? ==> Answer(buffer, 0) == Err(CursorEvicted)
  {
    hide SizeSum;
    var k := |log| - |buffer.events|;
    assert buffer.events[0] == log[k];
    assert buffer.events[|buffer.events| - 1] == log[|log| - 1];
  }

  /** So on a run from which nothing was ever evicted the report is always false, and it is
      made exactly when the run's first id is above 1. */
  lemma UntouchedRunRefusedIff(buffer: ReplayBuffer, run: RunScope, next: nat, clock: int)
    requires LogOK(buffer.events, run, next, clock) && BufferOK(buffer, buffer.events) && buffer.events != []
    ensures Answer(buffer, 0) == Err(CursorEvicted) <==> buffer.events[0].eventID > 1
  {
    FromStartAnsweredIff(buffer, buffer.events, run, next, clock);
    assert buffer.events[0].eventID >= 1;
  }

  /** A cursor on the newest evicted event is refused although everything after it is still
      buffered: ids are shared by all runs. */
  lemma EvictionReportCanBeSpurious(run: RunScope)
    ensures var old1 := Event(1, run, "", 0, 0); var new5 := Event(5, run, "", 0, 0);
            var buffer := ReplayBuffer([new5], 0, 2);
            && BufferOK(buffer, [old1, new5])
            && Answer(buffer, 1) == Err(CursorEvicted)
            && Above([old1, new5], 1) == buffer.events
  {
    var old1 := Event(1, run, "", 0, 0);
    var new5 := Event(5, run, "", 0, 0);
    assert [old1, new5][..1] == [old1];
    assert [old1, new5][1..] == [new5];
    assert Above([old1], 1) == [] by { assert [old1][..0] == []; }
  }
}
