/** StartChatRun and RunChatTurn as the service performs them, statement by statement, on the
    store. What the outside world answers is given by scripts. The ghost world follows along
    in StartsModel: each store call and each outside effect is one of its steps, so everything
    proved there about any number of such calls holds of this code. */
module RunStarters {
  import opened Common
  import opened ReplayModel
  import opened RunsModel
  import IM = IdempotencyModel
  import FM = FeedModel
  import ChatState
  import opened StartsModel

  /** Clock readings never go backwards. */
  ghost predicate Forward(times: nat -> int) {
    forall i, j | 0 <= i <= j :: times(i) <= times(j)
  }

  ghost function ConfigOf(limits: ChatState.StoreLimits): Config
    requires limits.Normalized()
  {
    Config(limits.activeRunsCap, limits.idempotencyCap, limits.feed.replayTTL)
  }

  /** The store holds the entries and runs of the world. */
  ghost predicate Mirrors(store: ChatState.Store, w: World)
    reads store
  {
    w.entries == store.idempotency && w.runs == store.RunsView()
  }

  ghost function RunFrom(w: World, g: Config, path: seq<Action>): World {
    if path == [] then w else Step(RunFrom(w, g, path[..|path| - 1]), g, path[|path| - 1])
  }

  /** Only this call moves, cleanup passes run, and a run found to be over is completed. */
  predicate TakenBy(a: Action, c: nat) {
    a.Cleanup? || (a.Proceed? && a.c == c) || (a.OtherRuns? && a.op.OpComplete?)
  }

  ghost predicate By(path: seq<Action>, c: nat) {
    forall i | 0 <= i < |path| :: TakenBy(path[i], c)
  }

  lemma OneStep(w: World, g: Config, path: seq<Action>, a: Action)
    ensures RunFrom(w, g, path + [a]) == Step(RunFrom(w, g, path), g, a)
  {
    assert (path + [a])[..|path|] == path;
  }

  lemma {:induction false} PathKeepsInv(w: World, g: Config, path: seq<Action>)
    requires Inv(w, g)
    ensures Inv(RunFrom(w, g, path), g)
  {
    hide Inv, Step;
    if path != [] {
      PathKeepsInv(w, g, path[..|path| - 1]);
      StepKeepsInv(RunFrom(w, g, path[..|path| - 1]), g, path[|path| - 1]);
    }
  }

  /** Where a call is: the store mirrors the world its path leads to, and there the call is `caller`. */
  ghost predicate Where(store: ChatState.Store, w: World, path: seq<Action>, c: nat, caller: Caller)
    reads store
  {
    && store.Valid() && By(path, c)
    && var v := RunFrom(w, ConfigOf(store.limits), path);
    && Mirrors(store, v) && c in v.callers && v.callers[c] == caller
  }

  lemma ByLonger(path: seq<Action>, a: Action, c: nat)
    requires By(path, c) && TakenBy(a, c)
    ensures By(path + [a], c)
  {
  }

  // ----- one store call or effect each ------------------------------------------------------------

  method ReleaseKeyOf(store: ChatState.Store, scope: IdempotencyScope, cleanupAt: int,
                      ghost w: World, ghost path: seq<Action>, c: nat, ghost caller: Caller)
    returns (ghost longer: seq<Action>)
    requires Where(store, w, path, c, caller) && caller.scope == scope && caller.pc.DropKey?
    modifies store`pending, store`idempotency
    ensures Where(store, w, longer, c, caller.(pc := if caller.pc.capacity then DropCapacity(false) else Finished(GaveUp)))
  {
    hide IM.ReleaseKey, Expiring, By, RunFrom;
    ghost var a := Proceed(c, DropTheKey(cleanupAt));
    longer := path + [a];
    OneStep(w, ConfigOf(store.limits), path, a);
    ByLonger(path, a, c);
    var r := store.ReleaseIdempotency(scope, cleanupAt);
  }

  method ReleaseCapacityOf(store: ChatState.Store, scope: IdempotencyScope,
                           ghost w: World, ghost path: seq<Action>, c: nat, ghost caller: Caller)
    returns (ghost longer: seq<Action>)
    requires Where(store, w, path, c, caller) && caller.scope == scope && caller.pc.DropCapacity?
    modifies store`activeRunReservations
    ensures Where(store, w, longer, c, caller.(pc := Finished(if caller.pc.kept then Stuck else GaveUp)))
  {
    hide RunsModel.ReleaseCapacity, By, RunFrom;
    ghost var a := Proceed(c, DropTheCapacity);
    longer := path + [a];
    OneStep(w, ConfigOf(store.limits), path, a);
    ByLonger(path, a, c);
    var r := store.ReleaseActiveRunCapacity(scope);
  }

  /** Giving up: the key only if nothing was attempted, and the capacity last. */
  method GiveUp(store: ChatState.Store, scope: IdempotencyScope, attempted: bool, cleanupAt: int,
                ghost w: World, ghost path: seq<Action>, c: nat, ghost caller: Caller)
    returns (ghost longer: seq<Action>)
    requires Where(store, w, path, c, caller) && caller.scope == scope && caller.pc == ExitPc(attempted)
    modifies store`pending, store`idempotency, store`activeRunReservations
    ensures Where(store, w, longer, c, caller.(pc := Finished(if attempted then Stuck else GaveUp)))
  {
    hide Where;
    longer := path;
    ghost var at := caller;
    if !attempted {
      longer := ReleaseKeyOf(store, scope, cleanupAt, w, longer, c, at);
      at := at.(pc := DropCapacity(false));
    }
    longer := ReleaseCapacityOf(store, scope, w, longer, c, at);
  }

  method ReserveCapacityOf(store: ChatState.Store, scope: IdempotencyScope, cleanupAt: int,
                           ghost w: World, ghost path: seq<Action>, c: nat, ghost caller: Caller)
    returns (ok: bool, ghost longer: seq<Action>, ghost next: Caller)
    requires Where(store, w, path, c, caller) && caller.scope == scope && caller.pc.KeyHeld?
    requires scope.operation == StartChatRunOp && ValidIdempotencyScope(scope)
    modifies store`activeRunReservations, store`pending, store`idempotency
    ensures Where(store, w, longer, c, next) && next.scope == scope && next.attempted == caller.attempted
    ensures next.pc == if ok then Connecting(0) else DropKey(false)
  {
    hide RunsModel.ReserveCapacity, IM.CleanedEntries, Expiring, SoleAtReserve, By, RunFrom, ValidIdempotencyScope;
    ghost var g := ConfigOf(store.limits);
    RefusalChangesNothing(store.RunsView(), g.runsCap, scope, RunScope(Scope("", "", ""), ""), "", 0);
    ghost var a, b := Cleanup(cleanupAt), Proceed(c, ReserveCap);
    longer := path + [a] + [b];
    OneStep(w, g, path, a);
    OneStep(w, g, path + [a], b);
    ByLonger(path, a, c);
    ByLonger(path + [a], b, c);
    var r := store.ReserveActiveRunCapacity(scope, cleanupAt);
    ok := r.Ok?;
    next := RunFrom(w, g, longer).callers[c];
  }

  /** The outside effects change no store. */
  lemma ConnectMoves(store: ChatState.Store, w: World, path: seq<Action>, c: nat, caller: Caller, choice: ConnectChoice)
    requires Where(store, w, path, c, caller) && caller.pc.Connecting?
    ensures var (pc, started) := AfterConnect(caller.pc.attempt, caller.attempted, choice);
            Where(store, w, path + [Proceed(c, Connect(choice))], c, caller.(pc := pc, attempted := caller.attempted || started))
  {
    hide AfterConnect, By, RunFrom;
    OneStep(w, ConfigOf(store.limits), path, Proceed(c, Connect(choice)));
    ByLonger(path, Proceed(c, Connect(choice)), c);
  }

  lemma TurnMoves(store: ChatState.Store, w: World, path: seq<Action>, c: nat, caller: Caller, turn: TurnChoice)
    requires Where(store, w, path, c, caller) && (caller.pc.Turn? || caller.pc.Retry?)
    ensures Where(store, w, path + [Proceed(c, CallTurn(turn))], c,
                  caller.(pc := AfterTurn(caller.scope, caller.pc, turn), attempted := caller.attempted || !turn.TurnNotReached?))
  {
    hide AfterTurn, By, RunFrom;
    OneStep(w, ConfigOf(store.limits), path, Proceed(c, CallTurn(turn)));
    ByLonger(path, Proceed(c, CallTurn(turn)), c);
  }

  /** Up to three connections, until a thread was started. */
  method StartThreadOnFreshConnection(store: ChatState.Store, connects: nat -> ConnectChoice,
                                      ghost w: World, ghost path: seq<Action>, c: nat, ghost caller: Caller)
    returns (chatID: string, attempted: bool, ghost longer: seq<Action>)
    requires Where(store, w, path, c, caller) && caller.pc == Connecting(0) && !caller.attempted
    ensures chatID != "" ==> attempted
    ensures Where(store, w, longer, c,
                  caller.(pc := if chatID != "" then Turn(chatID) else ExitPc(attempted), attempted := attempted))
  {
    hide Where;
    var attempt := 0;
    attempted := false;
    longer := path;
    while true
      invariant attempt < CONNECTION_ATTEMPTS
      invariant Where(store, w, longer, c, caller.(pc := Connecting(attempt), attempted := attempted))
      decreases CONNECTION_ATTEMPTS - attempt
    {
      var choice := connects(attempt);
      ConnectMoves(store, w, longer, c, caller.(pc := Connecting(attempt), attempted := attempted), choice);
      longer := longer + [Proceed(c, Connect(choice))];
      match choice {
        case ConnectFailed(retryable, waited) =>
          if attempt + 1 >= CONNECTION_ATTEMPTS || !retryable || !waited { return "", attempted, longer; }
        case NoConnection => return "", attempted, longer;
        case CallerGone => return "", attempted, longer;
        case ThreadFailed(retryable, waited) =>
          attempted := true;
          if attempt + 1 >= CONNECTION_ATTEMPTS || !retryable || !waited { return "", attempted, longer; }
        case ThreadStarted(started) => return started, true, longer;
      }
      attempt := attempt + 1;
    }
  }

  /** Reads the thread up to three times to find out whether a turn started after all. */
  method RecoverStartedTurn(rounds: seq<Read>) returns (recovery: Recovery)
    ensures recovery == Recover(rounds)
  {
    var confirmedEmpty := false;
    var attempt := 0;
    while attempt < RECOVERY_ATTEMPTS && attempt < |rounds|
      invariant RecoverFrom(rounds, attempt, confirmedEmpty) == Recover(rounds)
    {
      var read := rounds[attempt];
      if attempt > 0 && read.WaitCancelled? { return Recovery(None, false); }
      if read.NoTurns? { confirmedEmpty := true; }
      if read.Latest? && read.runID != "" { return Recovery(Some((read.runID, read.state)), false); }
      attempt := attempt + 1;
    }
    recovery := Recovery(None, confirmedEmpty);
  }

  /** StartTurn, recovery, and one more try if the thread was confirmed empty. */
  method StartOrRecoverTurn(store: ChatState.Store, scope: IdempotencyScope, chatID: string, turn: TurnChoice, retry: TurnChoice,
                            ghost w: World, ghost path: seq<Action>, c: nat, ghost caller: Caller)
    returns (run: Option<(RunScope, RunState)>, ghost longer: seq<Action>)
    requires Where(store, w, path, c, caller) && caller.pc == Turn(chatID) && caller.attempted && caller.scope == scope
    requires !turn.TurnNotReached?
    ensures Where(store, w, longer, c, caller.(pc := if run.Some? then Commit(run.value.0, run.value.1) else ExitPc(true)))
  {
    hide Where, Recover;
    TurnMoves(store, w, path, c, caller, turn);
    longer := path + [Proceed(c, CallTurn(turn))];
    if turn.TurnStarted? {
      if turn.runID == "" { return None, longer; }
      return Some((RunOf(scope, chatID, turn.runID), Running)), longer;
    }
    var recovery := RecoverStartedTurn(turn.rounds);
    if recovery.found.None? && recovery.confirmedEmpty {
      TurnMoves(store, w, longer, c, caller.(pc := Retry(chatID)), retry);
      longer := longer + [Proceed(c, CallTurn(retry))];
      match retry {
        case TurnNotReached => return None, longer;
        case TurnStarted(runID) =>
          if runID == "" { return None, longer; }
          return Some((RunOf(scope, chatID, runID), Running)), longer;
        case TurnFailed(rounds) => recovery := RecoverStartedTurn(rounds);
      }
    }
    if recovery.found.None? { return None, longer; }
    run := Some((RunOf(scope, chatID, recovery.found.value.0), recovery.found.value.1));
  }

  method CommitRunOf(store: ChatState.Store, scope: IdempotencyScope, run: RunScope, state: RunState, cleanupAt: int, now: int,
                     ghost w: World, ghost path: seq<Action>, c: nat, ghost caller: Caller)
    returns (ok: bool, ghost longer: seq<Action>)
    requires Where(store, w, path, c, caller) && caller.scope == scope && caller.pc == Commit(run, state) && caller.attempted
    requires ValidIdempotencyScope(scope)
    modifies store`activeRuns, store`activeRunReservations, store`pending, store`idempotency
    ensures Where(store, w, longer, c, caller.(pc := if ok then Update(run, state) else DropCapacity(true)))
    ensures ok ==> ValidRunScope(run)
  {
    hide RunsModel.StartRunWithReservation, IM.CleanedEntries, Expiring, By, RunFrom, ValidIdempotencyScope;
    RefusalChangesNothing(store.RunsView(), 0, scope, run, scope.key, now);
    ghost var g := ConfigOf(store.limits);
    ghost var a, b := Cleanup(cleanupAt), Proceed(c, CommitRun(now));
    ghost var swept := if ValidRunScope(run) then path + [a] else path;
    longer := swept + [b];
    OneStep(w, g, path, a);
    OneStep(w, g, swept, b);
    ByLonger(path, a, c);
    ByLonger(swept, b, c);
    var r := store.StartRunWithReservation(scope, run, scope.key, cleanupAt, now);
    ok := r.Ok?;
  }

  method UpdateRunOf(store: ChatState.Store, run: RunScope, state: RunState, now: int,
                     ghost w: World, ghost path: seq<Action>, c: nat, ghost caller: Caller)
    returns (ok: bool, ghost longer: seq<Action>)
    requires Where(store, w, path, c, caller) && caller.pc == Update(run, state)
    modifies store`activeRuns
    ensures Where(store, w, longer, c, caller.(pc := if ok then Append(run, state) else Finished(Stuck)))
  {
    hide RunsModel.UpdateRunState, By, RunFrom;
    ghost var a := Proceed(c, UpdateRun(now));
    longer := path + [a];
    OneStep(w, ConfigOf(store.limits), path, a);
    ByLonger(path, a, c);
    var r := store.UpdateRunState(run, state, now);
    ok := r.Ok?;
  }

  lemma SweepOnlyCleans(w: World, g: Config, cleanupAt: int)
    ensures var v := Step(w, g, Cleanup(cleanupAt));
            v.entries == IM.CleanedEntries(w.entries, g.replayTTL, cleanupAt) && v.runs == w.runs && v.callers == w.callers
  {
  }

  method AppendStatusOf(store: ChatState.Store, run: RunScope, state: RunState, body: string, sizeBytes: nat,
                        cursorOf: nat -> string, cleanupAt: int, createdAt: int, enforceAt: int,
                        ghost w: World, ghost path: seq<Action>, c: nat, ghost caller: Caller)
    returns (result: IM.ResultRef, ghost longer: seq<Action>)
    requires Where(store, w, path, c, caller) && caller.pc == Append(run, state)
    requires ValidRunScope(run) && store.clock <= createdAt <= enforceAt
    modifies store
    ensures store.clock == enforceAt
    ensures result.chatID == run.chat.chatID && result.runID == run.runID && result.status == state
    ensures Where(store, w, longer, c, caller.(pc := if IsTerminal(state) then Terminate(run, result) else Publish(result)))
  {
    hide FM.Append, IM.CleanedEntries, By, RunFrom, ValidRunScope, Step;
    ghost var g := ConfigOf(store.limits);
    ghost var a := Cleanup(cleanupAt);
    OneStep(w, g, path, a);
    ByLonger(path, a, c);
    SweepOnlyCleans(RunFrom(w, g, path), g, cleanupAt);
    var event := store.AppendEvent(run, body, sizeBytes, cleanupAt, createdAt, enforceAt);
    var id := if event.Ok? then event.value.eventID else 0;
    result := IM.ResultRef(run.chat.chatID, run.runID, state, id, cursorOf(id));
    ghost var b := Proceed(c, AppendStatus(id, cursorOf(id)));
    longer := path + [a] + [b];
    OneStep(w, g, path + [a], b);
    ByLonger(path + [a], b, c);
    StatusAppended(RunFrom(w, g, path + [a]), g, c, id, cursorOf(id));
  }

  lemma StatusAppended(w: World, g: Config, c: nat, eventID: nat, cursor: string)
    requires c in w.callers && w.callers[c].pc.Append?
    ensures var v := Step(w, g, Proceed(c, AppendStatus(eventID, cursor))); var pc := w.callers[c].pc;
            var result := IM.ResultRef(pc.run.chat.chatID, pc.run.runID, pc.state, eventID, cursor);
            && v.entries == w.entries && v.runs == w.runs && c in v.callers
            && v.callers[c] == w.callers[c].(pc := if IsTerminal(pc.state) then Terminate(pc.run, result) else Publish(result))
  {
  }

  method TerminateRunOf(store: ChatState.Store, run: RunScope, result: IM.ResultRef, now: int,
                        ghost w: World, ghost path: seq<Action>, c: nat, ghost caller: Caller)
    returns (ok: bool, ghost longer: seq<Action>)
    requires Where(store, w, path, c, caller) && caller.pc == Terminate(run, result)
    modifies store`activeRuns, store`subscribers, store`channels
    ensures Where(store, w, longer, c, caller.(pc := if ok then Publish(result) else Finished(Stuck)))
  {
    hide RunsModel.CompleteRun, By, RunFrom;
    ghost var a := Proceed(c, TerminateRun(now));
    longer := path + [a];
    OneStep(w, ConfigOf(store.limits), path, a);
    ByLonger(path, a, c);
    var r := store.CompleteRun(run, result.status, now);
    ok := r.Ok?;
  }

  method PublishOf(store: ChatState.Store, scope: IdempotencyScope, result: IM.ResultRef, cleanupAt: int, now: int,
                   ghost w: World, ghost path: seq<Action>, c: nat, ghost caller: Caller)
    returns (ok: bool, ghost longer: seq<Action>)
    requires Where(store, w, path, c, caller) && caller.scope == scope && caller.pc == Publish(result)
    modifies store`pending, store`idempotency
    ensures Where(store, w, longer, c, caller.(pc := Finished(if ok then Own(result) else Stuck)))
  {
    hide IM.Complete, Expiring, By, RunFrom;
    ghost var a := Proceed(c, PublishResult(cleanupAt, now));
    longer := path + [a];
    OneStep(w, ConfigOf(store.limits), path, a);
    ByLonger(path, a, c);
    var r := store.CompleteIdempotency(scope, result, cleanupAt, now);
    ok := r.Ok?;
  }

  // ----- whole calls ----------------------------------------------------------------------------------

  /** What the caller gets back: a result of its own or of the call it repeats, or an error. */
  ghost predicate Gives(outcome: Outcome, response: Option<IM.ResultRef>) {
    match outcome
    case Own(result) => response == Some(result)
    case Replayed(_, result) => response == Some(result)
    case _ => response == None
  }

  /** The outcomes of a call that never started anything outside. */
  predicate AttemptedNothing(outcome: Outcome) { outcome.GaveUp? || outcome.Rejected? || outcome.Replayed? }

  lemma NothingAttempted(w: World, g: Config, c: nat)
    requires Inv(w, g) && c in w.callers && w.callers[c].pc.Finished? && AttemptedNothing(w.callers[c].pc.outcome)
    ensures !w.callers[c].attempted && forall e | e in w.effects :: e.caller != c
  {
    assert CallerOK(w, c);
  }

  /** The call reserves its key, repeats the result of an earlier call, or is turned away. */
  method Begin(store: ChatState.Store, scope: IdempotencyScope, cleanupAt: int, now: int, ghost w: World, c: nat)
    returns (mine: bool, response: Option<IM.ResultRef>)
    requires store.Valid() && Mirrors(store, w) && Inv(w, ConfigOf(store.limits)) && c !in w.callers
    modifies store`pending, store`idempotency
    ensures var v := ArriveStep(w, ConfigOf(store.limits), c, scope, cleanupAt, now);
            && (mine ==> Where(store, v, [], c, Caller(scope, KeyHeld, false, false)) && ValidIdempotencyScope(scope))
            && (!mine ==> store.Valid() && Mirrors(store, v) && c in v.callers && v.callers[c].pc.Finished?
                            && Gives(v.callers[c].pc.outcome, response) && AttemptedNothing(v.callers[c].pc.outcome))
  {
    hide Inv, IM.CleanedEntries, Expiring;
    ReservedKeysAreOwned(w, ConfigOf(store.limits), scope, cleanupAt, now);
    var r := store.ReserveIdempotency(scope, cleanupAt, now);
    match r
    case NotReserved(_) => return false, None;
    case Reused(entry) =>
      if !entry.state.Succeeded? || entry.state.result.chatID == "" || entry.state.result.runID == "" { return false, None; }
      return false, Some(entry.state.result);
    case Fresh(_) => return true, None;
  }

  lemma ReservedKeysAreOwned(w: World, g: Config, scope: IdempotencyScope, cleanupAt: int, now: int)
    requires Inv(w, g)
    ensures IM.Reserve(w.entries, g.entriesCap, g.replayTTL, scope, cleanupAt, now).1.Reused? ==> IM.KeyOf(scope) in w.owner
  {
    if IM.KeyOf(scope) in w.entries { assert EntryOK(w, IM.KeyOf(scope)); }
  }

  /** Recording a started turn and publishing the result. */
  method Record(store: ChatState.Store, scope: IdempotencyScope, run: RunScope, state: RunState, body: string,
                cursorOf: nat -> string, times: nat -> int,
                ghost w: World, ghost path: seq<Action>, c: nat, ghost caller: Caller)
    returns (response: Option<IM.ResultRef>, ghost longer: seq<Action>)
    requires Where(store, w, path, c, caller) && caller.scope == scope && caller.pc == Update(run, state)
    requires ValidRunScope(run) && Forward(times) && store.clock <= times(0)
    modifies store
    ensures var pc := Finished(if response.Some? then Own(response.value) else Stuck);
            Where(store, w, longer, c, caller.(pc := pc))
  {
    hide Where, ValidRunScope;
    ghost var at := caller;
    var ok;
    ok, longer := UpdateRunOf(store, run, state, times(0), w, path, c, at);
    if !ok { return None, longer; }
    at := at.(pc := Append(run, state));
    var result;
    result, longer := AppendStatusOf(store, run, state, body, |run.chat.chatID| + |run.runID|, cursorOf,
                                     times(0), times(1), times(2), w, longer, c, at);
    if IsTerminal(state) {
      at := at.(pc := Terminate(run, result));
      ok, longer := TerminateRunOf(store, run, result, times(3), w, longer, c, at);
      if !ok { return None, longer; }
    }
    at := at.(pc := Publish(result));
    ok, longer := PublishOf(store, scope, result, times(4), times(5), w, longer, c, at);
    response := if ok then Some(result) else None;
  }

  /** The turn on a started thread: run it, record it, or give up with the key in flight. */
  method RunOnThread(store: ChatState.Store, scope: IdempotencyScope, chatID: string, turn: TurnChoice, retry: TurnChoice,
                     body: string, cursorOf: nat -> string, times: nat -> int,
                     ghost w: World, ghost path: seq<Action>, c: nat, ghost caller: Caller)
    returns (response: Option<IM.ResultRef>, ghost longer: seq<Action>)
    requires Where(store, w, path, c, caller) && caller.pc == Turn(chatID) && caller.attempted && caller.scope == scope
    requires ValidIdempotencyScope(scope) && Forward(times) && store.clock <= times(0) && !turn.TurnNotReached?
    modifies store
    ensures var pc := Finished(if response.Some? then Own(response.value) else Stuck);
            Where(store, w, longer, c, caller.(pc := pc))
  {
    hide Where, ValidIdempotencyScope, ValidRunScope;
    var run, ok;
    run, longer := StartOrRecoverTurn(store, scope, chatID, turn, retry, w, path, c, caller);
    if run.Some? {
      ghost var at := caller.(pc := Commit(run.value.0, run.value.1));
      ok, longer := CommitRunOf(store, scope, run.value.0, run.value.1, times(0), times(1), w, longer, c, at);
      if ok {
        at := caller.(pc := Update(run.value.0, run.value.1));
        response, longer := Record(store, scope, run.value.0, run.value.1, body, cursorOf, (i: nat) => times(i + 2),
                                   w, longer, c, at);
        return;
      }
    }
    longer := GiveUp(store, scope, true, times(2), w, longer, c, caller.(pc := ExitPc(true)));
    response := None;
  }

  /** StartChatRun after it got its key. */
  method StartReservedRun(store: ChatState.Store, scope: IdempotencyScope, connects: nat -> ConnectChoice, turn: TurnChoice,
                          retry: TurnChoice, body: string, cursorOf: nat -> string, times: nat -> int,
                          ghost w: World, c: nat, ghost caller: Caller)
    returns (response: Option<IM.ResultRef>, ghost path: seq<Action>, ghost pc: Pc)
    requires Where(store, w, [], c, caller) && caller == Caller(scope, KeyHeld, false, false)
    requires scope.operation == StartChatRunOp && ValidIdempotencyScope(scope)
    requires Forward(times) && store.clock <= times(0) && !turn.TurnNotReached?
    modifies store
    ensures store.Valid() && Mirrors(store, RunFrom(w, ConfigOf(store.limits), path)) && By(path, c)
    ensures var v := RunFrom(w, ConfigOf(store.limits), path);
            c in v.callers && v.callers[c].pc == pc && pc.Finished? && Gives(pc.outcome, response)
  {
    hide Where, ValidIdempotencyScope, ValidRunScope;
    ghost var at := caller;
    var ok;
    ok, path, at := ReserveCapacityOf(store, scope, times(0), w, [], c, at);
    if !ok {
      path := ReleaseKeyOf(store, scope, times(1), w, path, c, at);
      Arrived(store, w, path, c, at.(pc := Finished(GaveUp)));
      return None, path, Finished(GaveUp);
    }
    var chatID, attempted;
    chatID, attempted, path := StartThreadOnFreshConnection(store, connects, w, path, c, at);
    at := at.(pc := if chatID != "" then Turn(chatID) else ExitPc(attempted), attempted := attempted);
    if chatID == "" {
      path := GiveUp(store, scope, attempted, times(1), w, path, c, at);
      pc := Finished(if attempted then Stuck else GaveUp);
      response := None;
    } else {
      response, path := RunOnThread(store, scope, chatID, turn, retry, body, cursorOf, (i: nat) => times(i + 1), w, path, c, at);
      pc := Finished(if response.Some? then Own(response.value) else Stuck);
    }
    Arrived(store, w, path, c, at.(pc := pc));
  }

  lemma Arrived(store: ChatState.Store, w: World, path: seq<Action>, c: nat, caller: Caller)
    requires Where(store, w, path, c, caller)
    ensures store.Valid() && Mirrors(store, RunFrom(w, ConfigOf(store.limits), path)) && By(path, c)
    ensures var v := RunFrom(w, ConfigOf(store.limits), path); c in v.callers && v.callers[c] == caller
  {
  }

  /** StartChatRun. On every path through the code the call ends finished, with the store as
      the protocol model says, and what the caller gets is what the model says it gets. */
  method StartChatRun(store: ChatState.Store, scope: IdempotencyScope, connects: nat -> ConnectChoice, turn: TurnChoice,
                      retry: TurnChoice, body: string, cursorOf: nat -> string, times: nat -> int, ghost w: World, c: nat)
    returns (response: Option<IM.ResultRef>, ghost v: World)
    requires store.Valid() && Mirrors(store, w) && Inv(w, ConfigOf(store.limits)) && c !in w.callers
    requires scope.operation == StartChatRunOp && !turn.TurnNotReached?
    requires Forward(times) && store.clock <= times(0)
    modifies store
    ensures store.Valid() && Mirrors(store, v) && Inv(v, ConfigOf(store.limits))
    ensures c in v.callers && v.callers[c].pc.Finished? && Gives(v.callers[c].pc.outcome, response)
    ensures exists path :: By(path, c)
              && v == RunFrom(Step(w, ConfigOf(store.limits), Arrive(c, scope, times(0), times(1))), ConfigOf(store.limits), path)
  {
    hide Where, Inv, RunFrom, ArriveStep, ValidIdempotencyScope;
    ghost var g := ConfigOf(store.limits);
    ghost var arrived := Step(w, g, Arrive(c, scope, times(0), times(1)));
    StepKeepsInv(w, g, Arrive(c, scope, times(0), times(1)));
    ghost var path := [];
    var mine;
    mine, response := Begin(store, scope, times(0), times(1), w, c);
    if mine {
      ghost var pc;
      response, path, pc := StartReservedRun(store, scope, connects, turn, retry, body, cursorOf, (i: nat) => times(i + 2),
                                             arrived, c, Caller(scope, KeyHeld, false, false));
    } else {
      NoSteps(arrived, g);
    }
    v := RunFrom(arrived, g, path);
    PathKeepsInv(arrived, g, path);
  }

  lemma NoSteps(w: World, g: Config)
    ensures RunFrom(w, g, []) == w
  {
  }

  // ----- RunChatTurn -----------------------------------------------------------------------------------

  datatype ThreadLifecycle = NotLoaded | Idle | ActiveRunning | SystemError | UnknownLifecycle

  /** What the outside world answers before the turn: whether a connection is obtained and
      usable, whether the caller is still there, what resuming the thread gives (its id, if it
      could be read), and the thread's place and state. */
  datatype Resumed = Resumed(connects: bool, usable: bool, callerThere: bool, resumes: bool, threadID: Option<string>,
                             inWorkspace: bool, lifecycle: ThreadLifecycle)

  /** The thread is this chat's, belongs to the workspace, and runs nothing. */
  predicate Fits(scope: IdempotencyScope, r: Resumed) {
    && r.connects && r.usable && r.callerThere && r.resumes && r.threadID == Some(scope.chatID) && r.inWorkspace
    && !r.lifecycle.ActiveRunning? && !r.lifecycle.UnknownLifecycle?
  }

  function ChatOf(scope: IdempotencyScope): Scope { Scope(scope.sessionGroupID, scope.workspaceID, scope.chatID) }

  /** A run the store still shows active although its thread runs nothing is recorded as over. */
  method ReconcileActiveRun(store: ChatState.Store, scope: IdempotencyScope, lifecycle: ThreadLifecycle,
                            times: nat -> int, ghost w: World, ghost path: seq<Action>, c: nat, ghost caller: Caller)
    returns (ok: bool, ghost longer: seq<Action>)
    requires Where(store, w, path, c, caller) && Forward(times) && store.clock <= times(1)
    modifies store
    ensures Where(store, w, longer, c, caller) && store.clock <= times(3)
    ensures ok && !lifecycle.ActiveRunning? && !lifecycle.UnknownLifecycle? ==> !Busy(store.activeRuns, ChatOf(scope))
    ensures !ok ==> Busy(old(store.activeRuns), ChatOf(scope))
  {
    hide By, RunFrom, ValidRunScope;
    assert times(1) <= times(2) <= times(3);
    longer := path;
    if lifecycle.ActiveRunning? { return true, path; }
    var active := store.ActiveRun(ChatOf(scope));
    if active.None? { return true, path; }
    var state := Completed;
    match lifecycle {
      case SystemError => state := Failed;
      case NotLoaded => state := Failed;
      case UnknownLifecycle => return true, path;
      case _ =>
    }
    ok, longer := EndRunOf(store, RunScope(ChatOf(scope), active.value.runID), state, times, w, path, c, caller);
  }

  /** Its last status event, and its end. */
  method EndRunOf(store: ChatState.Store, run: RunScope, state: RunState, times: nat -> int,
                  ghost w: World, ghost path: seq<Action>, c: nat, ghost caller: Caller)
    returns (ok: bool, ghost longer: seq<Action>)
    requires Where(store, w, path, c, caller) && times(1) <= times(2) <= times(3) && store.clock <= times(1)
    modifies store
    ensures Where(store, w, longer, c, caller) && store.clock <= times(3)
    ensures ok ==> !Busy(store.activeRuns, run.chat)
  {
    hide FM.Append, IM.CleanedEntries, Expiring, By, RunFrom, ValidRunScope, RunsModel.CompleteRun, Step;
    ghost var g := ConfigOf(store.limits);
    ghost var a, b := Cleanup(times(0)), OtherRuns(OpComplete(run, state, times(3)));
    ghost var swept := if ValidRunScope(run) then path + [a] else path;
    OneStep(w, g, path, a);
    ByLonger(path, a, c);
    SweepOnlyCleans(RunFrom(w, g, path), g, times(0));
    var event := store.AppendEvent(run, "status", |run.chat.chatID| + |run.runID|, times(0), times(1), times(2));
    longer := swept + [b];
    OneStep(w, g, swept, b);
    ByLonger(swept, b, c);
    CompleteIsOtherRuns(RunFrom(w, g, swept), g, run, state, times(3));
    var r := store.CompleteRun(run, state, times(3));
    CompletedIsNotBusy(RunFrom(w, g, swept).runs, run, state, times(3));
    ok := r.Ok?;
  }

  lemma CompleteIsOtherRuns(w: World, g: Config, run: RunScope, state: RunState, now: int)
    ensures Step(w, g, OtherRuns(OpComplete(run, state, now))) == w.(runs := RunsModel.CompleteRun(w.runs, run, state, now).0)
  {
    hide RunsModel.CompleteRun;
  }

  lemma CompletedIsNotBusy(r: Runs, run: RunScope, state: RunState, now: int)
    ensures var (u, done) := RunsModel.CompleteRun(r, run, state, now); done.Ok? ==> !Busy(u.active, run.chat)
  {
  }

  /** Connection, resume and the checks on the thread, in order, and the reconcile. */
  method PrepareThread(store: ChatState.Store, scope: IdempotencyScope, r: Resumed, times: nat -> int,
                       ghost w: World, ghost path: seq<Action>, c: nat, ghost caller: Caller)
    returns (ready: bool, ghost longer: seq<Action>)
    requires Where(store, w, path, c, caller) && Forward(times) && store.clock <= times(1)
    modifies store
    ensures Where(store, w, longer, c, caller) && store.clock <= times(3)
    ensures ready ==> Fits(scope, r) && !Busy(store.activeRuns, ChatOf(scope))
    ensures !ready ==> !Fits(scope, r) || Busy(old(store.activeRuns), ChatOf(scope))
  {
    hide Where, ChatOf, Busy;
    assert times(1) <= times(3);
    ready, longer := false, path;
    if !r.connects { return; }
    if !r.usable { return; }
    if !r.callerThere { return; }
    if !r.resumes { return; }
    if r.threadID != Some(scope.chatID) { return; }
    if !r.inWorkspace { return; }
    if r.lifecycle.ActiveRunning? { return; }
    if r.lifecycle.UnknownLifecycle? { return; }
    ready, longer := ReconcileActiveRun(store, scope, r.lifecycle, times, w, path, c, caller);
  }

  /** The local start under a provisional run id, once the connection, the resumed thread and
      its checks are fine. */
  method StartLocalRun(store: ChatState.Store, scope: IdempotencyScope, cleanupAt: int, now: int,
                       ghost w: World, ghost path: seq<Action>, c: nat, ghost caller: Caller)
    returns (started: bool, ghost longer: seq<Action>)
    requires Where(store, w, path, c, caller) && caller.scope == scope && caller.pc.KeyHeld? && scope.operation == RunChatTurnOp
    modifies store`activeRuns, store`pending, store`idempotency
    ensures Where(store, w, longer, c, caller.(pc := if started then TurnLocal else DropKey(false)))
  {
    hide RunsModel.StartRun, IM.CleanedEntries, By, RunFrom, ProvisionalRun, ValidRunScope, Step;
    ghost var g := ConfigOf(store.limits);
    ghost var a, b := Cleanup(cleanupAt), Proceed(c, CheckLocal(true, now));
    ghost var swept := if ValidRunScope(ProvisionalRun(scope)) then path + [a] else path;
    longer := swept + [b];
    OneStep(w, g, path, a);
    OneStep(w, g, swept, b);
    ByLonger(path, a, c);
    ByLonger(swept, b, c);
    SweepOnlyCleans(RunFrom(w, g, path), g, cleanupAt);
    LocalStart(RunFrom(w, g, swept), g, c, now);
    var r := store.StartRun(ProvisionalRun(scope), scope.key, cleanupAt, now);
    started := r.Ok?;
  }

  lemma LocalStart(w: World, g: Config, c: nat, now: int)
    requires c in w.callers && w.callers[c].pc.KeyHeld? && w.callers[c].scope.operation == RunChatTurnOp
    ensures var scope := w.callers[c].scope; var v := Step(w, g, Proceed(c, CheckLocal(true, now)));
            var (runs, r) := RunsModel.StartRun(w.runs, g.runsCap, ProvisionalRun(scope), scope.key, now);
            && v.entries == w.entries && v.runs == runs && c in v.callers
            && v.callers[c] == w.callers[c].(pc := if r.Ok? then TurnLocal else DropKey(false))
  {
    hide RunsModel.StartRun;
    RefusalChangesNothing(w.runs, g.runsCap, w.callers[c].scope, ProvisionalRun(w.callers[c].scope), w.callers[c].scope.key, now);
  }

  lemma ThreadNotReady(store: ChatState.Store, w: World, path: seq<Action>, c: nat, caller: Caller)
    requires Where(store, w, path, c, caller) && caller.pc.KeyHeld? && caller.scope.operation == RunChatTurnOp
    ensures Where(store, w, path + [Proceed(c, CheckLocal(false, 0))], c, caller.(pc := DropKey(false)))
  {
    hide RunsModel.StartRun, By, RunFrom;
    OneStep(w, ConfigOf(store.limits), path, Proceed(c, CheckLocal(false, 0)));
    ByLonger(path, Proceed(c, CheckLocal(false, 0)), c);
  }

  lemma LocalTurnMoves(store: ChatState.Store, w: World, path: seq<Action>, c: nat, caller: Caller, turn: TurnChoice)
    requires Where(store, w, path, c, caller) && caller.pc.TurnLocal? && !turn.TurnNotReached?
    ensures Where(store, w, path + [Proceed(c, CallTurn(turn))], c,
                  caller.(pc := if turn.TurnStarted? && turn.runID != "" then Bind(turn.runID) else AbortLocal, attempted := true))
  {
    hide Recover, By, RunFrom;
    OneStep(w, ConfigOf(store.limits), path, Proceed(c, CallTurn(turn)));
    ByLonger(path, Proceed(c, CallTurn(turn)), c);
  }

  method AbortLocalRun(store: ChatState.Store, scope: IdempotencyScope, now: int,
                       ghost w: World, ghost path: seq<Action>, c: nat, ghost caller: Caller)
    returns (ghost longer: seq<Action>)
    requires Where(store, w, path, c, caller) && caller.scope == scope && caller.pc.AbortLocal?
    modifies store`activeRuns, store`subscribers, store`channels
    ensures Where(store, w, longer, c, caller.(pc := Finished(Stuck)))
  {
    hide RunsModel.CompleteRun, By, RunFrom, ProvisionalRun;
    ghost var a := Proceed(c, AbortTurn(now));
    longer := path + [a];
    OneStep(w, ConfigOf(store.limits), path, a);
    ByLonger(path, a, c);
    var r := store.CompleteRun(ProvisionalRun(scope), Failed, now);
  }

  method BindStartedRun(store: ChatState.Store, scope: IdempotencyScope, runID: string, now: int,
                        ghost w: World, ghost path: seq<Action>, c: nat, ghost caller: Caller)
    returns (ok: bool, ghost longer: seq<Action>)
    requires Where(store, w, path, c, caller) && caller.scope == scope && caller.pc == Bind(runID)
    modifies store`activeRuns
    ensures var pc := if ok then Update(RunOf(scope, scope.chatID, runID), Running) else Finished(Stuck);
            Where(store, w, longer, c, caller.(pc := pc))
    ensures ok ==> ValidRunScope(RunOf(scope, scope.chatID, runID))
  {
    hide By, RunFrom, FM.FeedOK;
    ghost var a := Proceed(c, BindRun(now));
    longer := path + [a];
    OneStep(w, ConfigOf(store.limits), path, a);
    ByLonger(path, a, c);
    BindNeedsIDs(store.RunsView(), scope, runID, now);
    hide RunsModel.BindRunID, ProvisionalRun, RunOf, ValidRunScope;
    var r := store.BindRunID(ProvisionalRun(scope), runID, now);
    ok := r.Ok?;
  }

  lemma BindNeedsIDs(r: Runs, scope: IdempotencyScope, runID: string, now: int)
    ensures var bound := RunsModel.BindRunID(r, ProvisionalRun(scope), runID, now);
            if bound.1.Err? then bound.0 == r else ValidRunScope(RunOf(scope, scope.chatID, runID))
  {
  }

  /** RunChatTurn from the local start on. */
  method RunLocalTurn(store: ChatState.Store, scope: IdempotencyScope, turn: TurnChoice, body: string, cursorOf: nat -> string,
                      times: nat -> int, ghost w: World, ghost before: seq<Action>, c: nat, ghost caller: Caller)
    returns (response: Option<IM.ResultRef>, ghost path: seq<Action>, ghost pc: Pc)
    requires Where(store, w, before, c, caller) && caller == Caller(scope, TurnLocal, false, false)
    requires Forward(times) && store.clock <= times(1) && !turn.TurnNotReached?
    modifies store
    ensures store.Valid() && Mirrors(store, RunFrom(w, ConfigOf(store.limits), path)) && By(path, c)
    ensures var v := RunFrom(w, ConfigOf(store.limits), path);
            c in v.callers && v.callers[c].pc == pc && pc.Finished? && Gives(pc.outcome, response)
  {
    hide Where, ValidRunScope, RunOf;
    ghost var at := caller;
    var ok;
    LocalTurnMoves(store, w, before, c, at, turn);
    path := before + [Proceed(c, CallTurn(turn))];
    if turn.TurnFailed? || turn.runID == "" {
      at := at.(pc := AbortLocal, attempted := true);
      path := AbortLocalRun(store, scope, times(0), w, path, c, at);
      Arrived(store, w, path, c, at.(pc := Finished(Stuck)));
      return None, path, Finished(Stuck);
    }
    at := at.(pc := Bind(turn.runID), attempted := true);
    ok, path := BindStartedRun(store, scope, turn.runID, times(0), w, path, c, at);
    if !ok {
      Arrived(store, w, path, c, at.(pc := Finished(Stuck)));
      return None, path, Finished(Stuck);
    }
    at := at.(pc := Update(RunOf(scope, scope.chatID, turn.runID), Running));
    response, path := Record(store, scope, RunOf(scope, scope.chatID, turn.runID), Running, body, cursorOf,
                             (i: nat) => times(i + 1), w, path, c, at);
    pc := Finished(if response.Some? then Own(response.value) else Stuck);
    Arrived(store, w, path, c, at.(pc := pc));
  }

  /** RunChatTurn after it got its key. */
  method RunReservedTurn(store: ChatState.Store, scope: IdempotencyScope, resumed: Resumed, turn: TurnChoice, body: string,
                         cursorOf: nat -> string, times: nat -> int, ghost w: World, c: nat, ghost caller: Caller)
    returns (response: Option<IM.ResultRef>, ghost path: seq<Action>, ghost pc: Pc)
    requires Where(store, w, [], c, caller) && caller == Caller(scope, KeyHeld, false, false)
    requires scope.operation == RunChatTurnOp && Forward(times) && store.clock <= times(0) && !turn.TurnNotReached?
    modifies store
    ensures store.Valid() && Mirrors(store, RunFrom(w, ConfigOf(store.limits), path)) && By(path, c)
    ensures var v := RunFrom(w, ConfigOf(store.limits), path);
            c in v.callers && v.callers[c].pc == pc && pc.Finished? && Gives(pc.outcome, response)
    ensures !Fits(scope, resumed) ==> pc == Finished(GaveUp)
  {
    hide Where, ValidRunScope, RunOf;
    ghost var at := caller;
    var ok;
    assert times(0) <= times(1) <= times(3) <= times(7);
    ok, path := PrepareThread(store, scope, resumed, times, w, [], c, at);
    if ok {
      ok, path := StartLocalRun(store, scope, times(4), times(5), w, path, c, at);
    } else {
      ThreadNotReady(store, w, path, c, at);
      path := path + [Proceed(c, CheckLocal(false, 0))];
    }
    if !ok {
      at := at.(pc := DropKey(false));
      path := ReleaseKeyOf(store, scope, times(6), w, path, c, at);
      Arrived(store, w, path, c, at.(pc := Finished(GaveUp)));
      return None, path, Finished(GaveUp);
    }
    response, path, pc := RunLocalTurn(store, scope, turn, body, cursorOf, (i: nat) => times(i + 6), w, path, c,
                                       at.(pc := TurnLocal));
  }

  /** RunChatTurn, with the same promise as StartChatRun. */
  method RunChatTurn(store: ChatState.Store, scope: IdempotencyScope, resumed: Resumed, turn: TurnChoice, body: string,
                     cursorOf: nat -> string, times: nat -> int, ghost w: World, c: nat)
    returns (response: Option<IM.ResultRef>, ghost v: World)
    requires store.Valid() && Mirrors(store, w) && Inv(w, ConfigOf(store.limits)) && c !in w.callers
    requires scope.operation == RunChatTurnOp && !turn.TurnNotReached?
    requires Forward(times) && store.clock <= times(0)
    modifies store
    ensures store.Valid() && Mirrors(store, v) && Inv(v, ConfigOf(store.limits))
    ensures c in v.callers && v.callers[c].pc.Finished? && Gives(v.callers[c].pc.outcome, response)
    ensures exists path :: By(path, c)
              && v == RunFrom(Step(w, ConfigOf(store.limits), Arrive(c, scope, times(0), times(1))), ConfigOf(store.limits), path)
    ensures !Fits(scope, resumed) ==> forall e | e in v.effects :: e.caller != c
  {
    hide Where, Inv, RunFrom, ArriveStep, ValidIdempotencyScope, Fits, Gives, AttemptedNothing;
    ghost var g := ConfigOf(store.limits);
    ghost var arrived := Step(w, g, Arrive(c, scope, times(0), times(1)));
    StepKeepsInv(w, g, Arrive(c, scope, times(0), times(1)));
    ghost var path := [];
    var mine;
    mine, response := Begin(store, scope, times(0), times(1), w, c);
    if mine {
      ghost var pc;
      response, path, pc := RunReservedTurn(store, scope, resumed, turn, body, cursorOf, (i: nat) => times(i + 2),
                                            arrived, c, Caller(scope, KeyHeld, false, false));
    } else {
      NoSteps(arrived, g);
    }
    v := RunFrom(arrived, g, path);
    PathKeepsInv(arrived, g, path);
    if !Fits(scope, resumed) {
      assert AttemptedNothing(GaveUp) by { GaveUpAttemptedNothing(); }
      NothingAttempted(v, g, c);
    }
  }

  lemma GaveUpAttemptedNothing()
    ensures AttemptedNothing(GaveUp)
  {
  }
}
