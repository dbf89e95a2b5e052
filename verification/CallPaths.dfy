/** The way of one call that starts a run: how often it tries, when it recovers, where its
    result comes from, and what it records about its run. */
module CallPaths {
  import opened Common
  import opened ReplayModel
  import opened RunsModel
  import opened IdempotencyModel
  import opened StartsModel

  // ----- single decisions -------------------------------------------------------------------

  /** Where a call goes that gives up its attempt: what was attempted keeps the key. */
  predicate LeavesFor(pc: Pc, attempted: bool) {
    if attempted then pc == DropCapacity(true) else pc == DropKey(true)
  }

  /** A round of the connection loop is followed by another one exactly after a retryable
      failure whose wait was not cut short, and at most twice. */
  lemma ConnectVerdict(attempt: nat, attempted: bool, choice: ConnectChoice)
    ensures var (pc, reached) := AfterConnect(attempt, attempted, choice);
            match choice
            case ConnectFailed(retryable, waited) =>
              && !reached
              && (if attempt < 2 && retryable && waited then pc == Connecting(attempt + 1) else LeavesFor(pc, attempted))
            case ThreadFailed(retryable, waited) =>
              && reached
              && (if attempt < 2 && retryable && waited then pc == Connecting(attempt + 1) else LeavesFor(pc, true))
            case ThreadStarted(chatID) => reached && (if chatID != "" then pc == Turn(chatID) else LeavesFor(pc, true))
            case _ => !reached && LeavesFor(pc, attempted)
  {
  }

  /** The read names a turn that was started after all. */
  predicate NamesTurn(read: Read) { read.Latest? && read.runID != "" }

  /** The recovery ends with this read: a turn is named, or the wait before a later read was
      cancelled. */
  predicate EndsRecovery(rounds: seq<Read>, i: nat)
    requires i < |rounds|
  {
    NamesTurn(rounds[i]) || (i > 0 && rounds[i].WaitCancelled?)
  }

  /** Up to three reads count, from `start` on. */
  ghost predicate NoEndBefore(rounds: seq<Read>, start: nat, n: nat) {
    forall i | start <= i < n && i < |rounds| && i < 3 :: !EndsRecovery(rounds, i)
  }

  lemma {:induction false} RecoverFromVerdict(rounds: seq<Read>, start: nat, empty: bool)
    ensures var r := RecoverFrom(rounds, start, empty);
            && (r.found.Some? ==> exists n | start <= n < |rounds| && n < 3 ::
                  NoEndBefore(rounds, start, n) && rounds[n] == Latest(r.found.value.0, r.found.value.1) && NamesTurn(rounds[n]))
            && (r.found.None? && NoEndBefore(rounds, start, 3) ==>
                  (r.confirmedEmpty <==> empty || exists i | start <= i < |rounds| && i < 3 :: rounds[i] == NoTurns))
            && (!NoEndBefore(rounds, start, 3) ==> !r.confirmedEmpty)
            && (NoEndBefore(rounds, start, 3) ==> r.found.None?)
            && (forall n | start <= n < |rounds| && n < 3 && NoEndBefore(rounds, start, n) && NamesTurn(rounds[n]) ::
                  r.found == Some((rounds[n].runID, rounds[n].state)))
    decreases 3 - start
  {
    if start < 3 && start < |rounds| {
      if EndsRecovery(rounds, start) {
        assert NoEndBefore(rounds, start, start);
        EndedAtOnce(rounds, start, empty);
      } else {
        RecoverFromVerdict(rounds, start + 1, empty || rounds[start] == NoTurns);
        NotEndedYet(rounds, start, empty);
        assert forall n | start < n :: NoEndBefore(rounds, start, n) <==> NoEndBefore(rounds, start + 1, n);
      }
    }
  }

  lemma EndedAtOnce(rounds: seq<Read>, start: nat, empty: bool)
    requires start < |rounds| && start < 3 && EndsRecovery(rounds, start)
    ensures RecoverFrom(rounds, start, empty) ==
            Recovery(if NamesTurn(rounds[start]) then Some((rounds[start].runID, rounds[start].state)) else None, false)
  {
  }

  lemma NotEndedYet(rounds: seq<Read>, start: nat, empty: bool)
    requires start < |rounds| && start < 3 && !EndsRecovery(rounds, start)
    ensures RecoverFrom(rounds, start, empty) == RecoverFrom(rounds, start + 1, empty || rounds[start] == NoTurns)
  {
  }

  /** Recovery finds the first turn that one of the first three reads names, unless a wait
      between them was cancelled before. It confirms that no turn was started exactly if it
      read to the end without finding one and saw the thread without turns. */
  lemma RecoverVerdict(rounds: seq<Read>)
    ensures var r := Recover(rounds);
            && (r.found.Some? <==> exists n | 0 <= n < |rounds| && n < 3 :: NoEndBefore(rounds, 0, n) && NamesTurn(rounds[n]))
            && (forall n | 0 <= n < |rounds| && n < 3 && NoEndBefore(rounds, 0, n) && NamesTurn(rounds[n]) ::
                  r.found == Some((rounds[n].runID, rounds[n].state)))
            && (r.confirmedEmpty <==>
                  NoEndBefore(rounds, 0, 3) && exists i | 0 <= i < |rounds| && i < 3 :: rounds[i] == NoTurns)
  {
    RecoverFromVerdict(rounds, 0, false);
    hide RecoverFrom, NamesTurn, NoEndBefore;
  }

  /** A turn that started leads to the run it names; one that failed, to the run that recovery
      finds, to a second try if no turn was started for sure and this was the first, or out. */
  lemma TurnVerdict(scope: IdempotencyScope, pc: Pc, turn: TurnChoice)
    requires pc.Turn? || pc.Retry? || pc.TurnLocal?
    ensures var next := AfterTurn(scope, pc, turn);
            match turn
            case TurnNotReached => if pc.Retry? then LeavesFor(next, true) else next == pc
            case TurnStarted(runID) =>
              if pc.TurnLocal? then next == (if runID != "" then Bind(runID) else AbortLocal)
              else if runID == "" then LeavesFor(next, true)
              else next == Commit(RunScope(Scope(scope.sessionGroupID, scope.workspaceID, pc.chatID), runID), Running)
            case TurnFailed(rounds) =>
              var r := Recover(rounds);
              if pc.TurnLocal? then next == AbortLocal
              else if r.found.Some? then
                next == Commit(RunScope(Scope(scope.sessionGroupID, scope.workspaceID, pc.chatID), r.found.value.0), r.found.value.1)
              else if pc.Turn? && r.confirmedEmpty then next == Retry(pc.chatID)
              else LeavesFor(next, true)
  {
    hide Recover;
  }

  // ----- where a result comes from ------------------------------------------------------------

  /** The moves this call was given, in order. */
  function MovesOf(actions: seq<Action>, c: nat): seq<CallerMove> {
    if actions == [] then []
    else
      var a := actions[|actions| - 1];
      var before := MovesOf(actions[..|actions| - 1], c);
      if a.Proceed? && a.c == c then before + [a.move] else before
  }

  /** The start of a turn, or a read after its failure, named this run in this state. */
  ghost predicate Names(turn: TurnChoice, runID: string, state: RunState) {
    runID != "" && match turn
      case TurnStarted(id) => id == runID && state == Running
      case TurnFailed(rounds) => exists i | 0 <= i < |rounds| && i < 3 :: rounds[i] == Latest(runID, state)
      case TurnNotReached => false
  }

  ghost predicate TurnNamed(moves: seq<CallerMove>, runID: string, state: RunState) {
    exists turn :: CallTurn(turn) in moves && Names(turn, runID, state)
  }

  /** A new chat is the thread that StartThread named; a turn stays in its chat. */
  predicate ChatNamed(moves: seq<CallerMove>, scope: IdempotencyScope, chatID: string) {
    if scope.operation == StartChatRunOp then chatID != "" && Connect(ThreadStarted(chatID)) in moves
    else scope.operation == RunChatTurnOp && chatID == scope.chatID
  }

  ghost predicate RunNamed(moves: seq<CallerMove>, scope: IdempotencyScope, run: RunScope, state: RunState) {
    && run.chat.sessionGroupID == scope.sessionGroupID && run.chat.workspaceID == scope.workspaceID
    && ChatNamed(moves, scope, run.chat.chatID) && TurnNamed(moves, run.runID, state)
  }

  /** The result names the call's own chat, run and state, and the event it appended. */
  ghost predicate ResultNamed(moves: seq<CallerMove>, scope: IdempotencyScope, result: ResultRef) {
    && ChatNamed(moves, scope, result.chatID) && TurnNamed(moves, result.runID, result.status)
    && AppendStatus(result.lastEventID, result.eventCursor) in moves
  }

  predicate StartsRun(scope: IdempotencyScope) {
    scope.operation == StartChatRunOp || scope.operation == RunChatTurnOp
  }

  /** How often a call reached StartThread and StartTurn. */
  datatype Tally = Tally(threads: nat, turns: nat)

  function TallyOf(w: World, c: nat): Tally {
    Tally(multiset(w.effects)[StartThread(c)], multiset(w.effects)[StartTurn(c)])
  }

  /** Each round of the connection loop reaches StartThread once at most, and only a turn that
      was confirmed not to have started is tried again. */
  predicate TriesOK(caller: Caller, t: Tally) {
    && (caller.scope.operation != StartChatRunOp ==> t.threads == 0 && t.turns <= 1)
    && t.threads <= 3 && t.turns <= 2 && (caller.attempted <==> t != Tally(0, 0))
    && match caller.pc
       case Connecting(attempt) => attempt <= 2 && t.threads <= attempt && t.turns == 0
       case Turn(_) => t.turns == 0
       case Retry(_) => t.turns == 1
       case AbortLocal => t.turns == 1
       case Bind(_) => t.turns == 1
       case KeyHeld => t == Tally(0, 0)
       case TurnLocal => t == Tally(0, 0)
       case DropKey(_) => t == Tally(0, 0)
       case _ => true
  }

  /** What a move adds to it. */
  function TallyAfter(caller: Caller, move: CallerMove, t: Tally): Tally {
    match move
    case Connect(choice) =>
      if caller.pc.Connecting? && (choice.ThreadFailed? || choice.ThreadStarted?) then t.(threads := t.threads + 1) else t
    case CallTurn(turn) =>
      if (caller.pc.Turn? || caller.pc.Retry? || caller.pc.TurnLocal?) && !turn.TurnNotReached? then t.(turns := t.turns + 1) else t
    case _ => t
  }

  lemma ConnectTallied(w: World, c: nat, choice: ConnectChoice)
    requires c in w.callers
    ensures var v := ConnectStep(w, c, choice); forall d ::
              TallyOf(v, d) == if d == c then TallyAfter(w.callers[c], Connect(choice), TallyOf(w, d)) else TallyOf(w, d)
  {
    hide AfterConnect;
    if w.callers[c].pc.Connecting? { ConnectVerdict(w.callers[c].pc.attempt, w.callers[c].attempted, choice); }
    OneMore(w.effects, StartThread(c));
  }

  lemma OneMore(effects: seq<Effect>, e: Effect)
    ensures forall x :: multiset(effects + [e])[x] == multiset(effects)[x] + if x == e then 1 else 0
  {
    assert multiset(effects + [e]) == multiset(effects) + multiset{e};
  }

  lemma TurnTallied(w: World, c: nat, turn: TurnChoice)
    requires c in w.callers
    ensures var v := CallTurnStep(w, c, turn); forall d ::
              TallyOf(v, d) == if d == c then TallyAfter(w.callers[c], CallTurn(turn), TallyOf(w, d)) else TallyOf(w, d)
  {
    hide AfterTurn;
    OneMore(w.effects, StartTurn(c));
  }

  lemma RunMovesHaveNoEffect(w: World, g: Config, c: nat, ok: bool, now: int)
    requires c in w.callers
    ensures ReserveCapStep(w, g, c).effects == CommitStep(w, c, now).effects == CheckLocalStep(w, g, c, ok, now).effects == w.effects
    ensures AbortStep(w, c, now).effects == BindStep(w, c, now).effects == UpdateStep(w, c, now).effects == w.effects
    ensures TerminateStep(w, c, now).effects == DropCapacityStep(w, c).effects == w.effects
  {
    hide ReserveCapacity, StartRun, StartRunWithReservation, UpdateRunState, BindRunID, CompleteRun, ReleaseCapacity, RunOf,
      ProvisionalRun, SoleAtReserve, ExitPc;
  }

  lemma KeyMovesHaveNoEffect(w: World, g: Config, c: nat, cleanupAt: int, now: int)
    requires c in w.callers
    ensures PublishStep(w, g, c, cleanupAt, now).effects == DropKeyStep(w, g, c, cleanupAt).effects == w.effects
  {
    hide Complete, ReleaseKey, Expiring;
  }

  lemma PlainHasNoEffect(w: World, g: Config, c: nat, move: CallerMove)
    requires c in w.callers && !move.Connect? && !move.CallTurn?
    ensures CallerStep(w, g, c, move).effects == w.effects
  {
    hide ReserveCapStep, ConnectStep, CallTurnStep, CommitStep, CheckLocalStep, AbortStep, BindStep, UpdateStep,
      TerminateStep, PublishStep, DropKeyStep, DropCapacityStep;
    match move
    case CheckLocal(ok, now) => RunMovesHaveNoEffect(w, g, c, ok, now);
    case CommitRun(now) => RunMovesHaveNoEffect(w, g, c, true, now);
    case AbortTurn(now) => RunMovesHaveNoEffect(w, g, c, true, now);
    case BindRun(now) => RunMovesHaveNoEffect(w, g, c, true, now);
    case UpdateRun(now) => RunMovesHaveNoEffect(w, g, c, true, now);
    case TerminateRun(now) => RunMovesHaveNoEffect(w, g, c, true, now);
    case PublishResult(cleanupAt, now) => KeyMovesHaveNoEffect(w, g, c, cleanupAt, now);
    case DropTheKey(cleanupAt) => KeyMovesHaveNoEffect(w, g, c, cleanupAt, 0);
    case _ => RunMovesHaveNoEffect(w, g, c, true, 0);
  }

  lemma MoveIsTallied(w: World, g: Config, c: nat, move: CallerMove)
    requires c in w.callers
    ensures forall d :: TallyOf(CallerStep(w, g, c, move), d) ==
              if d == c then TallyAfter(w.callers[c], move, TallyOf(w, d)) else TallyOf(w, d)
  {
    hide ReserveCapStep, ConnectStep, CallTurnStep, CommitStep, CheckLocalStep, AbortStep, BindStep, UpdateStep, AppendStep,
      TerminateStep, PublishStep, DropKeyStep, DropCapacityStep, OtherStep;
    match move
    case Connect(choice) => ConnectTallied(w, c, choice);
    case CallTurn(turn) => TurnTallied(w, c, turn);
    case _ => PlainHasNoEffect(w, g, c, move);
  }

  ghost predicate StoryOK(moves: seq<CallerMove>, caller: Caller, t: Tally) {
    TriesOK(caller, t) && Told(moves, caller)
  }

  ghost predicate Told(moves: seq<CallerMove>, caller: Caller) {
    var scope := caller.scope;
    match caller.pc
    case Connecting(_) => scope.operation == StartChatRunOp
    case Turn(chatID) => scope.operation == StartChatRunOp && ChatNamed(moves, scope, chatID)
    case Retry(chatID) => scope.operation == StartChatRunOp && ChatNamed(moves, scope, chatID)
    case Commit(run, state) => scope.operation == StartChatRunOp && RunNamed(moves, scope, run, state)
    case TurnLocal => scope.operation == RunChatTurnOp
    case AbortLocal => scope.operation == RunChatTurnOp
    case Bind(runID) => scope.operation == RunChatTurnOp && TurnNamed(moves, runID, Running)
    case Update(run, state) => StartsRun(scope) && RunNamed(moves, scope, run, state)
    case Append(run, state) => StartsRun(scope) && RunNamed(moves, scope, run, state)
    case Terminate(run, result) =>
      StartsRun(scope) && ResultNamed(moves, scope, result) && run.runID == result.runID && run.chat.chatID == result.chatID
    case Publish(result) => StartsRun(scope) ==> ResultNamed(moves, scope, result)
    case Finished(outcome) => outcome.Own? && StartsRun(scope) ==> ResultNamed(moves, scope, outcome.result)
    case _ => true
  }

  /** What was named stays named. */
  lemma StoryGoesOn(moves: seq<CallerMove>, t: Tally, move: CallerMove, caller: Caller)
    requires StoryOK(moves, caller, t)
    ensures StoryOK(moves + [move], caller, t)
  {
    hide Names;
  }

  lemma ConnectStory(moves: seq<CallerMove>, t: Tally, w: World, c: nat, choice: ConnectChoice)
    requires c in w.callers && StoryOK(moves, w.callers[c], t)
    ensures c in ConnectStep(w, c, choice).callers
    ensures StoryOK(moves + [Connect(choice)], ConnectStep(w, c, choice).callers[c], TallyAfter(w.callers[c], Connect(choice), t))
  {
    hide Names;
    assert Connect(choice) in moves + [Connect(choice)];
    StoryGoesOn(moves, t, Connect(choice), w.callers[c]);
  }

  lemma RecoveredIsNamed(rounds: seq<Read>)
    ensures var r := Recover(rounds); r.found.Some? ==> Names(TurnFailed(rounds), r.found.value.0, r.found.value.1)
  {
    RecoverVerdict(rounds);
    hide Recover;
    assert forall n | 0 <= n < |rounds| && n < 3 && NamesTurn(rounds[n]) ::
        rounds[n] == Latest(rounds[n].runID, rounds[n].state);
  }

  lemma TurnStory(moves: seq<CallerMove>, t: Tally, w: World, c: nat, turn: TurnChoice)
    requires c in w.callers && StoryOK(moves, w.callers[c], t)
    ensures c in CallTurnStep(w, c, turn).callers
    ensures StoryOK(moves + [CallTurn(turn)], CallTurnStep(w, c, turn).callers[c], TallyAfter(w.callers[c], CallTurn(turn), t))
  {
    hide Recover;
    assert CallTurn(turn) in moves + [CallTurn(turn)];
    StoryGoesOn(moves, t, CallTurn(turn), w.callers[c]);
    if turn.TurnFailed? { RecoveredIsNamed(turn.rounds); }
    hide Names;
    assert turn.TurnStarted? && turn.runID != "" ==> TurnNamed(moves + [CallTurn(turn)], turn.runID, Running) by {
      if turn.TurnStarted? && turn.runID != "" { StartedIsNamed(moves, turn); }
    }
  }

  lemma StartedIsNamed(moves: seq<CallerMove>, turn: TurnChoice)
    requires turn.TurnStarted? && turn.runID != ""
    ensures TurnNamed(moves + [CallTurn(turn)], turn.runID, Running)
  {
    assert CallTurn(turn) in moves + [CallTurn(turn)] && Names(turn, turn.runID, Running);
  }

  lemma AppendStory(moves: seq<CallerMove>, t: Tally, w: World, c: nat, eventID: nat, cursor: string)
    requires c in w.callers && StoryOK(moves, w.callers[c], t)
    ensures c in AppendStep(w, c, eventID, cursor).callers
    ensures StoryOK(moves + [AppendStatus(eventID, cursor)], AppendStep(w, c, eventID, cursor).callers[c], t)
  {
    hide Names;
    assert AppendStatus(eventID, cursor) in moves + [AppendStatus(eventID, cursor)];
    StoryGoesOn(moves, t, AppendStatus(eventID, cursor), w.callers[c]);
  }

  lemma ReserveLeads(moves: seq<CallerMove>, t: Tally, caller: Caller, sole: bool)
    requires caller.scope.operation == StartChatRunOp && caller.pc.KeyHeld? && StoryOK(moves, caller, t)
    ensures StoryOK(moves, caller.(pc := Connecting(0), sole := sole), t) && StoryOK(moves, caller.(pc := DropKey(false)), t)
  {
  }

  lemma ReserveStory(moves: seq<CallerMove>, t: Tally, w: World, g: Config, c: nat)
    requires c in w.callers && StoryOK(moves, w.callers[c], t)
    ensures c in ReserveCapStep(w, g, c).callers && StoryOK(moves, ReserveCapStep(w, g, c).callers[c], t)
  {
    hide StoryOK, ReserveCapacity, SoleAtReserve;
    if w.callers[c].pc.KeyHeld? && w.callers[c].scope.operation == StartChatRunOp {
      ReserveLeads(moves, t, w.callers[c], SoleAtReserve(w, c));
    }
  }

  lemma CommitLeads(moves: seq<CallerMove>, t: Tally, caller: Caller)
    requires caller.pc.Commit? && StoryOK(moves, caller, t)
    ensures StoryOK(moves, caller.(pc := Update(caller.pc.run, caller.pc.state)), t)
    ensures StoryOK(moves, caller.(pc := ExitPc(caller.attempted)), t)
  {
    hide RunNamed;
  }

  lemma CommitStory(moves: seq<CallerMove>, t: Tally, w: World, c: nat, now: int)
    requires c in w.callers && StoryOK(moves, w.callers[c], t)
    ensures c in CommitStep(w, c, now).callers && StoryOK(moves, CommitStep(w, c, now).callers[c], t)
  {
    hide StoryOK, StartRunWithReservation, ExitPc;
    if w.callers[c].pc.Commit? { CommitLeads(moves, t, w.callers[c]); }
  }

  lemma LocalLeads(moves: seq<CallerMove>, t: Tally, caller: Caller)
    requires caller.scope.operation == RunChatTurnOp && caller.pc.KeyHeld? && StoryOK(moves, caller, t)
    ensures StoryOK(moves, caller.(pc := TurnLocal), t) && StoryOK(moves, caller.(pc := DropKey(false)), t)
  {
  }

  lemma LocalStory(moves: seq<CallerMove>, t: Tally, w: World, g: Config, c: nat, ok: bool, now: int)
    requires c in w.callers && StoryOK(moves, w.callers[c], t)
    ensures c in CheckLocalStep(w, g, c, ok, now).callers && StoryOK(moves, CheckLocalStep(w, g, c, ok, now).callers[c], t)
  {
    hide StoryOK, StartRun, ProvisionalRun;
    if w.callers[c].pc.KeyHeld? && w.callers[c].scope.operation == RunChatTurnOp { LocalLeads(moves, t, w.callers[c]); }
  }

  lemma AbortStory(moves: seq<CallerMove>, t: Tally, w: World, c: nat, now: int)
    requires c in w.callers && StoryOK(moves, w.callers[c], t)
    ensures c in AbortStep(w, c, now).callers && StoryOK(moves, AbortStep(w, c, now).callers[c], t)
  {
    hide TurnNamed, CompleteRun;
  }

  lemma BindLeads(moves: seq<CallerMove>, t: Tally, caller: Caller)
    requires caller.pc.Bind? && StoryOK(moves, caller, t)
    ensures StoryOK(moves, caller.(pc := Update(RunOf(caller.scope, caller.scope.chatID, caller.pc.runID), Running)), t)
    ensures StoryOK(moves, caller.(pc := Finished(Stuck)), t)
  {
    hide TurnNamed;
  }

  lemma BindStory(moves: seq<CallerMove>, t: Tally, w: World, c: nat, now: int)
    requires c in w.callers && StoryOK(moves, w.callers[c], t)
    ensures c in BindStep(w, c, now).callers && StoryOK(moves, BindStep(w, c, now).callers[c], t)
  {
    hide StoryOK, BindRunID, RunOf, ProvisionalRun;
    if w.callers[c].pc.Bind? { BindLeads(moves, t, w.callers[c]); }
  }

  lemma UpdateStory(moves: seq<CallerMove>, t: Tally, w: World, c: nat, now: int)
    requires c in w.callers && StoryOK(moves, w.callers[c], t)
    ensures c in UpdateStep(w, c, now).callers && StoryOK(moves, UpdateStep(w, c, now).callers[c], t)
  {
    hide TurnNamed, UpdateRunState;
  }

  lemma TerminateStory(moves: seq<CallerMove>, t: Tally, w: World, c: nat, now: int)
    requires c in w.callers && StoryOK(moves, w.callers[c], t)
    ensures c in TerminateStep(w, c, now).callers && StoryOK(moves, TerminateStep(w, c, now).callers[c], t)
  {
    hide TurnNamed, CompleteRun;
  }

  lemma PublishStory(moves: seq<CallerMove>, t: Tally, w: World, g: Config, c: nat, cleanupAt: int, now: int)
    requires c in w.callers && StoryOK(moves, w.callers[c], t)
    ensures c in PublishStep(w, g, c, cleanupAt, now).callers && StoryOK(moves, PublishStep(w, g, c, cleanupAt, now).callers[c], t)
  {
    hide TurnNamed, Complete, Expiring;
  }

  lemma DropKeyStory(moves: seq<CallerMove>, t: Tally, w: World, g: Config, c: nat, cleanupAt: int)
    requires c in w.callers && StoryOK(moves, w.callers[c], t)
    ensures c in DropKeyStep(w, g, c, cleanupAt).callers && StoryOK(moves, DropKeyStep(w, g, c, cleanupAt).callers[c], t)
  {
    hide TurnNamed, ReleaseKey, Expiring;
  }

  lemma DropCapacityStory(moves: seq<CallerMove>, t: Tally, w: World, c: nat)
    requires c in w.callers && StoryOK(moves, w.callers[c], t)
    ensures c in DropCapacityStep(w, c).callers && StoryOK(moves, DropCapacityStep(w, c).callers[c], t)
  {
    hide TurnNamed, ReleaseCapacity;
  }

  lemma OtherStory(moves: seq<CallerMove>, t: Tally, w: World, c: nat, result: Option<ResultRef>, release: bool)
    requires c in w.callers && StoryOK(moves, w.callers[c], t)
    ensures c in OtherStep(w, c, result, release).callers && StoryOK(moves, OtherStep(w, c, result, release).callers[c], t)
  {
    hide TurnNamed;
  }

  /** The other moves name nothing new. */
  lemma PlainStory(moves: seq<CallerMove>, t: Tally, w: World, g: Config, c: nat, move: CallerMove)
    requires c in w.callers && StoryOK(moves, w.callers[c], t)
    requires !move.Connect? && !move.CallTurn? && !move.AppendStatus?
    ensures c in CallerStep(w, g, c, move).callers
    ensures StoryOK(moves, CallerStep(w, g, c, move).callers[c], t)
  {
    hide StoryOK, ReserveCapStep, ConnectStep, CallTurnStep, CommitStep, CheckLocalStep, AbortStep, BindStep, UpdateStep, AppendStep,
      TerminateStep, PublishStep, DropKeyStep, DropCapacityStep, OtherStep;
    match move
    case ReserveCap => ReserveStory(moves, t, w, g, c);
    case CommitRun(now) => CommitStory(moves, t, w, c, now);
    case CheckLocal(ok, now) => LocalStory(moves, t, w, g, c, ok, now);
    case AbortTurn(now) => AbortStory(moves, t, w, c, now);
    case BindRun(now) => BindStory(moves, t, w, c, now);
    case UpdateRun(now) => UpdateStory(moves, t, w, c, now);
    case TerminateRun(now) => TerminateStory(moves, t, w, c, now);
    case PublishResult(cleanupAt, now) => PublishStory(moves, t, w, g, c, cleanupAt, now);
    case DropTheKey(cleanupAt) => DropKeyStory(moves, t, w, g, c, cleanupAt);
    case DropTheCapacity => DropCapacityStory(moves, t, w, c);
    case OtherOperation(result, release) => OtherStory(moves, t, w, c, result, release);
  }

  lemma MoveStory(moves: seq<CallerMove>, t: Tally, w: World, g: Config, c: nat, move: CallerMove)
    requires c in w.callers && StoryOK(moves, w.callers[c], t)
    ensures c in CallerStep(w, g, c, move).callers
    ensures StoryOK(moves + [move], CallerStep(w, g, c, move).callers[c], TallyAfter(w.callers[c], move, t))
  {
    hide StoryOK, ReserveCapStep, ConnectStep, CallTurnStep, CommitStep, CheckLocalStep, AbortStep, BindStep, UpdateStep, AppendStep,
      TerminateStep, PublishStep, DropKeyStep, DropCapacityStep, OtherStep;
    match move
    case Connect(choice) => ConnectStory(moves, t, w, c, choice);
    case CallTurn(turn) => TurnStory(moves, t, w, c, turn);
    case AppendStatus(eventID, cursor) => AppendStory(moves, t, w, c, eventID, cursor);
    case _ =>
      PlainStory(moves, t, w, g, c, move);
      StoryGoesOn(moves, t, move, CallerStep(w, g, c, move).callers[c]);
  }

  // ----- over whole runs ----------------------------------------------------------------------

  lemma StepLeavesOthers(w: World, g: Config, a: Action, c: nat)
    requires Inv(w, g) && c in w.callers && !(a.Proceed? && a.c == c)
    ensures c in Step(w, g, a).callers && Step(w, g, a).callers[c] == w.callers[c]
  {
    hide Inv, ApplyRuns, CleanedEntries, Expiring, CallerStep, ArriveStep;
    match a
    case Arrive(d, scope, cleanupAt, now) => if d !in w.callers { ArriveFields(w, g, d, scope, cleanupAt, now); }
    case Proceed(d, move) => if d in w.callers { MoveLeavesOthers(w, g, d, move); }
    case _ =>
  }

  lemma NewcomersStory(w: World, g: Config, a: Action, c: nat)
    requires Inv(w, g) && c !in w.callers && c in Step(w, g, a).callers
    ensures a.Arrive? && a.c == c && StoryOK([], Step(w, g, a).callers[c], TallyOf(Step(w, g, a), c))
  {
    hide KeysOK, PathOK, NoLeak, SoleHolds, ApplyRuns, CallerStep, ArriveStep, CleanedEntries, Expiring;
    NothingTallied(w, c);
    match a
    case Arrive(d, scope, cleanupAt, now) => if d !in w.callers { ArriveFields(w, g, d, scope, cleanupAt, now); }
    case Proceed(d, move) => if d in w.callers { MoveLeavesOthers(w, g, d, move); }
    case _ =>
  }

  lemma NothingTallied(w: World, c: nat)
    requires EffectsOK(w) && c !in w.callers
    ensures TallyOf(w, c) == Tally(0, 0)
  {
    assert StartThread(c) !in w.effects && StartTurn(c) !in w.effects;
  }

  lemma {:induction false} StoryAnyMoves(moves: seq<CallerMove>, t: Tally, caller: Caller)
    requires StoryOK([], caller, t)
    ensures StoryOK(moves, caller, t)
  {
    hide StoryOK;
    if moves != [] {
      StoryAnyMoves(moves[..|moves| - 1], t, caller);
      StoryGoesOn(moves[..|moves| - 1], t, moves[|moves| - 1], caller);
      assert moves == moves[..|moves| - 1] + [moves[|moves| - 1]];
    }
  }

  lemma OthersLeaveTally(w: World, g: Config, a: Action, c: nat)
    requires !(a.Proceed? && a.c == c)
    ensures TallyOf(Step(w, g, a), c) == TallyOf(w, c)
  {
    hide ApplyRuns, CleanedEntries, Expiring, CallerStep, ArriveStep;
    match a
    case Arrive(d, scope, cleanupAt, now) => if d !in w.callers { ArriveFields(w, g, d, scope, cleanupAt, now); }
    case Proceed(d, move) => if d in w.callers { MoveIsTallied(w, g, d, move); }
    case _ =>
  }

  lemma {:induction false} EveryStory(g: Config, actions: seq<Action>, c: nat)
    requires c in Run(g, actions).callers
    ensures StoryOK(MovesOf(actions, c), Run(g, actions).callers[c], TallyOf(Run(g, actions), c))
  {
    hide Step, StoryOK, Inv, TallyOf, TallyAfter;
    var init := actions[..|actions| - 1];
    var a, w := actions[|actions| - 1], Run(g, init);
    EveryRunInv(g, init);
    if c !in w.callers {
      NewcomersStory(w, g, a, c);
      StoryAnyMoves(MovesOf(actions, c), TallyOf(Run(g, actions), c), Run(g, actions).callers[c]);
    } else {
      EveryStory(g, init, c);
      if a.Proceed? && a.c == c {
        MoveStory(MovesOf(init, c), TallyOf(w, c), w, g, c, a.move);
        MoveIsTallied(w, g, c, a.move);
        ProceedIsMove(w, g, c, a.move);
      } else {
        StepLeavesOthers(w, g, a, c);
        OthersLeaveTally(w, g, a, c);
      }
    }
  }

  lemma ProceedIsMove(w: World, g: Config, c: nat, move: CallerMove)
    requires c in w.callers
    ensures Step(w, g, Proceed(c, move)) == CallerStep(w, g, c, move)
  {
    hide CallerStep;
  }

  /** In every run, the result a starting call returns as its own names the chat whose thread
      it started (or the chat it was called for), a run that the start of its turn or a read
      after it named, in the state named there, and the event that the call itself appended. */
  lemma ResultTellsOwnRun(g: Config, actions: seq<Action>, c: nat)
    requires var w := Run(g, actions);
             c in w.callers && w.callers[c].pc.Finished? && w.callers[c].pc.outcome.Own? && StartsRun(w.callers[c].scope)
    ensures var w := Run(g, actions);
            ResultNamed(MovesOf(actions, c), w.callers[c].scope, w.callers[c].pc.outcome.result)
  {
    hide Run, ResultNamed;
    EveryStory(g, actions, c);
  }

  /** In every run each call reaches StartThread at most three times and StartTurn at most
      twice; a turn in an existing chat reaches StartTurn once and StartThread never. */
  lemma TriesAreBounded(g: Config, actions: seq<Action>, c: nat)
    ensures var effects := multiset(Run(g, actions).effects);
            && effects[StartThread(c)] <= 3 && effects[StartTurn(c)] <= 2
            && (c in Run(g, actions).callers && Run(g, actions).callers[c].scope.operation == RunChatTurnOp ==>
                  effects[StartThread(c)] == 0 && effects[StartTurn(c)] <= 1)
  {
    hide Run, Told, Inv;
    EveryRunInv(g, actions);
    if c in Run(g, actions).callers {
      EveryStory(g, actions, c);
    } else {
      EffectsHaveCallers(Run(g, actions), g);
      NothingTallied(Run(g, actions), c);
    }
  }

  lemma EffectsHaveCallers(w: World, g: Config)
    requires Inv(w, g)
    ensures EffectsOK(w)
  {
    hide EffectsOK;
  }

  // ----- what a call records about its run --------------------------------------------------------

  /** The run with this very id is the chat's run. */
  predicate Found(runs: Runs, run: RunScope) {
    run.chat in runs.active && runs.active[run.chat].runID == run.runID
  }

  /** The step leaves the runs as given and the call at the given place. */
  ghost predicate GoesTo(w: World, v: World, c: nat, runs: Runs, pc: Pc)
    requires c in w.callers
  {
    v == w.(runs := runs, callers := w.callers[c := w.callers[c].(pc := pc)])
  }

  /** A call reserves room for its run, or gives its key back. */
  lemma ReserveCapMoves(w: World, g: Config, c: nat)
    requires c in w.callers && w.callers[c].pc.KeyHeld? && w.callers[c].scope.operation == StartChatRunOp && Keyed(w.callers[c].scope)
    ensures var v := Step(w, g, Proceed(c, ReserveCap)); var scope := w.callers[c].scope;
            if scope in w.runs.reserved || |w.runs.active| + |w.runs.reserved| < g.runsCap
            then
              && scope in v.runs.reserved && v.runs.active == w.runs.active && v.runs.reserved.Keys == w.runs.reserved.Keys + {scope}
              && v.callers[c].pc == Connecting(0) && v.reservedBy == w.reservedBy[scope := c]
              && (v.callers[c].sole <==> forall d | d in w.callers && d != c && w.callers[d].scope == scope ::
                    !w.callers[d].pc.DropCapacity?)
            else GoesTo(w, v, c, w.runs, DropKey(false))
  {
    RunsModel.CapacityVerdict(w.runs, g.runsCap, w.callers[c].scope);
    hide ReserveCapacity, SoleAtReserve, Keyed;
    assert SoleAtReserve(w, c) <==> forall d | d in w.callers && d != c && w.callers[d].scope == w.callers[c].scope ::
        !w.callers[d].pc.DropCapacity? by { SoleMeans(w, c); }
  }

  lemma SoleMeans(w: World, c: nat)
    requires c in w.callers
    ensures SoleAtReserve(w, c) <==> forall d | d in w.callers && d != c && w.callers[d].scope == w.callers[c].scope ::
              !w.callers[d].pc.DropCapacity?
  {
  }

  /** The commit records the run as starting, under the call's own key, and uses up the
      reservation; or nothing, and the call gives up. */
  lemma CommitMoves(w: World, g: Config, c: nat, now: int)
    requires c in w.callers && w.callers[c].pc.Commit? && Keyed(w.callers[c].scope) && Named(w.callers[c].pc.run)
    ensures var v := Step(w, g, Proceed(c, CommitRun(now)));
            var scope, run, state := w.callers[c].scope, w.callers[c].pc.run, w.callers[c].pc.state;
            if scope in w.runs.reserved && !Going(w.runs.active, run.chat) then
              GoesTo(w, v, c,
                     Runs(w.runs.active[run.chat := RunRecord(run.chat, run.runID, Starting, scope.key, now / 1_000_000, now / 1_000_000)],
                          w.runs.reserved - {scope}), Update(run, state))
            else GoesTo(w, v, c, w.runs, v.callers[c].pc) && LeavesFor(v.callers[c].pc, w.callers[c].attempted)
  {
    RunsModel.StartVerdict(w.runs, g.runsCap, w.callers[c].scope, w.callers[c].pc.run, w.callers[c].scope.key, now);
    hide StartRunWithReservation, StartRun, Going, Keyed, Named;
  }

  /** The recorded state is the one that was named with the run; a run that is over is taken
      out again, and a run that is no longer there leaves the call stuck. */
  lemma UpdateMoves(w: World, g: Config, c: nat, now: int)
    requires c in w.callers && w.callers[c].pc.Update? && Named(w.callers[c].pc.run)
    ensures var v := Step(w, g, Proceed(c, UpdateRun(now))); var run, state := w.callers[c].pc.run, w.callers[c].pc.state;
            if Found(w.runs, run) then
              GoesTo(w, v, c, w.runs.(active := w.runs.active[run.chat :=
                       w.runs.active[run.chat].(state := state, updatedAtUnixMS := now / 1_000_000)]), Append(run, state))
            else GoesTo(w, v, c, w.runs, Finished(Stuck))
  {
    RunsModel.TouchesNamedRunOnly(w.runs, OpUpdate(w.callers[c].pc.run, w.callers[c].pc.state, now));
    hide UpdateRunState, Named;
  }

  lemma AppendMoves(w: World, g: Config, c: nat, eventID: nat, cursor: string)
    requires c in w.callers && w.callers[c].pc.Append?
    ensures var v := Step(w, g, Proceed(c, AppendStatus(eventID, cursor))); var run, state := w.callers[c].pc.run, w.callers[c].pc.state;
            var result := ResultRef(run.chat.chatID, run.runID, state, eventID, cursor);
            GoesTo(w, v, c, w.runs, match state
                     case Completed => Terminate(run, result)
                     case Failed => Terminate(run, result)
                     case Interrupted => Terminate(run, result)
                     case _ => Publish(result))
  {
  }

  lemma TerminateMoves(w: World, g: Config, c: nat, now: int)
    requires c in w.callers && w.callers[c].pc.Terminate? && Named(w.callers[c].pc.run) && IsTerminal(w.callers[c].pc.result.status)
    ensures var v := Step(w, g, Proceed(c, TerminateRun(now))); var run := w.callers[c].pc.run;
            if Found(w.runs, run)
            then GoesTo(w, v, c, w.runs.(active := w.runs.active - {run.chat}), Publish(w.callers[c].pc.result))
            else GoesTo(w, v, c, w.runs, Finished(Stuck))
  {
    RunsModel.TouchesNamedRunOnly(w.runs, OpComplete(w.callers[c].pc.run, w.callers[c].pc.result.status, now));
    hide CompleteRun, Named;
  }

  /** The run of a turn in its chat has this name until its turn has started. */
  function WaitingRun(scope: IdempotencyScope): RunScope {
    RunScope(Scope(scope.sessionGroupID, scope.workspaceID, scope.chatID), "pending:" + scope.key)
  }

  lemma WaitingIsProvisional(scope: IdempotencyScope)
    requires Keyed(scope)
    ensures ProvisionalRun(scope) == WaitingRun(scope) && (scope.chatID != "" ==> Named(WaitingRun(scope)))
  {
  }

  /** A turn in a chat takes the chat for a run of its own before it starts, under the waiting
      name; it gives that up if the turn fails, and renames it to the run that the turn names. */
  lemma LocalMoves(w: World, g: Config, c: nat, ok: bool, now: int)
    requires c in w.callers && w.callers[c].pc.KeyHeld? && w.callers[c].scope.operation == RunChatTurnOp
    requires Keyed(w.callers[c].scope) && w.callers[c].scope.chatID != ""
    ensures var v := Step(w, g, Proceed(c, CheckLocal(ok, now))); var scope := w.callers[c].scope; var run := WaitingRun(scope);
            if ok && !Going(w.runs.active, run.chat) && |w.runs.active| + |w.runs.reserved| < g.runsCap then
              GoesTo(w, v, c, w.runs.(active := w.runs.active[run.chat :=
                       RunRecord(run.chat, run.runID, Starting, scope.key, now / 1_000_000, now / 1_000_000)]), TurnLocal)
            else GoesTo(w, v, c, w.runs, DropKey(false))
  {
    var scope := w.callers[c].scope;
    WaitingIsProvisional(scope);
    RunsModel.StartVerdict(w.runs, g.runsCap, scope, WaitingRun(scope), scope.key, now);
    hide StartRunWithReservation, StartRun, Going, Keyed, Named, WaitingRun, ProvisionalRun;
  }

  lemma AbortMoves(w: World, g: Config, c: nat, now: int)
    requires c in w.callers && w.callers[c].pc.AbortLocal? && Keyed(w.callers[c].scope) && w.callers[c].scope.chatID != ""
    ensures var v := Step(w, g, Proceed(c, AbortTurn(now))); var run := WaitingRun(w.callers[c].scope);
            GoesTo(w, v, c, if Found(w.runs, run) then w.runs.(active := w.runs.active - {run.chat}) else w.runs, Finished(Stuck))
  {
    WaitingIsProvisional(w.callers[c].scope);
    RunsModel.TouchesNamedRunOnly(w.runs, OpComplete(WaitingRun(w.callers[c].scope), Failed, now));
    hide CompleteRun, Named, WaitingRun, ProvisionalRun, Keyed;
  }

  lemma BindMoves(w: World, g: Config, c: nat, now: int)
    requires c in w.callers && w.callers[c].pc.Bind? && Keyed(w.callers[c].scope) && w.callers[c].scope.chatID != ""
    requires w.callers[c].pc.runID != ""
    ensures var v := Step(w, g, Proceed(c, BindRun(now))); var run, runID := WaitingRun(w.callers[c].scope), w.callers[c].pc.runID;
            if Found(w.runs, run) then
              GoesTo(w, v, c, w.runs.(active := w.runs.active[run.chat :=
                       w.runs.active[run.chat].(runID := runID, updatedAtUnixMS := now / 1_000_000)]),
                     Update(RunScope(run.chat, runID), Running))
            else GoesTo(w, v, c, w.runs, Finished(Stuck))
  {
    WaitingIsProvisional(w.callers[c].scope);
    RunsModel.TouchesNamedRunOnly(w.runs, OpBind(WaitingRun(w.callers[c].scope), w.callers[c].pc.runID, now));
    WaitingChat(w.callers[c].scope);
    hide BindRunID, Named, WaitingRun, ProvisionalRun, Keyed;
  }

  lemma WaitingChat(scope: IdempotencyScope)
    ensures RunOf(scope, scope.chatID, "").chat == WaitingRun(scope).chat
  {
  }

  /** The release of the capacity is the last thing a call does that gives up. */
  lemma DropCapacityMoves(w: World, g: Config, c: nat)
    requires c in w.callers && w.callers[c].pc.DropCapacity? && Keyed(w.callers[c].scope)
    ensures var v := Step(w, g, Proceed(c, DropTheCapacity));
            GoesTo(w, v, c, w.runs.(reserved := w.runs.reserved - {w.callers[c].scope}),
                   Finished(if w.callers[c].pc.kept then Stuck else GaveUp))
  {
    RunsModel.CapacityVerdict(w.runs, g.runsCap, w.callers[c].scope);
    hide ReleaseCapacity, Keyed;
  }

  /** The other operations that share the keys publish a result, give the key back, or neither. */
  lemma OtherMoves(w: World, g: Config, c: nat, result: Option<ResultRef>, release: bool)
    requires c in w.callers && w.callers[c].pc.KeyHeld?
    ensures var v := Step(w, g, Proceed(c, OtherOperation(result, release)));
            match w.callers[c].scope.operation
            case StartChatRunOp => v == w
            case RunChatTurnOp => v == w
            case _ =>
              GoesTo(w, v, c, w.runs, if result.Some? then Publish(result.value) else if release then DropKey(false) else Finished(Stuck))
  {
  }

  /** Everybody else may do anything to the runs meanwhile, except to reservations. */
  lemma OthersMove(w: World, g: Config, op: RunsOp)
    ensures var v := Step(w, g, OtherRuns(op));
            match op
            case OpReserve(_) => v == w
            case OpRelease(_) => v == w
            case OpStartReserved(_, _, _, _) => v == w
            case _ => v == w.(runs := ApplyRuns(w.runs, g.runsCap, op))
  {
    hide ApplyRuns;
  }
}
