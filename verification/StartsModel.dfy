/** Any number of concurrent calls of StartChatRun and RunChatTurn (and of the two other
    operations that share the idempotency table). Each store call is one step, each
    outside effect is one step, and every outcome of the outside world is a choice. */
module StartsModel {
  import opened Common
  import opened ReplayModel
  import opened RunsModel
  import opened IdempotencyModel

  const CONNECTION_ATTEMPTS := 3
  const RECOVERY_ATTEMPTS := 3

  // ----- recovering a turn whose start failed --------------------------------------

  /** One round of the recovery loop: the wait before it was cancelled, the read failed, the
      thread had no turns, its latest turn could not be used, or it names a started turn. */
  datatype Read = WaitCancelled | ReadFailed | NoTurns | Unusable | Latest(runID: string, state: RunState)

  datatype Recovery = Recovery(found: Option<(string, RunState)>, confirmedEmpty: bool)

  function RecoverFrom(rounds: seq<Read>, attempt: nat, confirmedEmpty: bool): Recovery
    decreases RECOVERY_ATTEMPTS - attempt
  {
    if attempt >= RECOVERY_ATTEMPTS || attempt >= |rounds| then Recovery(None, confirmedEmpty)
    else match rounds[attempt]
      case WaitCancelled =>
        if attempt > 0 then Recovery(None, false) else RecoverFrom(rounds, attempt + 1, confirmedEmpty)
      case NoTurns => RecoverFrom(rounds, attempt + 1, true)
      case Latest(runID, state) =>
        if runID == "" then RecoverFrom(rounds, attempt + 1, confirmedEmpty)
        else Recovery(Some((runID, state)), false)
      case _ => RecoverFrom(rounds, attempt + 1, confirmedEmpty)
  }

  function Recover(rounds: seq<Read>): Recovery { RecoverFrom(rounds, 0, false) }

  /** The turn is started again only if a read showed the thread without turns and no read
      named a started turn. */
  lemma {:induction false} RetryNeedsEmptyRead(rounds: seq<Read>, attempt: nat, confirmedEmpty: bool)
    ensures var r := RecoverFrom(rounds, attempt, confirmedEmpty);
            r.found.None? && r.confirmedEmpty ==>
              && (confirmedEmpty || exists i | attempt <= i < |rounds| && i < RECOVERY_ATTEMPTS :: rounds[i] == NoTurns)
              && forall i | attempt <= i < |rounds| && i < RECOVERY_ATTEMPTS :: !(rounds[i].Latest? && rounds[i].runID != "")
    decreases RECOVERY_ATTEMPTS - attempt
  {
    if attempt < RECOVERY_ATTEMPTS && attempt < |rounds| {
      RetryNeedsEmptyRead(rounds, attempt + 1, confirmedEmpty || rounds[attempt] == NoTurns);
    }
  }

  // ----- calls -------------------------------------------------------------------------

  datatype Outcome =
    | Rejected                              // never held the key
    | GaveUp                                // released the key, nothing was attempted
    | Stuck                                 // something was attempted; the key stays in flight
    | Own(result: ResultRef)
    | Replayed(owner: nat, result: ResultRef)

  datatype Pc =
    | KeyHeld
    | Connecting(attempt: nat)
    | Turn(chatID: string)
    | Retry(chatID: string)
    | Commit(run: RunScope, state: RunState)
    | TurnLocal
    | AbortLocal
    | Bind(runID: string)
    | Update(run: RunScope, state: RunState)
    | Append(run: RunScope, state: RunState)
    | Terminate(run: RunScope, result: ResultRef)
    | Publish(result: ResultRef)
    | DropKey(capacity: bool)
    | DropCapacity(kept: bool)
    | Finished(outcome: Outcome)

  /** `attempted` remembers a StartThread or StartTurn; `sole` remembers that no other call
      with this scope still had its capacity release ahead when this one reserved. */
  datatype Caller = Caller(scope: IdempotencyScope, pc: Pc, attempted: bool, sole: bool)

  datatype Effect = StartThread(caller: nat) | StartTurn(caller: nat)

  /** The last five fields are history: who holds each key, whose succeeded entry has
      expired, who reserved capacity last for each scope, every outside start, and when each
      call published its result. */
  datatype World = World(
    entries: Entries,
    runs: Runs,
    callers: map<nat, Caller>,
    owner: map<StoreKey, nat>,
    expired: set<nat>,
    reservedBy: map<IdempotencyScope, nat>,
    effects: seq<Effect>,
    publishedAt: map<nat, int>)

  const START := World(map[], Runs(map[], map[]), map[], map[], {}, map[], [], map[])

  datatype Config = Config(runsCap: nat, entriesCap: int, replayTTL: int)

  datatype ConnectChoice =
    | ConnectFailed(retryable: bool, waited: bool)
    | NoConnection
    | CallerGone
    | ThreadFailed(retryable: bool, waited: bool)
    | ThreadStarted(chatID: string)

  datatype TurnChoice =
    | TurnNotReached
    | TurnFailed(rounds: seq<Read>)
    | TurnStarted(runID: string)

  /** What one call does next; a move its position does not allow changes nothing. */
  datatype CallerMove =
    | ReserveCap
    | Connect(choice: ConnectChoice)
    | CallTurn(turn: TurnChoice)
    | CommitRun(now: int)
    | CheckLocal(ok: bool, now: int)
    | AbortTurn(now: int)
    | BindRun(now: int)
    | UpdateRun(now: int)
    | AppendStatus(eventID: nat, cursor: string)
    | TerminateRun(now: int)
    | PublishResult(cleanupAt: int, now: int)
    | DropTheKey(cleanupAt: int)
    | DropTheCapacity
    | OtherOperation(result: Option<ResultRef>, release: bool)

  datatype Action =
    | Arrive(c: nat, scope: IdempotencyScope, cleanupAt: int, now: int)
    | Proceed(c: nat, move: CallerMove)
    | OtherRuns(op: RunsOp)
    | Cleanup(cleanupAt: int)

  function At(w: World, c: nat, pc: Pc): World
    requires c in w.callers
  {
    w.(callers := w.callers[c := w.callers[c].(pc := pc)])
  }

  /** Giving up: the key is released only if nothing was attempted; a capacity reservation
      is released last, when the call returns. */
  function ExitPc(attempted: bool): Pc {
    if attempted then DropCapacity(true) else DropKey(true)
  }

  function RunOf(scope: IdempotencyScope, chatID: string, runID: string): RunScope {
    RunScope(Scope(scope.sessionGroupID, scope.workspaceID, chatID), runID)
  }

  function ProvisionalRun(scope: IdempotencyScope): RunScope {
    RunOf(scope, scope.chatID, "pending:" + if scope.key == "" then "run" else scope.key)
  }

  /** Owners whose succeeded entry a cleanup pass removes. */
  function Expiring(w: World, ttl: int, now: int): set<nat> {
    set k | k in w.entries && k in w.owner && Stale(w.entries[k], ttl, now) :: w.owner[k]
  }

  predicate SoleAtReserve(w: World, c: nat)
    requires c in w.callers
  {
    forall d | d in w.callers && d != c :: w.callers[d].scope == w.callers[c].scope ==> !w.callers[d].pc.DropCapacity?
  }

  function ArriveStep(w: World, g: Config, c: nat, scope: IdempotencyScope, cleanupAt: int, now: int): World {
    var (entries, r) := Reserve(w.entries, g.entriesCap, g.replayTTL, scope, cleanupAt, now);
    var expired := if ValidIdempotencyScope(scope) then w.expired + Expiring(w, g.replayTTL, cleanupAt) else w.expired;
    var v := w.(entries := entries, expired := expired);
    match r
    case NotReserved(_) => v.(callers := w.callers[c := Caller(scope, Finished(Rejected), false, false)])
    case Reused(entry) =>
      var k := KeyOf(scope);
      var outcome :=
        if entry.state.Succeeded? && entry.state.result.chatID != "" && entry.state.result.runID != "" && k in w.owner
        then Replayed(w.owner[k], entry.state.result) else Rejected;
      v.(callers := w.callers[c := Caller(scope, Finished(outcome), false, false)])
    case Fresh(_) =>
      v.(callers := w.callers[c := Caller(scope, KeyHeld, false, false)], owner := w.owner[KeyOf(scope) := c])
  }

  function ReserveCapStep(w: World, g: Config, c: nat): World
    requires c in w.callers
  {
    var scope := w.callers[c].scope;
    if !w.callers[c].pc.KeyHeld? || scope.operation != StartChatRunOp then w
    else
      var (runs, r) := ReserveCapacity(w.runs, g.runsCap, scope);
      if r.Err? then At(w, c, DropKey(false))
      else
        w.(runs := runs, reservedBy := w.reservedBy[scope := c],
           callers := w.callers[c := w.callers[c].(pc := Connecting(0), sole := SoleAtReserve(w, c))])
  }

  /** Where a round of the connection loop leads, and whether it reached StartThread. */
  function AfterConnect(attempt: nat, attempted: bool, choice: ConnectChoice): (Pc, bool) {
    match choice
    case ConnectFailed(retryable, waited) =>
      (if attempt + 1 < CONNECTION_ATTEMPTS && retryable && waited then Connecting(attempt + 1) else ExitPc(attempted), false)
    case NoConnection => (ExitPc(attempted), false)
    case CallerGone => (ExitPc(attempted), false)
    case ThreadFailed(retryable, waited) =>
      (if attempt + 1 < CONNECTION_ATTEMPTS && retryable && waited then Connecting(attempt + 1) else ExitPc(true), true)
    case ThreadStarted(chatID) => (if chatID == "" then ExitPc(true) else Turn(chatID), true)
  }

  function Started(w: World, c: nat, pc: Pc, effect: Effect): World
    requires c in w.callers
  {
    w.(callers := w.callers[c := w.callers[c].(pc := pc, attempted := true)], effects := w.effects + [effect])
  }

  function ConnectStep(w: World, c: nat, choice: ConnectChoice): World
    requires c in w.callers
  {
    if !w.callers[c].pc.Connecting? then w
    else
      var (pc, started) := AfterConnect(w.callers[c].pc.attempt, w.callers[c].attempted, choice);
      if started then Started(w, c, pc, StartThread(c)) else At(w, c, pc)
  }

  function AfterRecovery(scope: IdempotencyScope, chatID: string, rounds: seq<Read>, mayRetry: bool): Pc {
    var recovery := Recover(rounds);
    if recovery.found.Some? then Commit(RunOf(scope, chatID, recovery.found.value.0), recovery.found.value.1)
    else if mayRetry && recovery.confirmedEmpty then Retry(chatID)
    else ExitPc(true)
  }

  /** Where a try of StartTurn leads; `TurnNotReached` is a retry that finds no connection. */
  function AfterTurn(scope: IdempotencyScope, pc: Pc, turn: TurnChoice): Pc
    requires pc.Turn? || pc.Retry? || pc.TurnLocal?
  {
    match turn
    case TurnNotReached => if pc.Retry? then ExitPc(true) else pc
    case TurnFailed(rounds) => if pc.TurnLocal? then AbortLocal else AfterRecovery(scope, pc.chatID, rounds, pc.Turn?)
    case TurnStarted(runID) =>
      if pc.TurnLocal? then (if runID == "" then AbortLocal else Bind(runID))
      else if runID == "" then ExitPc(true) else Commit(RunOf(scope, pc.chatID, runID), Running)
  }

  function CallTurnStep(w: World, c: nat, turn: TurnChoice): World
    requires c in w.callers
  {
    var pc := w.callers[c].pc;
    if !(pc.Turn? || pc.Retry? || pc.TurnLocal?) then w
    else
      var next := AfterTurn(w.callers[c].scope, pc, turn);
      if turn.TurnNotReached? then At(w, c, next) else Started(w, c, next, StartTurn(c))
  }

  function CommitStep(w: World, c: nat, now: int): World
    requires c in w.callers
  {
    var pc := w.callers[c].pc;
    if !pc.Commit? then w
    else
      var (runs, r) := StartRunWithReservation(w.runs, w.callers[c].scope, pc.run, w.callers[c].scope.key, now);
      if r.Err? then At(w, c, ExitPc(w.callers[c].attempted)) else At(w.(runs := runs), c, Update(pc.run, pc.state))
  }

  /** RunChatTurn before its side effect: connection, resume and checks, then the local start. */
  function CheckLocalStep(w: World, g: Config, c: nat, ok: bool, now: int): World
    requires c in w.callers
  {
    var scope := w.callers[c].scope;
    if !w.callers[c].pc.KeyHeld? || scope.operation != RunChatTurnOp then w
    else if !ok then At(w, c, DropKey(false))
    else
      var (runs, r) := StartRun(w.runs, g.runsCap, ProvisionalRun(scope), scope.key, now);
      if r.Err? then At(w, c, DropKey(false)) else At(w.(runs := runs), c, TurnLocal)
  }

  function AbortStep(w: World, c: nat, now: int): World
    requires c in w.callers
  {
    if !w.callers[c].pc.AbortLocal? then w
    else At(w.(runs := CompleteRun(w.runs, ProvisionalRun(w.callers[c].scope), Failed, now).0), c, Finished(Stuck))
  }

  function BindStep(w: World, c: nat, now: int): World
    requires c in w.callers
  {
    var scope := w.callers[c].scope;
    if !w.callers[c].pc.Bind? then w
    else
      var (runs, r) := BindRunID(w.runs, ProvisionalRun(scope), w.callers[c].pc.runID, now);
      if r.Err? then At(w, c, Finished(Stuck))
      else At(w.(runs := runs), c, Update(RunOf(scope, scope.chatID, w.callers[c].pc.runID), Running))
  }

  function UpdateStep(w: World, c: nat, now: int): World
    requires c in w.callers
  {
    var pc := w.callers[c].pc;
    if !pc.Update? then w
    else
      var (runs, r) := UpdateRunState(w.runs, pc.run, pc.state, now);
      At(w.(runs := runs), c, if r.Err? then Finished(Stuck) else Append(pc.run, pc.state))
  }

  function AppendStep(w: World, c: nat, eventID: nat, cursor: string): World
    requires c in w.callers
  {
    var pc := w.callers[c].pc;
    if !pc.Append? then w
    else
      var result := ResultRef(pc.run.chat.chatID, pc.run.runID, pc.state, eventID, cursor);
      At(w, c, if IsTerminal(pc.state) then Terminate(pc.run, result) else Publish(result))
  }

  function TerminateStep(w: World, c: nat, now: int): World
    requires c in w.callers
  {
    var pc := w.callers[c].pc;
    if !pc.Terminate? then w
    else
      var (runs, r) := CompleteRun(w.runs, pc.run, pc.result.status, now);
      At(w.(runs := runs), c, if r.Err? then Finished(Stuck) else Publish(pc.result))
  }

  function PublishStep(w: World, g: Config, c: nat, cleanupAt: int, now: int): World
    requires c in w.callers
  {
    if !w.callers[c].pc.Publish? then w
    else
      var result := w.callers[c].pc.result;
      var (entries, r) := Complete(w.entries, g.replayTTL, w.callers[c].scope, result, cleanupAt, now);
      At(w.(entries := entries, expired := w.expired + Expiring(w, g.replayTTL, cleanupAt),
              publishedAt := if r.Ok? then w.publishedAt[c := now] else w.publishedAt), c,
         Finished(if r.Ok? then Own(result) else Stuck))
  }

  function DropKeyStep(w: World, g: Config, c: nat, cleanupAt: int): World
    requires c in w.callers
  {
    if !w.callers[c].pc.DropKey? then w
    else
      var entries := ReleaseKey(w.entries, g.replayTTL, w.callers[c].scope, cleanupAt).0;
      At(w.(entries := entries, expired := w.expired + Expiring(w, g.replayTTL, cleanupAt)), c,
         if w.callers[c].pc.capacity then DropCapacity(false) else Finished(GaveUp))
  }

  function DropCapacityStep(w: World, c: nat): World
    requires c in w.callers
  {
    var pc := w.callers[c].pc;
    if !pc.DropCapacity? then w
    else At(w.(runs := ReleaseCapacity(w.runs, w.callers[c].scope).0), c, Finished(if pc.kept then Stuck else GaveUp))
  }

  function OtherStep(w: World, c: nat, result: Option<ResultRef>, release: bool): World
    requires c in w.callers
  {
    var operation := w.callers[c].scope.operation;
    if !w.callers[c].pc.KeyHeld? || operation == StartChatRunOp || operation == RunChatTurnOp then w
    else if result.Some? then At(w, c, Publish(result.value))
    else if release then At(w, c, DropKey(false))
    else At(w, c, Finished(Stuck))
  }

  function CallerStep(w: World, g: Config, c: nat, move: CallerMove): World
    requires c in w.callers
  {
    match move
    case ReserveCap => ReserveCapStep(w, g, c)
    case Connect(choice) => ConnectStep(w, c, choice)
    case CallTurn(turn) => CallTurnStep(w, c, turn)
    case CommitRun(now) => CommitStep(w, c, now)
    case CheckLocal(ok, now) => CheckLocalStep(w, g, c, ok, now)
    case AbortTurn(now) => AbortStep(w, c, now)
    case BindRun(now) => BindStep(w, c, now)
    case UpdateRun(now) => UpdateStep(w, c, now)
    case AppendStatus(eventID, cursor) => AppendStep(w, c, eventID, cursor)
    case TerminateRun(now) => TerminateStep(w, c, now)
    case PublishResult(cleanupAt, now) => PublishStep(w, g, c, cleanupAt, now)
    case DropTheKey(cleanupAt) => DropKeyStep(w, g, c, cleanupAt)
    case DropTheCapacity => DropCapacityStep(w, c)
    case OtherOperation(result, release) => OtherStep(w, c, result, release)
  }

  function Aged(w: World, ttl: int, now: int): World {
    w.(entries := CleanedEntries(w.entries, ttl, now), expired := w.expired + Expiring(w, ttl, now))
  }

  function Step(w: World, g: Config, a: Action): World {
    match a
    case Arrive(c, scope, cleanupAt, now) => if c in w.callers then w else ArriveStep(w, g, c, scope, cleanupAt, now)
    case Proceed(c, move) => if c in w.callers then CallerStep(w, g, c, move) else w
    case OtherRuns(op) =>
      if op.OpReserve? || op.OpRelease? || op.OpStartReserved? then w else w.(runs := ApplyRuns(w.runs, g.runsCap, op))
    case Cleanup(cleanupAt) => Aged(w, g.replayTTL, cleanupAt)
  }

  function Run(g: Config, actions: seq<Action>): World {
    if actions == [] then START else Step(Run(g, actions[..|actions| - 1]), g, actions[|actions| - 1])
  }

  // ----- who holds a key ----------------------------------------------------------------

  /** The call still has its idempotency key in flight. */
  predicate Keeps(pc: Pc) {
    !(pc.DropCapacity? && !pc.kept) && (pc.Finished? ==> pc.outcome == Stuck)
  }

  ghost predicate EntryOK(w: World, k: StoreKey) {
    k in w.entries ==>
      && k in w.owner && w.owner[k] in w.callers
      && var caller := w.callers[w.owner[k]];
      && w.entries[k].scope == caller.scope && KeyOf(caller.scope) == k
      && match w.entries[k].state
         case InFlight => Keeps(caller.pc)
         case Succeeded(result) => caller.pc == Finished(Own(result))
  }

  ghost predicate OwnsEntry(w: World, c: nat, k: StoreKey) {
    k in w.entries && k in w.owner && w.owner[k] == c
  }

  ghost predicate CallerOK(w: World, c: nat) {
    c in w.callers ==>
      var caller := w.callers[c];
      var k := KeyOf(caller.scope);
      && (Keeps(caller.pc) ==>
            OwnsEntry(w, c, k) && w.entries[k].state == InFlight && ValidIdempotencyScope(caller.scope))
      && (caller.pc.Finished? && caller.pc.outcome.Own? && c !in w.expired ==> OwnsEntry(w, c, k))
      && (caller.attempted ==> Keeps(caller.pc) || (caller.pc.Finished? && caller.pc.outcome.Own?))
      && (caller.pc.Finished? && caller.pc.outcome.Replayed? ==>
            var o := caller.pc.outcome.owner;
            o in w.callers && KeyOf(w.callers[o].scope) == k && w.callers[o].pc == Finished(Own(caller.pc.outcome.result)))
  }

  /** Only a call that published its result ever counts as expired. */
  ghost predicate ExpiredOK(w: World) {
    forall c | c in w.expired :: c in w.callers && w.callers[c].pc.Finished? && w.callers[c].pc.outcome.Own?
  }

  ghost predicate KeysOK(w: World) {
    && (forall k | k in w.entries :: EntryOK(w, k))
    && (forall c | c in w.callers :: CallerOK(w, c))
    && ExpiredOK(w)
  }

  ghost predicate EffectsOK(w: World) {
    forall e | e in w.effects :: e.caller in w.callers && w.callers[e.caller].attempted
  }

  /** The key stays where it is: with the call, or already given back. */
  predicate StillKeeps(before: Caller, after: Caller) {
    || (Keeps(before.pc) && Keeps(after.pc))
    || (before.pc == DropCapacity(false) && after.pc == Finished(GaveUp) && !after.attempted)
  }

  /** A caller that keeps its key through a step disturbs nobody. */
  lemma MoveKeepsKeys(w: World, v: World, c: nat)
    requires KeysOK(w) && c in w.callers && c in v.callers
    requires v.entries == w.entries && v.owner == w.owner && v.expired == w.expired
    requires v.callers == w.callers[c := v.callers[c]]
    requires v.callers[c].scope == w.callers[c].scope && StillKeeps(w.callers[c], v.callers[c])
    ensures KeysOK(v)
  {
    forall k | k in v.entries ensures EntryOK(v, k) { assert EntryOK(w, k); }
    forall d | d in v.callers ensures CallerOK(v, d) { assert CallerOK(w, d); }
  }

  lemma AgingKeepsKeys(w: World, ttl: int, now: int)
    requires KeysOK(w)
    ensures KeysOK(Aged(w, ttl, now))
  {
    var v := Aged(w, ttl, now);
    forall k | k in v.entries ensures EntryOK(v, k) { assert EntryOK(w, k); }
    forall d | d in v.callers ensures CallerOK(v, d) {
      assert CallerOK(w, d);
      var k := KeyOf(w.callers[d].scope);
      if OwnsEntry(w, d, k) && Stale(w.entries[k], ttl, now) { assert d in Expiring(w, ttl, now); }
    }
    forall d | d in Expiring(w, ttl, now)
      ensures d in v.callers && v.callers[d].pc.Finished? && v.callers[d].pc.outcome.Own?
    {
      var k :| k in w.entries && k in w.owner && Stale(w.entries[k], ttl, now) && w.owner[k] == d;
      assert EntryOK(w, k);
    }
  }

  lemma EntryStays(w: World, v: World, k: StoreKey)
    requires EntryOK(w, k) && (k in w.owner ==> k in v.owner && v.owner[k] == w.owner[k])
    requires k in v.entries ==> k in w.entries && v.entries[k] == w.entries[k]
    requires k in v.entries && k in w.owner && w.owner[k] in w.callers ==>
               w.owner[k] in v.callers && v.callers[w.owner[k]] == w.callers[w.owner[k]]
    ensures EntryOK(v, k)
  {
    hide Keeps, KeyOf;
  }

  /** A call whose entry stays, or is none of its business, is as well off as before. */
  lemma CallerStays(w: World, v: World, d: nat)
    requires CallerOK(w, d) && d in w.callers && d in v.callers && v.callers[d] == w.callers[d]
    requires v.expired == w.expired
    requires OwnsEntry(w, d, KeyOf(w.callers[d].scope)) ==>
               OwnsEntry(v, d, KeyOf(w.callers[d].scope))
               && v.entries[KeyOf(w.callers[d].scope)] == w.entries[KeyOf(w.callers[d].scope)]
    requires forall o | o in w.callers && w.callers[o].pc.Finished? && w.callers[o].pc.outcome.Own? ::
               o in v.callers && v.callers[o] == w.callers[o]
    ensures CallerOK(v, d)
  {
    hide Keeps, KeyOf;
  }

  lemma NewcomerOK(w: World, v: World, c: nat, scope: IdempotencyScope, outcome: Outcome)
    requires outcome == Rejected || outcome.Replayed?
    requires c !in w.callers && v == w.(callers := w.callers[c := Caller(scope, Finished(outcome), false, false)])
    requires outcome.Replayed? ==>
               var k := KeyOf(scope);
               k in w.entries && k in w.owner && outcome.owner == w.owner[k] && w.entries[k].state == Succeeded(outcome.result)
               && EntryOK(w, k)
    ensures CallerOK(v, c)
  {
  }

  /** A newcomer that holds no key changes nothing for the others. */
  lemma NewcomerKeepsKeys(w: World, c: nat, scope: IdempotencyScope, outcome: Outcome)
    requires KeysOK(w) && c !in w.callers && (outcome == Rejected || outcome.Replayed?)
    requires outcome.Replayed? ==>
               var k := KeyOf(scope);
               k in w.entries && k in w.owner && outcome.owner == w.owner[k] && w.entries[k].state == Succeeded(outcome.result)
    ensures KeysOK(w.(callers := w.callers[c := Caller(scope, Finished(outcome), false, false)]))
  {
    hide EntryOK, CallerOK, KeyOf;
    var v := w.(callers := w.callers[c := Caller(scope, Finished(outcome), false, false)]);
    forall k | k in v.entries ensures EntryOK(v, k) { EntryStays(w, v, k); }
    forall d | d in v.callers ensures CallerOK(v, d) {
      if d == c { NewcomerOK(w, v, c, scope, outcome); } else { CallerStays(w, v, d); }
    }
  }

  lemma FreshKeepsKeys(w: World, c: nat, scope: IdempotencyScope, entry: Entry)
    requires KeysOK(w) && c !in w.callers && KeyOf(scope) !in w.entries && ValidIdempotencyScope(scope)
    requires entry.scope == scope && entry.state == InFlight
    ensures KeysOK(w.(entries := w.entries[KeyOf(scope) := entry], owner := w.owner[KeyOf(scope) := c],
                      callers := w.callers[c := Caller(scope, KeyHeld, false, false)]))
  {
    var v := w.(entries := w.entries[KeyOf(scope) := entry], owner := w.owner[KeyOf(scope) := c],
                callers := w.callers[c := Caller(scope, KeyHeld, false, false)]);
    HolderOK(v, c, scope, entry);
    hide EntryOK, CallerOK, KeyOf, ValidIdempotencyScope;
    forall k | k in v.entries ensures EntryOK(v, k) { if k != KeyOf(scope) { EntryStays(w, v, k); } }
    forall d | d in v.callers ensures CallerOK(v, d) { if d != c { CallerStays(w, v, d); } }
  }

  lemma HolderOK(v: World, c: nat, scope: IdempotencyScope, entry: Entry)
    requires ValidIdempotencyScope(scope) && entry.scope == scope && entry.state == InFlight
    requires c in v.callers && v.callers[c] == Caller(scope, KeyHeld, false, false)
    requires KeyOf(scope) in v.entries && v.entries[KeyOf(scope)] == entry && KeyOf(scope) in v.owner && v.owner[KeyOf(scope)] == c
    ensures EntryOK(v, KeyOf(scope)) && CallerOK(v, c)
  {
    hide KeyOf;
  }

  lemma ArriveKeepsKeys(w: World, g: Config, c: nat, scope: IdempotencyScope, cleanupAt: int, now: int)
    requires KeysOK(w) && c !in w.callers
    ensures KeysOK(ArriveStep(w, g, c, scope, cleanupAt, now))
  {
    hide KeysOK, CleanedEntries, Expiring;
    var v := ArriveStep(w, g, c, scope, cleanupAt, now);
    var u := if ValidIdempotencyScope(scope) then Aged(w, g.replayTTL, cleanupAt) else w;
    AgingKeepsKeys(w, g.replayTTL, cleanupAt);
    var (entries, r) := Reserve(w.entries, g.entriesCap, g.replayTTL, scope, cleanupAt, now);
    if r.Fresh? {
      FreshKeepsKeys(u, c, scope, r.entry);
    } else {
      NewcomerKeepsKeys(u, c, scope, v.callers[c].pc.outcome);
    }
  }

  /** The call has published: its entry has succeeded, and it returns its own result. */
  function Published(w: World, c: nat, result: ResultRef, updatedAt: int): World
    requires c in w.callers && KeyOf(w.callers[c].scope) in w.entries
  {
    var k := KeyOf(w.callers[c].scope);
    At(w.(entries := w.entries[k := w.entries[k].(state := Succeeded(result), updatedAtUnixMS := updatedAt)]), c,
       Finished(Own(result)))
  }

  lemma PublishedEntries(w: World, c: nat, result: ResultRef, updatedAt: int, j: StoreKey)
    requires c in w.callers && OwnsEntry(w, c, KeyOf(w.callers[c].scope)) && EntryOK(w, j)
    requires j in w.entries && w.owner[j] == c ==> KeyOf(w.callers[c].scope) == j
    ensures EntryOK(Published(w, c, result, updatedAt), j)
  {
  }

  lemma PublishedCallers(w: World, c: nat, result: ResultRef, updatedAt: int, d: nat)
    requires c in w.callers && OwnsEntry(w, c, KeyOf(w.callers[c].scope)) && Keeps(w.callers[c].pc) && CallerOK(w, d)
    ensures CallerOK(Published(w, c, result, updatedAt), d)
  {
  }

  lemma SuccessKeepsKeys(w: World, c: nat, result: ResultRef, updatedAt: int)
    requires KeysOK(w) && c in w.callers && Keeps(w.callers[c].pc)
    ensures OwnsEntry(w, c, KeyOf(w.callers[c].scope)) && KeysOK(Published(w, c, result, updatedAt))
  {
    assert CallerOK(w, c);
    var v := Published(w, c, result, updatedAt);
    forall j | j in v.entries ensures EntryOK(v, j) {
      assert EntryOK(w, j);
      PublishedEntries(w, c, result, updatedAt, j);
    }
    forall d | d in v.callers ensures CallerOK(v, d) {
      assert CallerOK(w, d);
      PublishedCallers(w, c, result, updatedAt, d);
    }
    hide EntryOK, CallerOK;
  }

  lemma KeeperHasEntry(w: World, c: nat)
    requires KeysOK(w) && c in w.callers && Keeps(w.callers[c].pc)
    ensures var k := KeyOf(w.callers[c].scope);
            && OwnsEntry(w, c, k) && w.entries[k].state == InFlight && w.entries[k].scope == w.callers[c].scope
            && ValidIdempotencyScope(w.callers[c].scope)
  {
    assert CallerOK(w, c);
    assert EntryOK(w, KeyOf(w.callers[c].scope));
  }

  lemma KeysIgnoreTimes(w: World, publishedAt: map<nat, int>)
    requires KeysOK(w)
    ensures KeysOK(w.(publishedAt := publishedAt))
  {
    var v := w.(publishedAt := publishedAt);
    forall k | k in v.entries ensures EntryOK(v, k) { assert EntryOK(w, k); }
    forall c | c in v.callers ensures CallerOK(v, c) { assert CallerOK(w, c); }
  }

  /** Publishing never fails: nothing but its owner ends an entry in flight. */
  lemma PublishKeepsKeys(w: World, g: Config, c: nat, cleanupAt: int, now: int)
    requires KeysOK(w) && c in w.callers && w.callers[c].pc.Publish?
    ensures KeysOK(PublishStep(w, g, c, cleanupAt, now))
    ensures PublishStep(w, g, c, cleanupAt, now).callers[c].pc == Finished(Own(w.callers[c].pc.result))
  {
    hide KeysOK, CleanedEntries, Expiring;
    AgingKeepsKeys(w, g.replayTTL, cleanupAt);
    var u := Aged(w, g.replayTTL, cleanupAt);
    KeeperHasEntry(u, c);
    SuccessKeepsKeys(u, c, w.callers[c].pc.result, UnixMilli(now));
    KeysIgnoreTimes(Published(u, c, w.callers[c].pc.result, UnixMilli(now)), w.publishedAt[c := now]);
  }

  lemma RemovalKeepsKeys(w: World, c: nat, pc: Pc)
    requires KeysOK(w) && c in w.callers && Keeps(w.callers[c].pc) && !w.callers[c].attempted
    requires pc == DropCapacity(false) || pc == Finished(GaveUp)
    ensures KeysOK(At(w.(entries := w.entries - {KeyOf(w.callers[c].scope)}), c, pc))
  {
    var v := At(w.(entries := w.entries - {KeyOf(w.callers[c].scope)}), c, pc);
    assert CallerOK(w, c);
    hide EntryOK, CallerOK, KeyOf;
    forall j | j in v.entries ensures EntryOK(v, j) {
      assert EntryOK(w, j);
      OwnEntryOnly(w, c, j);
      EntryStays(w, v, j);
    }
    forall d | d in v.callers ensures CallerOK(v, d) {
      assert CallerOK(w, d);
      if d == c { GivenUpOK(w, v, c); } else { OthersSlot(w, c, d); CallerStays(w, v, d); }
    }
  }

  /** An entry that this call owns is the one of its key. */
  lemma OwnEntryOnly(w: World, c: nat, j: StoreKey)
    requires EntryOK(w, j) && c in w.callers
    ensures j in w.entries && w.owner[j] == c ==> j == KeyOf(w.callers[c].scope)
  {
    hide KeyOf;
  }

  lemma OthersSlot(w: World, c: nat, d: nat)
    requires CallerOK(w, c) && c in w.callers && d in w.callers && d != c && Keeps(w.callers[c].pc)
    ensures OwnsEntry(w, d, KeyOf(w.callers[d].scope)) ==> KeyOf(w.callers[d].scope) != KeyOf(w.callers[c].scope)
  {
    hide KeyOf;
  }

  lemma GivenUpOK(w: World, v: World, c: nat)
    requires c in w.callers && c in v.callers && v.callers[c].scope == w.callers[c].scope
    requires v.callers[c].pc == DropCapacity(false) || v.callers[c].pc == Finished(GaveUp)
    requires !v.callers[c].attempted
    ensures CallerOK(v, c)
  {
    hide KeyOf;
  }

  lemma DropKeyKeepsKeys(w: World, g: Config, c: nat, cleanupAt: int)
    requires KeysOK(w) && c in w.callers && w.callers[c].pc.DropKey? && !w.callers[c].attempted
    ensures KeysOK(DropKeyStep(w, g, c, cleanupAt))
  {
    hide KeysOK, CleanedEntries, Expiring;
    AgingKeepsKeys(w, g.replayTTL, cleanupAt);
    var u := Aged(w, g.replayTTL, cleanupAt);
    KeeperHasEntry(u, c);
    RemovalKeepsKeys(u, c, DropKeyStep(w, g, c, cleanupAt).callers[c].pc);
  }

  // ----- where a call can be ------------------------------------------------------------

  /** Giving the key back is only reached before any attempt. */
  ghost predicate PathOK(w: World) {
    forall c | c in w.callers :: PathAt(w.callers[c])
  }

  predicate PathAt(caller: Caller) {
    && (!caller.pc.Finished? ==> ValidIdempotencyScope(caller.scope))
    && (caller.pc.DropKey? || caller.pc.KeyHeld? ==> !caller.attempted)
    && (caller.pc.Retry? || caller.pc.Turn? || caller.pc.Commit? || (caller.pc.DropCapacity? && caller.pc.kept)
        ==> caller.attempted)
    && (caller.pc.DropCapacity? && !caller.pc.kept ==> !caller.attempted)
  }

  /** A step that leaves the key part alone. */
  ghost predicate KeyNeutral(w: World, v: World, c: nat)
    requires c in w.callers
  {
    && c in v.callers && v.callers == w.callers[c := v.callers[c]] && v.callers[c].scope == w.callers[c].scope
    && v.entries == w.entries && v.owner == w.owner && v.expired == w.expired && v.publishedAt == w.publishedAt
    && (StillKeeps(w.callers[c], v.callers[c]) || v == w)
    && PathAt(v.callers[c])
    && (forall e | e in v.effects :: e in w.effects || (e.caller == c && v.callers[c].attempted))
    && (w.callers[c].attempted ==> v.callers[c].attempted)
  }

  /** Neutral for keys and for capacity, and never using more capacity. */
  ghost predicate Neutral(w: World, v: World, c: nat)
    requires c in w.callers
  {
    KeyNeutral(w, v, c) && CapacityNeutral(w, v, c) && v.runs.Used() <= w.runs.Used()
  }

  lemma AfterConnectOK(caller: Caller, attempt: nat, choice: ConnectChoice)
    requires PathAt(caller) && caller.pc.Connecting?
    ensures var (pc, started) := AfterConnect(attempt, caller.attempted, choice);
            Keeps(pc) && HoldsCapacity(pc) && PathAt(caller.(pc := pc, attempted := caller.attempted || started))
  {
  }

  lemma AfterTurnOK(caller: Caller, turn: TurnChoice)
    requires PathAt(caller) && (caller.pc.Turn? || caller.pc.Retry? || caller.pc.TurnLocal?)
    ensures var pc := AfterTurn(caller.scope, caller.pc, turn);
            && Keeps(pc) && PathAt(caller.(pc := pc, attempted := caller.attempted || !turn.TurnNotReached?))
            && (HoldsCapacity(pc) <==> HoldsCapacity(caller.pc))
  {
    hide Recover;
  }

  lemma ConnectIsNeutral(w: World, c: nat, choice: ConnectChoice)
    requires c in w.callers && PathAt(w.callers[c])
    ensures Neutral(w, ConnectStep(w, c, choice), c)
  {
    hide AfterConnect, PathAt;
    if w.callers[c].pc.Connecting? { AfterConnectOK(w.callers[c], w.callers[c].pc.attempt, choice); }
  }

  lemma CallTurnIsNeutral(w: World, c: nat, turn: TurnChoice)
    requires c in w.callers && PathAt(w.callers[c])
    ensures Neutral(w, CallTurnStep(w, c, turn), c)
  {
    hide AfterTurn, PathAt;
    if w.callers[c].pc.Turn? || w.callers[c].pc.Retry? || w.callers[c].pc.TurnLocal? { AfterTurnOK(w.callers[c], turn); }
  }

  /** A call that moves on with its key, possibly changing its run record. */
  lemma MovedIsNeutral(w: World, c: nat, runs: Runs, pc: Pc)
    requires c in w.callers && PathAt(w.callers[c]) && PathAt(w.callers[c].(pc := pc))
    requires Keeps(w.callers[c].pc) && Keeps(pc)
    requires HoldsCapacity(w.callers[c].pc) <==> HoldsCapacity(pc)
    requires runs.reserved == w.runs.reserved
    ensures KeyNeutral(w, At(w.(runs := runs), c, pc), c) && CapacityNeutral(w, At(w.(runs := runs), c, pc), c)
    ensures runs.Used() <= w.runs.Used() ==> Neutral(w, At(w.(runs := runs), c, pc), c)
  {
    hide PathAt, Keeps, HoldsCapacity;
  }

  lemma StayingIsNeutral(w: World, c: nat)
    requires c in w.callers && PathAt(w.callers[c])
    ensures Neutral(w, w, c)
  {
    hide PathAt, Keeps, HoldsCapacity;
  }

  lemma CheckLocalIsNeutral(w: World, g: Config, c: nat, ok: bool, now: int)
    requires c in w.callers && PathAt(w.callers[c])
    ensures KeyNeutral(w, CheckLocalStep(w, g, c, ok, now), c) && CapacityNeutral(w, CheckLocalStep(w, g, c, ok, now), c)
  {
    hide StartRun, ValidIdempotencyScope, Neutral, KeyNeutral, CapacityNeutral, ProvisionalRun;
    var scope := w.callers[c].scope;
    StayingIsNeutral(w, c);
    assert KeyNeutral(w, w, c) && CapacityNeutral(w, w, c) by { Split(w, w, c); }
    if w.callers[c].pc.KeyHeld? {
      var (runs, r) := StartRun(w.runs, g.runsCap, ProvisionalRun(scope), scope.key, now);
      StartTakesFreeSlot(w.runs, g.runsCap, ProvisionalRun(scope), scope.key, now);
      MovedIsNeutral(w, c, w.runs, DropKey(false));
      MovedIsNeutral(w, c, runs, TurnLocal);
    }
  }

  lemma Split(w: World, v: World, c: nat)
    requires c in w.callers && Neutral(w, v, c)
    ensures KeyNeutral(w, v, c) && CapacityNeutral(w, v, c)
  {
    hide KeyNeutral, CapacityNeutral;
  }

  lemma BindIsNeutral(w: World, c: nat, now: int)
    requires c in w.callers && PathAt(w.callers[c])
    ensures Neutral(w, BindStep(w, c, now), c)
  {
    hide BindRunID, ValidIdempotencyScope, Neutral, ProvisionalRun, RunOf;
    var caller := w.callers[c];
    if caller.pc.Bind? {
      var (runs, r) := BindRunID(w.runs, ProvisionalRun(caller.scope), caller.pc.runID, now);
      BindKeepsTotal(w.runs, ProvisionalRun(caller.scope), caller.pc.runID, now);
      MovedIsNeutral(w, c, w.runs, Finished(Stuck));
      MovedIsNeutral(w, c, runs, Update(RunOf(caller.scope, caller.scope.chatID, caller.pc.runID), Running));
    } else {
      StayingIsNeutral(w, c);
    }
  }

  lemma UpdateIsNeutral(w: World, c: nat, now: int)
    requires c in w.callers && PathAt(w.callers[c])
    ensures Neutral(w, UpdateStep(w, c, now), c)
  {
    hide UpdateRunState, ValidIdempotencyScope, Neutral;
    var pc := w.callers[c].pc;
    if pc.Update? {
      var (runs, r) := UpdateRunState(w.runs, pc.run, pc.state, now);
      UpdateKeepsTotal(w.runs, pc.run, pc.state, now);
      MovedIsNeutral(w, c, runs, if r.Err? then Finished(Stuck) else Append(pc.run, pc.state));
    } else {
      StayingIsNeutral(w, c);
    }
  }

  lemma AppendIsNeutral(w: World, c: nat, eventID: nat, cursor: string)
    requires c in w.callers && PathAt(w.callers[c])
    ensures Neutral(w, AppendStep(w, c, eventID, cursor), c)
  {
    hide ValidIdempotencyScope, Neutral;
    var pc := w.callers[c].pc;
    if pc.Append? {
      MovedIsNeutral(w, c, w.runs, AppendStep(w, c, eventID, cursor).callers[c].pc);
    } else {
      StayingIsNeutral(w, c);
    }
  }

  lemma AbortIsNeutral(w: World, c: nat, now: int)
    requires c in w.callers && PathAt(w.callers[c])
    ensures Neutral(w, AbortStep(w, c, now), c)
  {
    hide CompleteRun, ValidIdempotencyScope, Neutral, ProvisionalRun;
    var run := ProvisionalRun(w.callers[c].scope);
    if w.callers[c].pc.AbortLocal? {
      CompleteFreesSlot(w.runs, run, Failed, now);
      MovedIsNeutral(w, c, CompleteRun(w.runs, run, Failed, now).0, Finished(Stuck));
    } else {
      StayingIsNeutral(w, c);
    }
  }

  lemma TerminateIsNeutral(w: World, c: nat, now: int)
    requires c in w.callers && PathAt(w.callers[c])
    ensures Neutral(w, TerminateStep(w, c, now), c)
  {
    hide CompleteRun, ValidIdempotencyScope, Neutral;
    var pc := w.callers[c].pc;
    if pc.Terminate? {
      var (runs, r) := CompleteRun(w.runs, pc.run, pc.result.status, now);
      CompleteFreesSlot(w.runs, pc.run, pc.result.status, now);
      MovedIsNeutral(w, c, runs, if r.Err? then Finished(Stuck) else Publish(pc.result));
    } else {
      StayingIsNeutral(w, c);
    }
  }

  lemma OtherIsNeutral(w: World, c: nat, result: Option<ResultRef>, release: bool)
    requires c in w.callers && PathAt(w.callers[c])
    ensures Neutral(w, OtherStep(w, c, result, release), c)
  {
    hide ValidIdempotencyScope, Neutral;
    StayingIsNeutral(w, c);
    if w.callers[c].pc.KeyHeld? && OtherStep(w, c, result, release) != w {
      MovedIsNeutral(w, c, w.runs, OtherStep(w, c, result, release).callers[c].pc);
    }
  }

  lemma CommitIsKeyNeutral(w: World, c: nat, now: int)
    requires c in w.callers && PathAt(w.callers[c])
    ensures KeyNeutral(w, CommitStep(w, c, now), c)
  {
    hide StartRunWithReservation;
  }

  lemma ReserveIsKeyNeutral(w: World, g: Config, c: nat)
    requires c in w.callers && PathAt(w.callers[c])
    ensures KeyNeutral(w, ReserveCapStep(w, g, c), c)
  {
    hide ReserveCapacity, SoleAtReserve;
  }

  lemma DropCapacityIsKeyNeutral(w: World, c: nat)
    requires c in w.callers && PathAt(w.callers[c])
    ensures KeyNeutral(w, DropCapacityStep(w, c), c)
  {
    hide ReleaseCapacity;
  }

  lemma NeutralKeepsKeys(w: World, v: World, c: nat)
    requires KeysOK(w) && EffectsOK(w) && PathOK(w) && c in w.callers && KeyNeutral(w, v, c)
    ensures KeysOK(v) && EffectsOK(v) && PathOK(v)
  {
    if v != w { MoveKeepsKeys(w, v, c); }
  }

  // ----- who holds capacity ----------------------------------------------------------------

  /** The call has reserved capacity and has neither consumed nor released it. */
  predicate HoldsCapacity(pc: Pc) {
    pc.Connecting? || pc.Turn? || pc.Retry? || pc.Commit? || (pc.DropKey? && pc.capacity) || pc.DropCapacity?
  }

  /** Every reservation belongs to a call that is still on its way. */
  ghost predicate NoLeak(w: World) {
    forall s | s in w.runs.reserved ::
      && s in w.reservedBy && w.reservedBy[s] in w.callers
      && w.callers[w.reservedBy[s]].scope == s
      && HoldsCapacity(w.callers[w.reservedBy[s]].pc)
  }

  /** A call that reserved with no same-scope release ahead has its reservation until it
      consumes or releases it itself. */
  ghost predicate SoleHolds(w: World) {
    forall c | c in w.callers :: SoleHoldsAt(w, c)
  }

  ghost predicate SoleHoldsAt(w: World, c: nat)
    requires c in w.callers
  {
    w.callers[c].sole && HoldsCapacity(w.callers[c].pc) && Keeps(w.callers[c].pc) ==>
      w.callers[c].scope in w.runs.reserved && SoleAtReserve(w, c)
  }

  /** Two calls with one scope cannot both have the key. */
  lemma OneKeeper(w: World, c: nat, d: nat)
    requires KeysOK(w) && c in w.callers && d in w.callers && w.callers[c].scope == w.callers[d].scope
    requires Keeps(w.callers[c].pc) && Keeps(w.callers[d].pc)
    ensures c == d
  {
    assert CallerOK(w, c) && CallerOK(w, d);
  }

  ghost predicate CapacityNeutral(w: World, v: World, c: nat)
    requires c in w.callers
  {
    && c in v.callers && v.callers == w.callers[c := v.callers[c]]
    && v.callers[c].scope == w.callers[c].scope && v.callers[c].sole == w.callers[c].sole
    && v.runs.reserved == w.runs.reserved && v.reservedBy == w.reservedBy
    && (HoldsCapacity(v.callers[c].pc) <==> HoldsCapacity(w.callers[c].pc))
    && (Keeps(v.callers[c].pc) ==> Keeps(w.callers[c].pc))
    && (v.callers[c].pc.DropCapacity? ==> w.callers[c].pc.DropCapacity? || Keeps(w.callers[c].pc))
  }

  lemma NeutralKeepsCapacity(w: World, v: World, c: nat)
    requires KeysOK(w) && NoLeak(w) && SoleHolds(w) && c in w.callers && CapacityNeutral(w, v, c)
    ensures NoLeak(v) && SoleHolds(v)
  {
    hide KeysOK;
    forall d | d in v.callers ensures SoleHoldsAt(v, d) {
      assert SoleHoldsAt(w, d);
      if d != c && v.callers[d].scope == v.callers[c].scope && Keeps(w.callers[c].pc) && Keeps(w.callers[d].pc) {
        OneKeeper(w, c, d);
      }
    }
  }

  lemma ReserveKeepsCapacity(w: World, v: World, c: nat, chat: Scope)
    requires NoLeak(w) && SoleHolds(w) && c in w.callers && c in v.callers && w.callers[c].pc.KeyHeld?
    requires v.callers == w.callers[c := w.callers[c].(pc := Connecting(0), sole := SoleAtReserve(w, c))]
    requires v.runs.reserved == w.runs.reserved[w.callers[c].scope := chat] || v.runs.reserved == w.runs.reserved
    requires w.callers[c].scope in v.runs.reserved && v.reservedBy == w.reservedBy[w.callers[c].scope := c]
    ensures NoLeak(v) && SoleHolds(v)
  {
    forall d | d in v.callers ensures SoleHoldsAt(v, d) {
      assert SoleHoldsAt(w, d);
    }
  }

  /** Taking the reservation away, by consuming or by releasing it. */
  lemma RemovalKeepsCapacity(w: World, v: World, c: nat)
    requires KeysOK(w) && NoLeak(w) && SoleHolds(w) && c in w.callers && HoldsCapacity(w.callers[c].pc)
    requires Keeps(w.callers[c].pc) || w.callers[c].pc.DropCapacity?
    requires c in v.callers && v.callers == w.callers[c := v.callers[c]] && v.reservedBy == w.reservedBy
    requires v.callers[c].scope == w.callers[c].scope && !HoldsCapacity(v.callers[c].pc)
    requires v.runs.reserved == w.runs.reserved - {w.callers[c].scope}
    ensures NoLeak(v) && SoleHolds(v)
  {
    hide KeysOK;
    forall d | d in v.callers ensures SoleHoldsAt(v, d) {
      assert SoleHoldsAt(w, d);
      if d != c && w.callers[d].scope == w.callers[c].scope && Keeps(w.callers[c].pc) && Keeps(w.callers[d].pc) {
        OneKeeper(w, c, d);
      }
    }
  }

  lemma NewcomerKeepsCapacity(w: World, c: nat, caller: Caller, entries: Entries, owner: map<StoreKey, nat>, expired: set<nat>)
    requires NoLeak(w) && SoleHolds(w) && c !in w.callers && !HoldsCapacity(caller.pc)
    ensures var v := w.(callers := w.callers[c := caller], entries := entries, owner := owner, expired := expired);
            NoLeak(v) && SoleHolds(v)
  {
    var v := w.(callers := w.callers[c := caller], entries := entries, owner := owner, expired := expired);
    forall d | d in v.callers ensures SoleHoldsAt(v, d) {
      if d != c { assert SoleHoldsAt(w, d); }
    }
  }

  ghost predicate Inv(w: World, g: Config) {
    KeysOK(w) && EffectsOK(w) && PathOK(w) && NoLeak(w) && SoleHolds(w) && w.runs.Used() <= g.runsCap
  }

  lemma NeutralKeepsInv(w: World, v: World, g: Config, c: nat)
    requires Inv(w, g) && c in w.callers && Neutral(w, v, c)
    ensures Inv(v, g)
  {
    hide KeysOK, EffectsOK, PathOK, NoLeak, SoleHolds, KeyNeutral, CapacityNeutral;
    NeutralKeepsKeys(w, v, c);
    NeutralKeepsCapacity(w, v, c);
  }

  lemma CheckLocalKeepsInv(w: World, g: Config, c: nat, ok: bool, now: int)
    requires Inv(w, g) && c in w.callers
    ensures Inv(CheckLocalStep(w, g, c, ok, now), g)
  {
    var v := CheckLocalStep(w, g, c, ok, now);
    CheckLocalIsNeutral(w, g, c, ok, now);
    CapacityStep(w.runs, g.runsCap, OpStart(ProvisionalRun(w.callers[c].scope), w.callers[c].scope.key, now));
    hide KeysOK, EffectsOK, NoLeak, SoleHolds, KeyNeutral, CapacityNeutral, StartRun, ProvisionalRun;
    NeutralKeepsKeys(w, v, c);
    NeutralKeepsCapacity(w, v, c);
  }

  lemma CommitKeepsInv(w: World, g: Config, c: nat, now: int)
    requires Inv(w, g) && c in w.callers
    ensures Inv(CommitStep(w, c, now), g)
  {
    hide KeysOK, EffectsOK, NoLeak, SoleHolds;
    var v := CommitStep(w, c, now);
    CommitIsKeyNeutral(w, c, now);
    NeutralKeepsKeys(w, v, c);
    if v != w {
      var pc := w.callers[c].pc;
      ConsumingKeepsTotal(w.runs, w.callers[c].scope, pc.run, w.callers[c].scope.key, now);
      if v.callers[c].pc.Update? { RemovalKeepsCapacity(w, v, c); } else { NeutralKeepsCapacity(w, v, c); }
    }
  }

  lemma ReserveKeepsInv(w: World, g: Config, c: nat)
    requires Inv(w, g) && c in w.callers
    ensures Inv(ReserveCapStep(w, g, c), g)
  {
    hide KeysOK, EffectsOK, NoLeak, SoleHolds;
    var v := ReserveCapStep(w, g, c);
    ReserveIsKeyNeutral(w, g, c);
    NeutralKeepsKeys(w, v, c);
    if v != w {
      var scope := w.callers[c].scope;
      CapacityStep(w.runs, g.runsCap, OpReserve(scope));
      if v.callers[c].pc.Connecting? {
        ReserveKeepsCapacity(w, v, c, Scope(scope.sessionGroupID, scope.workspaceID, scope.chatID));
      } else {
        NeutralKeepsCapacity(w, v, c);
      }
    }
  }

  lemma DropCapacityKeepsInv(w: World, g: Config, c: nat)
    requires Inv(w, g) && c in w.callers
    ensures Inv(DropCapacityStep(w, c), g)
  {
    hide KeysOK, EffectsOK, NoLeak, SoleHolds;
    var v := DropCapacityStep(w, c);
    DropCapacityIsKeyNeutral(w, c);
    NeutralKeepsKeys(w, v, c);
    if v != w {
      var scope := w.callers[c].scope;
      CapacityStep(w.runs, g.runsCap, OpRelease(scope));
      RemovalKeepsCapacity(w, v, c);
    }
  }

  lemma PublishKeepsInv(w: World, g: Config, c: nat, cleanupAt: int, now: int)
    requires Inv(w, g) && c in w.callers
    ensures Inv(PublishStep(w, g, c, cleanupAt, now), g)
  {
    hide KeysOK, NoLeak, SoleHolds, Complete;
    var v := PublishStep(w, g, c, cleanupAt, now);
    if w.callers[c].pc.Publish? {
      PublishKeepsKeys(w, g, c, cleanupAt, now);
      NeutralKeepsCapacity(w, v, c);
    }
  }

  lemma DropKeyKeepsInv(w: World, g: Config, c: nat, cleanupAt: int)
    requires Inv(w, g) && c in w.callers
    ensures Inv(DropKeyStep(w, g, c, cleanupAt), g)
  {
    hide KeysOK, NoLeak, SoleHolds, ReleaseKey;
    var v := DropKeyStep(w, g, c, cleanupAt);
    if w.callers[c].pc.DropKey? {
      DropKeyKeepsKeys(w, g, c, cleanupAt);
      NeutralKeepsCapacity(w, v, c);
    }
  }

  lemma ArrivePaths(w: World, g: Config, c: nat, scope: IdempotencyScope, cleanupAt: int, now: int)
    requires EffectsOK(w) && PathOK(w) && c !in w.callers
    ensures var v := ArriveStep(w, g, c, scope, cleanupAt, now);
            && EffectsOK(v) && PathOK(v) && c in v.callers && !HoldsCapacity(v.callers[c].pc)
            && v == w.(callers := w.callers[c := v.callers[c]], entries := v.entries, owner := v.owner, expired := v.expired)
  {
    ArriveFields(w, g, c, scope, cleanupAt, now);
    hide ArriveStep, HoldsCapacity, PathAt;
    var v := ArriveStep(w, g, c, scope, cleanupAt, now);
    assert PathAt(v.callers[c]) && !HoldsCapacity(v.callers[c].pc) by { NewcomerPath(v.callers[c]); }
  }

  lemma NewcomerPath(caller: Caller)
    requires !caller.pc.Finished? ==> ValidIdempotencyScope(caller.scope)
    requires !caller.attempted && (caller.pc == KeyHeld || caller.pc == Finished(Rejected)
                                   || (caller.pc.Finished? && caller.pc.outcome.Replayed?))
    ensures PathAt(caller) && !HoldsCapacity(caller.pc)
  {
  }

  lemma ArriveFields(w: World, g: Config, c: nat, scope: IdempotencyScope, cleanupAt: int, now: int)
    ensures var v := ArriveStep(w, g, c, scope, cleanupAt, now);
            && c in v.callers && !v.callers[c].attempted
            && (v.callers[c].pc == KeyHeld ==> ValidIdempotencyScope(v.callers[c].scope))
            && (v.callers[c].pc == KeyHeld || v.callers[c].pc == Finished(Rejected)
                || (v.callers[c].pc.Finished? && v.callers[c].pc.outcome.Replayed?))
            && v == w.(callers := w.callers[c := v.callers[c]], entries := v.entries, owner := v.owner, expired := v.expired)
  {
    hide CleanedEntries, Expiring, ValidIdempotencyScope;
  }

  lemma ArriveKeepsInv(w: World, g: Config, c: nat, scope: IdempotencyScope, cleanupAt: int, now: int)
    requires Inv(w, g) && c !in w.callers
    ensures Inv(ArriveStep(w, g, c, scope, cleanupAt, now), g)
  {
    hide KeysOK, EffectsOK, PathOK, NoLeak, SoleHolds, ArriveStep;
    var v := ArriveStep(w, g, c, scope, cleanupAt, now);
    ArriveKeepsKeys(w, g, c, scope, cleanupAt, now);
    ArrivePaths(w, g, c, scope, cleanupAt, now);
    NewcomerKeepsCapacity(w, c, v.callers[c], v.entries, v.owner, v.expired);
  }

  lemma MoveIsNeutral(w: World, g: Config, c: nat, move: CallerMove)
    requires c in w.callers && PathAt(w.callers[c])
    requires !move.ReserveCap? && !move.CommitRun? && !move.PublishResult? && !move.DropTheKey? && !move.DropTheCapacity?
    requires !move.CheckLocal?
    ensures Neutral(w, CallerStep(w, g, c, move), c)
  {
    hide PathAt, Neutral, ReserveCapStep, ConnectStep, CallTurnStep, CommitStep, CheckLocalStep,
      AbortStep, BindStep, UpdateStep, AppendStep, TerminateStep, PublishStep, DropKeyStep, DropCapacityStep, OtherStep;
    match move
    case Connect(choice) => ConnectIsNeutral(w, c, choice);
    case CallTurn(turn) => CallTurnIsNeutral(w, c, turn);
    case AbortTurn(now) => AbortIsNeutral(w, c, now);
    case BindRun(now) => BindIsNeutral(w, c, now);
    case UpdateRun(now) => UpdateIsNeutral(w, c, now);
    case AppendStatus(eventID, cursor) => AppendIsNeutral(w, c, eventID, cursor);
    case TerminateRun(now) => TerminateIsNeutral(w, c, now);
    case OtherOperation(result, release) => OtherIsNeutral(w, c, result, release);
  }

  lemma CallerStepKeepsInv(w: World, g: Config, c: nat, move: CallerMove)
    requires Inv(w, g) && c in w.callers
    ensures Inv(CallerStep(w, g, c, move), g)
  {
    assert PathAt(w.callers[c]);
    hide Inv, PathAt, Neutral, ReserveCapStep, ConnectStep, CallTurnStep, CommitStep, CheckLocalStep,
      AbortStep, BindStep, UpdateStep, AppendStep, TerminateStep, PublishStep, DropKeyStep, DropCapacityStep, OtherStep;
    match move
    case ReserveCap => ReserveKeepsInv(w, g, c);
    case CommitRun(now) => CommitKeepsInv(w, g, c, now);
    case PublishResult(cleanupAt, now) => PublishKeepsInv(w, g, c, cleanupAt, now);
    case DropTheKey(cleanupAt) => DropKeyKeepsInv(w, g, c, cleanupAt);
    case DropTheCapacity => DropCapacityKeepsInv(w, g, c);
    case CheckLocal(ok, now) => CheckLocalKeepsInv(w, g, c, ok, now);
    case _ =>
      MoveIsNeutral(w, g, c, move);
      NeutralKeepsInv(w, CallerStep(w, g, c, move), g, c);
  }

  lemma OthersKeepInv(w: World, g: Config, op: RunsOp)
    requires Inv(w, g) && !op.OpReserve? && !op.OpRelease? && !op.OpStartReserved?
    ensures Inv(w.(runs := ApplyRuns(w.runs, g.runsCap, op)), g)
  {
    CapacityStep(w.runs, g.runsCap, op);
    hide ApplyRuns;
    var v := w.(runs := ApplyRuns(w.runs, g.runsCap, op));
    assert KeysOK(v) by {
      forall k | k in v.entries ensures EntryOK(v, k) { assert EntryOK(w, k); }
      forall d | d in v.callers ensures CallerOK(v, d) { assert CallerOK(w, d); }
    }
    assert SoleHolds(v) by {
      forall d | d in v.callers ensures SoleHoldsAt(v, d) { assert SoleHoldsAt(w, d); }
    }
  }

  lemma CleanupKeepsInv(w: World, g: Config, now: int)
    requires Inv(w, g)
    ensures Inv(Aged(w, g.replayTTL, now), g)
  {
    AgingKeepsKeys(w, g.replayTTL, now);
    hide KeysOK;
    var v := Aged(w, g.replayTTL, now);
    forall d | d in v.callers ensures SoleHoldsAt(v, d) { assert SoleHoldsAt(w, d); }
  }

  lemma StepKeepsInv(w: World, g: Config, a: Action)
    requires Inv(w, g)
    ensures Inv(Step(w, g, a), g)
  {
    hide Inv, ArriveStep, CallerStep, ApplyRuns, Aged;
    match a
    case Arrive(c, scope, cleanupAt, now) =>
      if c !in w.callers { ArriveKeepsInv(w, g, c, scope, cleanupAt, now); }
    case Proceed(c, move) =>
      if c in w.callers { CallerStepKeepsInv(w, g, c, move); }
    case OtherRuns(op) =>
      if !op.OpReserve? && !op.OpRelease? && !op.OpStartReserved? { OthersKeepInv(w, g, op); }
    case Cleanup(cleanupAt) => CleanupKeepsInv(w, g, cleanupAt);
  }

  lemma {:induction false} EveryRunInv(g: Config, actions: seq<Action>)
    ensures Inv(Run(g, actions), g)
  {
    hide Step;
    if actions != [] {
      EveryRunInv(g, actions[..|actions| - 1]);
      StepKeepsInv(Run(g, actions[..|actions| - 1]), g, actions[|actions| - 1]);
    }
  }

  // ----- main results ------------------------------------------------------------------------

  /** At most one execution: of two calls with one store key that both reached an outside
      start, one had succeeded and its entry had expired. */
  lemma AtMostOnce(g: Config, actions: seq<Action>, e: Effect, f: Effect)
    requires var w := Run(g, actions); e in w.effects && f in w.effects && e.caller != f.caller
    ensures var w := Run(g, actions);
            && e.caller in w.callers && f.caller in w.callers
            && (KeyOf(w.callers[e.caller].scope) == KeyOf(w.callers[f.caller].scope) ==>
                  e.caller in w.expired || f.caller in w.expired)
  {
    hide Run;
    EveryRunInv(g, actions);
    var w := Run(g, actions);
    assert CallerOK(w, e.caller) && CallerOK(w, f.caller);
  }

  /** A key is open to a second execution only after its first one succeeded. */
  lemma ExpiredOnlyAfterSuccess(g: Config, actions: seq<Action>, c: nat)
    requires c in Run(g, actions).expired
    ensures var w := Run(g, actions); c in w.callers && w.callers[c].pc.Finished? && w.callers[c].pc.outcome.Own?
  {
    hide Run;
    EveryRunInv(g, actions);
  }

  /** The key is given back only by a call that attempted nothing, and a repeated call
      returns exactly what the call that owned the key published. */
  lemma OutcomesAreHonest(g: Config, actions: seq<Action>, c: nat)
    requires c in Run(g, actions).callers && Run(g, actions).callers[c].pc.Finished?
    ensures var w := Run(g, actions); var outcome := w.callers[c].pc.outcome;
            && (outcome == GaveUp || outcome == Rejected ==> !w.callers[c].attempted)
            && (outcome.Replayed? ==>
                  outcome.owner in w.callers && w.callers[outcome.owner].pc == Finished(Own(outcome.result))
                  && KeyOf(w.callers[outcome.owner].scope) == KeyOf(w.callers[c].scope))
  {
    hide Run;
    EveryRunInv(g, actions);
    assert CallerOK(Run(g, actions), c);
  }

  /** No exit path leaks capacity: every reservation in any reachable state belongs to a
      call still on its way with that very scope, and the total stays within the cap. */
  lemma ReservationsNeverLeak(g: Config, actions: seq<Action>, scope: IdempotencyScope)
    ensures var w := Run(g, actions);
            && w.runs.Used() <= g.runsCap
            && (scope in w.runs.reserved ==>
                  exists c | c in w.callers :: w.callers[c].scope == scope && HoldsCapacity(w.callers[c].pc))
  {
    hide Run;
    EveryRunInv(g, actions);
    var w := Run(g, actions);
    if scope in w.runs.reserved {
      assert w.reservedBy[scope] in w.callers;
    }
  }

  /** A call that reserved alone finds its reservation at commit: the commit is refused
      only because the chat is busy. */
  lemma SoleCallFindsReservation(g: Config, actions: seq<Action>, c: nat, now: int)
    requires var w := Run(g, actions); c in w.callers && w.callers[c].pc.Commit? && w.callers[c].sole
    requires ValidRunScope(Run(g, actions).callers[c].pc.run)
    ensures var w := Run(g, actions); var caller := w.callers[c];
            var r := StartRunWithReservation(w.runs, caller.scope, caller.pc.run, caller.scope.key, now).1;
            r.Ok? || (r == Err(AlreadyRunning) && Busy(w.runs.active, caller.pc.run.chat))
  {
    hide Run;
    EveryRunInv(g, actions);
    var w := Run(g, actions);
    assert SoleHoldsAt(w, c) && PathAt(w.callers[c]);
  }

  // ----- when a commit finds its reservation ----------------------------------------------

  /** Another call with the scope of `c` gives its capacity back. */
  predicate Robs(w: World, c: nat, a: Action) {
    && a.Proceed? && a.move.DropTheCapacity? && a.c != c && a.c in w.callers && c in w.callers
    && w.callers[a.c].pc.DropCapacity? && w.callers[a.c].scope == w.callers[c].scope
  }

  predicate Reserves(w: World, c: nat, a: Action) {
    a == Proceed(c, ReserveCap) && c in w.callers && w.callers[c].pc.KeyHeld?
  }

  /** Whether that has happened since `c` reserved. */
  predicate Robbed(g: Config, actions: seq<Action>, c: nat) {
    actions != [] &&
    var init := actions[..|actions| - 1];
    var last := actions[|actions| - 1];
    Robs(Run(g, init), c, last) || (Robbed(g, init, c) && !Reserves(Run(g, init), c, last))
  }

  /** The call has reserved and still has both its key and the commit, or its release, ahead. */
  predicate Relies(w: World, c: nat) {
    c in w.callers && HoldsCapacity(w.callers[c].pc) && Keeps(w.callers[c].pc)
  }

  predicate Reserved(w: World, c: nat)
    requires c in w.callers
  {
    w.callers[c].scope in w.runs.reserved
  }

  ghost predicate HasIff(w: World, c: nat, robbed: bool) {
    Relies(w, c) ==> (Reserved(w, c) <==> !robbed)
  }

  /** A step after which `c` relies on its reservation only if it did before, and no less. */
  ghost predicate KeepsReliance(w: World, v: World, c: nat) {
    Relies(v, c) ==> Relies(w, c) && v.callers[c].scope == w.callers[c].scope && (Reserved(v, c) <==> Reserved(w, c))
  }

  lemma SettlingKeepsReliance(w: World, g: Config, c: nat, cleanupAt: int, now: int)
    requires c in w.callers
    ensures KeepsReliance(w, PublishStep(w, g, c, cleanupAt, now), c)
    ensures KeepsReliance(w, DropKeyStep(w, g, c, cleanupAt), c)
    ensures KeepsReliance(w, DropCapacityStep(w, c), c)
  {
    hide Complete, ReleaseKey, Expiring, ReleaseCapacity;
  }

  lemma CommitKeepsReliance(w: World, c: nat, now: int)
    requires c in w.callers && PathAt(w.callers[c])
    ensures KeepsReliance(w, CommitStep(w, c, now), c)
  {
    hide StartRunWithReservation;
  }

  lemma NeutralKeepsReliance(w: World, v: World, c: nat)
    requires c in w.callers && CapacityNeutral(w, v, c)
    ensures KeepsReliance(w, v, c)
  {
  }

  lemma OwnMoveKeepsReliance(w: World, g: Config, c: nat, move: CallerMove)
    requires Inv(w, g) && c in w.callers && !move.ReserveCap?
    ensures KeepsReliance(w, CallerStep(w, g, c, move), c)
  {
    assert PathAt(w.callers[c]);
    hide Inv, PathAt, KeyNeutral, CapacityNeutral, KeepsReliance, ReserveCapStep, ConnectStep, CallTurnStep, CheckLocalStep,
      CommitStep, AbortStep, BindStep, UpdateStep, AppendStep, TerminateStep, PublishStep, DropKeyStep, DropCapacityStep,
      OtherStep;
    var v := CallerStep(w, g, c, move);
    match move
    case CommitRun(now) => CommitKeepsReliance(w, c, now);
    case PublishResult(cleanupAt, now) => SettlingKeepsReliance(w, g, c, cleanupAt, now);
    case DropTheKey(cleanupAt) => SettlingKeepsReliance(w, g, c, cleanupAt, 0);
    case DropTheCapacity => SettlingKeepsReliance(w, g, c, 0, 0);
    case CheckLocal(ok, now) =>
      CheckLocalIsNeutral(w, g, c, ok, now);
      NeutralKeepsReliance(w, v, c);
    case _ => PlainKeepsReliance(w, g, c, move);
  }

  lemma PlainKeepsReliance(w: World, g: Config, c: nat, move: CallerMove)
    requires c in w.callers && PathAt(w.callers[c])
    requires !move.ReserveCap? && !move.CommitRun? && !move.PublishResult? && !move.DropTheKey? && !move.DropTheCapacity?
    requires !move.CheckLocal?
    ensures KeepsReliance(w, CallerStep(w, g, c, move), c)
  {
    hide CallerStep, PathAt, KeyNeutral, CapacityNeutral, KeepsReliance;
    MoveIsNeutral(w, g, c, move);
    NeutralKeepsReliance(w, CallerStep(w, g, c, move), c);
  }

  lemma OwnReserve(w: World, g: Config, c: nat, robbed: bool)
    requires c in w.callers && HasIff(w, c, robbed)
    ensures HasIff(ReserveCapStep(w, g, c), c, if w.callers[c].pc.KeyHeld? then false else robbed)
  {
    hide SoleAtReserve;
  }

  /** What a move of `d` may do to `c`, which still has its key: nothing but rob it. */
  ghost predicate OnlyRobs(w: World, v: World, c: nat, robs: bool)
    requires c in w.callers
  {
    && c in v.callers && v.callers[c] == w.callers[c]
    && (w.callers[c].scope in v.runs.reserved <==> w.callers[c].scope in w.runs.reserved && !robs)
  }

  lemma NeutralOnlyRobs(w: World, v: World, c: nat, d: nat)
    requires c in w.callers && d in w.callers && c != d && CapacityNeutral(w, v, d)
    ensures OnlyRobs(w, v, c, false)
  {
  }

  lemma ScopesDiffer(w: World, c: nat, d: nat)
    requires KeysOK(w) && Relies(w, c) && d in w.callers && c != d && Keeps(w.callers[d].pc)
    ensures w.callers[c].scope != w.callers[d].scope
  {
    hide KeysOK;
    if w.callers[c].scope == w.callers[d].scope { OneKeeper(w, c, d); }
  }

  lemma ReserveOnlyRobs(w: World, g: Config, c: nat, d: nat)
    requires KeysOK(w) && Relies(w, c) && d in w.callers && c != d
    ensures OnlyRobs(w, ReserveCapStep(w, g, d), c, false)
  {
    hide KeysOK, SoleAtReserve;
    if w.callers[d].pc.KeyHeld? { ScopesDiffer(w, c, d); }
  }

  lemma CommitOnlyRobs(w: World, c: nat, d: nat, now: int)
    requires KeysOK(w) && Relies(w, c) && d in w.callers && c != d
    ensures OnlyRobs(w, CommitStep(w, d, now), c, false)
  {
    hide KeysOK, Busy, ValidRunScope;
    if w.callers[d].pc.Commit? { ScopesDiffer(w, c, d); }
  }

  lemma SettlingOnlyRobs(w: World, g: Config, c: nat, d: nat, cleanupAt: int, now: int)
    requires c in w.callers && d in w.callers && c != d
    ensures OnlyRobs(w, PublishStep(w, g, d, cleanupAt, now), c, false)
    ensures OnlyRobs(w, DropKeyStep(w, g, d, cleanupAt), c, false)
  {
    hide Complete, ReleaseKey, Expiring;
  }

  lemma ReleaseOnlyRobs(w: World, c: nat, d: nat)
    requires KeysOK(w) && Relies(w, c) && d in w.callers && c != d
    ensures OnlyRobs(w, DropCapacityStep(w, d), c, Robs(w, c, Proceed(d, DropTheCapacity)))
  {
    hide KeysOK;
    KeeperHasEntry(w, c);
  }

  lemma OtherMoveOnlyRobs(w: World, g: Config, c: nat, d: nat, move: CallerMove)
    requires Inv(w, g) && Relies(w, c) && d in w.callers && c != d
    ensures OnlyRobs(w, CallerStep(w, g, d, move), c, Robs(w, c, Proceed(d, move)))
  {
    assert PathAt(w.callers[d]) && KeysOK(w);
    hide Inv, KeysOK, Relies, PathAt, Neutral, KeyNeutral, CapacityNeutral, OnlyRobs, ReserveCapStep, ConnectStep, CallTurnStep,
      CheckLocalStep, CommitStep, AbortStep, BindStep, UpdateStep, AppendStep, TerminateStep, PublishStep, DropKeyStep,
      DropCapacityStep, OtherStep;
    assert c in w.callers;
    var v := CallerStep(w, g, d, move);
    match move
    case ReserveCap => ReserveOnlyRobs(w, g, c, d);
    case CommitRun(now) => CommitOnlyRobs(w, c, d, now);
    case PublishResult(cleanupAt, now) => SettlingOnlyRobs(w, g, c, d, cleanupAt, now);
    case DropTheKey(cleanupAt) => SettlingOnlyRobs(w, g, c, d, cleanupAt, 0);
    case DropTheCapacity => ReleaseOnlyRobs(w, c, d);
    case CheckLocal(ok, now) =>
      CheckLocalIsNeutral(w, g, d, ok, now);
      NeutralOnlyRobs(w, v, c, d);
    case _ =>
      MoveIsNeutral(w, g, d, move);
      NeutralOnlyRobs(w, v, c, d);
  }

  ghost predicate MovesOnly(w: World, v: World, d: nat) {
    d in w.callers && d in v.callers && v.callers == w.callers[d := v.callers[d]]
  }

  lemma NeutralMovesOnly(w: World, v: World, d: nat)
    requires d in w.callers && (KeyNeutral(w, v, d) || CapacityNeutral(w, v, d))
    ensures MovesOnly(w, v, d)
  {
  }

  lemma SettlingMovesOnly(w: World, g: Config, d: nat, cleanupAt: int, now: int)
    requires d in w.callers
    ensures MovesOnly(w, PublishStep(w, g, d, cleanupAt, now), d) && MovesOnly(w, DropKeyStep(w, g, d, cleanupAt), d)
  {
    hide Complete, ReleaseKey, Expiring;
  }

  lemma MoveLeavesOthers(w: World, g: Config, d: nat, move: CallerMove)
    requires Inv(w, g) && d in w.callers
    ensures MovesOnly(w, CallerStep(w, g, d, move), d)
  {
    assert PathAt(w.callers[d]);
    hide Inv, PathAt, Neutral, KeyNeutral, CapacityNeutral, MovesOnly, ReserveCapStep, ConnectStep, CallTurnStep,
      CheckLocalStep, CommitStep, AbortStep, BindStep, UpdateStep, AppendStep, TerminateStep, PublishStep, DropKeyStep,
      DropCapacityStep, OtherStep;
    var v := CallerStep(w, g, d, move);
    match move
    case PublishResult(cleanupAt, now) => SettlingMovesOnly(w, g, d, cleanupAt, now);
    case DropTheKey(cleanupAt) => SettlingMovesOnly(w, g, d, cleanupAt, 0);
    case _ =>
      MoveIsKeyNeutral(w, g, d, move);
      NeutralMovesOnly(w, v, d);
  }

  lemma MoveIsKeyNeutral(w: World, g: Config, d: nat, move: CallerMove)
    requires d in w.callers && PathAt(w.callers[d]) && !move.PublishResult? && !move.DropTheKey?
    ensures KeyNeutral(w, CallerStep(w, g, d, move), d)
  {
    hide PathAt, KeyNeutral, CapacityNeutral, ReserveCapStep, ConnectStep, CallTurnStep, CheckLocalStep, CommitStep, AbortStep,
      BindStep, UpdateStep, AppendStep, TerminateStep, PublishStep, DropKeyStep, DropCapacityStep, OtherStep;
    match move
    case ReserveCap => ReserveIsKeyNeutral(w, g, d);
    case CommitRun(now) => CommitIsKeyNeutral(w, d, now);
    case DropTheCapacity => DropCapacityIsKeyNeutral(w, d);
    case CheckLocal(ok, now) => CheckLocalIsNeutral(w, g, d, ok, now);
    case _ => MoveIsNeutral(w, g, d, move);
  }

  lemma MoveKeepsIff(w: World, g: Config, d: nat, move: CallerMove, c: nat, robbed: bool)
    requires Inv(w, g) && HasIff(w, c, robbed) && d in w.callers
    ensures HasIff(CallerStep(w, g, d, move), c,
                   Robs(w, c, Proceed(d, move)) || (robbed && !Reserves(w, c, Proceed(d, move))))
  {
    hide Inv, CallerStep, HoldsCapacity, Keeps;
    if c != d {
      MoveLeavesOthers(w, g, d, move);
      if Relies(w, c) { OtherMoveOnlyRobs(w, g, c, d, move); }
    } else if move.ReserveCap? {
      ReserveMove(w, g, c);
      OwnReserve(w, g, c, robbed);
    } else {
      OwnMoveKeepsReliance(w, g, c, move);
    }
  }

  lemma ReserveMove(w: World, g: Config, c: nat)
    requires c in w.callers
    ensures CallerStep(w, g, c, ReserveCap) == ReserveCapStep(w, g, c)
  {
    hide ReserveCapStep;
  }

  lemma ArriveLeavesOthers(w: World, g: Config, d: nat, scope: IdempotencyScope, cleanupAt: int, now: int, c: nat)
    requires d !in w.callers
    ensures var v := ArriveStep(w, g, d, scope, cleanupAt, now);
            && v.runs == w.runs && (c != d && c in v.callers ==> c in w.callers)
            && (c in w.callers ==> c in v.callers && v.callers[c] == w.callers[c])
            && (c == d ==> !Relies(v, c))
  {
    hide Reserve, Expiring, ValidIdempotencyScope;
  }

  lemma StepKeepsIff(w: World, g: Config, a: Action, c: nat, robbed: bool)
    requires Inv(w, g) && HasIff(w, c, robbed)
    ensures HasIff(Step(w, g, a), c, Robs(w, c, a) || (robbed && !Reserves(w, c, a)))
  {
    hide Inv, ArriveStep, CallerStep, ApplyRuns, CleanedEntries, Expiring, HoldsCapacity, Keeps;
    match a
    case Arrive(d, scope, cleanupAt, now) =>
      if d !in w.callers { ArriveLeavesOthers(w, g, d, scope, cleanupAt, now, c); }
    case Proceed(d, move) => if d in w.callers { MoveKeepsIff(w, g, d, move, c, robbed); }
    case OtherRuns(op) => CapacityStep(w.runs, g.runsCap, op);
    case Cleanup(cleanupAt) =>
  }

  lemma {:induction false} EveryRunHasIff(g: Config, actions: seq<Action>, c: nat)
    ensures HasIff(Run(g, actions), c, Robbed(g, actions, c))
  {
    hide Step, HasIff, Robs, Reserves;
    if actions == [] {
      StartHasIff(c);
    } else {
      var init := actions[..|actions| - 1];
      EveryRunHasIff(g, init, c);
      EveryRunInv(g, init);
      StepKeepsIff(Run(g, init), g, actions[|actions| - 1], c, Robbed(g, init, c));
    }
  }

  lemma StartHasIff(c: nat)
    ensures HasIff(START, c, false)
  {
  }

  /** "A call finds its reservation at commit", exactly: in every run, a commit is refused for
      want of the reservation if and only if, since the call reserved, another call with its
      scope gave its capacity back; otherwise only a busy chat refuses it. */
  lemma CommitFindsReservationIff(g: Config, actions: seq<Action>, c: nat, now: int)
    requires var w := Run(g, actions); c in w.callers && w.callers[c].pc.Commit?
    requires ValidRunScope(Run(g, actions).callers[c].pc.run)
    ensures var w := Run(g, actions); var caller := w.callers[c];
            var r := StartRunWithReservation(w.runs, caller.scope, caller.pc.run, caller.scope.key, now).1;
            && (r == Err(InvalidRequest) <==> Robbed(g, actions, c))
            && (!Robbed(g, actions, c) ==> r.Ok? || (r == Err(AlreadyRunning) && Busy(w.runs.active, caller.pc.run.chat)))
  {
    hide Run, Robbed, Inv, Busy, ValidRunScope;
    EveryRunHasIff(g, actions, c);
    EveryRunInv(g, actions);
    assert KeysOK(Run(g, actions)) by { InvKeys(Run(g, actions), g); }
    KeeperHasEntry(Run(g, actions), c);
  }

  lemma InvKeys(w: World, g: Config)
    requires Inv(w, g)
    ensures KeysOK(w)
  {
    hide KeysOK;
  }

  /** Such a release does come: a call that reserves, or finds a reservation, while another
      call with its scope still has its release ahead loses what it relies on. */
  lemma PendingReleaseTakesReservation(w: World, g: Config, c: nat, d: nat)
    requires c in w.callers && d in w.callers && c != d && w.callers[c].scope == w.callers[d].scope
    requires w.callers[c].pc.KeyHeld? && w.callers[c].scope.operation == StartChatRunOp
    requires w.callers[d].pc.DropCapacity? && ValidIdempotencyScope(w.callers[c].scope)
    requires w.callers[c].scope in w.runs.reserved || w.runs.Used() < g.runsCap
    ensures var reserved := Step(w, g, Proceed(c, ReserveCap));
            var v := Step(reserved, g, Proceed(d, DropTheCapacity));
            && !SoleAtReserve(w, c)
            && c in v.callers && v.callers[c].pc == Connecting(0) && v.callers[c].scope == w.callers[c].scope
            && w.callers[c].scope !in v.runs.reserved
            && v.runs.active == w.runs.active && v.effects == w.effects && v.entries == w.entries
  {
  }

  /** What losing the reservation costs: the call starts a thread and a turn that no run
      record ever names, and its key stays in flight. */
  lemma LostReservationStrandsRun(w: World, g: Config, c: nat, chatID: string, runID: string, now: int)
    requires c in w.callers && w.callers[c].pc == Connecting(0) && chatID != "" && runID != ""
    requires ValidIdempotencyScope(w.callers[c].scope) && w.callers[c].scope !in w.runs.reserved
    ensures var threaded := Step(w, g, Proceed(c, Connect(ThreadStarted(chatID))));
            var turned := Step(threaded, g, Proceed(c, CallTurn(TurnStarted(runID))));
            var refused := Step(turned, g, Proceed(c, CommitRun(now)));
            var v := Step(refused, g, Proceed(c, DropTheCapacity));
            && c in v.callers && v.callers[c].pc == Finished(Stuck) && v.callers[c].scope == w.callers[c].scope
            && v.effects == w.effects + [StartThread(c), StartTurn(c)]
            && v.runs.active == w.runs.active && v.entries == w.entries
  {
    hide KeyOf;
    var threaded := Step(w, g, Proceed(c, Connect(ThreadStarted(chatID))));
    var turned := Step(threaded, g, Proceed(c, CallTurn(TurnStarted(runID))));
    assert turned.callers[c].pc.Commit? && turned.effects == w.effects + [StartThread(c), StartTurn(c)];
    UnreservedCommit(turned, g, c, now);
    hide CommitStep, StartRunWithReservation;
  }

  /** Without the reservation the commit is refused and only the release is left. */
  lemma UnreservedCommit(w: World, g: Config, c: nat, now: int)
    requires c in w.callers && w.callers[c].pc.Commit? && w.callers[c].attempted && w.callers[c].scope !in w.runs.reserved
    ensures var refused := Step(w, g, Proceed(c, CommitRun(now)));
            refused == At(w, c, DropCapacity(true)) && refused.callers[c].pc == DropCapacity(true)
  {
  }

  /** And the release is ahead: whenever a call gives up, it gives its key back before its
      capacity, so the next call with its scope gets the key and finds the reservation. */
  lemma NextCallFindsOldReservation(w: World, g: Config, c: nat, d: nat, cleanupAt: int, now: int)
    requires Inv(w, g) && c in w.callers && d !in w.callers
    requires w.callers[c].pc == DropKey(true) && w.callers[c].scope in w.runs.reserved && |w.entries| <= g.entriesCap
    ensures var scope := w.callers[c].scope;
            var v := ArriveStep(DropKeyStep(w, g, c, cleanupAt), g, d, scope, cleanupAt, now);
            && v.callers == w.callers[c := w.callers[c].(pc := DropCapacity(false))][d := Caller(scope, KeyHeld, false, false)]
            && scope in v.runs.reserved && v.runs == w.runs && v.effects == w.effects
  {
    assert CallerOK(w, c) && EntryOK(w, KeyOf(w.callers[c].scope));
    ReleasedKeyIsFree(w.entries, g.entriesCap, g.replayTTL, w.callers[c].scope, cleanupAt, now);
    hide KeyOf, KeysOK, EffectsOK, PathOK, NoLeak, SoleHolds, Reserve, ReleaseKey, Expiring;
  }

  lemma RunSnoc(g: Config, actions: seq<Action>, a: Action)
    ensures Run(g, actions + [a]) == Step(Run(g, actions), g, a)
  {
    hide Step;
    assert (actions + [a])[..|actions|] == actions;
  }

  function GivesUp(scope: IdempotencyScope): seq<Action> {
    [Arrive(0, scope, 0, 0)] + [Proceed(0, ReserveCap)] + [Proceed(0, Connect(NoConnection))]
  }

  lemma FirstCallGivesUp(g: Config, scope: IdempotencyScope)
    requires ValidIdempotencyScope(scope) && scope.operation == StartChatRunOp && g.runsCap > 0 && g.entriesCap > 0
    ensures var w := Run(g, GivesUp(scope));
            && w.callers == map[0 := Caller(scope, DropKey(true), false, true)] && scope in w.runs.reserved
            && w.runs.active == map[] && |w.entries| == 1 && w.effects == []
  {
    hide Step, KeyOf;
    RunSnoc(g, [], Arrive(0, scope, 0, 0));
    RunSnoc(g, [Arrive(0, scope, 0, 0)], Proceed(0, ReserveCap));
    RunSnoc(g, [Arrive(0, scope, 0, 0)] + [Proceed(0, ReserveCap)], Proceed(0, Connect(NoConnection)));
    FirstArrives(g, scope);
    FirstReserves(g, Run(g, [] + [Arrive(0, scope, 0, 0)]), scope);
  }

  lemma FirstArrives(g: Config, scope: IdempotencyScope)
    requires ValidIdempotencyScope(scope) && g.entriesCap > 0
    ensures var w := Step(START, g, Arrive(0, scope, 0, 0));
            && w.callers == map[0 := Caller(scope, KeyHeld, false, false)] && |w.entries| == 1
            && w.runs == START.runs && w.effects == []
  {
    hide KeyOf, Expiring;
    assert CleanedEntries(map[], g.replayTTL, 0) == map[];
  }

  lemma FirstReserves(g: Config, w: World, scope: IdempotencyScope)
    requires ValidIdempotencyScope(scope) && scope.operation == StartChatRunOp && g.runsCap > 0
    requires w.callers == map[0 := Caller(scope, KeyHeld, false, false)] && w.runs == START.runs
    ensures var v := Step(Step(w, g, Proceed(0, ReserveCap)), g, Proceed(0, Connect(NoConnection)));
            && v.callers == map[0 := Caller(scope, DropKey(true), false, true)] && scope in v.runs.reserved
            && v.runs.active == map[] && v.entries == w.entries && v.effects == w.effects
  {
    assert SoleAtReserve(w, 0);
  }

  function Strands(scope: IdempotencyScope, chatID: string, runID: string): seq<Action> {
    GivesUp(scope) + [Proceed(0, DropTheKey(0))] + [Arrive(1, scope, 0, 0)]
    + [Proceed(1, ReserveCap)] + [Proceed(0, DropTheCapacity)]
    + [Proceed(1, Connect(ThreadStarted(chatID)))] + [Proceed(1, CallTurn(TurnStarted(runID)))]
    + [Proceed(1, CommitRun(0))] + [Proceed(1, DropTheCapacity)]
  }

  /** All of it in one run from the start: the second call has started a thread and a turn,
      no run record names them, and its key is in flight for good. */
  lemma StrandedCallIsReachable(g: Config, scope: IdempotencyScope, chatID: string, runID: string)
    requires ValidIdempotencyScope(scope) && scope.operation == StartChatRunOp && g.runsCap > 0 && g.entriesCap > 0
    requires chatID != "" && runID != ""
    ensures var w := Run(g, Strands(scope, chatID, runID));
            && 1 in w.callers && w.callers[1].pc == Finished(Stuck) && w.effects == [StartThread(1), StartTurn(1)]
            && w.runs.active == map[] && KeyOf(scope) in w.entries && w.entries[KeyOf(scope)].state == InFlight
  {
    hide Step, Inv, KeyOf;
    var a3 := GivesUp(scope);
    var a4 := a3 + [Proceed(0, DropTheKey(0))];
    var a5 := a4 + [Arrive(1, scope, 0, 0)];
    var a6 := a5 + [Proceed(1, ReserveCap)];
    var a7 := a6 + [Proceed(0, DropTheCapacity)];
    var a8 := a7 + [Proceed(1, Connect(ThreadStarted(chatID)))];
    var a9 := a8 + [Proceed(1, CallTurn(TurnStarted(runID)))];
    var a10 := a9 + [Proceed(1, CommitRun(0))];
    RunSnoc(g, a3, Proceed(0, DropTheKey(0)));
    RunSnoc(g, a4, Arrive(1, scope, 0, 0));
    RunSnoc(g, a5, Proceed(1, ReserveCap));
    RunSnoc(g, a6, Proceed(0, DropTheCapacity));
    RunSnoc(g, a7, Proceed(1, Connect(ThreadStarted(chatID))));
    RunSnoc(g, a8, Proceed(1, CallTurn(TurnStarted(runID))));
    RunSnoc(g, a9, Proceed(1, CommitRun(0)));
    RunSnoc(g, a10, Proceed(1, DropTheCapacity));
    FirstCallGivesUp(g, scope);
    EveryRunInv(g, a3);
    NextCallFindsOldReservation(Run(g, a3), g, 0, 1, 0, 0);
    GiveUpSteps(Run(g, a3), g, scope);
    PendingReleaseTakesReservation(Run(g, a5), g, 1, 0);
    LostReservationStrandsRun(Run(g, a7), g, 1, chatID, runID, 0);
    EveryRunInv(g, Strands(scope, chatID, runID));
    StuckKeepsEntry(g, Run(g, Strands(scope, chatID, runID)), scope);
  }

  lemma GiveUpSteps(w: World, g: Config, scope: IdempotencyScope)
    requires 0 in w.callers && 1 !in w.callers
    ensures Step(Step(w, g, Proceed(0, DropTheKey(0))), g, Arrive(1, scope, 0, 0)) ==
            ArriveStep(DropKeyStep(w, g, 0, 0), g, 1, scope, 0, 0)
  {
    hide ArriveStep, ReleaseKey, Expiring;
  }

  lemma StuckKeepsEntry(g: Config, w: World, scope: IdempotencyScope)
    requires Inv(w, g) && 1 in w.callers && w.callers[1].pc == Finished(Stuck) && w.callers[1].scope == scope
    ensures KeyOf(scope) in w.entries && w.entries[KeyOf(scope)].state == InFlight
  {
    assert KeysOK(w);
    hide KeysOK;
    KeeperHasEntry(w, 1);
  }
}
