/** Active runs and the capacity they share with reservations. */
module RunsModel {
  import opened Common
  import opened ReplayModel

  datatype RunState = Starting | Running | Pending | Interrupting | Completed | Failed | Interrupted

  predicate IsTerminal(state: RunState) {
    state == Completed || state == Failed || state == Interrupted
  }

  datatype RunRecord = RunRecord(chat: Scope, runID: string, state: RunState, idempotencyKey: string,
                                 startedAtUnixMS: int, updatedAtUnixMS: int)

  datatype Operation = StartChatRunOp | RunChatTurnOp | RespondPendingOp | InterruptChatRunOp

  datatype IdempotencyScope = IdempotencyScope(operation: Operation, sessionGroupID: string, workspaceID: string,
                                               chatID: string, pendingRequestID: string,
                                               clientMessageID: string, key: string)

  predicate ValidIdempotencyScope(scope: IdempotencyScope) {
    scope.sessionGroupID != "" && scope.workspaceID != "" && scope.key != ""
  }

  datatype StoreError =
    | InvalidRequest
    | ResourceExhausted
    | AlreadyRunning
    | UnknownActiveRun
    | PendingUnavailable
    | PendingAlreadyResolved
    | IdempotencyScopeMismatch
    | IdempotencyUnavailable

  datatype Runs = Runs(active: map<Scope, RunRecord>, reserved: map<IdempotencyScope, Scope>)
  {
    function Used(): nat { |active| + |reserved| }
  }

  predicate Busy(active: map<Scope, RunRecord>, chat: Scope) {
    chat in active && !IsTerminal(active[chat].state)
  }

  function Starting0(run: RunScope, idempotencyKey: string, now: int): RunRecord {
    RunRecord(run.chat, run.runID, Starting, idempotencyKey, UnixMilli(now), UnixMilli(now))
  }

  function StartRun(r: Runs, cap: int, run: RunScope, idempotencyKey: string, now: int)
    : (Runs, Result<RunRecord, StoreError>)
  {
    if !ValidRunScope(run) then (r, Err(InvalidRequest))
    else if Busy(r.active, run.chat) then (r, Err(AlreadyRunning))
    else if r.Used() >= cap then (r, Err(ResourceExhausted))
    else
      var record := Starting0(run, idempotencyKey, now);
      (r.(active := r.active[run.chat := record]), Ok(record))
  }

  function ReserveCapacity(r: Runs, cap: int, scope: IdempotencyScope): (Runs, Result<(), StoreError>) {
    if !ValidIdempotencyScope(scope) then (r, Err(InvalidRequest))
    else if scope in r.reserved then (r, Ok(()))
    else if r.Used() >= cap then (r, Err(ResourceExhausted))
    else (r.(reserved := r.reserved[scope := Scope(scope.sessionGroupID, scope.workspaceID, scope.chatID)]), Ok(()))
  }

  function ReleaseCapacity(r: Runs, scope: IdempotencyScope): (Runs, Result<(), StoreError>) {
    if !ValidIdempotencyScope(scope) then (r, Err(InvalidRequest))
    else (r.(reserved := r.reserved - {scope}), Ok(()))
  }

  function StartRunWithReservation(r: Runs, scope: IdempotencyScope, run: RunScope, idempotencyKey: string, now: int)
    : (Runs, Result<RunRecord, StoreError>)
  {
    if !ValidIdempotencyScope(scope) || !ValidRunScope(run) || scope !in r.reserved then (r, Err(InvalidRequest))
    else if Busy(r.active, run.chat) then (r, Err(AlreadyRunning))
    else
      var record := Starting0(run, idempotencyKey, now);
      (Runs(r.active[run.chat := record], r.reserved - {scope}), Ok(record))
  }

  predicate Correlates(active: map<Scope, RunRecord>, run: RunScope) {
    run.chat in active && active[run.chat].runID == run.runID
  }

  function UpdateRunState(r: Runs, run: RunScope, state: RunState, now: int): (Runs, Result<RunRecord, StoreError>) {
    if !ValidRunScope(run) then (r, Err(InvalidRequest))
    else if !Correlates(r.active, run) then (r, Err(UnknownActiveRun))
    else
      var record := r.active[run.chat].(state := state, updatedAtUnixMS := UnixMilli(now));
      (r.(active := r.active[run.chat := record]), Ok(record))
  }

  function RestoreRunStateAfterPending(r: Runs, run: RunScope, now: int): (Runs, Result<RunRecord, StoreError>) {
    if !ValidRunScope(run) then (r, Err(InvalidRequest))
    else if !Correlates(r.active, run) then (r, Err(UnknownActiveRun))
    else if r.active[run.chat].state == Interrupting then (r, Ok(r.active[run.chat]))
    else UpdateRunState(r, run, Running, now)
  }

  function BindRunID(r: Runs, run: RunScope, runID: string, now: int): (Runs, Result<RunRecord, StoreError>) {
    if !ValidRunScope(run) || runID == "" then (r, Err(InvalidRequest))
    else if !Correlates(r.active, run) then (r, Err(UnknownActiveRun))
    else
      var record := r.active[run.chat].(runID := runID, updatedAtUnixMS := UnixMilli(now));
      (r.(active := r.active[run.chat := record]), Ok(record))
  }

  function CompleteRun(r: Runs, run: RunScope, state: RunState, now: int): (Runs, Result<RunRecord, StoreError>) {
    if !IsTerminal(state) || !ValidRunScope(run) then (r, Err(InvalidRequest))
    else if !Correlates(r.active, run) then (r, Err(UnknownActiveRun))
    else
      var record := r.active[run.chat].(state := state, updatedAtUnixMS := UnixMilli(now));
      (r.(active := r.active - {run.chat}), Ok(record))
  }

  // ----- every run of the store -------------------------------------------------

  datatype RunsOp =
    | OpStart(run: RunScope, key: string, now: int)
    | OpReserve(scope: IdempotencyScope)
    | OpRelease(scope: IdempotencyScope)
    | OpStartReserved(scope: IdempotencyScope, run: RunScope, key: string, now: int)
    | OpUpdate(run: RunScope, state: RunState, now: int)
    | OpRestore(run: RunScope, now: int)
    | OpBind(run: RunScope, runID: string, now: int)
    | OpComplete(run: RunScope, state: RunState, now: int)

  function ApplyRuns(r: Runs, cap: int, op: RunsOp): Runs {
    match op
    case OpStart(run, key, now) => StartRun(r, cap, run, key, now).0
    case OpReserve(scope) => ReserveCapacity(r, cap, scope).0
    case OpRelease(scope) => ReleaseCapacity(r, scope).0
    case OpStartReserved(scope, run, key, now) => StartRunWithReservation(r, scope, run, key, now).0
    case OpUpdate(run, state, now) => UpdateRunState(r, run, state, now).0
    case OpRestore(run, now) => RestoreRunStateAfterPending(r, run, now).0
    case OpBind(run, runID, now) => BindRunID(r, run, runID, now).0
    case OpComplete(run, state, now) => CompleteRun(r, run, state, now).0
  }

  function ApplyRunsAll(r: Runs, cap: int, ops: seq<RunsOp>): Runs {
    if ops == [] then r else ApplyRuns(ApplyRunsAll(r, cap, ops[..|ops| - 1]), cap, ops[|ops| - 1])
  }

  /** A refused request for capacity leaves runs and reservations as they are. */
  lemma RefusalChangesNothing(r: Runs, cap: int, scope: IdempotencyScope, run: RunScope, key: string, now: int)
    ensures StartRun(r, cap, run, key, now).1.Err? ==> StartRun(r, cap, run, key, now).0 == r
    ensures ReserveCapacity(r, cap, scope).1.Err? ==> ReserveCapacity(r, cap, scope).0 == r
    ensures var s := StartRunWithReservation(r, scope, run, key, now);
            if s.1.Err? then s.0 == r else ValidIdempotencyScope(scope) && ValidRunScope(run)
  {
  }

  lemma MapRemoval<K, V>(m: map<K, V>, k: K)
    ensures |m - {k}| == if k in m then |m| - 1 else |m|
  {
    assert (m - {k}).Keys == m.Keys - {k};
    assert |m - {k}| == |(m - {k}).Keys| && |m| == |m.Keys|;
  }

  /** Consuming a reservation never raises the total. */
  lemma ConsumingKeepsTotal(r: Runs, scope: IdempotencyScope, run: RunScope, idempotencyKey: string, now: int)
    ensures StartRunWithReservation(r, scope, run, idempotencyKey, now).0.Used() <= r.Used()
  {
    MapRemoval(r.reserved, scope);
  }

  lemma ReleaseKeepsTotal(r: Runs, scope: IdempotencyScope)
    ensures ReleaseCapacity(r, scope).0.Used() <= r.Used()
  {
    MapRemoval(r.reserved, scope);
  }

  lemma CompleteFreesSlot(r: Runs, run: RunScope, state: RunState, now: int)
    ensures CompleteRun(r, run, state, now).0.Used() <= r.Used()
    ensures CompleteRun(r, run, state, now).0.reserved == r.reserved
  {
    MapRemoval(r.active, run.chat);
  }

  lemma UpdateKeepsTotal(r: Runs, run: RunScope, state: RunState, now: int)
    ensures UpdateRunState(r, run, state, now).0.Used() == r.Used()
    ensures UpdateRunState(r, run, state, now).0.reserved == r.reserved
  {
  }

  lemma RestoreKeepsTotal(r: Runs, run: RunScope, now: int)
    ensures RestoreRunStateAfterPending(r, run, now).0.Used() == r.Used()
    ensures RestoreRunStateAfterPending(r, run, now).0.reserved == r.reserved
  {
    UpdateKeepsTotal(r, run, Running, now);
    hide UpdateRunState;
  }

  lemma BindKeepsTotal(r: Runs, run: RunScope, runID: string, now: int)
    ensures BindRunID(r, run, runID, now).0.Used() == r.Used()
    ensures BindRunID(r, run, runID, now).0.reserved == r.reserved
  {
  }

  lemma StartTakesFreeSlot(r: Runs, cap: int, run: RunScope, key: string, now: int)
    ensures StartRun(r, cap, run, key, now).0.Used() <= r.Used() + 1
    ensures r.Used() >= cap ==> StartRun(r, cap, run, key, now).0.Used() == r.Used()
    ensures StartRun(r, cap, run, key, now).0.reserved == r.reserved
  {
  }

  lemma ReserveTakesFreeSlot(r: Runs, cap: int, scope: IdempotencyScope)
    ensures ReserveCapacity(r, cap, scope).0.Used() <= r.Used() + 1
    ensures r.Used() >= cap ==> ReserveCapacity(r, cap, scope).0.Used() == r.Used()
  {
  }

  /** Only a fresh start or a fresh reservation takes a slot, and only a free one; and
      reservations change only by reserving, releasing and consuming. */
  lemma CapacityStep(r: Runs, cap: int, op: RunsOp)
    ensures ApplyRuns(r, cap, op).Used() <= r.Used() + 1
    ensures (!op.OpStart? && !op.OpReserve?) || r.Used() >= cap ==> ApplyRuns(r, cap, op).Used() <= r.Used()
    ensures !op.OpReserve? && !op.OpRelease? && !op.OpStartReserved? ==> ApplyRuns(r, cap, op).reserved == r.reserved
  {
    hide StartRun, ReserveCapacity, ReleaseCapacity, StartRunWithReservation, UpdateRunState,
      RestoreRunStateAfterPending, BindRunID, CompleteRun;
    match op
    case OpStart(run, key, now) => StartTakesFreeSlot(r, cap, run, key, now);
    case OpReserve(scope) => ReserveTakesFreeSlot(r, cap, scope);
    case OpRelease(scope) => ReleaseKeepsTotal(r, scope);
    case OpStartReserved(scope, run, key, now) => ConsumingKeepsTotal(r, scope, run, key, now);
    case OpUpdate(run, state, now) => UpdateKeepsTotal(r, run, state, now);
    case OpRestore(run, now) => RestoreKeepsTotal(r, run, now);
    case OpBind(run, runID, now) => BindKeepsTotal(r, run, runID, now);
    case OpComplete(run, state, now) => CompleteFreesSlot(r, run, state, now);
  }

  /** Active runs plus reservations stay within the cap in every reachable state. */
  lemma {:induction false} CapacityConserved(cap: nat, ops: seq<RunsOp>)
    ensures ApplyRunsAll(Runs(map[], map[]), cap, ops).Used() <= cap
  {
    hide ApplyRuns;
    if ops != [] {
      CapacityConserved(cap, ops[..|ops| - 1]);
      CapacityStep(ApplyRunsAll(Runs(map[], map[]), cap, ops[..|ops| - 1]), cap, ops[|ops| - 1]);
    }
  }

  // ----- the verdicts, and which run they touch ---------------------------------------------------------

  /** The chat has a run that is not over. */
  predicate Going(active: map<Scope, RunRecord>, chat: Scope) {
    chat in active && match active[chat].state
      case Completed => false
      case Failed => false
      case Interrupted => false
      case _ => true
  }

  /** Every part of the run's name is there. */
  predicate Named(run: RunScope) {
    run.chat.sessionGroupID != "" && run.chat.workspaceID != "" && run.chat.chatID != "" && run.runID != ""
  }

  predicate Keyed(scope: IdempotencyScope) {
    scope.sessionGroupID != "" && scope.workspaceID != "" && scope.key != ""
  }

  /** A run starts exactly if its chat has none going and there is room beside all runs and
      reservations; or, with a reservation, exactly if its chat has none going, and uses it up. */
  lemma StartVerdict(r: Runs, cap: int, scope: IdempotencyScope, run: RunScope, key: string, now: int)
    ensures var (s, v) := StartRun(r, cap, run, key, now);
            var record := RunRecord(run.chat, run.runID, Starting, key, now / 1_000_000, now / 1_000_000);
            if Named(run) && !Going(r.active, run.chat) && |r.active| + |r.reserved| < cap
            then v == Ok(record) && s == Runs(r.active[run.chat := record], r.reserved)
            else
              && s == r
              && v == Err(if !Named(run) then InvalidRequest
                          else if Going(r.active, run.chat) then AlreadyRunning else ResourceExhausted)
    ensures var (s, v) := StartRunWithReservation(r, scope, run, key, now);
            var record := RunRecord(run.chat, run.runID, Starting, key, now / 1_000_000, now / 1_000_000);
            if Keyed(scope) && Named(run) && scope in r.reserved && !Going(r.active, run.chat)
            then v == Ok(record) && s == Runs(r.active[run.chat := record], r.reserved - {scope})
            else
              && s == r
              && v == Err(if Keyed(scope) && Named(run) && scope in r.reserved then AlreadyRunning else InvalidRequest)
  {
  }

  /** A reservation is made once for each scope, if there is room, and given back without
      asking whether it was there. */
  lemma CapacityVerdict(r: Runs, cap: int, scope: IdempotencyScope)
    ensures var (s, v) := ReserveCapacity(r, cap, scope);
            if Keyed(scope) && (scope in r.reserved || |r.active| + |r.reserved| < cap)
            then
              && v == Ok(()) && s.active == r.active && s.reserved.Keys == r.reserved.Keys + {scope}
              && s.reserved == r.reserved[scope := s.reserved[scope]]
              && (scope !in r.reserved ==>
                    s.reserved[scope] == Scope(scope.sessionGroupID, scope.workspaceID, scope.chatID))
              && (scope in r.reserved ==> s == r)
            else s == r && v == Err(if Keyed(scope) then ResourceExhausted else InvalidRequest)
    ensures var (s, v) := ReleaseCapacity(r, scope);
            if Keyed(scope) then v == Ok(()) && s == Runs(r.active, r.reserved - {scope}) else s == r && v == Err(InvalidRequest)
  {
  }

  /** The record of a run after an operation that found it. */
  function Changed(record: RunRecord, op: RunsOp): RunRecord
    requires op.OpUpdate? || op.OpRestore? || op.OpBind? || op.OpComplete?
  {
    var ms := op.now / 1_000_000;
    match op
    case OpUpdate(_, state, _) => RunRecord(record.chat, record.runID, state, record.idempotencyKey, record.startedAtUnixMS, ms)
    case OpRestore(_, _) =>
      if record.state == Interrupting then record
      else RunRecord(record.chat, record.runID, Running, record.idempotencyKey, record.startedAtUnixMS, ms)
    case OpBind(_, runID, _) => RunRecord(record.chat, runID, record.state, record.idempotencyKey, record.startedAtUnixMS, ms)
    case OpComplete(_, state, _) => RunRecord(record.chat, record.runID, state, record.idempotencyKey, record.startedAtUnixMS, ms)
  }

  /** Whether the arguments of an operation on a run make sense at all. */
  predicate Sensible(op: RunsOp)
    requires op.OpUpdate? || op.OpRestore? || op.OpBind? || op.OpComplete?
  {
    Named(op.run) && match op
      case OpBind(_, runID, _) => runID != ""
      case OpComplete(_, state, _) => state == Completed || state == Failed || state == Interrupted
      case _ => true
  }

  function VerdictOf(r: Runs, op: RunsOp): (Runs, Result<RunRecord, StoreError>)
    requires op.OpUpdate? || op.OpRestore? || op.OpBind? || op.OpComplete?
  {
    match op
    case OpUpdate(run, state, now) => UpdateRunState(r, run, state, now)
    case OpRestore(run, now) => RestoreRunStateAfterPending(r, run, now)
    case OpBind(run, runID, now) => BindRunID(r, run, runID, now)
    case OpComplete(run, state, now) => CompleteRun(r, run, state, now)
  }

  /** An operation on a run touches the one run of the chat that has this very id, and only
      the part it is about: a late message of an earlier run of the chat changes nothing.
      Completing takes the run out; the others leave it in with the change. */
  lemma TouchesNamedRunOnly(r: Runs, op: RunsOp)
    requires op.OpUpdate? || op.OpRestore? || op.OpBind? || op.OpComplete?
    ensures var (s, v) := VerdictOf(r, op); var chat := op.run.chat;
            if Sensible(op) && chat in r.active && r.active[chat].runID == op.run.runID then
              && v == Ok(Changed(r.active[chat], op))
              && s == Runs(if op.OpComplete? then r.active - {chat} else r.active[chat := Changed(r.active[chat], op)], r.reserved)
            else s == r && v == Err(if Sensible(op) then UnknownActiveRun else InvalidRequest)
  {
    if op.OpRestore? && op.run.chat in r.active { assert r.active[op.run.chat := r.active[op.run.chat]] == r.active; }
  }
}
