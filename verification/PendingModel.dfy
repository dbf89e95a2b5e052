/** The lifecycle of pending request records in the chat state store. Every operation is
    one critical section and begins with a cleanup pass at its own clock reading. */
module PendingModel {
  import opened Common
  import opened ReplayModel
  import opened RunsModel

  datatype PendingStatus = ActiveStatus | ClaimedStatus | ResolvedStatus | ExpiredStatus

  datatype PendingKey = PendingKey(run: RunScope, pendingRequestID: string)

  datatype PendingRecord = PendingRecord(status: PendingStatus, createdAtUnixMS: int, expiresAtUnixMS: int,
                                         resolvedAtUnixMS: int)

  type PendingTable = map<PendingKey, PendingRecord>

  predicate Live(record: PendingRecord) {
    record.status == ActiveStatus || record.status == ClaimedStatus
  }

  // ----- cleanup -----------------------------------------------------------------

  function Marked(record: PendingRecord, now: int): PendingRecord {
    if Live(record) && UnixMilli(now) > record.expiresAtUnixMS then record.(status := ExpiredStatus) else record
  }

  function RetainUntil(record: PendingRecord, ttl: int): int {
    if record.resolvedAtUnixMS > 0 then record.resolvedAtUnixMS * NANOS_PER_MILLI + ttl
    else record.expiresAtUnixMS * NANOS_PER_MILLI
  }

  predicate Dropped(record: PendingRecord, ttl: int, now: int) {
    !Live(Marked(record, now)) && now > RetainUntil(record, ttl)
  }

  function Cleaned(table: PendingTable, ttl: int, now: int): PendingTable {
    map k | k in table && !Dropped(table[k], ttl, now) :: Marked(table[k], now)
  }

  function LiveKeys(table: PendingTable): set<PendingKey> {
    set k | k in table && Live(table[k])
  }

  /** Only records that were resolved carry a resolution time. */
  ghost predicate TableOK(table: PendingTable) {
    forall k | k in table && Live(table[k]) :: table[k].resolvedAtUnixMS == 0
  }

  /** Cleanup never leaves an expired mark behind: a record it would mark is dropped in the
      same pass, so cleanup only removes records, and never a live one before its expiry. */
  lemma CleanupOnlyRemoves(table: PendingTable, ttl: int, now: int)
    requires TableOK(table)
    ensures forall k | k in Cleaned(table, ttl, now) :: k in table && Cleaned(table, ttl, now)[k] == table[k]
    ensures forall k | k in table && Live(table[k]) ::
              k in Cleaned(table, ttl, now) <==> UnixMilli(now) <= table[k].expiresAtUnixMS
    ensures TableOK(Cleaned(table, ttl, now))
    ensures LiveKeys(Cleaned(table, ttl, now)) <= LiveKeys(table)
  {
  }

  /** A second pass at the same time finds nothing to do. */
  lemma CleanedTwice(table: PendingTable, ttl: int, now: int)
    ensures Cleaned(Cleaned(table, ttl, now), ttl, now) == Cleaned(table, ttl, now)
  {
  }

  // ----- operations ----------------------------------------------------------------

  datatype Registration = NoSuchRun | Refused(error: StoreError) | Registered(record: PendingRecord)

  function NewRecord(ttl: int, now: int): PendingRecord {
    PendingRecord(ActiveStatus, UnixMilli(now), UnixMilli(now + ttl), 0)
  }

  function Admit(table: PendingTable, cap: int, defaultTTL: int, key: PendingKey, ttl: int, now: int)
    : (PendingTable, Registration)
  {
    if |LiveKeys(table)| >= cap then (table, Refused(ResourceExhausted))
    else
      var record := NewRecord(if ttl <= 0 then defaultTTL else ttl, now);
      (table[key := record], Registered(record))
  }

  function Register(table: PendingTable, cap: int, defaultTTL: int, key: PendingKey, ttl: int, cleanupAt: int, now: int)
    : (PendingTable, Registration)
  {
    if !ValidRunScope(key.run) || key.pendingRequestID == "" then (table, Refused(InvalidRequest))
    else
      Admit(Cleaned(table, defaultTTL, cleanupAt), cap, defaultTTL, key, ttl, now)
  }

  /** Registration for a run also needs the run to be active, and not being interrupted. */
  function RegisterForActiveRun(active: map<Scope, RunRecord>, table: PendingTable, cap: int, defaultTTL: int,
                                key: PendingKey, ttl: int, cleanupAt: int, now: int)
    : (map<Scope, RunRecord>, PendingTable, Registration)
  {
    if !ValidRunScope(key.run) || key.pendingRequestID == "" then (active, table, Refused(InvalidRequest))
    else if !Correlates(active, key.run) || active[key.run.chat].state == Interrupting
            || IsTerminal(active[key.run.chat].state)
    then (active, Cleaned(table, defaultTTL, cleanupAt), NoSuchRun)
    else
      var (t, r) := Register(table, cap, defaultTTL, key, ttl, cleanupAt, now);
      if r.Registered?
      then (active[key.run.chat := active[key.run.chat].(state := Pending, updatedAtUnixMS := UnixMilli(now))], t, r)
      else (active, t, r)
  }

  function Claim(table: PendingTable, defaultTTL: int, key: PendingKey, cleanupAt: int, now: int)
    : (PendingTable, Result<PendingRecord, StoreError>)
  {
    if !ValidRunScope(key.run) then (table, Err(InvalidRequest))
    else
      var t := Cleaned(table, defaultTTL, cleanupAt);
      if key !in t then (t, Err(PendingUnavailable))
      else if UnixMilli(now) > t[key].expiresAtUnixMS
      then (t[key := t[key].(status := ExpiredStatus)], Err(PendingUnavailable))
      else if t[key].status != ActiveStatus then (t, Err(PendingAlreadyResolved))
      else
        var record := t[key].(status := ClaimedStatus);
        (t[key := record], Ok(record))
  }

  function ReleaseClaim(table: PendingTable, defaultTTL: int, key: PendingKey, cleanupAt: int, now: int)
    : (PendingTable, Result<(), StoreError>)
  {
    if !ValidRunScope(key.run) then (table, Err(InvalidRequest))
    else
      var t := Cleaned(table, defaultTTL, cleanupAt);
      if key !in t then (t, Err(PendingUnavailable))
      else if t[key].status != ClaimedStatus then (t, Err(PendingAlreadyResolved))
      else if UnixMilli(now) > t[key].expiresAtUnixMS
      then (t[key := t[key].(status := ExpiredStatus)], Err(PendingUnavailable))
      else (t[key := t[key].(status := ActiveStatus)], Ok(()))
  }

  function Lookup(table: PendingTable, defaultTTL: int, key: PendingKey, cleanupAt: int)
    : (PendingTable, Option<PendingRecord>)
  {
    if !ValidRunScope(key.run) then (table, None)
    else
      var t := Cleaned(table, defaultTTL, cleanupAt);
      (t, if key in t && Live(t[key]) then Some(t[key]) else None)
  }

  function Resolve(table: PendingTable, defaultTTL: int, key: PendingKey, cleanupAt: int, now: int)
    : (PendingTable, Result<PendingRecord, StoreError>)
  {
    if !ValidRunScope(key.run) then (table, Err(InvalidRequest))
    else
      var t := Cleaned(table, defaultTTL, cleanupAt);
      if key !in t then (t, Err(PendingUnavailable))
      else if UnixMilli(now) > t[key].expiresAtUnixMS
      then (t[key := t[key].(status := ExpiredStatus)], Err(PendingUnavailable))
      else if !Live(t[key]) then (t, Err(PendingAlreadyResolved))
      else
        var record := t[key].(status := ResolvedStatus, resolvedAtUnixMS := UnixMilli(now));
        (t[key := record], Ok(record))
  }

  // ----- every run of the store -------------------------------------------------------

  datatype PendingOp =
    | OpRegister(key: PendingKey, ttl: int, cleanupAt: int, now: int)
    | OpClaim(key: PendingKey, cleanupAt: int, now: int)
    | OpReleaseClaim(key: PendingKey, cleanupAt: int, now: int)
    | OpLookup(key: PendingKey, cleanupAt: int)
    | OpResolve(key: PendingKey, cleanupAt: int, now: int)
    | OpCleanup(cleanupAt: int)

  /** What an operation achieved for its key. */
  datatype Outcome = DidRegister(key: PendingKey) | DidClaim(key: PendingKey) | DidRelease(key: PendingKey)
                   | DidResolve(key: PendingKey) | Nothing

  function ApplyPending(table: PendingTable, cap: int, ttl: int, op: PendingOp): (PendingTable, Outcome) {
    match op
    case OpRegister(key, own, cleanupAt, now) =>
      var (t, r) := Register(table, cap, ttl, key, own, cleanupAt, now);
      (t, if r.Registered? then DidRegister(key) else Nothing)
    case OpClaim(key, cleanupAt, now) =>
      var (t, r) := Claim(table, ttl, key, cleanupAt, now);
      (t, if r.Ok? then DidClaim(key) else Nothing)
    case OpReleaseClaim(key, cleanupAt, now) =>
      var (t, r) := ReleaseClaim(table, ttl, key, cleanupAt, now);
      (t, if r.Ok? then DidRelease(key) else Nothing)
    case OpLookup(key, cleanupAt) => (Lookup(table, ttl, key, cleanupAt).0, Nothing)
    case OpResolve(key, cleanupAt, now) =>
      var (t, r) := Resolve(table, ttl, key, cleanupAt, now);
      (t, if r.Ok? then DidResolve(key) else Nothing)
    case OpCleanup(cleanupAt) => (Cleaned(table, ttl, cleanupAt), Nothing)
  }

  function RunPending(cap: int, ttl: int, ops: seq<PendingOp>): (r: (PendingTable, seq<Outcome>)) {
    if ops == [] then (map[], [])
    else
      var before := RunPending(cap, ttl, ops[..|ops| - 1]);
      var step := ApplyPending(before.0, cap, ttl, ops[|ops| - 1]);
      (step.0, before.1 + [step.1])
  }

  /** Whether the last claim of the key is still unreleased. */
  function Held(history: seq<Outcome>, key: PendingKey): bool {
    if history == [] then false
    else match history[|history| - 1]
      case DidClaim(k) => k == key || Held(history[..|history| - 1], key)
      case DidRelease(k) => k != key && Held(history[..|history| - 1], key)
      case DidRegister(k) => k != key && Held(history[..|history| - 1], key)
      case _ => Held(history[..|history| - 1], key)
  }

  /** What one operation may do to the record of any key. */
  ghost predicate AllowedChange(before: PendingTable, after: PendingTable, outcome: Outcome, key: PendingKey) {
    if outcome == DidRegister(key) then key in after && after[key].status == ActiveStatus
    else if outcome == DidClaim(key) then
      key in before && before[key].status == ActiveStatus && key in after && after[key].status == ClaimedStatus
    else if outcome == DidRelease(key) then
      key in before && before[key].status == ClaimedStatus && key in after && after[key].status == ActiveStatus
    else if outcome == DidResolve(key) then
      key in before && Live(before[key]) && key in after && after[key].status == ResolvedStatus
    else
      key in after ==>
        && key in before
        && (after[key].status == before[key].status || after[key].status == ExpiredStatus)
  }

  lemma StepLifecycle(table: PendingTable, cap: int, ttl: int, op: PendingOp, key: PendingKey)
    requires TableOK(table)
    ensures var (t, o) := ApplyPending(table, cap, ttl, op); TableOK(t) && AllowedChange(table, t, o, key)
  {
    hide LiveKeys;
    CleanupOnlyRemoves(table, ttl, op.cleanupAt);
  }

  lemma RegisterKeepsCap(table: PendingTable, cap: nat, ttl: int, key: PendingKey, own: int, cleanupAt: int, now: int)
    requires Register(table, cap, ttl, key, own, cleanupAt, now).1.Registered?
    ensures |LiveKeys(Register(table, cap, ttl, key, own, cleanupAt, now).0)| <= cap
  {
    hide Cleaned;
    var t := Cleaned(table, ttl, cleanupAt);
    assert LiveKeys(Register(table, cap, ttl, key, own, cleanupAt, now).0) == LiveKeys(t) + {key};
  }

  lemma StepCapacity(table: PendingTable, cap: nat, ttl: int, op: PendingOp)
    requires TableOK(table) && |LiveKeys(table)| <= cap
    ensures |LiveKeys(ApplyPending(table, cap, ttl, op).0)| <= cap
  {
    hide TableOK, Register, Claim, ReleaseClaim, Lookup, Resolve, Cleaned;
    var (u, o) := ApplyPending(table, cap, ttl, op);
    if o.DidRegister? {
      RegisterKeepsCap(table, cap, ttl, op.key, op.ttl, op.cleanupAt, op.now);
    } else {
      forall k | k in LiveKeys(u) ensures k in LiveKeys(table) { StepLifecycle(table, cap, ttl, op, k); }
      SubsetSize(LiveKeys(u), LiveKeys(table));
    }
  }

  /** A key whose last claim is unreleased is not claimable. */
  ghost predicate HeldNotActive(table: PendingTable, history: seq<Outcome>) {
    forall key | key in table && Held(history, key) :: table[key].status != ActiveStatus
  }

  lemma StepHeld(table: PendingTable, history: seq<Outcome>, cap: int, ttl: int, op: PendingOp)
    requires TableOK(table) && HeldNotActive(table, history)
    ensures var (t, o) := ApplyPending(table, cap, ttl, op); HeldNotActive(t, history + [o])
  {
    hide ApplyPending;
    var (t, o) := ApplyPending(table, cap, ttl, op);
    forall key | key in t && Held(history + [o], key) ensures t[key].status != ActiveStatus {
      StepLifecycle(table, cap, ttl, op, key);
      assert (history + [o])[..|history|] == history;
    }
  }

  lemma StepTableOK(table: PendingTable, cap: int, ttl: int, op: PendingOp)
    requires TableOK(table)
    ensures TableOK(ApplyPending(table, cap, ttl, op).0)
  {
    StepLifecycle(table, cap, ttl, op, PendingKey(RunScope(Scope("", "", ""), ""), ""));
  }

  lemma StepKeepsTable(table: PendingTable, cap: nat, ttl: int, op: PendingOp)
    requires TableOK(table) && |LiveKeys(table)| <= cap
    ensures var t := ApplyPending(table, cap, ttl, op).0; TableOK(t) && |LiveKeys(t)| <= cap
  {
    hide ApplyPending;
    StepTableOK(table, cap, ttl, op);
    StepCapacity(table, cap, ttl, op);
  }

  lemma {:induction false} EveryPendingState(cap: nat, ttl: int, ops: seq<PendingOp>)
    ensures var (table, history) := RunPending(cap, ttl, ops);
            TableOK(table) && |LiveKeys(table)| <= cap && |history| == |ops| && HeldNotActive(table, history)
  {
    hide ApplyPending;
    if ops != [] {
      EveryPendingState(cap, ttl, ops[..|ops| - 1]);
      var (table, history) := RunPending(cap, ttl, ops[..|ops| - 1]);
      StepKeepsTable(table, cap, ttl, ops[|ops| - 1]);
      StepHeld(table, history, cap, ttl, ops[|ops| - 1]);
    }
  }

  /** Active plus claimed requests never exceed the cap. */
  lemma PendingCapHolds(cap: nat, ttl: int, ops: seq<PendingOp>)
    ensures |LiveKeys(RunPending(cap, ttl, ops).0)| <= cap
  {
    EveryPendingState(cap, ttl, ops);
  }

  /** In every run, a claim succeeds only when no earlier claim of that key is unreleased. */
  lemma {:induction false} ClaimsNeedRelease(cap: nat, ttl: int, ops: seq<PendingOp>, n: nat, key: PendingKey)
    requires n < |RunPending(cap, ttl, ops).1| && RunPending(cap, ttl, ops).1[n] == DidClaim(key)
    ensures !Held(RunPending(cap, ttl, ops).1[..n], key)
  {
    EveryPendingState(cap, ttl, ops);
    EveryPendingState(cap, ttl, ops[..|ops| - 1]);
    var before := RunPending(cap, ttl, ops[..|ops| - 1]);
    var history := RunPending(cap, ttl, ops).1;
    assert history[..|ops| - 1] == before.1;
    if n == |ops| - 1 {
      StepLifecycle(before.0, cap, ttl, ops[n], key);
    } else {
      ClaimsNeedRelease(cap, ttl, ops[..|ops| - 1], n, key);
      assert before.1[..n] == history[..n];
    }
  }

  lemma {:induction false} HeldUntilFreed(history: seq<Outcome>, i: nat, key: PendingKey)
    requires i < |history| && history[i] == DidClaim(key) && !Held(history, key)
    ensures exists m | i < m < |history| :: history[m] == DidRelease(key) || history[m] == DidRegister(key)
  {
    var last := |history| - 1;
    if history[last] != DidRelease(key) && history[last] != DidRegister(key) {
      HeldUntilFreed(history[..last], i, key);
    }
  }

  /** Two successful claims of one record are separated by a successful release. */
  lemma ClaimsAreSeparated(cap: nat, ttl: int, ops: seq<PendingOp>, i: nat, j: nat, key: PendingKey)
    requires var h := RunPending(cap, ttl, ops).1; i < j < |h| && h[i] == h[j] == DidClaim(key)
    ensures var h := RunPending(cap, ttl, ops).1;
            exists m | i < m < j :: h[m] == DidRelease(key) || h[m] == DidRegister(key)
  {
    hide RunPending;
    var h := RunPending(cap, ttl, ops).1;
    ClaimsNeedRelease(cap, ttl, ops, j, key);
    HeldUntilFreed(h[..j], i, key);
    var m :| i < m < j && (h[..j][m] == DidRelease(key) || h[..j][m] == DidRegister(key));
    assert h[m] == h[..j][m];
  }

  /** Resolved and expired together are absorbing: without a new registration, a record
      that is no longer live never becomes live again. */
  lemma DeadStaysDead(table: PendingTable, cap: int, ttl: int, op: PendingOp, key: PendingKey)
    requires TableOK(table) && key in table && !Live(table[key])
    ensures var (t, o) := ApplyPending(table, cap, ttl, op);
            key in t && o != DidRegister(key) ==> !Live(t[key])
  {
    StepLifecycle(table, cap, ttl, op, key);
  }

  /** A record is never deleted while it is live and unexpired. */
  lemma LiveIsKept(table: PendingTable, cap: int, ttl: int, op: PendingOp, key: PendingKey)
    requires TableOK(table) && key in table && Live(table[key])
    requires UnixMilli(op.cleanupAt) <= table[key].expiresAtUnixMS
    ensures key in ApplyPending(table, cap, ttl, op).0
  {
    hide LiveKeys;
    CleanupOnlyRemoves(table, ttl, op.cleanupAt);
  }

  /** Resolved alone is not absorbing. A record that is resolved, still kept and not
      registered anew stays resolved under an operation exactly unless that is a claim or a
      second resolve of this very record after its own expiry. */
  lemma ResolvedStaysResolvedIff(table: PendingTable, cap: int, ttl: int, op: PendingOp, key: PendingKey)
    requires TableOK(table) && key in table && table[key].status == ResolvedStatus
    requires var (t, o) := ApplyPending(table, cap, ttl, op); key in t && o != DidRegister(key)
    ensures var t := ApplyPending(table, cap, ttl, op).0;
            t[key].status == ResolvedStatus <==>
              !((op.OpClaim? || op.OpResolve?) && op.key == key && ValidRunScope(key.run)
                && UnixMilli(op.now) > table[key].expiresAtUnixMS)
  {
    hide LiveKeys;
    CleanupOnlyRemoves(table, ttl, op.cleanupAt);
  }

  /** And both do reach a retained record: registered at 1 ms for 10 ms, resolved at 5 ms,
      kept until 15 ms, claimed or resolved again at 12 ms. */
  lemma ResolvedCanExpire(run: RunScope)
    requires ValidRunScope(run)
    ensures var key := PendingKey(run, "p"); var ttl := 10 * NANOS_PER_MILLI; var late := 12 * NANOS_PER_MILLI;
            var resolved := PendingRecord(ResolvedStatus, 1, 11, 5);
            && Resolve(map[key := NewRecord(ttl, NANOS_PER_MILLI)], ttl, key, 5 * NANOS_PER_MILLI, 5 * NANOS_PER_MILLI)
               == (map[key := resolved], Ok(resolved))
            && Claim(map[key := resolved], ttl, key, late, late).0 == map[key := resolved.(status := ExpiredStatus)]
            && Resolve(map[key := resolved], ttl, key, late, late).0 == map[key := resolved.(status := ExpiredStatus)]
  {
    var key := PendingKey(run, "p");
    var ttl := 10 * NANOS_PER_MILLI;
    var newborn, resolved := NewRecord(ttl, NANOS_PER_MILLI), PendingRecord(ResolvedStatus, 1, 11, 5);
    assert Cleaned(map[key := newborn], ttl, 5 * NANOS_PER_MILLI) == map[key := newborn];
    assert map[key := newborn][key := resolved] == map[key := resolved];
    assert Cleaned(map[key := resolved], ttl, 12 * NANOS_PER_MILLI) == map[key := resolved];
    assert map[key := resolved][key := resolved.(status := ExpiredStatus)] == map[key := resolved.(status := ExpiredStatus)];
  }

  // ----- the verdicts, from what is kept at the time of the call ---------------------------------------------

  /** Open requests are kept until they expire, resolved ones for the time to live after they
      were resolved, and others until their expiry. */
  predicate Kept(table: PendingTable, key: PendingKey, ttl: int, at: int) {
    && key in table
    && var record := table[key];
       match record.status
       case ActiveStatus => at / 1_000_000 <= record.expiresAtUnixMS
       case ClaimedStatus => at / 1_000_000 <= record.expiresAtUnixMS
       case _ =>
         if record.resolvedAtUnixMS > 0 then at <= record.resolvedAtUnixMS * 1_000_000 + ttl
         else at <= record.expiresAtUnixMS * 1_000_000
  }

  /** `after` is what is kept of the table, but for one record. */
  ghost predicate OnlyKept(table: PendingTable, after: PendingTable, ttl: int, at: int, but: Option<PendingKey>) {
    forall k | but != Some(k) :: (k in after <==> Kept(table, k, ttl, at)) && (k in after ==> after[k] == table[k])
  }

  lemma CleanedAreKept(table: PendingTable, ttl: int, at: int)
    requires TableOK(table)
    ensures OnlyKept(table, Cleaned(table, ttl, at), ttl, at, None)
  {
  }

  /** The open requests that are kept. */
  ghost function OpenKept(table: PendingTable, ttl: int, at: int): set<PendingKey> {
    set k | k in table && Kept(table, k, ttl, at) && (table[k].status == ActiveStatus || table[k].status == ClaimedStatus)
  }

  lemma LiveAreOpenKept(table: PendingTable, ttl: int, at: int)
    requires TableOK(table)
    ensures LiveKeys(Cleaned(table, ttl, at)) == OpenKept(table, ttl, at)
  {
    CleanedAreKept(table, ttl, at);
    hide Cleaned, Kept;
  }

  /** A request is registered exactly if it is named and fewer than the cap are open; it is
      open from now on for its own time, or the store's if it has none. */
  lemma RegistrationVerdict(table: PendingTable, cap: int, ttl: int, key: PendingKey, own: int, at: int, now: int)
    requires TableOK(table)
    ensures var (t, r) := Register(table, cap, ttl, key, own, at, now);
            if !Named(key.run) || key.pendingRequestID == "" then t == table && r == Refused(InvalidRequest)
            else if |OpenKept(table, ttl, at)| >= cap then
              OnlyKept(table, t, ttl, at, None) && r == Refused(ResourceExhausted)
            else
              && OnlyKept(table, t, ttl, at, Some(key)) && key in t && r == Registered(t[key])
              && t[key] == PendingRecord(ActiveStatus, now / 1_000_000, (now + if own > 0 then own else ttl) / 1_000_000, 0)
  {
    hide Cleaned, Kept, LiveKeys;
    CleanedAreKept(table, ttl, at);
    LiveAreOpenKept(table, ttl, at);
  }

  /** For a run, a request is registered only while this run is the chat's run, not over and
      not being interrupted; then the run is pending, and nothing else about runs changes. */
  lemma RegistrationForRunVerdict(active: map<Scope, RunRecord>, table: PendingTable, cap: int, ttl: int, key: PendingKey,
                                  own: int, at: int, now: int)
    requires TableOK(table)
    ensures var (a, t, r) := RegisterForActiveRun(active, table, cap, ttl, key, own, at, now); var chat := key.run.chat;
            var open := chat in active && active[chat].runID == key.run.runID
                        && match active[chat].state
                           case Starting => true
                           case Running => true
                           case Pending => true
                           case _ => false;
            if !Named(key.run) || key.pendingRequestID == "" then a == active && t == table && r == Refused(InvalidRequest)
            else if !open then a == active && OnlyKept(table, t, ttl, at, None) && r == NoSuchRun
            else
              && (t, r) == Register(table, cap, ttl, key, own, at, now)
              && a == (if |OpenKept(table, ttl, at)| >= cap then active
                       else active[chat := active[chat].(state := Pending, updatedAtUnixMS := now / 1_000_000)])
  {
    hide Cleaned, Kept, LiveKeys, Register;
    CleanedAreKept(table, ttl, at);
    RegistrationVerdict(table, cap, ttl, key, own, at, now);
  }

  /** Why a claim, a release of it, or a resolution is refused: the request is not kept, or it
      is too late, or it is not in the state that the operation needs. */
  ghost predicate Refuses<T>(table: PendingTable, t: PendingTable, r: Result<T, StoreError>, ttl: int, key: PendingKey,
                             at: int, now: int, fits: bool)
  {
    if !Named(key.run) then t == table && r == Err(InvalidRequest)
    else if !Kept(table, key, ttl, at) then OnlyKept(table, t, ttl, at, None) && r == Err(PendingUnavailable)
    else if now / 1_000_000 > table[key].expiresAtUnixMS then
      && OnlyKept(table, t, ttl, at, Some(key)) && key in t && t[key] == table[key].(status := ExpiredStatus)
      && r == Err(PendingUnavailable)
    else !fits && OnlyKept(table, t, ttl, at, None) && r == Err(PendingAlreadyResolved)
  }

  lemma ClaimVerdict(table: PendingTable, ttl: int, key: PendingKey, at: int, now: int)
    requires TableOK(table)
    ensures var (t, r) := Claim(table, ttl, key, at, now);
            if Named(key.run) && Kept(table, key, ttl, at) && now / 1_000_000 <= table[key].expiresAtUnixMS
               && table[key].status == ActiveStatus
            then
              && r == Ok(table[key].(status := ClaimedStatus)) && OnlyKept(table, t, ttl, at, Some(key))
              && key in t && t[key] == r.value
            else Refuses(table, t, r, ttl, key, at, now, false)
  {
    hide Cleaned, Kept;
    CleanedAreKept(table, ttl, at);
  }

  /** The release alone looks at the state before it looks at the time. */
  lemma ReleaseVerdict(table: PendingTable, ttl: int, key: PendingKey, at: int, now: int)
    requires TableOK(table)
    ensures var (t, r) := ReleaseClaim(table, ttl, key, at, now);
            if Named(key.run) && Kept(table, key, ttl, at) && table[key].status != ClaimedStatus then
              OnlyKept(table, t, ttl, at, None) && r == Err(PendingAlreadyResolved)
            else if Named(key.run) && Kept(table, key, ttl, at) && now / 1_000_000 <= table[key].expiresAtUnixMS then
              && r == Ok(()) && OnlyKept(table, t, ttl, at, Some(key))
              && key in t && t[key] == table[key].(status := ActiveStatus)
            else Refuses(table, t, r, ttl, key, at, now, true)
  {
    hide Cleaned, Kept;
    CleanedAreKept(table, ttl, at);
  }

  lemma ResolutionVerdict(table: PendingTable, ttl: int, key: PendingKey, at: int, now: int)
    requires TableOK(table)
    ensures var (t, r) := Resolve(table, ttl, key, at, now);
            if Named(key.run) && Kept(table, key, ttl, at) && now / 1_000_000 <= table[key].expiresAtUnixMS
               && (table[key].status == ActiveStatus || table[key].status == ClaimedStatus)
            then
              && r == Ok(table[key].(status := ResolvedStatus, resolvedAtUnixMS := now / 1_000_000))
              && OnlyKept(table, t, ttl, at, Some(key)) && key in t && t[key] == r.value
            else Refuses(table, t, r, ttl, key, at, now, false)
  {
    hide Cleaned, Kept;
    CleanedAreKept(table, ttl, at);
  }

  /** A lookup finds exactly the open requests that are kept. */
  lemma LookupVerdict(table: PendingTable, ttl: int, key: PendingKey, at: int)
    requires TableOK(table)
    ensures var (t, r) := Lookup(table, ttl, key, at);
            && (if Named(key.run) then OnlyKept(table, t, ttl, at, None) else t == table)
            && r == if Named(key.run) && key in OpenKept(table, ttl, at) then Some(table[key]) else None
  {
    hide Cleaned;
    CleanedAreKept(table, ttl, at);
  }
}
