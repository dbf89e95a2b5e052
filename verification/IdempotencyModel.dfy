/** Idempotency entries of the chat state store. The lookup key leaves out the operation,
    the pending request and the client message id; those must match in the entry. */
module IdempotencyModel {
  import opened Common
  import opened ReplayModel
  import opened RunsModel

  datatype ResultRef = ResultRef(chatID: string, runID: string, status: RunState, lastEventID: nat, eventCursor: string)

  datatype EntryState = InFlight | Succeeded(result: ResultRef)

  datatype Entry = Entry(scope: IdempotencyScope, state: EntryState, createdAtUnixMS: int, updatedAtUnixMS: int)

  datatype StoreKey = StoreKey(sessionGroupID: string, workspaceID: string, chatID: string, key: string)

  type Entries = map<StoreKey, Entry>

  function KeyOf(scope: IdempotencyScope): StoreKey {
    StoreKey(scope.sessionGroupID, scope.workspaceID, scope.chatID, scope.key)
  }

  predicate Stale(entry: Entry, ttl: int, now: int) {
    entry.state.Succeeded? && now > entry.updatedAtUnixMS * NANOS_PER_MILLI + ttl
  }

  function CleanedEntries(entries: Entries, ttl: int, now: int): Entries {
    map k | k in entries && !Stale(entries[k], ttl, now) :: entries[k]
  }

  datatype Reservation = Fresh(entry: Entry) | Reused(entry: Entry) | NotReserved(error: StoreError)

  function Reserve(entries: Entries, cap: int, ttl: int, scope: IdempotencyScope, cleanupAt: int, now: int)
    : (Entries, Reservation)
  {
    if !ValidIdempotencyScope(scope) then (entries, NotReserved(InvalidRequest))
    else
      var e := CleanedEntries(entries, ttl, cleanupAt);
      var k := KeyOf(scope);
      if k in e then (e, if e[k].scope == scope then Reused(e[k]) else NotReserved(IdempotencyScopeMismatch))
      else if |e| >= cap then (e, NotReserved(ResourceExhausted))
      else
        var entry := Entry(scope, InFlight, UnixMilli(now), UnixMilli(now));
        (e[k := entry], Fresh(entry))
  }

  function Complete(entries: Entries, ttl: int, scope: IdempotencyScope, result: ResultRef, cleanupAt: int, now: int)
    : (Entries, Result<Entry, StoreError>)
  {
    if !ValidIdempotencyScope(scope) then (entries, Err(InvalidRequest))
    else
      var e := CleanedEntries(entries, ttl, cleanupAt);
      var k := KeyOf(scope);
      if k !in e || e[k].scope != scope then (e, Err(IdempotencyUnavailable))
      else
        var entry := e[k].(state := Succeeded(result), updatedAtUnixMS := UnixMilli(now));
        (e[k := entry], Ok(entry))
  }

  function ReleaseKey(entries: Entries, ttl: int, scope: IdempotencyScope, cleanupAt: int)
    : (Entries, Result<(), StoreError>)
  {
    if !ValidIdempotencyScope(scope) then (entries, Err(InvalidRequest))
    else
      var e := CleanedEntries(entries, ttl, cleanupAt);
      var k := KeyOf(scope);
      if k !in e || e[k].scope != scope || e[k].state != InFlight then (e, Err(IdempotencyUnavailable))
      else (e - {k}, Ok(()))
  }

  /** Cleanup drops only succeeded entries; a key in flight is never lost to time. */
  lemma InFlightIsKept(entries: Entries, ttl: int, now: int, k: StoreKey)
    requires k in entries && entries[k].state == InFlight
    ensures k in CleanedEntries(entries, ttl, now) && CleanedEntries(entries, ttl, now)[k] == entries[k]
  {
  }

  /** A key given back can be reserved again at once. */
  lemma ReleasedKeyIsFree(entries: Entries, cap: int, ttl: int, scope: IdempotencyScope, cleanupAt: int, now: int)
    requires ValidIdempotencyScope(scope) && KeyOf(scope) in entries && |entries| <= cap
    requires entries[KeyOf(scope)].scope == scope && entries[KeyOf(scope)].state == InFlight
    ensures Reserve(ReleaseKey(entries, ttl, scope, cleanupAt).0, cap, ttl, scope, cleanupAt, now).1.Fresh?
  {
    var k := KeyOf(scope);
    var released := ReleaseKey(entries, ttl, scope, cleanupAt).0;
    assert released == CleanedEntries(entries, ttl, cleanupAt) - {k};
    var again := CleanedEntries(released, ttl, cleanupAt);
    SubsetSize(again.Keys, entries.Keys - {k});
  }

  lemma CleanupShrinks(entries: Entries, ttl: int, now: int)
    ensures |CleanedEntries(entries, ttl, now)| <= |entries|
  {
    SubsetSize(CleanedEntries(entries, ttl, now).Keys, entries.Keys);
  }

  lemma RemovalShrinks(entries: Entries, k: StoreKey)
    ensures |entries - {k}| <= |entries|
  {
    SubsetSize((entries - {k}).Keys, entries.Keys);
  }

  // ----- the verdicts, from the entries that are still alive -------------------------------------------

  /** The entry under these parts of a scope. */
  function SlotOf(scope: IdempotencyScope): StoreKey {
    StoreKey(scope.sessionGroupID, scope.workspaceID, scope.chatID, scope.key)
  }

  /** In flight without limit of time; a result for the time to live after its publication. */
  predicate Alive(entries: Entries, k: StoreKey, ttl: int, at: int) {
    k in entries && (entries[k].state == InFlight || at <= entries[k].updatedAtUnixMS * 1_000_000 + ttl)
  }

  ghost function AliveKeys(entries: Entries, ttl: int, at: int): set<StoreKey> {
    set k | k in entries && Alive(entries, k, ttl, at)
  }

  /** `after` are the entries alive at that time, but for one slot. */
  ghost predicate OnlyAlive(entries: Entries, after: Entries, ttl: int, at: int, but: Option<StoreKey>) {
    forall k | but != Some(k) ::
      (k in after <==> Alive(entries, k, ttl, at)) && (k in after ==> after[k] == entries[k])
  }

  lemma CleanedAreAlive(entries: Entries, ttl: int, at: int)
    ensures OnlyAlive(entries, CleanedEntries(entries, ttl, at), ttl, at, None)
    ensures |CleanedEntries(entries, ttl, at)| == |AliveKeys(entries, ttl, at)|
  {
    assert CleanedEntries(entries, ttl, at).Keys == AliveKeys(entries, ttl, at);
  }

  /** A reservation finds the living entry of its slot, of its own scope or of another one;
      it makes a new one exactly if there is none and fewer than the cap are alive. */
  lemma ReservationVerdict(entries: Entries, cap: int, ttl: int, scope: IdempotencyScope, at: int, now: int)
    ensures var (after, r) := Reserve(entries, cap, ttl, scope, at, now); var k := SlotOf(scope);
            if scope.sessionGroupID == "" || scope.workspaceID == "" || scope.key == ""
            then after == entries && r == NotReserved(InvalidRequest)
            else if Alive(entries, k, ttl, at) then
              && OnlyAlive(entries, after, ttl, at, None)
              && r == if entries[k].scope == scope then Reused(entries[k]) else NotReserved(IdempotencyScopeMismatch)
            else if |AliveKeys(entries, ttl, at)| >= cap then
              OnlyAlive(entries, after, ttl, at, None) && r == NotReserved(ResourceExhausted)
            else
              && OnlyAlive(entries, after, ttl, at, Some(k)) && k in after && r == Fresh(after[k])
              && after[k] == Entry(scope, InFlight, now / 1_000_000, now / 1_000_000)
  {
    hide CleanedEntries, Alive;
    CleanedAreAlive(entries, ttl, at);
  }

  /** Publishing needs the living entry of the caller's own scope; a result published again
      replaces the first one and lives from then. */
  lemma PublicationVerdict(entries: Entries, ttl: int, scope: IdempotencyScope, result: ResultRef, at: int, now: int)
    ensures var (after, r) := Complete(entries, ttl, scope, result, at, now); var k := SlotOf(scope);
            if scope.sessionGroupID == "" || scope.workspaceID == "" || scope.key == ""
            then after == entries && r == Err(InvalidRequest)
            else if Alive(entries, k, ttl, at) && entries[k].scope == scope then
              && OnlyAlive(entries, after, ttl, at, Some(k)) && k in after && r == Ok(after[k])
              && after[k] == Entry(scope, Succeeded(result), entries[k].createdAtUnixMS, now / 1_000_000)
            else OnlyAlive(entries, after, ttl, at, None) && r == Err(IdempotencyUnavailable)
  {
    hide CleanedEntries, Alive;
    CleanedAreAlive(entries, ttl, at);
  }

  /** Only an entry in flight is given back, and only by its own scope. */
  lemma ReleaseVerdict(entries: Entries, ttl: int, scope: IdempotencyScope, at: int)
    ensures var (after, r) := ReleaseKey(entries, ttl, scope, at); var k := SlotOf(scope);
            if scope.sessionGroupID == "" || scope.workspaceID == "" || scope.key == ""
            then after == entries && r == Err(InvalidRequest)
            else if k in entries && entries[k].state == InFlight && entries[k].scope == scope then
              OnlyAlive(entries, after, ttl, at, Some(k)) && k !in after && r == Ok(())
            else OnlyAlive(entries, after, ttl, at, None) && r == Err(IdempotencyUnavailable)
  {
    hide CleanedEntries;
    CleanedAreAlive(entries, ttl, at);
  }
}
