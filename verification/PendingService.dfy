/** The service's side of answering pending requests: its own records under its own lock, on
    top of the store. The contracts tie each locked section to the steps of PendingProtocol
    for the request it is about; records of other requests stay as they are. */
module PendingService {
  import opened Common
  import opened ReplayModel
  import RunsModel
  import FM = FeedModel
  import PM = PendingModel
  import opened PendingProtocol
  import ChatState

  /** The outcome of claiming: this call writes the answer, waits for the one that does, or
      is refused. */
  datatype ClaimResult = Writes | WaitsFor(client: string) | Refused

  function TrackedOf(records: map<PM.PendingKey, Tracked>, key: PM.PendingKey): Option<Tracked> {
    if key in records then Some(records[key]) else None
  }

  ghost predicate OthersKept(before: map<PM.PendingKey, Tracked>, after: map<PM.PendingKey, Tracked>, key: PM.PendingKey) {
    after - {key} == before - {key}
  }

  /** What a responder at this point is told. */
  function ResultAt(pc: Pc): ClaimResult {
    match pc
    case Claimed(_) => Writes
    case Waiting(client) => WaitsFor(client)
    case _ => Refused
  }

  lemma StoreResults(client: string)
    ensures ResultAt(Claimed(client)) == Writes && ResultAt(Done) == Refused
  {
  }

  /** Whether a claim is decided by the service's own record alone. */
  predicate Decided(tracked: Option<Tracked>, client: string, runKnown: bool) {
    !runKnown || tracked.None? || client in tracked.value.responses || !tracked.value.active || tracked.value.inFlight != ""
  }

  /** What it decides: to wait for the same answer, or to refuse. */
  function DecisionFor(tracked: Option<Tracked>, client: string, idempotencyKey: string, runKnown: bool): Pc {
    if runKnown && tracked.Some? && client in tracked.value.responses
       && tracked.value.responses[client].idempotencyKey == idempotencyKey
       && tracked.value.responses[client].state != WriteFailed
    then Waiting(client) else Done
  }

  lemma BeginFields(w: World, c: Config, t: nat, client: string, idempotencyKey: string, runKnown: bool, cleanupAt: int, now: int)
    ensures var v := BeginStep(w, c, t, client, idempotencyKey, runKnown, cleanupAt, now);
            if Decided(w.tracked, client, runKnown) then
              && v.table == w.table && v.tracked == w.tracked && v.mu == w.mu
              && At(v, t) == DecisionFor(w.tracked, client, idempotencyKey, runKnown)
            else
              var (table, r) := PM.Claim(w.table, c.ttl, c.key, cleanupAt, now);
              && v.table == table
              && (if r.Err? then v.tracked == None && v.mu == w.mu && At(v, t) == Done
                  else v.tracked == w.tracked && v.mu == Some(t) && At(v, t) == Claiming(client, idempotencyKey))
  {
    hide PM.Claim;
  }

  function InFlight(tracked: Tracked, client: string, idempotencyKey: string): Tracked {
    Tracked(tracked.active, client, tracked.responses[client := PendingProtocol.Entry(idempotencyKey, Responding)])
  }

  lemma ValidateFields(w: World, c: Config, t: nat, ok: bool, cleanupAt: int, now: int)
    requires At(w, t).Claiming? && w.tracked.Some?
    ensures var v := ValidateStep(w, c, t, ok, cleanupAt, now);
            && v.mu == None
            && (if ok then
                  && v.table == w.table && At(v, t) == Claimed(At(w, t).client)
                  && v.tracked == Some(InFlight(w.tracked.value, At(w, t).client, At(w, t).idempotencyKey))
                else
                  && v.table == PM.ReleaseClaim(w.table, c.ttl, c.key, cleanupAt, now).0
                  && At(v, t) == Done && v.tracked == w.tracked)
  {
    hide PM.ReleaseClaim;
  }

  /** Claiming without interference: both steps under the one lock. */
  function Claimings(w: World, c: Config, t: nat, client: string, idempotencyKey: string, runKnown: bool, accepts: bool,
                     times: nat -> int): World
  {
    var begun := BeginStep(w, c, t, client, idempotencyKey, runKnown, times(0), times(1));
    if At(begun, t).Claiming? then ValidateStep(begun, c, t, accepts, times(2), times(3)) else begun
  }

  lemma ClaimFields(w: World, c: Config, t: nat, client: string, idempotencyKey: string, runKnown: bool, accepts: bool,
                    times: nat -> int)
    requires w.mu.None?
    ensures var v := Claimings(w, c, t, client, idempotencyKey, runKnown, accepts, times);
            && v.mu == None
            && if Decided(w.tracked, client, runKnown) then
                 && v.table == w.table && v.tracked == w.tracked
                 && At(v, t) == DecisionFor(w.tracked, client, idempotencyKey, runKnown)
               else
                 var (table, r) := PM.Claim(w.table, c.ttl, c.key, times(0), times(1));
                 && At(v, t) == (if r.Ok? && accepts then Claimed(client) else Done)
                 && v.table == (if r.Ok? && !accepts then PM.ReleaseClaim(table, c.ttl, c.key, times(2), times(3)).0 else table)
                 && v.tracked == (if r.Err? then None
                                  else if accepts then Some(InFlight(w.tracked.value, client, idempotencyKey)) else w.tracked)
  {
    hide PM.Claim, PM.ReleaseClaim, BeginStep, ValidateStep;
    BeginFields(w, c, t, client, idempotencyKey, runKnown, times(0), times(1));
    var begun := BeginStep(w, c, t, client, idempotencyKey, runKnown, times(0), times(1));
    if At(begun, t).Claiming? {
      assert PM.Claim(w.table, c.ttl, c.key, times(0), times(1)).1.Ok?;
      ValidateFields(begun, c, t, accepts, times(2), times(3));
    }
  }

  lemma CompleteFields(w: World, c: Config, t: nat, client: string, written: bool, cleanupAt: int, now: int)
    requires At(w, t) == Wrote(client, written)
    ensures var v := Completed(w, c, t, cleanupAt, now);
            && At(v, t).Done?
            && (if w.tracked.None? then v.table == w.table && v.tracked == None
                else if written then v.table == PM.Resolve(w.table, c.ttl, c.key, cleanupAt, now).0 && v.tracked == None
                else
                  && v.table == PM.ReleaseClaim(w.table, c.ttl, c.key, cleanupAt, now).0
                  && v.tracked == Some(w.tracked.value.(inFlight := "", responses := Failing(w.tracked.value.responses, client))))
  {
    hide PM.ReleaseClaim, PM.Resolve;
  }

  function Failing(responses: map<string, PendingProtocol.Entry>, client: string): map<string, PendingProtocol.Entry> {
    if client in responses then responses[client := responses[client].(state := WriteFailed)] else responses
  }

  /** Completing without interference: the locked section of the service and that of the store. */
  function Completed(w: World, c: Config, t: nat, cleanupAt: int, now: int): World
    requires At(w, t).Wrote?
  {
    var v := CompleteStep(w, t);
    if At(v, t).Releasing? then Step(v, c, ReleaseStore(t, cleanupAt, now))
    else if At(v, t).Resolving? then Step(v, c, ResolveStore(t, cleanupAt, now)) else v
  }

  class Service {
    const store: ChatState.Store
    var pendingRecords: map<PM.PendingKey, Tracked>

    constructor (store: ChatState.Store)
      ensures this.store == store && pendingRecords == map[]
    {
      this.store := store;
      pendingRecords := map[];
    }

    /** Service and store are in the state of the model for this request. */
    ghost predicate Shows(w: World, c: Config)
      reads this, store
    {
      w.table == store.pending && w.tracked == TrackedOf(pendingRecords, c.key) && c.ttl == store.limits.pendingTTL
    }

    /** The end of handling a forwarded request: the service starts to track it. */
    method Track(key: PM.PendingKey)
      modifies this
      ensures TrackedOf(pendingRecords, key) == Some(Tracked(true, "", map[]))
      ensures OthersKept(old(pendingRecords), pendingRecords, key)
    {
      pendingRecords := pendingRecords[key := Tracked(true, "", map[])];
    }

    /** Claiming, under the service lock all the way. */
    method ClaimChatPendingResponse(key: PM.PendingKey, client: string, idempotencyKey: string, runKnown: bool, accepts: bool,
                                    times: nat -> int, ghost w: World, ghost c: Config, ghost t: nat)
      returns (r: ClaimResult)
      requires store.Valid() && Shows(w, c) && c.key == key && w.mu.None? && At(w, t).Idle?
      modifies this, store`pending, store`idempotency
      ensures var v := Claimings(w, c, t, client, idempotencyKey, runKnown, accepts, times);
              && store.Valid() && Shows(v, c) && v.mu.None? && OthersKept(old(pendingRecords), pendingRecords, key)
              && r == ResultAt(At(v, t))
    {
      hide FM.FeedOK, PM.TableOK, PM.Claim, PM.ReleaseClaim, Claimings, Decided, DecisionFor, ResultAt, InFlight;
      ClaimFields(w, c, t, client, idempotencyKey, runKnown, accepts, times);
      var decided := DecideFromRecord(key, client, idempotencyKey, runKnown);
      if decided.Some? { return decided.value; }
      StoreResults(client);
      var writes := ClaimFromStore(key, client, idempotencyKey, accepts, times);
      r := if writes then Writes else Refused;
    }

    /** What the service's own record decides: a known answer, a busy or unknown request. */
    method DecideFromRecord(key: PM.PendingKey, client: string, idempotencyKey: string, runKnown: bool)
      returns (r: Option<ClaimResult>)
      ensures r.Some? <==> Decided(TrackedOf(pendingRecords, key), client, runKnown)
      ensures r.Some? ==>
                r.value == ResultAt(DecisionFor(TrackedOf(pendingRecords, key), client, idempotencyKey, runKnown))
      ensures r.None? ==> key in pendingRecords
    {
      if !runKnown { return Some(Refused); }
      if key !in pendingRecords { return Some(Refused); }
      var tracked := pendingRecords[key];
      if client in tracked.responses {
        var existing := tracked.responses[client];
        if existing.idempotencyKey != idempotencyKey { return Some(Refused); }
        if existing.state == Responding { return Some(WaitsFor(client)); }
        if existing.state == WriteFailed { return Some(Refused); }
        return Some(WaitsFor(client));
      }
      if !tracked.active || tracked.inFlight != "" { return Some(Refused); }
      r := None;
    }

    /** The part of a claim that takes the store's claim, and gives it back for an answer of
        the wrong type or shape. */
    method ClaimFromStore(key: PM.PendingKey, client: string, idempotencyKey: string, accepts: bool, times: nat -> int)
      returns (writes: bool)
      requires store.Valid() && key in pendingRecords
      modifies this, store`pending, store`idempotency
      ensures var ttl := store.limits.pendingTTL; var (table, r) := PM.Claim(old(store.pending), ttl, key, times(0), times(1));
              && store.Valid() && (writes <==> r.Ok? && accepts)
              && store.pending == (if r.Ok? && !accepts then PM.ReleaseClaim(table, ttl, key, times(2), times(3)).0 else table)
              && pendingRecords == (if r.Err? then old(pendingRecords) - {key}
                                    else if accepts
                                    then old(pendingRecords)[key := InFlight(old(pendingRecords)[key], client, idempotencyKey)]
                                    else old(pendingRecords))
    {
      hide FM.FeedOK, PM.Claim, PM.ReleaseClaim;
      var claimed := store.ClaimPendingResolution(key, times(0), times(1));
      if claimed.Err? {
        pendingRecords := pendingRecords - {key};
        return false;
      }
      if !accepts {
        var released := store.ReleasePendingResolutionClaim(key, times(2), times(3));
        return false;
      }
      var tracked := pendingRecords[key];
      var entry := PendingProtocol.Entry(idempotencyKey, Responding);
      tracked := tracked.(responses := tracked.responses[client := entry]);
      tracked := tracked.(inFlight := client);
      pendingRecords := pendingRecords[key := tracked];
      writes := true;
    }

    /** Completing: a locked section of the service, and then one of the store. */
    method CompleteChatPendingResponse(key: PM.PendingKey, client: string, written: bool, cleanupAt: int, now: int,
                                       ghost w: World, ghost c: Config, ghost t: nat)
      returns (accepted: bool)
      requires store.Valid() && Shows(w, c) && c.key == key && w.mu.None? && At(w, t) == Wrote(client, written)
      modifies this, store`pending, store`idempotency
      ensures var v := Completed(w, c, t, cleanupAt, now);
              && store.Valid() && Shows(v, c) && At(v, t).Done? && OthersKept(old(pendingRecords), pendingRecords, key)
      ensures accepted ==> written && key in old(pendingRecords) && key !in pendingRecords
    {
      hide FM.FeedOK, PM.TableOK, PM.Resolve, PM.ReleaseClaim, Completed, Failing;
      CompleteFields(w, c, t, client, written, cleanupAt, now);
      if key !in pendingRecords { return false; }
      EndResponse(key, client, written);
      if !written {
        var released := store.ReleasePendingResolutionClaim(key, cleanupAt, now);
        return false;
      }
      var resolved := store.ResolvePending(key, cleanupAt, now);
      accepted := resolved.Ok?;
    }

    /** The locked section of completing: after a failed write the request may be answered
        again, though not by this client; after a successful one it is forgotten. */
    method EndResponse(key: PM.PendingKey, client: string, written: bool)
      requires key in pendingRecords
      modifies this
      ensures pendingRecords ==
              var record := old(pendingRecords)[key];
              if written then old(pendingRecords) - {key}
              else old(pendingRecords)[key := record.(inFlight := "", responses := Failing(record.responses, client))]
    {
      var tracked := pendingRecords[key];
      tracked := tracked.(inFlight := "");
      if written {
        pendingRecords := pendingRecords - {key};
        return;
      }
      if client in tracked.responses {
        tracked := tracked.(responses := tracked.responses[client := tracked.responses[client].(state := WriteFailed)]);
      }
      pendingRecords := pendingRecords[key := tracked];
    }

    /** Drops every record whose request the store no longer shows as answerable. */
    method CleanupStalePendingRecords(cleanupAt: int)
      requires store.Valid()
      modifies this, store`pending, store`idempotency
      ensures store.Valid()
      ensures forall k :: k in pendingRecords <==>
                          k in old(pendingRecords) && PM.Lookup(old(store.pending), store.limits.pendingTTL, k, cleanupAt).1.Some?
      ensures forall k | k in pendingRecords :: pendingRecords[k] == old(pendingRecords)[k]
    {
      hide FM.FeedOK;
      var keys := pendingRecords.Keys;
      while keys != {}
        invariant store.Valid() && keys <= old(pendingRecords).Keys
        invariant store.pending == old(store.pending)
                  || store.pending == PM.Cleaned(old(store.pending), store.limits.pendingTTL, cleanupAt)
        invariant forall k :: k in pendingRecords <==>
                    k in old(pendingRecords)
                    && (k in keys || PM.Lookup(old(store.pending), store.limits.pendingTTL, k, cleanupAt).1.Some?)
        invariant forall k | k in pendingRecords :: pendingRecords[k] == old(pendingRecords)[k]
        decreases |keys|
      {
        var k :| k in keys;
        keys := keys - {k};
        PM.CleanedTwice(old(store.pending), store.limits.pendingTTL, cleanupAt);
        var found := store.Pending(k, cleanupAt);
        if found.None? { pendingRecords := pendingRecords - {k}; }
      }
    }
  }
}
