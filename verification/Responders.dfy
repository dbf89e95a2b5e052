/** What each responder to a pending request meets and leaves behind, told from the service's
    record of the request and from what the store still keeps. */
module Responders {
  import opened Common
  import opened ReplayModel
  import opened RunsModel
  import opened PendingModel
  import opened PendingProtocol

  /** The step moves this responder and nothing else. */
  ghost predicate MovesTo(w: World, v: World, t: nat, pc: Pc) {
    v == w.(threads := w.threads[t := pc])
  }

  /** The store would still give out the claim. */
  predicate Claimable(w: World, c: Config, at: int, now: int) {
    && Kept(w.table, c.key, c.ttl, at) && w.table[c.key].status == ActiveStatus
    && now / 1_000_000 <= w.table[c.key].expiresAtUnixMS
  }

  /** A responder finds the request unknown, or its own earlier answer, which it joins under
      the same key unless that failed, or somebody else's answer in flight; in all these cases
      nothing changes. Otherwise it takes the store's claim and goes on under the service's
      lock, or the store refuses, and the service forgets the request. */
  ghost predicate Meets(w: World, v: World, c: Config, t: nat, client: string, idempotencyKey: string, runKnown: bool, at: int, now: int) {
    if !runKnown || w.tracked.None? then MovesTo(w, v, t, Done)
    else if client in w.tracked.value.responses then
      var mine := w.tracked.value.responses[client];
      MovesTo(w, v, t, if mine.idempotencyKey == idempotencyKey && mine.state != WriteFailed then Waiting(client) else Done)
    else if w.tracked.value.inFlight != "" then MovesTo(w, v, t, Done)
    else if Claimable(w, c, at, now) then
      && v == w.(table := v.table, mu := Some(t), threads := w.threads[t := Claiming(client, idempotencyKey)])
      && OnlyKept(w.table, v.table, c.ttl, at, Some(c.key)) && c.key in v.table
      && v.table[c.key] == w.table[c.key].(status := ClaimedStatus)
    else
      && v == w.(table := v.table, tracked := None, threads := w.threads[t := Done])
      && OnlyKept(w.table, v.table, c.ttl, at, Some(c.key))
      && (c.key in v.table ==> v.table[c.key].status != ActiveStatus)
  }

  lemma BeginMeets(w: World, c: Config, t: nat, client: string, idempotencyKey: string, runKnown: bool, at: int, now: int)
    requires TableOK(w.table) && Named(c.key.run)
    requires w.tracked.Some? ==> w.tracked.value.active
    ensures Meets(w, BeginStep(w, c, t, client, idempotencyKey, runKnown, at, now), c, t, client, idempotencyKey, runKnown, at, now)
  {
    ClaimVerdict(w.table, c.ttl, c.key, at, now);
    RefusedIsNotActive(w.table, c.ttl, c.key, at, now);
    hide Claim, Kept, TableOK, OnlyKept, Refuses;
  }

  /** What a refused claim leaves in the store. */
  lemma RefusedIsNotActive(table: PendingTable, ttl: int, key: PendingKey, at: int, now: int)
    requires TableOK(table) && Named(key.run)
    ensures var (t, r) := Claim(table, ttl, key, at, now);
            r.Err? ==> OnlyKept(table, t, ttl, at, Some(key)) && (key in t ==> t[key].status != ActiveStatus)
    ensures var (t, r) := Claim(table, ttl, key, at, now);
            r.Ok? <==> Kept(table, key, ttl, at) && table[key].status == ActiveStatus && now / 1_000_000 <= table[key].expiresAtUnixMS
  {
    ClaimVerdict(table, ttl, key, at, now);
    hide Claim, TableOK;
  }

  /** The protocol's invariants give what is needed. */
  lemma HeldFacts(w: World, c: Config)
    requires PendingProtocol.Held(w, c)
    ensures TableOK(w.table) && (w.tracked.Some? ==> w.tracked.value.active && Named(c.key.run))
  {
    hide TableOK, OneHolder, HeldInStore, OwnerTracked;
  }

  lemma RunHeld(c: Config, actions: seq<Action>)
    ensures PendingProtocol.Held(PendingProtocol.Run(c, actions), c) && Inv(PendingProtocol.Run(c, actions))
  {
    hide PendingProtocol.Held, Inv, RunOn;
    StartHeld(c);
    assert Inv(START) by { StartInv(); }
    RunOnKeepsHeld(START, c, actions);
    RunOnKeepsInv(START, c, actions);
  }

  lemma StartInv()
    ensures Inv(START)
  {
  }

  /** In every run. */
  lemma BeginVerdict(c: Config, actions: seq<Action>, t: nat, client: string, idempotencyKey: string, runKnown: bool, at: int, now: int)
    requires var w := PendingProtocol.Run(c, actions); w.mu.None? && At(w, t) == Idle && client != ""
    ensures var w := PendingProtocol.Run(c, actions);
            Meets(w, Step(w, c, Begin(t, client, idempotencyKey, runKnown, at, now)), c, t, client, idempotencyKey, runKnown, at, now)
  {
    hide PendingProtocol.Run, PendingProtocol.Held, Inv, BeginStep, Meets, TableOK;
    RunHeld(c, actions);
    var w := PendingProtocol.Run(c, actions);
    HeldFacts(w, c);
    if w.tracked.Some? { BeginMeets(w, c, t, client, idempotencyKey, runKnown, at, now); }
    else { UnknownMeets(w, c, t, client, idempotencyKey, runKnown, at, now); }
  }

  lemma UnknownMeets(w: World, c: Config, t: nat, client: string, idempotencyKey: string, runKnown: bool, at: int, now: int)
    requires w.tracked.None?
    ensures Meets(w, BeginStep(w, c, t, client, idempotencyKey, runKnown, at, now), c, t, client, idempotencyKey, runKnown, at, now)
  {
  }

  /** A valid answer is put down as this client's, in flight; an invalid one gives the store's
      claim back. Either way the service's lock is free again. */
  ghost predicate PutsDown(w: World, v: World, c: Config, t: nat, ok: bool, at: int, now: int)
    requires At(w, t).Claiming?
  {
    var client, idempotencyKey := At(w, t).client, At(w, t).idempotencyKey;
    if ok then
      && w.tracked.Some?
      && v == w.(mu := None, threads := w.threads[t := Claimed(client)],
                 tracked := Some(Tracked(w.tracked.value.active, client,
                                         w.tracked.value.responses[client := Entry(idempotencyKey, Responding)])))
    else
      v == w.(mu := None, table := v.table, threads := w.threads[t := Done]) && GivesBack(w.table, v.table, c, at, now)
  }

  /** The store shows the request active again while its time is not over, and never again after. */
  ghost predicate GivesBack(table: PendingTable, after: PendingTable, c: Config, at: int, now: int) {
    && OnlyKept(table, after, c.ttl, at, Some(c.key))
    && (c.key in after && after[c.key].status == ActiveStatus <==>
          && Kept(table, c.key, c.ttl, at)
          && (table[c.key].status == ActiveStatus
              || (table[c.key].status == ClaimedStatus && now / 1_000_000 <= table[c.key].expiresAtUnixMS)))
  }

  lemma ReleaseGivesBack(table: PendingTable, c: Config, at: int, now: int)
    requires TableOK(table) && Named(c.key.run)
    ensures GivesBack(table, ReleaseClaim(table, c.ttl, c.key, at, now).0, c, at, now)
  {
    ReleaseVerdict(table, c.ttl, c.key, at, now);
    hide ReleaseClaim, TableOK;
  }

  lemma ValidateVerdict(c: Config, actions: seq<Action>, t: nat, ok: bool, at: int, now: int)
    requires At(PendingProtocol.Run(c, actions), t).Claiming?
    ensures var w := PendingProtocol.Run(c, actions);
            PutsDown(w, Step(w, c, Validate(t, ok, at, now)), c, t, ok, at, now)
  {
    hide PendingProtocol.Run, ReleaseClaim, GivesBack, TableOK;
    RunHeld(c, actions);
    var w := PendingProtocol.Run(c, actions);
    assert w.tracked.Some? by { assert ClaimingLocked(w); }
    HeldFacts(w, c);
    ReleaseGivesBack(w.table, c, at, now);
  }

  /** A successful write makes the service forget the request before the store resolves it; a
      failed one frees the request for others, marks this client's answer as failed, and gives
      the store's claim back next. If the service has forgotten it meanwhile, that was all. */
  lemma CompleteVerdict(c: Config, actions: seq<Action>, t: nat)
    requires var w := PendingProtocol.Run(c, actions); At(w, t).Wrote? && w.mu.None?
    ensures var w := PendingProtocol.Run(c, actions); var v := Step(w, c, Complete(t)); var client := At(w, t).client;
            if w.tracked.None? then MovesTo(w, v, t, Done)
            else if At(w, t).ok then v == w.(tracked := None, threads := w.threads[t := Resolving(client)])
            else
              && v.tracked.Some? && v == w.(tracked := v.tracked, threads := w.threads[t := Releasing])
              && v.tracked.value.active == w.tracked.value.active && v.tracked.value.inFlight == ""
              && v.tracked.value.responses.Keys == w.tracked.value.responses.Keys
              && forall k | k in v.tracked.value.responses :: v.tracked.value.responses[k] ==
                   if k == client then Entry(w.tracked.value.responses[k].idempotencyKey, WriteFailed)
                   else w.tracked.value.responses[k]
  {
    hide PendingProtocol.Run;
  }

  /** The store's part of the completion: the claim given back, or the request resolved. */
  lemma StoreEndVerdict(c: Config, actions: seq<Action>, t: nat, at: int, now: int)
    ensures var w := PendingProtocol.Run(c, actions); var v := Step(w, c, ReleaseStore(t, at, now));
            At(w, t).Releasing? ==> v == w.(table := v.table, threads := w.threads[t := Done]) && GivesBack(w.table, v.table, c, at, now)
    ensures var w := PendingProtocol.Run(c, actions); var v := Step(w, c, ResolveStore(t, at, now));
            At(w, t).Resolving? ==>
              && v == w.(table := v.table, threads := w.threads[t := Done])
              && OnlyKept(w.table, v.table, c.ttl, at, Some(c.key))
              && (Kept(w.table, c.key, c.ttl, at) && now / 1_000_000 <= w.table[c.key].expiresAtUnixMS
                  && (w.table[c.key].status == ActiveStatus || w.table[c.key].status == ClaimedStatus) ==>
                    c.key in v.table && v.table[c.key] == w.table[c.key].(status := ResolvedStatus, resolvedAtUnixMS := now / 1_000_000))
  {
    hide PendingProtocol.Run, ReleaseClaim, Resolve, GivesBack, TableOK;
    RunHeld(c, actions);
    var w := PendingProtocol.Run(c, actions);
    if At(w, t).Releasing? || At(w, t).Resolving? {
      HolderIsNamed(w, c, t);
      HeldFacts(w, c);
      ReleaseGivesBack(w.table, c, at, now);
      ResolutionVerdict(w.table, c.ttl, c.key, at, now);
    }
  }

  lemma HolderIsNamed(w: World, c: Config, t: nat)
    requires PendingProtocol.Held(w, c) && Holds(At(w, t))
    ensures Named(c.key.run)
  {
    hide TableOK, OneHolder, HeldInStore, OwnerTracked;
  }

  /** The service's sweep forgets the request exactly if the store no longer shows it open, and
      only outside of everybody's locked sections. */
  lemma SweepVerdict(c: Config, actions: seq<Action>, at: int)
    requires Named(c.key.run)
    ensures var w := PendingProtocol.Run(c, actions); var v := Step(w, c, Sweep(at));
            if w.mu.Some? || w.tracked.None? then v == w
            else
              && v == w.(table := v.table, tracked := v.tracked) && OnlyKept(w.table, v.table, c.ttl, at, None)
              && v.tracked == if c.key in OpenKept(w.table, c.ttl, at) then w.tracked else None
  {
    hide PendingProtocol.Run, Lookup, TableOK;
    RunHeld(c, actions);
    var w := PendingProtocol.Run(c, actions);
    HeldFacts(w, c);
    LookupVerdict(w.table, c.ttl, c.key, at);
  }

  /** A request is tracked once, active and with no answer yet, after the store registered it. */
  lemma TrackVerdict(c: Config, actions: seq<Action>)
    ensures var w := PendingProtocol.Run(c, actions); var v := Step(w, c, Track);
            if w.registered && !w.everTracked && w.mu.None?
            then v == w.(everTracked := true, tracked := Some(Tracked(true, "", map[]))) else v == w
  {
    hide PendingProtocol.Run;
  }

  /** Between these steps other callers use the store: they look this request up, clean up, and
      do anything with other requests. */
  lemma OthersVerdict(c: Config, actions: seq<Action>, op: PendingOp)
    ensures var w := PendingProtocol.Run(c, actions); var v := Step(w, c, OtherStoreCall(op));
            v == if op.OpLookup? || op.OpCleanup? || op.key != c.key then w.(table := ApplyPending(w.table, c.cap, c.ttl, op).0) else w
  {
    hide PendingProtocol.Run, ApplyPending;
  }

  /** A responder writes between its own two sections, and a joined one goes when it is told. */
  lemma WriteVerdict(c: Config, actions: seq<Action>, t: nat, ok: bool)
    ensures var w := PendingProtocol.Run(c, actions); var pc := At(w, t); var v := Step(w, c, StartWrite(t));
            v == if pc.Claimed? then w.(threads := w.threads[t := Writing(pc.client)], writes := w.writes + [WriteStarted(t)]) else w
    ensures var w := PendingProtocol.Run(c, actions); var pc := At(w, t); var v := Step(w, c, FinishWrite(t, ok));
            v == if pc.Writing? then w.(threads := w.threads[t := Wrote(pc.client, ok)], writes := w.writes + [WriteFinished(t, ok)])
                 else w
    ensures var w := PendingProtocol.Run(c, actions); var v := Step(w, c, Wake(t));
            if At(w, t).Waiting? then MovesTo(w, v, t, Done) else v == w
  {
    hide PendingProtocol.Run;
  }
}
