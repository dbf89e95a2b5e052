/** Any number of responders answering one pending request. A responder claims it under the
    service lock, writes to the app-server without any lock, and completes it under the
    service lock again; the store has its own lock, so other store callers may run between
    any two store calls, and the expiry of the request may fall anywhere. */
module PendingProtocol {
  import opened Common
  import opened ReplayModel
  import opened RunsModel
  import opened PendingModel

  datatype EntryState = Responding | Answered | WriteFailed

  datatype Entry = Entry(idempotencyKey: string, state: EntryState)

  /** The service's own record of the request. */
  datatype Tracked = Tracked(active: bool, inFlight: string, responses: map<string, Entry>)

  datatype Pc =
    | Idle
    | Claiming(client: string, idempotencyKey: string)  // store claim taken, service lock held
    | Claimed(client: string)                           // lock released, write not yet started
    | Writing(client: string)
    | Wrote(client: string, ok: bool)
    | Releasing
    | Resolving(client: string)
    | Waiting(client: string)
    | Done

  datatype WriteEvent = WriteStarted(thread: nat) | WriteFinished(thread: nat, ok: bool)

  /** `writes` is the history of writes to the app-server for this request. */
  datatype World = World(
    table: PendingTable,
    registered: bool,
    everTracked: bool,
    tracked: Option<Tracked>,
    mu: Option<nat>,
    threads: map<nat, Pc>,
    writes: seq<WriteEvent>)

  const START := World(map[], false, false, None, None, map[], [])

  function At(w: World, t: nat): Pc {
    if t in w.threads then w.threads[t] else Idle
  }

  function Go(w: World, t: nat, pc: Pc): World {
    w.(threads := w.threads[t := pc])
  }

  datatype Config = Config(key: PendingKey, cap: nat, ttl: int)

  datatype Action =
    | Register(ttl: int, cleanupAt: int, now: int)
    | Track
    | OtherStoreCall(op: PendingOp)
    | Sweep(cleanupAt: int)
    | Begin(t: nat, client: string, idempotencyKey: string, runKnown: bool, cleanupAt: int, now: int)
    | Validate(t: nat, ok: bool, cleanupAt: int, now: int)
    | StartWrite(t: nat)
    | FinishWrite(t: nat, ok: bool)
    | Complete(t: nat)
    | ReleaseStore(t: nat, cleanupAt: int, now: int)
    | ResolveStore(t: nat, cleanupAt: int, now: int)
    | Wake(t: nat)

  /** The first part of a claim, up to the store's verdict. */
  function BeginStep(w: World, c: Config, t: nat, client: string, idempotencyKey: string, runKnown: bool,
                     cleanupAt: int, now: int): World
  {
    if !runKnown || w.tracked.None? then Go(w, t, Done)
    else
      var tracked := w.tracked.value;
      if client in tracked.responses then
        var existing := tracked.responses[client];
        if existing.idempotencyKey != idempotencyKey || existing.state == WriteFailed then Go(w, t, Done)
        else Go(w, t, Waiting(client))
      else if !tracked.active || tracked.inFlight != "" then Go(w, t, Done)
      else
        var (table, r) := Claim(w.table, c.ttl, c.key, cleanupAt, now);
        if r.Err? then Go(w.(table := table, tracked := None), t, Done)
        else Go(w.(table := table, mu := Some(t)), t, Claiming(client, idempotencyKey))
  }

  /** The second part: a response of the wrong type or shape gives the claim back. */
  function ValidateStep(w: World, c: Config, t: nat, ok: bool, cleanupAt: int, now: int): World
    requires At(w, t).Claiming?
  {
    var pc := At(w, t);
    if !ok || w.tracked.None? then
      Go(w.(table := ReleaseClaim(w.table, c.ttl, c.key, cleanupAt, now).0, mu := None), t, Done)
    else
      var tracked := w.tracked.value;
      var entry := Entry(pc.idempotencyKey, Responding);
      Go(w.(mu := None,
            tracked := Some(tracked.(inFlight := pc.client, responses := tracked.responses[pc.client := entry]))),
         t, Claimed(pc.client))
  }

  function CompleteStep(w: World, t: nat): World
    requires At(w, t).Wrote?
  {
    var pc := At(w, t);
    if w.tracked.None? then Go(w, t, Done)
    else if pc.ok then Go(w.(tracked := None), t, Resolving(pc.client))
    else
      var tracked := w.tracked.value;
      var responses := if pc.client in tracked.responses
                       then tracked.responses[pc.client := tracked.responses[pc.client].(state := WriteFailed)]
                       else tracked.responses;
      Go(w.(tracked := Some(tracked.(inFlight := "", responses := responses))), t, Releasing)
  }

  /** A step that is not enabled changes nothing. */
  function Step(w: World, c: Config, a: Action): World {
    match a
    case Register(ttl, cleanupAt, now) =>
      if w.registered then w
      else
        var (table, r) := PendingModel.Register(w.table, c.cap, c.ttl, c.key, ttl, cleanupAt, now);
        w.(table := table, registered := r.Registered?)
    case Track =>
      if w.registered && !w.everTracked && w.mu.None?
      then w.(everTracked := true, tracked := Some(Tracked(true, "", map[]))) else w
    case OtherStoreCall(op) =>
      if IsOther(op, c.key)
      then w.(table := ApplyPending(w.table, c.cap, c.ttl, op).0) else w
    case Sweep(cleanupAt) =>
      if w.mu.Some? || w.tracked.None? then w
      else
        var (table, r) := Lookup(w.table, c.ttl, c.key, cleanupAt);
        w.(table := table, tracked := if r.None? then None else w.tracked)
    case Begin(t, client, idempotencyKey, runKnown, cleanupAt, now) =>
      if w.mu.None? && At(w, t).Idle? && client != ""
      then BeginStep(w, c, t, client, idempotencyKey, runKnown, cleanupAt, now) else w
    case Validate(t, ok, cleanupAt, now) =>
      if At(w, t).Claiming? then ValidateStep(w, c, t, ok, cleanupAt, now) else w
    case StartWrite(t) =>
      if At(w, t).Claimed?
      then Go(w.(writes := w.writes + [WriteStarted(t)]), t, Writing(At(w, t).client)) else w
    case FinishWrite(t, ok) =>
      if At(w, t).Writing?
      then Go(w.(writes := w.writes + [WriteFinished(t, ok)]), t, Wrote(At(w, t).client, ok)) else w
    case Complete(t) => if At(w, t).Wrote? && w.mu.None? then CompleteStep(w, t) else w
    case ReleaseStore(t, cleanupAt, now) =>
      if At(w, t).Releasing?
      then Go(w.(table := ReleaseClaim(w.table, c.ttl, c.key, cleanupAt, now).0), t, Done) else w
    case ResolveStore(t, cleanupAt, now) =>
      if At(w, t).Resolving?
      then Go(w.(table := Resolve(w.table, c.ttl, c.key, cleanupAt, now).0), t, Done) else w
    case Wake(t) => if At(w, t).Waiting? then Go(w, t, Done) else w
  }

  function RunOn(w: World, c: Config, actions: seq<Action>): World {
    if actions == [] then w else Step(RunOn(w, c, actions[..|actions| - 1]), c, actions[|actions| - 1])
  }

  function Run(c: Config, actions: seq<Action>): World { RunOn(START, c, actions) }

  // ----- invariant ---------------------------------------------------------------------

  /** A responder owns the request from its validated claim until its completion. */
  predicate Owns(pc: Pc) { pc.Claimed? || pc.Writing? || pc.Wrote? }

  ghost predicate OneOwner(w: World) {
    forall t, u | t in w.threads && u in w.threads && Owns(w.threads[t]) && Owns(w.threads[u]) :: t == u
  }

  ghost predicate OwnersMarked(w: World) {
    forall t | t in w.threads && Owns(w.threads[t]) ::
      && w.threads[t].client != ""
      && w.everTracked
      && (w.tracked.Some? ==> w.tracked.value.inFlight == w.threads[t].client)
  }

  ghost predicate ClaimingLocked(w: World) {
    forall t | t in w.threads && w.threads[t].Claiming? ::
      && w.mu == Some(t) && w.tracked.Some? && w.tracked.value.inFlight == "" && w.threads[t].client != ""
  }

  ghost predicate NoOwner(w: World) {
    forall t | t in w.threads :: !Owns(w.threads[t])
  }

  /** Writes come one at a time and nothing follows a successful one. */
  ghost predicate Serial(writes: seq<WriteEvent>) {
    forall i | 0 <= i < |writes| :: SerialAt(writes, i)
  }

  ghost predicate SerialAt(writes: seq<WriteEvent>, i: nat)
    requires i < |writes|
  {
    if i % 2 == 0 then writes[i].WriteStarted?
    else writes[i].WriteFinished? && writes[i].thread == writes[i - 1].thread && (writes[i].ok ==> i == |writes| - 1)
  }

  /** How the history matches where the responders are. */
  ghost predicate HistoryMatches(w: World) {
    && (forall t | t in w.threads && w.threads[t].Writing? ::
          |w.writes| % 2 == 1 && w.writes[|w.writes| - 1] == WriteStarted(t))
    && (|w.writes| % 2 == 1 ==> At(w, w.writes[|w.writes| - 1].thread).Writing?)
    && (w.writes != [] && w.writes[|w.writes| - 1].WriteFinished? && w.writes[|w.writes| - 1].ok ==>
          var pc := At(w, w.writes[|w.writes| - 1].thread);
          (pc.Wrote? && pc.ok) || (w.tracked.None? && w.everTracked && NoOwner(w)))
  }

  ghost predicate Inv(w: World) {
    && OneOwner(w) && OwnersMarked(w) && ClaimingLocked(w) && HistoryMatches(w) && Serial(w.writes)
    && (w.tracked.Some? ==> w.everTracked)
  }

  /** What a claim may do to the service's records and to its own responder. */
  ghost predicate Began(w: World, v: World, t: nat) {
    && t in v.threads && v.threads == w.threads[t := v.threads[t]]
    && v.writes == w.writes && v.everTracked == w.everTracked && v.registered == w.registered
    && (v.threads[t].Claiming? || v.threads[t].Waiting? || v.threads[t].Done?)
    && (if v.threads[t].Claiming?
        then v.mu == Some(t) && v.tracked == w.tracked && w.tracked.Some? && w.tracked.value.inFlight == ""
             && v.threads[t].client != ""
        else v.mu == w.mu && (v.tracked == w.tracked || v.tracked.None?))
  }

  lemma BeginIsBegan(w: World, c: Config, t: nat, client: string, idempotencyKey: string, runKnown: bool,
                     cleanupAt: int, now: int)
    requires client != ""
    ensures Began(w, BeginStep(w, c, t, client, idempotencyKey, runKnown, cleanupAt, now), t)
  {
    hide Claim;
  }

  lemma BeganKeepsOwners(w: World, v: World, t: nat)
    requires OneOwner(w) && OwnersMarked(w) && Began(w, v, t)
    ensures OneOwner(v) && OwnersMarked(v)
  {
  }

  lemma BeganKeepsHistory(w: World, v: World, t: nat)
    requires HistoryMatches(w) && (w.tracked.Some? ==> w.everTracked) && Began(w, v, t) && At(w, t).Idle?
    ensures HistoryMatches(v)
  {
    assert NoOwner(w) ==> NoOwner(v);
  }

  lemma BeginKeepsInv(w: World, c: Config, t: nat, client: string, idempotencyKey: string, runKnown: bool,
                      cleanupAt: int, now: int)
    requires Inv(w) && w.mu.None? && At(w, t).Idle? && client != ""
    ensures Inv(BeginStep(w, c, t, client, idempotencyKey, runKnown, cleanupAt, now))
  {
    hide BeginStep, Serial, OneOwner, OwnersMarked, HistoryMatches;
    var v := BeginStep(w, c, t, client, idempotencyKey, runKnown, cleanupAt, now);
    BeginIsBegan(w, c, t, client, idempotencyKey, runKnown, cleanupAt, now);
    BeganKeepsOwners(w, v, t);
    BeganKeepsHistory(w, v, t);
  }

  lemma ValidateKeepsInv(w: World, c: Config, t: nat, ok: bool, cleanupAt: int, now: int)
    requires Inv(w) && At(w, t).Claiming?
    ensures Inv(ValidateStep(w, c, t, ok, cleanupAt, now))
  {
    hide ReleaseClaim, Serial;
    var v := ValidateStep(w, c, t, ok, cleanupAt, now);
    assert NoOwner(w) by {
      assert w.tracked.value.inFlight == "";
    }
  }

  lemma SerialStart(h: seq<WriteEvent>, t: nat)
    requires Serial(h) && |h| % 2 == 0 && (h != [] ==> !(h[|h| - 1].WriteFinished? && h[|h| - 1].ok))
    ensures Serial(h + [WriteStarted(t)])
  {
    var g := h + [WriteStarted(t)];
    forall i | 0 <= i < |g| ensures SerialAt(g, i) {
      if i < |h| { assert SerialAt(h, i); }
    }
  }

  lemma SerialFinish(h: seq<WriteEvent>, t: nat, ok: bool)
    requires Serial(h) && |h| % 2 == 1 && h[|h| - 1] == WriteStarted(t)
    ensures Serial(h + [WriteFinished(t, ok)])
  {
    var g := h + [WriteFinished(t, ok)];
    forall i | 0 <= i < |g| ensures SerialAt(g, i) {
      if i < |h| { assert SerialAt(h, i); }
    }
  }

  lemma StartWriteKeepsInv(w: World, c: Config, t: nat)
    requires Inv(w) && At(w, t).Claimed?
    ensures Inv(Step(w, c, StartWrite(t)))
  {
    assert |w.writes| % 2 == 0 by {
      if w.writes != [] {
        var last := w.writes[|w.writes| - 1].thread;
        assert Owns(At(w, last)) ==> last == t;
      }
    }
    SerialStart(w.writes, t);
    hide Serial;
  }

  lemma FinishWriteKeepsInv(w: World, c: Config, t: nat, ok: bool)
    requires Inv(w) && At(w, t).Writing?
    ensures Inv(Step(w, c, FinishWrite(t, ok)))
  {
    SerialFinish(w.writes, t, ok);
    hide Serial;
  }

  lemma CompleteKeepsInv(w: World, t: nat)
    requires Inv(w) && At(w, t).Wrote? && w.mu.None?
    ensures Inv(CompleteStep(w, t))
  {
    hide Serial;
    var v := CompleteStep(w, t);
    assert NoOwner(v);
  }

  /** The steps of the store, the sweep, and of responders that neither own nor claim. */
  predicate Bystander(a: Action) {
    a.Register? || a.Track? || a.OtherStoreCall? || a.Sweep? || a.ReleaseStore? || a.ResolveStore? || a.Wake?
  }

  lemma BystanderKeepsInv(w: World, c: Config, a: Action)
    requires Inv(w) && Bystander(a)
    ensures Inv(Step(w, c, a))
  {
    hide ReleaseClaim, Lookup, Resolve, ApplyPending, PendingModel.Register, Serial;
  }

  lemma StepKeepsInv(w: World, c: Config, a: Action)
    requires Inv(w)
    ensures Inv(Step(w, c, a))
  {
    hide Inv, BeginStep, ValidateStep, CompleteStep;
    match a
    case Begin(t, client, idempotencyKey, runKnown, cleanupAt, now) =>
      if w.mu.None? && At(w, t).Idle? && client != "" {
        BeginKeepsInv(w, c, t, client, idempotencyKey, runKnown, cleanupAt, now);
      }
    case Validate(t, ok, cleanupAt, now) =>
      if At(w, t).Claiming? { ValidateKeepsInv(w, c, t, ok, cleanupAt, now); }
    case StartWrite(t) => if At(w, t).Claimed? { StartWriteKeepsInv(w, c, t); }
    case FinishWrite(t, ok) => if At(w, t).Writing? { FinishWriteKeepsInv(w, c, t, ok); }
    case Complete(t) => if At(w, t).Wrote? && w.mu.None? { CompleteKeepsInv(w, t); }
    case _ => BystanderKeepsInv(w, c, a);
  }

  lemma {:induction false} RunOnKeepsInv(w: World, c: Config, actions: seq<Action>)
    requires Inv(w)
    ensures Inv(RunOn(w, c, actions))
  {
    hide Step, Inv;
    if actions != [] {
      RunOnKeepsInv(w, c, actions[..|actions| - 1]);
      StepKeepsInv(RunOn(w, c, actions[..|actions| - 1]), c, actions[|actions| - 1]);
    }
  }

  /** Over every interleaving of responders, expiry and cleanup, the app-server writes for
      one pending request never overlap, and none starts after a successful one. */
  lemma WritesAreSerial(c: Config, actions: seq<Action>)
    ensures Serial(Run(c, actions).writes)
  {
    hide RunOn;
    RunOnKeepsInv(START, c, actions);
  }

  // ----- who holds the store's claim -----------------------------------------------------

  /** A responder holds the store's claim from taking it until giving it back or resolving. */
  predicate Holds(pc: Pc) {
    pc.Claiming? || pc.Claimed? || pc.Writing? || pc.Wrote? || pc.Releasing? || pc.Resolving?
  }

  ghost predicate OneHolder(threads: map<nat, Pc>) {
    forall t, u | t in threads && u in threads && Holds(threads[t]) && Holds(threads[u]) :: t == u
  }

  ghost predicate NoHolder(threads: map<nat, Pc>) {
    forall t | t in threads :: !Holds(threads[t])
  }

  predicate ShowsActive(table: PendingTable, key: PendingKey) {
    key in table && table[key].status == ActiveStatus
  }

  predicate ShowsLive(table: PendingTable, key: PendingKey) {
    key in table && Live(table[key])
  }

  /** While somebody holds the claim the store does not show the request active. */
  ghost predicate HeldInStore(w: World, c: Config) {
    NoHolder(w.threads) || !ShowsActive(w.table, c.key)
  }

  /** A writer's request stays tracked as long as the store shows it live. */
  ghost predicate OwnerTracked(w: World, c: Config) {
    w.tracked.None? ==> NoOwner(w) || !ShowsLive(w.table, c.key)
  }

  ghost predicate Stages(w: World, c: Config) {
    && (w.registered ==> ValidRunScope(c.key.run))
    && (w.tracked.Some? ==> w.tracked.value.active && w.everTracked)
    && (w.everTracked ==> w.registered)
    && (NoHolder(w.threads) || w.everTracked)
    && (w.mu.Some? ==> At(w, w.mu.value).Claiming?)
  }

  ghost predicate Held(w: World, c: Config) {
    TableOK(w.table) && OneHolder(w.threads) && HeldInStore(w, c) && OwnerTracked(w, c) && Stages(w, c)
  }

  /** What a store call that does not touch the claim can do to the request's record. */
  ghost predicate NotRevived(before: PendingTable, after: PendingTable, key: PendingKey) {
    && TableOK(after)
    && (ShowsActive(after, key) ==> ShowsActive(before, key))
    && (ShowsLive(after, key) ==> ShowsLive(before, key))
  }

  lemma ClaimNotRevived(table: PendingTable, ttl: int, key: PendingKey, cleanupAt: int, now: int)
    requires TableOK(table)
    ensures var (t, r) := Claim(table, ttl, key, cleanupAt, now);
            NotRevived(table, t, key) && (r.Ok? ==> ShowsActive(table, key) && !ShowsActive(t, key))
  {
    hide Claim, Cleaned, TableOK;
    StepLifecycle(table, 0, ttl, OpClaim(key, cleanupAt, now), key);
  }

  lemma ReleaseKeepsTableOK(table: PendingTable, ttl: int, key: PendingKey, cleanupAt: int, now: int)
    requires TableOK(table)
    ensures TableOK(ReleaseClaim(table, ttl, key, cleanupAt, now).0)
    ensures TableOK(Resolve(table, ttl, key, cleanupAt, now).0)
  {
    hide ReleaseClaim, Resolve, Cleaned, TableOK;
    StepLifecycle(table, 0, ttl, OpReleaseClaim(key, cleanupAt, now), key);
    StepLifecycle(table, 0, ttl, OpResolve(key, cleanupAt, now), key);
  }

  lemma LookupNotRevived(table: PendingTable, ttl: int, key: PendingKey, cleanupAt: int)
    requires TableOK(table)
    ensures var (t, r) := Lookup(table, ttl, key, cleanupAt);
            NotRevived(table, t, key) && (r.None? ==> !ShowsLive(t, key) || !ValidRunScope(key.run))
  {
    hide LiveKeys;
    CleanupOnlyRemoves(table, ttl, cleanupAt);
  }

  predicate IsOther(op: PendingOp, key: PendingKey) { op.OpLookup? || op.OpCleanup? || op.key != key }

  lemma OtherNotRevived(table: PendingTable, cap: int, ttl: int, op: PendingOp, key: PendingKey)
    requires TableOK(table) && IsOther(op, key)
    ensures NotRevived(table, ApplyPending(table, cap, ttl, op).0, key)
  {
    hide TableOK;
    StepLifecycle(table, cap, ttl, op, key);
  }

  /** Steps after which the store shows no more of the request than before, and nobody new
      holds or owns it. */
  ghost predicate Quiet(w: World, v: World, c: Config) {
    && NotRevived(w.table, v.table, c.key)
    && (forall t | t in v.threads && Holds(v.threads[t]) :: t in w.threads && Holds(w.threads[t]))
    && (forall t | t in v.threads && Owns(v.threads[t]) :: t in w.threads && Owns(w.threads[t]))
  }

  lemma QuietKeepsHeld(w: World, v: World, c: Config)
    requires Held(w, c) && Quiet(w, v, c) && Stages(v, c)
    requires v.tracked.None? ==> w.tracked.None? || NoOwner(v) || !ShowsLive(v.table, c.key)
    ensures Held(v, c)
  {
    hide TableOK, ShowsActive, ShowsLive;
  }

  lemma BeginKeepsHeld(w: World, c: Config, t: nat, client: string, idempotencyKey: string, runKnown: bool,
                       cleanupAt: int, now: int)
    requires Inv(w) && Held(w, c) && w.mu.None? && At(w, t).Idle? && client != ""
    ensures Held(BeginStep(w, c, t, client, idempotencyKey, runKnown, cleanupAt, now), c)
  {
    hide Claim, TableOK, ShowsActive, ShowsLive, Serial, HistoryMatches, OneOwner, BeginStep;
    var v := BeginStep(w, c, t, client, idempotencyKey, runKnown, cleanupAt, now);
    BeginIsBegan(w, c, t, client, idempotencyKey, runKnown, cleanupAt, now);
    BeginTable(w, c, t, client, idempotencyKey, runKnown, cleanupAt, now);
    if At(v, t).Claiming? {
      assert NoHolder(w.threads);
      assert Held(v, c);
    } else {
      if v.tracked.None? && w.tracked.Some? {
        assert NoOwner(w);
        assert NoOwner(v);
      }
      assert Stages(v, c);
      QuietKeepsHeld(w, v, c);
    }
  }

  lemma BeginTable(w: World, c: Config, t: nat, client: string, idempotencyKey: string, runKnown: bool, cleanupAt: int, now: int)
    requires TableOK(w.table) && At(w, t).Idle?
    ensures var v := BeginStep(w, c, t, client, idempotencyKey, runKnown, cleanupAt, now);
            && NotRevived(w.table, v.table, c.key)
            && (At(v, t).Claiming? ==> ShowsActive(w.table, c.key) && !ShowsActive(v.table, c.key))
            && (v.tracked.None? && w.tracked.Some? ==> w.tracked.value.inFlight == "")
  {
    hide Claim, TableOK, ShowsActive, ShowsLive;
    ClaimNotRevived(w.table, c.ttl, c.key, cleanupAt, now);
    var r := Claim(w.table, c.ttl, c.key, cleanupAt, now).1;
    assert r.Ok? || r.Err?;
  }

  lemma OneHolderGone(w: World, t: nat, pc: Pc)
    requires OneHolder(w.threads) && Holds(At(w, t)) && !Holds(pc)
    ensures NoHolder(w.threads[t := pc])
  {
  }

  lemma NoHolderNoOwner(w: World)
    requires NoHolder(w.threads)
    ensures NoOwner(w)
  {
  }

  lemma ValidateKeepsHeld(w: World, c: Config, t: nat, ok: bool, cleanupAt: int, now: int)
    requires Inv(w) && Held(w, c) && At(w, t).Claiming?
    ensures Held(ValidateStep(w, c, t, ok, cleanupAt, now), c)
  {
    hide ReleaseClaim, TableOK, ShowsActive, ShowsLive, Serial, HistoryMatches, OneOwner, OwnersMarked;
    ReleaseKeepsTableOK(w.table, c.ttl, c.key, cleanupAt, now);
    if !ok { OneHolderGone(w, t, Done); }
    var v := ValidateStep(w, c, t, ok, cleanupAt, now);
    assert !ok ==> NoOwner(v);
  }

  lemma CompleteKeepsHeld(w: World, c: Config, t: nat)
    requires Inv(w) && Held(w, c) && At(w, t).Wrote? && w.mu.None?
    ensures Held(CompleteStep(w, t), c)
  {
    hide TableOK, ShowsActive, ShowsLive, Serial, HistoryMatches;
    var v := CompleteStep(w, t);
    assert NoOwner(v);
  }

  lemma GiveBackKeepsHeld(w: World, c: Config, t: nat, cleanupAt: int, now: int)
    requires Held(w, c)
    ensures Held(Step(w, c, ReleaseStore(t, cleanupAt, now)), c)
    ensures Held(Step(w, c, ResolveStore(t, cleanupAt, now)), c)
  {
    hide ReleaseClaim, Resolve, TableOK, ShowsActive, ShowsLive;
    ReleaseKeepsTableOK(w.table, c.ttl, c.key, cleanupAt, now);
    if Holds(At(w, t)) {
      OneHolderGone(w, t, Done);
      NoHolderNoOwner(Go(w, t, Done));
    }
  }

  lemma RegisterKeepsHeld(w: World, c: Config, ttl: int, cleanupAt: int, now: int)
    requires Held(w, c)
    ensures Held(Step(w, c, Register(ttl, cleanupAt, now)), c)
  {
    hide PendingModel.Register, TableOK, ShowsActive, ShowsLive;
    StepTableOK(w.table, c.cap, c.ttl, OpRegister(c.key, ttl, cleanupAt, now));
    RegisteredIsValid(w.table, c.cap, c.ttl, c.key, ttl, cleanupAt, now);
    if !w.registered {
      assert NoHolder(w.threads);
      NoHolderNoOwner(w);
    }
  }

  lemma RegisteredIsValid(table: PendingTable, cap: int, defaultTTL: int, key: PendingKey, ttl: int, cleanupAt: int, now: int)
    ensures PendingModel.Register(table, cap, defaultTTL, key, ttl, cleanupAt, now).1.Registered? ==> ValidRunScope(key.run)
  {
  }

  lemma OthersKeepHeld(w: World, c: Config, op: PendingOp)
    requires Held(w, c)
    ensures Held(Step(w, c, OtherStoreCall(op)), c)
  {
    hide ApplyPending, TableOK, ShowsActive, ShowsLive, IsOther;
    if IsOther(op, c.key) { OtherNotRevived(w.table, c.cap, c.ttl, op, c.key); }
  }

  lemma SweepKeepsHeld(w: World, c: Config, cleanupAt: int)
    requires Held(w, c)
    ensures Held(Step(w, c, Sweep(cleanupAt)), c)
  {
    hide Lookup, TableOK, ShowsActive, ShowsLive;
    LookupNotRevived(w.table, c.ttl, c.key, cleanupAt);
  }

  /** The steps that touch neither the store nor the service's records. */
  predicate Local(a: Action) { a.Track? || a.StartWrite? || a.FinishWrite? || a.Wake? }

  lemma LocalKeepsHeld(w: World, c: Config, a: Action)
    requires Held(w, c) && Local(a)
    ensures Held(Step(w, c, a), c)
  {
    hide TableOK, ShowsActive, ShowsLive;
  }

  lemma StepKeepsHeld(w: World, c: Config, a: Action)
    requires Inv(w) && Held(w, c)
    ensures Held(Step(w, c, a), c)
  {
    hide Inv, Held, BeginStep, ValidateStep, CompleteStep;
    match a
    case Begin(t, client, idempotencyKey, runKnown, cleanupAt, now) =>
      if w.mu.None? && At(w, t).Idle? && client != "" {
        BeginKeepsHeld(w, c, t, client, idempotencyKey, runKnown, cleanupAt, now);
      }
    case Validate(t, ok, cleanupAt, now) =>
      if At(w, t).Claiming? { ValidateKeepsHeld(w, c, t, ok, cleanupAt, now); }
    case Complete(t) => if At(w, t).Wrote? && w.mu.None? { CompleteKeepsHeld(w, c, t); }
    case Register(ttl, cleanupAt, now) => RegisterKeepsHeld(w, c, ttl, cleanupAt, now);
    case ReleaseStore(t, cleanupAt, now) => GiveBackKeepsHeld(w, c, t, cleanupAt, now);
    case ResolveStore(t, cleanupAt, now) => GiveBackKeepsHeld(w, c, t, cleanupAt, now);
    case OtherStoreCall(op) => OthersKeepHeld(w, c, op);
    case Sweep(cleanupAt) => SweepKeepsHeld(w, c, cleanupAt);
    case _ => LocalKeepsHeld(w, c, a);
  }

  lemma {:induction false} RunOnKeepsHeld(w: World, c: Config, actions: seq<Action>)
    requires Inv(w) && Held(w, c)
    ensures Inv(RunOn(w, c, actions)) && Held(RunOn(w, c, actions), c)
  {
    hide Step, Inv, Held;
    RunOnKeepsInv(w, c, actions);
    if actions != [] {
      var init := actions[..|actions| - 1];
      RunOnKeepsHeld(w, c, init);
      StepKeepsHeld(RunOn(w, c, init), c, actions[|actions| - 1]);
    }
  }

  // ----- what a failed write leaves behind -------------------------------------------------

  /** All clock readings of the step lie within the request's time. */
  predicate Timely(a: Action, until: int) {
    match a
    case OtherStoreCall(op) => UnixMilli(op.cleanupAt) <= until
    case Sweep(cleanupAt) => UnixMilli(cleanupAt) <= until
    case Begin(_, _, _, _, cleanupAt, now) => UnixMilli(cleanupAt) <= until && UnixMilli(now) <= until
    case ReleaseStore(_, cleanupAt, now) => UnixMilli(cleanupAt) <= until && UnixMilli(now) <= until
    case _ => true
  }

  function ResponsesOf(w: World): map<string, Entry> {
    if w.tracked.Some? then w.tracked.value.responses else map[]
  }

  /** A claim by a client that has not answered yet, for a run that is known. */
  predicate Intrudes(w: World, responses: map<string, Entry>, a: Action) {
    && a.Begin? && a.runKnown && a.client != "" && a.client !in responses
    && w.mu.None? && At(w, a.t).Idle?
  }

  /** Whether such a claim was among the steps. */
  predicate Intruded(w: World, c: Config, responses: map<string, Entry>, actions: seq<Action>) {
    actions != [] &&
    var init := actions[..|actions| - 1];
    Intruded(w, c, responses, init) || Intrudes(RunOn(w, c, init), responses, actions[|actions| - 1])
  }

  /** Between the two sections of completing a failed write: the service has given the
      request back and the store has not. */
  ghost predicate Between(w: World, c: Config, t1: nat, record: PendingRecord, responses: map<string, Entry>) {
    && Inv(w) && Held(w, c) && At(w, t1).Releasing?
    && ShowsLive(w.table, c.key) && w.table[c.key] == record
    && (w.tracked.Some? ==> w.tracked.value.inFlight == "" && w.tracked.value.responses == responses)
  }

  lemma KeptWithinTime(table: PendingTable, ttl: int, key: PendingKey, cleanupAt: int)
    requires TableOK(table) && ShowsLive(table, key) && UnixMilli(cleanupAt) <= table[key].expiresAtUnixMS
    ensures var t := Cleaned(table, ttl, cleanupAt); key in t && t[key] == table[key]
  {
    hide LiveKeys;
    CleanupOnlyRemoves(table, ttl, cleanupAt);
  }

  lemma OtherKeepsRecord(table: PendingTable, cap: int, ttl: int, op: PendingOp, key: PendingKey)
    requires TableOK(table) && ShowsLive(table, key) && UnixMilli(op.cleanupAt) <= table[key].expiresAtUnixMS
    requires IsOther(op, key)
    ensures var t := ApplyPending(table, cap, ttl, op).0; key in t && t[key] == table[key]
  {
    hide Cleaned, LiveKeys, UnixMilli, TableOK;
    KeptWithinTime(table, ttl, key, op.cleanupAt);
  }

  lemma OnlyHolder(w: World, c: Config, t1: nat)
    requires Held(w, c) && At(w, t1).Releasing?
    ensures w.mu.None? && w.everTracked && w.registered && ValidRunScope(c.key.run) && !ShowsActive(w.table, c.key)
    ensures forall t | t != t1 :: !Holds(At(w, t))
  {
    hide TableOK, ShowsActive, ShowsLive;
    assert t1 in w.threads && Holds(w.threads[t1]);
  }

  lemma IntruderDrops(w: World, c: Config, t1: nat, record: PendingRecord, responses: map<string, Entry>, a: Action)
    requires Between(w, c, t1, record, responses) && Intrudes(w, responses, a) && Timely(a, record.expiresAtUnixMS)
    ensures var v := Step(w, c, a);
            v.tracked.None? && At(v, t1).Releasing? && ShowsLive(v.table, c.key) && v.table[c.key] == record
  {
    hide Inv, Cleaned, UnixMilli, TableOK;
    OnlyHolder(w, c, t1);
    KeptWithinTime(w.table, c.ttl, c.key, a.cleanupAt);
  }

  lemma OtherStepsKeep(w: World, c: Config, t1: nat, record: PendingRecord, responses: map<string, Entry>, a: Action)
    requires Between(w, c, t1, record, responses) && !Intrudes(w, responses, a)
    requires Timely(a, record.expiresAtUnixMS) && !(a.ReleaseStore? && a.t == t1)
    ensures var v := Step(w, c, a);
            v.tracked == w.tracked && At(v, t1).Releasing? && ShowsLive(v.table, c.key) && v.table[c.key] == record
  {
    hide Inv, Cleaned, UnixMilli, TableOK, ApplyPending, Claim, ReleaseClaim, Resolve;
    OnlyHolder(w, c, t1);
    match a
    case OtherStoreCall(op) => if IsOther(op, c.key) { OtherKeepsRecord(w.table, c.cap, c.ttl, op, c.key); }
    case Sweep(cleanupAt) => KeptWithinTime(w.table, c.ttl, c.key, cleanupAt);
    case _ =>
  }

  lemma BetweenStep(w: World, c: Config, t1: nat, record: PendingRecord, responses: map<string, Entry>, a: Action)
    requires Between(w, c, t1, record, responses)
    requires Timely(a, record.expiresAtUnixMS) && !(a.ReleaseStore? && a.t == t1)
    ensures var v := Step(w, c, a);
            && Between(v, c, t1, record, responses)
            && (v.tracked.Some? <==> w.tracked.Some? && !Intrudes(w, responses, a))
  {
    hide Inv, Held, Step, Intrudes, Timely, ShowsLive;
    StepKeepsInv(w, c, a);
    StepKeepsHeld(w, c, a);
    if Intrudes(w, responses, a) {
      IntruderDrops(w, c, t1, record, responses, a);
    } else {
      OtherStepsKeep(w, c, t1, record, responses, a);
    }
  }

  lemma {:induction false} BetweenRun(w: World, c: Config, t1: nat, record: PendingRecord, responses: map<string, Entry>,
                                      during: seq<Action>)
    requires Between(w, c, t1, record, responses) && w.tracked.Some?
    requires forall i | 0 <= i < |during| ::
               Timely(during[i], record.expiresAtUnixMS) && !(during[i].ReleaseStore? && during[i].t == t1)
    ensures var v := RunOn(w, c, during);
            && Between(v, c, t1, record, responses)
            && (v.tracked.Some? <==> !Intruded(w, c, responses, during))
  {
    hide Between, Step, Intrudes, Timely;
    if during != [] {
      var init := during[..|during| - 1];
      BetweenRun(w, c, t1, record, responses, init);
      BetweenStep(RunOn(w, c, init), c, t1, record, responses, during[|during| - 1]);
    }
  }

  lemma FailedCompletion(w: World, c: Config, t1: nat)
    requires Inv(w) && Held(w, c) && w.mu.None? && ShowsLive(w.table, c.key)
    requires At(w, t1).Wrote? && !At(w, t1).ok
    ensures var v := Step(w, c, Complete(t1)); v.tracked.Some? && Between(v, c, t1, w.table[c.key], ResponsesOf(v))
  {
    StepKeepsInv(w, c, Complete(t1));
    StepKeepsHeld(w, c, Complete(t1));
    hide Inv, TableOK, ShowsActive;
    assert Owns(w.threads[t1]);
  }

  /** The request as the store gives it back: active, and nobody holds its claim. */
  ghost predicate GivenBack(w: World, c: Config) {
    && TableOK(w.table) && ShowsActive(w.table, c.key) && NoHolder(w.threads) && w.mu.None? && w.everTracked && w.registered
    && ValidRunScope(c.key.run) && (w.tracked.Some? ==> w.tracked.value.active && w.tracked.value.inFlight == "")
  }

  lemma StoreGivesBack(w: World, c: Config, t1: nat, record: PendingRecord, responses: map<string, Entry>,
                        cleanupAt: int, now: int)
    requires Between(w, c, t1, record, responses)
    requires UnixMilli(cleanupAt) <= record.expiresAtUnixMS && UnixMilli(now) <= record.expiresAtUnixMS
    ensures var v := Step(w, c, ReleaseStore(t1, cleanupAt, now));
            && GivenBack(v, c) && v.tracked == w.tracked
            && v.table[c.key].expiresAtUnixMS == record.expiresAtUnixMS
  {
    hide Inv, Cleaned, UnixMilli, TableOK, OneHolder, NoHolder;
    OnlyHolder(w, c, t1);
    KeptWithinTime(w.table, c.ttl, c.key, cleanupAt);
    ReleaseKeepsTableOK(w.table, c.ttl, c.key, cleanupAt, now);
    OneHolderGone(w, t1, Done);
    assert Live(record) && record.status != ActiveStatus;
  }

  ghost predicate IsDropped(w: World) {
    w.tracked.None? && w.everTracked && w.registered && NoHolder(w.threads)
  }

  lemma DroppedStep(w: World, c: Config, a: Action)
    requires IsDropped(w)
    ensures IsDropped(Step(w, c, a)) && Step(w, c, a).writes == w.writes
  {
    hide ReleaseClaim, Resolve, Claim, Lookup, ApplyPending, PendingModel.Register;
  }

  /** Once the service has dropped the request, nobody writes for it again. */
  lemma {:induction false} DroppedForGood(w: World, c: Config, more: seq<Action>)
    requires w.tracked.None? && w.everTracked && w.registered && NoHolder(w.threads)
    ensures var v := RunOn(w, c, more);
            v.tracked.None? && v.everTracked && v.registered && NoHolder(v.threads) && v.writes == w.writes
  {
    hide Step, NoHolder;
    if more != [] {
      var init := more[..|more| - 1];
      DroppedForGood(w, c, init);
      DroppedStep(RunOn(w, c, init), c, more[|more| - 1]);
    }
  }

  lemma {:induction false} FreshThread(used: set<nat>) returns (t: nat)
    ensures forall u | u in used :: u < t
  {
    t := 0;
    if used != {} {
      var u :| u in used;
      t := FreshThread(used - {u});
      assert forall v | v in used :: v == u || v in used - {u};
      if t <= u { t := u + 1; }
    }
  }

  lemma {:induction false} FreshClient(used: set<string>) returns (client: string)
    ensures client != "" && forall u | u in used :: |u| < |client|
  {
    client := "c";
    if used != {} {
      var u :| u in used;
      client := FreshClient(used - {u});
      if |client| <= |u| { client := u + "c"; }
    }
  }

  /** A fresh client within the request's time gets to write. */
  lemma TrackedIsAnswerable(w: World, c: Config, at: int) returns (more: seq<Action>)
    requires GivenBack(w, c) && w.tracked.Some? && UnixMilli(at) <= w.table[c.key].expiresAtUnixMS
    ensures RunOn(w, c, more).writes != w.writes
  {
    hide Cleaned, UnixMilli, TableOK, NoHolder;
    var t := FreshThread(w.threads.Keys);
    var client := FreshClient(ResponsesOf(w).Keys);
    assert t !in w.threads.Keys && client !in ResponsesOf(w).Keys;
    KeptWithinTime(w.table, c.ttl, c.key, at);
    var begin, validate, write := Begin(t, client, "k", true, at, at), Validate(t, true, at, at), StartWrite(t);
    more := [begin, validate, write];
    var v := Step(w, c, begin);
    assert At(v, t) == Claiming(client, "k") && v.tracked == w.tracked && v.writes == w.writes;
    var u := Step(v, c, validate);
    assert At(u, t) == Claimed(client) && u.writes == w.writes;
    RunThree(w, c, begin, validate, write);
  }

  lemma RunThree(w: World, c: Config, a1: Action, a2: Action, a3: Action)
    ensures RunOn(w, c, [a1, a2, a3]) == Step(Step(Step(w, c, a1), c, a2), c, a3)
  {
    hide Step;
    assert [a1, a2, a3][..2] == [a1, a2] && [a1, a2][..1] == [a1] && [a1][..0] == [];
    assert RunOn(w, c, [a1]) == Step(RunOn(w, c, []), c, a1);
  }

  /** "A failed write leaves the request answerable", exactly: whatever others do, within the
      request's time, between the two sections of completing the failed write, the store ends
      up showing the request active; but the service still tracks it, and it can still be
      answered at all, if and only if no fresh client claimed in between. */
  lemma FailedWriteReopensIff(c: Config, before: seq<Action>, t1: nat, during: seq<Action>, at: int)
    requires var w := Run(c, before); At(w, t1).Wrote? && !At(w, t1).ok && w.mu.None? && ShowsLive(w.table, c.key)
    requires var until := Run(c, before).table[c.key].expiresAtUnixMS;
             && UnixMilli(at) <= until
             && forall i | 0 <= i < |during| :: Timely(during[i], until) && !(during[i].ReleaseStore? && during[i].t == t1)
    ensures var failed := Step(Run(c, before), c, Complete(t1));
            var done := Step(RunOn(failed, c, during), c, ReleaseStore(t1, at, at));
            && ShowsActive(done.table, c.key)
            && (done.tracked.Some? <==> !Intruded(failed, c, ResponsesOf(failed), during))
            && ((exists more :: RunOn(done, c, more).writes != done.writes) <==>
                !Intruded(failed, c, ResponsesOf(failed), during))
  {
    hide Inv, Held, Step, RunOn, Between, Intruded, Timely, TableOK, NoHolder, UnixMilli;
    var w := Run(c, before);
    StartHeld(c);
    RunOnKeepsHeld(START, c, before);
    FailedCompletion(w, c, t1);
    var failed := Step(w, c, Complete(t1));
    var record := w.table[c.key];
    BetweenRun(failed, c, t1, record, ResponsesOf(failed), during);
    StoreGivesBack(RunOn(failed, c, during), c, t1, record, ResponsesOf(failed), at, at);
    var done := Step(RunOn(failed, c, during), c, ReleaseStore(t1, at, at));
    if done.tracked.Some? {
      var more := TrackedIsAnswerable(done, c, at);
    } else {
      forall more ensures RunOn(done, c, more).writes == done.writes { DroppedForGood(done, c, more); }
    }
  }

  lemma StartHeld(c: Config)
    ensures Inv(START) && Held(START, c)
  {
  }

  lemma {:induction false} RunOnAppend(w: World, c: Config, first: seq<Action>, second: seq<Action>)
    ensures RunOn(w, c, first + second) == RunOn(RunOn(w, c, first), c, second)
  {
    hide Step;
    if second == [] {
      assert first + second == first;
    } else {
      RunOnAppend(w, c, first, second[..|second| - 1]);
      assert (first + second)[..|first + second| - 1] == first + second[..|second| - 1];
    }
  }

  lemma FirstRegistered(c: Config)
    requires c.cap > 0 && ValidRunScope(c.key.run) && c.key.pendingRequestID != ""
    ensures Step(START, c, Register(NANOS_PER_MILLI, 0, 0)) ==
            START.(table := map[c.key := PendingRecord(ActiveStatus, 0, 1, 0)], registered := true)
  {
    assert Cleaned(map[], c.ttl, 0) == map[];
    assert LiveKeys(map[]) == {};
  }

  lemma FirstClaim(c: Config)
    requires ValidRunScope(c.key.run)
    ensures var record := PendingRecord(ActiveStatus, 0, 1, 0);
            Claim(map[c.key := record], c.ttl, c.key, 0, 0).0 == map[c.key := record.(status := ClaimedStatus)]
            && Claim(map[c.key := record], c.ttl, c.key, 0, 0).1.Ok?
  {
    var record := PendingRecord(ActiveStatus, 0, 1, 0);
    assert Cleaned(map[c.key := record], c.ttl, 0) == map[c.key := record];
    assert map[c.key := record][c.key := record.(status := ClaimedStatus)] == map[c.key := record.(status := ClaimedStatus)];
  }

  lemma FirstThree(c: Config)
    requires c.cap > 0 && ValidRunScope(c.key.run) && c.key.pendingRequestID != ""
    ensures RunOn(START, c, [Register(NANOS_PER_MILLI, 0, 0), Track, Begin(1, "a", "k1", true, 0, 0)]) ==
            World(map[c.key := PendingRecord(ClaimedStatus, 0, 1, 0)], true, true, Some(Tracked(true, "", map[])), Some(1),
                  map[1 := Claiming("a", "k1")], [])
  {
    hide Claim, PendingModel.Register;
    FirstRegistered(c);
    FirstClaim(c);
    RunThree(START, c, Register(NANOS_PER_MILLI, 0, 0), Track, Begin(1, "a", "k1", true, 0, 0));
  }

  lemma NextThree(c: Config, w: World)
    requires w.mu == Some(1) && w.tracked == Some(Tracked(true, "", map[])) && w.threads == map[1 := Claiming("a", "k1")]
    ensures var v := RunOn(w, c, [Validate(1, true, 0, 0), StartWrite(1), FinishWrite(1, false)]);
            && v.table == w.table && v.mu.None? && v.threads == map[1 := Wrote("a", false)]
            && v.tracked == Some(Tracked(true, "a", map["a" := Entry("k1", Responding)]))
  {
    hide ReleaseClaim;
    RunThree(w, c, Validate(1, true, 0, 0), StartWrite(1), FinishWrite(1, false));
  }

  lemma ClaimedTable(table: PendingTable, c: Config)
    requires ValidRunScope(c.key.run) && table == map[c.key := PendingRecord(ClaimedStatus, 0, 1, 0)]
    ensures Claim(table, c.ttl, c.key, 0, 0) == (table, Err(PendingAlreadyResolved))
    ensures ShowsActive(ReleaseClaim(table, c.ttl, c.key, 0, 0).0, c.key)
  {
    assert Cleaned(table, c.ttl, 0) == table;
  }

  lemma LastThree(c: Config, w: World)
    requires ValidRunScope(c.key.run) && w.table == map[c.key := PendingRecord(ClaimedStatus, 0, 1, 0)]
    requires w.mu.None? && w.threads == map[1 := Wrote("a", false)]
    requires w.tracked == Some(Tracked(true, "a", map["a" := Entry("k1", Responding)]))
    ensures var v := RunOn(w, c, [Complete(1), Begin(2, "b", "k2", true, 0, 0), ReleaseStore(1, 0, 0)]);
            ShowsActive(v.table, c.key) && v.tracked.None? && NoHolder(v.threads)
  {
    hide Claim, ReleaseClaim, LiveKeys;
    ClaimedTable(w.table, c);
    RunThree(w, c, Complete(1), Begin(2, "b", "k2", true, 0, 0), ReleaseStore(1, 0, 0));
  }

  /** And such a claim does fall in between: one run from the start, at whose end the store
      shows the request active, the service has dropped it, and nobody is at work on it. */
  lemma DroppedActiveIsReachable(c: Config)
    requires c.cap > 0 && ValidRunScope(c.key.run) && c.key.pendingRequestID != ""
    ensures var actions := [Register(NANOS_PER_MILLI, 0, 0), Track, Begin(1, "a", "k1", true, 0, 0)]
                         + [Validate(1, true, 0, 0), StartWrite(1), FinishWrite(1, false)]
                         + [Complete(1), Begin(2, "b", "k2", true, 0, 0), ReleaseStore(1, 0, 0)];
            var w := Run(c, actions); ShowsActive(w.table, c.key) && w.tracked.None? && NoHolder(w.threads)
  {
    hide RunOn, Step, NoHolder, ShowsActive;
    var first := [Register(NANOS_PER_MILLI, 0, 0), Track, Begin(1, "a", "k1", true, 0, 0)];
    var next := [Validate(1, true, 0, 0), StartWrite(1), FinishWrite(1, false)];
    FirstThree(c);
    RunOnAppend(START, c, first, next);
    NextThree(c, RunOn(START, c, first));
    RunOnAppend(START, c, first + next, [Complete(1), Begin(2, "b", "k2", true, 0, 0), ReleaseStore(1, 0, 0)]);
    LastThree(c, Run(c, first + next));
  }
}
