/** How long a published result is repeated. A key lives from its publication for exactly the
    time to live, whatever passes run in between: until then every repeated call gets the
    owner's result, and after it the next call gets the key afresh. */
module KeyLifetimes {
  import opened Common
  import opened ReplayModel
  import opened RunsModel
  import opened IdempotencyModel
  import opened StartsModel

  /** The last moment at which the result of this call must still be repeated. */
  function Deadline(w: World, g: Config, c: nat): int
    requires c in w.publishedAt
  {
    w.publishedAt[c] / 1_000_000 * 1_000_000 + g.replayTTL
  }

  /** The clock reading of the cleanup pass a step begins with. */
  function SweepReading(a: Action): Option<int> {
    match a
    case Arrive(_, scope, cleanupAt, _) =>
      if scope.sessionGroupID != "" && scope.workspaceID != "" && scope.key != "" then Some(cleanupAt) else None
    case Proceed(_, PublishResult(cleanupAt, _)) => Some(cleanupAt)
    case Proceed(_, DropTheKey(cleanupAt)) => Some(cleanupAt)
    case Cleanup(cleanupAt) => Some(cleanupAt)
    case _ => None
  }

  // ----- what the entries remember ---------------------------------------------------------

  ghost predicate EntryTimeOK(w: World, k: StoreKey) {
    k in w.entries && w.entries[k].state.Succeeded? && k in w.owner ==>
      w.owner[k] in w.publishedAt && w.entries[k].updatedAtUnixMS == UnixMilli(w.publishedAt[w.owner[k]])
  }

  ghost predicate PublisherOK(w: World, c: nat) {
    c in w.publishedAt ==> c in w.callers && w.callers[c].pc.Finished? && w.callers[c].pc.outcome.Own?
  }

  ghost predicate TimesOK(w: World) {
    (forall k | k in w.entries :: EntryTimeOK(w, k)) && (forall c | c in w.publishedAt :: PublisherOK(w, c))
  }

  /** Steps that leave the entries alone, and publishers where they are. */
  lemma NeutralKeepsTimes(w: World, v: World, c: nat)
    requires TimesOK(w) && c in w.callers && KeyNeutral(w, v, c)
    ensures TimesOK(v)
  {
    forall k | k in v.entries ensures EntryTimeOK(v, k) { assert EntryTimeOK(w, k); }
    forall d | d in v.publishedAt ensures PublisherOK(v, d) { assert PublisherOK(w, d); }
  }

  /** Passes and releases only take entries away. */
  lemma FewerEntriesKeepTimes(w: World, v: World)
    requires TimesOK(w) && v.owner == w.owner && v.publishedAt == w.publishedAt
    requires forall k | k in v.entries :: k in w.entries && v.entries[k] == w.entries[k]
    requires forall c | c in w.publishedAt :: c in w.callers ==> c in v.callers && v.callers[c] == w.callers[c]
    ensures TimesOK(v)
  {
    forall k | k in v.entries ensures EntryTimeOK(v, k) { assert EntryTimeOK(w, k); }
    forall d | d in v.publishedAt ensures PublisherOK(v, d) { assert PublisherOK(w, d); }
  }

  lemma PublishFields(w: World, g: Config, c: nat, cleanupAt: int, now: int)
    requires KeysOK(w) && c in w.callers && w.callers[c].pc.Publish?
    ensures var v := PublishStep(w, g, c, cleanupAt, now); var k := KeyOf(w.callers[c].scope);
            && v.publishedAt == w.publishedAt[c := now] && v.owner == w.owner
            && k in w.owner && w.owner[k] == c && k in v.entries && v.entries[k].updatedAtUnixMS == UnixMilli(now)
            && (forall j | j in v.entries && j != k :: j in w.entries && v.entries[j] == w.entries[j])
            && v.callers == w.callers[c := v.callers[c]] && c in v.callers
            && v.callers[c].pc == Finished(Own(w.callers[c].pc.result))
  {
    KeeperHasEntry(w, c);
    InFlightIsKept(w.entries, g.replayTTL, cleanupAt, KeyOf(w.callers[c].scope));
    hide KeysOK, Expiring, KeyOf;
  }

  lemma PublishKeepsTimes(w: World, g: Config, c: nat, cleanupAt: int, now: int)
    requires KeysOK(w) && TimesOK(w) && c in w.callers && w.callers[c].pc.Publish?
    ensures TimesOK(PublishStep(w, g, c, cleanupAt, now))
  {
    PublishFields(w, g, c, cleanupAt, now);
    var v, k := PublishStep(w, g, c, cleanupAt, now), KeyOf(w.callers[c].scope);
    assert c !in w.publishedAt by { assert PublisherOK(w, c); }
    forall j | j in v.entries ensures EntryTimeOK(v, j) {
      if j != k {
        assert EntryTimeOK(w, j);
        assert EntryOK(w, j);
      }
    }
    hide PublishStep, KeyOf, KeysOK;
    forall d | d in v.publishedAt ensures PublisherOK(v, d) { assert d != c ==> PublisherOK(w, d); }
  }

  lemma DropKeyKeepsTimes(w: World, g: Config, c: nat, cleanupAt: int)
    requires TimesOK(w) && c in w.callers
    ensures TimesOK(DropKeyStep(w, g, c, cleanupAt))
  {
    hide Expiring, Stale;
    var v := DropKeyStep(w, g, c, cleanupAt);
    if w.callers[c].pc.DropKey? {
      assert c !in w.publishedAt by { assert PublisherOK(w, c); }
      FewerEntriesKeepTimes(w, v);
    }
  }

  /** What an arrival does to entries, owners and passes. */
  /** The entries of `v` are entries of `w` under the same owners, or new and in flight. */
  ghost predicate OldOrInFlight(w: World, v: World) {
    forall k | k in v.entries ::
      || (k in w.entries && v.entries[k] == w.entries[k] && (k in v.owner <==> k in w.owner)
          && (k in w.owner ==> v.owner[k] == w.owner[k]))
      || v.entries[k].state == InFlight
  }

  lemma ReserveShape(entries: Entries, cap: int, ttl: int, scope: IdempotencyScope, cleanupAt: int, now: int)
    ensures var (e, r) := Reserve(entries, cap, ttl, scope, cleanupAt, now); var k := KeyOf(scope);
            && (forall j | j in e && (!r.Fresh? || j != k) :: j in entries && e[j] == entries[j])
            && (r.Fresh? ==> k in e && e[k].state == InFlight)
  {
    hide Stale;
  }

  lemma ArriveEntries(w: World, g: Config, c: nat, scope: IdempotencyScope, cleanupAt: int, now: int)
    ensures OldOrInFlight(w, ArriveStep(w, g, c, scope, cleanupAt, now))
  {
    hide Expiring, Reserve, KeyOf;
    ReserveShape(w.entries, g.entriesCap, g.replayTTL, scope, cleanupAt, now);
  }

  /** What an arrival does to entries, owners and passes. */
  lemma ArriveShape(w: World, g: Config, c: nat, scope: IdempotencyScope, cleanupAt: int, now: int)
    ensures var v := ArriveStep(w, g, c, scope, cleanupAt, now);
            && c in v.callers && v.callers == w.callers[c := v.callers[c]] && v.publishedAt == w.publishedAt
            && v.expired == (if SweepReading(Arrive(c, scope, cleanupAt, now)).Some?
                             then w.expired + Expiring(w, g.replayTTL, cleanupAt) else w.expired)
            && OldOrInFlight(w, v)
  {
    hide Expiring, Reserve, OldOrInFlight;
    ArriveEntries(w, g, c, scope, cleanupAt, now);
  }

  lemma ArriveKeepsTimes(w: World, g: Config, c: nat, scope: IdempotencyScope, cleanupAt: int, now: int)
    requires TimesOK(w) && c !in w.callers
    ensures TimesOK(ArriveStep(w, g, c, scope, cleanupAt, now))
  {
    hide ArriveStep;
    ArriveShape(w, g, c, scope, cleanupAt, now);
    var v := ArriveStep(w, g, c, scope, cleanupAt, now);
    forall k | k in v.entries ensures EntryTimeOK(v, k) { assert k in w.entries ==> EntryTimeOK(w, k); }
    forall d | d in v.publishedAt ensures PublisherOK(v, d) { assert PublisherOK(w, d); }
  }

  lemma OthersKeepTimes(w: World, g: Config, a: Action)
    requires TimesOK(w) && (a.OtherRuns? || a.Cleanup?)
    ensures TimesOK(Step(w, g, a)) && Step(w, g, a).publishedAt == w.publishedAt
  {
    hide ApplyRuns, Expiring, Stale;
    FewerEntriesKeepTimes(w, Step(w, g, a));
  }

  lemma CallerKeepsTimes(w: World, g: Config, c: nat, move: CallerMove)
    requires KeysOK(w) && TimesOK(w) && c in w.callers && PathAt(w.callers[c])
    ensures TimesOK(CallerStep(w, g, c, move))
  {
    if move.PublishResult? {
      hide KeysOK, TimesOK, PathAt, PublishStep;
      PublishOrNothing(w, g, c, move.cleanupAt, move.now);
      if w.callers[c].pc.Publish? { PublishKeepsTimes(w, g, c, move.cleanupAt, move.now); }
    } else if move.DropTheKey? {
      hide KeysOK, TimesOK, PathAt, DropKeyStep;
      DropKeyKeepsTimes(w, g, c, move.cleanupAt);
    } else {
      hide KeysOK, TimesOK, PathAt, KeyNeutral, CallerStep;
      MoveIsKeyNeutral(w, g, c, move);
      NeutralKeepsTimes(w, CallerStep(w, g, c, move), c);
    }
  }

  lemma StepKeepsTimes(w: World, g: Config, a: Action)
    requires Inv(w, g) && TimesOK(w)
    ensures TimesOK(Step(w, g, a))
  {
    InvKeys(w, g);
    assert a.Proceed? && a.c in w.callers ==> PathAt(w.callers[a.c]) by { InvPaths(w, g); }
    hide Inv, KeysOK, TimesOK, PathAt, ArriveStep, CallerStep, ApplyRuns, Aged;
    match a
    case Arrive(c, scope, cleanupAt, now) => if c !in w.callers { ArriveKeepsTimes(w, g, c, scope, cleanupAt, now); }
    case Proceed(c, move) => if c in w.callers { CallerKeepsTimes(w, g, c, move); }
    case _ => OthersKeepTimes(w, g, a);
  }

  lemma PublishOrNothing(w: World, g: Config, c: nat, cleanupAt: int, now: int)
    requires c in w.callers
    ensures !w.callers[c].pc.Publish? ==> PublishStep(w, g, c, cleanupAt, now) == w
  {
  }

  lemma InvPaths(w: World, g: Config)
    requires Inv(w, g)
    ensures forall c | c in w.callers :: PathAt(w.callers[c])
  {
    hide PathAt;
  }

  lemma {:induction false} EveryRunTimes(g: Config, actions: seq<Action>)
    ensures TimesOK(Run(g, actions)) && Inv(Run(g, actions), g)
  {
    hide Step, TimesOK, Inv;
    EveryRunInv(g, actions);
    if actions == [] {
      assert TimesOK(START) by { StartTimes(); }
    } else {
      EveryRunTimes(g, actions[..|actions| - 1]);
      StepKeepsTimes(Run(g, actions[..|actions| - 1]), g, actions[|actions| - 1]);
    }
  }

  lemma StartTimes()
    ensures TimesOK(START)
  {
  }

  // ----- no result is forgotten before its time ------------------------------------------------

  /** Only a pass that reads past a call's deadline drops its result. */
  lemma ExpiringIsLate(w: World, g: Config, now: int, c: nat)
    requires TimesOK(w) && c in Expiring(w, g.replayTTL, now)
    ensures c in w.publishedAt && now > Deadline(w, g, c)
  {
    var k :| k in w.entries && k in w.owner && Stale(w.entries[k], g.replayTTL, now) && w.owner[k] == c;
    assert EntryTimeOK(w, k);
  }

  lemma SweepsExpire(w: World, g: Config, c: nat, cleanupAt: int, now: int)
    requires c in w.callers
    ensures PublishStep(w, g, c, cleanupAt, now).expired <= w.expired + Expiring(w, g.replayTTL, cleanupAt)
    ensures DropKeyStep(w, g, c, cleanupAt).expired <= w.expired + Expiring(w, g.replayTTL, cleanupAt)
  {
    hide Expiring, Complete, ReleaseKey;
  }

  lemma CallerExpires(w: World, g: Config, c: nat, move: CallerMove)
    requires c in w.callers && PathAt(w.callers[c])
    ensures var r := SweepReading(Proceed(c, move));
            CallerStep(w, g, c, move).expired <= w.expired + (if r.Some? then Expiring(w, g.replayTTL, r.value) else {})
  {
    hide PathAt, Expiring, ReserveCapStep, ConnectStep, CallTurnStep, CommitStep, CheckLocalStep, AbortStep,
      BindStep, UpdateStep, AppendStep, TerminateStep, PublishStep, DropKeyStep, DropCapacityStep, OtherStep;
    if move.PublishResult? {
      SweepsExpire(w, g, c, move.cleanupAt, move.now);
    } else if move.DropTheKey? {
      SweepsExpire(w, g, c, move.cleanupAt, 0);
    } else {
      MoveIsKeyNeutral(w, g, c, move);
    }
  }

  lemma OthersExpire(w: World, g: Config, a: Action)
    requires a.OtherRuns? || a.Cleanup?
    ensures Step(w, g, a).expired == (if a.Cleanup? then w.expired + Expiring(w, g.replayTTL, a.cleanupAt) else w.expired)
  {
    hide Expiring, CleanedEntries, ApplyRuns;
  }

  /** Only the pass a step begins with drops anything. */
  lemma StepExpires(w: World, g: Config, a: Action)
    requires Inv(w, g)
    ensures var r := SweepReading(a);
            Step(w, g, a).expired <= w.expired + (if r.Some? then Expiring(w, g.replayTTL, r.value) else {})
  {
    assert a.Proceed? && a.c in w.callers ==> PathAt(w.callers[a.c]) by { InvPaths(w, g); }
    hide Inv, PathAt, Expiring, ArriveStep, CallerStep, ApplyRuns, Aged;
    match a
    case Arrive(c, scope, cleanupAt, now) =>
      hide SweepReading;
      ArriveShape(w, g, c, scope, cleanupAt, now);
    case Proceed(c, move) =>
      hide SweepReading;
      if c in w.callers { CallerExpires(w, g, c, move); }
    case _ => OthersExpire(w, g, a);
  }

  lemma StepExpiresLate(w: World, g: Config, a: Action, c: nat)
    requires Inv(w, g) && TimesOK(w) && c !in w.expired && c in Step(w, g, a).expired
    ensures SweepReading(a).Some? && c in w.publishedAt && SweepReading(a).value > Deadline(w, g, c)
  {
    hide Inv, TimesOK, Step, Expiring, Deadline, SweepReading;
    StepExpires(w, g, a);
    ExpiringIsLate(w, g, SweepReading(a).value, c);
  }

  /** A result is dropped only by a pass that reads more than the time to live past its
      publication (to the millisecond the store keeps), in every run. */
  lemma {:induction false} ExpiredOnlyAfterTTL(g: Config, actions: seq<Action>, c: nat) returns (i: nat)
    requires c in Run(g, actions).expired
    ensures i < |actions| && SweepReading(actions[i]).Some? && c in Run(g, actions[..i]).publishedAt
    ensures SweepReading(actions[i]).value > Deadline(Run(g, actions[..i]), g, c)
  {
    hide Step, TimesOK, Inv, Deadline, SweepReading;
    var init := actions[..|actions| - 1];
    if c in Run(g, init).expired {
      i := ExpiredOnlyAfterTTL(g, init, c);
      assert init[..i] == actions[..i];
    } else {
      i := |actions| - 1;
      EveryRunTimes(g, init);
      StepExpiresLate(Run(g, init), g, actions[i], c);
    }
  }

  /** What a step does to publication times and to calls that have published. */
  ghost predicate TimesStay(w: World, v: World, c: nat) {
    && c in w.publishedAt && c in v.publishedAt && v.publishedAt[c] == w.publishedAt[c]
    && c in w.callers && c in v.callers && v.callers[c] == w.callers[c]
  }

  lemma CallerStepKeepsPublished(w: World, g: Config, d: nat, move: CallerMove, c: nat)
    requires d in w.callers && PathAt(w.callers[d]) && c in w.publishedAt && c in w.callers
    requires w.callers[c].pc.Finished? && w.callers[c].pc.outcome.Own?
    ensures TimesStay(w, CallerStep(w, g, d, move), c)
  {
    hide PathAt, Expiring, ReserveCapStep, ConnectStep, CallTurnStep, CommitStep, CheckLocalStep,
      AbortStep, BindStep, UpdateStep, AppendStep, TerminateStep, PublishStep, DropKeyStep, DropCapacityStep, OtherStep;
    if move.PublishResult? {
      PublishMoves(w, g, d, move.cleanupAt, move.now);
    } else if move.DropTheKey? {
      DropKeyMoves(w, g, d, move.cleanupAt);
    } else {
      hide CallerStep;
      MoveIsKeyNeutral(w, g, d, move);
      NeutralKeepsPublished(w, CallerStep(w, g, d, move), d, c);
    }
  }

  lemma NeutralKeepsPublished(w: World, v: World, d: nat, c: nat)
    requires d in w.callers && KeyNeutral(w, v, d) && c in w.publishedAt && c in w.callers
    requires w.callers[c].pc.Finished? && w.callers[c].pc.outcome.Own?
    ensures TimesStay(w, v, c)
  {
    hide PathAt;
  }

  lemma PublishedStays(w: World, g: Config, a: Action, c: nat)
    requires Inv(w, g) && TimesOK(w) && c in w.publishedAt
    ensures c in w.callers && TimesStay(w, Step(w, g, a), c)
  {
    assert PublisherOK(w, c);
    assert a.Proceed? && a.c in w.callers ==> PathAt(w.callers[a.c]) by { InvPaths(w, g); }
    hide Inv, KeysOK, TimesOK, PathAt, Expiring, ArriveStep, CallerStep, ApplyRuns;
    match a
    case Arrive(d, scope, cleanupAt, now) => if d !in w.callers { ArriveShape(w, g, d, scope, cleanupAt, now); }
    case Proceed(d, move) => if d in w.callers { CallerStepKeepsPublished(w, g, d, move, c); }
    case _ =>
  }

  lemma PublishMoves(w: World, g: Config, d: nat, cleanupAt: int, now: int)
    requires d in w.callers
    ensures var v := PublishStep(w, g, d, cleanupAt, now);
            v == w || (w.callers[d].pc.Publish? && d in v.callers && v.callers == w.callers[d := v.callers[d]]
                       && (v.publishedAt == w.publishedAt || v.publishedAt == w.publishedAt[d := now]))
  {
    hide Expiring, Complete;
  }

  lemma DropKeyMoves(w: World, g: Config, d: nat, cleanupAt: int)
    requires d in w.callers
    ensures var v := DropKeyStep(w, g, d, cleanupAt);
            v == w || (w.callers[d].pc.DropKey? && d in v.callers && v.callers == w.callers[d := v.callers[d]]
                       && v.publishedAt == w.publishedAt)
  {
    hide Expiring, ReleaseKey;
  }

  /** All passes of these steps read no later than this. */
  predicate SweepsBy(actions: seq<Action>, time: int) {
    forall i | 0 <= i < |actions| :: SweepReading(actions[i]).Some? ==> SweepReading(actions[i]).value <= time
  }

  lemma {:induction false} NotExpiredBefore(g: Config, actions: seq<Action>, c: nat)
    requires c in Run(g, actions).publishedAt && SweepsBy(actions, Deadline(Run(g, actions), g, c))
    ensures c !in Run(g, actions).expired
  {
    hide Run, SweepReading;
    if c in Run(g, actions).expired {
      var i := ExpiredOnlyAfterTTL(g, actions, c);
      PublishedSince(g, actions, i, c);
    }
  }

  lemma {:induction false} PublishedSince(g: Config, actions: seq<Action>, i: nat, c: nat)
    requires i <= |actions| && c in Run(g, actions[..i]).publishedAt
    ensures c in Run(g, actions).publishedAt && Run(g, actions).publishedAt[c] == Run(g, actions[..i]).publishedAt[c]
  {
    hide Step, TimesOK, Inv;
    if i == |actions| {
      assert actions[..i] == actions;
    } else {
      var init := actions[..|actions| - 1];
      assert init[..i] == actions[..i];
      PublishedSince(g, init, i, c);
      EveryRunTimes(g, init);
      PublishedStays(Run(g, init), g, actions[|actions| - 1], c);
    }
  }

  /** The call has published a result with a chat and a run, which can be repeated. */
  predicate HasResult(w: World, c: nat, result: ResultRef) {
    c in w.callers && w.callers[c].pc == Finished(Own(result)) && result.chatID != "" && result.runID != ""
  }

  lemma StoredResult(w: World, g: Config, c: nat, result: ResultRef)
    requires Inv(w, g) && TimesOK(w) && HasResult(w, c, result) && c !in w.expired
    ensures var k := KeyOf(w.callers[c].scope);
            && OwnsEntry(w, c, k) && w.entries[k].scope == w.callers[c].scope && w.entries[k].state == Succeeded(result)
            && c in w.publishedAt && w.entries[k].updatedAtUnixMS == UnixMilli(w.publishedAt[c])
  {
    InvKeys(w, g);
    var k := KeyOf(w.callers[c].scope);
    assert CallerOK(w, c) && EntryOK(w, k) && EntryTimeOK(w, k);
  }

  lemma ArriveFindsResult(w: World, g: Config, c: nat, result: ResultRef, d: nat, cleanupAt: int, now: int)
    requires Inv(w, g) && TimesOK(w) && HasResult(w, c, result) && c !in w.expired && d !in w.callers
    requires ValidIdempotencyScope(w.callers[c].scope) && c in w.publishedAt && cleanupAt <= Deadline(w, g, c)
    ensures var v := ArriveStep(w, g, d, w.callers[c].scope, cleanupAt, now);
            v.callers[d].pc == Finished(Replayed(c, result))
  {
    StoredResult(w, g, c, result);
    hide Inv, TimesOK, Expiring, KeyOf, ValidIdempotencyScope;
  }

  /** A repeated call within the time to live gets exactly the owner's result, in every run
      whose passes all read within it. */
  lemma RetryWithinTTLIsReplayed(g: Config, actions: seq<Action>, c: nat, result: ResultRef, d: nat, cleanupAt: int, now: int)
    requires var w := Run(g, actions); HasResult(w, c, result) && d !in w.callers && ValidIdempotencyScope(w.callers[c].scope)
    requires c in Run(g, actions).publishedAt
    requires SweepsBy(actions, Deadline(Run(g, actions), g, c)) && cleanupAt <= Deadline(Run(g, actions), g, c)
    ensures var w := Run(g, actions); var v := Step(w, g, Arrive(d, w.callers[c].scope, cleanupAt, now));
            d in v.callers && v.callers[d].pc == Finished(Replayed(c, result))
  {
    hide Run, Inv, TimesOK, ArriveStep, SweepsBy, Deadline;
    EveryRunTimes(g, actions);
    NotExpiredBefore(g, actions, c);
    var w := Run(g, actions);
    ArriveFindsResult(w, g, c, result, d, cleanupAt, now);
    ArriveShape(w, g, d, w.callers[c].scope, cleanupAt, now);
  }

  // ----- room ------------------------------------------------------------------------------

  /** The table never outgrows its cap. */
  lemma {:induction false} EntriesWithinCap(g: Config, actions: seq<Action>)
    requires g.entriesCap >= 0
    ensures |Run(g, actions).entries| <= g.entriesCap
  {
    hide Step, Inv;
    if actions != [] {
      var init := actions[..|actions| - 1];
      EntriesWithinCap(g, init);
      EveryRunInv(g, init);
      StepKeepsCap(Run(g, init), g, actions[|actions| - 1]);
    }
  }

  lemma ReserveKeepsCap(entries: Entries, g: Config, scope: IdempotencyScope, cleanupAt: int, now: int)
    requires |entries| <= g.entriesCap
    ensures |Reserve(entries, g.entriesCap, g.replayTTL, scope, cleanupAt, now).0| <= g.entriesCap
  {
    hide CleanedEntries;
    CleanupShrinks(entries, g.replayTTL, cleanupAt);
  }

  lemma ReplacingKeepsSize<K, V>(m: map<K, V>, k: K, v: V)
    requires k in m
    ensures |m[k := v]| == |m|
  {
    assert m[k := v].Keys == m.Keys;
  }

  lemma PublishKeepsCap(w: World, g: Config, c: nat, cleanupAt: int, now: int)
    requires c in w.callers && |w.entries| <= g.entriesCap
    ensures |PublishStep(w, g, c, cleanupAt, now).entries| <= g.entriesCap
    ensures |DropKeyStep(w, g, c, cleanupAt).entries| <= g.entriesCap
  {
    hide CleanedEntries, Expiring;
    CleanupShrinks(w.entries, g.replayTTL, cleanupAt);
    var e, k := CleanedEntries(w.entries, g.replayTTL, cleanupAt), KeyOf(w.callers[c].scope);
    RemovalShrinks(e, k);
    if k in e && w.callers[c].pc.Publish? {
      ReplacingKeepsSize(e, k, e[k].(state := Succeeded(w.callers[c].pc.result), updatedAtUnixMS := UnixMilli(now)));
    }
  }

  lemma CallerKeepsCap(w: World, g: Config, c: nat, move: CallerMove)
    requires c in w.callers && PathAt(w.callers[c]) && |w.entries| <= g.entriesCap
    ensures |CallerStep(w, g, c, move).entries| <= g.entriesCap
  {
    hide PathAt, Expiring, CleanedEntries, ReserveCapStep, ConnectStep, CallTurnStep, CommitStep, CheckLocalStep,
      AbortStep, BindStep, UpdateStep, AppendStep, TerminateStep, PublishStep, DropKeyStep, DropCapacityStep, OtherStep;
    if move.PublishResult? {
      PublishKeepsCap(w, g, c, move.cleanupAt, move.now);
    } else if move.DropTheKey? {
      PublishKeepsCap(w, g, c, move.cleanupAt, 0);
    } else {
      MoveIsKeyNeutral(w, g, c, move);
    }
  }

  lemma StepKeepsCap(w: World, g: Config, a: Action)
    requires Inv(w, g) && |w.entries| <= g.entriesCap
    ensures |Step(w, g, a).entries| <= g.entriesCap
  {
    assert a.Proceed? && a.c in w.callers ==> PathAt(w.callers[a.c]) by { InvPaths(w, g); }
    hide Inv, PathAt, Expiring, CleanedEntries, ArriveStep, CallerStep, ApplyRuns;
    match a
    case Arrive(c, scope, cleanupAt, now) => if c !in w.callers { ArriveKeepsCap(w, g, c, scope, cleanupAt, now); }
    case Proceed(c, move) => if c in w.callers { CallerKeepsCap(w, g, c, move); }
    case Cleanup(now) => CleanupShrinks(w.entries, g.replayTTL, now);
    case _ =>
  }

  lemma ArriveKeepsCap(w: World, g: Config, c: nat, scope: IdempotencyScope, cleanupAt: int, now: int)
    requires |w.entries| <= g.entriesCap
    ensures |ArriveStep(w, g, c, scope, cleanupAt, now).entries| <= g.entriesCap
  {
    hide Reserve, Expiring;
    ReserveKeepsCap(w.entries, g, scope, cleanupAt, now);
  }

  // ----- and none is kept beyond it ----------------------------------------------------------

  /** A pass past the deadline drops the result: nobody finds it any more. */
  lemma NoneKeptBeyondTTL(g: Config, actions: seq<Action>, c: nat, cleanupAt: int)
    requires c in Run(g, actions).publishedAt && cleanupAt > Deadline(Run(g, actions), g, c)
    ensures var v := Step(Run(g, actions), g, Cleanup(cleanupAt)); forall k :: !OwnsEntry(v, c, k)
  {
    hide Run, Inv, KeysOK;
    EveryRunTimes(g, actions);
    var w := Run(g, actions);
    InvKeys(w, g);
    forall k ensures !OwnsEntry(Step(w, g, Cleanup(cleanupAt)), c, k) {
      if OwnsEntry(w, c, k) { PublishedEntry(w, c, k); }
    }
  }

  lemma PublishedEntry(w: World, c: nat, k: StoreKey)
    requires KeysOK(w) && TimesOK(w) && OwnsEntry(w, c, k) && c in w.publishedAt
    ensures w.entries[k].state.Succeeded? && w.entries[k].updatedAtUnixMS == UnixMilli(w.publishedAt[c])
  {
    assert EntryOK(w, k) && EntryTimeOK(w, k) && PublisherOK(w, c);
  }

  lemma ArriveAfterDeadline(w: World, g: Config, c: nat, result: ResultRef, d: nat, cleanupAt: int, now: int)
    requires Inv(w, g) && TimesOK(w) && HasResult(w, c, result) && c !in w.expired && d !in w.callers
    requires ValidIdempotencyScope(w.callers[c].scope) && |w.entries| <= g.entriesCap
    requires c in w.publishedAt && cleanupAt > Deadline(w, g, c)
    ensures ArriveStep(w, g, d, w.callers[c].scope, cleanupAt, now).callers[d].pc == KeyHeld
  {
    StoredResult(w, g, c, result);
    var k := KeyOf(w.callers[c].scope);
    var e := CleanedEntries(w.entries, g.replayTTL, cleanupAt);
    assert k !in e;
    SubsetSize(e.Keys, w.entries.Keys - {k});
    hide Inv, TimesOK, Expiring, KeyOf, ValidIdempotencyScope, Stale, CleanedEntries;
  }

  /** So the first call with the same scope that comes later, while the result is still there,
      gets the key afresh: it always finds room, in every run. */
  lemma LateRetryIsFresh(g: Config, actions: seq<Action>, c: nat, result: ResultRef, d: nat, cleanupAt: int, now: int)
    requires g.entriesCap >= 0
    requires var w := Run(g, actions);
             && HasResult(w, c, result) && c !in w.expired && d !in w.callers && ValidIdempotencyScope(w.callers[c].scope)
             && c in w.publishedAt && cleanupAt > Deadline(w, g, c)
    ensures var w := Run(g, actions); var v := Step(w, g, Arrive(d, w.callers[c].scope, cleanupAt, now));
            d in v.callers && v.callers[d].pc == KeyHeld
  {
    hide Run, Inv, TimesOK, ArriveStep, Deadline, SweepReading;
    EveryRunTimes(g, actions);
    EntriesWithinCap(g, actions);
    var w := Run(g, actions);
    ArriveAfterDeadline(w, g, c, result, d, cleanupAt, now);
    ArriveShape(w, g, d, w.callers[c].scope, cleanupAt, now);
  }

  // ----- what an arrival finds --------------------------------------------------------------

  /** What a call gets for its key: a living entry of its own scope that has a result is
      repeated, any other living entry and a full table turn it away, and else the key is its. */
  ghost predicate Admits(w: World, v: World, g: Config, d: nat, scope: IdempotencyScope, at: int) {
    && Newcomes(w, v, d, scope)
    && if !Keyed(scope) then v.callers[d].pc == Finished(Rejected) && v.entries == w.entries
       else if Alive(w.entries, SlotOf(scope), g.replayTTL, at) then MeetsEntry(w, v.callers[d].pc, scope)
       else if |AliveKeys(w.entries, g.replayTTL, at)| >= g.entriesCap then v.callers[d].pc == Finished(Rejected)
       else TakesKey(v, d, scope)
  }

  ghost predicate Newcomes(w: World, v: World, d: nat, scope: IdempotencyScope) {
    && d in v.callers && v.callers == w.callers[d := v.callers[d]] && v.callers[d].scope == scope && !v.callers[d].attempted
    && v.runs == w.runs && v.effects == w.effects && v.publishedAt == w.publishedAt
  }

  ghost predicate TakesKey(v: World, d: nat, scope: IdempotencyScope) {
    && d in v.callers && v.callers[d].pc == KeyHeld && OwnsEntry(v, d, SlotOf(scope))
    && v.entries[SlotOf(scope)].state == InFlight && v.entries[SlotOf(scope)].scope == scope
  }

  ghost predicate MeetsEntry(w: World, pc: Pc, scope: IdempotencyScope)
    requires SlotOf(scope) in w.entries
  {
    var k := SlotOf(scope);
    if w.entries[k].scope != scope then pc == Finished(Rejected)
    else match w.entries[k].state
      case InFlight => pc == Finished(Rejected)
      case Succeeded(result) =>
        if result.chatID == "" || result.runID == "" then pc == Finished(Rejected)
        else
          && k in w.owner && w.owner[k] in w.callers && w.callers[w.owner[k]].scope == scope
          && w.callers[w.owner[k]].pc == Finished(Own(result)) && pc == Finished(Replayed(w.owner[k], result))
  }

  lemma ArrivalNewcomes(w: World, g: Config, d: nat, scope: IdempotencyScope, at: int, now: int)
    ensures Newcomes(w, ArriveStep(w, g, d, scope, at, now), d, scope)
  {
    hide Reserve, Expiring, KeyOf;
  }

  /** How an arrival takes what the reservation says. */
  lemma ArrivalTakes(w: World, g: Config, d: nat, scope: IdempotencyScope, at: int, now: int)
    ensures var (e, r) := Reserve(w.entries, g.entriesCap, g.replayTTL, scope, at, now);
            var v := ArriveStep(w, g, d, scope, at, now); var k := SlotOf(scope);
            && v.entries == e && d in v.callers
            && (r.NotReserved? ==> v.callers[d].pc == Finished(Rejected))
            && (r.Fresh? ==> v.callers[d].pc == KeyHeld && k in v.owner && v.owner[k] == d)
            && (r.Reused? ==> v.callers[d].pc == Finished(
                  if r.entry.state.Succeeded? && r.entry.state.result.chatID != "" && r.entry.state.result.runID != "" && k in w.owner
                  then Replayed(w.owner[k], r.entry.state.result) else Rejected))
  {
    hide Reserve, Expiring;
  }

  lemma OwnerHasResult(w: World, scope: IdempotencyScope)
    requires KeysOK(w) && SlotOf(scope) in w.entries && w.entries[SlotOf(scope)].scope == scope
    ensures var k := SlotOf(scope);
            && k in w.owner && w.owner[k] in w.callers && w.callers[w.owner[k]].scope == scope
            && (w.entries[k].state.Succeeded? ==> w.callers[w.owner[k]].pc == Finished(Own(w.entries[k].state.result)))
  {
    assert EntryOK(w, SlotOf(scope));
  }

  lemma ArrivalFinds(w: World, g: Config, d: nat, scope: IdempotencyScope, at: int, now: int)
    requires KeysOK(w) && d !in w.callers
    ensures Admits(w, ArriveStep(w, g, d, scope, at, now), g, d, scope, at)
  {
    hide KeysOK, Reserve, Alive, SlotOf, OnlyAlive, ArriveStep, Newcomes;
    IdempotencyModel.ReservationVerdict(w.entries, g.entriesCap, g.replayTTL, scope, at, now);
    ArrivalNewcomes(w, g, d, scope, at, now);
    ArrivalTakes(w, g, d, scope, at, now);
    NewcomerKnown(w, ArriveStep(w, g, d, scope, at, now), d, scope);
    if Alive(w.entries, SlotOf(scope), g.replayTTL, at) {
      AliveIsThere(w.entries, SlotOf(scope), g.replayTTL, at);
      if w.entries[SlotOf(scope)].scope == scope { OwnerHasResult(w, scope); }
    }
  }

  lemma NewcomerKnown(w: World, v: World, d: nat, scope: IdempotencyScope)
    requires Newcomes(w, v, d, scope)
    ensures d in v.callers
  {
  }

  lemma AliveIsThere(entries: Entries, k: StoreKey, ttl: int, at: int)
    requires Alive(entries, k, ttl, at)
    ensures k in entries
  {
  }

  /** In every run. */
  lemma ArrivalVerdict(g: Config, actions: seq<Action>, d: nat, scope: IdempotencyScope, at: int, now: int)
    requires d !in Run(g, actions).callers
    ensures Admits(Run(g, actions), Step(Run(g, actions), g, Arrive(d, scope, at, now)), g, d, scope, at)
  {
    hide Run, Inv, ArriveStep, Admits;
    EveryRunInv(g, actions);
    InvKeys(Run(g, actions), g);
    ArrivalFinds(Run(g, actions), g, d, scope, at, now);
  }
}
