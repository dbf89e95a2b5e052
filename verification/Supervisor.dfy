/** The app-server supervisor: one stored connection, at most one connect attempt, restart
    backoff and shutdown. Each function of `State` is one critical section; the class holds
    the same sections as updates of its fields, and the world below runs any number of
    callers through them with every outcome of the connector. */
module Supervision {
  import opened Common

  const FAILURE_THRESHOLD := 3
  const COOLDOWN := 30_000_000_000

  datatype Error = Canceled | DeadlineExceeded | Backoff | ConnectError(code: int)

  /** What a connector gives: a connection, an error, both or neither. */
  datatype Outcome = Outcome(connection: Option<nat>, error: Option<Error>)

  const CANCELED := Outcome(None, Some(Canceled))

  /** What a joiner makes of an attempt's result: an error hides the connection. */
  function Seen(outcome: Outcome): Outcome {
    if outcome.error.Some? then Outcome(None, outcome.error) else outcome
  }

  datatype State = State(active: Option<nat>, connecting: Option<nat>, nextAttempt: nat, failures: nat,
                         cooldownUntil: Option<int>, closed: bool)

  const IDLE := State(None, None, 0, 0, None, false)

  datatype Entry = HandedOut(outcome: Outcome) | Join(attempt: nat) | Start(attempt: nat)

  predicate InCooldown(s: State, now: int) {
    s.cooldownUntil.Some? && now < s.cooldownUntil.value
  }

  /** The first section of `Connection`; `activeDone` tells whether the stored connection has ended. */
  function Enter(s: State, activeDone: bool, now: int): (State, Entry) {
    if s.closed then (s, HandedOut(CANCELED))
    else if s.active.Some? && !activeDone then (s, HandedOut(Outcome(s.active, None)))
    else
      var u := s.(active := None);
      if InCooldown(u, now) then (u, HandedOut(Outcome(None, Some(Backoff))))
      else if u.connecting.Some? then (u, Join(u.connecting.value))
      else (u.(connecting := Some(u.nextAttempt), nextAttempt := u.nextAttempt + 1), Start(u.nextAttempt))
  }

  predicate Counts(outcome: Outcome) {
    outcome.error.Some? && outcome.error != Some(Canceled) && outcome.error != Some(DeadlineExceeded)
  }

  function Forget(s: State, attempt: nat): State {
    if s.connecting == Some(attempt) then s.(connecting := None) else s
  }

  /** What a returned attempt does to the counters and the stored connection. */
  function Absorbed(s: State, outcome: Outcome, now: int): State {
    if Counts(outcome) then
      s.(failures := s.failures + 1,
         cooldownUntil := if s.failures + 1 >= FAILURE_THRESHOLD then Some(now + COOLDOWN) else s.cooldownUntil)
    else if outcome.error.None? then s.(failures := 0, cooldownUntil := None, active := outcome.connection)
    else s
  }

  /** The section after the connector returned: the result of the attempt, and a connection
      that arrived after `Close`. That one is closed first, outside the lock; otherwise the
      attempt is done within this section. */
  function Settle(s: State, attempt: nat, outcome: Outcome, now: int): (State, Outcome, Option<nat>) {
    if s.closed then
      (if outcome.connection.Some? then s else Forget(s, attempt),
       Outcome(None, if outcome.error.None? then Some(Canceled) else outcome.error),
       outcome.connection)
    else (Forget(Absorbed(s, outcome, now), attempt), outcome, None)
  }

  function Marked(s: State, connection: nat): State {
    if s.active == Some(connection) then s.(active := None) else s
  }

  /** The section of `Close`: what it still has to close and to wait for. */
  function Shut(s: State): (State, Option<nat>, Option<nat>) {
    (s.(closed := true, active := None), s.active, s.connecting)
  }

  datatype SupervisorState = StateIdle | StateConnecting | StateActive | StateBackoff | StateClosed

  function Status(s: State, activeDone: bool, now: int): SupervisorState {
    if s.closed then StateClosed
    else if InCooldown(s, now) then StateBackoff
    else if s.connecting.Some? then StateConnecting
    else if s.active.Some? && !activeDone then StateActive
    else StateIdle
  }

  // ----- the supervisor itself ----------------------------------------------------------

  class Supervisor {
    var active: Option<nat>
    var connecting: Option<nat>
    var nextAttempt: nat
    var failures: nat
    var cooldownUntil: Option<int>
    var closed: bool

    ghost function View(): State
      reads this
    {
      State(active, connecting, nextAttempt, failures, cooldownUntil, closed)
    }

    /** Nothing is stored beside an attempt or after `Close`, and the cooldown stands exactly
        at the threshold. */
    ghost predicate Valid()
      reads this
    {
      && (connecting.Some? ==> active.None? && connecting.value < nextAttempt)
      && (closed ==> active.None?)
      && (cooldownUntil.Some? <==> failures >= FAILURE_THRESHOLD)
    }

    constructor ()
      ensures Valid() && View() == IDLE
    {
      active, connecting, nextAttempt := None, None, 0;
      failures, cooldownUntil, closed := 0, None, false;
    }

    method EnterConnection(activeDone: bool, now: int) returns (entry: Entry)
      requires Valid()
      modifies `active, `connecting, `nextAttempt
      ensures Valid() && (entry.Start? ==> connecting == Some(entry.attempt) && old(connecting).None?)
      ensures (View(), entry) == Enter(old(View()), activeDone, now)
    {
      if closed { return HandedOut(CANCELED); }
      if active.Some? {
        if activeDone { active := None; } else { return HandedOut(Outcome(active, None)); }
      }
      if cooldownUntil.Some? && now < cooldownUntil.value { return HandedOut(Outcome(None, Some(Backoff))); }
      if connecting.Some? { return Join(connecting.value); }
      entry := Start(nextAttempt);
      connecting, nextAttempt := Some(nextAttempt), nextAttempt + 1;
    }

    /** The call that started the attempt, which is then the one in progress, settles it. */
    method SettleAttempt(attempt: nat, outcome: Outcome, now: int) returns (result: Outcome, toClose: Option<nat>)
      requires Valid()
      modifies `failures, `cooldownUntil, `active, `connecting
      ensures old(connecting) == Some(attempt) ==> Valid() && (connecting.Some? <==> toClose.Some?)
      ensures toClose.Some? ==> closed
      ensures (View(), result, toClose) == Settle(old(View()), attempt, outcome, now)
    {
      result, toClose := outcome, None;
      if closed {
        if outcome.connection.Some? {
          toClose := outcome.connection;
          result := result.(connection := None);
        }
        if outcome.error.None? { result := result.(error := Some(Canceled)); }
      } else if outcome.error.Some? && outcome.error != Some(Canceled) && outcome.error != Some(DeadlineExceeded) {
        failures := failures + 1;
        if failures >= FAILURE_THRESHOLD { cooldownUntil := Some(now + COOLDOWN); }
      } else if outcome.error.None? {
        failures, cooldownUntil := 0, None;
        active := outcome.connection;
      }
      if toClose.None? { ForgetAttempt(attempt); }
    }

    method ForgetAttempt(attempt: nat)
      modifies `connecting
      ensures View() == Forget(old(View()), attempt) && connecting != Some(attempt)
    {
      if connecting == Some(attempt) { connecting := None; }
    }

    method MarkClosed(connection: nat)
      requires Valid()
      modifies `active
      ensures Valid() && active != Some(connection)
      ensures View() == Marked(old(View()), connection)
    {
      if active == Some(connection) { active := None; }
    }

    method ShutDown() returns (toClose: Option<nat>, toAwait: Option<nat>)
      requires Valid()
      modifies `closed, `active
      ensures Valid() && (toClose.None? || toAwait.None?)
      ensures (View(), toClose, toAwait) == Shut(old(View()))
    {
      closed := true;
      toClose := active;
      active := None;
      toAwait := connecting;
    }

    method CurrentStatus(activeDone: bool, now: int) returns (status: SupervisorState)
      ensures status == Status(View(), activeDone, now)
    {
      if closed { return StateClosed; }
      if cooldownUntil.Some? && now < cooldownUntil.value { return StateBackoff; }
      if connecting.Some? { return StateConnecting; }
      status := if active.Some? && !activeDone then StateActive else StateIdle;
    }
  }

  // ----- any number of callers --------------------------------------------------------------

  datatype Pc =
    | Connecting(attempt: nat)                              // the connector runs
    | ClosingLate(attempt: nat, connection: nat, result: Outcome)  // a late connection is being closed
    | Joined(attempt: nat)                                  // waits for another call's attempt
    | Returned(outcome: Outcome, origin: Option<nat>)       // and which attempt it came from
    | Closing(active: Option<nat>, awaited: Option<nat>)
    | Awaiting(awaited: Option<nat>)
    | CloseReturned

  datatype Attempt = Attempt(starter: nat, result: Option<Outcome>, done: bool)

  datatype Event = Started(at: int) | Failed(at: int) | Succeeded(at: int)

  /** `produced` are all connections a connector ever gave, `gone` those that ended by
      themselves or were given up with MarkClosed, `late` those that came after the close, and
      `shut` those the supervisor closed. `history` records starts, counted failures and
      successes. */
  datatype World = World(
    s: State,
    threads: map<nat, Pc>,
    attempts: map<nat, Attempt>,
    produced: set<nat>,
    gone: set<nat>,
    late: set<nat>,
    shut: set<nat>,
    history: seq<Event>,
    clock: int)

  const START := World(IDLE, map[], map[], {}, {}, {}, {}, [], 0)

  datatype Action =
    | Call(t: nat, now: int)
    | ConnectorReturns(t: nat, outcome: Outcome, now: int)
    | LateClosed(t: nat)
    | JoinerWakes(t: nat)
    | JoinerGivesUp(t: nat, error: Error)
    | ConnectionEnds(connection: nat)
    | GiveUpConnection(connection: nat)
    | BeginClose(t: nat)
    | ActiveClosed(t: nat)
    | AttemptAwaited(t: nat)

  function Elements(connection: Option<nat>): set<nat> {
    if connection.Some? then {connection.value} else {}
  }

  function CallStep(w: World, t: nat, now: int): World {
    var (s, entry) := Enter(w.s, w.s.active.Some? && w.s.active.value in w.gone, now);
    var v := w.(s := s, clock := now);
    match entry
    case HandedOut(outcome) => v.(threads := w.threads[t := Returned(outcome, None)])
    case Join(a) => v.(threads := w.threads[t := Joined(a)])
    case Start(a) =>
      v.(threads := w.threads[t := Connecting(a)], attempts := w.attempts[a := Attempt(t, None, false)],
         history := w.history + [Started(now)])
  }

  /** What the history gains when an attempt settles. */
  function Recorded(closed: bool, outcome: Outcome, now: int): seq<Event> {
    if closed then []
    else if Counts(outcome) then [Failed(now)]
    else if outcome.error.None? then [Succeeded(now)]
    else []
  }

  function ReturnStep(w: World, t: nat, outcome: Outcome, now: int): World
    requires t in w.threads && w.threads[t].Connecting?
  {
    var a := w.threads[t].attempt;
    var (s, result, late) := Settle(w.s, a, outcome, now);
    w.(s := s, clock := now, produced := w.produced + Elements(outcome.connection), late := w.late + Elements(late),
       history := w.history + Recorded(w.s.closed, outcome, now),
       threads := w.threads[t := if late.Some? then ClosingLate(a, late.value, result) else Returned(result, Some(a))],
       attempts := w.attempts[a := Attempt(t, Some(result), late.None?)])
  }

  function LateClosedStep(w: World, t: nat): World
    requires t in w.threads && w.threads[t].ClosingLate?
  {
    var pc := w.threads[t];
    w.(s := Forget(w.s, pc.attempt), shut := w.shut + {pc.connection},
       threads := w.threads[t := Returned(pc.result, Some(pc.attempt))],
       attempts := w.attempts[pc.attempt := Attempt(t, Some(pc.result), true)])
  }

  function WakeStep(w: World, t: nat): World {
    if t in w.threads && w.threads[t].Joined? && IsDone(w, Some(w.threads[t].attempt))
       && w.attempts[w.threads[t].attempt].result.Some?
    then w.(threads := w.threads[t := Returned(Seen(w.attempts[w.threads[t].attempt].result.value), Some(w.threads[t].attempt))])
    else w
  }

  function BeginCloseStep(w: World, t: nat): World {
    var (s, connection, attempt) := Shut(w.s);
    w.(s := s, threads := w.threads[t := Closing(connection, attempt)])
  }

  function ActiveClosedStep(w: World, t: nat): World
    requires t in w.threads && w.threads[t].Closing?
  {
    w.(shut := w.shut + Elements(w.threads[t].active), threads := w.threads[t := Awaiting(w.threads[t].awaited)])
  }

  predicate IsDone(w: World, attempt: Option<nat>) {
    attempt.Some? ==> attempt.value in w.attempts && w.attempts[attempt.value].done
  }

  /** A step that is not enabled changes nothing. */
  function Step(w: World, a: Action): World {
    match a
    case Call(t, now) => if t !in w.threads && w.clock <= now then CallStep(w, t, now) else w
    case ConnectorReturns(t, outcome, now) =>
      if t in w.threads && w.threads[t].Connecting? && w.clock <= now && Elements(outcome.connection) !! w.produced
      then ReturnStep(w, t, outcome, now) else w
    case LateClosed(t) => if t in w.threads && w.threads[t].ClosingLate? then LateClosedStep(w, t) else w
    case JoinerWakes(t) => WakeStep(w, t)
    case JoinerGivesUp(t, error) =>
      if t in w.threads && w.threads[t].Joined?
      then w.(threads := w.threads[t := Returned(Outcome(None, Some(error)), None)]) else w
    case ConnectionEnds(connection) => if connection in w.produced then w.(gone := w.gone + {connection}) else w
    case GiveUpConnection(connection) =>
      if connection in w.produced then w.(s := Marked(w.s, connection), gone := w.gone + {connection}) else w
    case BeginClose(t) => if t !in w.threads then BeginCloseStep(w, t) else w
    case ActiveClosed(t) => if t in w.threads && w.threads[t].Closing? then ActiveClosedStep(w, t) else w
    case AttemptAwaited(t) =>
      if t in w.threads && w.threads[t].Awaiting? && IsDone(w, w.threads[t].awaited)
      then w.(threads := w.threads[t := CloseReturned]) else w
  }

  function Run(actions: seq<Action>): World {
    if actions == [] then START else Step(Run(actions[..|actions| - 1]), actions[|actions| - 1])
  }

  // ----- single flight -------------------------------------------------------------------------

  predicate Attempting(pc: Pc) { pc.Connecting? || pc.ClosingLate? }

  /** Whoever attempts is the starter of the attempt in progress. */
  ghost predicate AttemptersOK(w: World) {
    forall t | t in w.threads && Attempting(w.threads[t]) ::
      && w.s.connecting == Some(w.threads[t].attempt) && w.threads[t].attempt in w.attempts
      && w.attempts[w.threads[t].attempt].starter == t && !w.attempts[w.threads[t].attempt].done
  }

  /** The attempt in progress has its starter at work. */
  ghost predicate ProgressOK(w: World) {
    && (w.s.connecting.Some? ==>
          && w.s.active.None? && w.s.connecting.value in w.attempts
          && var t := w.attempts[w.s.connecting.value].starter;
             t in w.threads && Attempting(w.threads[t]))
    && (w.s.closed ==> w.s.active.None?)
  }

  /** Every other attempt is done. */
  ghost predicate AttemptsOK(w: World) {
    forall a | a in w.attempts :: AttemptOK(w, a)
  }

  ghost predicate AttemptOK(w: World, a: nat)
    requires a in w.attempts
  {
    && a < w.s.nextAttempt
    && (w.attempts[a].done ==> w.attempts[a].result.Some?)
    && (!w.attempts[a].done ==> w.s.connecting == Some(a))
  }

  ghost predicate FlightOK(w: World) {
    AttemptersOK(w) && ProgressOK(w) && AttemptsOK(w)
  }

  /** A call that returned from an attempt returned what the attempt's starter did, except
      that a joiner gets no connection beside an error. */
  ghost predicate ResultsOK(w: World) {
    forall t | t in w.threads && w.threads[t].Returned? && w.threads[t].origin.Some? ::
      var a := w.threads[t].origin.value;
      && a in w.attempts && w.attempts[a].done && w.attempts[a].result.Some?
      && w.threads[t].outcome == (if t == w.attempts[a].starter then w.attempts[a].result.value
                                  else Seen(w.attempts[a].result.value))
  }

  ghost predicate StartersReturn(w: World) {
    forall a | a in w.attempts && w.attempts[a].done && w.attempts[a].result.Some? ::
      && w.attempts[a].starter in w.threads
      && w.threads[w.attempts[a].starter] == Returned(w.attempts[a].result.value, Some(a))
  }

  /** Steps that start, settle or finish no attempt. */
  predicate Aside(a: Action) { !a.Call? && !a.ConnectorReturns? && !a.LateClosed? }

  lemma CallFlight(w: World, t: nat, now: int)
    requires FlightOK(w) && t !in w.threads
    ensures FlightOK(CallStep(w, t, now))
  {
    hide InCooldown;
    assert forall b | b in w.attempts :: AttemptOK(w, b);
  }

  lemma ReturnFlight(w: World, t: nat, outcome: Outcome, now: int)
    requires FlightOK(w) && t in w.threads && w.threads[t].Connecting?
    ensures FlightOK(ReturnStep(w, t, outcome, now))
  {
    hide Counts, Recorded;
    assert forall b | b in w.attempts :: AttemptOK(w, b);
  }

  lemma LateFlight(w: World, t: nat)
    requires FlightOK(w) && t in w.threads && w.threads[t].ClosingLate?
    ensures FlightOK(LateClosedStep(w, t))
  {
    assert forall b | b in w.attempts :: AttemptOK(w, b);
  }

  lemma AsideFlight(w: World, a: Action)
    requires FlightOK(w) && Aside(a)
    ensures FlightOK(Step(w, a))
  {
    hide CallStep, ReturnStep, LateClosedStep, Seen;
    assert forall b | b in w.attempts :: AttemptOK(w, b);
  }

  lemma FlightStep(w: World, a: Action)
    requires FlightOK(w)
    ensures FlightOK(Step(w, a))
  {
    hide FlightOK, CallStep, ReturnStep, LateClosedStep, WakeStep, BeginCloseStep, ActiveClosedStep;
    match a
    case Call(t, now) => if t !in w.threads && w.clock <= now { CallFlight(w, t, now); }
    case ConnectorReturns(t, outcome, now) =>
      if t in w.threads && w.threads[t].Connecting? { ReturnFlight(w, t, outcome, now); }
    case LateClosed(t) => if t in w.threads && w.threads[t].ClosingLate? { LateFlight(w, t); }
    case _ => AsideFlight(w, a);
  }

  lemma CallResults(w: World, t: nat, now: int)
    requires FlightOK(w) && StartersReturn(w) && ResultsOK(w) && t !in w.threads
    ensures StartersReturn(CallStep(w, t, now)) && ResultsOK(CallStep(w, t, now))
  {
    hide InCooldown, Seen;
    assert forall b | b in w.attempts :: AttemptOK(w, b);
  }

  lemma ReturnResults(w: World, t: nat, outcome: Outcome, now: int)
    requires FlightOK(w) && StartersReturn(w) && ResultsOK(w) && t in w.threads && w.threads[t].Connecting?
    ensures var v := ReturnStep(w, t, outcome, now); StartersReturn(v) && ResultsOK(v)
  {
    hide Counts, Recorded, Seen;
  }

  lemma LateResults(w: World, t: nat)
    requires FlightOK(w) && StartersReturn(w) && ResultsOK(w) && t in w.threads && w.threads[t].ClosingLate?
    ensures StartersReturn(LateClosedStep(w, t)) && ResultsOK(LateClosedStep(w, t))
  {
    hide Seen;
  }

  lemma AsideResults(w: World, a: Action)
    requires FlightOK(w) && StartersReturn(w) && ResultsOK(w) && Aside(a)
    ensures StartersReturn(Step(w, a)) && ResultsOK(Step(w, a))
  {
    hide CallStep, ReturnStep, LateClosedStep, Seen;
  }

  lemma ResultsStep(w: World, a: Action)
    requires FlightOK(w) && StartersReturn(w) && ResultsOK(w)
    ensures StartersReturn(Step(w, a)) && ResultsOK(Step(w, a))
  {
    hide FlightOK, StartersReturn, ResultsOK, CallStep, ReturnStep, LateClosedStep, WakeStep, BeginCloseStep, ActiveClosedStep;
    match a
    case Call(t, now) => if t !in w.threads && w.clock <= now { CallResults(w, t, now); }
    case ConnectorReturns(t, outcome, now) =>
      if t in w.threads && w.threads[t].Connecting? { ReturnResults(w, t, outcome, now); }
    case LateClosed(t) => if t in w.threads && w.threads[t].ClosingLate? { LateResults(w, t); }
    case _ => AsideResults(w, a);
  }

  // ----- backoff ---------------------------------------------------------------------------------

  /** Counted failures since the last success. */
  function FailuresSince(history: seq<Event>): nat {
    if history == [] then 0
    else match history[|history| - 1]
      case Succeeded(_) => 0
      case Failed(_) => FailuresSince(history[..|history| - 1]) + 1
      case Started(_) => FailuresSince(history[..|history| - 1])
  }

  /** A counted failure that is at least the third since the last success. */
  predicate TripsBackoff(history: seq<Event>, i: nat)
    requires i < |history|
  {
    history[i].Failed? && FailuresSince(history[..i + 1]) >= FAILURE_THRESHOLD
  }

  ghost predicate BackoffOK(w: World) {
    && w.s.failures == FailuresSince(w.history)
    && (w.s.cooldownUntil.Some? <==> w.s.failures >= FAILURE_THRESHOLD)
    && (forall i | 0 <= i < |w.history| && TripsBackoff(w.history, i) ::
          || w.history[i].at + COOLDOWN <= w.clock
          || (w.s.connecting.None? && w.s.cooldownUntil.Some? && w.history[i].at + COOLDOWN <= w.s.cooldownUntil.value))
    && (forall i | 0 <= i < |w.history| :: w.history[i].at <= w.clock)
  }

  ghost predicate StartsRespectBackoff(history: seq<Event>) {
    forall i, j | 0 <= i < j < |history| && TripsBackoff(history, i) && history[j].Started? ::
      history[i].at + COOLDOWN <= history[j].at
  }

  lemma HistoryGrows(history: seq<Event>, e: Event)
    ensures var h := history + [e];
            && FailuresSince(h) == (match e
                 case Succeeded(_) => 0
                 case Failed(_) => FailuresSince(history) + 1
                 case Started(_) => FailuresSince(history))
            && (forall i | 0 <= i < |history| :: TripsBackoff(h, i) == TripsBackoff(history, i))
            && TripsBackoff(h, |history|) == (e.Failed? && FailuresSince(history) + 1 >= FAILURE_THRESHOLD)
  {
    var h := history + [e];
    assert h[..|history|] == history;
    assert h[..|history| + 1] == h;
    forall i | 0 <= i < |history| ensures TripsBackoff(h, i) == TripsBackoff(history, i) {
      assert h[..i + 1] == history[..i + 1];
    }
  }

  lemma BackoffCall(w: World, t: nat, now: int)
    requires BackoffOK(w) && StartsRespectBackoff(w.history) && w.clock <= now
    ensures BackoffOK(CallStep(w, t, now)) && StartsRespectBackoff(CallStep(w, t, now).history)
  {
    hide FailuresSince, TripsBackoff;
    HistoryGrows(w.history, Started(now));
  }

  lemma BackoffReturn(w: World, t: nat, outcome: Outcome, now: int)
    requires BackoffOK(w) && StartsRespectBackoff(w.history) && w.clock <= now
    requires t in w.threads && w.threads[t].Connecting? && w.s.connecting == Some(w.threads[t].attempt)
    ensures BackoffOK(ReturnStep(w, t, outcome, now)) && StartsRespectBackoff(ReturnStep(w, t, outcome, now).history)
  {
    hide FailuresSince, TripsBackoff;
    var events := Recorded(w.s.closed, outcome, now);
    if events != [] {
      assert events == [events[0]];
      HistoryGrows(w.history, events[0]);
    } else {
      assert w.history + [] == w.history;
    }
  }

  lemma BackoffAside(w: World, a: Action)
    requires BackoffOK(w) && StartsRespectBackoff(w.history) && !a.Call? && !a.ConnectorReturns?
    ensures BackoffOK(Step(w, a)) && StartsRespectBackoff(Step(w, a).history)
  {
    hide FailuresSince, TripsBackoff, CallStep, ReturnStep, StartsRespectBackoff, Seen;
  }

  lemma BackoffStep(w: World, a: Action)
    requires FlightOK(w) && BackoffOK(w) && StartsRespectBackoff(w.history)
    ensures BackoffOK(Step(w, a)) && StartsRespectBackoff(Step(w, a).history)
  {
    hide BackoffOK, StartsRespectBackoff, CallStep, ReturnStep, LateClosedStep, WakeStep, BeginCloseStep, ActiveClosedStep;
    match a
    case Call(t, now) => if t !in w.threads && w.clock <= now { BackoffCall(w, t, now); }
    case ConnectorReturns(t, outcome, now) =>
      if t in w.threads && w.threads[t].Connecting? && w.clock <= now { BackoffReturn(w, t, outcome, now); }
    case _ => BackoffAside(w, a);
  }

  // ----- shutdown --------------------------------------------------------------------------------

  /** A call that is closing the connection, or returned it together with an error. */
  predicate InHands(pc: Pc, connection: nat) {
    || (pc.ClosingLate? && pc.connection == connection)
    || (pc.Closing? && pc.active == Some(connection))
    || (pc.Returned? && pc.outcome.connection == Some(connection) && pc.outcome.error.Some?)
  }

  /** Where a connection that was ever produced can be. */
  ghost predicate Accounted(w: World, connection: nat) {
    || w.s.active == Some(connection)
    || connection in w.gone
    || connection in w.shut
    || exists t | t in w.threads :: InHands(w.threads[t], connection)
  }

  /** A connection that came after the close has been closed or is being closed. */
  ghost predicate LateOK(w: World, connection: nat) {
    || connection in w.shut
    || exists t | t in w.threads :: w.threads[t].ClosingLate? && w.threads[t].connection == connection
  }

  /** After `Close` began, no attempt other than the awaited one is in progress. */
  predicate Awaits(w: World, awaited: Option<nat>) {
    w.s.connecting.Some? ==> w.s.connecting == awaited
  }

  /** What a call inside or after `Close` relies on. */
  predicate ClosingOK(w: World, pc: Pc) {
    && (pc.Closing? || pc.Awaiting? ==> w.s.closed && Awaits(w, pc.awaited))
    && (pc.CloseReturned? ==> w.s.closed && w.s.connecting.None?)
  }

  ghost predicate ShutdownOK(w: World) {
    && (forall c | c in w.produced :: Accounted(w, c))
    && (forall c | c in w.late :: LateOK(w, c))
    && (forall t | t in w.threads :: ClosingOK(w, w.threads[t]))
  }

  /** A step of `t` under which everybody else stays what they are and nothing is lost. */
  ghost predicate KeepsHands(w: World, v: World, t: nat) {
    && (forall u | u in w.threads && u != t :: u in v.threads && v.threads[u] == w.threads[u])
    && w.gone <= v.gone && w.shut <= v.shut
  }

  lemma KeptAccounted(w: World, v: World, t: nat, c: nat)
    requires Accounted(w, c) && KeepsHands(w, v, t)
    requires w.s.active == Some(c) ==> v.s.active == Some(c) || c in v.gone || (t in v.threads && InHands(v.threads[t], c))
    requires t in w.threads && InHands(w.threads[t], c) ==> c in v.shut || (t in v.threads && InHands(v.threads[t], c))
    ensures Accounted(v, c)
  {
    hide InHands;
    if w.s.active != Some(c) && c !in w.gone && c !in w.shut {
      var u :| u in w.threads && InHands(w.threads[u], c);
      assert u != t ==> u in v.threads && InHands(v.threads[u], c);
    }
  }

  lemma KeptLate(w: World, v: World, t: nat, c: nat)
    requires LateOK(w, c) && KeepsHands(w, v, t)
    requires t in w.threads && w.threads[t].ClosingLate? && w.threads[t].connection == c ==>
               c in v.shut || (t in v.threads && v.threads[t] == w.threads[t])
    ensures LateOK(v, c)
  {
    if c !in w.shut {
      var u :| u in w.threads && w.threads[u].ClosingLate? && w.threads[u].connection == c;
      assert u != t ==> u in v.threads && v.threads[u].ClosingLate? && v.threads[u].connection == c;
    }
  }

  /** The steps aside that a call takes itself. */
  predicate ByCall(a: Action) {
    a.BeginClose? || a.ActiveClosed? || a.JoinerWakes? || a.JoinerGivesUp? || a.AttemptAwaited?
  }

  lemma CallKeepsHands(w: World, t: nat, now: int)
    requires t !in w.threads
    ensures var v := CallStep(w, t, now);
            && KeepsHands(w, v, t) && v.produced == w.produced && v.late == w.late
            && (forall c | w.s.active == Some(c) :: v.s.active == Some(c) || c in v.gone)
  {
    hide InCooldown;
  }

  lemma ReturnKeepsHands(w: World, t: nat, outcome: Outcome, now: int)
    requires FlightOK(w) && t in w.threads && w.threads[t].Connecting?
    ensures var v := ReturnStep(w, t, outcome, now);
            && KeepsHands(w, v, t) && w.s.active.None? && t in v.threads
            && v.produced == w.produced + Elements(outcome.connection)
            && (forall c | outcome.connection == Some(c) :: v.s.active == Some(c) || InHands(v.threads[t], c))
            && (forall c | c in v.late && c !in w.late :: v.threads[t].ClosingLate? && v.threads[t].connection == c)
  {
    hide Recorded, AttemptsOK;
  }

  lemma AsideKeepsHands(w: World, a: Action, t: nat, c: nat)
    requires Aside(a) && (ByCall(a) ==> t == a.t)
    ensures var v := Step(w, a);
            && KeepsHands(w, v, t) && v.produced == w.produced && v.late == w.late
            && (w.s.active == Some(c) ==> v.s.active == Some(c) || c in v.gone || (t in v.threads && InHands(v.threads[t], c)))
            && (t in w.threads && InHands(w.threads[t], c) ==> c in v.shut || (t in v.threads && InHands(v.threads[t], c)))
            && (t in w.threads && w.threads[t].ClosingLate? ==> t in v.threads && v.threads[t] == w.threads[t])
  {
    hide CallStep, ReturnStep, LateClosedStep, Seen, IsDone;
  }

  lemma CallShutdown(w: World, t: nat, now: int)
    requires ShutdownOK(w) && t !in w.threads
    ensures var v := CallStep(w, t, now);
            (forall c | c in v.produced :: Accounted(v, c)) && (forall c | c in v.late :: LateOK(v, c))
  {
    hide CallStep, KeepsHands, Accounted, LateOK, ClosingOK;
    var v := CallStep(w, t, now);
    CallKeepsHands(w, t, now);
    forall c | c in v.produced ensures Accounted(v, c) { KeptAccounted(w, v, t, c); }
    forall c | c in v.late ensures LateOK(v, c) { KeptLate(w, v, t, c); }
  }

  lemma ReturnShutdown(w: World, t: nat, outcome: Outcome, now: int)
    requires FlightOK(w) && ShutdownOK(w) && t in w.threads && w.threads[t].Connecting?
    ensures var v := ReturnStep(w, t, outcome, now);
            (forall c | c in v.produced :: Accounted(v, c)) && (forall c | c in v.late :: LateOK(v, c))
  {
    hide FlightOK, ReturnStep, KeepsHands, ClosingOK;
    var v := ReturnStep(w, t, outcome, now);
    ReturnKeepsHands(w, t, outcome, now);
    forall c | c in v.produced ensures Accounted(v, c) {
      if c in w.produced { KeptAccounted(w, v, t, c); }
    }
    forall c | c in v.late ensures LateOK(v, c) {
      if c in w.late { KeptLate(w, v, t, c); }
    }
  }

  lemma LateShutdown(w: World, t: nat)
    requires ShutdownOK(w) && t in w.threads && w.threads[t].ClosingLate?
    ensures var v := LateClosedStep(w, t);
            (forall c | c in v.produced :: Accounted(v, c)) && (forall c | c in v.late :: LateOK(v, c))
  {
    hide Accounted, LateOK, ClosingOK;
    var v := LateClosedStep(w, t);
    forall c | c in v.produced ensures Accounted(v, c) { KeptAccounted(w, v, t, c); }
    forall c | c in v.late ensures LateOK(v, c) { KeptLate(w, v, t, c); }
  }

  lemma AsideShutdown(w: World, a: Action)
    requires ShutdownOK(w) && Aside(a)
    ensures var v := Step(w, a);
            (forall c | c in v.produced :: Accounted(v, c)) && (forall c | c in v.late :: LateOK(v, c))
  {
    hide Step, KeepsHands, InHands, Accounted, LateOK, ClosingOK;
    var v := Step(w, a);
    var t := if ByCall(a) then a.t else 0;
    forall c | c in w.produced ensures c in v.produced && Accounted(v, c) {
      AsideKeepsHands(w, a, t, c);
      KeptAccounted(w, v, t, c);
    }
    forall c | c in w.late ensures LateOK(v, c) {
      AsideKeepsHands(w, a, t, c);
      KeptLate(w, v, t, c);
    }
    AsideKeepsHands(w, a, t, 0);
  }

  lemma WaitersCall(w: World, t: nat, now: int)
    requires FlightOK(w) && t !in w.threads && (forall u | u in w.threads :: ClosingOK(w, w.threads[u]))
    ensures var v := CallStep(w, t, now); forall u | u in v.threads :: ClosingOK(v, v.threads[u])
  {
    hide InCooldown, FlightOK;
  }

  lemma WaitersSettle(w: World, v: World, t: nat)
    requires (forall u | u in w.threads :: ClosingOK(w, w.threads[u])) && v.s.closed == w.s.closed
    requires v.s.connecting == w.s.connecting || v.s.connecting.None?
    requires t in v.threads && v.threads == w.threads[t := v.threads[t]] && (v.threads[t].Returned? || v.threads[t].ClosingLate?)
    ensures forall u | u in v.threads :: ClosingOK(v, v.threads[u])
  {
  }

  lemma WaitersAside(w: World, a: Action)
    requires FlightOK(w) && Aside(a) && (forall u | u in w.threads :: ClosingOK(w, w.threads[u]))
    ensures var v := Step(w, a); forall u | u in v.threads :: ClosingOK(v, v.threads[u])
  {
    hide CallStep, ReturnStep, LateClosedStep, Seen;
  }

  lemma ShutdownStep(w: World, a: Action)
    requires FlightOK(w) && ShutdownOK(w)
    ensures ShutdownOK(Step(w, a))
  {
    hide FlightOK, Accounted, LateOK, ClosingOK, CallStep, WakeStep, BeginCloseStep, ActiveClosedStep, Recorded, Absorbed;
    match a
    case Call(t, now) =>
      if t !in w.threads && w.clock <= now {
        CallShutdown(w, t, now);
        WaitersCall(w, t, now);
      }
    case ConnectorReturns(t, outcome, now) =>
      if t in w.threads && w.threads[t].Connecting? {
        ReturnShutdown(w, t, outcome, now);
        SettleOnlyClears(w.s, w.threads[t].attempt, outcome, now);
        WaitersSettle(w, ReturnStep(w, t, outcome, now), t);
      }
    case LateClosed(t) =>
      if t in w.threads && w.threads[t].ClosingLate? {
        LateShutdown(w, t);
        WaitersSettle(w, LateClosedStep(w, t), t);
      }
    case _ =>
      AsideShutdown(w, a);
      WaitersAside(w, a);
  }

  lemma SettleOnlyClears(s: State, attempt: nat, outcome: Outcome, now: int)
    ensures var u := Settle(s, attempt, outcome, now).0;
            u.closed == s.closed && (u.connecting == s.connecting || u.connecting.None?)
  {
  }

  ghost predicate Inv(w: World) {
    && FlightOK(w) && StartersReturn(w) && ResultsOK(w) && BackoffOK(w) && StartsRespectBackoff(w.history)
    && ShutdownOK(w)
  }

  lemma {:induction false} EveryRunInv(actions: seq<Action>)
    ensures Inv(Run(actions))
  {
    if actions != [] {
      var w, a := Run(actions[..|actions| - 1]), actions[|actions| - 1];
      EveryRunInv(actions[..|actions| - 1]);
      hide FlightOK, StartersReturn, ResultsOK, BackoffOK, StartsRespectBackoff, ShutdownOK, Step;
      FlightStep(w, a);
      ResultsStep(w, a);
      BackoffStep(w, a);
      ShutdownStep(w, a);
    }
  }

  // ----- main results ----------------------------------------------------------------------------

  /** At most one attempt runs, and never beside a stored connection. */
  lemma SingleFlight(actions: seq<Action>, t: nat, u: nat)
    requires var w := Run(actions); t in w.threads && u in w.threads && Attempting(w.threads[t]) && Attempting(w.threads[u])
    ensures t == u && Run(actions).s.active.None?
  {
    EveryRunInv(actions);
    hide Run;
  }

  /** Every joiner that waited for the attempt returns what the starter returned, except that
      beside an error it gets no connection. */
  lemma JoinersGetStartersResult(actions: seq<Action>, t: nat)
    requires var w := Run(actions); t in w.threads && w.threads[t].Returned? && w.threads[t].origin.Some?
    ensures var w := Run(actions); var a := w.threads[t].origin.value;
            && a in w.attempts && w.attempts[a].starter in w.threads
            && var starter := w.threads[w.attempts[a].starter];
            && starter.Returned? && starter.origin == Some(a)
            && w.threads[t].outcome == if t == w.attempts[a].starter then starter.outcome else Seen(starter.outcome)
  {
    EveryRunInv(actions);
    hide Run, Seen;
  }

  /** The cooldown is set exactly when three or more failures counted since the last
      success, and no attempt starts within it, whatever happened in between. */
  lemma BackoffHolds(actions: seq<Action>)
    ensures var w := Run(actions);
            && (w.s.cooldownUntil.Some? <==> FailuresSince(w.history) >= FAILURE_THRESHOLD)
            && StartsRespectBackoff(w.history)
  {
    EveryRunInv(actions);
    hide Run;
  }

  /** When a `Close` has returned, nothing is stored and no attempt runs; every connection
      that came late has been closed; and every connection ever produced has ended, was given
      up, was closed, is the one another `Close` is closing, or was returned beside an error. */
  lemma CloseIsFinal(actions: seq<Action>, t: nat)
    requires t in Run(actions).threads && Run(actions).threads[t].CloseReturned?
    ensures var w := Run(actions);
            && w.s.closed && w.s.active.None? && w.s.connecting.None? && w.late <= w.shut
            && forall c | c in w.produced && c !in w.gone && c !in w.shut ::
                 exists u | u in w.threads :: !w.threads[u].ClosingLate? && InHands(w.threads[u], c)
  {
    hide Run, StartersReturn, ResultsOK, BackoffOK, StartsRespectBackoff, InHands, AttemptsOK;
    EveryRunInv(actions);
    var w := Run(actions);
    assert ClosingOK(w, w.threads[t]);
    assert forall u | u in w.threads :: !w.threads[u].ClosingLate?;
    forall c | c in w.late ensures c in w.shut { assert LateOK(w, c); }
    forall c | c in w.produced && c !in w.gone && c !in w.shut
      ensures exists u | u in w.threads :: !w.threads[u].ClosingLate? && InHands(w.threads[u], c)
    {
      assert Accounted(w, c);
    }
  }

  lemma RunSnoc(actions: seq<Action>, a: Action)
    ensures Run(actions + [a]) == Step(Run(actions), a)
  {
    hide Step;
    assert (actions + [a])[..|actions|] == actions;
  }

  lemma LeakArrives(c: nat, both: Outcome)
    requires both.connection == Some(c) && both.error.Some?
    ensures var w := Step(Step(START, Call(0, 0)), ConnectorReturns(0, both, 0));
            && w.s.active.None? && w.s.connecting.None? && w.threads == map[0 := Returned(both, Some(0))]
            && w.produced == {c} && w.gone == {} && w.shut == {}
  {
    hide Counts;
    var w := Step(START, Call(0, 0));
    assert w.threads == map[0 := Connecting(0)] && w.produced == {} && w.s.connecting == Some(0);
  }

  lemma CloseReturnsAtOnce(w: World)
    requires w.s.active.None? && w.s.connecting.None? && 1 !in w.threads
    ensures var v := Step(Step(Step(w, BeginClose(1)), ActiveClosed(1)), AttemptAwaited(1));
            && v.threads == w.threads[1 := CloseReturned] && v.produced == w.produced && v.gone == w.gone && v.shut == w.shut
  {
  }

  /** The last case does occur, and then nobody closes the connection: a connector that gives
      a connection and an error has it neither stored nor closed. */
  lemma BothResultsLeak(c: nat, code: int)
    ensures var both := Outcome(Some(c), Some(ConnectError(code)));
            var w := Run([] + [Call(0, 0)] + [ConnectorReturns(0, both, 0)] + [BeginClose(1)] + [ActiveClosed(1)]
                         + [AttemptAwaited(1)]);
            && 1 in w.threads && w.threads[1].CloseReturned? && c in w.produced && c !in w.gone + w.shut
            && 0 in w.threads && w.threads[0] == Returned(both, Some(0))
  {
    hide Step;
    var both := Outcome(Some(c), Some(ConnectError(code)));
    var a1 := [] + [Call(0, 0)];
    var a2 := a1 + [ConnectorReturns(0, both, 0)];
    var a3 := a2 + [BeginClose(1)];
    var a4 := a3 + [ActiveClosed(1)];
    RunSnoc([], Call(0, 0));
    RunSnoc(a1, ConnectorReturns(0, both, 0));
    RunSnoc(a2, BeginClose(1));
    RunSnoc(a3, ActiveClosed(1));
    RunSnoc(a4, AttemptAwaited(1));
    LeakArrives(c, both);
    CloseReturnsAtOnce(Run(a2));
  }

  // ----- connections given together with an error --------------------------------------------------

  predicate BesideError(pc: Pc) {
    pc.Returned? && pc.outcome.connection.Some? && pc.outcome.error.Some?
  }

  /** The call is about to close the connection. */
  predicate Tends(pc: Pc, c: nat) {
    (pc.ClosingLate? && pc.connection == c) || (pc.Closing? && pc.active == Some(c))
  }

  /** Produced, but neither stored nor closed nor about to be. */
  ghost predicate Loose(w: World, c: nat) {
    && c in w.produced && w.s.active != Some(c) && c !in w.shut
    && forall u | u in w.threads :: !Tends(w.threads[u], c)
  }

  predicate PcKnown(pc: Pc, produced: set<nat>) {
    && (pc.ClosingLate? ==> pc.connection in produced && pc.result.connection.None?)
    && (pc.Closing? && pc.active.Some? ==> pc.active.value in produced)
  }

  /** The supervisor stores and closes only what a connector gave it. */
  ghost predicate Known(w: World) {
    && (w.s.active.Some? ==> w.s.active.value in w.produced) && w.shut <= w.produced
    && forall t | t in w.threads :: PcKnown(w.threads[t], w.produced)
  }

  ghost predicate ApartOK(w: World) {
    forall t | t in w.threads && BesideError(w.threads[t]) :: Loose(w, w.threads[t].outcome.connection.value)
  }

  lemma CallApart(w: World, t: nat, now: int)
    requires Known(w) && ApartOK(w) && t !in w.threads
    ensures Known(CallStep(w, t, now)) && ApartOK(CallStep(w, t, now))
  {
    hide InCooldown;
  }

  lemma ReturnApart(w: World, t: nat, outcome: Outcome, now: int)
    requires Known(w) && ApartOK(w) && t in w.threads && w.threads[t].Connecting? && Elements(outcome.connection) !! w.produced
    ensures Known(ReturnStep(w, t, outcome, now)) && ApartOK(ReturnStep(w, t, outcome, now))
  {
    hide Recorded;
    var v := ReturnStep(w, t, outcome, now);
    assert forall c | outcome.connection == Some(c) :: c in Elements(outcome.connection) && c !in w.produced;
  }

  lemma LateApart(w: World, t: nat)
    requires Known(w) && ApartOK(w) && t in w.threads && w.threads[t].ClosingLate?
    ensures Known(LateClosedStep(w, t)) && ApartOK(LateClosedStep(w, t))
  {
  }

  lemma AsideApart(w: World, a: Action)
    requires Known(w) && ApartOK(w) && Aside(a)
    ensures Known(Step(w, a)) && ApartOK(Step(w, a))
  {
    hide CallStep, ReturnStep, LateClosedStep, IsDone;
  }

  lemma StepApart(w: World, a: Action)
    requires Known(w) && ApartOK(w)
    ensures Known(Step(w, a)) && ApartOK(Step(w, a))
  {
    hide Known, ApartOK, CallStep, ReturnStep, LateClosedStep, WakeStep, BeginCloseStep, ActiveClosedStep;
    match a
    case Call(t, now) => if t !in w.threads && w.clock <= now { CallApart(w, t, now); }
    case ConnectorReturns(t, outcome, now) =>
      if t in w.threads && w.threads[t].Connecting? && Elements(outcome.connection) !! w.produced {
        ReturnApart(w, t, outcome, now);
      }
    case LateClosed(t) => if t in w.threads && w.threads[t].ClosingLate? { LateApart(w, t); }
    case _ => AsideApart(w, a);
  }

  lemma {:induction false} EveryRunApart(actions: seq<Action>)
    ensures Known(Run(actions)) && ApartOK(Run(actions))
  {
    hide Step;
    if actions != [] {
      EveryRunApart(actions[..|actions| - 1]);
      StepApart(Run(actions[..|actions| - 1]), actions[|actions| - 1]);
    }
  }

  lemma ReturnedStays(w: World, a: Action, t: nat)
    requires t in w.threads && w.threads[t].Returned?
    ensures var v := Step(w, a); t in v.threads && v.threads[t] == w.threads[t]
  {
    hide Enter, Settle, Recorded, IsDone, Seen;
  }

  /** A connection that a call got together with an error is on its own: in no continuation
      does the supervisor store it, close it, or begin to. */
  lemma {:induction false} BesideErrorStaysLoose(actions: seq<Action>, more: seq<Action>, t: nat)
    requires t in Run(actions).threads && BesideError(Run(actions).threads[t])
    ensures var v := Run(actions + more);
            t in v.threads && v.threads[t] == Run(actions).threads[t] && Loose(v, v.threads[t].outcome.connection.value)
  {
    hide Step, Loose;
    if more == [] {
      assert actions + more == actions;
    } else {
      BesideErrorStaysLoose(actions, more[..|more| - 1], t);
      assert (actions + more)[..|actions + more| - 1] == actions + more[..|more| - 1];
      ReturnedStays(Run(actions + more[..|more| - 1]), more[|more| - 1], t);
    }
    EveryRunApart(actions + more);
  }

  /** And only those are: when a `Close` has returned and no other one is at work, a connection
      that has neither ended nor been given up is unclosed if and only if some call got it
      together with an error. */
  lemma UnclosedIffBesideError(actions: seq<Action>, t: nat, c: nat)
    requires var w := Run(actions);
             && t in w.threads && w.threads[t].CloseReturned? && c in w.produced && c !in w.gone
             && forall u | u in w.threads :: !w.threads[u].Closing?
    ensures var w := Run(actions);
            c !in w.shut <==>
            exists u | u in w.threads :: BesideError(w.threads[u]) && w.threads[u].outcome.connection == Some(c)
  {
    hide Run;
    var w := Run(actions);
    EveryRunApart(actions);
    CloseIsFinal(actions, t);
    if c !in w.shut {
      var u :| u in w.threads && !w.threads[u].ClosingLate? && InHands(w.threads[u], c);
      assert BesideError(w.threads[u]);
    }
  }

  /** A call that began after the supervisor closed. */
  predicate Late(w: World, t: nat) {
    && w.s.closed
    && (t in w.threads ==>
          || w.threads[t] == Returned(CANCELED, None)
          || w.threads[t].Closing? || w.threads[t].Awaiting? || w.threads[t].CloseReturned?)
  }

  lemma LateStep(w: World, a: Action, t: nat)
    requires Late(w, t)
    ensures Late(Step(w, a), t)
  {
    hide InCooldown, Counts, Recorded;
  }

  lemma {:induction false} LateStays(actions: seq<Action>, more: seq<Action>, t: nat)
    requires Late(Run(actions), t)
    ensures Late(Run(actions + more), t)
  {
    hide Late, Step;
    if more == [] {
      assert actions + more == actions;
    } else {
      LateStays(actions, more[..|more| - 1], t);
      assert (actions + more)[..|actions + more| - 1] == actions + more[..|more| - 1];
      LateStep(Run(actions + more[..|more| - 1]), more[|more| - 1], t);
    }
  }

  /** Once closed, always closed, and a later call gets no connection, ever. */
  lemma ClosedHandsOutNothing(actions: seq<Action>, more: seq<Action>, t: nat)
    requires Run(actions).s.closed && t !in Run(actions).threads
    ensures var w := Run(actions + more);
            && w.s.closed
            && (t in w.threads && w.threads[t].Returned? ==> w.threads[t].outcome == CANCELED)
  {
    hide Run;
    LateStays(actions, more, t);
  }
}
