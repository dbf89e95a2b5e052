/** What a call of the supervisor gets, told from what happened before it: which connections
    have ended, when attempts failed and succeeded, and whether somebody closed it. */
module Connections {
  import opened Common
  import opened Supervision

  /** When the last counted failure was, if there was none after it. */
  function LastFailure(history: seq<Event>): Option<int> {
    if history == [] then None
    else match history[|history| - 1]
      case Failed(at) => Some(at)
      case Succeeded(_) => None
      case Started(_) => LastFailure(history[..|history| - 1])
  }

  lemma LastFailureGrows(history: seq<Event>, e: Event)
    ensures LastFailure(history + [e]) == (match e
              case Failed(at) => Some(at)
              case Succeeded(_) => None
              case Started(_) => LastFailure(history))
  {
    assert (history + [e])[..|history|] == history;
  }

  /** The cooldown lasts half a minute from the last of at least three failures, and nothing
      is stored meanwhile. */
  ghost predicate CooldownOK(w: World) {
    && (w.s.cooldownUntil.Some? <==> FailuresSince(w.history) >= 3)
    && (w.s.cooldownUntil.Some? ==>
          && w.s.active.None? && LastFailure(w.history).Some?
          && w.s.cooldownUntil.value == LastFailure(w.history).value + 30_000_000_000)
  }

  lemma CallCooldown(w: World, t: nat, now: int)
    requires CooldownOK(w)
    ensures CooldownOK(CallStep(w, t, now))
  {
    hide FailuresSince, LastFailure, TripsBackoff;
    HistoryGrows(w.history, Started(now));
    LastFailureGrows(w.history, Started(now));
  }

  lemma ReturnCooldown(w: World, t: nat, outcome: Outcome, now: int)
    requires CooldownOK(w) && BackoffOK(w) && FlightOK(w) && t in w.threads && w.threads[t].Connecting?
    ensures CooldownOK(ReturnStep(w, t, outcome, now))
  {
    hide FailuresSince, LastFailure, TripsBackoff;
    var events := Recorded(w.s.closed, outcome, now);
    assert w.s.active.None?;
    if events != [] {
      assert events == [events[0]];
      HistoryGrows(w.history, events[0]);
      LastFailureGrows(w.history, events[0]);
    } else {
      assert w.history + [] == w.history;
    }
  }

  lemma AsideCooldown(w: World, a: Action)
    requires CooldownOK(w) && !a.Call? && !a.ConnectorReturns?
    ensures CooldownOK(Step(w, a))
  {
    hide FailuresSince, LastFailure, CallStep, ReturnStep, Seen;
  }

  lemma StepCooldown(w: World, a: Action)
    requires Inv(w) && CooldownOK(w)
    ensures CooldownOK(Step(w, a))
  {
    hide CooldownOK, FlightOK, BackoffOK, StartersReturn, ResultsOK, StartsRespectBackoff, ShutdownOK, CallStep, ReturnStep;
    match a
    case Call(t, now) => if t !in w.threads && w.clock <= now { CallCooldown(w, t, now); }
    case ConnectorReturns(t, outcome, now) =>
      if t in w.threads && w.threads[t].Connecting? { ReturnCooldown(w, t, outcome, now); }
    case _ => AsideCooldown(w, a);
  }

  lemma {:induction false} EveryRunCooldown(actions: seq<Action>)
    ensures CooldownOK(Run(actions)) && Inv(Run(actions))
  {
    hide Step, Inv, CooldownOK;
    EveryRunInv(actions);
    if actions == [] {
      assert CooldownOK(START) by { StartCooldown(); }
    } else {
      EveryRunCooldown(actions[..|actions| - 1]);
      StepCooldown(Run(actions[..|actions| - 1]), actions[|actions| - 1]);
    }
  }

  lemma StartCooldown()
    ensures CooldownOK(START)
  {
  }

  // ----- calls ------------------------------------------------------------------------------------

  /** There is a stored connection and it has not ended. */
  predicate Alive(w: World) {
    w.s.active.Some? && w.s.active.value !in w.gone
  }

  /** Three counted failures or more since the last success, and the last one less than half a
      minute ago. */
  predicate CoolingDown(history: seq<Event>, now: int) {
    FailuresSince(history) >= 3 && LastFailure(history).Some? && now < LastFailure(history).value + 30_000_000_000
  }

  /** What a call finds. */
  ghost predicate Finds(w: World, v: World, t: nat, now: int) {
    && t in v.threads && v.threads == w.threads[t := v.threads[t]]
    && (if w.s.closed then v.threads[t] == Returned(Outcome(None, Some(Canceled)), None)
        else if Alive(w) then v.threads[t] == Returned(Outcome(w.s.active, None), None)
        else if CoolingDown(w.history, now) then v.threads[t] == Returned(Outcome(None, Some(Backoff)), None)
        else if w.s.connecting.Some? then
          && v.threads[t] == Joined(w.s.connecting.value) && w.s.connecting.value in w.attempts
          && !w.attempts[w.s.connecting.value].done
        else
          && v.threads[t].Connecting? && v.threads[t].attempt !in w.attempts
          && v.s.connecting == Some(v.threads[t].attempt)
          && v.attempts == w.attempts[v.threads[t].attempt := Attempt(t, None, false)])
    && v.history == w.history + (if v.threads[t].Connecting? then [Started(now)] else [])
    && v.produced == w.produced && v.gone == w.gone && v.late == w.late && v.shut == w.shut
  }

  /** In every run a call gets the stored connection exactly while that has not ended. Else it
      is turned away exactly during the cooldown, and otherwise waits for the attempt in
      progress or starts one. A closed supervisor answers nothing but that it is closed. */
  lemma CallFinds(actions: seq<Action>, t: nat, now: int)
    requires t !in Run(actions).threads && Run(actions).clock <= now
    ensures Finds(Run(actions), Step(Run(actions), Call(t, now)), t, now)
  {
    EveryRunCooldown(actions);
    hide Run, BackoffOK, StartersReturn, ResultsOK, StartsRespectBackoff, ShutdownOK, FailuresSince, LastFailure;
    var w := Run(actions);
    assert forall a | a in w.attempts :: AttemptOK(w, a);
  }

  /** The reported state tells what a call would find at that moment. */
  lemma StatusTellsCall(actions: seq<Action>, now: int)
    ensures var w := Run(actions); var status := Status(w.s, w.s.active.Some? && w.s.active.value in w.gone, now);
            && (status == StateClosed <==> w.s.closed)
            && (status == StateActive <==> !w.s.closed && Alive(w))
            && (status == StateBackoff <==> !w.s.closed && !Alive(w) && CoolingDown(w.history, now))
            && (status == StateConnecting <==>
                  !w.s.closed && !Alive(w) && !CoolingDown(w.history, now) && w.s.connecting.Some?)
  {
    EveryRunCooldown(actions);
    hide Run, BackoffOK, StartersReturn, ResultsOK, StartsRespectBackoff, ShutdownOK, FailuresSince, LastFailure;
  }

  // ----- attempts ---------------------------------------------------------------------------------

  /** The error counts as a failure of the app-server: the caller's own end does not. */
  predicate CountedFailure(outcome: Outcome) {
    match outcome.error
    case None => false
    case Some(Canceled) => false
    case Some(DeadlineExceeded) => false
    case _ => true
  }

  /** How an attempt ends. Before the close its starter returns what the connector gave, which
      is stored exactly if there is no error, and counts as a success or a failure. After it
      nothing is stored or counted, and a connection that still came is closed before its
      starter returns without it. */
  ghost predicate Settles(w: World, v: World, t: nat, outcome: Outcome, now: int)
    requires t in w.threads && w.threads[t].Connecting?
  {
    var a := w.threads[t].attempt;
    var result := if w.s.closed then Outcome(None, Some(if outcome.error.Some? then outcome.error.value else Canceled)) else outcome;
    && t in v.threads && v.threads == w.threads[t := v.threads[t]]
    && v.s.closed == w.s.closed
    && (if w.s.closed && outcome.connection.Some?
        then v.threads[t] == ClosingLate(a, outcome.connection.value, result) && v.s.connecting == Some(a)
        else v.threads[t] == Returned(result, Some(a)) && v.s.connecting.None?)
    && v.s.active == (if w.s.closed || outcome.error.Some? then None else outcome.connection)
    && v.history == w.history + (if w.s.closed then []
                                 else if outcome.error.None? then [Succeeded(now)]
                                 else if CountedFailure(outcome) then [Failed(now)]
                                 else [])
    && v.produced == w.produced + Elements(outcome.connection) && v.gone == w.gone && v.shut == w.shut
    && v.late == w.late + (if w.s.closed && outcome.connection.Some? then {outcome.connection.value} else {})
  }

  lemma AttemptSettles(actions: seq<Action>, t: nat, outcome: Outcome, now: int)
    requires var w := Run(actions);
             && t in w.threads && w.threads[t].Connecting? && w.clock <= now
             && (forall c | outcome.connection == Some(c) :: c !in w.produced)
    ensures Settles(Run(actions), Step(Run(actions), ConnectorReturns(t, outcome, now)), t, outcome, now)
  {
    EveryRunCooldown(actions);
    hide Run, BackoffOK, StartersReturn, ResultsOK, StartsRespectBackoff, ShutdownOK, FailuresSince, LastFailure;
    assert Elements(outcome.connection) !! Run(actions).produced;
  }

  /** The late connection is closed before its attempt ends and its starter returns. */
  lemma LateIsClosed(actions: seq<Action>, t: nat)
    requires t in Run(actions).threads && Run(actions).threads[t].ClosingLate?
    ensures var w := Run(actions); var v := Step(w, LateClosed(t)); var pc := w.threads[t];
            && v.shut == w.shut + {pc.connection} && v.threads == w.threads[t := Returned(pc.result, Some(pc.attempt))]
            && w.s.connecting == Some(pc.attempt) && v.s == w.s.(connecting := None)
            && v.attempts == w.attempts[pc.attempt := Attempt(t, Some(pc.result), true)]
  {
    EveryRunCooldown(actions);
    hide Run, BackoffOK, StartersReturn, ResultsOK, StartsRespectBackoff, ShutdownOK, FailuresSince, LastFailure;
  }

  /** A stored connection stays until it is given up, the supervisor closes, or a call finds
      that it has ended. */
  lemma StoredStays(actions: seq<Action>, a: Action)
    requires Run(actions).s.active.Some?
    ensures var w := Run(actions); var v := Step(w, a);
            v.s.active == w.s.active
            || (v.s.active.None? && (a == GiveUpConnection(w.s.active.value) || a.BeginClose? || (a.Call? && !Alive(w))))
  {
    EveryRunCooldown(actions);
    hide Run, BackoffOK, StartersReturn, ResultsOK, StartsRespectBackoff, ShutdownOK, FailuresSince, LastFailure, Seen, Recorded;
  }

  /** Closing takes the stored connection out at once, and waits for the attempt in progress. */
  lemma CloseTakesStored(actions: seq<Action>, t: nat)
    requires t !in Run(actions).threads
    ensures var w := Run(actions); var v := Step(w, BeginClose(t));
            && v.s.closed && v.s.active.None? && v.s.connecting == w.s.connecting
            && v.threads == w.threads[t := Closing(w.s.active, w.s.connecting)]
            && Step(v, ActiveClosed(t)).shut == w.shut + (if w.s.active.Some? then {w.s.active.value} else {})
            && Step(v, ActiveClosed(t)).threads == w.threads[t := Awaiting(w.s.connecting)]
  {
    hide Run;
  }

  /** A connection that is given up is no longer stored, and any other one stays. */
  lemma GivenUpIsDropped(actions: seq<Action>, c: nat)
    requires c in Run(actions).produced
    ensures var w := Run(actions); var v := Step(w, GiveUpConnection(c));
            && v.s.active == (if w.s.active == Some(c) then None else w.s.active) && c in v.gone
            && v.threads == w.threads && v.s.connecting == w.s.connecting && v.s.closed == w.s.closed
  {
    hide Run;
  }

  /** A call that waited for an attempt wakes exactly when that is done, and returns the
      starter's connection if the attempt succeeded, and its error alone if not. */
  lemma JoinerWakesWithResult(actions: seq<Action>, t: nat)
    requires t in Run(actions).threads && Run(actions).threads[t].Joined?
    ensures var w := Run(actions); var a := w.threads[t].attempt; var v := Step(w, JoinerWakes(t));
            && a in w.attempts
            && if !w.attempts[a].done then v == w
               else
                 && w.attempts[a].starter in w.threads && w.threads[w.attempts[a].starter].Returned?
                 && var starter := w.threads[w.attempts[a].starter].outcome;
                    v == w.(threads := w.threads[t := Returned(
                           if starter.error.None? then starter else Outcome(None, starter.error), Some(a))])
  {
    EveryRunCooldown(actions);
    EveryRunJoined(actions, t);
    hide Run, BackoffOK, ResultsOK, StartsRespectBackoff, ShutdownOK, FailuresSince, LastFailure;
    var w := Run(actions);
    assert AttemptOK(w, w.threads[t].attempt);
  }

  predicate JoinedKnown(w: World, t: nat) {
    t in w.threads && w.threads[t].Joined? ==> w.threads[t].attempt in w.attempts
  }

  lemma {:induction false} EveryRunJoined(actions: seq<Action>, t: nat)
    ensures JoinedKnown(Run(actions), t)
  {
    hide Step, Inv;
    if actions != [] {
      var init := actions[..|actions| - 1];
      EveryRunJoined(init, t);
      EveryRunInv(init);
      StepJoined(Run(init), actions[|actions| - 1], t);
    }
  }

  lemma StepJoined(w: World, a: Action, t: nat)
    requires Inv(w) && JoinedKnown(w, t)
    ensures JoinedKnown(Step(w, a), t)
  {
    hide BackoffOK, StartersReturn, ResultsOK, StartsRespectBackoff, ShutdownOK, FailuresSince, LastFailure, Seen, Recorded,
      Absorbed, InCooldown;
  }
}
