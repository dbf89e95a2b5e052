/** What the stream and the handler loop make of any input, told from the messages, the
    callbacks and the caller's context alone. */
module LoopOutcomes {
  import opened Common
  import opened HandlerLoop

  // ----- one message ------------------------------------------------------------------------

  /** What a message stands for. A notice has no position; an event needs all its parts, and a
      request that can be read; only an action waits for an answer, and nothing resumes behind it. */
  ghost predicate Means(wire: Wire, r: Result<Event, Error>) {
    match wire
    case StreamNotice => r == Ok(Event(Meta(0, false), OtherEvent))
    case ChatEvent(id, cursor, chatID, runID, payload) =>
      if id == 0 || cursor == "" || chatID == "" || runID == "" then r == Err(DecodeError)
      else match payload
        case TextPayload => r == Ok(Event(Meta(id, true), TextDelta))
        case PendingPayload(pendingID, true, _) => r == Err(DecodeError)
        case PendingPayload(pendingID, false, true) => r == Ok(Event(Meta(id, false), Action(pendingID)))
        case PendingPayload(pendingID, false, false) => r == Ok(Event(Meta(id, false), OtherEvent))
        case TerminalPayload(CompletedRun) => r == Ok(Event(Meta(id, true), Terminal(false)))
        case TerminalPayload(InterruptedRun) => r == Ok(Event(Meta(id, true), Terminal(true)))
        case TerminalPayload(FailedRun) => r == Ok(Event(Meta(id, true), Terminal(true)))
        case TerminalPayload(OtherLifecycle) => r == Ok(Event(Meta(id, true), OtherEvent))
        case OtherPayload => r == Ok(Event(Meta(id, true), OtherEvent))
  }

  lemma DecodeMeans(wire: Wire)
    ensures Means(wire, Decode(wire))
  {
  }

  // ----- one call of NextEvent ------------------------------------------------------------------

  /** Whether the stream can be asked at all: the caller is there, the cursor is available, and
      nobody reads it raw. */
  function Refusal(s: Stream, canceled: bool): Option<Error> {
    if canceled then Some(ContextError)
    else if s.cursorUnavailable then Some(CursorUnavailable)
    else match s.readMode
      case Raw => Some(WrongReadMode)
      case _ => s.unusable
  }

  /** The stream ends too early when a run was expected to finish and did not. */
  function EndError(s: Stream): Error {
    if s.expectTerminal && !s.terminalSeen then EndedBeforeTerminal else EndOfStream
  }

  /** A refused call takes nothing from the stream. The end of the stream can be asked for again,
      with the same answer. A message that cannot be read makes the stream unusable with this
      error; one that can is handed out, and moves the safe position if it can be resumed after. */
  ghost predicate Gives(s: Stream, canceled: bool, t: Stream, r: Result<(Wire, Event), Error>) {
    if canceled || s.cursorUnavailable || s.readMode == Raw then t == s && r == Err(Refusal(s, canceled).value)
    else if s.unusable.Some? then t == s.(readMode := Typed) && r == Err(s.unusable.value)
    else if s.incoming == [] || s.incoming[0] == Err(EndOfStream) then
      && r == Err(EndError(s))
      && t == s.(readMode := Typed, incoming := if s.incoming == [] then [] else s.incoming[1..],
                 unusable := if EndError(s) == EndedBeforeTerminal then Some(EndedBeforeTerminal) else None)
    else if s.incoming[0].Err? then
      r == Err(s.incoming[0].error) && t == s.(readMode := Typed, incoming := s.incoming[1..])
    else
      var wire := s.incoming[0].value;
      exists decoded :: Means(wire, decoded) &&
        if decoded.Err? then
          && r == Err(decoded.error)
          && t == s.(readMode := Typed, incoming := s.incoming[1..], unusable := Some(decoded.error))
        else
          && r == Ok((wire, decoded.value))
          && t == s.(readMode := Typed, incoming := s.incoming[1..],
                     lastSafe := if decoded.value.meta.canResumeAfter then decoded.value.meta else s.lastSafe,
                     terminalSeen := s.terminalSeen || decoded.value.kind.Terminal?)
  }

  lemma NextGives(s: Stream, canceled: bool)
    ensures Gives(s, canceled, Next(s, canceled).0, Next(s, canceled).1)
  {
    hide Decode, Means;
    if s.incoming != [] && s.incoming[0].Ok? { DecodeMeans(s.incoming[0].value); }
  }

  /** The stream after a number of calls. */
  function After(s: Stream, calls: seq<bool>): Stream {
    if calls == [] then s else Next(After(s, calls[..|calls| - 1]), calls[|calls| - 1]).0
  }

  /** A fatal error is final: however often the stream is asked afterwards, nothing more is
      taken from it, and every call that the caller does not cancel gets this error. */
  lemma {:induction false} FatalIsFinal(s: Stream, calls: seq<bool>, e: Error)
    requires s.unusable == Some(e) && s.readMode == Typed && !s.cursorUnavailable
    ensures After(s, calls) == s && Next(After(s, calls), false) == (s, Err(e))
  {
    hide Next;
    if calls != [] {
      FatalIsFinal(s, calls[..|calls| - 1], e);
      NextGives(s, calls[|calls| - 1]);
    }
    NextGives(s, false);
  }

  // ----- one round of the loop --------------------------------------------------------------------

  /** The loop goes on after an event whose callbacks did not fail: an action only if it was
      answered and the answer was accepted, a finished run never. Text that nobody handles as
      text, and anything that is nothing else, goes to the event callback. */
  predicate GoesOn(h: Handler, d: Decision, kind: Kind) {
    match kind
    case TextDelta => !(d.callbackFails && (h.text || h.event))
    case Action(_) => h.action && d.answer == Answer(true)
    case Terminal(_) => false
    case OtherEvent => !(d.callbackFails && h.event)
  }

  /** What the loop returns after an event that it does not go on from. */
  function ErrorAfter(h: Handler, d: Decision, kind: Kind): Option<Error> {
    match kind
    case Terminal(true) => Some(RunError)
    case Terminal(false) => if h.terminal && d.callbackFails then Some(CallbackError) else None
    case Action(_) =>
      if h.action then
        match d.answer
        case ActionFailed => Some(CallbackError)
        case NoAnswer => Some(UnhandledAction)
        case Answer(_) => Some(RespondError)
      else if h.event && d.callbackFails then Some(CallbackError) else Some(UnhandledAction)
    case _ => Some(CallbackError)
  }

  /** The outcome names an action that nobody answered, and the event of a finished run. */
  ghost predicate Ends(o: Outcome, before: Outcome, h: Handler, d: Decision, event: Event) {
    && o.lastMeta == event.meta
    && o.lastSafeResumeMeta ==
       (if event.meta.canResumeAfter && !event.kind.Action? then event.meta else before.lastSafeResumeMeta)
    && o.unhandled == (match event.kind
         case Action(pendingID) =>
           if !GoesOn(h, d, event.kind) && ErrorAfter(h, d, event.kind) == Some(UnhandledAction) then Some(pendingID)
           else before.unhandled
         case _ => before.unhandled)
    && o.terminal == (if event.kind.Terminal? then Some(event.meta.id) else before.terminal)
  }

  lemma RoundVerdict(h: Handler, d: Decision, before: Outcome, event: Event)
    ensures var v := Handle(h, d, before, event);
            && (v.Continue? <==> GoesOn(h, d, event.kind))
            && (v.Return? ==> v.error == ErrorAfter(h, d, event.kind))
            && (v.answered <==> event.kind.Action? && GoesOn(h, d, event.kind))
            && Ends(v.o, before, h, d, event)
  {
  }

  // ----- whole runs of the loop --------------------------------------------------------------------

  /** The first rounds of the loop: the messages as they arrive, all of them understood, and
      the callbacks let it go on each time. */
  ghost predicate Rounds(s: Stream, h: Handler, script: nat -> Decision, trace: seq<Handled>) {
    && |trace| <= |s.incoming|
    && forall i | 0 <= i < |trace| ::
         && !script(i).canceled && s.incoming[i] == Ok(trace[i].wire) && Means(trace[i].wire, Ok(trace[i].event))
         && (trace[i].answered <==> trace[i].event.kind.Action? && GoesOn(h, script(i), trace[i].event.kind))
  }

  ghost predicate WentOn(h: Handler, script: nat -> Decision, trace: seq<Handled>, n: nat) {
    n <= |trace| && forall i | 0 <= i < n :: GoesOn(h, script(i), trace[i].event.kind)
  }

  /** The stream at the head of the loop. */
  ghost predicate AtHead(s: Stream, t: Stream, n: nat) {
    && n <= |s.incoming| && t.incoming == s.incoming[n..]
    && t.cursorUnavailable == s.cursorUnavailable && t.expectTerminal == s.expectTerminal
    && t.terminalSeen == s.terminalSeen && t.unusable.None?
    && (n == 0 ==> t.readMode == s.readMode) && (n > 0 ==> t.readMode == Typed && s.readMode != Raw && !s.cursorUnavailable)
  }

  ghost predicate OutcomeSoFar(trace: seq<Handled>, o: Outcome) {
    && o.lastMeta == (if trace == [] then Meta(0, false) else trace[|trace| - 1].event.meta)
    && o.lastSafeResumeMeta == LastSafe(trace) && o.unhandled.None? && o.terminal.None?
  }

  /** Why the stream gives no event in round `n`. */
  function NoEvent(s: Stream, n: nat, canceled: bool): Option<Error>
    requires n <= |s.incoming|
  {
    if canceled then Some(ContextError)
    else if s.cursorUnavailable then Some(CursorUnavailable)
    else if s.readMode.Raw? then Some(WrongReadMode)
    else if n == |s.incoming| || s.incoming[n] == Err(EndOfStream) then Some(EndError(s))
    else match s.incoming[n]
      case Err(e) => Some(e)
      case Ok(wire) => match Decode(wire) case Err(e) => Some(e) case Ok(_) => None
  }

  /** How a run of the loop on a fresh stream comes out. It takes the messages in order as long
      as the callbacks let it go on. It ends with the first event that they do not, or where
      the stream gives none, and its outcome tells of the last event, of the last safe one, of
      an action left without an answer, and of a finished run. */
  ghost predicate ComesOut(s: Stream, h: Handler, script: nat -> Decision, ended: Ended) {
    var trace := ended.trace;
    var n := |trace|;
    && Rounds(s, h, script, trace)
    && (if n > 0 && !GoesOn(h, script(n - 1), trace[n - 1].event.kind) then
          && WentOn(h, script, trace, n - 1)
          && ended.error == ErrorAfter(h, script(n - 1), trace[n - 1].event.kind)
          && Ends(ended.o, Outcome(NO_META, LastSafe(trace[..n - 1]), None, None), h, script(n - 1), trace[n - 1].event)
        else
          && WentOn(h, script, trace, n)
          && ended.error == NoEvent(s, n, script(n).canceled) && ended.error.Some? && OutcomeSoFar(trace, ended.o))
  }

  lemma RoundsGrow(s: Stream, h: Handler, script: nat -> Decision, trace: seq<Handled>, next: Handled)
    requires Rounds(s, h, script, trace) && |trace| < |s.incoming|
    requires var n := |trace|;
             && !script(n).canceled && s.incoming[n] == Ok(next.wire) && Means(next.wire, Ok(next.event))
             && (next.answered <==> next.event.kind.Action? && GoesOn(h, script(n), next.event.kind))
    ensures Rounds(s, h, script, trace + [next])
  {
    hide Means, GoesOn;
  }

  lemma WentOnGrows(h: Handler, script: nat -> Decision, trace: seq<Handled>, next: Handled)
    requires WentOn(h, script, trace, |trace|)
    ensures WentOn(h, script, trace + [next], |trace|)
    ensures GoesOn(h, script(|trace|), next.event.kind) ==> WentOn(h, script, trace + [next], |trace| + 1)
  {
    hide GoesOn;
  }

  lemma OutcomeGrows(trace: seq<Handled>, next: Handled, o: Outcome, v: Outcome, h: Handler, d: Decision)
    requires OutcomeSoFar(trace, o) && Ends(v, o, h, d, next.event) && GoesOn(h, d, next.event.kind)
    ensures OutcomeSoFar(trace + [next], v)
  {
    LastSafeGrows(trace, next);
    hide LastSafe;
  }

  /** What the head of the loop gets from the stream. */
  lemma HeadGets(s: Stream, t: Stream, n: nat, canceled: bool)
    requires AtHead(s, t, n)
    ensures var (u, r) := Next(t, canceled);
            if r.Err? then NoEvent(s, n, canceled) == Some(r.error)
            else
              && n < |s.incoming| && !canceled && s.incoming[n] == Ok(r.value.0) && Means(r.value.0, Ok(r.value.1))
              && NoEvent(s, n, canceled).None?
              && (!r.value.1.kind.Terminal? ==> AtHead(s, u, n + 1))
  {
    hide Decode, Means;
    if n < |s.incoming| {
      assert t.incoming[0] == s.incoming[n] && t.incoming[1..] == s.incoming[n + 1..];
      if s.incoming[n].Ok? { DecodeMeans(s.incoming[n].value); }
    }
  }

  lemma {:induction false} LoopComesOut(s: Stream, t: Stream, h: Handler, script: nat -> Decision, o: Outcome, trace: seq<Handled>)
    requires AtHead(s, t, |trace|) && Rounds(s, h, script, trace) && WentOn(h, script, trace, |trace|) && OutcomeSoFar(trace, o)
    ensures ComesOut(s, h, script, RunLoop(t, h, script, |trace|, o, trace))
    decreases |t.incoming|
  {
    hide Next, Handle, Decode, Means, GoesOn, ErrorAfter, Ends, AtHead, Rounds, WentOn, OutcomeSoFar, NoEvent;
    var n := |trace|;
    assert n <= |s.incoming| by { HeadBounds(s, t, n); }
    HeadGets(s, t, n, script(n).canceled);
    var (u, r) := Next(t, script(n).canceled);
    if r.Err? {
      assert n > 0 ==> GoesOn(h, script(n - 1), trace[n - 1].event.kind) by { LastWentOn(h, script, trace); }
    } else {
      var v := Handle(h, script(n), o, r.value.1);
      var next := Handled(r.value.0, r.value.1, v.answered);
      var longer := trace + [next];
      RoundVerdict(h, script(n), o, r.value.1);
      RoundsGrow(s, h, script, trace, next);
      WentOnGrows(h, script, trace, next);
      assert longer[..n] == trace && longer[n] == next;
      EndsFromSafe(trace, o, v.o, h, script(n), next.event);
      if v.Continue? {
        OutcomeGrows(trace, next, o, v.o, h, script(n));
        NextShortens(t, script(n).canceled);
        TerminalStops(h, script(n), r.value.1.kind);
        LoopComesOut(s, u, h, script, v.o, longer);
      }
    }
  }

  lemma HeadBounds(s: Stream, t: Stream, n: nat)
    requires AtHead(s, t, n)
    ensures n <= |s.incoming|
  {
  }

  lemma EndsFromSafe(trace: seq<Handled>, o: Outcome, v: Outcome, h: Handler, d: Decision, event: Event)
    requires OutcomeSoFar(trace, o) && Ends(v, o, h, d, event)
    ensures Ends(v, Outcome(NO_META, LastSafe(trace), None, None), h, d, event)
  {
    hide LastSafe, GoesOn, ErrorAfter;
  }

  lemma LastWentOn(h: Handler, script: nat -> Decision, trace: seq<Handled>)
    requires WentOn(h, script, trace, |trace|)
    ensures |trace| > 0 ==> GoesOn(h, script(|trace| - 1), trace[|trace| - 1].event.kind)
  {
  }

  lemma TerminalStops(h: Handler, d: Decision, kind: Kind)
    ensures GoesOn(h, d, kind) ==> !kind.Terminal?
  {
  }

  /** Every run of the loop on a fresh stream, for any input, callbacks and script. */
  lemma LoopVerdict(s: Stream, h: Handler, script: nat -> Decision)
    requires s.unusable.None?
    ensures ComesOut(s, h, script, Loop(s, h, script))
  {
    LoopComesOut(s, s, h, script, NOTHING_YET, []);
    hide RunLoop;
  }
}
