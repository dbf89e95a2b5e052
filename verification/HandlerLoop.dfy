/** The SDK's event stream and the handler loop on top of it. What arrives is any sequence
    of messages and receive errors; what the callbacks and the caller's context do in each
    round is any sequence of decisions. */
module HandlerLoop {
  import opened Common

  // ----- messages and events -----------------------------------------------------------

  datatype Lifecycle = CompletedRun | InterruptedRun | FailedRun | OtherLifecycle

  /** `defective` pending requests fail to decode; the display tells which kind of action it is. */
  datatype Payload =
    | TextPayload
    | PendingPayload(pendingID: string, defective: bool, displayKnown: bool)
    | TerminalPayload(lifecycle: Lifecycle)
    | OtherPayload

  datatype Wire =
    | ChatEvent(id: nat, cursor: string, chatID: string, runID: string, payload: Payload)
    | StreamNotice

  /** The zero value stands for no position. */
  datatype Meta = Meta(id: nat, canResumeAfter: bool)

  const NO_META := Meta(0, false)

  datatype Kind = TextDelta | Action(pendingID: string) | Terminal(failed: bool) | OtherEvent

  datatype Event = Event(meta: Meta, kind: Kind)

  datatype Error =
    | ContextError
    | CursorUnavailable
    | WrongReadMode
    | DecodeError
    | EndOfStream
    | EndedBeforeTerminal
    | ReceiveError(code: int)
    | CallbackError
    | UnhandledAction
    | RespondError
    | RunError

  function Decode(wire: Wire): Result<Event, Error> {
    if wire.StreamNotice? then Ok(Event(NO_META, OtherEvent))
    else if wire.id == 0 || wire.cursor == "" || wire.chatID == "" || wire.runID == "" then Err(DecodeError)
    else match wire.payload
      case TextPayload => Ok(Event(Meta(wire.id, true), TextDelta))
      case PendingPayload(pendingID, defective, displayKnown) =>
        if defective then Err(DecodeError)
        else Ok(Event(Meta(wire.id, false), if displayKnown then Action(pendingID) else OtherEvent))
      case TerminalPayload(lifecycle) =>
        Ok(Event(Meta(wire.id, true), if lifecycle.OtherLifecycle? then OtherEvent else Terminal(!lifecycle.CompletedRun?)))
      case OtherPayload => Ok(Event(Meta(wire.id, true), OtherEvent))
  }

  // ----- the stream ------------------------------------------------------------------------

  datatype ReadMode = Unset | Raw | Typed

  datatype Stream = Stream(incoming: seq<Result<Wire, Error>>, readMode: ReadMode, cursorUnavailable: bool,
                           expectTerminal: bool, terminalSeen: bool, unusable: Option<Error>, lastSafe: Meta)

  function ReceivedError(s: Stream, error: Error): (Stream, Error) {
    if error == EndOfStream && s.expectTerminal && !s.terminalSeen
    then (s.(unusable := Some(EndedBeforeTerminal)), EndedBeforeTerminal)
    else (s, error)
  }

  /** One call of NextEvent. A fatal error sticks; when nothing more arrives the stream has ended. */
  function Next(s: Stream, canceled: bool): (Stream, Result<(Wire, Event), Error>) {
    if canceled then (s, Err(ContextError))
    else if s.cursorUnavailable then (s, Err(CursorUnavailable))
    else if s.readMode == Raw then (s, Err(WrongReadMode))
    else
      var t := s.(readMode := Typed);
      if t.unusable.Some? then (t, Err(t.unusable.value))
      else
        var received := if t.incoming == [] then Err(EndOfStream) else t.incoming[0];
        var u := if t.incoming == [] then t else t.(incoming := t.incoming[1..]);
        if received.Err? then
          var (v, error) := ReceivedError(u, received.error);
          (v, Err(error))
        else
          var decoded := Decode(received.value);
          if decoded.Err? then (u.(unusable := Some(decoded.error)), Err(decoded.error))
          else
            (u.(lastSafe := if decoded.value.meta.canResumeAfter then decoded.value.meta else u.lastSafe,
                terminalSeen := u.terminalSeen || decoded.value.kind.Terminal?),
             Ok((received.value, decoded.value)))
  }

  class EventStream {
    var incoming: seq<Result<Wire, Error>>
    var readMode: ReadMode
    var cursorUnavailable: bool
    var expectTerminal: bool
    var terminalSeen: bool
    var unusable: Option<Error>
    var lastSafe: Meta

    ghost function View(): Stream
      reads this
    {
      Stream(incoming, readMode, cursorUnavailable, expectTerminal, terminalSeen, unusable, lastSafe)
    }

    constructor (incoming: seq<Result<Wire, Error>>, cursorUnavailable: bool, expectTerminal: bool)
      ensures View() == Stream(incoming, Unset, cursorUnavailable, expectTerminal, false, None, NO_META)
    {
      this.incoming, this.cursorUnavailable, this.expectTerminal := incoming, cursorUnavailable, expectTerminal;
      readMode, terminalSeen, unusable, lastSafe := Unset, false, None, NO_META;
    }

    method BeginReadMode(mode: ReadMode) returns (ok: bool)
      requires mode != Unset
      modifies `readMode
      ensures ok <==> old(readMode) == Unset || old(readMode) == mode
      ensures readMode == if old(readMode) == Unset then mode else old(readMode)
    {
      if readMode == Unset {
        readMode := mode;
        return true;
      }
      ok := readMode == mode;
    }

    method NextEvent(canceled: bool) returns (r: Result<(Wire, Event), Error>)
      modifies this
      ensures (View(), r) == Next(old(View()), canceled)
    {
      if canceled { return Err(ContextError); }
      if cursorUnavailable { return Err(CursorUnavailable); }
      var ok := BeginReadMode(Typed);
      if !ok { return Err(WrongReadMode); }
      if unusable.Some? { return Err(unusable.value); }
      var received := Err(EndOfStream);
      if incoming != [] {
        received := incoming[0];
        incoming := incoming[1..];
      }
      if received.Err? {
        if received.error == EndOfStream && expectTerminal {
          if terminalSeen { return Err(EndOfStream); }
          unusable := Some(EndedBeforeTerminal);
          return Err(EndedBeforeTerminal);
        }
        return Err(received.error);
      }
      var decoded := Decode(received.value);
      if decoded.Err? {
        unusable := Some(decoded.error);
        return Err(decoded.error);
      }
      var event := decoded.value;
      if event.meta.canResumeAfter { lastSafe := event.meta; }
      if event.kind.Terminal? { terminalSeen := true; }
      r := Ok((received.value, event));
    }
  }

  // ----- the loop ------------------------------------------------------------------------------

  datatype Handler = Handler(text: bool, action: bool, terminal: bool, event: bool)

  datatype ActionAnswer = ActionFailed | NoAnswer | Answer(responds: bool)

  /** What the caller's context and callbacks do in one round. */
  datatype Decision = Decision(canceled: bool, callbackFails: bool, answer: ActionAnswer)

  /** One round's event, and whether a response to it was accepted. */
  datatype Handled = Handled(wire: Wire, event: Event, answered: bool)

  datatype Outcome = Outcome(lastMeta: Meta, lastSafeResumeMeta: Meta, unhandled: Option<string>, terminal: Option<nat>)

  const NOTHING_YET := Outcome(NO_META, NO_META, None, None)

  function Noted(o: Outcome, event: Event): Outcome {
    o.(lastMeta := event.meta,
       lastSafeResumeMeta :=
         if event.meta.canResumeAfter && !event.kind.Action? then event.meta else o.lastSafeResumeMeta)
  }

  /** What the callbacks make of one event: the outcome, whether it was answered, and the
      error to return, where a finished run returns with no error. */
  datatype Verdict = Continue(o: Outcome, answered: bool) | Return(o: Outcome, answered: bool, error: Option<Error>)

  function Observed(h: Handler, d: Decision, o: Outcome): Verdict {
    if h.event && d.callbackFails then Return(o, false, Some(CallbackError)) else Continue(o, false)
  }

  function Handle(h: Handler, d: Decision, before: Outcome, event: Event): Verdict {
    var o := Noted(before, event);
    match event.kind
    case TextDelta =>
      if h.text then (if d.callbackFails then Return(o, false, Some(CallbackError)) else Continue(o, false))
      else Observed(h, d, o)
    case Action(pendingID) =>
      if !h.action then
        if h.event && d.callbackFails then Return(o, false, Some(CallbackError))
        else Return(o.(unhandled := Some(pendingID)), false, Some(UnhandledAction))
      else (match d.answer
        case ActionFailed => Return(o, false, Some(CallbackError))
        case NoAnswer => Return(o.(unhandled := Some(pendingID)), false, Some(UnhandledAction))
        case Answer(responds) => if responds then Continue(o, true) else Return(o, false, Some(RespondError)))
    case Terminal(failed) =>
      Return(o.(terminal := Some(event.meta.id)), false,
             if failed then Some(RunError) else if h.terminal && d.callbackFails then Some(CallbackError) else None)
    case OtherEvent => Observed(h, d, o)
  }

  datatype Ended = Ended(o: Outcome, error: Option<Error>, trace: seq<Handled>)

  function RunLoop(s: Stream, h: Handler, script: nat -> Decision, round: nat, o: Outcome, trace: seq<Handled>): Ended
    decreases |s.incoming|
  {
    var (t, r) := Next(s, script(round).canceled);
    if r.Err? then Ended(o, Some(r.error), trace)
    else
      var verdict := Handle(h, script(round), o, r.value.1);
      var handled := trace + [Handled(r.value.0, r.value.1, verdict.answered)];
      if verdict.Return? then Ended(verdict.o, verdict.error, handled)
      else RunLoop(t, h, script, round + 1, verdict.o, handled)
  }

  method RunHandlerLoop(events: EventStream, h: Handler, script: nat -> Decision) returns (o: Outcome, error: Option<Error>)
    modifies events
    ensures var ended := RunLoop(old(events.View()), h, script, 0, NOTHING_YET, []); o == ended.o && error == ended.error
  {
    o := NOTHING_YET;
    var round := 0;
    ghost var trace := [];
    while true
      invariant RunLoop(events.View(), h, script, round, o, trace) == RunLoop(old(events.View()), h, script, 0, NOTHING_YET, [])
      decreases |events.incoming|
    {
      var d := script(round);
      var r := events.NextEvent(d.canceled);
      if r.Err? { return o, Some(r.error); }
      var event := r.value.1;
      o := o.(lastMeta := event.meta);
      if event.meta.canResumeAfter && !event.kind.Action? { o := o.(lastSafeResumeMeta := event.meta); }
      var consumed, answered := false, false;
      match event.kind {
        case TextDelta =>
          if h.text {
            if d.callbackFails { return o, Some(CallbackError); }
            consumed := true;
          }
        case Action(pendingID) =>
          if !h.action {
            if h.event && d.callbackFails { return o, Some(CallbackError); }
            o := o.(unhandled := Some(pendingID));
            return o, Some(UnhandledAction);
          }
          if d.answer.ActionFailed? { return o, Some(CallbackError); }
          if d.answer.NoAnswer? {
            o := o.(unhandled := Some(pendingID));
            return o, Some(UnhandledAction);
          }
          if !d.answer.responds { return o, Some(RespondError); }
          consumed, answered := true, true;
        case Terminal(failed) =>
          o := o.(terminal := Some(event.meta.id));
          if failed { return o, Some(RunError); }
          return o, if h.terminal && d.callbackFails then Some(CallbackError) else None;
        case OtherEvent =>
      }
      if !consumed && h.event && d.callbackFails { return o, Some(CallbackError); }
      trace := trace + [Handled(r.value.0, event, answered)];
      round := round + 1;
    }
  }

  // ----- what the trace of a run looks like --------------------------------------------------------

  /** The position of the last event in the trace that is safe to resume after. */
  function LastSafe(trace: seq<Handled>): Meta {
    if trace == [] then NO_META
    else
      var last := trace[|trace| - 1].event;
      if last.meta.canResumeAfter && !last.kind.Action? then last.meta else LastSafe(trace[..|trace| - 1])
  }

  ghost predicate ActionsAnswered(trace: seq<Handled>) {
    forall i | 0 <= i < |trace| && trace[i].event.kind.Action? :: trace[i].answered
  }

  predicate Requests(wire: Wire) { wire.ChatEvent? && wire.payload.PendingPayload? }

  /** Each event is the decoded message, and only actions are ever answered. */
  ghost predicate TraceOK(trace: seq<Handled>) {
    forall i | 0 <= i < |trace| ::
      Decode(trace[i].wire) == Ok(trace[i].event) && (trace[i].answered ==> trace[i].event.kind.Action?)
  }

  lemma LastSafeGrows(trace: seq<Handled>, last: Handled)
    ensures LastSafe(trace + [last]) ==
            if last.event.meta.canResumeAfter && !last.event.kind.Action? then last.event.meta else LastSafe(trace)
  {
    assert (trace + [last])[..|trace|] == trace;
  }

  lemma NextDecodes(s: Stream, canceled: bool)
    requires Next(s, canceled).1.Ok?
    ensures Decode(Next(s, canceled).1.value.0) == Ok(Next(s, canceled).1.value.1)
  {
  }

  lemma HandleKeepsSafe(h: Handler, d: Decision, o: Outcome, trace: seq<Handled>, wire: Wire, event: Event)
    requires TraceOK(trace) && o.lastSafeResumeMeta == LastSafe(trace) && Decode(wire) == Ok(event)
    ensures var verdict := Handle(h, d, o, event); var longer := trace + [Handled(wire, event, verdict.answered)];
            && TraceOK(longer) && verdict.o.lastSafeResumeMeta == LastSafe(longer)
            && (verdict.Continue? && event.kind.Action? ==> verdict.answered)
            && (verdict.answered ==> verdict.Continue? && event.kind.Action?)
  {
    LastSafeGrows(trace, Handled(wire, event, Handle(h, d, o, event).answered));
    hide Decode, LastSafe;
  }

  /** At every loop head every action delivered so far has been answered; and the safe
      resume position always is the last safe event of the trace. */
  lemma {:induction false} LoopKeepsPromise(s: Stream, h: Handler, script: nat -> Decision, round: nat, o: Outcome,
                                            trace: seq<Handled>)
    requires TraceOK(trace) && ActionsAnswered(trace) && o.lastSafeResumeMeta == LastSafe(trace)
    ensures var ended := RunLoop(s, h, script, round, o, trace); var n := |ended.trace|;
            && trace <= ended.trace && TraceOK(ended.trace)
            && ended.o.lastSafeResumeMeta == LastSafe(ended.trace)
            && (n > 0 ==> ActionsAnswered(ended.trace[..n - 1]))
    decreases |s.incoming|
  {
    hide Decode, Handle, LastSafe, Next;
    var (t, r) := Next(s, script(round).canceled);
    if r.Ok? {
      NextDecodes(s, script(round).canceled);
      HandleKeepsSafe(h, script(round), o, trace, r.value.0, r.value.1);
      var verdict := Handle(h, script(round), o, r.value.1);
      var longer := trace + [Handled(r.value.0, r.value.1, verdict.answered)];
      assert longer[..|longer| - 1] == trace;
      if verdict.Continue? {
        NextShortens(s, script(round).canceled);
        LoopKeepsPromise(t, h, script, round + 1, verdict.o, longer);
      }
    }
  }

  lemma NextShortens(s: Stream, canceled: bool)
    requires Next(s, canceled).1.Ok?
    ensures |Next(s, canceled).0.incoming| < |s.incoming|
  {
  }

  // ----- main results ---------------------------------------------------------------------------------

  function Loop(s: Stream, h: Handler, script: nat -> Decision): Ended {
    RunLoop(s, h, script, 0, NOTHING_YET, [])
  }

  /** Ids of chat events increase along the trace, as the gateway promises. */
  ghost predicate IdsIncrease(trace: seq<Handled>) {
    forall i, j | 0 <= i < j < |trace| && trace[i].wire.ChatEvent? && trace[j].wire.ChatEvent? ::
      trace[i].wire.id < trace[j].wire.id
  }

  predicate SafeAt(trace: seq<Handled>, i: nat)
    requires i < |trace|
  {
    trace[i].event.meta.canResumeAfter && !trace[i].event.kind.Action?
  }

  /** Only the last event of a run can be an unanswered action; the run then ends with an
      error, and the safe resume position is that of the events before it. */
  lemma UnansweredActionEndsLoop(s: Stream, h: Handler, script: nat -> Decision, k: nat)
    requires var trace := Loop(s, h, script).trace; k < |trace| && trace[k].event.kind.Action? && !trace[k].answered
    ensures var ended := Loop(s, h, script);
            && k == |ended.trace| - 1 && ended.error.Some?
            && ended.o.lastSafeResumeMeta == LastSafe(ended.trace[..k])
  {
    LoopKeepsPromise(s, h, script, 0, NOTHING_YET, []);
    ErrorsNameUnanswered(s, h, script, 0, NOTHING_YET, []);
    hide RunLoop, TraceOK, LastSafe;
    UnansweredIsLast(Loop(s, h, script).trace, k);
    ActionKeepsSafe(Loop(s, h, script).trace);
  }

  /** With increasing ids that position lies strictly before the action, so resuming there
      brings it again. */
  lemma UnansweredActionComesAfterSafePoint(s: Stream, h: Handler, script: nat -> Decision, k: nat)
    requires var trace := Loop(s, h, script).trace; k < |trace| && trace[k].event.kind.Action? && !trace[k].answered
    requires IdsIncrease(Loop(s, h, script).trace)
    ensures var ended := Loop(s, h, script); ended.o.lastSafeResumeMeta.id < ended.trace[k].event.meta.id
  {
    LoopKeepsPromise(s, h, script, 0, NOTHING_YET, []);
    UnansweredActionEndsLoop(s, h, script, k);
    hide Loop, RunLoop, TraceOK, IdsIncrease, LastSafe;
    SafePointBeforeLast(Loop(s, h, script).trace);
  }

  /** An action does not move the safe position. */
  lemma ActionKeepsSafe(trace: seq<Handled>)
    ensures trace != [] && trace[|trace| - 1].event.kind.Action? ==> LastSafe(trace) == LastSafe(trace[..|trace| - 1])
  {
  }

  lemma UnansweredIsLast(trace: seq<Handled>, k: nat)
    requires k < |trace| && ActionsAnswered(trace[..|trace| - 1])
    requires trace[k].event.kind.Action? && !trace[k].answered
    ensures k == |trace| - 1 && !ActionsAnswered(trace)
  {
    assert forall i | 0 <= i < |trace| - 1 :: trace[..|trace| - 1][i] == trace[i];
  }

  lemma SafePointBeforeLast(trace: seq<Handled>)
    requires trace != [] && TraceOK(trace) && IdsIncrease(trace) && trace[|trace| - 1].event.kind.Action?
    ensures LastSafe(trace[..|trace| - 1]).id < trace[|trace| - 1].event.meta.id
  {
    var k := |trace| - 1;
    DecodedMeta(trace[k].wire);
    assert Decode(trace[k].wire) == Ok(trace[k].event);
    hide Decode;
    assert TraceOK(trace[..k]);
    LastSafeBelow(trace[..k], trace[k].wire.id);
  }

  lemma DecodedMeta(wire: Wire)
    ensures Decode(wire).Ok? && (Decode(wire).value.meta.canResumeAfter || Decode(wire).value.kind.Action?) ==>
              wire.ChatEvent? && Decode(wire).value.meta.id == wire.id && wire.id > 0
  {
  }

  lemma {:induction false} LastSafeBelow(trace: seq<Handled>, bound: nat)
    requires TraceOK(trace) && bound > 0
    requires forall i | 0 <= i < |trace| && trace[i].wire.ChatEvent? :: trace[i].wire.id < bound
    ensures LastSafe(trace).id < bound
  {
    hide Decode;
    if trace != [] {
      var k := |trace| - 1;
      DecodedMeta(trace[k].wire);
      assert Decode(trace[k].wire) == Ok(trace[k].event);
      LastSafeBelow(trace[..k], bound);
    }
  }

  lemma {:induction false} ErrorsNameUnanswered(s: Stream, h: Handler, script: nat -> Decision, round: nat, o: Outcome,
                                            trace: seq<Handled>)
    requires ActionsAnswered(trace)
    ensures var ended := RunLoop(s, h, script, round, o, trace);
            !ActionsAnswered(ended.trace) ==> ended.error.Some?
    decreases |s.incoming|
  {
    hide Decode, Next;
    var (t, r) := Next(s, script(round).canceled);
    if r.Ok? {
      var verdict := Handle(h, script(round), o, r.value.1);
      var longer := trace + [Handled(r.value.0, r.value.1, verdict.answered)];
      if verdict.Continue? {
        assert r.value.1.kind.Action? ==> verdict.answered;
        NextShortens(s, script(round).canceled);
        ErrorsNameUnanswered(t, h, script, round + 1, verdict.o, longer);
      }
    }
  }

  /** A request whose display this SDK does not know is no action for the loop: it is skipped
      without an answer, and a later safe event moves the resume position past it. So the
      position passes an unanswered request exactly when it passes one with an unknown display. */
  lemma SafePointPassesRequestIff(s: Stream, h: Handler, script: nat -> Decision, safe: nat)
    requires safe < |Loop(s, h, script).trace| && SafeAt(Loop(s, h, script).trace, safe)
    ensures var trace := Loop(s, h, script).trace;
            (exists k | 0 <= k < safe :: Requests(trace[k].wire) && !trace[k].answered) <==>
            (exists k | 0 <= k < safe :: Requests(trace[k].wire) && !trace[k].wire.payload.displayKnown)
  {
    LoopKeepsPromise(s, h, script, 0, NOTHING_YET, []);
    var trace := Loop(s, h, script).trace;
    hide Loop, RunLoop;
    forall k | 0 <= k < safe && Requests(trace[k].wire)
      ensures trace[k].answered <==> trace[k].wire.payload.displayKnown
    {
      assert Decode(trace[k].wire) == Ok(trace[k].event);
      assert trace[..|trace| - 1][k] == trace[k];
    }
  }

  /** And it does pass one: a request with an unknown display, then a text event. The request
      is never answered, and resuming at the reported position does not bring it again. */
  lemma SafePointCanPassRequest(h: Handler, script: nat -> Decision)
    requires forall n :: script(n) == Decision(false, false, Answer(true))
    ensures var request := ChatEvent(1, "c1", "chat", "run", PendingPayload("p", false, false));
            var text := ChatEvent(2, "c2", "chat", "run", TextPayload);
            var ended := Loop(Stream([Ok(request), Ok(text)], Unset, false, false, false, None, NO_META), h, script);
            && ended.trace == [Handled(request, Event(Meta(1, false), OtherEvent), false),
                               Handled(text, Event(Meta(2, true), TextDelta), false)]
            && ended.o.lastSafeResumeMeta.id == 2 && ended.error == Some(EndOfStream)
  {
    var request := ChatEvent(1, "c1", "chat", "run", PendingPayload("p", false, false));
    var text := ChatEvent(2, "c2", "chat", "run", TextPayload);
    var s0 := Stream([Ok(request), Ok(text)], Unset, false, false, false, None, NO_META);
    var s1 := Stream([Ok(text)], Typed, false, false, false, None, NO_META);
    var s2 := Stream([], Typed, false, false, false, None, Meta(2, true));
    var first := Handled(request, Event(Meta(1, false), OtherEvent), false);
    var second := Handled(text, Event(Meta(2, true), TextDelta), false);
    assert Next(s0, false) == (s1, Ok((request, first.event)));
    assert s0.incoming[1..] == s1.incoming && s1.incoming[1..] == [];
    assert Next(s1, false) == (s2, Ok((text, second.event)));
    assert Next(s2, false) == (s2, Err(EndOfStream));
    hide Next, Decode;
    var o1, o2 := NOTHING_YET.(lastMeta := Meta(1, false)), Outcome(Meta(2, true), Meta(2, true), None, None);
    assert Handle(h, script(0), NOTHING_YET, first.event) == Continue(o1, false);
    assert Handle(h, script(1), o1, second.event) == Continue(o2, false);
    hide Handle;
    assert [] + [first] == [first] && [first] + [second] == [first, second];
    assert RunLoop(s2, h, script, 2, o2, [first, second]) == Ended(o2, Some(EndOfStream), [first, second]);
    assert RunLoop(s1, h, script, 1, o1, [first]) == RunLoop(s2, h, script, 2, o2, [first, second]);
    assert RunLoop(s0, h, script, 0, NOTHING_YET, []) == RunLoop(s1, h, script, 1, o1, [first]);
  }
}
