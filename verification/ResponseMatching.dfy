/** Which response a call accepts, and which notification binds which call, told from the
    messages of the app-server alone. */
module ResponseMatching {
  import opened Common
  import opened Dispatching

  /** The id that a successful response names for this kind of call. */
  predicate Names(kind: Method, response: Response, id: string) {
    match kind
    case ThreadStart => id == response.threadID
    case ThreadResume => id == response.threadID
    case TurnStart => id == response.turnID
    case OtherMethod(_) => id == ""
  }

  /** What its answering response gives a call: an error stays one; otherwise a call that was
      announced under an id needs this id in the response, and any other call takes what the
      response names. */
  predicate Gives(call: Call, response: Response, result: CallResult) {
    if response.isError then result == RemoteError
    else if call.provisionalID != "" && !call.kind.OtherMethod? then
      result == if Names(call.kind, response, call.provisionalID) then Success(call.provisionalID) else ProtocolMismatch
    else result.Success? && Names(call.kind, response, result.confirmed)
  }

  ghost predicate AnswerOK(w: World, id: nat) {
    && (id in w.fates && w.fates[id].Answered? ==>
          && id in w.answers && w.answers[id].id == id && id in w.registered
          && (id in w.owed ==> Gives(w.registered[id], w.answers[id], w.owed[id]))
          && (SentTo(w, id) != [] ==> Gives(w.registered[id], w.answers[id], SentTo(w, id)[0])))
    && (id in w.answers ==> id in w.fates && w.fates[id].Answered?)
  }

  lemma SameCallsAnswer(w: World, v: World, id: nat)
    requires AnswerOK(w, id) && SameCalls(w, v)
    ensures AnswerOK(v, id)
  {
  }

  lemma ReceiveAnswers(w: World, response: Response, id: nat)
    requires AnswerOK(w, id) && BothOK(w, id)
    ensures AnswerOK(ReceiveStep(w, response), id)
  {
    hide ResultFits;
  }

  lemma SendAnswers(w: World, to: nat, id: nat)
    requires AnswerOK(w, id) && BothOK(w, id)
    ensures AnswerOK(SendStep(w, to), id)
  {
    hide ResultFits, Gives;
    if id in w.owed {
      assert SentTo(w, id) + [w.owed[id]] == [w.owed[id]];
      assert [w.owed[id]][0] == w.owed[id];
    }
  }

  lemma CloseAnswers(w: World, id: nat)
    requires AnswerOK(w, id) && BothOK(w, id)
    ensures AnswerOK(CloseStep(w), id)
  {
    hide ResultFits, Gives;
  }

  lemma RegisterAnswers(w: World, a: Action, id: nat)
    requires AnswerOK(w, id) && BothOK(w, id) && a.Register?
    ensures AnswerOK(RegisterStep(w, a), id)
  {
    hide ResultFits, Gives, Expected;
  }

  lemma GiveUpAnswers(w: World, gone: nat, id: nat)
    requires AnswerOK(w, id) && BothOK(w, id)
    ensures AnswerOK(GiveUpStep(w, gone), id)
  {
    hide ResultFits, Gives;
  }

  lemma TakenAnswers(w: World, a: Action, id: nat)
    requires AnswerOK(w, id) && BothOK(w, id)
    ensures AnswerOK(Taken(w, a), id)
  {
    hide AnswerOK, BothOK, SameCalls, Choice, Bind, RemoveRequest, RegisterStep, GiveUpStep, ReceiveStep, SendStep, CloseStep,
      RespondStep, AcceptStep, WriteStep, FinishStep;
    match a
    case Receive(response) => ReceiveAnswers(w, response, id);
    case Send(to) => SendAnswers(w, to, id);
    case Notify(l, bound) => TableMoves(w, Bind(w.s, l, bound), id); TableMoves(w, w.s, id);
    case Register(_, _, _, _, _) => RegisterAnswers(w, a, id);
    case GiveUp(gone) => GiveUpAnswers(w, gone, id);
    case CloseNow => CloseAnswers(w, id);
    case ReaderCloses => CloseAnswers(w, id);
    case _ =>
      RequestsLeaveCalls(w, a);
      SameCallsAnswer(w, Taken(w, a), id);
  }

  lemma TableMoves(w: World, s: State, id: nat)
    requires AnswerOK(w, id)
    ensures AnswerOK(w.(s := s), id)
  {
  }

  lemma StepAnswers(w: World, a: Action, id: nat)
    requires AnswerOK(w, id) && BothOK(w, id)
    ensures AnswerOK(Step(w, a), id)
  {
    hide Taken, Enabled, ReaderAfter, BothOK;
    if Enabled(w, a) { TakenAnswers(w, a, id); }
  }

  lemma {:induction false} EveryRunAnswers(actions: seq<Action>, id: nat)
    ensures AnswerOK(Run(actions), id)
  {
    hide Step, BothOK;
    if actions != [] {
      var init := actions[..|actions| - 1];
      EveryRunAnswers(init, id);
      EveryRunOK(init);
      assert BothOK(Run(init), id);
      StepAnswers(Run(init), actions[|actions| - 1], id);
    }
  }

  /** In every run each call that was told a result of its response was told the one that the
      response gives it: an announced turn/start or thread call succeeds if and only if the
      response names the announced id, where that kind of call names it. */
  lemma ToldWhatResponseGives(actions: seq<Action>, id: nat)
    requires id in Run(actions).fates && Run(actions).fates[id].Answered?
    ensures var w := Run(actions);
            && id in w.answers && w.answers[id].id == id && id in w.registered
            && (SentTo(w, id) == [] ==> id in w.owed && Gives(w.registered[id], w.answers[id], w.owed[id]))
            && (SentTo(w, id) != [] ==> |SentTo(w, id)| == 1 && Gives(w.registered[id], w.answers[id], SentTo(w, id)[0]))
  {
    EveryRunAnswers(actions, id);
    EveryRunOK(actions);
    hide Run, Gives;
    assert BothOK(Run(actions), id);
  }

  // ----- one message at a time -----------------------------------------------------------------------

  /** A response settles the call it names, if that waits, and touches no other; nobody else
      is answered by it. A response for no waiting call changes nothing. */
  lemma ResponseSettlesItsCall(actions: seq<Action>, response: Response)
    requires Run(actions).reader.Reading?
    ensures var w := Run(actions); var v := Step(w, Receive(response));
            if response.id !in w.s.pending then v == w
            else
              && v.s == w.s.(pending := w.s.pending - {response.id})
              && v.registered == w.registered[response.id := w.s.pending[response.id]]
              && v.fates == w.fates[response.id := Answered] && v.answers == w.answers[response.id := response]
              && response.id in v.owed && v.owed == w.owed[response.id := v.owed[response.id]]
              && Gives(w.s.pending[response.id], response, v.owed[response.id])
              && v.reader == Telling(response.id, v.owed[response.id] == ProtocolMismatch)
  {
    hide Run, RegisterStep, GiveUpStep, SendStep, CloseStep, RespondStep, AcceptStep, WriteStep, FinishStep, RemoveRequest,
      Choice, Bind, Accept;
  }

  /** The notification fits the call: right kind, no id yet, and no expected id that differs. */
  predicate Fits(call: Call, l: Lifecycle) {
    && call.provisionalID == ""
    && match l
       case ThreadStarted(threadID) =>
         && (call.kind.ThreadStart? || call.kind.ThreadResume?)
         && (call.expectedThreadID == "" || call.expectedThreadID == threadID) && call.expectedTurnID == ""
       case TurnStarted(threadID, turnID) =>
         && call.kind.TurnStart?
         && (call.expectedThreadID == "" || call.expectedThreadID == threadID)
         && (call.expectedTurnID == "" || call.expectedTurnID == turnID)
  }

  function AnnouncedID(l: Lifecycle): string {
    match l
    case ThreadStarted(threadID) => threadID
    case TurnStarted(_, turnID) => turnID
  }

  predicate Expects(call: Call) { call.expectedThreadID != "" || call.expectedTurnID != "" }

  lemma CandidateFits(pending: map<nat, Call>, l: Lifecycle, id: nat)
    ensures Candidate(pending, l, id) <==> id in pending && Fits(pending[id], l)
  {
    if id in pending {
      var call := pending[id];
      assert forall m | m in Methods(l) :: Matches(call, m, l) ==> Fits(call, l);
      assert call.kind in Methods(l) <==>
             if l.ThreadStarted? then call.kind.ThreadStart? || call.kind.ThreadResume? else call.kind.TurnStart?;
    }
  }

  /** A notification binds nothing exactly if it has no id or fits no waiting call. Otherwise it
      gives its id to one call that it fits, one that expects an id if there is such a call. */
  lemma BindsOneThatFits(pending: map<nat, Call>, l: Lifecycle, bound: Option<nat>)
    ensures Choice(pending, l, bound) <==>
            if AnnouncedID(l) == "" || forall id | id in pending :: !Fits(pending[id], l) then bound.None?
            else
              && bound.Some? && bound.value in pending && Fits(pending[bound.value], l)
              && (Expects(pending[bound.value]) || forall id | id in pending && Fits(pending[id], l) :: !Expects(pending[id]))
  {
    hide Fits, Candidate;
    forall id ensures Candidate(pending, l, id) <==> id in pending && Fits(pending[id], l) { CandidateFits(pending, l, id); }
  }

  /** And it changes nothing else. */
  lemma NotificationBindsIt(actions: seq<Action>, l: Lifecycle, bound: Option<nat>)
    requires Run(actions).reader.Reading? && Choice(Run(actions).s.pending, l, bound)
    ensures var w := Run(actions); var v := Step(w, Notify(l, bound));
            if bound.None? then v == w
            else
              && bound.value in w.s.pending
              && v == w.(s := w.s.(pending := w.s.pending[bound.value :=
                           w.s.pending[bound.value].(provisionalID := AnnouncedID(l))]))
  {
    hide Run, Fits, Choice, RegisterStep, GiveUpStep, ReceiveStep, SendStep, CloseStep, RespondStep, AcceptStep, WriteStep,
      FinishStep, RemoveRequest, Accept, TakeCall;
    BindsOneThatFits(Run(actions).s.pending, l, bound);
  }

  // ----- the other steps of calls and requests -------------------------------------------------------

  /** Steps of callers and responders leave the reader where it is. */
  lemma CallersStep(w: World, a: Action)
    requires a.Register? || a.GiveUp? || a.CloseNow? || a.Respond? || a.WriteResponse? || a.FinishRespond?
    ensures Step(w, a) == Taken(w, a).(reader := w.reader)
    ensures a.Register? ==> Taken(w, a) == RegisterStep(w, a)
    ensures a.GiveUp? ==> Taken(w, a) == GiveUpStep(w, a.id)
    ensures a.CloseNow? ==> Taken(w, a) == CloseStep(w)
    ensures a.Respond? ==> Taken(w, a) == RespondStep(w, a.t, a.key)
    ensures a.WriteResponse? ==> Taken(w, a) == WriteStep(w, a.t, a.ok)
    ensures a.FinishRespond? ==> Taken(w, a) == FinishStep(w, a.t)
  {
    hide RegisterStep, GiveUpStep, ReceiveStep, SendStep, CloseStep, RespondStep, AcceptStep, WriteStep, FinishStep,
      RemoveRequest, Choice, Bind, TakeCall, Accept;
  }

  /** A call on an existing thread waits for its own thread unless it was told otherwise. */
  predicate WaitsFor(call: Call, kind: Method, paramsThreadID: string, expectedThreadID: string, expectedTurnID: string) {
    && call.kind == kind && call.provisionalID == "" && call.expectedTurnID == expectedTurnID
    && (if expectedThreadID != "" then call.expectedThreadID == expectedThreadID
        else match kind
          case ThreadResume => call.expectedThreadID == paramsThreadID
          case TurnStart => call.expectedThreadID == paramsThreadID
          case _ => call.expectedThreadID == "")
  }

  /** A call gets an id that no call had before, and waits for its own thread unless it was
      told to expect another one. Nothing is registered on a closed dispatcher. */
  lemma NewCallWaits(actions: seq<Action>, kind: Method, paramsThreadID: string, expectedThreadID: string,
                     expectedTurnID: string, encodes: bool)
    ensures var w := Run(actions); var id := w.s.nextID;
            var v := Step(w, Register(kind, paramsThreadID, expectedThreadID, expectedTurnID, encodes));
            if w.s.closed then v == w
            else if !encodes then v == w.(s := w.s.(nextID := id + 1))
            else
              && id !in w.registered && id !in w.fates && id in v.s.pending
              && v == w.(s := w.s.(nextID := id + 1, pending := w.s.pending[id := v.s.pending[id]]),
                         registered := w.registered[id := v.s.pending[id]])
              && WaitsFor(v.s.pending[id], kind, paramsThreadID, expectedThreadID, expectedTurnID)
  {
    hide Run, Step, Taken, CallsOK, Orderly;
    var w := Run(actions);
    EveryRunOK(actions);
    CallersStep(w, Register(kind, paramsThreadID, expectedThreadID, expectedTurnID, encodes));
    assert BothOK(w, w.s.nextID) by { CallIsOK(w, w.s.nextID); }
    RegisterGives(w, kind, paramsThreadID, expectedThreadID, expectedTurnID, encodes);
    hide RegisterStep;
  }

  lemma CallIsOK(w: World, id: nat)
    requires CallsOK(w)
    ensures BothOK(w, id)
  {
    hide BothOK;
  }

  lemma RegisterGives(w: World, kind: Method, paramsThreadID: string, expectedThreadID: string, expectedTurnID: string,
                      encodes: bool)
    ensures var id := w.s.nextID; var v := RegisterStep(w, Register(kind, paramsThreadID, expectedThreadID, expectedTurnID, encodes));
            if w.s.closed then v == w
            else if !encodes then v == w.(s := w.s.(nextID := id + 1))
            else
              && id in v.s.pending
              && v == w.(s := w.s.(nextID := id + 1, pending := w.s.pending[id := v.s.pending[id]]),
                         registered := w.registered[id := v.s.pending[id]])
              && WaitsFor(v.s.pending[id], kind, paramsThreadID, expectedThreadID, expectedTurnID)
  {
  }

  /** A caller that gives up takes its waiting call off the table, and nothing else. */
  lemma GivingUpRemovesCall(actions: seq<Action>, id: nat)
    ensures var w := Run(actions); var v := Step(w, GiveUp(id));
            if id !in w.s.pending then v == w
            else v == w.(s := w.s.(pending := w.s.pending - {id}), fates := w.fates[id := Removed])
  {
    hide Run, Step, Taken;
    CallersStep(Run(actions), GiveUp(id));
  }

  /** The first close fails exactly the calls that wait, and drops every open request. */
  lemma CloseFailsWaiting(actions: seq<Action>)
    ensures var w := Run(actions); var v := Step(w, CloseNow);
            if w.s.closed then v == w
            else
              && v.s == State(w.s.nextID, map[], map[], w.s.nextInstance, true)
              && v.fates.Keys == w.fates.Keys + w.s.pending.Keys
              && (forall id | id in v.fates :: v.fates[id] == if id in w.s.pending then Failed else w.fates[id])
              && v.owed.Keys == w.owed.Keys + w.s.pending.Keys
              && (forall id | id in v.owed :: v.owed[id] == if id in w.s.pending then ClosedError else w.owed[id])
              && v.sent == w.sent && v.registered == w.registered && v.reader == w.reader
  {
    hide Run, Step, Taken;
    var w := Run(actions);
    CallersStep(w, CloseNow);
    CloseFields(w);
    hide CloseStep;
  }

  lemma CloseFields(w: World)
    ensures var v := CloseStep(w);
            if w.s.closed then v == w
            else
              && v.s == State(w.s.nextID, map[], map[], w.s.nextInstance, true)
              && v.fates.Keys == w.fates.Keys + w.s.pending.Keys
              && (forall id | id in v.fates :: v.fates[id] == if id in w.s.pending then Failed else w.fates[id])
              && v.owed.Keys == w.owed.Keys + w.s.pending.Keys
              && (forall id | id in v.owed :: v.owed[id] == if id in w.s.pending then ClosedError else w.owed[id])
              && v.sent == w.sent && v.registered == w.registered && v.reader == w.reader
  {
    if w.s.closed { assert w.fates + map[] == w.fates && w.owed + map[] == w.owed; }
  }

  /** A request is taken exactly if the dispatcher is open and no request is open under its
      id; otherwise the reader closes the dispatcher and stops. */
  lemma RequestTakenIff(actions: seq<Action>, key: RequestID)
    requires Run(actions).reader.Reading?
    ensures var w := Run(actions); var v := Step(w, ServerRequest(key));
            if w.s.closed || key in w.s.serverRequests then v == w.(reader := Closing(true))
            else
              && key in v.s.serverRequests && !v.s.serverRequests[key].responded
              && v == w.(s := w.s.(serverRequests := w.s.serverRequests[key := v.s.serverRequests[key]],
                                   nextInstance := v.s.nextInstance))
              && forall k | k in w.s.serverRequests :: w.s.serverRequests[k].instance != v.s.serverRequests[key].instance
  {
    hide Run, CallsOK, Accept, RegisterStep, GiveUpStep, ReceiveStep, SendStep, CloseStep, RespondStep, WriteStep, FinishStep,
      RemoveRequest, Choice, Bind, TakeCall;
    EveryRunOK(actions);
    AcceptFields(Run(actions).s, key);
  }

  /** A responder writes exactly if the request is open and nobody answers it yet; when it has
      written, whatever is open under the id is removed. */
  lemma ResponderWritesIff(actions: seq<Action>, t: nat, key: RequestID)
    requires t !in Run(actions).responders
    ensures var w := Run(actions); var v := Step(w, Respond(t, key));
            && t in v.responders && v.responders == w.responders[t := v.responders[t]]
            && if key in w.s.serverRequests && !w.s.serverRequests[key].responded
               then
                 && v.responders[t] == Writing(w.s.serverRequests[key].instance, key)
                 && v.s == w.s.(serverRequests := w.s.serverRequests[key := w.s.serverRequests[key].(responded := true)])
                 && Step(Step(v, WriteResponse(t, true)), FinishRespond(t)).s == w.s.(serverRequests := w.s.serverRequests - {key})
                 && Step(Step(v, WriteResponse(t, true)), FinishRespond(t)).responders == w.responders[t := Done]
                 && Step(v, WriteResponse(t, false)).s == v.s && Step(v, WriteResponse(t, false)).responders[t] == Done
               else v.responders[t] == Done && v.s == w.s
  {
    hide Run, Step;
    var w := Run(actions);
    RespondStepFields(w, t, key);
    if key in w.s.serverRequests && !w.s.serverRequests[key].responded {
      var v := Step(w, Respond(t, key));
      WriteAndFinish(v, t, w.s.serverRequests[key].instance, key);
      assert v.s.serverRequests - {key} == w.s.serverRequests - {key};
    }
  }

  lemma ClaimTakes(s: State, key: RequestID)
    ensures var (u, instance) := ClaimResponse(s, key);
            if key in s.serverRequests && !s.serverRequests[key].responded then
              && instance == Some(s.serverRequests[key].instance)
              && u == s.(serverRequests := s.serverRequests[key := s.serverRequests[key].(responded := true)])
            else instance.None? && u == s
  {
  }

  lemma RespondStepFields(w: World, t: nat, key: RequestID)
    requires t !in w.responders
    ensures var v := Step(w, Respond(t, key));
            && t in v.responders && v.responders == w.responders[t := v.responders[t]]
            && if key in w.s.serverRequests && !w.s.serverRequests[key].responded
               then
                 && v.responders[t] == Writing(w.s.serverRequests[key].instance, key)
                 && v.s == w.s.(serverRequests := w.s.serverRequests[key := w.s.serverRequests[key].(responded := true)])
               else v.responders[t] == Done && v.s == w.s
  {
    hide Step, Taken, ClaimResponse;
    CallersStep(w, Respond(t, key));
    ClaimTakes(w.s, key);
    var (s, instance) := ClaimResponse(w.s, key);
    assert instance.None? ==> s == w.s;
  }

  lemma WriteAndFinish(v: World, t: nat, instance: nat, key: RequestID)
    requires t in v.responders && v.responders[t] == Writing(instance, key) && key in v.s.serverRequests
    ensures var u := Step(Step(v, WriteResponse(t, true)), FinishRespond(t));
            u.s == v.s.(serverRequests := v.s.serverRequests - {key}) && u.responders == v.responders[t := Done]
    ensures Step(v, WriteResponse(t, false)).s == v.s && Step(v, WriteResponse(t, false)).responders == v.responders[t := Done]
  {
    hide Step, Taken;
    CallersStep(v, WriteResponse(t, true));
    CallersStep(v, WriteResponse(t, false));
    CallersStep(Step(v, WriteResponse(t, true)), FinishRespond(t));
    var u := Step(v, WriteResponse(t, true));
    assert u.responders[t] == Finishing(instance, key) && u.s == v.s;
  }

  /** After a contradicted result has been told the reader closes before it reads on, and after
      any other it reads on at once; a close for a bad message is its last step. */
  lemma ReaderGoesOn(actions: seq<Action>, id: nat)
    ensures var w := Run(actions); var v := Step(w, Send(id));
            w.reader.Telling? && w.reader.id == id && id in w.owed ==>
              v.reader == if w.reader.contradicted then Closing(false) else Reading
    ensures var w := Run(actions); var v := Step(w, ReaderCloses);
            w.reader.Closing? ==> v.s.closed && v.reader == if w.reader.stops then Stopped else Reading
  {
    hide Run, RegisterStep, GiveUpStep, ReceiveStep, RespondStep, AcceptStep, WriteStep, FinishStep, RemoveRequest, Choice,
      Bind, TakeCall, Accept;
  }

  /** Who takes a call or a request off its table is told whether it was there. */
  lemma RemovalIsReported(s: State, id: nat, key: RequestID)
    ensures var (u, removed) := RemoveCall(s, id);
            && (removed <==> id in s.pending) && u == s.(pending := s.pending - {id})
    ensures var (u, removed) := RemoveRequest(s, key);
            && (removed <==> key in s.serverRequests) && u == s.(serverRequests := s.serverRequests - {key})
  {
    assert id !in s.pending ==> s.pending - {id} == s.pending;
    assert key !in s.serverRequests ==> s.serverRequests - {key} == s.serverRequests;
  }
}
