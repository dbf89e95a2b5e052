/** The JSON-RPC dispatcher: calls waiting for their response, requests of the app-server
    waiting for ours, provisional ids from lifecycle notifications, and closing. Each
    function of `State` is one critical section; the class holds the same sections as
    updates of its fields. */
module Dispatching {
  import opened Common

  datatype Method = ThreadStart | ThreadResume | TurnStart | OtherMethod(name: string)

  datatype Call = Call(kind: Method, expectedThreadID: string, expectedTurnID: string, provisionalID: string)

  /** The raw JSON id of a request. Ids are only compared, so distinct ids are distinct numbers. */
  type RequestID = nat

  /** A request of the app-server under its current id; `instance` tells reuses of one id apart. */
  datatype Request = Request(instance: nat, responded: bool)

  datatype State = State(nextID: nat, pending: map<nat, Call>, serverRequests: map<RequestID, Request>, nextInstance: nat,
                         closed: bool)

  const OPEN := State(1, map[], map[], 0, false)

  // ----- calls -----------------------------------------------------------------------------

  /** Calls on a thread that exists expect their own thread id unless told otherwise. */
  function Expected(kind: Method, expectedThreadID: string, paramsThreadID: string): string {
    if (kind.ThreadResume? || kind.TurnStart?) && expectedThreadID == "" then paramsThreadID else expectedThreadID
  }

  /** `encodes` tells whether the request could be encoded; its id is used up either way. */
  function NewCall(s: State, kind: Method, paramsThreadID: string, expectedThreadID: string, expectedTurnID: string,
                   encodes: bool): (State, Option<nat>)
  {
    if s.closed then (s, None)
    else if !encodes then (s.(nextID := s.nextID + 1), None)
    else
      var call := Call(kind, Expected(kind, expectedThreadID, paramsThreadID), expectedTurnID, "");
      (s.(nextID := s.nextID + 1, pending := s.pending[s.nextID := call]), Some(s.nextID))
  }

  function RemoveCall(s: State, id: nat): (State, bool) {
    if id in s.pending then (s.(pending := s.pending - {id}), true) else (s, false)
  }

  datatype Response = Response(id: nat, isError: bool, threadID: string, turnID: string)

  datatype CallResult = Success(confirmed: string) | RemoteError | ProtocolMismatch | ClosedError

  /** The id a result confirms, for the methods that bind one. */
  function ConfirmedID(kind: Method, response: Response): string {
    match kind
    case ThreadStart => response.threadID
    case ThreadResume => response.threadID
    case TurnStart => response.turnID
    case OtherMethod(_) => ""
  }

  function ResultOf(call: Call, response: Response): CallResult {
    var confirmed := ConfirmedID(call.kind, response);
    if response.isError then RemoteError
    else if call.provisionalID == "" || call.kind.OtherMethod? then Success(confirmed)
    else if confirmed == "" || confirmed != call.provisionalID then ProtocolMismatch
    else Success(confirmed)
  }

  /** Taking the call that a response answers; a response nobody waits for is ignored. */
  function TakeCall(s: State, response: Response): (State, Option<CallResult>) {
    if response.id !in s.pending then (s, None)
    else (s.(pending := s.pending - {response.id}), Some(ResultOf(s.pending[response.id], response)))
  }

  // ----- provisional ids ----------------------------------------------------------------------

  datatype Lifecycle = ThreadStarted(threadID: string) | TurnStarted(threadID: string, turnID: string)

  function ProvisionalID(l: Lifecycle): string { if l.ThreadStarted? then l.threadID else l.turnID }

  function TurnID(l: Lifecycle): string { if l.ThreadStarted? then "" else l.turnID }

  function Methods(l: Lifecycle): seq<Method> {
    if l.ThreadStarted? then [ThreadStart, ThreadResume] else [TurnStart]
  }

  predicate Matches(call: Call, kind: Method, l: Lifecycle) {
    && call.kind == kind && call.provisionalID == ""
    && (call.expectedThreadID != "" ==> call.expectedThreadID == l.threadID)
    && (call.expectedTurnID != "" ==> call.expectedTurnID == TurnID(l))
  }

  predicate HasExpected(call: Call) { call.expectedThreadID != "" || call.expectedTurnID != "" }

  predicate Candidate(pending: map<nat, Call>, l: Lifecycle, id: nat) {
    id in pending && exists m | m in Methods(l) :: Matches(pending[id], m, l)
  }

  /** Which call a lifecycle notification may bind: an unbound candidate, one with an
      expected id if there is any such candidate, and none only if there is none. */
  ghost predicate Choice(pending: map<nat, Call>, l: Lifecycle, bound: Option<nat>) {
    if ProvisionalID(l) == "" then bound.None?
    else if bound.None? then forall id | id in pending :: !Candidate(pending, l, id)
    else
      && Candidate(pending, l, bound.value)
      && ((exists id | id in pending :: Candidate(pending, l, id) && HasExpected(pending[id])) ==>
            HasExpected(pending[bound.value]))
  }

  function Bind(s: State, l: Lifecycle, bound: Option<nat>): State {
    if bound.None? || bound.value !in s.pending then s
    else s.(pending := s.pending[bound.value := s.pending[bound.value].(provisionalID := ProvisionalID(l))])
  }

  // ----- requests of the app-server ----------------------------------------------------------------

  /** A request under an id that is still open is an error of the app-server. */
  function Accept(s: State, key: RequestID): (State, bool) {
    if s.closed || key in s.serverRequests then (s, false)
    else (s.(serverRequests := s.serverRequests[key := Request(s.nextInstance, false)], nextInstance := s.nextInstance + 1), true)
  }

  /** Claiming a request for one response: which instance, or why not. */
  function ClaimResponse(s: State, key: RequestID): (State, Option<nat>) {
    if key !in s.serverRequests || s.serverRequests[key].responded then (s, None)
    else
      (s.(serverRequests := s.serverRequests[key := s.serverRequests[key].(responded := true)]),
       Some(s.serverRequests[key].instance))
  }

  /** Both a finished response and a `serverRequest/resolved` notification remove by id. */
  function RemoveRequest(s: State, key: RequestID): (State, bool) {
    if key in s.serverRequests then (s.(serverRequests := s.serverRequests - {key}), true) else (s, false)
  }

  /** Closing takes every waiting call at once; only the first close does anything. */
  function CloseDown(s: State): (State, map<nat, Call>) {
    if s.closed then (s, map[])
    else (s.(pending := map[], serverRequests := map[], closed := true), s.pending)
  }

  // ----- the dispatcher itself ------------------------------------------------------------------------

  class Dispatcher {
    var nextID: nat
    var pending: map<nat, Call>
    var serverRequests: map<RequestID, Request>
    var nextInstance: nat
    var closed: bool

    ghost function View(): State
      reads this
    {
      State(nextID, pending, serverRequests, nextInstance, closed)
    }

    /** Ids are handed out once, and a closed dispatcher keeps nothing. */
    ghost predicate Valid()
      reads this
    {
      && (forall id | id in pending :: id < nextID)
      && (forall k | k in serverRequests :: serverRequests[k].instance < nextInstance)
      && (closed ==> pending == map[] && serverRequests == map[])
    }

    constructor ()
      ensures Valid() && View() == OPEN
    {
      nextID, nextInstance, closed := 1, 0, false;
      pending, serverRequests := map[], map[];
    }

    method NewPendingCall(kind: Method, paramsThreadID: string, expectedThreadID: string, expectedTurnID: string, encodes: bool)
      returns (id: Option<nat>)
      requires Valid()
      modifies `nextID, `pending
      ensures Valid() && (id.Some? ==> id.value !in old(pending) && id.value in pending)
      ensures (View(), id) == NewCall(old(View()), kind, paramsThreadID, expectedThreadID, expectedTurnID, encodes)
    {
      if closed { return None; }
      var newID := nextID;
      nextID := nextID + 1;
      if !encodes { return None; }
      var threadID := expectedThreadID;
      match kind {
        case ThreadResume => if threadID == "" { threadID := paramsThreadID; }
        case TurnStart => if threadID == "" { threadID := paramsThreadID; }
        case _ =>
      }
      pending := pending[newID := Call(kind, threadID, expectedTurnID, "")];
      id := Some(newID);
    }

    method RemovePending(id: nat) returns (removed: bool)
      requires Valid()
      modifies `pending
      ensures Valid() && id !in pending
      ensures (View(), removed) == RemoveCall(old(View()), id)
    {
      removed := id in pending;
      if removed { pending := pending - {id}; }
    }

    /** Takes the call off the table and decides what its caller gets. */
    method TakePending(response: Response) returns (result: Option<CallResult>)
      requires Valid()
      modifies `pending
      ensures Valid() && response.id !in pending
      ensures (View(), result) == TakeCall(old(View()), response)
    {
      if response.id !in pending { return None; }
      var call := pending[response.id];
      pending := pending - {response.id};
      if response.isError { return Some(RemoteError); }
      var confirmed := ConfirmedID(call.kind, response);
      if call.provisionalID != "" && !call.kind.OtherMethod? && (confirmed == "" || confirmed != call.provisionalID) {
        return Some(ProtocolMismatch);
      }
      result := Some(Success(confirmed));
    }

    /** A response that contradicts the provisional id closes the dispatcher; `failed` are the
        calls that the close takes along. */
    method HandleResponse(response: Response) returns (result: Option<CallResult>, failed: map<nat, Call>)
      requires Valid()
      modifies `pending, `serverRequests, `closed
      ensures Valid()
      ensures var (taken, r) := TakeCall(old(View()), response);
              result == r && (View(), failed) == (if r == Some(ProtocolMismatch) then CloseDown(taken) else (taken, map[]))
    {
      hide TakeCall;
      result := TakePending(response);
      failed := map[];
      if result == Some(ProtocolMismatch) { failed := CloseOnce(); }
    }

    /** Looks through the pending calls in any order, method by method: a match with an
        expected id is bound at once, otherwise the first match without one at the end. */
    method RecordProvisionalID(l: Lifecycle) returns (bound: Option<nat>)
      requires Valid()
      modifies `pending
      ensures Valid() && pending.Keys == old(pending.Keys)
      ensures Choice(old(pending), l, bound) && View() == Bind(old(View()), l, bound)
    {
      bound := None;
      if ProvisionalID(l) == "" { return; }
      var methods := Methods(l);
      for i := 0 to |methods|
        invariant forall id, j | 0 <= j < i && id in pending :: Matches(pending[id], methods[j], l) ==>
                    bound.Some? && !HasExpected(pending[id])
        invariant bound.Some? ==> Candidate(pending, l, bound.value)
      {
        var ids := pending.Keys;
        while ids != {}
          invariant ids <= pending.Keys
          invariant forall id, j | 0 <= j < i && id in pending :: Matches(pending[id], methods[j], l) ==>
                      bound.Some? && !HasExpected(pending[id])
          invariant forall id | id in pending && id !in ids :: Matches(pending[id], methods[i], l) ==>
                      bound.Some? && !HasExpected(pending[id])
          invariant bound.Some? ==> Candidate(pending, l, bound.value)
          decreases |ids|
        {
          var id :| id in ids;
          ids := ids - {id};
          if Matches(pending[id], methods[i], l) {
            assert methods[i] in Methods(l);
            if HasExpected(pending[id]) {
              BindPending(id, l);
              return Some(id);
            }
            if bound.None? { bound := Some(id); }
          }
        }
      }
      if bound.Some? { BindPending(bound.value, l); }
    }

    method BindPending(id: nat, l: Lifecycle)
      requires Valid() && id in pending
      modifies `pending
      ensures Valid() && pending.Keys == old(pending.Keys)
      ensures View() == Bind(old(View()), l, Some(id))
    {
      pending := pending[id := pending[id].(provisionalID := ProvisionalID(l))];
    }

    method HandleServerRequest(key: RequestID) returns (accepted: bool)
      requires Valid()
      modifies `serverRequests, `nextInstance
      ensures Valid() && (accepted ==> !closed && key !in old(serverRequests))
      ensures (View(), accepted) == Accept(old(View()), key)
    {
      if closed { return false; }
      if key in serverRequests { return false; }
      serverRequests := serverRequests[key := Request(nextInstance, false)];
      nextInstance := nextInstance + 1;
      accepted := true;
    }

    method BeginRespond(key: RequestID) returns (instance: Option<nat>)
      requires Valid()
      modifies `serverRequests
      ensures Valid() && (instance.Some? ==> !closed)
      ensures (View(), instance) == ClaimResponse(old(View()), key)
    {
      if key !in serverRequests { return None; }
      var request := serverRequests[key];
      if request.responded { return None; }
      serverRequests := serverRequests[key := request.(responded := true)];
      instance := Some(request.instance);
    }

    method RemoveServerRequest(key: RequestID) returns (removed: bool)
      requires Valid()
      modifies `serverRequests
      ensures Valid() && key !in serverRequests
      ensures (View(), removed) == RemoveRequest(old(View()), key)
    {
      removed := key in serverRequests;
      if removed { serverRequests := serverRequests - {key}; }
    }

    method CloseOnce() returns (taken: map<nat, Call>)
      requires Valid()
      modifies `pending, `serverRequests, `closed
      ensures Valid() && closed
      ensures (View(), taken) == CloseDown(old(View()))
    {
      taken := map[];
      if !closed {
        closed := true;
        taken := pending;
        pending := map[];
        serverRequests := map[];
      }
    }
  }

  // ----- any number of callers, the reader, and responders --------------------------------------------

  /** How a call stopped waiting. */
  datatype Fate = Answered | Removed | Failed

  /** A responder writes its answer outside the lock, and then removes the request by id. */
  datatype Pc =
    | Writing(instance: nat, key: RequestID)
    | Finishing(instance: nat, key: RequestID)
    | Done

  /** The reader takes one message at a time. Having taken a call off the table it sends its
      result, and after a contradicted response it closes the dispatcher before it reads on; a
      message it cannot take makes it close and stop. */
  datatype Reader =
    | Reading
    | Telling(id: nat, contradicted: bool)
    | Closing(stops: bool)
    | Stopped

  /** `registered` are all calls ever, `fates` how each one stopped waiting, `answers` the
      responses that answered calls, `owed` the sends decided in a critical section but not
      done yet, `sent` what each result channel got, and `writes` how many answers were written
      to each instance of a request. `reader` is where the read loop is. */
  datatype World = World(
    s: State,
    registered: map<nat, Call>,
    fates: map<nat, Fate>,
    answers: map<nat, Response>,
    owed: map<nat, CallResult>,
    sent: map<nat, seq<CallResult>>,
    responders: map<nat, Pc>,
    writes: map<nat, nat>,
    reader: Reader)

  const START := World(OPEN, map[], map[], map[], map[], map[], map[], map[], Reading)

  datatype Action =
    | Register(kind: Method, paramsThreadID: string, expectedThreadID: string, expectedTurnID: string, encodes: bool)
    | GiveUp(id: nat)
    | Receive(response: Response)
    | Send(id: nat)
    | Notify(l: Lifecycle, bound: Option<nat>)
    | CloseNow
    | ReaderCloses
    | ServerRequest(key: RequestID)
    | Respond(t: nat, key: RequestID)
    | WriteResponse(t: nat, ok: bool)
    | FinishRespond(t: nat)
    | ResolvedElsewhere(key: RequestID)

  function SentTo(w: World, id: nat): seq<CallResult> { if id in w.sent then w.sent[id] else [] }

  function WritesOf(w: World, instance: nat): nat { if instance in w.writes then w.writes[instance] else 0 }

  function RegisterStep(w: World, a: Action): World
    requires a.Register?
  {
    var (s, id) := NewCall(w.s, a.kind, a.paramsThreadID, a.expectedThreadID, a.expectedTurnID, a.encodes);
    if id.None? then w.(s := s) else w.(s := s, registered := w.registered[id.value := s.pending[id.value]])
  }

  function GiveUpStep(w: World, id: nat): World {
    var (s, removed) := RemoveCall(w.s, id);
    if removed then w.(s := s, fates := w.fates[id := Removed]) else w
  }

  function ReceiveStep(w: World, response: Response): World {
    var (s, result) := TakeCall(w.s, response);
    if result.None? then w
    else w.(s := s, fates := w.fates[response.id := Answered], owed := w.owed[response.id := result.value],
            answers := w.answers[response.id := response],
            registered := w.registered[response.id := w.s.pending[response.id]])
  }

  function SendStep(w: World, id: nat): World {
    if id in w.owed then w.(owed := w.owed - {id}, sent := w.sent[id := SentTo(w, id) + [w.owed[id]]]) else w
  }

  function CloseStep(w: World): World {
    var (s, taken) := CloseDown(w.s);
    w.(s := s,
       fates := w.fates + map id | id in taken :: Failed,
       owed := w.owed + map id | id in taken :: ClosedError)
  }

  function RespondStep(w: World, t: nat, key: RequestID): World {
    if t in w.responders then w
    else
      var (s, instance) := ClaimResponse(w.s, key);
      if instance.None? then w.(responders := w.responders[t := Done])
      else w.(s := s, responders := w.responders[t := Writing(instance.value, key)])
  }

  /** A write that fails closes the dispatcher (a step of its own) and leaves the request. */
  function WriteStep(w: World, t: nat, ok: bool): World {
    if t !in w.responders || !w.responders[t].Writing? then w
    else
      var pc := w.responders[t];
      w.(responders := w.responders[t := if ok then Finishing(pc.instance, pc.key) else Done],
         writes := w.writes[pc.instance := WritesOf(w, pc.instance) + 1])
  }

  function FinishStep(w: World, t: nat): World {
    if t !in w.responders || !w.responders[t].Finishing? then w
    else w.(s := RemoveRequest(w.s, w.responders[t].key).0, responders := w.responders[t := Done])
  }

  function AcceptStep(w: World, key: RequestID): World {
    var (s, accepted) := Accept(w.s, key);
    if accepted then w.(s := s) else w
  }

  /** The steps with which the reader takes a message. */
  predicate ByReader(a: Action) { a.Receive? || a.Notify? || a.ServerRequest? || a.ResolvedElsewhere? }

  predicate Enabled(w: World, a: Action) {
    (ByReader(a) ==> w.reader.Reading?) && (a.ReaderCloses? ==> w.reader.Closing?)
  }

  /** Where an enabled step leaves the reader. */
  function ReaderAfter(w: World, a: Action): Reader
    requires Enabled(w, a)
  {
    match a
    case Receive(response) =>
      var result := TakeCall(w.s, response).1;
      if result.Some? then Telling(response.id, result.value == ProtocolMismatch) else w.reader
    case Send(id) =>
      if id in w.owed && w.reader.Telling? && w.reader.id == id
      then (if w.reader.contradicted then Closing(false) else Reading) else w.reader
    case ServerRequest(key) => if Accept(w.s, key).1 then w.reader else Closing(true)
    case ReaderCloses => if w.reader.stops then Stopped else Reading
    case _ => w.reader
  }

  /** A step that is not enabled changes nothing. */
  ghost function Step(w: World, a: Action): World {
    if Enabled(w, a) then Taken(w, a).(reader := ReaderAfter(w, a)) else w
  }

  ghost function Taken(w: World, a: Action): World {
    match a
    case Register(_, _, _, _, _) => RegisterStep(w, a)
    case GiveUp(id) => GiveUpStep(w, id)
    case Receive(response) => ReceiveStep(w, response)
    case Send(id) => SendStep(w, id)
    case Notify(l, bound) => if Choice(w.s.pending, l, bound) then w.(s := Bind(w.s, l, bound)) else w
    case CloseNow => CloseStep(w)
    case ReaderCloses => CloseStep(w)
    case ServerRequest(key) => AcceptStep(w, key)
    case Respond(t, key) => RespondStep(w, t, key)
    case WriteResponse(t, ok) => WriteStep(w, t, ok)
    case FinishRespond(t) => FinishStep(w, t)
    case ResolvedElsewhere(key) => w.(s := RemoveRequest(w.s, key).0)
  }

  ghost function Run(actions: seq<Action>): World {
    if actions == [] then START else Step(Run(actions[..|actions| - 1]), actions[|actions| - 1])
  }

  // ----- calls: one fate, at most one send ----------------------------------------------------------------

  ghost predicate CallOK(w: World, id: nat) {
    && (id in w.s.pending ==> id in w.registered && id !in w.fates)
    && (id in w.registered ==> id < w.s.nextID && (id in w.s.pending || id in w.fates))
    && (id in w.fates ==> id in w.registered)
    && (id in w.owed ==> id in w.fates && w.fates[id] != Removed && SentTo(w, id) == [])
    && (SentTo(w, id) != [] ==> id in w.fates && w.fates[id] != Removed && |SentTo(w, id)| == 1)
    && (id in w.fates && w.fates[id] != Removed ==> id in w.owed || SentTo(w, id) != [])
  }

  /** A success answers the bound id, and errors match the fate. */
  predicate ResultFits(call: Call, fate: Fate, result: CallResult) {
    && (fate.Answered? ==> result != ClosedError)
    && (fate.Failed? ==> result == ClosedError)
    && (result.Success? && call.provisionalID != "" && !call.kind.OtherMethod? ==> result.confirmed == call.provisionalID)
  }

  ghost predicate ResultOK(w: World, id: nat) {
    && (id in w.owed && id in w.fates && id in w.registered ==> ResultFits(w.registered[id], w.fates[id], w.owed[id]))
    && (SentTo(w, id) != [] && id in w.fates && id in w.registered ==>
          ResultFits(w.registered[id], w.fates[id], SentTo(w, id)[0]))
  }

  ghost predicate CallsOK(w: World) {
    forall id :: BothOK(w, id)
  }

  /** Steps about requests leave the calls alone. */
  ghost predicate SameCalls(w: World, v: World) {
    && v.registered == w.registered && v.fates == w.fates && v.answers == w.answers && v.owed == w.owed && v.sent == w.sent
    && v.s.pending == w.s.pending && v.s.nextID == w.s.nextID && v.s.closed == w.s.closed
  }

  lemma AcceptFields(s: State, key: RequestID)
    ensures var (u, accepted) := Accept(s, key);
            && u.pending == s.pending && u.nextID == s.nextID && u.closed == s.closed
            && (accepted <==> !s.closed && key !in s.serverRequests)
            && (if accepted then u.serverRequests == s.serverRequests[key := Request(s.nextInstance, false)]
                                 && u.nextInstance == s.nextInstance + 1
                else u == s)
  {
  }

  lemma AcceptLeavesCalls(w: World, key: RequestID)
    ensures SameCalls(w, AcceptStep(w, key))
  {
    hide Accept;
    AcceptFields(w.s, key);
  }

  lemma ClaimOnlyMarks(s: State, key: RequestID)
    ensures var (u, instance) := ClaimResponse(s, key);
            && u.pending == s.pending && u.nextID == s.nextID && u.closed == s.closed && u.nextInstance == s.nextInstance
            && (instance.Some? ==>
                  && key in s.serverRequests && instance.value == s.serverRequests[key].instance
                  && u.serverRequests == s.serverRequests[key := Request(instance.value, true)])
            && (key in s.serverRequests && !s.serverRequests[key].responded ==> instance.Some?)
  {
  }

  lemma RespondLeavesCalls(w: World, t: nat, key: RequestID)
    ensures SameCalls(w, RespondStep(w, t, key))
  {
    hide ClaimResponse;
    if t !in w.responders {
      ClaimOnlyMarks(w.s, key);
      var (u, instance) := ClaimResponse(w.s, key);
      assert u.pending == w.s.pending && u.nextID == w.s.nextID && u.closed == w.s.closed;
    }
  }

  lemma WriteLeavesCalls(w: World, t: nat, ok: bool)
    ensures SameCalls(w, WriteStep(w, t, ok))
  {
  }

  lemma RemovalLeavesCalls(w: World, key: RequestID)
    ensures SameCalls(w, w.(s := RemoveRequest(w.s, key).0))
  {
  }

  lemma FinishLeavesCalls(w: World, t: nat)
    ensures SameCalls(w, FinishStep(w, t))
  {
  }

  /** The steps about requests of the app-server. */
  predicate AboutRequests(a: Action) {
    a.ServerRequest? || a.Respond? || a.WriteResponse? || a.FinishRespond? || a.ResolvedElsewhere?
  }

  lemma RequestsLeaveCalls(w: World, a: Action)
    requires AboutRequests(a)
    ensures SameCalls(w, Taken(w, a))
  {
    hide SameCalls, RespondStep, AcceptStep, WriteStep, FinishStep, RemoveRequest;
    match a
    case ServerRequest(key) => AcceptLeavesCalls(w, key);
    case Respond(t, key) => RespondLeavesCalls(w, t, key);
    case WriteResponse(t, ok) => WriteLeavesCalls(w, t, ok);
    case FinishRespond(t) => FinishLeavesCalls(w, t);
    case ResolvedElsewhere(key) => RemovalLeavesCalls(w, key);
  }

  ghost predicate BothOK(w: World, id: nat) { CallOK(w, id) && ResultOK(w, id) }

  lemma SameCallsOK(w: World, v: World, id: nat)
    requires BothOK(w, id) && SameCalls(w, v)
    ensures BothOK(v, id)
  {
  }

  lemma RegisterKeepsCall(w: World, a: Action, id: nat)
    requires BothOK(w, id) && a.Register?
    ensures BothOK(RegisterStep(w, a), id)
  {
    hide RegisterStep, ResultFits;
    RegisterFields(w, a);
    assert SentTo(RegisterStep(w, a), id) == SentTo(w, id);
  }

  lemma RegisterFields(w: World, a: Action)
    requires a.Register?
    ensures var v := RegisterStep(w, a); var id := w.s.nextID;
            && v.fates == w.fates && v.owed == w.owed && v.sent == w.sent && v.s.nextID >= w.s.nextID
            && ((v.s.pending == w.s.pending && v.registered == w.registered)
                || (v.s.nextID == id + 1 && id in v.s.pending && v.s.pending == w.s.pending[id := v.s.pending[id]]
                    && v.registered == w.registered[id := v.s.pending[id]]))
  {
    hide NewCall;
    NewCallFields(w.s, a.kind, a.paramsThreadID, a.expectedThreadID, a.expectedTurnID, a.encodes);
  }

  lemma NewCallFields(s: State, kind: Method, paramsThreadID: string, expectedThreadID: string, expectedTurnID: string,
                      encodes: bool)
    ensures var (u, id) := NewCall(s, kind, paramsThreadID, expectedThreadID, expectedTurnID, encodes);
            && u.nextID >= s.nextID && u.closed == s.closed
            && u.serverRequests == s.serverRequests && u.nextInstance == s.nextInstance
            && (if id.None? then u.pending == s.pending
                else !s.closed && id.value == s.nextID && u.nextID == s.nextID + 1 && id.value in u.pending
                     && u.pending == s.pending[id.value := u.pending[id.value]])
  {
    hide Expected;
  }

  lemma GiveUpKeepsCall(w: World, gone: nat, id: nat)
    requires BothOK(w, id)
    ensures BothOK(GiveUpStep(w, gone), id)
  {
    hide ResultFits;
  }

  lemma SendKeepsCall(w: World, to: nat, id: nat)
    requires BothOK(w, id)
    ensures BothOK(SendStep(w, to), id)
  {
    hide ResultFits;
  }

  lemma BindKeepsCall(w: World, l: Lifecycle, bound: Option<nat>, id: nat)
    requires BothOK(w, id)
    ensures BothOK(w.(s := Bind(w.s, l, bound)), id)
  {
    hide ResultFits;
  }

  lemma ClosingKeepsCall(w: World, id: nat)
    requires BothOK(w, id)
    ensures BothOK(CloseStep(w), id)
  {
  }

  lemma ReceivingKeepsCall(w: World, response: Response, id: nat)
    requires BothOK(w, id)
    ensures BothOK(ReceiveStep(w, response), id)
  {
  }

  lemma CallStep(w: World, a: Action, id: nat)
    requires BothOK(w, id)
    ensures BothOK(Taken(w, a), id)
  {
    hide BothOK, SameCalls, Choice, Bind, RemoveRequest, RegisterStep, GiveUpStep, ReceiveStep, SendStep, CloseStep,
      RespondStep, AcceptStep, WriteStep, FinishStep;
    match a
    case Register(_, _, _, _, _) => RegisterKeepsCall(w, a, id);
    case GiveUp(gone) => GiveUpKeepsCall(w, gone, id);
    case Receive(response) => ReceivingKeepsCall(w, response, id);
    case Send(to) => SendKeepsCall(w, to, id);
    case Notify(l, bound) => BindKeepsCall(w, l, bound, id);
    case CloseNow => ClosingKeepsCall(w, id);
    case ReaderCloses => ClosingKeepsCall(w, id);
    case _ =>
      RequestsLeaveCalls(w, a);
      SameCallsOK(w, Taken(w, a), id);
  }

  lemma CallsStep(w: World, a: Action)
    requires CallsOK(w)
    ensures CallsOK(Step(w, a))
  {
    hide Taken, BothOK, Enabled, ReaderAfter;
    forall id ensures BothOK(Step(w, a), id) {
      if Enabled(w, a) {
        CallStep(w, a, id);
        SameCallsOK(Taken(w, a), Taken(w, a).(reader := ReaderAfter(w, a)), id);
      }
    }
  }

  // ----- requests: at most one response write -----------------------------------------------------------------

  /** A request that is still open and unanswered was not written to, and a responder
      between claim and write is the only one for its request. */
  ghost predicate RequestsOK(requests: map<RequestID, Request>, next: nat, responders: map<nat, Pc>, writes: map<nat, nat>) {
    && (forall k | k in requests :: requests[k].instance < next)
    && (forall k, l | k in requests && l in requests && requests[k].instance == requests[l].instance :: k == l)
    && (forall k | k in requests && !requests[k].responded :: requests[k].instance !in writes)
    && (forall k, t | k in requests && t in responders && !responders[t].Done? ::
          responders[t].instance == requests[k].instance ==> requests[k].responded)
    && (forall t | t in responders && !responders[t].Done? :: responders[t].instance < next)
    && (forall t | t in responders && responders[t].Writing? :: responders[t].instance !in writes)
    && (forall t, u | t in responders && u in responders && !responders[t].Done? && !responders[u].Done? ::
          responders[t].instance == responders[u].instance ==> t == u)
    && (forall i | i in writes :: writes[i] == 1 && i < next)
  }

  ghost predicate Orderly(w: World) {
    && RequestsOK(w.s.serverRequests, w.s.nextInstance, w.responders, w.writes)
    && (w.s.closed ==> w.s.pending == map[] && w.s.serverRequests == map[])
  }

  lemma RespondOK(w: World, t: nat, key: RequestID)
    requires Orderly(w)
    ensures Orderly(RespondStep(w, t, key))
  {
    if t !in w.responders && ClaimResponse(w.s, key).1.Some? {
      ClaimedOK(w.s.serverRequests, w.s.nextInstance, w.responders, w.writes, t, key);
    } else if t !in w.responders {
      RefusedOK(w.s.serverRequests, w.s.nextInstance, w.responders, w.writes, t);
    }
    hide RequestsOK;
  }

  lemma RefusedOK(requests: map<RequestID, Request>, next: nat, responders: map<nat, Pc>, writes: map<nat, nat>, t: nat)
    requires RequestsOK(requests, next, responders, writes) && t !in responders
    ensures RequestsOK(requests, next, responders[t := Done], writes)
  {
  }

  lemma ClaimedOK(requests: map<RequestID, Request>, next: nat, responders: map<nat, Pc>, writes: map<nat, nat>,
                  t: nat, key: RequestID)
    requires RequestsOK(requests, next, responders, writes)
    requires t !in responders && key in requests && !requests[key].responded
    ensures RequestsOK(requests[key := Request(requests[key].instance, true)], next,
                       responders[t := Writing(requests[key].instance, key)], writes)
  {
  }

  lemma AddedOK(requests: map<RequestID, Request>, next: nat, responders: map<nat, Pc>, writes: map<nat, nat>, key: RequestID)
    requires RequestsOK(requests, next, responders, writes) && key !in requests
    ensures RequestsOK(requests[key := Request(next, false)], next + 1, responders, writes)
  {
  }

  lemma AcceptOK(w: World, key: RequestID)
    requires Orderly(w)
    ensures Orderly(AcceptStep(w, key))
  {
    hide Accept, RequestsOK;
    AcceptFields(w.s, key);
    if key !in w.s.serverRequests {
      AddedOK(w.s.serverRequests, w.s.nextInstance, w.responders, w.writes, key);
    }
  }

  lemma WriteOK(w: World, t: nat, ok: bool)
    requires Orderly(w)
    ensures Orderly(WriteStep(w, t, ok))
  {
  }

  lemma RemovalOK(w: World, key: RequestID)
    requires Orderly(w)
    ensures Orderly(w.(s := RemoveRequest(w.s, key).0))
  {
  }

  lemma FinishOK(w: World, t: nat)
    requires Orderly(w)
    ensures Orderly(FinishStep(w, t))
  {
  }

  /** Steps about calls leave the requests alone, and register nothing after the close. */
  ghost predicate RequestsStay(w: World, v: World) {
    && v.s.serverRequests == w.s.serverRequests && v.s.nextInstance == w.s.nextInstance
    && v.responders == w.responders && v.writes == w.writes && v.s.closed == w.s.closed
    && (w.s.closed && w.s.pending == map[] ==> v.s.pending == map[])
  }

  lemma RegisterLeavesRequests(w: World, a: Action)
    requires a.Register?
    ensures RequestsStay(w, RegisterStep(w, a))
  {
    hide NewCall;
    NewCallFields(w.s, a.kind, a.paramsThreadID, a.expectedThreadID, a.expectedTurnID, a.encodes);
  }

  lemma ReceiveLeavesRequests(w: World, response: Response)
    ensures RequestsStay(w, ReceiveStep(w, response))
  {
    hide ResultOf;
  }

  lemma OthersLeaveRequests(w: World, id: nat, l: Lifecycle, bound: Option<nat>)
    ensures RequestsStay(w, GiveUpStep(w, id)) && RequestsStay(w, SendStep(w, id)) && RequestsStay(w, w.(s := Bind(w.s, l, bound)))
    ensures RequestsStay(w, w)
  {
  }

  lemma CallsKeepOrderly(w: World, a: Action)
    requires Orderly(w) && !AboutRequests(a) && !a.CloseNow? && !a.ReaderCloses?
    ensures Orderly(Taken(w, a))
  {
    hide Choice, Bind, RequestsOK, RegisterStep, GiveUpStep, ReceiveStep, SendStep, RespondStep, AcceptStep, WriteStep, FinishStep,
      RemoveRequest, CloseStep;
    match a
    case Register(_, _, _, _, _) => RegisterLeavesRequests(w, a);
    case GiveUp(id) => OthersLeaveRequests(w, id, ThreadStarted(""), None);
    case Receive(response) => ReceiveLeavesRequests(w, response);
    case Send(id) => OthersLeaveRequests(w, id, ThreadStarted(""), None);
    case Notify(l, bound) => OthersLeaveRequests(w, 0, l, bound);
  }

  lemma TakenOrderly(w: World, a: Action)
    requires Orderly(w)
    ensures Orderly(Taken(w, a))
  {
    hide Orderly, RegisterStep, GiveUpStep, ReceiveStep, SendStep, CloseStep, RespondStep, AcceptStep, WriteStep, FinishStep,
      RemoveRequest;
    match a
    case Respond(t, key) => RespondOK(w, t, key);
    case ServerRequest(key) => AcceptOK(w, key);
    case WriteResponse(t, ok) => WriteOK(w, t, ok);
    case FinishRespond(t) => FinishOK(w, t);
    case ResolvedElsewhere(key) => RemovalOK(w, key);
    case CloseNow => CloseOK(w);
    case ReaderCloses => CloseOK(w);
    case _ => CallsKeepOrderly(w, a);
  }

  lemma CloseOK(w: World)
    requires Orderly(w)
    ensures Orderly(CloseStep(w))
  {
    hide RequestsOK;
    EmptyOK(w.s.serverRequests, w.s.nextInstance, w.responders, w.writes);
  }

  lemma OrderlyStep(w: World, a: Action)
    requires Orderly(w)
    ensures Orderly(Step(w, a))
  {
    hide Taken, RequestsOK, ReaderAfter;
    if Enabled(w, a) { TakenOrderly(w, a); }
  }

  lemma EmptyOK(requests: map<RequestID, Request>, next: nat, responders: map<nat, Pc>, writes: map<nat, nat>)
    requires RequestsOK(requests, next, responders, writes)
    ensures RequestsOK(map[], next, responders, writes)
  {
  }

  lemma {:induction false} EveryRunOK(actions: seq<Action>)
    ensures CallsOK(Run(actions)) && Orderly(Run(actions))
  {
    if actions != [] {
      var w, a := Run(actions[..|actions| - 1]), actions[|actions| - 1];
      EveryRunOK(actions[..|actions| - 1]);
      CallsStep(w, a);
      OrderlyStep(w, a);
      hide CallsOK, Orderly, Step;
    }
  }

  // ----- main results -------------------------------------------------------------------------------------------

  /** Every call that no longer waits has one fate. A call that was removed by its caller
      gets no send, any other gets at most one on its capacity-1 channel, and exactly one
      once nothing is owed. */
  lemma OneFatePerCall(actions: seq<Action>, id: nat)
    requires id in Run(actions).registered
    ensures var w := Run(actions);
            && (id in w.s.pending <==> id !in w.fates)
            && |SentTo(w, id)| <= 1
            && (id in w.fates ==> (w.fates[id] == Removed <==> SentTo(w, id) == [] && id !in w.owed))
  {
    EveryRunOK(actions);
    hide Run;
    assert BothOK(Run(actions), id);
  }

  /** What is sent fits the fate, and a call bound to a provisional id succeeds only with a
      response that confirms this id. */
  lemma SuccessConfirmsBinding(actions: seq<Action>, id: nat)
    requires SentTo(Run(actions), id) != []
    ensures var w := Run(actions);
            id in w.registered && id in w.fates && ResultFits(w.registered[id], w.fates[id], SentTo(w, id)[0])
  {
    EveryRunOK(actions);
    hide Run;
    assert BothOK(Run(actions), id);
  }

  /** What may happen to a call that waits before and after a step. */
  ghost predicate BoundOnce(before: Call, after: Call, a: Action) {
    && (before.provisionalID != "" ==> after == before)
    && (after != before ==>
          && a.Notify? && after.provisionalID == ProvisionalID(a.l) && after.provisionalID != ""
          && (exists m | m in Methods(a.l) :: Matches(before, m, a.l))
          && after == before.(provisionalID := after.provisionalID))
  }

  lemma NewCallKeeps(s: State, kind: Method, paramsThreadID: string, expectedThreadID: string, expectedTurnID: string,
                     encodes: bool, id: nat)
    requires id in s.pending && id < s.nextID
    ensures var u := NewCall(s, kind, paramsThreadID, expectedThreadID, expectedTurnID, encodes).0;
            id in u.pending && u.pending[id] == s.pending[id]
  {
    hide Expected;
  }

  lemma RegisterKeepsOthers(w: World, a: Action, id: nat)
    requires a.Register? && id in w.s.pending && id < w.s.nextID
    ensures var u := RegisterStep(w, a).s; id in u.pending && u.pending[id] == w.s.pending[id]
  {
    hide NewCall;
    NewCallKeeps(w.s, a.kind, a.paramsThreadID, a.expectedThreadID, a.expectedTurnID, a.encodes, id);
  }

  lemma RemovalsKeepOthers(w: World, gone: nat, response: Response, id: nat)
    requires id in w.s.pending
    ensures var u := GiveUpStep(w, gone).s; id in u.pending ==> u.pending[id] == w.s.pending[id]
    ensures var u := ReceiveStep(w, response).s; id in u.pending ==> u.pending[id] == w.s.pending[id]
    ensures var u := CloseStep(w).s; id in u.pending ==> u.pending[id] == w.s.pending[id]
    ensures SendStep(w, gone).s == w.s
  {
    hide ResultOf;
  }

  /** Only `Register`, under a new id, and `Notify` put a call on the table. */
  lemma TableStepKeeps(w: World, a: Action, id: nat)
    requires a.Register? || a.GiveUp? || a.Receive? || a.Send? || a.CloseNow? || a.ReaderCloses?
    requires id in w.s.pending && id < w.s.nextID && id in Taken(w, a).s.pending
    ensures Taken(w, a).s.pending[id] == w.s.pending[id]
  {
    hide RegisterStep, GiveUpStep, ReceiveStep, SendStep, CloseStep, RespondStep, AcceptStep, WriteStep, FinishStep;
    match a
    case Register(_, _, _, _, _) => RegisterKeepsOthers(w, a, id);
    case GiveUp(gone) => RemovalsKeepOthers(w, gone, Response(0, false, "", ""), id);
    case Receive(response) => RemovalsKeepOthers(w, 0, response, id);
    case Send(to) => RemovalsKeepOthers(w, to, Response(0, false, "", ""), id);
    case CloseNow => RemovalsKeepOthers(w, 0, Response(0, false, "", ""), id);
    case ReaderCloses => RemovalsKeepOthers(w, 0, Response(0, false, "", ""), id);
  }

  lemma BindingBindsOnce(s: State, l: Lifecycle, bound: Option<nat>, id: nat)
    requires Choice(s.pending, l, bound) && id in s.pending
    ensures id in Bind(s, l, bound).pending && BoundOnce(s.pending[id], Bind(s, l, bound).pending[id], Notify(l, bound))
  {
    hide Methods;
  }

  /** A call is bound at most once: whatever happens while it waits, a provisional id stays,
      and it came from a notification for its method that fits its expected ids. */
  lemma BindingIsFinal(w: World, a: Action, id: nat)
    requires CallOK(w, id) && id in w.s.pending && id in Step(w, a).s.pending
    ensures BoundOnce(w.s.pending[id], Step(w, a).s.pending[id], a)
  {
    hide Methods, Choice, Bind, BoundOnce, RegisterStep, GiveUpStep, ReceiveStep, SendStep, CloseStep, RespondStep, WriteStep,
      FinishStep, AcceptStep, RemoveRequest, Enabled, ReaderAfter;
    SameIsBoundOnce(w.s.pending[id], a);
    match a
    case Notify(l, bound) => if Choice(w.s.pending, l, bound) { BindingBindsOnce(w.s, l, bound, id); }
    case _ =>
      if AboutRequests(a) { RequestsLeaveCalls(w, a); } else if Enabled(w, a) { TableStepKeeps(w, a, id); }
  }

  lemma SameIsBoundOnce(call: Call, a: Action)
    ensures BoundOnce(call, call, a)
  {
  }

  /** After the dispatcher closed, no call waits, no request is open, and each registered
      call has been answered, removed by its caller, or failed by the close. */
  lemma ClosedMeansSettled(actions: seq<Action>)
    requires Run(actions).s.closed
    ensures var w := Run(actions);
            && w.s.pending == map[] && w.s.serverRequests == map[]
            && forall id | id in w.registered :: id in w.fates
  {
    EveryRunOK(actions);
    hide Run;
    assert forall id | id in Run(actions).registered :: BothOK(Run(actions), id);
  }

  lemma {:induction false} ClosedForever(actions: seq<Action>, more: seq<Action>)
    requires Run(actions).s.closed
    ensures Run(actions + more).s.closed
  {
    hide Step;
    if more == [] {
      assert actions + more == actions;
    } else {
      ClosedForever(actions, more[..|more| - 1]);
      assert (actions + more)[..|actions + more| - 1] == actions + more[..|more| - 1];
      ClosedStep(Run(actions + more[..|more| - 1]), more[|more| - 1]);
    }
  }

  lemma ClosedStep(w: World, a: Action)
    requires w.s.closed
    ensures Step(w, a).s.closed
  {
    hide Choice, Expected, ResultOf, Enabled, ReaderAfter, RespondStep, AcceptStep, WriteStep, FinishStep, RemoveRequest;
    if AboutRequests(a) { RequestsLeaveCalls(w, a); }
  }

  /** Closing is final: in every continuation both tables stay empty. */
  lemma ClosedStaysSettled(actions: seq<Action>, more: seq<Action>)
    requires Run(actions).s.closed
    ensures var v := Run(actions + more);
            && v.s.pending == map[] && v.s.serverRequests == map[]
            && forall id | id in v.registered :: id in v.fates
  {
    ClosedForever(actions, more);
    ClosedMeansSettled(actions + more);
  }

  // ----- fates are final ------------------------------------------------------------------------------------

  /** A decided call stays decided, and what its channel got stays all it gets. */
  ghost predicate Decided(w: World, v: World, id: nat) {
    && (id in w.fates ==> id in v.fates && v.fates[id] == w.fates[id])
    && (SentTo(w, id) != [] ==> SentTo(v, id) == SentTo(w, id))
  }

  lemma SameCallsDecided(w: World, v: World, id: nat)
    requires SameCalls(w, v)
    ensures Decided(w, v, id)
  {
  }

  lemma CallStepDecided(w: World, a: Action, id: nat)
    requires BothOK(w, id) && !a.Register?
    requires a.GiveUp? || a.Receive? || a.Send? || a.CloseNow? || a.ReaderCloses?
    ensures Decided(w, Taken(w, a), id)
  {
    hide ResultFits, ResultOf;
  }

  lemma RegisterDecided(w: World, a: Action, id: nat)
    requires a.Register?
    ensures Decided(w, RegisterStep(w, a), id)
  {
    hide Expected;
  }

  lemma TakenDecided(w: World, a: Action, id: nat)
    requires BothOK(w, id)
    ensures Decided(w, Taken(w, a), id)
  {
    hide BothOK, SameCalls, Decided, Choice, Bind, RemoveRequest, RegisterStep, GiveUpStep, ReceiveStep, SendStep, CloseStep,
      RespondStep, AcceptStep, WriteStep, FinishStep;
    var v := Taken(w, a);
    NothingDecided(w, w.s, id);
    assert w == w.(s := w.s);
    match a
    case Register(_, _, _, _, _) => RegisterDecided(w, a, id);
    case Notify(l, bound) => NothingDecided(w, Bind(w.s, l, bound), id);
    case _ =>
      if AboutRequests(a) {
        RequestsLeaveCalls(w, a);
        SameCallsDecided(w, v, id);
      } else {
        CallStepDecided(w, a, id);
      }
  }

  lemma StepDecided(w: World, a: Action, id: nat)
    requires BothOK(w, id)
    ensures Decided(w, Step(w, a), id)
  {
    hide Taken, Enabled, ReaderAfter, BothOK;
    if Enabled(w, a) { TakenDecided(w, a, id); }
  }

  lemma NothingDecided(w: World, s: State, id: nat)
    ensures Decided(w, w.(s := s), id)
  {
  }

  /** In every continuation a call keeps the fate it has, and its channel what it got. */
  lemma {:induction false} FatesAreFinal(actions: seq<Action>, more: seq<Action>, id: nat)
    ensures Decided(Run(actions), Run(actions + more), id)
  {
    hide Step, BothOK;
    if more == [] {
      assert actions + more == actions;
    } else {
      var init := more[..|more| - 1];
      FatesAreFinal(actions, init, id);
      assert (actions + more)[..|actions + more| - 1] == actions + init;
      EveryRunOK(actions + init);
      assert BothOK(Run(actions + init), id);
      StepDecided(Run(actions + init), more[|more| - 1], id);
    }
  }

  // ----- after a contradicted response ----------------------------------------------------------------------

  /** Whether the call was told, or is about to be, that its response contradicts its id. */
  predicate Contradicted(w: World, id: nat) {
    (id in w.owed && w.owed[id] == ProtocolMismatch) || SentTo(w, id) == [ProtocolMismatch]
  }

  /** The reader is on its way from the contradiction to the close, or the close is done. */
  ghost predicate Closes(w: World, id: nat) {
    && (id in w.owed && w.owed[id] == ProtocolMismatch ==> w.reader == Telling(id, true))
    && (SentTo(w, id) == [ProtocolMismatch] ==> w.s.closed || w.reader == Closing(false))
  }

  lemma ReceiveCloses(w: World, response: Response, id: nat)
    requires BothOK(w, id) && Closes(w, id) && w.reader.Reading?
    ensures Closes(Step(w, Receive(response)), id)
  {
    hide ResultOf, ResultFits;
  }

  lemma SendCloses(w: World, to: nat, id: nat)
    requires BothOK(w, id) && Closes(w, id)
    ensures Closes(Step(w, Send(to)), id)
  {
    hide ResultFits;
    if id in w.owed {
      assert SentTo(w, id) + [w.owed[id]] == [w.owed[id]];
      assert [w.owed[id]][0] == w.owed[id];
    }
  }

  /** Steps that contradict nobody, tell nobody, and either leave the reader or close. */
  lemma CallersClose(w: World, v: World, id: nat)
    requires Closes(w, id) && SentTo(v, id) == SentTo(w, id)
    requires id in v.owed ==> (id in w.owed && v.owed[id] == w.owed[id]) || v.owed[id] == ClosedError
    requires w.s.closed ==> v.s.closed
    requires v.reader == w.reader || (w.reader.Closing? && v.s.closed)
    ensures Closes(v, id)
  {
  }

  ghost predicate TellsNobody(w: World, v: World) {
    && v.sent == w.sent && (w.s.closed ==> v.s.closed)
    && forall id | id in v.owed :: (id in w.owed && v.owed[id] == w.owed[id]) || v.owed[id] == ClosedError
  }

  lemma RegisterTellsNobody(w: World, a: Action)
    requires a.Register?
    ensures TellsNobody(w, RegisterStep(w, a))
  {
    hide Expected;
  }

  lemma GiveUpTellsNobody(w: World, id: nat)
    ensures TellsNobody(w, GiveUpStep(w, id))
  {
  }

  lemma CloseTellsNobody(w: World)
    ensures TellsNobody(w, CloseStep(w)) && CloseStep(w).s.closed
  {
  }

  lemma TableFields(w: World, a: Action)
    requires a.Register? || a.GiveUp? || a.CloseNow? || a.ReaderCloses?
    ensures TellsNobody(w, Taken(w, a)) && (a.CloseNow? || a.ReaderCloses? ==> Taken(w, a).s.closed)
  {
    hide TellsNobody, RegisterStep, GiveUpStep, ReceiveStep, SendStep, CloseStep, RespondStep, AcceptStep, WriteStep, FinishStep;
    match a
    case Register(_, _, _, _, _) => RegisterTellsNobody(w, a);
    case GiveUp(id) => GiveUpTellsNobody(w, id);
    case _ => CloseTellsNobody(w);
  }

  /** A step that leaves the calls alone, and the reader unless it was reading. */
  lemma SameCallsClose(w: World, v: World, id: nat)
    requires Closes(w, id) && SameCalls(w, v) && (v.reader == w.reader || w.reader.Reading?)
    ensures Closes(v, id)
  {
  }

  lemma StepCloses(w: World, a: Action, id: nat)
    requires BothOK(w, id) && Closes(w, id)
    ensures Closes(Step(w, a), id)
  {
    hide BothOK, SameCalls, Closes, Taken, ReaderAfter;
    match a
    case Receive(response) => if w.reader.Reading? { ReceiveCloses(w, response, id); }
    case Send(to) => SendCloses(w, to, id);
    case Notify(l, bound) => NotifyCloses(w, l, bound, id);
    case _ =>
      if Enabled(w, a) {
        if AboutRequests(a) {
          RequestsClose(w, a, id);
        } else {
          TableFields(w, a);
          ReaderWaits(w, a);
          CallersClose(w, Step(w, a), id);
        }
      }
  }

  lemma NotifyCloses(w: World, l: Lifecycle, bound: Option<nat>, id: nat)
    requires Closes(w, id)
    ensures Closes(Step(w, Notify(l, bound)), id)
  {
    hide Choice;
  }

  lemma ReaderWaits(w: World, a: Action)
    requires Enabled(w, a) && (a.Register? || a.GiveUp? || a.CloseNow? || a.ReaderCloses?)
    ensures ReaderAfter(w, a) == w.reader || (a.ReaderCloses? && w.reader.Closing?)
  {
  }

  lemma RequestsClose(w: World, a: Action, id: nat)
    requires Closes(w, id) && AboutRequests(a) && Enabled(w, a)
    ensures Closes(Step(w, a), id)
  {
    hide Taken;
    RequestsLeaveCalls(w, a);
    SameCallsReader(w, Taken(w, a), ReaderAfter(w, a));
    SameCallsClose(w, Step(w, a), id);
  }

  lemma SameCallsReader(w: World, v: World, reader: Reader)
    requires SameCalls(w, v)
    ensures SameCalls(w, v.(reader := reader))
  {
  }

  lemma {:induction false} EveryRunCloses(actions: seq<Action>, id: nat)
    ensures Closes(Run(actions), id)
  {
    hide Step, BothOK, Closes;
    if actions == [] {
      assert Closes(START, id) by { StartCloses(id); }
    } else {
      var init := actions[..|actions| - 1];
      EveryRunCloses(init, id);
      EveryRunOK(init);
      assert BothOK(Run(init), id);
      StepCloses(Run(init), actions[|actions| - 1], id);
    }
  }

  lemma StartCloses(id: nat)
    ensures Closes(START, id)
  {
  }

  lemma ContradictionStays(w: World, a: Action, id: nat)
    requires BothOK(w, id) && Contradicted(w, id)
    ensures Contradicted(Step(w, a), id)
  {
    hide BothOK, Step;
    if SentTo(w, id) == [ProtocolMismatch] {
      StepDecided(w, a, id);
    } else {
      OwedStays(w, a, id);
    }
  }

  /** What is owed is sent, and nothing else. */
  lemma OwedStays(w: World, a: Action, id: nat)
    requires BothOK(w, id) && id in w.owed
    ensures var v := Step(w, a); (id in v.owed && v.owed[id] == w.owed[id]) || SentTo(v, id) == [w.owed[id]]
  {
    hide Choice, Bind, NewCall, ResultOf, ResultFits, RespondStep, AcceptStep, WriteStep, FinishStep, RemoveRequest, ReaderAfter;
    if AboutRequests(a) { RequestsLeaveCalls(w, a); }
  }

  /** A contradicted response closes the dispatcher before the reader takes anything else: in
      every continuation, once the reader reads on or has stopped, the call was told, both
      tables are empty, and every call ever registered has its fate. */
  lemma ContradictionCloses(actions: seq<Action>, more: seq<Action>, id: nat)
    requires Contradicted(Run(actions), id)
    ensures var v := Run(actions + more);
            v.reader.Reading? || v.reader.Stopped? ==>
              && SentTo(v, id) == [ProtocolMismatch] && v.s.closed
              && v.s.pending == map[] && v.s.serverRequests == map[]
              && forall other | other in v.registered :: other in v.fates
  {
    hide Run;
    ContradictedForever(actions, more, id);
    EveryRunCloses(actions + more, id);
    if Run(actions + more).s.closed { ClosedMeansSettled(actions + more); }
  }

  lemma {:induction false} ContradictedForever(actions: seq<Action>, more: seq<Action>, id: nat)
    requires Contradicted(Run(actions), id)
    ensures Contradicted(Run(actions + more), id)
  {
    hide Step, BothOK, Contradicted;
    if more == [] {
      assert actions + more == actions;
    } else {
      var init := more[..|more| - 1];
      ContradictedForever(actions, init, id);
      assert (actions + more)[..|actions + more| - 1] == actions + init;
      EveryRunOK(actions + init);
      assert BothOK(Run(actions + init), id);
      ContradictionStays(Run(actions + init), more[|more| - 1], id);
    }
  }

  /** Nobody is answered while the reader is not reading or nothing waits. */
  lemma NoAnswerStep(w: World, a: Action, other: nat)
    requires Orderly(w) && (w.s.closed || !w.reader.Reading?) && (other in w.fates ==> w.fates[other] != Answered)
    ensures var v := Step(w, a); other in v.fates ==> v.fates[other] != Answered
  {
    hide Choice, Bind, NewCall, ResultOf, RequestsOK, RespondStep, AcceptStep, WriteStep, FinishStep, RemoveRequest, ReaderAfter;
    if AboutRequests(a) { RequestsLeaveCalls(w, a); }
  }

  /** So it is the last answer: every call that was not answered by then never is, however
      the run goes on; only its caller or the close ends it. */
  lemma {:induction false} NoAnswerAfterContradiction(actions: seq<Action>, more: seq<Action>, id: nat, other: nat)
    requires Contradicted(Run(actions), id)
    requires other in Run(actions).fates ==> Run(actions).fates[other] != Answered
    ensures var v := Run(actions + more); other in v.fates ==> v.fates[other] != Answered
  {
    hide Step, CallsOK, Orderly;
    if more == [] {
      assert actions + more == actions;
    } else {
      var init := more[..|more| - 1];
      NoAnswerAfterContradiction(actions, init, id, other);
      assert (actions + more)[..|actions + more| - 1] == actions + init;
      EveryRunOK(actions + init);
      ContradictedForever(actions, init, id);
      EveryRunCloses(actions + init, id);
      NoAnswerStep(Run(actions + init), more[|more| - 1], other);
    }
  }

  lemma RunSnoc(actions: seq<Action>, a: Action)
    ensures Run(actions + [a]) == Step(Run(actions), a)
  {
    hide Step;
    assert (actions + [a])[..|actions|] == actions;
  }

  lemma FirstCallRegisters()
    ensures var w := Step(START, Register(ThreadStart, "", "", "", true));
            w.s.pending == map[1 := Call(ThreadStart, "", "", "")] && w.reader == Reading && !w.s.closed
  {
  }

  lemma FirstCallIsBound(w: World, l: Lifecycle)
    requires w.s.pending == map[1 := Call(ThreadStart, "", "", "")] && w.reader == Reading && l == ThreadStarted("t1")
    ensures var v := Step(w, Notify(l, Some(1)));
            v.s.pending == map[1 := Call(ThreadStart, "", "", "t1")] && v.reader == Reading && v.s.closed == w.s.closed
  {
    assert ThreadStart in Methods(l) && Matches(w.s.pending[1], ThreadStart, l);
    assert Candidate(w.s.pending, l, 1);
    assert Choice(w.s.pending, l, Some(1)) by { OnlyChoice(w.s.pending, l); }
    hide Choice, Methods;
  }

  lemma OnlyChoice(pending: map<nat, Call>, l: Lifecycle)
    requires pending.Keys == {1} && Candidate(pending, l, 1) && ProvisionalID(l) != ""
    ensures Choice(pending, l, Some(1))
  {
    hide Candidate, HasExpected;
  }

  lemma FirstCallIsContradicted(w: World)
    requires w.s.pending == map[1 := Call(ThreadStart, "", "", "t1")] && w.reader == Reading && !w.s.closed
    ensures var v := Step(w, Receive(Response(1, false, "t2", "")));
            Contradicted(v, 1) && v.reader == Telling(1, true) && !v.s.closed
  {
  }

  /** A contradiction does occur: a thread is announced under one id and confirmed under another. */
  lemma ContradictionIsReachable()
    ensures var start := Register(ThreadStart, "", "", "", true); var told := Notify(ThreadStarted("t1"), Some(1));
            var w := Run([] + [start] + [told] + [Receive(Response(1, false, "t2", ""))]);
            Contradicted(w, 1) && w.reader == Telling(1, true) && !w.s.closed
  {
    hide Step, Contradicted;
    var start := Register(ThreadStart, "", "", "", true);
    var told := Notify(ThreadStarted("t1"), Some(1));
    var a1 := [] + [start];
    RunSnoc([], start);
    RunSnoc(a1, told);
    RunSnoc(a1 + [told], Receive(Response(1, false, "t2", "")));
    FirstCallRegisters();
    FirstCallIsBound(Run(a1), told.l);
    FirstCallIsContradicted(Run(a1 + [told]));
  }

  /** Each accepted request is written to at most once, whatever the responders, the
      resolved notifications and later reuses of its id do. */
  lemma OneWritePerRequest(actions: seq<Action>, instance: nat)
    ensures WritesOf(Run(actions), instance) <= 1
  {
    EveryRunOK(actions);
    hide Run;
  }

  /** A finished response removes whatever request now has its id. It drops an unanswered
      request exactly when the id was taken over by another one in the meantime. */
  lemma FinishDropsReusedRequest(actions: seq<Action>, t: nat, key: RequestID)
    requires var w := Run(actions); t in w.responders && w.responders[t].Finishing? && key in w.s.serverRequests
    requires !Run(actions).s.serverRequests[key].responded
    ensures var w := Run(actions); key !in FinishStep(w, t).s.serverRequests <==> key == w.responders[t].key
    ensures var w := Run(actions); w.s.serverRequests[key].instance != w.responders[t].instance
  {
    EveryRunOK(actions);
    hide Run;
  }

  /** And this happens: the app-server resolves a request while its answer is being written
      and reuses the id; the second request is dropped without an answer. */
  lemma ReusedRequestIsDropped(w: World, t: nat, key: RequestID, first: nat)
    requires !w.s.closed && w.s.serverRequests == map[key := Request(first, false)] && t !in w.responders
    ensures var claimed := RespondStep(w, t, key);
            var reused := AcceptStep(claimed.(s := RemoveRequest(claimed.s, key).0), key);
            var before := WriteStep(reused, t, true);
            && before.s.serverRequests == map[key := Request(w.s.nextInstance, false)]
            && FinishStep(before, t).s.serverRequests == map[]
  {
    hide ClaimResponse;
    ClaimOnlyMarks(w.s, key);
    var claimed := RespondStep(w, t, key);
    assert claimed.s.serverRequests == map[key := Request(first, true)] && claimed.responders[t] == Writing(first, key);
    assert !claimed.s.closed && claimed.s.nextInstance == w.s.nextInstance;
    hide RespondStep;
    DroppedAfterReuse(claimed, t, key, first);
  }

  lemma DroppedAfterReuse(w: World, t: nat, key: RequestID, first: nat)
    requires !w.s.closed && w.s.serverRequests == map[key := Request(first, true)]
    requires t in w.responders && w.responders[t] == Writing(first, key)
    ensures var before := WriteStep(AcceptStep(w.(s := RemoveRequest(w.s, key).0), key), t, true);
            && before.s.serverRequests == map[key := Request(w.s.nextInstance, false)]
            && FinishStep(before, t).s.serverRequests == map[]
  {
    assert RemoveRequest(w.s, key).0.serverRequests == map[];
    var reused := AcceptStep(w.(s := RemoveRequest(w.s, key).0), key);
    assert reused.s.serverRequests == map[key := Request(w.s.nextInstance, false)] && reused.responders == w.responders;
  }

  /** The same as a run from the start: of the two requests under this id, the second was
      accepted, nobody wrote an answer to it, and it is gone. */
  lemma DroppedRequestIsReachable(key: RequestID)
    ensures var w := Run([] + [ServerRequest(key)] + [Respond(0, key)] + [ResolvedElsewhere(key)] + [ServerRequest(key)]
                         + [WriteResponse(0, true)] + [FinishRespond(0)]);
            w.s.serverRequests == map[] && w.s.nextInstance == 2 && WritesOf(w, 0) == 1 && WritesOf(w, 1) == 0
  {
    hide Step;
    var a1 := [] + [ServerRequest(key)];
    var a2 := a1 + [Respond(0, key)];
    var a3 := a2 + [ResolvedElsewhere(key)];
    var a4 := a3 + [ServerRequest(key)];
    var a5 := a4 + [WriteResponse(0, true)];
    RunSnoc([], ServerRequest(key));
    RunSnoc(a1, Respond(0, key));
    RunSnoc(a2, ResolvedElsewhere(key));
    RunSnoc(a3, ServerRequest(key));
    RunSnoc(a4, WriteResponse(0, true));
    RunSnoc(a5, FinishRespond(0));
    ClaimedAndResolved(key);
    ReusedAndFinished(Run(a3), key);
  }

  lemma ClaimedAndResolved(key: RequestID)
    ensures var w := Step(Step(Step(START, ServerRequest(key)), Respond(0, key)), ResolvedElsewhere(key));
            && w.s.serverRequests == map[] && w.s.nextInstance == 1 && !w.s.closed && w.reader == Reading
            && w.responders == map[0 := Writing(0, key)] && w.writes == map[]
  {
    hide Accept, ClaimResponse;
    AcceptFields(START.s, key);
    var w1 := Step(START, ServerRequest(key));
    ClaimOnlyMarks(w1.s, key);
  }

  lemma ReusedAndFinished(w: World, key: RequestID)
    requires w.s.serverRequests == map[] && w.s.nextInstance == 1 && !w.s.closed && w.reader == Reading
    requires w.responders == map[0 := Writing(0, key)] && w.writes == map[]
    ensures var v := Step(Step(Step(w, ServerRequest(key)), WriteResponse(0, true)), FinishRespond(0));
            v.s.serverRequests == map[] && v.s.nextInstance == 2 && v.writes == map[0 := 1]
  {
    hide Accept;
    AcceptFields(w.s, key);
    var v := Step(w, ServerRequest(key));
    assert v.s.serverRequests == map[key := Request(1, false)] && v.responders == w.responders;
    var u := Step(v, WriteResponse(0, true));
    assert u.s == v.s && u.responders[0] == Finishing(0, key) && u.writes == map[0 := 1];
  }
}
