# Verified models of the gateway's correlation layer

The gateway keeps the state of running chats in memory and lets many callers work on it at
once: it appends events to bounded replay buffers, joins replay to live delivery for
streams, hands pending requests to exactly one responder, starts runs at most once per
idempotency key, correlates JSON-RPC calls with responses, and keeps one supervised
app-server connection. The SDK builds on the same events. This project models these parts
and proves what whole runs of them keep.

Every part that the program updates in place is a class with the same fields, or a method
with the same loop, whose contract equates the new state with a function of the old one.
The functions are one critical section each. Around them stand state machines over any
number of callers, in any order, with every outcome of the outside world; the theorems are
about all their runs.

Beside each machine stand laws that do not use its functions. They say what every step does in
every reachable state from the full log, the history of the run, or the conditions written out,
so that they would fail if a function and the method tied to it were wrong in the same way.

| file | what it models |
|---|---|
| `ReplayModel`, `FeedModel`, `RunsModel`, `PendingModel`, `IdempotencyModel` | the critical sections of the chat state store as functions, and what every sequence of them keeps |
| `Store` | the store itself, its fields and loops, tied to those functions |
| `ReplayWindow`, `Delivery` | what a replay answers and what a queue gets, told from the full log and the operations alone |
| `StreamModel`, `StreamGaps`, `StreamOpenings`, `ChatStream` | one event stream against everybody else; what it delivers however it opened; with what it opens and what ends it; the stream object |
| `PendingProtocol`, `Responders`, `PendingService` | any number of responders to one pending request; what each of them meets and leaves; the service's locked sections |
| `StartsModel`, `KeyLifetimes`, `CallPaths`, `RunStarters` | any number of StartChatRun and RunChatTurn calls; how long a key and its result live; how often a call tries and where its result comes from; the two calls statement by statement |
| `Dispatcher`, `ResponseMatching` | the JSON-RPC dispatcher, object and world; which response and which notification belong to which call |
| `Supervisor`, `Connections` | the connection supervisor, object and world; what a call gets, told from what happened before |
| `PackagePath`, `PathVerdicts`, `WorkflowPackage` | path acceptance, and why a path is refused; package canonicalisation |
| `HandlerLoop`, `LoopOutcomes` | the SDK event stream and handler loop; how they come out for any input |
| `Utf8`, `RedactJson`, `Keys` | text truncation, JSON redaction, joined table keys |

Times are nanoseconds, and stored times whole milliseconds, as in the program. Each clock
reading of an operation is a parameter of its own; where a promise needs it, readings do not
go backwards. Ghost state adds the full append log of each run, where each queue stands in
it, who holds each key, and the histories of writes, sends, starts and failures.

## Where the code keeps less than it seems to

Each of these is a lemma with the exact condition, a reachable example, or both.

- A stream whose cursor lies beyond everything appended when it joined can hand out older
  events. With a cursor no newer than the newest id when it subscribed, what it delivers is a
  prefix of the log above the cursor in every run (`StreamModel.OldCursorStreamIsPrefix`);
  every newer cursor can still open stale, and no other one can (`StreamModel.CanOpenStaleIff`,
  from the start in `StreamModel.StaleStreamIsReachable`), and a stale stream breaks the
  promise with its next message (`StreamModel.StaleStreamRepeatsOldEvents`). What such a
  stream delivers is still gap-free, from the point where it subscribed
  (`StreamGaps.EveryStreamIsGapFree`, `StreamGaps.LiveStreamStartsAtJoin`).
- "Cursor evicted" does not mean that something after the cursor is gone, because ids are
  shared by all runs. While a start eviction is recorded the report is true exactly for
  cursors more than one below it (`ReplayModel.EvictionReportIsTrueIff`,
  `ReplayModel.EvictionReportCanBeSpurious`). Without one, a from-start cursor is answered
  exactly if the oldest buffered event has id 1 (`ReplayModel.FromStartAnsweredIff`), so on a
  run from which nothing was evicted every such report is false, and it is made whenever the
  run's first id is above 1 (`ReplayModel.UntouchedRunRefusedIff`,
  `FeedModel.SecondRunRefusedFromStart`). For `FeedModel.ReplayRefinesLog` this means that its
  case of a start still available covers, for from-start cursors, only buffers that begin
  with the very first event of the store.
- "Start available" does not mean that the first events are there: when a replay finds a
  run's buffer expired, the store forgets the run with its eviction mark. The answer is true
  except exactly where the store forgot the run (`ReplayWindow.FromStartAvailableIff`,
  `ReplayWindow.ForgottenStartLooksAvailable`).
- A resolved pending record turns into an expired one when a claim or a second resolve comes
  after its expiry while it is still retained, and by nothing else short of a new
  registration (`PendingModel.ResolvedStaysResolvedIff`, `PendingModel.ResolvedCanExpire`).
  Resolved and expired together are absorbing.
- A failed write leaves the request answerable exactly if no fresh client claims between the
  two critical sections that follow it; otherwise the store shows the request active and the
  service never lets anybody answer it again (`PendingProtocol.FailedWriteReopensIff`, from
  the start in `PendingProtocol.DroppedActiveIsReachable`).
- A start finds its reservation at commit exactly if no other call with its scope has given
  its capacity back since it reserved (`StartsModel.CommitFindsReservationIff`). A start that
  gives up releases its key before its capacity, so the next one with the same scope can rely
  on that old reservation, lose it, and end with a started thread and turn that no run record
  names (`StartsModel.NextCallFindsOldReservation`, `StartsModel.PendingReleaseTakesReservation`,
  `StartsModel.LostReservationStrandsRun`, in one run from the start
  `StartsModel.StrandedCallIsReachable`).
- A finished response removes whatever server request has its id by then. It drops an
  unanswered request exactly when the id was reused in the meantime
  (`Dispatching.FinishDropsReusedRequest`, `Dispatching.ReusedRequestIsDropped`,
  `Dispatching.DroppedRequestIsReachable`).
- A pending request with a display the SDK does not know is skipped without an answer, and a
  later event moves the safe resume position past it
  (`HandlerLoop.SafePointPassesRequestIff`, `HandlerLoop.SafePointCanPassRequest`).
- Why a package is rejected depends on the order of its files only if a path is given twice
  (`WorkflowPackage.ReasonIsTheSame`, `WorkflowPackage.ReasonCanDiffer`); whether it is
  rejected never does.
- A redacted document is still detected as sensitive, because the marker itself is a
  meaningful string (`RedactJson.DetectionAndRedaction`).
- A connection given together with an error is never stored or closed by the supervisor, and
  only such a connection is left unclosed by a `Close` (`Supervision.BesideErrorStaysLoose`,
  `Supervision.UnclosedIffBesideError`, `Supervision.BothResultsLeak`). The only connector the
  gateway wires in gives none beside an error (gateway/internal/appserver/process.go:61-63,
  129-232).
- A joined table key identifies its ids exactly when none of them contains NUL
  (`Keys.KeyIdentifiesIff`).

## Model

| member | source | states |
|---|---|---|
| `StreamModel.DeliveredIsPrefixOfLog` | gateway/internal/chatruntime/stream.go:72-161 | whatever other callers do between the steps of opening and reading, delivered ids strictly increase; a stream that opened without a notice and not stale has delivered a gap-free prefix of the run's full log above its cursor, also after overflow, closing or completion |
| `StreamModel.OldCursorStreamIsPrefix` | gateway/internal/chatruntime/stream.go:72-161 | in every run, a stream that opened without a notice, with a cursor no newer than the newest id given out when it subscribed, has delivered a gap-free prefix of the run's full log above its cursor |
| `StreamModel.DrainedMeansCaughtUp` | gateway/internal/chatruntime/stream.go:126-161 | once replay and a still registered queue are drained, such a stream has delivered everything ever appended above its cursor |
| `StreamModel.OldCursorIsNotStale` | gateway/internal/chatruntime/stream.go:72-113 | a cursor not above the newest id given out when the stream joined never opens stale |
| `StreamModel.CanOpenStaleIff` | gateway/internal/chatruntime/stream.go:72-113 | a stream about to subscribe to a live run, with a cursor of this process, has a continuation in which it opens stale if and only if its cursor is above every id given out so far |
| `StreamModel.StaleStreamIsReachable` | gateway/internal/chatruntime/stream.go:48-79 | from the empty store: a run is active, and a caller whose cursor names an event not yet made can open stale |
| `StreamModel.StaleStreamRepeatsOldEvents` | gateway/internal/chatruntime/stream.go:142-155 | a stale stream hands out an event that is not above its cursor with its very next message, and so breaks the prefix promise |
| `StreamModel.SkippedIffCovered` | gateway/internal/chatruntime/stream.go:147-150 | the id filter skips a live event exactly when replay or an earlier delivery already covers it; otherwise it is the first uncovered event |
| `StreamGaps.EveryStreamIsGapFree` | gateway/internal/chatruntime/stream.go:72-161 | in every run and for every cursor, with or without a notice, stale or not, what a stream has delivered is a gap-free stretch of its run's log |
| `StreamGaps.LiveStreamStartsAtJoin` | gateway/internal/chatruntime/stream.go:72-161 | if nothing was replayed, the stretch begins where the stream subscribed: it is a prefix of everything appended to the run since |
| `StreamGaps.DrainedLiveStreamCaughtUp` | gateway/internal/chatruntime/stream.go:126-161 | such a stream, its queue still registered and drained, has delivered everything appended to the run since it subscribed |
| `StreamGaps.WhatIsReplayed` | gateway/internal/chatruntime/stream.go:82-113 | a refused cursor and a stale stream replay nothing; a stream from the start whose first events are gone replays the whole buffer |
| `StreamGaps.StepKeepsStretch` | gateway/internal/chatruntime/stream.go:72-161 | every step of the stream or of anybody else keeps these stretches |
| `StreamOpenings.OpeningVerdict` | gateway/internal/chatruntime/stream.go:81-124 | in every run the read opens the stream by the run's log and the longest end of it that fits the limits: refused if the cursor is beyond the newest event; else with the notice that belongs to it, and exactly the events of that end above the cursor, one by one |
| `StreamOpenings.ForeignCursorIsNoticed` | gateway/internal/chatruntime/stream.go:81-107 | in every run an open stream with a cursor of another process has its notice and replayed nothing, so an open stream without a notice has a cursor of this process |
| `StreamOpenings.CursorIsCallers` | gateway/internal/chatruntime/stream.go:39-62 | in every run the cursor of a stream is the one its caller looked up with: complete and of this chat, or a plain id of the run that was live then |
| `StreamOpenings.JoinSubscribesIff` | gateway/internal/chatruntime/stream.go:72-79 | a stream has a queue exactly if its run was live at the lookup and still is; the queue is new, empty and registered for that run |
| `StreamOpenings.NextVerdict` | gateway/internal/chatruntime/stream.go:126-161 | in every run each call of Next takes the next opening message, or else the oldest event of the queue, and hands an event of the queue out exactly if it is newer than the last one handed out |
| `StreamOpenings.StreamQueueEndsIff` | gateway/internal/chatruntime/stream.go:96-170 | in every run the queue of a stream ends exactly when an event of its run finds it full, its run's queues are closed, the caller closes the stream, or its cursor is refused |
| `StreamOpenings.FeedIsReachable` | gateway/internal/chatruntime/stream.go:71-161 | every step of a stream is a sequence of store operations, so what holds in every state of the store holds under every stream |
| `FeedModel.EveryStateOK` | gateway/internal/chatstate/store.go:232-358 | in every reachable state buffers are suffixes of the logs with exact byte sums, ids increase, queues hold gap-free stretches, registered queues are open and reach the end of the log |
| `FeedModel.ReplayRefinesLog` | gateway/internal/chatstate/store.go:316-358 | in every reachable state a successful replay of an event cursor, or of a start still available, is exactly the run's full log above the cursor, despite eviction and buffer deletion |
| `FeedModel.BufferedCursorReplays` | gateway/internal/chatstate/store.go:332-357 | a cursor whose own event survives the cut of this replay is always answered, completely |
| `FeedModel.ReplayIsTail` | gateway/internal/chatstate/store.go:352-356 | even an incomplete success leaves no hole: it is a tail of the log above the cursor |
| `FeedModel.SecondRunRefusedFromStart` | gateway/internal/chatstate/store.go:241-348 | from the empty store: two runs append one event each, and the second run's stream from the start is refused as evicted although nothing was evicted |
| `FeedModel.AppendKeepsOK` | gateway/internal/chatstate/store.go:232-272 | an append keeps every link between log, buffers, queues and subscribers |
| `FeedModel.ReceiveKeepsOK` | gateway/internal/chatruntime/stream.go:142-155 | taking an event from a queue keeps these links |
| `FeedModel.UnsubscribeKeepsOK` | gateway/internal/chatstate/store.go:298-312 | unsubscribing closes at most its own queue and keeps these links |
| `FeedModel.CloseSubscribersKeepsOK` | gateway/internal/chatstate/store.go:739-745 | closing all queues of a run keeps these links |
| `ReplayWindow.ReplayAnswersFromWindow` | gateway/internal/chatstate/store.go:316-358 | in every reachable state the answer to a cursor of this process is the verdict of one computation over the run's full log, the longest end of it that fits the limits at that time, in however many passes the rest was evicted; afterwards the store keeps exactly this end |
| `ReplayWindow.ForeignCursorIsUnavailable` | gateway/internal/chatstate/store.go:320-322 | in every reachable state a cursor of another process is unavailable, and the store stays as it was |
| `ReplayWindow.WindowIsUnique` | gateway/internal/chatstate/store.go:672-686 | there is one longest end of a log that fits the limits |
| `ReplayWindow.StepKeepsCut` | gateway/internal/chatstate/store.go:232-358 | after every operation, whatever was evicted does not fit the limits any more and never will |
| `ReplayWindow.StartLostIff` | gateway/internal/chatstate/store.go:334-344 | in every reachable state the start of a run counts as evicted exactly if something is gone and the store did not forget the run just there |
| `ReplayWindow.FromStartAvailableIff` | gateway/internal/chatstate/store.go:334-344 | an answer says that the start is available exactly if nothing of the run was evicted, or the store forgot the run where the answer's first event lies |
| `ReplayWindow.ForgottenStartLooksAvailable` | gateway/internal/chatstate/store.go:334-344 | from the empty store: an event expires, a replay forgets the run, another event comes, and the answer to a cursor says that the start is still available |
| `Delivery.AppendReaches` | gateway/internal/chatstate/store.go:232-272 | in every reachable state an append gives its event the next id and its own body, size and time, and puts it at the end of the log of its run and of each queue of the run that has room; a queue of the run that is full is closed and forgotten as it is, and no other queue is touched |
| `Delivery.SubscribeGivesNewQueue` | gateway/internal/chatstate/store.go:274-297 | in every reachable state exactly a live run is given a queue, which is new, empty, open, and registered for this run alone |
| `Delivery.CloseEndsQueues` | gateway/internal/chatstate/store.go:739-745 | ending a run closes and forgets all its queues, with their events, and no others |
| `Delivery.UnsubscribeEndsOne` | gateway/internal/chatstate/store.go:298-312 | unsubscribing closes and forgets the one queue if its run still has it, and nothing else |
| `Delivery.QueueEndsIff` | gateway/internal/chatstate/store.go:725-745 | in every reachable state an operation closes an open queue exactly if it appends an event of its run while the queue is full, closes its run's queues, or unsubscribes it |
| `Delivery.EveryEndHasACause` | gateway/internal/chatstate/store.go:725-745 | every closed queue was closed by such an operation |
| `Delivery.ReceiveVerdict` | gateway/internal/chatruntime/stream.go:142-155 | in every reachable state receiving takes the oldest event of a queue, and an empty queue tells whether it has ended or more may come |
| `Delivery.EntriesHaveSubscribers` | gateway/internal/chatstate/store.go:298-312 | in every reachable state only runs with a subscriber have an entry among the subscribers |
| `Delivery.SubscriberGetsTheLog` | gateway/internal/chatstate/store.go:725-733 | in every reachable state, what was received from a queue followed by what it still holds is what was appended to its run since it subscribed, in order: all of it while the queue is open, and a first part of it afterwards |
| `ReplayModel.EnforcedKeepsLongestFit` | gateway/internal/chatstate/store.go:672-686 | enforcement keeps exactly the longest suffix within the count, byte and age limits, and its byte sum |
| `ReplayModel.EnforcedIsSuffix` | gateway/internal/chatstate/store.go:672-686 | eviction drops a front part, takes off exactly its bytes, and records one past the newest evicted id |
| `ReplayModel.AppendBufferOK` | gateway/internal/chatstate/store.go:262-269 | after an append and its eviction the buffer still stands for the longer log |
| `ReplayModel.StartEvictionSeparates` | gateway/internal/chatstate/store.go:682-684 | while a start eviction is recorded, every evicted id is below it and no buffered id is |
| `ReplayModel.AnswerIsComplete` | gateway/internal/chatstate/store.go:340-357 | an answered event cursor or available start gets every event of the full log above it |
| `ReplayModel.BufferedCursorSucceeds` | gateway/internal/chatstate/store.go:346-357 | a cursor on a buffered event is answered, completely |
| `ReplayModel.MissingIff` | gateway/internal/chatstate/store.go:352-356 | what is buffered above a cursor falls short of the log exactly when the newest evicted event is above the cursor |
| `ReplayModel.EvictionReportIsTrueIff` | gateway/internal/chatstate/store.go:346-348 | while a start eviction is recorded, an eviction report is true exactly when the cursor is more than one below it |
| `ReplayModel.FromStartAnsweredIff` | gateway/internal/chatstate/store.go:343-348 | without a recorded start eviction a from-start cursor is answered exactly when the oldest buffered event has id 1, and reported evicted otherwise |
| `ReplayModel.UntouchedRunRefusedIff` | gateway/internal/chatstate/store.go:346-348 | a run from which nothing was evicted is reported evicted from the start exactly when its first id is above 1 |
| `ReplayModel.EvictionReportCanBeSpurious` | gateway/internal/chatstate/store.go:346-348 | a cursor is reported evicted although everything after it is buffered |
| `ReplayModel.AboveContents` | gateway/internal/chatstate/store.go:352-356 | the replay filter keeps exactly the events above the cursor, in increasing order |
| `RunsModel.CapacityConserved` | gateway/internal/chatstate/store.go:62-220 | in every reachable state active runs plus reservations stay within the cap |
| `RunsModel.CapacityStep` | gateway/internal/chatstate/store.go:62-220 | only a fresh start or reservation takes a slot, and only a free one; reservations change only by reserving, releasing and consuming |
| `RunsModel.ConsumingKeepsTotal` | gateway/internal/chatstate/store.go:118-148 | consuming a reservation never raises the total |
| `RunsModel.RefusalChangesNothing` | gateway/internal/chatstate/store.go:62-148 | a refused start or reservation leaves runs and reservations as they were |
| `RunsModel.StartVerdict` | gateway/internal/chatstate/store.go:62-148 | a run starts exactly if its chat has none going and there is room, or with a reservation, which it uses up; the record holds its id and key, starting, at that time |
| `RunsModel.CapacityVerdict` | gateway/internal/chatstate/store.go:89-116 | a reservation is made once for each scope if there is room, for the chat of the scope, and given back whether it was there or not |
| `RunsModel.TouchesNamedRunOnly` | gateway/internal/chatstate/store.go:150-220 | an update, restore, bind or completion touches only the run of the chat that has this very id, and of its record only the part it is about; naming any other run changes nothing |
| `PendingModel.CleanupOnlyRemoves` | gateway/internal/chatstate/store.go:643-660 | a cleanup pass only removes records, and removes a live one exactly when it is past its expiry |
| `PendingModel.StepLifecycle` | gateway/internal/chatstate/store.go:360-510 | what each operation may do to the status of any record: active, claimed, active again, resolved, and expired or gone otherwise |
| `PendingModel.PendingCapHolds` | gateway/internal/chatstate/store.go:369-371 | active plus claimed requests never exceed the cap in any run |
| `PendingModel.ClaimsNeedRelease` | gateway/internal/chatstate/store.go:426-469 | in every run a claim succeeds only if no earlier claim of the key is unreleased |
| `PendingModel.ClaimsAreSeparated` | gateway/internal/chatstate/store.go:426-469 | two successful claims of one record are separated by a successful release, or the key was registered anew |
| `PendingModel.DeadStaysDead` | gateway/internal/chatstate/store.go:426-510 | without a new registration a resolved or expired record never becomes answerable again |
| `PendingModel.LiveIsKept` | gateway/internal/chatstate/store.go:643-660 | an unexpired active or claimed record is never deleted |
| `PendingModel.ResolvedStaysResolvedIff` | gateway/internal/chatstate/store.go:438-503 | under any operation, a retained resolved record that is not registered anew stays resolved exactly unless that is a claim or resolve of it past its expiry |
| `PendingModel.ResolvedCanExpire` | gateway/internal/chatstate/store.go:438-503 | a concrete resolve after which a late claim, and a late second resolve, make the record expired |
| `PendingModel.RegistrationVerdict` | gateway/internal/chatstate/store.go:360-388 | a request is registered exactly if it is named and fewer than the cap are open, with its own time or else the store's; of the other records exactly those whose time is not over are kept |
| `PendingModel.RegistrationForRunVerdict` | gateway/internal/chatstate/store.go:390-424 | a request is registered for a run exactly while this is the chat's run, not over and not being interrupted; then the run is pending |
| `PendingModel.ClaimVerdict` | gateway/internal/chatstate/store.go:426-447 | a claim succeeds exactly on an active request whose time is not over, and is refused for the first reason that applies |
| `PendingModel.ReleaseVerdict` | gateway/internal/chatstate/store.go:449-469 | a claim is given back exactly if it is held and its time is not over; the state is looked at before the time |
| `PendingModel.ResolutionVerdict` | gateway/internal/chatstate/store.go:488-510 | a resolution succeeds exactly on an active or claimed request whose time is not over |
| `PendingModel.LookupVerdict` | gateway/internal/chatstate/store.go:471-486 | a lookup finds exactly the open requests whose time is not over |
| `PendingProtocol.WritesAreSerial` | gateway/internal/chatruntime/pending_interrupt.go:154-206 | over every interleaving of responders, expiry and cleanup, app-server writes for one request never overlap and none starts after a successful one |
| `PendingProtocol.StepKeepsInv` | gateway/internal/chatruntime/pending_interrupt.go:388-535 | every step keeps one owner between claim and completion, marked in the service's record, and the write history in line with it |
| `PendingProtocol.FailedWriteReopensIff` | gateway/internal/chatruntime/pending_interrupt.go:431-484 | in every run, whatever others do within the request's time between the two sections after a failed write: the store ends up showing the request active, and it is still tracked, and can still be written for, if and only if no fresh client claimed in between |
| `PendingProtocol.DroppedActiveIsReachable` | gateway/internal/chatruntime/pending_interrupt.go:431-484 | one run from the start that ends with the request active in the store, dropped by the service, and nobody at work on it |
| `PendingProtocol.DroppedForGood` | gateway/internal/chatruntime/pending_interrupt.go:407-411 | once the service has dropped the request and nobody holds its claim, no continuation writes for it |
| `PendingProtocol.StepKeepsHeld` | gateway/internal/chatruntime/pending_interrupt.go:388-535 | every step keeps: at most one responder holds the store's claim, meanwhile the store does not show the request active, and a writer's request stays tracked while the store shows it live |
| `Responders.BeginVerdict` | gateway/internal/chatruntime/pending_interrupt.go:388-437 | in every run a responder meets the request unknown, its own earlier answer, which it joins under the same key unless that failed, or somebody else's answer in flight, and then nothing changes; otherwise it takes the store's claim exactly if the store still shows the request active in time, and else the service forgets the request |
| `Responders.ValidateVerdict` | gateway/internal/chatruntime/pending_interrupt.go:438-459 | in every run a valid answer is put down as this client's, in flight; an invalid one gives the store's claim back, as far as its time is not over |
| `Responders.CompleteVerdict` | gateway/internal/chatruntime/pending_interrupt.go:468-486 | in every run a successful write makes the service forget the request; a failed one frees it and marks this client's answer, and no other, as failed |
| `Responders.StoreEndVerdict` | gateway/internal/chatruntime/pending_interrupt.go:481-488 | in every run the store's claim then comes back, or the request is resolved, exactly as far as its time is not over |
| `Responders.SweepVerdict` | gateway/internal/chatruntime/pending_interrupt.go:668-678 | in every run the sweep forgets the request exactly if the store no longer shows it open, and only outside of locked sections |
| `PendingService.Service.ClaimChatPendingResponse` | gateway/internal/chatruntime/pending_interrupt.go:407-459 | the locked section leaves service record and store as the protocol's claim steps do, touches no other record, and says whether to write, wait or refuse |
| `PendingService.Service.ClaimFromStore` | gateway/internal/chatruntime/pending_interrupt.go:431-458 | the store claim is taken, given back for an answer of the wrong type or shape, or costs the service its record |
| `PendingService.Service.CompleteChatPendingResponse` | gateway/internal/chatruntime/pending_interrupt.go:468-496 | completion leaves record and store as the protocol's completion and release or resolve steps do |
| `PendingService.Service.EndResponse` | gateway/internal/chatruntime/pending_interrupt.go:470-486 | the locked section forgets the request after a successful write, and otherwise frees it and marks the client's answer failed |
| `PendingService.Service.CleanupStalePendingRecords` | gateway/internal/chatruntime/pending_interrupt.go:668-678 | exactly the records whose request the store still shows as answerable are kept, unchanged |
| `PendingService.Service.Track` | gateway/internal/chatruntime/pending_interrupt.go:141-150 | a registered request starts active, with nobody answering, beside all others |
| `StartsModel.AtMostOnce` | gateway/internal/chatruntime/service.go:294-668 | of two calls with one store key that both reached StartThread or StartTurn, one had succeeded and its entry had expired |
| `StartsModel.ExpiredOnlyAfterSuccess` | gateway/internal/chatstate/store.go:661-669 | only the entry of a call that published its result ever expires |
| `KeyLifetimes.ExpiredOnlyAfterTTL` | gateway/internal/chatstate/store.go:661-669 | in every run a result is dropped only by a cleanup that reads more than the time to live past its publication |
| `KeyLifetimes.RetryWithinTTLIsReplayed` | gateway/internal/chatstate/store.go:512-538 | in every run whose cleanups all read within a result's time to live, a repeated call within it gets exactly this result |
| `KeyLifetimes.NoneKeptBeyondTTL` | gateway/internal/chatstate/store.go:661-669 | in every run a cleanup that reads past a result's time to live drops it |
| `KeyLifetimes.LateRetryIsFresh` | gateway/internal/chatstate/store.go:512-538 | in every run the first repeated call after the time to live gets the key afresh, and always finds room |
| `KeyLifetimes.ArrivalVerdict` | gateway/internal/chatstate/store.go:512-538 | in every run a call meets the living entry of its key: the result of its own scope is repeated, anything else turns it away; without one it gets the key exactly if fewer than the cap are alive |
| `KeyLifetimes.EntriesWithinCap` | gateway/internal/chatstate/store.go:526-528 | in every run the table of keys stays within its cap |
| `StartsModel.OutcomesAreHonest` | gateway/internal/chatruntime/service.go:897-939 | a key is given back only by a call that attempted nothing, and a repeated call returns exactly what the owner of the key published |
| `StartsModel.ReservationsNeverLeak` | gateway/internal/chatruntime/service.go:303-312 | every reservation in any reachable state belongs to a call still on its way, and the total stays within the cap |
| `StartsModel.SoleCallFindsReservation` | gateway/internal/chatruntime/service.go:443-446 | a call that reserved alone is refused at commit only because the chat is busy |
| `StartsModel.CommitFindsReservationIff` | gateway/internal/chatruntime/service.go:443-446 | in every run, a commit is refused for want of the reservation if and only if, since the call reserved, another call with its scope gave its capacity back; otherwise only a busy chat refuses it |
| `StartsModel.PendingReleaseTakesReservation` | gateway/internal/chatruntime/service.go:303-312 | a call that reserves, or finds a reservation, while another one with its scope still has its release ahead loses the reservation to that release |
| `StartsModel.LostReservationStrandsRun` | gateway/internal/chatruntime/service.go:349-445 | without its reservation a call starts a thread and a turn, records no run, and leaves its key in flight |
| `StartsModel.NextCallFindsOldReservation` | gateway/internal/chatruntime/service.go:307-352 | whenever a call gives up, the next call with its scope can get the key and find the old reservation |
| `StartsModel.StrandedCallIsReachable` | gateway/internal/chatruntime/service.go:294-446 | one run from the start whose second call ends with a thread and a turn started, no run record, and its key in flight |
| `StartsModel.RetryNeedsEmptyRead` | gateway/internal/chatruntime/service.go:243-270 | StartTurn is tried again only if a read showed the thread without turns and none named a started turn |
| `CallPaths.ResultTellsOwnRun` | gateway/internal/chatruntime/service.go:294-668 | in every run the result a call returns as its own names the chat whose thread it started or that it was called for, a run and state that the start of its turn or a read after it named, and the event the call itself appended |
| `CallPaths.TriesAreBounded` | gateway/internal/chatruntime/service.go:317-434 | in every run each call reaches StartThread at most three times and StartTurn at most twice; a turn in an existing chat reaches StartTurn once and StartThread never |
| `CallPaths.ConnectVerdict` | gateway/internal/chatruntime/service.go:317-373 | a round of the connection loop is followed by another one exactly after a retryable failure whose wait was not cut short, and at most twice |
| `CallPaths.RecoverVerdict` | gateway/internal/chatruntime/service.go:243-270 | recovery finds the first turn that one of three reads names unless a wait was cancelled before, and confirms that none was started exactly if it read to the end and saw the thread without turns |
| `CallPaths.TurnVerdict` | gateway/internal/chatruntime/service.go:378-434 | where each outcome of StartTurn leads: to the run it names, to the run recovery finds, to one second try, or out with the key kept |
| `CallPaths.ReserveCapMoves` | gateway/internal/chatruntime/service.go:303-306 | a call reserves room for its run, or gives its key back |
| `CallPaths.CommitMoves` | gateway/internal/chatruntime/service.go:443-446 | the commit records the run under the call's own key and uses up the reservation, or the call gives up |
| `CallPaths.UpdateMoves` | gateway/internal/chatruntime/service.go:447-449 | the run is recorded in the state that was named with it, if it is still the chat's run |
| `CallPaths.AppendMoves` | gateway/internal/chatruntime/service.go:450-473 | the result names the chat, run and state that the event was appended for, and the event; a run already over has to be taken out first |
| `CallPaths.TerminateMoves` | gateway/internal/chatruntime/service.go:459-463 | a run that is already over is taken out again before its result is published |
| `CallPaths.LocalMoves` | gateway/internal/chatruntime/service.go:590-595 | a turn takes the chat for a run of its own under a waiting name before it starts, or gives its key back |
| `CallPaths.BindMoves` | gateway/internal/chatruntime/service.go:622-625 | the waiting run is renamed to the run that the turn names |
| `CallPaths.AbortMoves` | gateway/internal/chatruntime/service.go:613-621 | a turn that fails takes exactly its waiting run out again |
| `CallPaths.DropCapacityMoves` | gateway/internal/chatruntime/service.go:303-312 | the release of the capacity comes last and takes the reservation of the call's scope |
| `StartsModel.PublishKeepsKeys` | gateway/internal/chatruntime/service.go:474-482 | publishing never fails: nothing but its owner ends an entry in flight |
| `StartsModel.StepKeepsInv` | gateway/internal/chatruntime/service.go:294-668 | every step of any caller keeps the invariant about keys, attempts, replays, reservations and capacity |
| `RunStarters.StartChatRun` | gateway/internal/chatruntime/service.go:294-484 | on every path the call ends finished, store and response are those of its steps in the protocol model, and the model's invariant holds |
| `RunStarters.RunChatTurn` | gateway/internal/chatruntime/service.go:527-668 | the same for RunChatTurn; and no thread or turn is started if the resumed thread does not fit the chat |
| `RunStarters.StartThreadOnFreshConnection` | gateway/internal/chatruntime/service.go:314-376 | up to three connections; ends with a started thread or at the exit its attempts call for |
| `RunStarters.StartOrRecoverTurn` | gateway/internal/chatruntime/service.go:377-434 | ends with a run to commit, started or recovered, or at the exit that keeps the key |
| `RunStarters.RecoverStartedTurn` | gateway/internal/chatruntime/service.go:243-270 | the recovery loop computes the recovery of the protocol model |
| `RunStarters.RunOnThread` | gateway/internal/chatruntime/service.go:377-484 | from a started thread the call publishes its own result or ends with its key in flight and its capacity released or consumed |
| `RunStarters.Record` | gateway/internal/chatruntime/service.go:447-482 | recording a committed run ends with the published result or stuck |
| `RunStarters.GiveUp` | gateway/internal/chatruntime/service.go:307-352 | the key is released only if nothing was attempted, and the capacity last |
| `RunStarters.StartReservedRun` | gateway/internal/chatruntime/service.go:303-484 | from a fresh key every path ends finished, with the reservation released or consumed |
| `RunStarters.RunReservedTurn` | gateway/internal/chatruntime/service.go:537-668 | from a fresh key every path ends finished: the key given back before StartTurn, always so if the resumed thread does not fit, in flight or published after it |
| `RunStarters.PrepareThread` | gateway/internal/chatruntime/service.go:537-589 | connection, resume and the checks in order, then the reconcile: succeeds only for a thread that fits, and then the store shows no active run of the chat; fails only for one that does not, or over an active run |
| `RunStarters.ReconcileActiveRun` | gateway/internal/chatruntime/service.go:1028-1053 | a run the store still shows active although its thread runs nothing gets a last status event and is completed, as steps of the protocol model |
| `RunStarters.RunLocalTurn` | gateway/internal/chatruntime/service.go:606-668 | from the provisional run on every path ends finished, stuck or with the published result |
| `RunStarters.StartLocalRun` | gateway/internal/chatruntime/service.go:591-595 | the provisional run is started, or the key is to be given back |
| `RunStarters.AbortLocalRun` | gateway/internal/chatruntime/service.go:613-621 | a turn that failed or has no id ends its provisional run and keeps the key |
| `RunStarters.BindStartedRun` | gateway/internal/chatruntime/service.go:622-625 | the provisional run gets the real id, or the call is stuck |
| `RunStarters.ReserveCapacityOf` | gateway/internal/chatruntime/service.go:303-306 | reserves, or leads to giving the key back without a capacity release |
| `RunStarters.CommitRunOf` | gateway/internal/chatruntime/service.go:443-446 | consumes the reservation for a valid run, or leads to its release |
| `RunStarters.UpdateRunOf` | gateway/internal/chatruntime/service.go:447-449 | updates the run, or the call is stuck |
| `RunStarters.AppendStatusOf` | gateway/internal/chatruntime/service.go:450-458 | appends the status event; the result names its chat, run, state, id and cursor |
| `RunStarters.TerminateRunOf` | gateway/internal/chatruntime/service.go:459-463 | completes a run recovered in a terminal state, or the call is stuck |
| `RunStarters.PublishOf` | gateway/internal/chatruntime/service.go:474-482 | publishes the result under the key |
| `RunStarters.ReleaseKeyOf` | gateway/internal/chatruntime/service.go:304-304 | gives the key back as the protocol's step does |
| `RunStarters.ReleaseCapacityOf` | gateway/internal/chatruntime/service.go:308-312 | releases the capacity as the protocol's step does |
| `RunStarters.Begin` | gateway/internal/chatruntime/service.go:294-301 | a call reserves its key, repeats an earlier result, or is turned away |
| `IdempotencyModel.InFlightIsKept` | gateway/internal/chatstate/store.go:661-669 | cleanup never drops a key in flight |
| `IdempotencyModel.ReleasedKeyIsFree` | gateway/internal/chatstate/store.go:512-574 | a key given back can be reserved again at once |
| `IdempotencyModel.ReservationVerdict` | gateway/internal/chatstate/store.go:512-538 | a reservation finds the living entry of its slot, of its own scope or another one, and makes a new one exactly if there is none and fewer than the cap are alive; exactly the living entries stay |
| `IdempotencyModel.PublicationVerdict` | gateway/internal/chatstate/store.go:540-555 | a result is published exactly on the living entry of the caller's own scope, and lives from then |
| `IdempotencyModel.ReleaseVerdict` | gateway/internal/chatstate/store.go:557-574 | a key is given back exactly by its own scope while in flight |
| `ChatState.NormalizedLimits` | gateway/internal/chatstate/store.go:612-641 | limits become positive, and positive ones stay |
| `ChatState.LimitsVerdict` | gateway/internal/chatstate/store.go:612-641 | each limit that is not given becomes its default, in numbers |
| `ChatState.Store.constructor` | gateway/internal/chatstate/store.go:34-54 | a new store is empty, with normalized limits, and valid |
| `ChatState.Store.CleanupPending` | gateway/internal/chatstate/store.go:643-660 | the loop over pending records computes exactly the cleaned table |
| `ChatState.Store.CleanupIdempotency` | gateway/internal/chatstate/store.go:661-669 | the loop over entries drops exactly the stale ones |
| `ChatState.Store.Cleanup` | gateway/internal/chatstate/store.go:643-670 | one pass computes both and keeps every cap |
| `ChatState.Store.StartRun` | gateway/internal/chatstate/store.go:62-87 | new runs and result are those of the model; the store stays valid; cleanup ran exactly if the scope is valid |
| `ChatState.Store.ReserveActiveRunCapacity` | gateway/internal/chatstate/store.go:89-106 | the same for reserving |
| `ChatState.Store.ReleaseActiveRunCapacity` | gateway/internal/chatstate/store.go:108-116 | the same for releasing, without a cleanup pass |
| `ChatState.Store.StartRunWithReservation` | gateway/internal/chatstate/store.go:118-148 | the same for consuming a reservation |
| `ChatState.Store.UpdateRunState` | gateway/internal/chatstate/store.go:150-163 | the same for a state update |
| `ChatState.Store.RestoreRunStateAfterPending` | gateway/internal/chatstate/store.go:165-180 | the same, and an interrupting run is left alone |
| `ChatState.Store.BindRunID` | gateway/internal/chatstate/store.go:182-198 | the same for binding the run id |
| `ChatState.Store.CompleteRun` | gateway/internal/chatstate/store.go:200-220 | the run is removed and exactly its queues are closed and forgotten |
| `ChatState.Store.ActiveRun` | gateway/internal/chatstate/store.go:222-230 | gives the run of a chat exactly if it is not terminal |
| `ChatState.Store.AppendEvent` | gateway/internal/chatstate/store.go:232-272 | log, buffer, queues, subscribers and result are those of the model's append |
| `ChatState.Store.RecordEvent` | gateway/internal/chatstate/store.go:241-271 | the part after validation and cleanup is the model's append |
| `ChatState.Store.CloseRunSubscribers` | gateway/internal/chatstate/store.go:739-745 | exactly the queues of the run are closed and forgotten |
| `ChatState.Store.AdmitPending` | gateway/internal/chatstate/store.go:369-387 | a record is added with its expiry exactly if the cap has room |
| `ChatState.Store.PublishEvent` | gateway/internal/chatstate/store.go:725-737 | every queue of the run is offered the event; the full ones are closed and forgotten |
| `ChatState.OfferToAll` | gateway/internal/chatstate/store.go:725-733 | the loop, in any order, appends to queues with room, closes the others, and keeps exactly the former |
| `ChatState.CloseAll` | gateway/internal/chatstate/store.go:739-743 | the loop closes exactly the given queues |
| `ChatState.EnforceReplayLimits` | gateway/internal/chatstate/store.go:672-686 | the eviction loop ends and computes the enforced buffer |
| `ChatState.EventsAbove` | gateway/internal/chatstate/store.go:352-356 | the replay loop collects exactly the events above the cursor |
| `ChatState.AnswerCursor` | gateway/internal/chatstate/store.go:340-357 | the cursor branches give the model's answer |
| `ChatState.Store.Subscribe` | gateway/internal/chatstate/store.go:274-314 | a live run gets a fresh open queue at the end of its log, any other none; the id is used up either way |
| `ChatState.Store.Unsubscribe` | gateway/internal/chatstate/store.go:298-312 | closes and forgets the queue if it is still registered |
| `ChatState.Store.Receive` | gateway/internal/chatruntime/stream.go:142-155 | takes the oldest queued event, also from a closed queue |
| `ChatState.Store.Replay` | gateway/internal/chatstate/store.go:316-358 | buffers and answer are those of the model's replay |
| `ChatState.Store.ActivePendingCount` | gateway/internal/chatstate/store.go:688-696 | the loop counts exactly the active and claimed records |
| `ChatState.Store.RegisterPending` | gateway/internal/chatstate/store.go:360-388 | table and result are those of the model |
| `ChatState.Store.RegisterPendingForActiveRun` | gateway/internal/chatstate/store.go:390-424 | the same, and the run turns pending exactly if the request was registered |
| `ChatState.Store.ClaimPendingResolution` | gateway/internal/chatstate/store.go:426-447 | table and result are those of the model |
| `ChatState.Store.ReleasePendingResolutionClaim` | gateway/internal/chatstate/store.go:449-469 | table and result are those of the model |
| `ChatState.Store.Pending` | gateway/internal/chatstate/store.go:471-486 | gives the record exactly if it is active or claimed |
| `ChatState.Store.ResolvePending` | gateway/internal/chatstate/store.go:488-510 | table and result are those of the model |
| `ChatState.Store.ReserveIdempotency` | gateway/internal/chatstate/store.go:512-538 | entries and result are those of the model; the cap is kept |
| `ChatState.Store.CompleteIdempotency` | gateway/internal/chatstate/store.go:540-555 | entries and result are those of the model |
| `ChatState.Store.ReleaseIdempotency` | gateway/internal/chatstate/store.go:557-574 | entries and result are those of the model |
| `ChatStream.ChatEventStream.Next` | gateway/internal/chatruntime/stream.go:126-161 | hands out one message, the end, or nothing yet, exactly as some number of the model's steps, and keeps the model's invariant |
| `ChatStream.ChatEventStream.NextLive` | gateway/internal/chatruntime/stream.go:140-160 | the loop over the queue ends with the first unsent event, the end, or an empty queue |
| `ChatStream.ChatEventStream.Close` | gateway/internal/chatruntime/stream.go:163-170 | gives the queue back once, however often it is called |
| `ChatStream.StreamChatEvents` | gateway/internal/chatruntime/stream.go:41-123 | the three sections in order: store, queue and messages are those of the model's lookup, join and read, and it refuses exactly when the model does |
| `ChatStream.FindRun` | gateway/internal/chatruntime/stream.go:41-63 | from any state: the run, epoch and cursor to follow and whether the run is the active one, no run, or a refusal, as the model's lookup |
| `ChatStream.JoinRun` | gateway/internal/chatruntime/stream.go:73-79 | from any state: an active run is subscribed to, and store and queue are those of the model's join |
| `ChatStream.ReadReplay` | gateway/internal/chatruntime/stream.go:82-123 | messages and queue after the replay are those of the model's read; a refused stream gives its queue back |
| `ChatStream.OpeningMessages` | gateway/internal/chatruntime/stream.go:107-113 | a successful replay becomes the notice, if the start is lost, and then its events in order |
| `Dispatching.OneFatePerCall` | gateway/internal/appserver/dispatcher.go:113-235 | a registered call waits or has one fate; its channel gets at most one send, none after removal, and one is sent or owed otherwise |
| `Dispatching.FatesAreFinal` | gateway/internal/appserver/dispatcher.go:113-235 | in every continuation a call keeps the fate it has, and its channel exactly what it got |
| `Dispatching.ClosedMeansSettled` | gateway/internal/appserver/dispatcher.go:616-636 | after close no call waits, no request is open, and every registered call was answered, removed or failed |
| `Dispatching.ClosedForever` | gateway/internal/appserver/dispatcher.go:616-636 | a closed dispatcher never opens again |
| `Dispatching.ClosedStaysSettled` | gateway/internal/appserver/dispatcher.go:616-636 | in every continuation of a run that closed, both tables stay empty and every registered call has its fate |
| `Dispatching.ContradictionCloses` | gateway/internal/appserver/dispatcher.go:330-460 | in every continuation of a run with a contradicted response, once the reader reads on or has stopped, the call was told, the dispatcher is closed, both tables are empty, and every registered call has its fate |
| `Dispatching.ContradictionIsReachable` | gateway/internal/appserver/dispatcher.go:433-527 | one run from the start in which a response contradicts the announced id |
| `Dispatching.NoAnswerAfterContradiction` | gateway/internal/appserver/dispatcher.go:433-460 | once a call was told that its response contradicts its provisional id, no call that was not answered by then is ever answered: its caller removes it, or the close fails it |
| `Dispatching.SuccessConfirmsBinding` | gateway/internal/appserver/dispatcher.go:433-521 | what is sent fits the fate, and a bound call succeeds only with a response that confirms the same id |
| `ResponseMatching.ToldWhatResponseGives` | gateway/internal/appserver/dispatcher.go:433-527 | in every run each call that was answered was told what its response gives it: an error stays one; a thread or turn call that was announced under an id succeeds if and only if the response names this id where that kind of call names it, and gets the mismatch otherwise; any other call takes what the response names |
| `ResponseMatching.ResponseSettlesItsCall` | gateway/internal/appserver/dispatcher.go:433-460 | in every run a response settles the waiting call it names and no other; one that nobody waits for changes nothing |
| `ResponseMatching.BindsOneThatFits` | gateway/internal/appserver/dispatcher.go:462-562 | a notification binds nothing exactly if it has no id or fits no waiting call; otherwise one call of its kind without an id, whose expected ids do not differ, and which expects one if any such call does |
| `ResponseMatching.NotificationBindsIt` | gateway/internal/appserver/dispatcher.go:462-502 | in every run the notification gives that call its id and changes nothing else |
| `ResponseMatching.NewCallWaits` | gateway/internal/appserver/dispatcher.go:209-235 | in every run a call gets an id that no call had before and waits for its own thread unless told otherwise; a closed dispatcher registers nothing |
| `ResponseMatching.CloseFailsWaiting` | gateway/internal/appserver/dispatcher.go:616-636 | in every run the first close fails exactly the waiting calls and drops every open request |
| `ResponseMatching.RequestTakenIff` | gateway/internal/appserver/dispatcher.go:381-408 | in every run a request is taken exactly if the dispatcher is open and its id is free; otherwise the reader closes and stops |
| `ResponseMatching.ResponderWritesIff` | gateway/internal/appserver/dispatcher.go:237-259 | in every run a responder writes exactly if the request is open and nobody answers it, and then removes what is open under the id; after a failed write the request stays |
| `ResponseMatching.ReaderGoesOn` | gateway/internal/appserver/dispatcher.go:319-345 | in every run the reader closes before it reads on after a contradicted result, and reads on at once after any other |
| `Dispatching.BindingIsFinal` | gateway/internal/appserver/dispatcher.go:462-562 | a waiting call is bound at most once, by a notification for its method that fits its expected ids, and nothing else of it changes |
| `Dispatching.OneWritePerRequest` | gateway/internal/appserver/dispatcher.go:237-259 | each accepted server request is written to at most once under concurrent responders, removals and reuse of its id |
| `Dispatching.FinishDropsReusedRequest` | gateway/internal/appserver/dispatcher.go:575-583 | a finished response drops an unanswered request exactly when that one took over its id |
| `Dispatching.ReusedRequestIsDropped` | gateway/internal/appserver/dispatcher.go:253-258 | a concrete order of steps that drops a request without an answer |
| `Dispatching.DroppedRequestIsReachable` | gateway/internal/appserver/dispatcher.go:237-259 | the same as one run from the start: the second request under the id was accepted, got no answer, and is gone |
| `Dispatching.Dispatcher.RecordProvisionalID` | gateway/internal/appserver/dispatcher.go:462-502 | whatever the map order, binds one unbound match, with an expected id if any match has one, and none only if there is none |
| `Dispatching.Dispatcher.NewPendingCall` | gateway/internal/appserver/dispatcher.go:209-235 | registers under the next id unless closed; an id is used up even if encoding fails |
| `Dispatching.Dispatcher.HandleResponse` | gateway/internal/appserver/dispatcher.go:433-460 | takes the waiting call and judges the response; a contradiction of the provisional id closes the dispatcher and takes every other call along |
| `Dispatching.Dispatcher.TakePending` | gateway/internal/appserver/dispatcher.go:433-453 | the call is off the table afterwards, and its caller gets success, the remote error, or the mismatch |
| `Dispatching.Dispatcher.RemovePending` | gateway/internal/appserver/dispatcher.go:564-573 | removes the call and says whether it was still waiting |
| `Dispatching.Dispatcher.HandleServerRequest` | gateway/internal/appserver/dispatcher.go:381-408 | accepts a request unless closed or its id is open |
| `Dispatching.Dispatcher.BeginRespond` | gateway/internal/appserver/dispatcher.go:237-250 | marks an open unanswered request and refuses any other |
| `Dispatching.Dispatcher.RemoveServerRequest` | gateway/internal/appserver/dispatcher.go:575-598 | removes by id and says whether there was one |
| `Dispatching.Dispatcher.CloseOnce` | gateway/internal/appserver/dispatcher.go:616-629 | the first close takes every waiting call, later ones nothing |
| `Supervision.SingleFlight` | gateway/internal/appserver/supervisor.go:91-183 | at most one connect attempt runs, and never beside a stored connection |
| `Supervision.JoinersGetStartersResult` | gateway/internal/appserver/supervisor.go:126-138 | every joiner that waited for an attempt returns what its starter returned, and beside an error no connection |
| `Supervision.BackoffHolds` | gateway/internal/appserver/supervisor.go:112-167 | the cooldown is set exactly when three or more failures counted since the last success, and no attempt starts within 30 s of such a failure |
| `Supervision.CloseIsFinal` | gateway/internal/appserver/supervisor.go:237-261 | when a close has returned, nothing is stored, no attempt runs, every connection that came late has been closed, and every connection ever produced ended, was given up, was closed, is being closed by another close, or was returned beside an error |
| `Supervision.BothResultsLeak` | gateway/internal/appserver/supervisor.go:148-182 | one run from the start in which a connection given together with an error is neither stored nor closed |
| `Supervision.BesideErrorStaysLoose` | gateway/internal/appserver/supervisor.go:148-182 | in every continuation the supervisor neither stores nor closes nor begins to close a connection that some call got together with an error |
| `Supervision.UnclosedIffBesideError` | gateway/internal/appserver/supervisor.go:237-261 | when a close has returned and no other is at work, a connection that has neither ended nor been given up is unclosed if and only if some call got it together with an error |
| `Supervision.ClosedHandsOutNothing` | gateway/internal/appserver/supervisor.go:97-100 | once closed, always closed, and no later call gets a connection |
| `Connections.CallFinds` | gateway/internal/appserver/supervisor.go:91-146 | in every run a call gets the stored connection exactly while that has not ended; else it is turned away exactly if three failures or more counted since the last success and the last one is less than 30 s ago; else it waits for the attempt in progress or starts one; a closed supervisor only says so |
| `Connections.AttemptSettles` | gateway/internal/appserver/supervisor.go:148-182 | in every run an attempt's connection is stored exactly if it came without an error before the close; what counts as a failure or success; and what its starter returns |
| `Connections.JoinerWakesWithResult` | gateway/internal/appserver/supervisor.go:126-138 | in every run a joiner wakes exactly when its attempt is done, with the starter's connection if the attempt succeeded and its error alone if not |
| `Connections.StoredStays` | gateway/internal/appserver/supervisor.go:96-235 | in every run a stored connection stays until it is given up, the supervisor closes, or a call finds that it has ended |
| `Connections.GivenUpIsDropped` | gateway/internal/appserver/supervisor.go:229-235 | in every run a connection that is given up is no longer stored, and any other one stays |
| `Connections.CloseTakesStored` | gateway/internal/appserver/supervisor.go:237-261 | in every run a close takes the stored connection out at once, closes it, and waits for the attempt in progress |
| `Connections.LateIsClosed` | gateway/internal/appserver/supervisor.go:148-182 | in every run a late connection is closed before its attempt ends and its starter returns |
| `Connections.StatusTellsCall` | gateway/internal/appserver/supervisor.go:195-227 | in every run the reported state tells what a call would find at that moment |
| `Supervision.Supervisor.EnterConnection` | gateway/internal/appserver/supervisor.go:96-143 | the first section hands out, refuses, joins or starts as the model does |
| `Supervision.Supervisor.SettleAttempt` | gateway/internal/appserver/supervisor.go:148-181 | the section after the connector settles failures, cooldown, stored and late connection as the model does, for any of the four combinations of connection and error, and ends the attempt unless a late connection has to be closed first |
| `Supervision.Supervisor.ForgetAttempt` | gateway/internal/appserver/supervisor.go:177-179 | ends exactly the own attempt |
| `Supervision.Supervisor.MarkClosed` | gateway/internal/appserver/supervisor.go:229-235 | forgets exactly the given connection |
| `Supervision.Supervisor.ShutDown` | gateway/internal/appserver/supervisor.go:237-247 | closes for good and hands over what is left to close and to wait for |
| `Supervision.Supervisor.CurrentStatus` | gateway/internal/appserver/supervisor.go:195-227 | closed before backoff before connecting before active before idle |
| `PackagePath.ChecksMeanPlainSegments` | sdk/go/workflow_package.go:348-354 | the clean and traversal checks on a relative name hold exactly when every segment is plain |
| `PackagePath.AcceptedIff` | sdk/go/workflow_package.go:340-367 | a name is accepted exactly when, with forward slashes, it is not blank, relative, without colon, short enough, and all segments are plain and not reserved |
| `PackagePath.AcceptedAgain` | sdk/go/workflow_package.go:340-367 | validation is idempotent |
| `PathVerdicts.VerdictMeans` | sdk/go/workflow_package.go:340-367 | every verdict on a name: the first reason that applies of blank, absolute or with a colon, ".." in front of ordinary segments, other segments that are not ordinary, too long, reserved |
| `PathVerdicts.CleanMeans` | sdk/go/workflow_package.go:348-350 | a relative name is its own clean form exactly if it is some ".." followed by ordinary segments |
| `PackagePath.ValidateWorkflowRelativePath` | sdk/go/workflow_package.go:340-367 | the validator gives the verdict, and its own check of segments can never fire |
| `PackagePath.CleanIsIdempotent` | sdk/go/workflow_package.go:348-348 | cleaning a clean path changes nothing |
| `PackagePath.SafePathIsIdentityIff` | sdk/go/workflow_package.go:550-565 | the displayed path is the path itself exactly when its segments are plain and it has no backslash |
| `PackagePath.SafePathIsPlain` | sdk/go/workflow_package.go:550-565 | a displayed path is empty or has only plain segments |
| `PackagePath.SafePackagePath` | sdk/go/workflow_package.go:550-565 | the loop keeps exactly the plain segments in order |
| `PathVerdicts.OrdinaryOnes` | sdk/go/workflow_package.go:556-563 | the displayed path keeps exactly the ordinary segments of any part of the path, in order |
| `PathVerdicts.TrimmedMeans` | sdk/go/workflow_package.go:553-555 | all slashes in front are taken away first, and nothing else |
| `PackagePath.PlacedUnderRoot` | sdk/go/workflow_package.go:340-367 | an accepted path placed under a clean root keeps the root as prefix, apart from the roots "." and "/" |
| `WorkflowPackage.OrderDoesNotMatter` | sdk/go/workflow_package.go:369-450 | any two orders of the same files are both rejected or both accepted with the same files, total and fingerprint payload, whatever an unstable sort does |
| `WorkflowPackage.AcceptedIff` | sdk/go/workflow_package.go:369-408 | the checks in order accept exactly the packages that are acceptable as a whole |
| `WorkflowPackage.AcceptedPathsDistinct` | sdk/go/workflow_package.go:380-387 | accepted paths are distinct even when case is folded |
| `WorkflowPackage.SortedIsUnique` | sdk/go/workflow_package.go:376-378 | two sorted arrangements of files with distinct paths are the same |
| `WorkflowPackage.ReasonIsTheSame` | sdk/go/workflow_package.go:369-408 | with distinct paths the whole outcome, reason included, is independent of the order |
| `WorkflowPackage.ReasonCanDiffer` | sdk/go/workflow_package.go:380-403 | with one path twice the reason depends on the sort |
| `WorkflowPackage.FinalizeWorkflowPackage` | sdk/go/workflow_package.go:369-418 | the loop gives the outcome of the checks in order, and accepted files are the given ones |
| `WorkflowPackage.FingerprintPayload` | sdk/go/workflow_package.go:432-444 | the payload lists path, size, digest and mode of each file in order |
| `WorkflowPackage.LessIff` | sdk/go/workflow_package.go:376-378 | the order of paths: one is smaller if, where they first differ, it has the smaller character or ends |
| `WorkflowPackage.FinalVerdict` | sdk/go/workflow_package.go:369-418 | a package is rejected for being empty or too many, else for the first thing wrong with the first file that has something wrong, else for want of a configuration; an accepted one lists its files and their total as sorted |
| `Utf8.TruncatedIsLongestValidPrefix` | gateway/internal/chatruntime/notifications.go:297-306 | a too long text becomes its longest valid prefix within the limit, and a valid text loses at most 3 bytes below it |
| `Utf8.TruncateUTF8BytesWithFlag` | gateway/internal/chatruntime/notifications.go:297-306 | the shrinking loop computes this text and reports exactly whether it cut |
| `Utf8.TruncateUTF8Bytes` | gateway/internal/chatruntime/pending_interrupt.go:773-784 | the other loop computes the same text on every input |
| `Utf8.ValidIsEncoded` | gateway/internal/chatruntime/notifications.go:302-302 | a byte sequence valid by the syntax is the encoding of its decoded scalar values |
| `Utf8.EncodedIsValid` | gateway/internal/chatruntime/notifications.go:302-302 | every encoding of scalar values is valid |
| `Utf8.TruncationIsIdempotent` | gateway/internal/chatruntime/notifications.go:297-306 | truncating again changes nothing, and valid text stays valid |
| `RedactJson.RedactsExactly` | gateway/internal/redact/json.go:150-178 | redaction replaces exactly the strings, numbers and booleans below a sensitive name, keeps every other scalar in place, and reports a change exactly when there is one |
| `RedactJson.RedactKeepsShape` | gateway/internal/redact/json.go:150-178 | names, nesting and lengths stay |
| `RedactJson.NothingSensitiveIsLeft` | gateway/internal/redact/json.go:150-178 | afterwards every scalar below a sensitive name is the marker or null |
| `RedactJson.RedactTwice` | gateway/internal/redact/json.go:150-178 | redacting again changes no value but reports a change again |
| `RedactJson.DetectsIff` | gateway/internal/redact/json.go:113-131 | detection says yes exactly when some scalar below a sensitive name is meaningful |
| `RedactJson.RegistersExactly` | gateway/internal/redact/json.go:52-69 | exactly the texts that redaction removes are registered |
| `RedactJson.DetectionAndRedaction` | gateway/internal/redact/json.go:105-178 | what is detected is changed by redaction; the redacted document is detected exactly when something was redacted |
| `RedactJson.RedactionVerdict` | gateway/internal/redact/json.go:150-178 | scalar by scalar of a whole document: below a sensitive name every string, number and boolean becomes the marker, and nothing else changes |
| `RedactJson.DetectionVerdict` | gateway/internal/redact/json.go:113-192 | detection finds exactly a boolean, a number or a string of more than eight characters, trimmed, below a sensitive name |
| `RedactJson.RegistrationVerdict` | gateway/internal/redact/json.go:52-69 | a text is registered exactly if it is the text of a string, number or boolean below a sensitive name |
| `RedactJson.RedactSensitiveJSONValue` | gateway/internal/redact/json.go:150-178 | rewrites the maps and slices of a document in place so that it stands for its redaction, writes to no other object, and replaces only scalars |
| `RedactJson.RedactArray` | gateway/internal/redact/json.go:162-171 | the loop over a slice stores exactly the changed items, and the slice then stands for the redacted items |
| `RedactJson.RedactObject` | gateway/internal/redact/json.go:152-161 | the loop over a map stores exactly the changed values under their names, and the map then stands for the redacted members |
| `RedactJson.RedactKid` | gateway/internal/redact/json.go:155-169 | redacting one child in place leaves every sibling as it was |
| `RedactJson.DecodeJSONDocument` | gateway/internal/redact/json.go:71-88 | decoding gives a fresh tree of maps and slices that stands for the document |
| `RedactJson.RedactSensitiveJSONScalars` | gateway/internal/redact/json.go:133-148 | decoding, redacting in place and encoding gives the redaction, and the document itself if nothing was redacted |
| `RedactJson.UnchangedIsSame` | gateway/internal/redact/json.go:140-142 | where no change is reported the document is its own redaction |
| `RedactJson.ContainsSensitiveJSONValue` | gateway/internal/redact/json.go:113-131 | the walk with early return computes the detection |
| `RedactJson.RegisterSensitiveJSONValue` | gateway/internal/redact/json.go:52-69 | the walk adds exactly the registered texts |
| `HandlerLoop.LoopKeepsPromise` | sdk/go/actions.go:453-519 | at every loop head every action delivered so far has been answered, and the safe resume position is that of the last safe event |
| `LoopOutcomes.LoopVerdict` | sdk/go/actions.go:453-519 | every run of the loop on a fresh stream: it takes the messages in order while the callbacks let it go on, and ends with the first event that they do not or where the stream gives none; its error and outcome follow from that event, the last safe one, and an action without an answer |
| `LoopOutcomes.RoundVerdict` | sdk/go/actions.go:467-517 | the loop goes on exactly after an answered action whose answer was accepted, or an event whose callback did not fail; else with which error it returns |
| `LoopOutcomes.NextGives` | sdk/go/events.go:428-473 | one call on the stream: a refused call takes nothing, the end is too early exactly if a run was expected to finish and did not, a message that cannot be read makes the stream unusable, any other is handed out in order |
| `LoopOutcomes.FatalIsFinal` | sdk/go/events.go:428-473 | after a fatal error nothing more is taken from the stream, and every later call gets this error |
| `LoopOutcomes.DecodeMeans` | sdk/go/events.go:475-560 | which event a message stands for, which of them wait for an answer, and behind which one can resume |
| `HandlerLoop.UnansweredActionEndsLoop` | sdk/go/actions.go:453-519 | an unanswered action is the last event, the loop returns an error, and the safe position is that of the events before it |
| `HandlerLoop.UnansweredActionComesAfterSafePoint` | sdk/go/actions.go:453-519 | with increasing ids the safe position lies strictly before an unanswered action, so resuming there brings it again |
| `HandlerLoop.SafePointPassesRequestIff` | sdk/go/pending_events.go:340-422 | the safe position passes an unanswered request exactly when it passes one with an unknown display |
| `HandlerLoop.SafePointCanPassRequest` | sdk/go/pending_events.go:340-422 | a concrete stream, a request with an unknown display and then a text event, whose reported position lies past the unanswered request |
| `HandlerLoop.RunHandlerLoop` | sdk/go/actions.go:453-519 | the loop returns the outcome and error of the loop function |
| `HandlerLoop.EventStream.NextEvent` | sdk/go/events.go:428-473 | stream state and result are those of the model, fatal errors stick |
| `HandlerLoop.EventStream.BeginReadMode` | sdk/go/events.go:658-669 | the first mode wins and the other is refused |
| `Keys.KeyIdentifiesIff` | gateway/internal/chatstate/store.go:747-771 | a joined key stands for one tuple of ids exactly when none of them contains NUL |

## Left out

- Event payloads: labels, their truncation and cloned payload records are one opaque `body`; delivery does not depend on them.
- Table keys: the models use tuples of ids, which is the same as the joined strings only for ids without NUL (`Keys.KeyIdentifiesIff`).
- Integer widths: event, subscriber and call ids and byte sums are unbounded; wrap-around of 64-bit counters is not modelled.
- ChatStream.StreamChatEvents: the method runs its sections back to back; `FindRun`, `JoinRun` and `ReadReplay` each hold from any state other callers leave, and what holds over all such runs is in `StreamModel`. Checking the request's ids and the caller's context is left out.
- RunStarters.StartChatRun: this and RunChatTurn run without interference; what other callers do between their store calls is in `StartsModel`, whose steps they are made of. Preparing the command and error texts are left out.
- PendingService.Service.ClaimChatPendingResponse: validating the answer is one yes or no; the wake-up of waiting duplicates through the `done` channel is liveness and not modelled.
- PendingProtocol.WritesAreSerial: a request is registered and tracked once, as its id is used once.
- Dispatching.OneFatePerCall: the waiting side of `Call`, with its context, timeout and close-on-uncertain branch, appears as a caller that may give up at any time; the line reader and JSON encoding are left out.
- Dispatching.ClosedMeansSettled: that a failed or timed out write is followed by its close is not modelled; the close is a step that may come at any time. The reader's own closes, after a contradiction or a duplicate request id, are.
- Supervision.CloseIsFinal: cancelling the connector is one of its outcomes.
- RedactJson.RedactSensitiveJSONValue: a document is a tree, as decoding makes it, so a map or slice that occurs twice is not covered; a map is walked in one order; parsing, printing, sensitive names and white space trimming are parameters or left out.
- PackagePath.ValidateWorkflowRelativePath: blank and reserved names are parameters, and the standard library's path cleaning is modelled by its documented rules.
- WorkflowPackage.FinalizeWorkflowPackage: the library sort is any sorted rearrangement, case folding and the secret scan are parameters, and the fingerprint is represented by the payload it is computed from.
- HandlerLoop.RunHandlerLoop: callbacks and the caller's context act by an arbitrary script, and raw reads of the stream appear only through the read mode.
- Diagnostics, status and capability snapshots, chat history and lookups, interrupting a run, and forwarding notifications: field copying or single checks on the same store.
- gRPC servers, protobuf mapping, configuration, process start, file and archive reading, digests and cursor signatures: input and output or library code.
