# Verified models of IDHAN's concurrent cores

IDHAN is a media server with a download engine. Several of its parts are small state machines
shared between threads: flags, counters, queues and ledgers, with little input or output once
the libraries below them are taken away. This project models those parts in Dafny and proves
what they are for.

Each part is one module:

- `Reactor`: who may pump a database connection, and when a request for a pump can be lost.
- `Operations`, `Pipeline`, `Wakes`, `Leases`: a database operation and its awaiter, the in-flight
  ledger against the server's result stream, that connection under its reactor, and the leases of
  transaction connections.
- `SseHub`: the event hub, its coalescing subscriber queues and its baton.
- `LanePolicy`, `LaneGate`, `ByteRing`, `Transfer`: request pacing, the timer-gated queue of a
  download lane, its byte-rate ring, and the redirect and retry driver that owns an import sink.
- `Session`, `Crew`, `Realms`, `Inbox`: the work ledger of a crawl session, the script runner's
  workers around it, script executions with the requests that point at them, and what becomes of
  results on their way to a worker that leaves.
- `Callbacks`: callbacks from module threads to the host, and the shutdown sweep.
- `NaturalOrder`, `StableSorting`, `UrlQuery`: the file-name order used for archives, and the
  storage form of a URL's query.
- `Common`: what several of these share.

A concurrent part is a datatype of its shared state, an `Apply` function with one event per
region under a mutex or per atomic operation, and a `Run` over any sequence of events. Events
that are not possible in a state leave it as it is, so a statement about all event sequences is
a statement about all interleavings. Beside it stands a class with the fields the source
updates; its methods are proved to do what the functions say. What the outside world answers
(the clock, curl, libpq, the URL library, the script engine, hosts and observers) is a
parameter or part of an event.

Beside what must never happen stands what does happen: what each main operation leads to from every
reachable state, as an exact condition, a round trip or a run to its end.

The state machines assume sequentially consistent atomics. In `Pipeline` the check of an
operation's phase and its sending are one step. `IDHANDb/README.md` lists transaction leases and
pipeline mode as not implemented; the code has both, and the models follow the code.

Six expected properties are not true of the code in general, and each comes with the condition
under which it is:

- A requested pump can be lost in `DBReactor::request`: `Reactor.DeliveryCondition`,
  `Reactor.OwedIsRecoverable`, `Reactor.LostWakeUp`; what that does to an enqueued operation:
  `Wakes.UnsentUntilNextWake`.
- The byte rate is wrong when an arrival's slot already holds a later bucket that is still live:
  `ByteRing.ExactCondition`, `ByteRing.StaleReadingDropsBytes`.
- Sorting a query can change its comparison key when a field starting with `?` comes to or leaves
  the front: `UrlQuery.SortKeepsKey`, `UrlQuery.KeyNeedsMark`, `UrlQuery.KeyChangesFor`,
  `UrlQuery.MarkAppears`.
- A stored snapshot comes back under another type when its type contains the separator:
  `SseHub.KeyRoundTrip`.
- An execution's outstanding count stays too high for results delivered after the script runner has
  stopped: `Realms.OutstandingIsExact`, `Realms.StopLeavesSurplus`.
- A session is not drained after the stop when an import's result was in the inbox of a worker that
  left: `Inbox.StaysExactlyWhenLost`, `Inbox.NeverDrained`, `Inbox.ImportIsLost`.

`dafny verify dfyconfig.toml` checks the whole project.

## Model

| member | source | states |
|---|---|---|
| Reactor.PumpIsExclusive | IDHANDb/src/DBReactor.cpp:74-94 | in every interleaving of any number of requests and worker tasks, at most one of them is inside the pump of one watch |
| Reactor.RunKeepsOneHolder | IDHANDb/src/DBReactor.cpp:74-94 | `scheduled` is set exactly while one activity holds the right to pump, and only one ever holds it |
| Reactor.ComesToRest | IDHANDb/src/DBReactor.cpp:74-94 | the protocol does not spin: in every interleaving at most fourteen lines are executed and at most two pumps started for each request |
| Reactor.DeliveryCondition | IDHANDb/src/DBReactor.cpp:74-94 | once all activities have finished, a request without a pump after it always comes from a worker that left at line 91 past a holder already pumping, with a request owed and no pump afterwards: there is no other way to lose one |
| Reactor.NoBusyExitDelivers | IDHANDb/src/DBReactor.cpp:74-94 | no request is lost in a run in which no worker takes the line 91 exit while the holder is past line 83 |
| Reactor.OwedMeansUndelivered | IDHANDb/src/DBReactor.cpp:74-94 | the flag that follows a run step by step says the same as the statement quantified over all its requests |
| Reactor.UncoveredWasLost | IDHANDb/src/DBReactor.cpp:74-94 | a request that nobody is on the way to serve was lost at one particular line 91 exit |
| Reactor.StrandedNeverPumps | IDHANDb/src/DBReactor.cpp:74-94 | from a stranded state no pump ever starts again without a new request |
| Reactor.UnstrandedCanPump | IDHANDb/src/DBReactor.cpp:74-94 | from every other state some activity can still start a pump without a new request |
| Reactor.OwedIsRecoverable | IDHANDb/src/DBReactor.cpp:74-94 | an owed request can still get a pump without a new request if and only if the watch is not stranded: if it is, no schedule of the activities serves it |
| Reactor.LostWakeUp | IDHANDb/src/DBReactor.cpp:74-94 | a complete run of three activities in which a request gets no pump |
| Reactor.SharedWatch.Raise | IDHANDb/src/DBReactor.cpp:76-76 | the store of `pending` is the Request step of the machine |
| Reactor.SharedWatch.Advance | IDHANDb/src/DBReactor.cpp:77-92 | each atomic operation of the exchange and the worker loop is the Advance step of the machine |
| Operations.EndedHoldsNobody | IDHANDb/src/DBOperation.cpp:122-149 | in every run an operation that is completed or cancelled by its consumer holds no parked continuation |
| Operations.ContinuationsConserved | IDHANDb/src/DBOperation.cpp:216-255 | for every continuation, accepted registrations = resumptions + unregistrations + the one parked now |
| Operations.ResumedOnce | IDHANDb/src/DBTask.cpp:17-44 | a continuation registered once and not unregistered is resumed at most once, and exactly once when the operation has ended |
| Operations.AnswerIsFinal | IDHANDb/src/DBOperation.cpp:151-159 | after the end of an operation nothing but taking the rows changes what takeResult gives, and after that the rows are gone |
| Operations.RowsOnce | IDHANDb/src/DBOperation.cpp:151-159 | in every run the rows are handed out at most once, and whoever asks again gets the completed-without-a-result error |
| Operations.EndsExactly | IDHANDb/src/DBOperation.cpp:122-149 | an operation ends by the completion of a sent one, by a failure and by its consumer giving up, and in no other way |
| Operations.EndIsSeen | IDHANDb/src/DBOperation.cpp:216-232 | a consumer that gives an unfinished operation up sees the cancellation, and one whose connection failed sees that failure |
| Operations.AnswerIsSeen | IDHANDb/src/DBOperation.cpp:100-120 | the rows the server sent, or the error of a query it failed, are what takeResult gives once the operation is complete |
| Operations.AcceptDecides | IDHANDb/src/DBOperation.cpp:100-109 | a result is taken in exactly by an operation that has been sent and has none |
| Operations.AwaitedIsResumed | IDHANDb/src/DBOperation.cpp:237-255 | whoever awaits an operation that nobody else awaits is accepted, and is resumed by the event that ends it, or at once |
| Operations.SharedOperation.Begin | IDHANDb/src/DBOperation.cpp:53-64 | start hands the operation over the first time only |
| Operations.SharedOperation.AcceptRows | IDHANDb/src/DBOperation.cpp:100-109 | a result is kept only by an operation that has been sent and has none, and makes it wait for its sync |
| Operations.SharedOperation.Finish | IDHANDb/src/DBOperation.cpp:122-134 | completion ends the operation and takes its continuation out |
| Operations.SharedOperation.GiveUp | IDHANDb/src/DBOperation.cpp:216-232 | abandoning completes an unsent operation and marks a sent one cancelled |
| Operations.SharedOperation.Park | IDHANDb/src/DBOperation.cpp:237-249 | a continuation is parked only while the operation is unfinished, and is resumed at once otherwise |
| Operations.SharedOperation.TakeRows | IDHANDb/src/DBOperation.cpp:151-159 | takeResult gives what Take says by its case order and is the Takes step, which moves the rows out |
| Operations.SharedOperation.DropAwaiter | IDHANDb/src/DBTask.cpp:17-44 | an awaiter that goes away unregisters and then abandons, and resumes nobody |
| Pipeline.StepKeeps | IDHANDb/src/DBConnection.cpp:210-301 | start, enqueue, dispatch, every kind of read, abandoning and awaiting keep the unread stream aligned with the in-flight ledger, and keep apart what is on its way in, what enqueue refused and what the connection has |
| Pipeline.RunKeeps | IDHANDb/src/DBConnection.cpp:210-301 | the alignment holds in every reachable state, in pipeline mode and without it |
| Pipeline.OwnAnswerInOrder | IDHANDb/src/DBConnection.cpp:71-89 | operations complete once each in the order they were sent, each with the server's answer to its own query, which is what its consumer gets unless it gave up; `sent` is the in-flight length |
| Pipeline.NeverThrows | IDHANDb/src/DBConnection.cpp:259-284 | no interleaving makes the pump raise the missing ledger entry error or an out-of-phase error of the operation it sends, answers or completes |
| Pipeline.RefusedExactly | IDHANDb/src/DBOperation.cpp:66-72 | in every run enqueue throws for an operation exactly when its consumer abandoned it after start, and otherwise puts it at the end of the queue; those refused never come to the connection |
| Pipeline.LedgerEmptyWithStream | IDHANDb/src/DBConnection.cpp:233-257 | the unread stream is empty exactly when nothing is in flight |
| Pipeline.CancelledNeverSent | IDHANDb/src/DBConnection.cpp:214-223 | an operation abandoned before it was sent is never sent, and stays completed |
| Pipeline.AbandonedEarlyNeverSent | IDHANDb/src/DBConnection.cpp:172-183 | an operation abandoned between start and enqueue is never queued or sent, whatever happens later |
| Pipeline.ConsumerIsHeard | IDHANDb/src/DBOperation.cpp:216-255 | in every run what a consumer does to an operation that is queued, sent or on its way in is done to it and to nothing else |
| Pipeline.AbandonedWhileQueued | IDHANDb/src/DBConnection.cpp:220-224 | an operation abandoned while it is queued raises the cancellation and is never sent, whatever follows |
| Pipeline.PumpAnswers | IDHANDb/src/DBConnection.cpp:210-291 | a pump whose budget covers the queue and the stream leaves nothing of either: everything in flight or queued and not given up has completed, in order, with its own answer |
| Pipeline.PumpMoves | IDHANDb/src/DBConnection.cpp:210-291 | a pump with any budget takes the head of the queue whenever it may and reads whenever something is due, and what stays in flight is what the rest of the stream completes |
| Pipeline.SubmittedIsAnswered | IDHANDb/src/DBConnection.cpp:172-291 | from every reachable state an operation that is started and enqueued leaves the next pump completed with the answer to its query, if the budget covers what there is |
| Pipeline.QueuedIsAnswered | IDHANDb/src/DBConnection.cpp:210-291 | so does every queued operation nobody gave up |
| Pipeline.SharedConnection.StartOperation | IDHANDb/src/DBOperation.cpp:53-64 | start is the Begin step: the operation is queued in phase and on its way in |
| Pipeline.SharedConnection.EnqueueOperation | IDHANDb/src/DBConnection.cpp:172-183 | enqueue is the Enqueue step, and throws exactly when markQueued does |
| Pipeline.SharedConnection.PopDispatchable | IDHANDb/src/DBConnection.cpp:435-446 | the head of the queue is taken, outside pipeline mode only when nothing is in flight |
| Pipeline.SharedConnection.RetireHead | IDHANDb/src/DBConnection.cpp:78-89 | the oldest in-flight operation leaves the ledger and `sent` goes down with it |
| Pipeline.SharedConnection.DispatchNext | IDHANDb/src/DBConnection.cpp:214-227 | one turn of the dispatch loop is the Dispatch step, and the loop goes on exactly when there was an operation to pop |
| Pipeline.SharedConnection.ReadNext | IDHANDb/src/DBConnection.cpp:236-290 | one turn of the result loop is the Read step, and the loop breaks off exactly at a delimiter that ends the round |
| Pipeline.SharedConnection.PumpConnected | IDHANDb/src/DBConnection.cpp:210-291 | a pump takes as many operations off the queue as its budget and mode allow, sends exactly those not given up, in order, and reads as much of the result stream as its budget allows |
| Wakes.UnsentUntilNextWake | IDHANDb/src/DBConnection.cpp:172-188 | an operation queued while nothing under way leads to a pump stays queued and unsent until somebody requests again, whatever else happens |
| Wakes.OperationLeftBehind | IDHANDb/src/DBConnection.cpp:172-188 | a run in which an operation is enqueued, its pump requested, every activity finishes and it is left queued and unsent |
| Wakes.NextWakeSends | IDHANDb/src/DBConnection.cpp:185-227 | a new request from rest reaches the pump, which sends the head of the queue |
| Leases.OnePlaceEach | IDHANDb/src/DBPool.cpp:69-113 | in every run each transaction connection is in exactly one of the queue, a BEGIN, one unfinished transaction or a return under way, and the returned-more-than-once error is never raised |
| Leases.AllLeasesReturn | IDHANDb/src/DBTransaction.cpp:40-85 | when no BEGIN, finalizing coroutine or transaction object is left, every lease is back in the queue, whether it ended by commit, rollback, a failed finalize, destruction or being assigned over |
| Leases.LeaseIsHandedOut | IDHANDb/src/DBPool.cpp:79-113 | whoever asks while a lease is free gets the one that has been free longest, as an active transaction once BEGIN is answered; a failed BEGIN puts it at the end of the queue |
| Leases.EndedTransactionReturns | IDHANDb/src/DBTransaction.cpp:40-85 | finalizing an active transaction, or destroying its handle, puts its lease at the end of the queue once the answer has come, and changes nothing else |
| Leases.EndedOnlyOnce | IDHANDb/src/DBTransaction.cpp:125-152 | a transaction that is not active cannot be ended again |
| Leases.HandleMoves | IDHANDb/src/DBTransaction.cpp:102-116 | moving a handle hands its transaction over, and ends the active one the target held |
| Leases.LeaseCanReturn | IDHANDb/src/DBTransaction.cpp:40-85 | no lease can get stuck: from every reachable state there are events that bring any connection back to the queue |
| Leases.RunHomes | IDHANDb/src/DBTransaction.cpp:106-152 | one map gives the place of every connection in every reachable pool, with nothing else anywhere |
| Leases.RoomForAnother | IDHANDb/src/DBPool.cpp:107-111 | a connection that is not in the bounded queue always finds room there |
| Leases.SharedTransaction.ClaimFinalizing | IDHANDb/src/DBTransaction.cpp:68-81 | only the first of commit, rollback and destruction becomes the finalizer |
| Leases.SharedTransaction.ReleaseLease | IDHANDb/src/DBTransaction.cpp:40-52 | the lease is given back the first time and never again |
| Leases.ChooseConnection | IDHANDb/src/DBPool.cpp:125-138 | the chosen connection has the least unfinished work, is the first such one going round from the tie mark, and the mark moves just past it |
| SseHub.ReplayAgrees | IDHANHttp/src/SSEEventHub.cpp:148-270 | for every interleaving, folding what a subscriber was delivered and still has queued gives the same map as folding the whole uncoalesced log since it subscribed |
| SseHub.RunSound | IDHANHttp/src/SSEEventHub.cpp:56-304 | every step of the hub keeps every stream's queue settled, ordered, faithful to its log and consistent with its flags |
| SseHub.CoalesceFold | IDHANHttp/src/SSEEventHub.cpp:222-234 | replacing the queued update in place folds to the same map as appending the new one |
| SseHub.CoalesceSettled | IDHANHttp/src/SSEEventHub.cpp:222-234 | after a push nothing behind a queued update speaks about the same type and entity |
| SseHub.OnePendingUpdate | IDHANHttp/src/SSEEventHub.cpp:222-234 | at most one update per type and entity is ever queued |
| SseHub.DeliveredInOrder | IDHANHttp/src/SSEEventHub.cpp:215-237 | the updates delivered for one type and entity have strictly increasing sequence numbers |
| SseHub.ParkedHasNothing | IDHANHttp/src/SSEEventHub.cpp:56-80 | a consumer parked on an unposted baton has an empty queue and an open subscription |
| SseHub.ShutdownIsLast | IDHANHttp/src/SSEEventHub.cpp:290-304 | after shutdown a stream its consumer did not close ends in exactly one shutdown event, also when it was opened later; no other stream carries one |
| SseHub.NextDelivers | IDHANHttp/src/SSEEventHub.cpp:56-80 | as many calls of next as there are queued events hand out exactly these, in order, and leave the queue empty without touching another stream; one more ends a closed stream and parks on an open one |
| SseHub.HeartbeatReaches | IDHANHttp/src/SSEEventHub.cpp:277-288 | a heartbeat gives every open stream with an empty queue one keepalive and changes no other, so afterwards no open consumer sleeps |
| SseHub.ClosedIsLeftAlone | IDHANHttp/src/SSEEventHub.cpp:82-91 | closing a subscription wakes its consumer, and nothing is queued for it or delivered to it in any continuation |
| SseHub.RetainsTheLast | IDHANHttp/src/SSEEventHub.cpp:207-270 | the hub retains a snapshot under a key exactly when the last publication or removal under that key was a retained publication, and then that snapshot |
| SseHub.SubscribeJoins | IDHANHttp/src/SSEEventHub.cpp:148-205 | every subscription joins the hub with exactly the retained snapshots it selects if it asked for them, its own initial events in order and the marker; after shutdown with one shutdown event and closed |
| SseHub.SelectorLaw | IDHANHttp/src/SSEEventHub.cpp:11-24 | a selector ending in `.*` selects the types that begin with what stands before the star, any other just the type it names |
| SseHub.LateJoinersAgree | IDHANHttp/src/SSEEventHub.cpp:148-205 | however late it joined, an open stream that asked for stored snapshots and brought no initial event contradicting one shows exactly the retained snapshot of every retained key it selects |
| SseHub.GreetingAgrees | IDHANHttp/src/SSEEventHub.cpp:166-202 | the events sent on subscribing already show the retained state |
| SseHub.BroadcastAgrees | IDHANHttp/src/SSEEventHub.cpp:207-270 | a publication or removal changes the view exactly as it changes the retained snapshots |
| SseHub.KeyRoundTrip | IDHANHttp/src/SSEEventHub.cpp:26-29 | reading a stored key gives back its type and entity if and only if the type holds no separator |
| SseHub.SplitKeyInjective | IDHANHttp/src/SSEEventHub.cpp:170-172 | two stored keys that read the same are the same |
| SseHub.MatchesType | IDHANHttp/src/SSEEventHub.cpp:11-24 | the selector loop decides equality or a prefix selector, and an empty list selects everything |
| SseHub.SharedSubscriber.Push | IDHANHttp/src/SSEEventHub.cpp:222-235 | find, then replace or append, and post |
| SseHub.SharedSubscriber.TakeNext | IDHANHttp/src/SSEEventHub.cpp:61-74 | the locked region of next takes the head of the queue out and gives it, ends the stream when it is empty and closed, or resets the baton and parks |
| SseHub.EventHub.OfferAll | IDHANHttp/src/SSEEventHub.cpp:217-236 | every open matching subscriber is offered the update and no other changes |
| SseHub.EventHub.PublishSnapshot | IDHANHttp/src/SSEEventHub.cpp:207-237 | publish is the Publish step on the retained snapshots, the sequence number and every queue |
| SseHub.EventHub.RemoveSnapshot | IDHANHttp/src/SSEEventHub.cpp:244-270 | remove is the Remove step |
| SseHub.EventHub.BeatAll | IDHANHttp/src/SSEEventHub.cpp:277-288 | a heartbeat reaches exactly the open subscribers with empty queues |
| SseHub.EventHub.ShutDownAll | IDHANHttp/src/SSEEventHub.cpp:290-304 | shutdown runs once and closes every open subscriber behind one shutdown event |
| SseHub.EventHub.SubscribeEvents | IDHANHttp/src/SSEEventHub.cpp:148-205 | the new subscriber holds the selected stored snapshots, the initial events and the marker, or just a shutdown event |
| SseHub.EventHub.CloseSubscription | IDHANHttp/src/SSEEventHub.cpp:82-91 | closing detaches exactly this subscriber and wakes its consumer |
| LanePolicy.GrantsAreSpaced | IDHANDownloader/src/http/LanePolicy.cpp:104-140 | without reset or reconfiguration, any n+1 granted claims span strictly more than n-1 times min(base, maximum), whatever claims, failures and limits lie between |
| LanePolicy.RunSpaced | IDHANDownloader/src/http/LanePolicy.cpp:104-140 | the spacing is an invariant of every such run, with no order assumed among the callers' clocks |
| LanePolicy.ClaimLaw | IDHANDownloader/src/http/LanePolicy.cpp:104-114 | after any run a claim is granted exactly when its slot is due; less than an interval late it leaves the next slot one interval after its own, later than that one interval from now, and refused it changes nothing |
| LanePolicy.CadenceIsKept | IDHANDownloader/src/http/LanePolicy.cpp:110-112 | prompt claims keep the cadence: the next slot is exactly as many intervals on as claims were granted, however late within their slots they came |
| LanePolicy.SlotIsExplained | IDHANDownloader/src/http/LanePolicy.cpp:104-168 | in every run without reset or reconfiguration the next slot is where it began, at the end of the pause, or at most the interval of the last grant after that grant |
| LanePolicy.BackoffLaw | IDHANDownloader/src/http/LanePolicy.cpp:117-168 | the interval after any run is min(maximum, base doubled once per failure that found no pause open), from one second for base zero, and the count is the number of those failures up to its limit |
| LanePolicy.WidenStep | IDHANDownloader/src/http/LanePolicy.cpp:117-124 | widening moves the closed form one step on |
| LanePolicy.NoGrantInPause | IDHANDownloader/src/http/LanePolicy.cpp:104-140 | no claim is granted during a pause, in any run |
| LanePolicy.RunSane | IDHANDownloader/src/http/LanePolicy.cpp:127-140 | the next slot never falls below the end of the pause, and the interval stays within its bounds |
| LanePolicy.OpenPauseAbsorbs | IDHANDownloader/src/http/LanePolicy.cpp:127-162 | a failure or limit inside an open pause changes neither interval nor count and never shortens the pause |
| LanePolicy.FreshPause | IDHANDownloader/src/http/LanePolicy.cpp:127-168 | a fresh failure pauses for the larger of the widened interval and the error backoff; a Retry-After replaces that, but not below the base interval (RFC 9110, section 10.2.3) |
| LanePolicy.HostNamesThePause | IDHANDownloader/src/http/LanePolicy.cpp:152-160 | a Retry-After sets the end of the pause by itself, whether or not one is open, and only puts it off |
| LanePolicy.FreshStart | IDHANDownloader/src/http/LanePolicy.cpp:57-69 | a reset is a configuration with the settings the policy has, and after either every claim is granted at once and the backoff starts anew |
| LanePolicy.RateInterval | IDHANDownloader/src/http/LanePolicy.cpp:15-26 | the interval is the spacing of the configured rate, rounded down and never zero; a rate with a zero has none |
| LanePolicy.SharedPolicy.TryClaim | IDHANDownloader/src/http/LanePolicy.cpp:104-114 | a claim is granted exactly when the slot is due, and otherwise told how long to wait; a granted one keeps the cadence |
| LanePolicy.SharedPolicy.ConfigureSettings | IDHANDownloader/src/http/LanePolicy.cpp:57-69 | new settings start from scratch, and a rate with a zero is rejected without changing anything |
| LanePolicy.SharedPolicy.Limited | IDHANDownloader/src/http/LanePolicy.cpp:142-162 | limited is the Limit step and returns what is left of the pause |
| LanePolicy.SharedPolicy.Failed | IDHANDownloader/src/http/LanePolicy.cpp:164-168 | failed is the Fail step |
| LanePolicy.SharedPolicy.ResetBackoff | IDHANDownloader/src/http/LanePolicy.cpp:176-184 | reset is the Reset step and moves the generation on |
| LaneGate.NoLostWakeUp | IDHANDownloader/src/http/Lane.cpp:137-195 | whenever no thread is between a change and its pump, a running lane with queued requests and room in flight has an armed gate and an outstanding timer with exactly its deadline, at most the claim-to-arm delay after the policy's next slot |
| LaneGate.RunAwake | IDHANDownloader/src/http/Lane.cpp:137-195 | this holds in every interleaving with stale, replaced and equal-deadline timers and with policy changes in the middle of a pump |
| LaneGate.WakeUpDispatches | IDHANDownloader/src/http/Lane.cpp:148-194 | from such a state the timer, fired with the slot open, leads to the dispatch of the head of the queue |
| LaneGate.TimersAreForSlots | IDHANDownloader/src/http/Lane.cpp:137-163 | no timer is set without need: each was posted for a slot a pump with a request was told to wait for, not before it and at most the claim-to-arm delay after it |
| LaneGate.ArmKeepsTheEarliest | IDHANDownloader/src/http/Lane.cpp:137-146 | arming adds a timer only for an earlier deadline, a new policy generation or an open gate |
| LaneGate.DispatchesAreSpaced | IDHANDownloader/src/http/Lane.cpp:165-195 | in every run without a reset any n+1 dispatches of the lane span strictly more than n-1 times min(base, maximum) |
| LaneGate.SubmittedIsDispatched | IDHANDownloader/src/http/Lane.cpp:26-43 | a request submitted to a running lane joins the queue, and with a place and an open slot the pump it brings along dispatches the head |
| LaneGate.FinishedFreesAPlace | IDHANDownloader/src/http/Lane.cpp:89-98 | a finished transfer frees its place and brings a pump along |
| LaneGate.CancelTakesItsOwn | IDHANDownloader/src/http/Lane.cpp:48-69 | cancelling takes exactly the queued requests of its token out |
| LaneGate.ShutdownIsFinal | IDHANDownloader/src/http/Lane.cpp:234-247 | after shutdown nothing is accepted or dispatched in any continuation |
| LaneGate.DispatchOrder | IDHANDownloader/src/http/Lane.cpp:26-98 | requests are dispatched in submit order, leaving out exactly those cancelled while queued or cut off by shutdown; the in-flight count is the number of unfinished transfers and never exceeds the ceiling |
| LaneGate.PumpIsRun | IDHANDownloader/src/http/Lane.cpp:165-195 | an uninterrupted pump is a run of the step machine, with the same lane, policy and timers at its end |
| LaneGate.Grow | IDHANDownloader/src/http/Lane.cpp:100-123 | there is a shard after growing, never more than the maximum or one, so the pump's empty-shards exit is dead |
| LaneGate.PickShard | IDHANDownloader/src/http/Lane.cpp:125-135 | the first of the least loaded shards |
| LaneGate.SharedLane.Enqueue | IDHANDownloader/src/http/Lane.cpp:26-43 | a request joins the end of the queue unless the lane is stopped |
| LaneGate.SharedLane.CancelQueued | IDHANDownloader/src/http/Lane.cpp:48-69 | exactly the queued entries of one cancellation token are taken out, and the rest keep their order |
| LaneGate.SharedLane.TransferFinished | IDHANDownloader/src/http/Lane.cpp:89-95 | the lane part of the Finished step, after which the in-flight count is the number of the other running transfers |
| LaneGate.SharedLane.TimerFired | IDHANDownloader/src/http/Lane.cpp:150-161 | only the timer whose deadline is on the gate disarms it and goes on to pump |
| LaneGate.SharedLane.Arm | IDHANDownloader/src/http/Lane.cpp:137-163 | an earlier wakeup of the same generation is kept, anything else is replaced by a new timer |
| LaneGate.SharedLane.GrowIfNeeded | IDHANDownloader/src/http/Lane.cpp:100-123 | growIfNeeded is Grow |
| LaneGate.SharedLane.Drain | IDHANDownloader/src/http/Lane.cpp:165-195 | the pump loop ends in the lane, policy and timer that PumpAll defines |
| LaneGate.SharedLane.Stop | IDHANDownloader/src/http/Lane.cpp:234-247 | shutdown empties the queue and the shards once and keeps the lane stopped |
| ByteRing.ExactCondition | IDHANDownloader/src/http/Lane.cpp:206-232 | the reported rate equals the sum over the full arrival history at every later time, all along a history, if and only if every arrival finds its slot on its own bucket or without live bytes |
| ByteRing.OrderedIsExact | IDHANDownloader/src/http/Lane.cpp:206-232 | for non-decreasing arrival times the report is always the exact sum of the last second |
| ByteRing.SlotExact | IDHANDownloader/src/http/Lane.cpp:206-232 | slot reuse never drops a live bucket and never counts a dead one |
| ByteRing.LateIsWrong | IDHANDownloader/src/http/Lane.cpp:208-215 | the first arrival that throws live bytes out makes the report wrong at once |
| ByteRing.StaleReadingDropsBytes | IDHANDownloader/src/http/Lane.cpp:208-215 | two arrivals, the second with a clock reading a second older, for which the report is wrong |
| ByteRing.DownloadSamples.Receive | IDHANDownloader/src/http/Lane.cpp:206-216 | one arrival updates one slot of the array |
| ByteRing.DownloadSamples.BytesPerSecond | IDHANDownloader/src/http/Lane.cpp:225-231 | the loop sums the slots whose bucket started less than a second ago |
| Transfer.OneCallbackOneOwner | IDHANDownloader/src/http/LanePool.cpp:184-379 | across redirects, 429 retries, cancellation and shutdown the callback runs at most once; the sink has one owner until it is settled, is settled once and never touched again, and ends finished exactly when the caller got a success and aborted otherwise |
| Transfer.RunOwned | IDHANDownloader/src/http/LaneShard.cpp:371-521 | every step of the pool, the lane and the shard keeps that ownership |
| Transfer.FinishDecides | IDHANDownloader/src/http/LaneShard.cpp:371-494 | in every reachable state the end of a transfer that went well is answered with curl's status and URL, and its sink is finished by a status from 200 to 299 and handed back by any other; one that did not is a failure and its sink is aborted |
| Transfer.ImportedExactly | IDHANDownloader/src/http/LaneShard.cpp:417-486 | the sink is finished exactly when some transfer into it ended with curl succeeding, no sink error, a success status, a file and an import that went through |
| Transfer.ToldWhatCurlSaid | IDHANDownloader/src/http/LaneShard.cpp:433-494 | the caller is never told a status and URL that no transfer of the send ended well with |
| Transfer.WriteDecides | IDHANDownloader/src/http/LaneShard.cpp:132-173 | under a success status a chunk goes to the sink and a refusal is remembered, under any other the sink does not see it, and without a sink only the limit counts |
| Transfer.DispatchDecides | IDHANDownloader/src/http/LanePool.cpp:184-254 | a cancelled send, an invalid URL and a stopped pool are answered at once, a stopped lane fails the hop, and otherwise it is queued with the sink |
| Transfer.CompleteDecides | IDHANDownloader/src/http/LanePool.cpp:256-379 | a failure is delivered, a 429 asks again with the same sink, a redirect with a location within the maximum goes to the next URL, and anything else is delivered |
| Transfer.DownloadSucceeds | IDHANDownloader/src/http/LaneShard.cpp:371-494 | from every reachable state at the pool a hop answered with success ends the send: one callback, the body in the sink, the sink finished |
| Transfer.DroppedIsFailed | IDHANDownloader/src/http/LaneShard.cpp:224-234 | a hop dropped from the queue, refused at its start or interrupted fails and aborts its sink |
| Transfer.RedirectTrail | IDHANDownloader/src/http/LanePool.cpp:332-364 | recorded hops are the redirects followed, at most the maximum, and alone decide the verb and whether the body is still sent (RFC 9110, section 15.4) |
| Transfer.RetryStartsOver | IDHANDownloader/src/http/LanePool.cpp:321-330 | a hop answered 429 leaves the whole send exactly as it was before the hop |
| Transfer.RedirectMovesOn | IDHANDownloader/src/http/LanePool.cpp:352-378 | a followed redirect keeps the sink, records the answering URL and status, and asks the new URL next |
| Transfer.HopReturns | IDHANDownloader/src/http/LaneShard.cpp:443-447 | a hop without success comes back with the sink as it was |
| Transfer.CancelledStartsNothing | IDHANDownloader/src/http/LaneShard.cpp:224-234 | a send cancelled while no transfer of it runs never starts another, neither from the queue nor for a redirect or a retry |
| Transfer.CancelStops | IDHANDownloader/src/http/LaneShard.cpp:224-234 | setting the cancellation flag while no transfer runs means none ever runs again |
| Transfer.SinkIsUntouched | IDHANDownloader/src/http/LaneShard.cpp:60-64 | as long as curl reports one status per transfer, an open sink has bytes in it only inside a successful final transfer |
| Transfer.Exchange.DispatchHop | IDHANDownloader/src/http/LanePool.cpp:184-254 | dispatch aborts and calls back for a cancelled send, an invalid URL or a stopped pool, and otherwise moves the sink into the hop |
| Transfer.Exchange.WriteChunk | IDHANDownloader/src/http/LaneShard.cpp:132-173 | bytes reach the sink only under a success status, and only a sinkless response can run over its limit |
| Transfer.Exchange.FinishTransfer | IDHANDownloader/src/http/LaneShard.cpp:371-494 | finish aborts, hands back or finishes the sink by its case order and answers the hop once |
| Transfer.Exchange.CompleteHop | IDHANDownloader/src/http/LanePool.cpp:256-379 | complete delivers, retries or redirects |
| Transfer.Exchange.FollowRedirect | IDHANDownloader/src/http/LanePool.cpp:352-378 | the hop is recorded and the verb and body rewritten |
| Session.CountersAreTrue | IDHANDownloader/src/SessionContext.cpp:89-219 | in every interleaving m_outstanding, m_queued and m_starting are the true numbers of live works, works not begun and reserved slots, so no guarded decrement is ever lost |
| Session.RetirementsAreUnique | IDHANDownloader/src/SessionContext.cpp:177-219 | each work is retired at most once, whichever of begin failure, release, discard, refused submit or stop ends it |
| Session.OfferDecides | IDHANDownloader/src/js/ScriptRunner.cpp:198-206 | a counted work is queued exactly when the runner runs and the session is neither cancelled nor closed, and refused otherwise |
| Session.TakeDecides | IDHANDownloader/src/SessionContext.cpp:153-163 | a queued work may start exactly when its session takes work and its pending requests and reserved slots are below the limit |
| Session.WorkReachesItsScript | IDHANDownloader/src/js/ScriptRunner.cpp:97-126 | from every reachable state with room, a new work that is enqueued, taken and begun has its execution, its start slot is free again and no other work is touched |
| Session.ScriptIsRetired | IDHANDownloader/src/SessionContext.cpp:177-187 | a work whose script has finished is retired, and the counters are as before it came |
| Session.LeftoverIsRetired | IDHANDownloader/src/SessionContext.cpp:210-219 | a refused or dropped work is counted out and retired |
| Session.FailedStartIsRetired | IDHANDownloader/src/js/ScriptRunner.cpp:108-113 | so is one whose execution could not begin |
| Session.ShutForGood | IDHANDownloader/src/SessionContext.cpp:117-134 | after cancel, close or stop no work is ever queued again |
| Crew.StopRetiresEverything | IDHANDownloader/src/js/ScriptRunner.cpp:149-196 | once stop has emptied the queue and nobody is inside enqueue, discard or retire, every work ever counted in has been retired exactly once, wherever a worker had it when the runner stopped, and all counters are zero |
| Crew.ExitedHoldNothing | IDHANDownloader/src/js/ScriptRunner.cpp:149-162 | when all workers have exited, no work is taken, begun or resident and no start slot is reserved |
| Crew.WorkersGoOn | IDHANDownloader/src/js/ScriptRunner.cpp:181-186 | after the stop every worker that has not exited can take its next step or is inside retire, so the joins wait for nothing else |
| Crew.WorkersGetOut | IDHANDownloader/src/js/ScriptRunner.cpp:88-162 | after the stop a worker takes at most ten steps of its own and three per resident, in every interleaving, and has exited exactly when its bound is used up |
| Crew.StopCanFinish | IDHANDownloader/src/js/ScriptRunner.cpp:181-196 | from every reachable state after the stop there are steps after which all workers have exited and the queue is emptied |
| Crew.WaitingIsTakenIn | IDHANDownloader/src/js/ScriptRunner.cpp:100-126 | in every reachable state of a running runner a looping worker can take in any waiting work its session has room for |
| Crew.ResidentIsLetOut | IDHANDownloader/src/js/ScriptRunner.cpp:128-147 | a resident that has finished is released by its worker and retired, and the others stay |
| Crew.RunIsLedgerRun | IDHANDownloader/src/js/ScriptRunner.cpp:53-162 | with its workers the runner does nothing the ledger could not do, so the ledger's laws hold of it |
| Crew.ScriptWorker.AdvanceAll | IDHANDownloader/src/js/ScriptRunner.cpp:128-137 | one pass is ReleaseAt and ReleaseDone steps that release exactly the finished residents and keep the others in order, although releasing moves the rest forward |
| Crew.ScriptWorker.ReleaseIndex | IDHANDownloader/src/js/ScriptRunner.cpp:139-147 | the ReleaseAt step of the worker, after which the others keep their order |
| Crew.ScriptWorker.DiscardAll | IDHANDownloader/src/js/ScriptRunner.cpp:149-162 | the worker part of one DiscardNext step per resident, in order, and the exit |
| Session.NothingQueuedAfterClose | IDHANDownloader/src/js/ScriptRunner.cpp:198-257 | once the discard of cancel or close has run, no work of the session is queued and none can become queued |
| Session.OneFollowPerKey | IDHANDownloader/src/SessionContext.cpp:573-663 | a comparison key is reported QUEUED at most once in the session's life, however many followers race |
| Session.DrainIsReported | IDHANDownloader/src/SessionContext.cpp:189-208 | when no thread is about to report, a session that ever had work stands reported as drained exactly when all of it is retired and no request is pending |
| Session.ReportsSettle | IDHANDownloader/src/SessionContext.cpp:189-208 | when the threads about to report have reported, the session stands drained exactly when it is, and nothing else has changed |
| Session.RequestsConserved | IDHANDownloader/src/SessionContext.cpp:686-776 | in every run the requests tracked are those settled or abandoned and those pending |
| Session.SharedCounters.CountWorkIn | IDHANDownloader/src/SessionContext.cpp:95-101 | enqueue's region is the CountIn step of the ledger, after which the counters are the sizes of the queued and live sets with the new work |
| Session.SharedCounters.ReserveStart | IDHANDownloader/src/SessionContext.cpp:153-163 | a slot is reserved exactly when the Take step takes the work, and the fields follow that step |
| Session.SharedCounters.ReleaseReserved | IDHANDownloader/src/SessionContext.cpp:170-175 | the ReleaseStart step; the guard never bites, and one reserved slot fewer is left |
| Session.SharedCounters.CountQueuedOut | IDHANDownloader/src/SessionContext.cpp:210-216 | the Begin or CountOut step; the guard never bites, and the count is the size of the queued set without this work |
| Session.SharedCounters.RetireWork | IDHANDownloader/src/SessionContext.cpp:177-183 | the Retire step, after which the count is the size of the live set without this work |
| Session.SharedCounters.ReportIfIdle | IDHANDownloader/src/SessionContext.cpp:189-201 | the Report step, and true exactly for the report that announces |
| Session.OneAnnouncement | IDHANDownloader/src/SessionContext.cpp:189-208 | between two announcements that the session has drained new work was counted in, however many threads report |
| Session.SharedCounters.ClaimKey | IDHANDownloader/src/SessionContext.cpp:634-638 | the Claim step, and true exactly for the follower that wins the key |
| Session.ExactlyOneWins | IDHANDownloader/src/SessionContext.cpp:573-644 | of all the followers of a key that nobody explored or enqueued before, exactly one wins it: the first to claim |
| Session.SeenIsNotWon | IDHANDownloader/src/SessionContext.cpp:573-644 | a key that was explored or enqueued is never won afterwards |
| Session.WorkQueue.Append | IDHANDownloader/src/js/ScriptRunner.cpp:198-206 | the Offer step: work is queued only while the runner runs and the session accepts it |
| Session.WorkQueue.TakeReady | IDHANDownloader/src/js/ScriptRunner.cpp:212-226 | the first work whose session can start it is taken, which is the Take step of its ledger, and the others keep their order |
| Session.WorkQueue.DiscardSession | IDHANDownloader/src/js/ScriptRunner.cpp:236-254 | the Discard step: exactly the session's works are taken out, in order |
| Session.WorkQueue.TakeAll | IDHANDownloader/src/js/ScriptRunner.cpp:188-193 | the SwapQueue step: stop takes everything that is queued |
| Session.OthersAreOthers | IDHANDownloader/src/js/ScriptRunner.cpp:236-254 | the two halves of a discard hold each work of the queue on the right side |
| Realms.OutstandingLaw | IDHANDownloader/src/SessionContext.cpp:686-776 | in every run an execution's outstanding is the number of pending requests that point at it, plus the one in its worker's hand, plus those dropped by deliver after the stop |
| Realms.SurplusStep | IDHANDownloader/src/SessionContext.cpp:712-776 | each such drop raises the surplus by one, and no other step moves it |
| Realms.OutstandingIsExact | IDHANDownloader/src/SessionContext.cpp:686-776 | outstanding equals the requests that point at the execution, counting the one being tracked or settled, if and only if none of its requests was dropped after the stop; in particular while the runner runs |
| Realms.NoPointerToReleased | IDHANDownloader/src/SessionContext.cpp:536-571 | in every reachable state no pending request and no worker refers to a released execution |
| Realms.RunKeeps | IDHANDownloader/src/js/ScriptRunner.cpp:88-162 | every interleaving of workers, delivering threads and stop keeps the pointers alive, outstanding no lower than what points, and m_inflight_requests the size of the table |
| Realms.ZeroMeansNobody | IDHANDownloader/src/SessionContext.cpp:442-442 | an execution whose outstanding is zero has no request pointing at it, which is when step lets it be released |
| Realms.StopLeavesSurplus | IDHANDownloader/src/SessionContext.cpp:729-737 | from every reachable state with a pending request of an execution, its delivery after the stop is such a drop and leaves the count one further off |
| Realms.RequestRoundTrip | IDHANDownloader/src/SessionContext.cpp:686-776 | in every reachable state of a running runner a request that is tracked, delivered and settled is in the table and counted in between and leaves everything as it was |
| Realms.ImportRoundTrip | IDHANDownloader/src/SessionContext.cpp:698-757 | so does an import |
| Realms.BeginIsAlive | IDHANDownloader/src/js/ScriptRunner.cpp:108-116 | a new execution is alive and waits for nothing |
| Realms.ReleaseDecides | IDHANDownloader/src/SessionContext.cpp:442-442 | an execution in nobody's hands can be released as finished exactly when nothing is outstanding |
| Realms.AbandonedIsReleased | IDHANDownloader/src/SessionContext.cpp:546-571 | abandoning takes all requests of the execution out of the table and no others, and lets it be released |
| Realms.ExecutionCanEnd | IDHANDownloader/src/js/ScriptRunner.cpp:149-162 | no execution can get stuck: from every reachable state there are events that release it |
| Realms.PendingTable.Insert | IDHANDownloader/src/SessionContext.cpp:698-709 | a tracked request gets a fresh id and is counted, as in the TrackEnds or TrackImport step |
| Realms.PendingTable.Remove | IDHANDownloader/src/SessionContext.cpp:747-757 | the table follows the DeliverErases or SettleTakes step: an entry is taken out once, and nothing happens when it is gone already |
| Realms.PendingTable.RemoveAll | IDHANDownloader/src/SessionContext.cpp:546-571 | the Abandon step takes out exactly the entries that point at the execution |
| Inbox.StaysExactlyWhenLost | IDHANDownloader/src/SessionContext.cpp:712-757 | in every reachable state a pending request can still leave the table if and only if its result was not handed to a worker that left before settling it |
| Inbox.NeverDrained | IDHANDownloader/src/SessionContext.cpp:136-146 | once a result is lost its request is an import, and the session has a request in flight for ever, so it is never drained |
| Inbox.LostForever | IDHANDownloader/src/js/ScriptRunner.cpp:149-162 | a request whose result is lost stays so through every continuation |
| Inbox.ImportIsLost | IDHANDownloader/src/js/ScriptRunner.cpp:228-234 | from every reachable state of a running runner, an undelivered import of a worker with no execution left is lost when its result is delivered, the runner stops and that worker leaves |
| Inbox.RunKeeps | IDHANDownloader/src/js/ScriptRunner.cpp:42-51 | in every interleaving with posts after the stop and cleared inboxes, workers that left have no execution, and a delivered result whose request stands is on its way or in an inbox |
| Inbox.RunIsRealmsRun | IDHANDownloader/src/js/ScriptRunner.cpp:42-162 | with inboxes and leaving workers the runner does nothing the execution machine could not do, so its laws hold of it |
| Callbacks.AnsweredUnderOwnId | IDHANModules/runner-src/WorkerRunner.cpp:317-404 | a callback that returns has an answer, and one from the host was given under its own id |
| Callbacks.IdsAreDistinct | IDHANModules/runner-src/WorkerRunner.cpp:324-331 | two callbacks in progress never share an id |
| Callbacks.SweepAnswersAll | IDHANModules/runner-src/WorkerRunner.cpp:937-939 | after the shutdown sweep no callback in progress is unanswered and a new one is refused, in every continuation |
| Callbacks.NobodyStaysParked | IDHANModules/runner-src/WorkerRunner.cpp:349-359 | from then on three steps of its own thread end any callback |
| Callbacks.HostAnswerStands | IDHANModules/runner-src/WorkerRunner.cpp:406-425 | the sweep never replaces an answer from the host |
| Callbacks.NothingLeftBehind | IDHANModules/runner-src/WorkerRunner.cpp:341-357 | when every callback has returned or been refused the table is empty |
| Callbacks.DispatchDecides | IDHANModules/runner-src/WorkerRunner.cpp:324-331 | a callback is refused exactly when the worker is stopping, and registered under an unused id otherwise |
| Callbacks.CallbackRoundTrip | IDHANModules/runner-src/WorkerRunner.cpp:317-360 | a callback that is sent, answered under its id, woken and returned has exactly the host's answer, and the table is as it was |
| Callbacks.UnsentIsRefused | IDHANModules/runner-src/WorkerRunner.cpp:342-347 | a callback that could not be sent is refused and leaves the table |
| Callbacks.ParkedUntilAnswered | IDHANModules/runner-src/WorkerRunner.cpp:349-352 | a parked callback wakes exactly when it has an answer |
| Callbacks.StoppingIsFinal | IDHANModules/runner-src/WorkerRunner.cpp:324-329 | from a shutdown frame or the end of the loop on every new callback is refused |
| Callbacks.SweepCanEnd | IDHANModules/runner-src/WorkerRunner.cpp:406-425 | from every reachable state the sweep can be brought to its end, whatever is parked |
| Callbacks.RunKeeps | IDHANModules/runner-src/WorkerRunner.cpp:317-425 | the table holds exactly the callbacks in progress, results carry their own ids, and the sweep's list covers whatever is unanswered |
| Callbacks.FailAll | IDHANModules/runner-src/WorkerRunner.cpp:414-424 | every callback on the list ends answered, and those answered before keep their answer |
| Callbacks.PendingCallback.Record | IDHANModules/runner-src/WorkerRunner.cpp:389-401 | the RecordResult step on this callback: the host's result is stored and marks it answered |
| Callbacks.PendingCallback.Fail | IDHANModules/runner-src/WorkerRunner.cpp:416-422 | the FailOne step on this callback: an unanswered one is answered with the shutdown error |
| Callbacks.CallbackTable.Register | IDHANModules/runner-src/WorkerRunner.cpp:325-331 | the Dispatch step: a callback gets a fresh id, or is refused while the worker is stopping |
| Callbacks.CallbackTable.Unregister | IDHANModules/runner-src/WorkerRunner.cpp:354-357 | the Erase step: exactly this id leaves the table |
| Callbacks.CallbackTable.HandleResult | IDHANModules/runner-src/WorkerRunner.cpp:362-404 | the FindResult and RecordResult steps: a result is recorded in the callback of its id and no other, and an unknown id changes nothing |
| NaturalOrder.NaturalLess | IDHANModules/premade/archives/archives.cpp:298-329 | on every pair of names the loop decides the lexicographic order of their tokens: single bytes, and digit runs by value |
| NaturalOrder.StrictWeakOrder | IDHANModules/premade/archives/archives.cpp:298-329 | the comparator is irreflexive, transitive, and has transitive incomparability |
| NaturalOrder.IncomparableMeansSameTokens | IDHANModules/premade/archives/archives.cpp:298-329 | two names are incomparable exactly when they read as the same tokens |
| NaturalOrder.ValueOrder | IDHANModules/premade/archives/archives.cpp:317-321 | on digits without leading zeros, length first and then text is the numeric order |
| NaturalOrder.LongerIsGreater | IDHANModules/premade/archives/archives.cpp:320-320 | of two numbers without leading zeros the longer is greater |
| NaturalOrder.EqualLengthByText | IDHANModules/premade/archives/archives.cpp:321-321 | digit runs of equal length compare by text as they do by value |
| NaturalOrder.DigitRunLength | IDHANModules/premade/archives/archives.cpp:277-282 | the length of the longest run of digits from a position |
| NaturalOrder.SignificantDigits | IDHANModules/premade/archives/archives.cpp:284-296 | the run without its leading zeros, of the same value |
| NaturalOrder.CompareText | IDHANModules/premade/archives/archives.cpp:321-321 | the byte-wise text order of two digit runs |
| UrlQuery.SortUrlQueryParameters | IDHANDownloader/include/IDHANDownloader/UrlComparison.hpp:23-57 | splitting, stable sort and assembly produce the specified URL |
| UrlQuery.SortKeepsFrame | IDHANDownloader/include/IDHANDownloader/UrlComparison.hpp:49-56 | the text before the query and the fragment stay as they are |
| UrlQuery.SortIsStableByName | IDHANDownloader/include/IDHANDownloader/UrlComparison.hpp:31-54 | the new query holds the same non-empty fields, sorted by decoded name, repeated names in their original order |
| UrlQuery.SortIdempotent | IDHANDownloader/include/IDHANDownloader/UrlComparison.hpp:23-57 | sorting twice is sorting once |
| UrlQuery.SortKeepsKey | IDHANDownloader/include/IDHANDownloader/UrlComparison.hpp:61-79 | the comparison key does not change, for any decoding, name order and serialisation, when the URL has no query or its first field in name order is the one the library strips a leading mark off, or, where none is stripped, does not start with one |
| UrlQuery.SameKeyExactly | IDHANDownloader/include/IDHANDownloader/UrlComparison.hpp:61-79 | two URLs have the same key exactly when they agree up to query and fragment and every parameter that is not ephemeral has the same values in the same order, for a serialisation that tells lists apart |
| UrlQuery.KeyNeedsMark | IDHANDownloader/include/IDHANDownloader/UrlComparison.hpp:61-79 | for a decoding that leaves a leading mark alone, ephemeral names that do not start with one and a serialisation that tells lists apart, the key stays only under that condition on the URL |
| UrlQuery.MarkSafeExactly | IDHANDownloader/include/IDHANDownloader/UrlComparison.hpp:61-79 | the condition read off the URL says the same as comparing the leading marks and fields before and after sorting |
| UrlQuery.MarkMoves | IDHANDownloader/include/IDHANDownloader/UrlComparison.hpp:61-79 | the condition fails for every two-field query whose second field starts with a mark and sorts first |
| UrlQuery.MarkAppears | IDHANDownloader/include/IDHANDownloader/UrlComparison.hpp:61-79 | it fails for every single field that starts with a mark and stands behind an empty one |
| UrlQuery.MarkMovesFor | IDHANDownloader/include/IDHANDownloader/UrlComparison.hpp:61-79 | one URL for which it fails |
| UrlQuery.KeyChanges | IDHANDownloader/include/IDHANDownloader/UrlComparison.hpp:61-79 | wherever the condition fails the two keys differ |
| UrlQuery.KeyChangesFor | IDHANDownloader/include/IDHANDownloader/UrlComparison.hpp:61-79 | the keys of one URL before and after sorting differ |
| UrlQuery.FieldsOfJoin | IDHANDownloader/include/IDHANDownloader/UrlComparison.hpp:49-54 | joining fields and splitting them again gives the same fields |
| UrlQuery.SortFields | IDHANDownloader/include/IDHANDownloader/UrlComparison.hpp:31-54 | the fields between two positions, stably sorted by decoded name and joined again |
| UrlQuery.SplitFields | IDHANDownloader/include/IDHANDownloader/UrlComparison.hpp:31-47 | the loop yields exactly the non-empty fields between the separators, each with its decoded name |
| UrlQuery.NameField | IDHANDownloader/include/IDHANDownloader/UrlComparison.hpp:40-42 | a field's name is what stands before its first equals sign, decoded |
| UrlQuery.JoinRecords | IDHANDownloader/include/IDHANDownloader/UrlComparison.hpp:50-54 | the fields are joined with one separator between them |
| UrlQuery.Locate | IDHANDownloader/include/IDHANDownloader/UrlComparison.hpp:26-27 | the first position of a character from a start, or the end |
| StableSorting.SortIsStable | IDHANDownloader/include/IDHANDownloader/UrlComparison.hpp:48-48 | the sort orders by name and keeps every name's own items in order |
| StableSorting.SortedUnique | IDHANDownloader/include/IDHANDownloader/UrlComparison.hpp:48-48 | a sequence has only one stable sort, so any stable sort is this one |
| StableSorting.SortPermutes | IDHANDownloader/include/IDHANDownloader/UrlComparison.hpp:48-48 | nothing is lost or added |
| StableSorting.LeaderComesFirst | IDHANDownloader/include/IDHANDownloader/UrlComparison.hpp:48-48 | a stable sort starts with the earliest of the items whose name is least |

## Left out

- Weak memory: the acquire and release orderings of the source are read as sequential consistency.
- Connection loss and exceptions out of `DBConnection::pump`, the handshake, and draining: nothing
  in the source fails the outstanding operations then, so nothing is claimed about them.
- libpq, epoll, curl, folly executors and batons, QuickJS, libarchive and the URL library are
  inputs of the models. The `if PQisBusy` test before reading is not modelled.
- Operations.SharedOperation.AcceptRows: rows and errors are numbers; their contents are not modelled.
- Pipeline: the consumer's takeResult is not a step here. What a completed operation holds is what it
  gives the first time; the rest is `Operations.AnswerIsFinal`.
- Leases.AllLeasesReturn: a finalizing coroutine that is destroyed before it resumes is not modelled.
- SseHub.LateJoinersAgree: for retained publications whose type holds no separator and which are not
  the greeting's own marker, and for initial events that contradict no retained, selected snapshot.
- LanePolicy: 64-bit overflow of times, rounding of the interval in long double, and the parsing
  of Retry-After texts; times and durations are integers, and the parsed seconds are an input.
- LaneGate: the reserve counters of single shards and the posting of tasks to their threads. A
  timer may fire at any time, also early, which the millisecond truncation of postAfter allows.
- ByteRing: clock readings are nanoseconds since the clock's epoch and not negative.
- Transfer: cookies, header stripping across origins, throttle reports and log previews. Whether a
  response is a direct file and whether an import succeeds are inputs.
- Transfer.SinkIsUntouched: holds for transfers in which curl reads its status line before the body
  and reports the same status at the end.
- Session: routing, diagnostics, observers and the records table; other sessions' works on the same
  workers are seen only as workers that are busy. QUEUED is counted where follow()
  reports it, which it does before it knows that the runner takes the work.
- Crew.ScriptWorker.DiscardAll: abandoning the requests of a resident is in `Realms` and clearing the
  inbox in `Inbox`; this method has the residents and the stages.
- Realms: what a settled request does inside its script, and the outstanding count shown in the
  records table.
- Callbacks: the frames on the socket. A second host result for a callback that is already
  answered overwrites the first until the entry is erased.
- UrlQuery.KeyNeedsMark: a decoding that changes a leading mark, an ephemeral name that starts with one
  or a serialisation that writes two lists alike can hide the difference.
- UrlQuery: percent-decoding, the library's name order and its serialisation are arbitrary functions.
- The reactor's table of watches and its epoll registration.
- Lane retirement by the pool's sweep, and the lookup of lanes by host.
- Draining of the database pool, session diagnostics, the upload pipeline, byte ranges, hashing, tag
  splitting and cookie matching: these take no part in the concurrent protocols and the two text
  algorithms above.
- The archive thumbnailer's comparator for members without names, which falls back to key order.
