# EuroScope Data Bridge: a Dafny model

The bridge is a WebSocket server inside an air-traffic-control plugin, a Markdown-to-HTML wiki
generator and a test client. This project models the parts of it that are hard to get right and
proves what they promise. `dafny verify dfyconfig.toml` checks everything.

## The server

`src/WebSocketServer.cpp` is shared by one IO thread, up to 64 detached request workers, the
EuroScope main thread that pushes events, and a thread that calls `Stop`. It is modelled twice, and
both models use the same functions on the tables (`Registry`), the outbound queues (`Network`), the
triage of a message and the subscription manager's answer (`Requests`).

* `WebSocketServer` and `Plugin` are the code as an object: fields, sessions shared by reference,
  the loops of the source. Every method is proved to do to the tables and queues what the matching
  function says.
* `Protocol` is the running server as a step relation over those functions. One step is one
  critical section that sends nothing, one atomic access or one thread event, so the check of
  `m_activeWorkers`, its increment and the start of the worker are three steps. A critical section
  that sends (`Broadcast`, `RouteOutgoing`) holds `m_clientsMutex` over many steps: taking it, for
  each client the size check and then the send, and giving it back. What does not take the mutex
  may come in between: the IO thread answers inline, connections drain and die, other workers run.
  `Reachable` is any state some interleaving leads to. The methods of the object are what these
  steps do when nothing comes in between (`Locking.UninterruptedPush`, `Locking.UninterruptedReply`).

`Invariants` and `Locking` hold the inductive invariant, `Accounts` and `Changes` the account of
every request and of what it changed, `Entries` what each step may write into a connection's history.
`Safety`, `Conservation`, `Losses`, `Refusals`, `Subscriptions`, `Service`, `Pushes`, `Isolation` and
`Stopping` hold the main results:

* the per-event counters agree with the clients' subscription sets, with no zero entry, so no
  decrement wraps; the two session tables are inverse to each other;
* at most 64 workers, and none left when `Stop` clears the tables; `Stop` leaves no connection of a
  session it has found; stopping twice is stopping once;
* a request is refused as busy only while 64 are in flight; below that a client whose connection has
  room gets a worker and its reply, whatever the request, and nobody else notices;
* every request ever received is held by exactly one thread or has ended exactly once, on the
  connection it came from, with a frame that answers that very request or for a named reason, and
  in every run the reason is what happened: a client found gone is gone, and a reply was dropped
  after its own size check found its own client's queue with it over 32 MB; added up, this is the
  conservation equation of requests;
* no request makes more than one change; a subscription request answered with success has made it,
  and a request with any other answer has made none;
* an event is in a client's set exactly when one of its own messages subscribed it and none has since
  unsubscribed it, by name or with an empty list, told by the `type` and `events` of the messages
  alone; pushes follow these sets, and a reply to a subscription request lists events exactly when it
  reports success, and then the set its own request's change left; the `HasSubscribers` gate loses no push; whatever comes
  between the sends of a push, in the end every subscriber has got it once, unless its queue was full
  when it was looked at or its connection is gone, and nobody else has;
* queued pushes and replies stay within 32 MB per client although an inline answer can be queued
  between a size check and its send; the whole queue exceeds that by its inline frames only, and a
  run that makes it do so is given; queues keep order, and a client whose connection is gone from any
  point of a run on changes nothing for the others.

`Handlers` covers the reply envelope, the query loops and the full snapshot of `src/Handlers.cpp`, and
says for each request type, by the fields of the request alone, what its reply is;
`Admission` the client cap; `Decimal` the fallback ids.

## The wiki generator

`Blocks.Parse` says which lines of a page make which block; `Convert.Convert` is the scanner with its
cursor, inner loops, headings, anchors and slug counts, proved to compute it. On `Parse`: every line
is consumed once and in order, a block depends on its own lines only, and two documents set one after
the other with a blank line between them give the blocks of both exactly when the first leaves no
fence or contents section open. `Markdown` prints headings, rules, code, tables, quotes, lists, running
text, the language line and the inline contents, with blank lines left out wherever they may be, and
proves that the scan reads back exactly these blocks. `TableRow`, `Html` and `Anchors` are the row splitter, the escaping
and code blocks, and the heading ids.

## The buffers

`ThreadSafeQueue` is the drop-oldest queue, `Reassembly` the client's receive loop (messages in
fragments, section 5.4 of RFC 6455), `MainViewModel` the trimmed log, the tables keyed by callsign and
the bounded map of pending requests.

## Where the code and its documentation disagree

The model follows the code in each case.

* `docs/wiki.md` documents `clear_estimation`. The code builds an error and drops it
  (`src/Handlers.cpp:675`), so the request always ends as an unknown type:
  `Handlers.ClearEstimationIsUnknown`.
* `src/Constants.h:38` calls 64 a hard cap on clients. The cap is checked when a handshake starts and
  the session is registered when it ends. It holds in all runs with at most k handshakes at a time
  exactly when k is at most one (`Admission.CapNeedsSerialHandshakes`), and from one state on,
  whatever becomes of the handshakes under way, exactly when sessions and handshakes together are at
  most 64 (`Admission.CapSurvivesExactly`). `Admission.OverfullRun` is a run to 65 clients.
* Heading ids are deduplicated, but `note`, `note`, `note-2` gives two headings the id `note-2`
  (`Anchors.DeduplicationFails`). Ids are distinct exactly when no slug is another slug followed by
  a number it is repeated up to: `Anchors.DistinctExactlyWithoutClash`.
* A full reply envelope has `success` or `error`, never both or neither. `MakeResponse` alone does not
  ensure this (`Handlers.EnvelopeCoherence` says when it does); all its callers do.
* The converter throws on a heading whose text holds a stray carriage return or a Unicode line
  separator, and on a fence named like a property every JavaScript object inherits, such as
  `constructor`. `Blocks.CleanExactly` says exactly which pages are converted, and
  `Convert.ThrowingPages` names one page of each kind that is not.

## Assumptions

Connection handles are fresh, client ids are fresh and not empty, starting a thread succeeds, the
server starts in the stopped state, and dumping and parsing a JSON document is the identity. The size
of a message on the wire is any function of the message (`sizeOf`). What EuroScope's cursors enumerate
and how a setter ends are parameters of a request (`Handlers.Sdk`), as are `slugify`, `toUpperCase`
and whether a callback throws.

## Model

| member | source | states |
|---|---|---|
| Registry.HeldIsCounted | src/WebSocketServer.cpp:247-251 | an event some session holds has a counter of at least one, so `--cnt->second` cannot wrap the unsigned counter |
| Registry.KeysAreTheUnion | src/WebSocketServer.h:167-169 | the keys of the index are exactly the events somebody is subscribed to |
| Registry.OpenedConsistent | src/WebSocketServer.cpp:223-231 | registering a fresh connection keeps counters and sets in agreement and the two tables inverse |
| Registry.ClosedConsistent | src/WebSocketServer.cpp:243-261 | closing any handle, known or not, keeps them so, with no zero counter left behind |
| Registry.ResubscribedConsistent | src/WebSocketServer.cpp:456-491 | so does every subscription change: union, difference, or clear when no event is named |
| Registry.GateIsExact | src/WebSocketServer.cpp:376-380 | the counter lookup is true exactly when some session passes the filter of the push loop |
| Network.BytesSplit | src/WebSocketServer.cpp:537-545 | the buffered amount of a queue is the sum over any cut of it |
| Network.BoundedAppend | src/WebSocketServer.cpp:361-371 | appending keeps the pushes and replies of a queue within 32 MB exactly when a guarded frame fits beside those already waiting; an inline frame needs no room |
| Network.BoundedDrain | src/WebSocketServer.cpp:537-545 | taking frames off the front never raises what waits of pushes and replies |
| Network.BoundedTotals | src/Constants.h:24-27 | a queue is its pushes and replies plus its inline frames, so with the former within 32 MB only the latter take it further |
| Network.RoomIsKept | src/WebSocketServer.cpp:537-545 | a size check that finds room promises that the frame fits beside the waiting pushes and replies, also after an inline frame has been added |
| Network.DeliveredFirst | src/WebSocketServer.cpp:361-371 | visiting the clients one after the other, in any order, is the delivery to all of them |
| Network.SlowClientIsIsolated | src/WebSocketServer.cpp:361-371 | dropping one client's connection before a push or a reply leaves every other queue as it would have been |
| Network.SkippedPushIsEmpty | src/Plugin.cpp:132-144 | a push skipped by the gate would have queued nothing on any connection |
| Requests.AdmittedNamesItsClient | src/WebSocketServer.cpp:283-356 | an admitted request is the received message with the session's `client_id`, whatever the sender wrote; every inline reply answers the message it was sent for; admission needs a processor and fewer than 64 workers |
| Requests.DerivedKeepsFields | src/WebSocketServer.cpp:344-345 | a worker sees every other field, in particular `id`, `type` and the requested events, as it was received |
| Requests.DerivedAnswered | src/WebSocketServer.cpp:344-345 | the injected client id does not change what the handlers answer |
| Requests.TriageExactly | src/WebSocketServer.cpp:294-346 | triage answers by itself what is no request, pongs pings, drops requests without a processor, is busy from 64 requests in flight on, and otherwise hands the request on, naming its client |
| Requests.HandledConfirms | src/WebSocketServer.cpp:385-494 | the subscription manager's answer and the set it leaves, by the message's own `type` and `events`, in every case |
| Requests.SuccessLists | src/WebSocketServer.cpp:429-493 | a reply that answers a subscription request reports success exactly when it lists events |
| Requests.AnswerFacts | src/WebSocketServer.cpp:385-494 | a worker's subscription request is never answered with nothing, touches only its own client's session, and is answered with success exactly when it makes the change it asks for and lists that client's new set |
| Handlers.EnvelopeCoherence | src/Handlers.cpp:50-72 | the exact condition under which the envelope has `success` true just when it has no `error` |
| Handlers.CollectRecords | src/Handlers.cpp:165-177 | the cursor loop returns the serializable records in cursor order and skips the failing ones |
| Handlers.CollectOne | src/Handlers.cpp:156-164 | a selected object contributes its document, or nothing when invalid or not serializable |
| Handlers.RunQuery | src/Handlers.cpp:153-322 | the query branches return the specified document for each type, and nothing for any other type |
| Handlers.HandleRequest | src/Handlers.cpp:119-147 | the dispatch returns the specified answer on every payload, malformed ones included |
| Handlers.QueryDocuments | src/Handlers.cpp:153-322 | each query type's document: the serializable records of its SDK collection in order, the selected object, the number under its key, or the three lists of the snapshot |
| Handlers.AnsweredReplies | src/Handlers.cpp:119-854 | every reply, by the fields of the request: query documents, the outcome of an action, and the exact error texts |
| Handlers.ActionReplyCoherent | src/Handlers.cpp:328-329 | everything after the queries is a coherent reply with the request's id and without a result unless it succeeded |
| Handlers.EveryReplyIsCoherent | src/Handlers.cpp:119-139 | the answer is empty exactly for text that does not parse; otherwise it is a reply with the request's id whose `success` says that there is no `error` |
| Handlers.SerializedIsFilterMap | src/Handlers.cpp:36-48 | each serializable record appears, at the position given by how many serializable ones precede it |
| Handlers.SerializedCount | src/Handlers.cpp:165-177 | and nothing else appears: the list is as long as there are serializable records |
| Handlers.QueryAnswered | src/Handlers.cpp:153-322 | a request for everything of one kind is answered by success with that query's document |
| Handlers.SnapshotAgrees | src/Handlers.cpp:275-322 | the full snapshot lists exactly the plans and targets of the separate queries, and a permutation of their controllers |
| Handlers.ClearEstimationIsUnknown | src/Handlers.cpp:665-676 | `clear_estimation` always ends as an unknown message type, whatever the SDK would do |
| History.ListedForever | src/WebSocketServer.cpp:429-493 | a set listed by an earlier subscription change stays on the client's record |
| History.TruthfulAppend | src/WebSocketServer.cpp:361-371 | an entry justified by what precedes it extends a justified history |
| Invariants.IdLeadsHome | src/WebSocketServer.cpp:448-454 | the session found for a client id belongs to the connection the id was given to, so the second `Unknown client` cannot happen |
| Invariants.AnsweringKeeps | src/WebSocketServer.cpp:511-516 | a reply sent after a check that found room keeps the invariant, and ends its request |
| Invariants.ActKeeps | src/WebSocketServer.cpp:361-371 | so does every send of a push loop or a reply, and every frame dropped |
| Invariants.SendKeeps | src/WebSocketServer.cpp:523-532 | so does every step made under the mutex |
| Invariants.ReplyGoesHome | src/Plugin.cpp:59-67 | the id a worker routes by is never empty and leads to its own request's connection or nowhere |
| Invariants.DispatchKeeps | src/WebSocketServer.cpp:290-341 | triage on the IO thread keeps the invariant in each of its branches |
| Invariants.SubscribeKeeps | src/WebSocketServer.cpp:446-493 | so does a subscription change by a worker, at any moment |
| Invariants.RouteKeeps | src/WebSocketServer.cpp:499-506 | so does taking the mutex and looking the client up, whatever became of it meanwhile |
| Invariants.StopKeeps | src/WebSocketServer.cpp:160-204 | so does every step of `Stop`, interleaved with everything else |
| Invariants.InvStep | src/WebSocketServer.cpp:160-356 | every step of every thread keeps the invariant, if whoever sends under the mutex is in order |
| Locking.InlineOrderly | src/WebSocketServer.cpp:294-300 | an inline answer queued between a size check and its send does not spoil the room found |
| Locking.CheckOrderly | src/WebSocketServer.cpp:365-366 | a size check that finds room reserves it |
| Locking.RouteOrderly | src/WebSocketServer.cpp:499-506 | a worker that has taken the mutex is about to send its own reply to its own client |
| Locking.OrderlyStep | src/WebSocketServer.cpp:160-356 | in every step of every thread whoever holds the mutex keeps the room it found and its right targets |
| Locking.InvAfter | src/WebSocketServer.cpp:160-356 | both are kept by every run |
| Locking.InvReachable | src/WebSocketServer.h:156-169 | both hold in every state some interleaving reaches |
| Locking.MutexExcludes | src/WebSocketServer.h:163-169 | while the mutex is held no step of anybody changes the tables, and only its holder goes on with its loop or gives it back |
| Locking.UninterruptedLoop | src/WebSocketServer.cpp:361-371 | the steps of a loop, uninterrupted and in any order of clients, are the delivery to all of them |
| Locking.UninterruptedPush | src/WebSocketServer.cpp:361-371 | an uninterrupted push does what the `Broadcast` method is proved to do |
| Locking.UninterruptedReply | src/WebSocketServer.cpp:499-518 | an uninterrupted reply does what the `RouteOutgoing` method is proved to do |
| Accounts.AccountedEnd | src/WebSocketServer.cpp:346-355 | ending a request with a fitting frame or a named loss, once, keeps the account balanced |
| Accounts.RouteAccounted | src/Plugin.cpp:57-67 | taking the mutex ends no request, except that of a client that is gone |
| Accounts.ActAccounted | src/WebSocketServer.cpp:507-516 | the send or the drop that follows ends exactly the request of the worker that made it |
| Accounts.DispatchAccounted | src/WebSocketServer.cpp:290-341 | so does triage, unless it hands the request on |
| Accounts.AccountedStep | src/WebSocketServer.cpp:283-356 | every step of every thread keeps the account |
| Accounts.AccountedReachable | src/WebSocketServer.cpp:283-356 | the account holds in every reachable state |
| Changes.OneChangeStep | src/WebSocketServer.cpp:446-493 | in every step a request that has made no change makes at most one |
| Changes.OneChangePerRequest | src/WebSocketServer.cpp:446-493 | in every reachable state two changes made by the same request are the same entry of the same history |
| Entries.StepWrites | src/WebSocketServer.cpp:283-371 | a step adds at most one entry to a history, and each kind of entry only where it belongs: a change by the worker that makes it, an answer by the thread that has the request, a push by the loop after a check that found room, a loss by what caused it |
| Entries.EntryExplained | src/WebSocketServer.cpp:283-371 | in every run every entry was added by such a step of that run |
| Losses.GoneReachable | src/WebSocketServer.cpp:503-516 | in every reachable state the client of each request lost because its client was gone has no connection or no session |
| Losses.CheckRemembered | src/WebSocketServer.cpp:506-516 | in every run what a send goes by is a size check the same holder made earlier for the same frame, and the queue was then as the check said |
| Losses.LossesHaveCauses | src/WebSocketServer.cpp:499-518 | in every run a request ended unanswered because its client had gone, its own reply found its own client's queue over 32 MB with it, its own worker raised, or no processor was set |
| Subscriptions.FoldIsHeld | src/WebSocketServer.cpp:456-491 | a client's changes add up to the events subscribed by one of its messages and not unsubscribed, by name or with an empty list, by a later one |
| Subscriptions.SetsAreWhatWasAsked | src/WebSocketServer.cpp:429-493 | in every reachable state this is what a session holds, what pushes require, and what a successful reply lists at its own change |
| Service.BusyOnlyWhenFull | src/WebSocketServer.cpp:335-339 | in every run a client is told the server is busy only by the triage of its own request and with 64 requests in flight |
| Service.AnsweredAtOnce | src/WebSocketServer.cpp:294-339 | complaints, pongs and refusals are queued on the sender's live connection by the next two steps of the IO thread |
| Service.RequestTaken | src/WebSocketServer.cpp:344-355 | below 64 requests in flight any further one gets a worker holding it, in four steps and without an inline answer |
| Service.QueryServed | src/Plugin.cpp:39-68 | and what the handlers answer is queued on its connection, which has room, with nobody else's queue, tables or workers changed |
| Service.SubscriptionServed | src/Plugin.cpp:42-67 | a subscription request has the set changed as it says and gets the new set listed |
| Service.OpenedIsKnown | src/WebSocketServer.cpp:223-231 | a handshake that opens gives its connection a session under both keys, without subscriptions, and changes nobody else's |
| Pushes.ClosedHearsNothing | src/WebSocketServer.cpp:243-261 | a connection that closes loses its session and id, never gets them back, and has no push queued any more in any run |
| Stopping.RestartServes | src/WebSocketServer.cpp:126-131 | a stopped server starts again with nothing left of before |
| Stopping.StopCollects | src/WebSocketServer.cpp:160-182 | stopping a running server refuses new work and gets no further before it has collected the handles |
| Stopping.StopClosesEveryone | src/WebSocketServer.cpp:172-186 | when `Stop` is done with them, no session it has found has a connection left, whatever other threads did |
| Pushes.InterruptedPush | src/WebSocketServer.cpp:361-371 | whatever comes between the sends of a push, at its end every subscriber has got the frame exactly once, or had a full queue at its check and has not got it, or its connection is gone; and nobody else has got it |
| Refusals.CandidStep | src/WebSocketServer.cpp:429-493 | every step keeps it that a request whose answer lists no events, on its way or queued, has made no change |
| Refusals.AnswersAreCandid | src/WebSocketServer.cpp:385-494 | in every reachable state a subscription request answered with success made its change before, on its own connection, and lists the fold at it; a request with any other answer made no change |
| Conservation.EachRequestOnce | src/WebSocketServer.cpp:283-356 | every request ever received is held by exactly one thread or ended by exactly one entry of exactly one history, that of its own connection, which answers it or says why not; in every run that leads there the reason is what happened, and a client found gone is gone |
| Conservation.RequestsAreConserved | src/WebSocketServer.cpp:283-356 | messages received = complaints + busy errors + pongs + replies + client gone + dropped + raised + unprocessed + still in hand; none unprocessed when a processor is set |
| Safety.IndexAlwaysAgrees | src/WebSocketServer.cpp:243-278 | in every reachable state each counter is the number of subscribed sessions and the keys are the union of their sets |
| Safety.TablesAreInverse | src/WebSocketServer.h:165-166 | in every reachable state the two tables are inverse and no session has changed its id |
| Safety.WorkersAreCounted | src/WebSocketServer.cpp:335-355 | `m_activeWorkers` is the number of workers plus the one being started, never above 64 although check and increment are separate, and positive when decremented |
| Safety.TeardownIsAlone | src/WebSocketServer.cpp:188-203 | once `Stop` is past its wait there is no worker and no IO thread, neither can take a step before a restart, and no worker holds the mutex |
| Safety.StopTwiceIsStopOnce | src/WebSocketServer.cpp:160-204 | a second `Stop` runs through, once a callback that is still sending gives the mutex back, and leaves the very same state |
| Safety.NoMisdeliveredReply | src/WebSocketServer.cpp:499-518 | a reply is queued only on the connection of the request it answers, with that request's id, is coherent, and, unless it answers a subscription request, is what the handlers answer under some state of the SDK |
| Safety.DeadBranches | src/Plugin.cpp:42-67 | no worker gets an empty answer, an empty client id or the second `Unknown client`, or ever sends to everybody |
| Safety.PushesFollowSubscriptions | src/WebSocketServer.cpp:361-371 | a push is queued on a client only while the fold of its own earlier changes contains the event |
| Safety.RepliesListTheFold | src/WebSocketServer.cpp:429-493 | every change was asked for by a request of the client itself and lists the fold up to it; a queued reply to a subscription request lists events exactly when it reports success, and what a reply lists is the fold at the change its own request made; a session holds what its history folds to |
| Safety.TheGateIsInvisible | src/Plugin.cpp:333-347 | in every reachable state the gate is closed exactly when nobody would get the push, and then a push queues nothing |
| Safety.QueuesAreBoundedAndOrdered | src/WebSocketServer.cpp:537-545 | what left plus what waits is what was queued, in order; waiting pushes and replies are within 32 MB and only inline frames add to them |
| Safety.RoomFoundIsRoomKept | src/WebSocketServer.cpp:364-368 | when a send follows its check, the frame still fits beside the waiting pushes and replies |
| Safety.InlineComesBetween | src/WebSocketServer.cpp:320-331 | from any reachable state at rest a push to a subscribed client with room, and a ping of that client, have a run that queues the pong between check and send, so that a 32 MB push takes an empty queue past the limit |
| Isolation.CheckAlike | src/WebSocketServer.cpp:537-545 | a size check of one client says the same whatever the state of another |
| Isolation.ActAlike | src/WebSocketServer.cpp:361-371 | a send leaves the other clients alike, and what becomes of a reply depends on its own connection only |
| Isolation.StepAlike | src/WebSocketServer.cpp:361-371 | a step possible with the slow client is possible without it, and the others end up alike |
| Isolation.RunAlike | src/WebSocketServer.cpp:361-371 | so is a whole run |
| Isolation.SlowClientIsInvisible | src/WebSocketServer.cpp:499-545 | with one client's connection gone from any reachable state on, every other client has the same queue, frames sent and history after the same run |
| Admission.Occupancy | src/WebSocketServer.cpp:209-218 | with at most k handshakes under way, sessions and handshakes together never exceed 63 + k |
| Admission.OverfullRun | src/WebSocketServer.cpp:223-231 | two overlapping handshakes can register a 65th client |
| Admission.CapNeedsSerialHandshakes | src/Constants.h:38 | the cap of 64 holds in all runs with at most k handshakes at a time exactly when k is at most one |
| Admission.CapSurvivesExactly | src/WebSocketServer.cpp:209-231 | from one state on, the cap survives every opening of what is under way exactly when sessions and handshakes are at most 64 together |
| Admission.DoorCountsSessions | src/WebSocketServer.cpp:223-261 | the sessions counted are those of the tables, under opening, closing and subscription changes |
| WebSocketServer.Endpoint.Send | src/WebSocketServer.cpp:367-368 | sending appends to a live connection's queue and is a no-op otherwise |
| WebSocketServer.Endpoint.BufferedAmount | src/WebSocketServer.cpp:544-544 | the bytes waiting on one connection |
| WebSocketServer.WebSocketServer.OnValidate | src/WebSocketServer.cpp:209-218 | accepts exactly while fewer than 64 sessions are registered |
| WebSocketServer.WebSocketServer.OnOpen | src/WebSocketServer.cpp:223-231 | registers a session without subscriptions under both keys |
| WebSocketServer.WebSocketServer.ReleaseAll | src/WebSocketServer.cpp:247-251 | the release loop lowers each counter once and erases those that reach zero |
| WebSocketServer.WebSocketServer.OnClose | src/WebSocketServer.cpp:243-261 | takes the session, its id and its subscriptions out of the tables; an unknown handle changes nothing |
| WebSocketServer.WebSocketServer.OnFail | src/WebSocketServer.cpp:266-278 | does exactly the same |
| WebSocketServer.WebSocketServer.OnMessage | src/WebSocketServer.cpp:283-356 | one of: ignored, an inline error, a pong, a busy error, or one worker started with the right request and counted |
| WebSocketServer.WebSocketServer.OnWorkerExit | src/WebSocketServer.cpp:353-354 | a worker leaves the count as its last act |
| WebSocketServer.WebSocketServer.IsSendQueueFull | src/WebSocketServer.cpp:537-545 | true exactly when a live connection's queue would exceed 32 MB with this frame |
| WebSocketServer.WebSocketServer.Broadcast | src/WebSocketServer.cpp:361-371 | the push loop queues the frame on every subscribed client that has room, and on no other |
| WebSocketServer.WebSocketServer.SendToAllLocked | src/WebSocketServer.cpp:523-532 | the unfiltered loop queues it on every session that has room |
| WebSocketServer.WebSocketServer.RouteOutgoing | src/WebSocketServer.cpp:499-518 | delivers to everybody, to one client that has room, or to nobody |
| WebSocketServer.WebSocketServer.HasSubscribers | src/WebSocketServer.cpp:376-380 | answers from the counters alone |
| WebSocketServer.WebSocketServer.SubscribeAll | src/WebSocketServer.cpp:458-465 | the loop adds the events and counts only those that were new |
| WebSocketServer.WebSocketServer.UnsubscribeAll | src/WebSocketServer.cpp:479-491 | the loop removes the events and uncounts only those that were there |
| WebSocketServer.WebSocketServer.CollectStrings | src/WebSocketServer.cpp:431-436 | the strings of an array, as a set; other elements are skipped |
| WebSocketServer.WebSocketServer.HandleSubscriptionRequest | src/WebSocketServer.cpp:385-494 | replies and changes the tables as specified in every case, error replies included |
| WebSocketServer.WebSocketServer.Resubscribe | src/WebSocketServer.cpp:456-491 | rewrites one session's set and the counters, and no other session |
| WebSocketServer.WebSocketServer.BeginStop | src/WebSocketServer.cpp:160-182 | refuses new work and collects exactly the registered handles, once |
| WebSocketServer.WebSocketServer.FinishStop | src/WebSocketServer.cpp:198-203 | leaves all three tables empty |
| Plugin.ProcessRequest | src/Plugin.cpp:39-68 | answers subscription requests from the server and all others from the handlers, and routes the reply by the injected id |
| Plugin.OnCallback | src/Plugin.cpp:132-144 | a gated callback leaves the queues as an ungated push of a valid object would |
| Text.TrimPadding | page/tools/build-wiki.mjs:56-56 | trimming takes off exactly the surrounding white space |
| Text.SplitJoin | page/tools/build-wiki.mjs:86-86 | splitting undoes joining for pieces without the separator |
| Text.LinesHaveNoBreaks | page/tools/build-wiki.mjs:86-86 | no line of a page contains a line feed |
| Text.LinesRoundTrip | page/tools/build-wiki.mjs:86-86 | lines joined with either kind of break are split into the same lines |
| Text.TestsAreRegular | page/tools/build-wiki.mjs:45-53 | the line tests are their regular expressions, with the place of the match as witness |
| TableRow.SplitRow | page/tools/build-wiki.mjs:55-69 | the two-state loop returns the specified cells |
| TableRow.RowCount | page/tools/build-wiki.mjs:55-69 | one trimmed cell more than there are bars outside code spans once the outer ones are stripped |
| TableRow.InnerIs | page/tools/build-wiki.mjs:56-58 | a row loses its surrounding white space and then at most one bar on either side |
| TableRow.PaddedRoundTrip | page/tools/build-wiki.mjs:55-69 | a printed row is read back with any white space around it |
| TableRow.RowRoundTrip | page/tools/build-wiki.mjs:55-69 | splitting a printed row gives back any trimmed cells with paired backticks and no bar outside code |
| Html.EscapeIsOnePass | page/tools/build-wiki.mjs:23-29 | the four replaces in sequence are one replacement per character |
| Html.EscapeRoundTrip | page/tools/build-wiki.mjs:23-29 | decoding gives the text back and no `<`, `>` or `"` is left |
| Html.CodeBlockRoundTrip | page/tools/build-wiki.mjs:220-232 | rendering throws exactly on inherited names; otherwise the code element decodes to the fenced lines, exactly when there is at least one |
| Html.HeadReadsBack | page/tools/build-wiki.mjs:220-229 | the label and the language of a code block can be read from its head, the label being the one of the five known languages or the name in upper case |
| Decimal.ReadBack | page/tools/build-wiki.mjs:97-97 | decimal printing can be read back |
| Decimal.SplitAtDash | src/WebSocketServer.cpp:43-44 | a dash before digits can be found again, so both parts are determined |
| Decimal.FallbackIds | src/WebSocketServer.cpp:38-45 | fallback ids are equal only for equal time and counter, and at most 41 characters fit the 96-byte buffer |
| Anchors.Occurrence | page/tools/build-wiki.mjs:92-102 | every number up to a slug's final count is given to one of its headings |
| Anchors.EqualIdsClash | page/tools/build-wiki.mjs:92-102 | two headings share an id only if one slug is another's with a number it is repeated up to |
| Anchors.ClashEqualIds | page/tools/build-wiki.mjs:92-102 | and whenever that is so, two headings do |
| Anchors.DistinctExactlyWithoutClash | page/tools/build-wiki.mjs:92-102 | ids are pairwise distinct exactly when there is no such pair |
| Anchors.DeduplicationFails | page/tools/build-wiki.mjs:92-102 | three headings two of which get the same id |
| Blocks.Partition | page/tools/build-wiki.mjs:104-215 | every line is consumed once and in order; the cursor ends at the last line, or one past it exactly after an unterminated fence or contents section |
| Blocks.OwnLines | page/tools/build-wiki.mjs:104-215 | the lines of a block, alone, make the same block |
| Blocks.ThrowsExactly | page/tools/build-wiki.mjs:133-136 | one turn throws on a heading with a line terminator in its text or a fence with an inherited name, and on nothing else |
| Blocks.CleanExactly | page/tools/build-wiki.mjs:85-218 | a page is converted exactly when no turn of its scan starts at such a line |
| Blocks.ThrowingHeading | page/tools/build-wiki.mjs:133-136 | a one-line page with a carriage return in its heading is not converted |
| Blocks.ThrowingFence | page/tools/build-wiki.mjs:221-222 | nor is one with a fence named `constructor` |
| Blocks.CodeLines | page/tools/build-wiki.mjs:122-130 | every code block of a page is made of lines of the page, under a name that is not inherited |
| Blocks.NeverThrows | page/tools/build-wiki.mjs:85-218 | a page without any such line, wherever it stands, is converted |
| Blocks.TakeLocal | page/tools/build-wiki.mjs:47-52 | a closed block does not look beyond a blank line, the one-line table lookahead included |
| Blocks.Compositional | page/tools/build-wiki.mjs:104-215 | after a closed document and a blank line any document is scanned as if alone |
| Blocks.BlocksCompose | page/tools/build-wiki.mjs:104-215 | so the blocks are those of the one followed by those of the other |
| Blocks.Swallowed | page/tools/build-wiki.mjs:116-127 | after an unterminated section a following paragraph disappears |
| Blocks.ComposesExactlyWhenClosed | page/tools/build-wiki.mjs:104-215 | blocks compose with every following document exactly when the first leaves nothing open |
| Markdown.PieceTaken | page/tools/build-wiki.mjs:104-215 | one turn over a printed heading, rule, fence, table, quote, list, paragraph, language line or contents section takes its lines and makes that block, or none |
| Markdown.ReadsBack | page/tools/build-wiki.mjs:104-215 | a document printed from any such pieces, with blank lines left out where they may be, is read back as their blocks |
| Markdown.PageReadsBack | page/tools/build-wiki.mjs:85-218 | and so is its text, with either kind of line break |
| Markdown.LooseHeading | page/tools/build-wiki.mjs:133-136 | the level is the number of hashes and the text what stands between the white space |
| Markdown.LooseBullet | page/tools/build-wiki.mjs:191-195 | an item loses its indentation, its dash and all white space behind it |
| Markdown.LooseQuote | page/tools/build-wiki.mjs:180-184 | a quoted line loses its marker and one white space at most |
| Markdown.LooseMarker | page/tools/build-wiki.mjs:150-156 | a column is centred with both colons, right with the last only, and left otherwise |
| Convert.ReadFence | page/tools/build-wiki.mjs:124-126 | the loop collects the lines up to the next fence or the end |
| Convert.SkipContents | page/tools/build-wiki.mjs:115-116 | the loop stops at the first rule or the end |
| Convert.ReadRows | page/tools/build-wiki.mjs:158-163 | the loop splits every following row line |
| Convert.ReadQuote | page/tools/build-wiki.mjs:180-184 | the loop strips the marker off every quoted line |
| Convert.ReadList | page/tools/build-wiki.mjs:191-195 | the loop strips the dash off every list line |
| Convert.ReadParagraph | page/tools/build-wiki.mjs:201-213 | the loop gathers lines up to the next block boundary, looking one line ahead for tables |
| Convert.Scan | page/tools/build-wiki.mjs:104-215 | one turn of the main loop moves the cursor and makes the block as specified |
| Convert.Classify | page/tools/build-wiki.mjs:106-200 | the chain of tests picks the specified branch |
| Convert.AnchorFor | page/tools/build-wiki.mjs:92-102 | counts the slug and returns the id of this occurrence |
| Convert.Convert | page/tools/build-wiki.mjs:85-218 | terminates on every page with the blocks of the scan, one entry per heading with its id, and the set of those ids, or throws exactly when a turn starts at a bad line |
| Convert.ThrowingPages | page/tools/build-wiki.mjs:133-136 | two pages it throws on, one of each kind |
| Convert.PageCodeRoundTrip | page/tools/build-wiki.mjs:122-130 | every code block of every page renders and decodes to its fenced lines, exactly when there is at least one |
| Convert.EntriesAreHeadings | page/tools/build-wiki.mjs:133-139 | there is one entry per heading, with its level, its text without backticks and the slug of its text |
| Convert.EntryIds | page/tools/build-wiki.mjs:133-142 | the ids of the entries are those of their slugs, in heading order |
| Convert.PageIdsDistinct | page/tools/build-wiki.mjs:133-142 | the headings of a page have distinct ids exactly when their slugs do not clash |
| Convert.TocIsFaithful | page/tools/build-wiki.mjs:308-315 | the contents list each heading of level two to four once and in order, and every link leads to an id on the page |
| ThreadSafeQueue.ThreadSafeQueue.Push | src/ThreadSafeQueue.h:25-31 | appends, keeping what left plus what is there equal to what was pushed |
| ThreadSafeQueue.ThreadSafeQueue.PushWithLimit | src/ThreadSafeQueue.h:37-47 | drops the oldest item exactly when the limit is reached, and says false exactly then |
| ThreadSafeQueue.ThreadSafeQueue.TryPop | src/ThreadSafeQueue.h:51-58 | takes the oldest item, or reports that there is none |
| ThreadSafeQueue.ThreadSafeQueue.PopBlocking | src/ThreadSafeQueue.h:62-68 | takes the oldest item after the wait |
| ThreadSafeQueue.ThreadSafeQueue.Drain | src/ThreadSafeQueue.h:75-92 | calls back for every item in order even when some calls throw, counts them, and leaves the queue empty |
| ThreadSafeQueue.FailingIsThrowing | src/ThreadSafeQueue.h:75-92 | the callbacks that fail are exactly those that throw, as often as their items were queued |
| ThreadSafeQueue.QueueConserves | src/ThreadSafeQueue.h:25-92 | in every run what left followed by what is there is what was pushed; items leave exactly with pops that find one and limited pushes at the limit, and drops are these pushes; one positive limit throughout bounds the size |
| Reassembly.ReceiveLoop | tests/EuroScopeDataBridge.TestProject/Services/WebSocketService.cs:127-152 | the loop hands on what the specification of the stream says |
| Reassembly.Reassembles | tests/EuroScopeDataBridge.TestProject/Services/WebSocketService.cs:118-152 | however text messages are cut, with binary ones between them, the payloads come out whole and in order; nothing after a close and no unfinished message does |
| MainViewModel.MainViewModel.AddLog | tests/EuroScopeDataBridge.TestProject/ViewModels/MainViewModel.cs:384-395 | trims the oldest thousand entries at ten thousand, then appends |
| MainViewModel.MainViewModel.Upsert | tests/EuroScopeDataBridge.TestProject/ViewModels/MainViewModel.cs:397-437 | replaces the first row with this callsign or appends |
| MainViewModel.MainViewModel.TrackRequest | tests/EuroScopeDataBridge.TestProject/ViewModels/MainViewModel.cs:149-154 | at most 256 pending requests, the new one among them, at the price of one entry when full |
| MainViewModel.LogIsSuffix | tests/EuroScopeDataBridge.TestProject/ViewModels/MainViewModel.cs:384-395 | after n additions the log is the suffix of length n, or 9001 + (n - 10001) mod 1000 beyond ten thousand |
| MainViewModel.UpsertsInPlace | tests/EuroScopeDataBridge.TestProject/ViewModels/MainViewModel.cs:397-437 | the first row with the callsign is replaced where it stands, every other row stays, and a new one comes last |
| MainViewModel.UpsertRefines | tests/EuroScopeDataBridge.TestProject/ViewModels/MainViewModel.cs:397-437 | an upsert keeps callsigns distinct and is a map update |
| MainViewModel.TableIsLatest | tests/EuroScopeDataBridge.TestProject/ViewModels/MainViewModel.cs:397-437 | any sequence of upserts leaves one row per callsign, the latest |

## Left out

- Handlers.ActionReplyCoherent: the setter and action branches are one outcome chosen by the SDK, whose refusal text is taken to be non-empty, as the literals in those branches are.
- Handlers.EveryReplyIsCoherent: rests on the same outcome for setter and action requests.
- MainViewModel.MainViewModel.TrackRequest: which entry is evicted is not stated, because the order of a .NET dictionary after removals is not insertion order.
- WebSocketServer.WebSocketServer.BeginStop: `Stop` is one function in the source and two halves here, because what happens while it waits is other threads' work; the whole of it is in `Protocol`.
- ThreadSafeQueue.ThreadSafeQueue.PopBlocking: is called when an item is there; the wait itself is not modelled.
- Liveness: that the wait of `Stop` ends, that the condition variable is signalled in time, and the lifetime of the object after the last worker has decremented the counter and before it notifies.
- Start: its failure paths, and calling it again without `Stop` after the IO thread has died; `Protocol` restarts only a stopped server.
- The closing handshake: closing a connection takes its queue away at once, where websocketpp may still flush it.
- websocketpp, Asio, sockets, Winsock start-up and the DLL entry points.
- Message text: JSON dumping, UTF-8 replacement, the order of the listed events, and the limit on inbound message size.
- The UUID half of `GenerateClientId`; ids are assumed fresh.
- The width of `m_activeWorkers`, of counter increments and of byte sums; only the decrement that could pass zero wraps.
- The roughly 45 setter and action branches of `HandleRequest`, which are one outcome chosen by the SDK, and the field lists of the serializers.
- Exceptions inside the serializers of events and in `PushEvent`: a push may be abandoned after the gate, without saying why.
- `inline`, `slugify`, the HTML of tables, headings, lists and quotes, page templates and link checking.
- The client beyond its receive loop, log, tables and pending requests: decoding of UTF-8, the 12 MB receive buffer, timestamps, XAML.
