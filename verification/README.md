# Woole, modelled and proved in Dafny

Woole is a tunnel. A server turns every HTTP request into a numbered record, lists it in the
session's table, sends it over the session's channel to a client, and matches the client's reply by
id; the handler waits for the reply, a timeout or the end of the request. A client proxies each
request, replies, and keeps a bounded store of records that a browser can watch live. This project
models that protocol and the state around it, and proves what holds of every run.

Check everything with `dafny verify dfyconfig.toml`.

## How the model is built

- **Shared state functions.** `SessionTable` (the table, counter and channel of a session),
  `RecordStore.Added`/`Cleared` (the client's store), `SessionManager.Decide` (how a handshake is
  answered), `Expiry.Negotiate` and `Broker.Apply` each define one state change. The classes
  `Session`, `SessionManager`, `Records` and `Broker` update their fields in place as the Go code does,
  and every method is proved equal to those functions; the state machines below take their steps from
  the same functions.
- **The tunnel** (`Protocol`). Every goroutine moves by single steps in any interleaving: handlers,
  senders (also stale ones of broken streams), receivers (lookup, assignment and signal are three
  steps), client tasks, and the client goroutines that store the server's time. Streams lose messages
  from the end and break at any time. A message is marshalled when it is sent, not when it is queued.
  The proof is a conservation argument: each request owns three tokens (its one reply, its one stored
  record, its one elapsed-time message), `ProtocolInvariant.At` says which place a token is in, and
  what is known about a message depends on the place of its token. `EndToEnd` shows that the steps
  suffice to serve a request on a quiet stream, `Progress` that a stream in any reached state can be
  worked off first.
- **Around the tunnel.** `Losses` is the other direction of the conservation argument and says what a
  loss means, `Channels` is about the session channel as a queue, `ClientStores` and `Attribution` about
  what reaches which client's store.
- **Sessions** (`Lifecycle`, with `Ownership` on who gets which session and `SessionRecords` on what
  its table says), **the store over runs** (`RecordRuns`, `RecordWindow`), **the broker**
  (`BrokerRuns`) and **the live view** (`LiveView`) are state machines of their own. `Witnesses` and
  the lemmas named `...Happens` give runs from the empty system that reach each situation in which
  something goes wrong. An *orderly* run avoids the three situations of `Lifecycle.Orderly`, an
  *ordered* one never registers a listener whose unsubscribe was taken before; both conditions are
  proved exact. **The connection loop** (`Reconnect`) is a loop over an arbitrary network; its statuses
  are read by an automaton.
- **Texts.** `Template`, `PercentEncoding` with `QueryParams`, and `DurationFormat` with `Duration`.

Fields named as history in the code (`origin`, `computed`, `raced`, `offered`, `since`, ...) exist to
state what happened and decide no step. One guard mentions one: a client computes only for a message
whose `origin` exists, which holds in every run, so that the computation can be written down there.
Time is in integer nanoseconds. Ids are printed with an injective decimal function. Clocks, random suffixes, the network, the order in which Go walks
a map and the choice of Go's `select` are parameters or arbitrary choices.

## Where the code and its texts differ

- `docs/client.md:81` and the flag text promise that `reconnect-attempts` 0 means no limit. In the code
  it means no retry (`Reconnect.ZeroMeansNoRetry`).
- `maxRecords` does not bound the record store: a deletion cursor that comes by before an id is added
  misses it, and the store stays one larger for each miss. In every run the store is bounded if and
  only if the j-th id the cursor has passed since the last clear was among the first maxRecords + j ids
  added since (`RecordRuns.BoundedExactly`). A clear leaves the cursor where it was, so that even
  additions in id order exceed the bound after it (`RecordRuns.ClearOverflows`).
- A handler that times out may still answer with the late reply, or with the 504's header and the late
  code and body, if a receiver has looked the record up and not yet assigned
  (`ProtocolTheorems.TimeoutAnswerExactly`).
- Two overlapping streams on one session let the end of the first mark the connected session idle and
  the timer close it (`LifecycleTheorems.OverlapReapsConnected`, `OverlapHappens`).
- Server ids are unique within a session only. A request in flight while its client changes session is
  stored with an id of the old session, and an elapsed-time message of the new one may update it
  (`Witnesses.ConfusedHitHappens`). Whether it does is a matter of the session alone
  (`Attribution.HitIsOwnExactly`).
- Go's `select` may take an unsubscribe before the matching subscribe, after which a dispatch panics
  (`BrokerRuns.OvertakenSubscribePanics`, `BrokerRuns.OvertakingHappens`).
- The sniffer takes its snapshot without waiting for its listener to be registered, and may then miss a
  record for good (`LiveView.SnapshotIsExact`).
- Template values and keys with braces can make the result depend on the order of the map. Which
  values and which keys are harmless is proved exactly (`Template.PlainIsExact`,
  `Template.KeyIsExact`); `Template.BraceInKeyDependsOnOrder` is a concrete case.
- Duration pieces without white space between them are matched but only the last one of each field
  counts: `2h30m` is half an hour (`Duration.GluedIsLast`). The expression accepts fractions that the
  integer conversion then refuses (`Duration.FractionIsRefused`).

## Model

| member | source | states |
|---|---|---|
| EndToEnd.RequestIsServed | internal/app/server/recorder/service.go:24-82 | from every state with a connected client on a quiet stream a run takes any request to its own response, stores it at the client under the server's id with the server's time, and leaves the session ready for the next request |
| Progress.AlwaysServed | internal/app/server/recorder/service.go:24-82 | the tunnel never gets stuck: from every reached state with a client reading from a connected stream whose sender and receiver live, whatever is queued, on the wire or in flight, a run takes any new request to its own response and stores it at the client with its time |
| ProtocolTheorems.AtMostOnce | internal/app/server/recorder/service.go:54-82 | in every reachable state each request's reply, stored record and elapsed-time message is in at most one of channel, sender's hand, wire, client task, reply wire, receiver, applied signal and store, stale senders included |
| ProtocolTheorems.NeverFaults | internal/app/server/recorder/adt/session.go:64-73 | in every run a receiver that is to close a signal finds it open, a handler that is to read its response finds one, and so no record's signal is closed twice and no nil response dereferenced |
| ProtocolTheorems.WireCarriesOwnRequest | internal/app/server/recorder/adt/session.go:47-62 | although records are marshalled at send time, the wire holds REQUEST with the handler's own request or POST_RESPONSE with its own time, under its own id and session |
| ProtocolTheorems.NoCrossTalk | internal/app/server/recorder/service.go:24-52 | a woken handler answers with what a client computed from that very request; one that gave up answers with parts of the 504 and of that same response only |
| ProtocolTheorems.TimeoutAnswerExactly | internal/app/server/recorder/service.go:34-46 | a handler that stops waiting answers 504 "Gateway Timeout" in every continuation if no receiver holds its record between lookup and assignment; otherwise some continuation answers differently, even with a mixed answer |
| Witnesses.RacedTimeoutHappens | internal/app/server/recorder/adt/session.go:64-73 | a run from the empty system in which the receiver has found the record when its handler gives up |
| Witnesses.MixedAnswerHappens | internal/app/server/recorder/service.go:43-46 | so a run from the empty system ends with the 504's header and the late response's code and body |
| Witnesses.WaitingMayGiveUp | internal/app/server/recorder/service.go:34-46 | in every reached state a waiting handler may give up, even with its reply already there, and uninterrupted it then answers exactly the 504 |
| ProtocolTheorems.UnracedTimeoutAnswers504 | internal/app/server/recorder/service.go:43-46 | unless a receiver holds the record when the 504 is written, every finish answers exactly the 504 |
| ProtocolTheorems.RacedIsFixedForever | internal/app/server/recorder/service.go:43-46 | once a handler has given up, no later run changes whether a receiver could overtake it |
| ProtocolTheorems.TableIsLiveHandlers | internal/app/server/recorder/adt/session.go:47-58 | the table holds a record under an id if and only if it is the id of a handler between its put and its remove |
| ProtocolTheorems.LateReplyIgnored | internal/app/server/recorder/adt/session.go:64-69 | a reply looked up after the handler removed its record changes nothing but the receiver |
| ProtocolTheorems.LiveReplyWakes | internal/app/server/recorder/adt/session.go:64-73 | a reply received while its handler waits is found, assigned and signalled, after which the response branch is open with the handler's own response |
| ProtocolSteps.RunKeepsInv | internal/app/server/recorder/service.go:24-82 | every run of every interleaving keeps token uniqueness, what is known per place, the table, the numbering and freedom from faults |
| ProtocolInvariant.Backward | internal/app/server/recorder/service.go:54-82 | conservation: every token found after a step was in one definite place before it |
| ProtocolInvariant.BeforeInjective | internal/app/server/recorder/service.go:54-82 | no step duplicates a token: two places after it come from two places before it |
| Losses.LostExactly | internal/app/server/recorder/service.go:54-82 | conservation in the other direction: in every reached state a step leaves a request's reply, record or elapsed-time message in the system unless it is one of ten losing steps and finds it at the place that step loses from |
| Losses.LostMeans504 | internal/app/server/recorder/service.go:34-46 | once a request's message or its reply is lost before its handler gave up, every continuation answers that request with exactly the 504: nothing brings it back or sends it again |
| Losses.BrokenIsSilent | internal/app/server/recorder/service.go:54-82 | a stream that breaks carries nothing new in either direction, ever after |
| Losses.BrokenSendEndsSender | internal/app/server/recorder/service.go:54-62 | a send that breaks the stream ends its sender, which takes and sends nothing more in any continuation |
| Losses.EndedReceiverIsDeaf | internal/app/server/recorder/service.go:64-82 | a receiver that ends takes no reply off its stream in any continuation |
| Channels.ChannelIsFifo | internal/app/server/recorder/adt/session.go:47-62 | in every run what senders have taken from a session's channel and what waits in it is all that handlers sent, in the order sent; at most 32 messages wait, and a send goes through exactly when fewer do and the channel is open |
| Channels.ClosedIsDrained | internal/app/server/recorder/adt/session.go:97-103 | after a session is closed nothing is sent on its channel any more, and what waits in it is still taken in order |
| Attribution.SameIdExactly | internal/app/client/recorder/adt/records.go:90-110 | in every run, two stored records with one non-empty server id are the same record if and only if their requests came through the same session |
| Attribution.HitIsOwnExactly | internal/app/client/recorder/service.go:128-139 | in every run, the record an elapsed-time message hits is its own request's if and only if that record's request came through the message's session |
| Attribution.ServerIdsDistinct | internal/app/client/recorder/adt/records.go:90-110 | if no request or elapsed-time message straddles a reconnect to another session, non-empty server ids in a client's store are pairwise distinct |
| Attribution.ElapsedUpdatesOwnRecord | internal/app/client/recorder/service.go:128-139 | in such runs an elapsed-time message stores its own request's measured time in that request's record, or updates nothing |
| Attribution.OwnRecordIsFound | internal/app/client/recorder/service.go:128-139 | and if the record of that request is in the store under its server id, it is found |
| Attribution.StoredTimesAreOwn | internal/app/client/recorder/service.go:128-139 | in such runs every stored time is the time measured for the request of its record |
| Attribution.StraddlingRecordIsForeign | internal/app/client/recorder/service.go:79-80 | a request that straddles a reconnect to another session is stored after the reset with an id of the old session |
| ClientStores.StoresAreApart | internal/app/client/recorder/adt/records.go:103-110 | no step touches another client's records, and opening a stream blanks the server ids of its own client's and nothing else |
| ClientStores.ReplayStaysUntouched | internal/app/client/recorder/service.go:23-46 | in every continuation a replayed record keeps an empty server id and no time until it is evicted |
| Witnesses.ConfusedHitHappens | internal/app/client/recorder/service.go:112-137 | a run from the empty system in which an old-session and a new-session request are stored under one id, so that the search may return, and the time be stored in, the wrong record |
| Sequence.Seq.NextUint32 | pkg/sequence/sequence.go:14-16 | the k-th call returns k modulo 2^32 |
| Sequence.Seq.NextString | pkg/sequence/sequence.go:26-28 | the k-th call returns that number in decimal |
| Sequence.AfterIsRemainder | pkg/sequence/sequence.go:14-16 | k wrapping increments leave k mod 2^32 |
| Sequence.IssuedIdsCoincide | pkg/sequence/sequence.go:14-28 | two id strings of one counter are equal if and only if their positions agree modulo 2^32 |
| Sequence.PrefixedInjective | internal/app/server/recorder/adt/session.go:48-48 | ids with the server's prefix are equal exactly when the numbers are |
| Sequence.DecimalIsCanonical | pkg/sequence/sequence.go:26-28 | printed ids are digits without a leading zero |
| Signal.Signal.SendLast | pkg/signal/signal.go:22-27 | closes the current channel and keeps it |
| Signal.Signal.Send | pkg/signal/signal.go:14-20 | closes the current channel and installs a fresh one |
| Signal.ReceiveAroundSendLast | pkg/signal/signal.go:22-34 | a waiter is woken whether it received before or after SendLast |
| Signal.ReceiveAroundSend | pkg/signal/signal.go:14-34 | with Send exactly the waiters that received before it are woken |
| Session.Session.constructor | internal/app/server/recorder/adt/session.go:23-37 | a new session is not idle, its timer is stopped, table and channel are empty, the count is zero |
| Session.Session.AddRecordAndPublish | internal/app/server/recorder/adt/session.go:47-52 | numbers the record, lists it under its id and queues the record itself, nothing else |
| Session.Session.RemoveRecord | internal/app/server/recorder/adt/session.go:54-58 | returns what was listed and leaves a nil entry |
| Session.Session.SendServerElapsed | internal/app/server/recorder/adt/session.go:60-62 | queues a clone with the id and the time, leaving table and count alone |
| Session.Session.SetRecordResponse | internal/app/server/recorder/adt/session.go:64-73 | an unknown or removed id changes nothing; otherwise response and step are set and the signal closed |
| Session.Session.SetIdleTimeout | internal/app/server/recorder/adt/session.go:75-78 | marks idle and arms the timer, telling whether it was running |
| Session.Session.StopIdleTimeout | internal/app/server/recorder/adt/session.go:80-83 | clears idle and stops the timer, telling whether it was running |
| Session.Session.Close | internal/app/server/recorder/adt/session.go:97-103 | stops the timer and closes the channel, leaving records and count |
| SessionRecords.ListedUntilRemoved | internal/app/server/recorder/adt/session.go:47-52 | over every run, through disconnects, handshakes and the end of the session, a numbered request is found under its id until it is removed |
| SessionRecords.RemovedForGood | internal/app/server/recorder/adt/session.go:54-58 | once removed, it is never found again below 2^32 ids |
| ServerService.GetRecordWhenReady | internal/app/server/recorder/service.go:24-52 | one call's whole effect: the record's id, its answer or the 504 "Gateway Timeout", its time, a nil entry left behind, and the time queued exactly when a reply came |
| ServerService.SendServerMessages | internal/app/server/recorder/service.go:54-62 | the queue is sent from the front up to the first breaking send; that message is lost, refused ones are skipped, the rest stays for the next sender |
| ServerService.DeliveredExactly | internal/app/server/recorder/service.go:54-62 | the messages delivered are those whose send succeeded and no others, each once and in order |
| SessionManager.SessionManager.Register | internal/app/server/recorder/adt/sessionmanager.go:20-31 | refuses exactly a non-empty bearer unequal to the new one; otherwise a fresh session takes the generated slot |
| SessionManager.SessionManager.Deregister | internal/app/server/recorder/adt/sessionmanager.go:33-37 | closes the slot's occupant and leaves a nil entry |
| SessionManager.SessionManager.RecoverSession | internal/app/server/recorder/adt/sessionmanager.go:49-65 | nothing for an empty bearer or free slot, the session on equal bearers, otherwise an error |
| SessionManager.CreateOrRetrieveSession | internal/app/server/recorder/service.go:110-149 | a presented bearer gets the occupant of the slot if it is the occupant's and an error otherwise; on a free slot it is accepted only if it is that of the client's own key; without one, or accepted, a new session takes the slot, a suffixed one or a random one; nothing else changes |
| Ownership.HandshakeExactly | internal/app/server/recorder/service.go:110-149 | every handshake in every state: which session the stream gets, what is registered and under which id, and when nothing changes |
| Ownership.OnlyOwnersGetIn | internal/app/server/recorder/adt/sessionmanager.go:49-65 | in every run, orderly or not, a stream is on a session only because its own handshake created the session under the bearer of its key or presented the session's id and bearer |
| Ownership.StrangersStayOut | internal/app/server/recorder/adt/sessionmanager.go:49-81 | over every run in which nobody presents a session's bearer, no stream gets onto that session |
| SessionManager.OpenTunnel | internal/app/server/recorder/controller.go:68-88 | stops the idle timer and tells the client the second of a deadline that is the server's timeout, the client's own expiry where that is due a second or more before, or without either the stored one |
| SessionManager.EndTunnel | internal/app/server/recorder/controller.go:100-111 | marks idle and arms the timer, with no delay if the deadline ended the stream |
| LifecycleTheorems.SessionLife | internal/app/server/recorder/adt/sessionmanager.go:20-47 | in every orderly run, overlapping streams included, an unclosed session holds its own slot, its timer runs iff it is idle, a connected session is neither idle nor reaped, and Close ran once iff closed |
| LifecycleTheorems.ReaperIsExact | internal/app/server/recorder/adt/sessionmanager.go:33-47 | the reaper closes and unlists the session whose timer fired and touches no other |
| LifecycleTheorems.OrderlyIsExact | internal/app/server/recorder/controller.go:62-111 | every orderly continuation of a step keeps what SessionLife promises if and only if the step does not end a stream beside a connected one, fire after the session was claimed again, or register over an occupied slot |
| LifecycleTheorems.OverlapHappens | internal/app/server/recorder/controller.go:62-68 | an orderly run from the empty system to two connected streams on one session |
| LifecycleTheorems.LateFireHappens | internal/app/server/recorder/service.go:122-133 | an orderly run to a claimed session whose timer may still fire |
| LifecycleTheorems.CollisionHappens | internal/app/server/recorder/adt/sessionmanager.go:83-95 | an orderly run to a registration whose generated id is taken |
| LifecycleTheorems.OverlapReapsConnected | internal/app/server/recorder/controller.go:100-109 | with two streams on a session the end of one leads to the other's session being closed |
| LifecycleTheorems.LateFireLeavesClosed | internal/app/server/recorder/adt/sessionmanager.go:42-46 | a timer that fires between recovery and StopIdleTimeout leaves a stream on a closed session |
| LifecycleTheorems.SurvivesWithoutFire | internal/app/server/recorder/adt/session.go:75-103 | unless its own timer fires, a session keeps slot, identity and at least its count over any orderly run |
| LifecycleTheorems.Resume | internal/app/server/recorder/service.go:110-133 | a client that returns with its id and bearer before its timer fired gets the same session, untouched, and the next record id is one that session never issued |
| LifecycleTheorems.NextIdIsNew | internal/app/server/recorder/adt/session.go:47-49 | below 2^32 ids, the next id differs from all issued before |
| LifecycleTheorems.ResumeTooLate | internal/app/server/recorder/service.go:135-148 | after the timer fired the client gets a new session with the same id and bearer if the slot is free, and otherwise the occupant or a refusal |
| Expiry.OneConnection | internal/app/server/recorder/controller.go:71-85 | with an expiry in hand, no connection lengthens it and the stream's deadline lies within that second, whatever the server's timeout |
| Expiry.DeadlineExactly | internal/app/server/recorder/controller.go:71-85 | the deadline in each case: now plus the timeout, the stored expiry, or the second in hand unless the timeout ends before that second is over |
| Expiry.NeverCutShort | internal/app/server/recorder/controller.go:71-85 | over any reconnects no stream ends before a second that the client's expiry and every server's timeout reach |
| Expiry.ExpiryOnlyShrinks | internal/app/client/app/settings.go:203-210 | over any sequence of reconnects a non-zero expiry second never grows and never returns to zero |
| Expiry.EveryDeadlineBounded | internal/app/server/recorder/service.go:97-101 | every later deadline is less than one second past the first one, despite truncation to seconds |
| Expiry.DeadlineMayMovePast | internal/app/server/recorder/controller.go:75-79 | that bound is reached to the nanosecond |
| RecordStore.Records.AddRecord | internal/app/client/recorder/adt/records.go:64-73 | inserts, and on overflow advances the cursor by one and deletes the id it names |
| RecordStore.Records.GetByServerId | internal/app/client/recorder/adt/records.go:90-101 | some record with the id in whatever order the map is walked, none exactly if there is none |
| RecordStore.Records.ResetServerIds | internal/app/client/recorder/adt/records.go:103-110 | blanks every server id and changes nothing else |
| RecordStore.Records.SetServerElapsed | internal/app/client/recorder/service.go:128-137 | stores time and step in the record found, and in no other |
| RecordStore.Records.RemoveAll | internal/app/client/recorder/adt/records.go:112-118 | empties the map, leaves the cursor where it was, and wakes whoever waits for a clear |
| RecordRuns.EvictionSparesRecent | internal/app/client/recorder/adt/records.go:64-73 | in every run, with clears, abandoned ids and any completion order, an evicted record has at least maxRecords later ids |
| RecordRuns.SizeBound | internal/app/client/recorder/adt/records.go:64-118 | in every run evicted ids strictly increase and the size is at most maxRecords plus the evictions that hit nothing |
| RecordRuns.StoreIsExact | internal/app/client/recorder/adt/records.go:64-118 | in every run, clears included, the order of the additions since the last clear decides the cursor, the misses, the content, and the size: the smaller of their number and maxRecords, plus the misses since |
| RecordRuns.BoundedExactly | internal/app/client/recorder/adt/records.go:64-118 | in every run the store is within maxRecords if and only if the cursor has not missed since the last clear, which is if and only if the j-th id it passed since was among the first maxRecords + j ids added since |
| RecordRuns.AddStaysBounded | internal/app/client/recorder/adt/records.go:64-118 | in every run, clears included, an addition keeps the store within maxRecords if and only if there is room or the id under the cursor is found |
| RecordRuns.UntimelyButBounded | internal/app/client/recorder/adt/records.go:69-72 | timeliness is sufficient, not necessary |
| RecordRuns.ClearOverflows | internal/app/client/recorder/adt/records.go:112-118 | a run in id order in which a clear, which leaves the cursor behind, makes the store exceed maxRecords |
| RecordRuns.ReorderTolerance | internal/app/client/recorder/adt/records.go:53-73 | if every id is added before maxRecords later ids are issued and nothing is cleared, the cursor never misses, the size never exceeds maxRecords, and the store is exactly what was added past the cursor |
| RecordWindow.SlidingWindow | internal/app/client/recorder/adt/records.go:64-73 | added in order, map and cursor are exactly the window past the cursor, for every history length, limit and number of ids never added |
| RecordWindow.WindowContents | internal/app/client/recorder/adt/records.go:64-73 | so an id is present exactly when it is among the newest maxRecords plus missing ids |
| RecordWindow.UnlimitedAndNegative | internal/app/client/recorder/adt/records.go:69-72 | limit 0 keeps everything; a limit negative as an int keeps nothing |
| Reconnect.StartConnectionWithServer | internal/app/client/recorder/connection.go:23-65 | the loop terminates for every network with finitely many connections; a pass is followed by another exactly if the last session had a bearer, fewer than the limit of passes failed since, and the error is Unavailable or Internal; an outage that lasts publishes exactly the limit of RECONNECTING and then DISCONNECTED |
| Reconnect.RetriesExactly | internal/app/client/recorder/connection.go:173-211 | an if-and-only-if on the network's outcomes for going round again |
| Reconnect.OutageUsesEveryTry | internal/app/client/recorder/connection.go:28-63 | an outage that lasts is given exactly the limit of tries, whatever came before |
| Reconnect.LegalSequence | internal/app/client/recorder/connection.go:28-63 | for a limit of at least 0 the statuses are CONNECTING, then DISCONNECTED, or CONNECTED and outages of at most that many RECONNECTING, ending in DISCONNECTED |
| Reconnect.PhaseAfter | internal/app/client/recorder/connection.go:28-63 | the loop variable counts the reconnections of the present outage |
| Reconnect.FirstFailureIsFinal | internal/app/client/recorder/connection.go:173-189 | without a session the first failure ends the loop |
| Reconnect.ZeroMeansNoRetry | internal/app/client/recorder/connection.go:32-36 | with limit 0 no pass is ever repeated |
| Broker.OfferInAnyOrder | pkg/channel/broker.go:52-59 | walking the subscribers in any order gives the same outcome as offering to all at once |
| Broker.CloseInAnyOrder | pkg/channel/broker.go:38-43 | closing the subscribers in any order gives the same outcome |
| Broker.Broker.TakePublish | pkg/channel/broker.go:52-59 | the publish case takes the oldest message and offers it to every subscriber |
| Broker.Broker.TakeStop | pkg/channel/broker.go:38-43 | the stop case ends the loop and closes every subscriber |
| Broker.Broker.TakeSubscribe | pkg/channel/broker.go:45-46 | the subscribe case registers the listener |
| Broker.Broker.TakeUnsubscribe | pkg/channel/broker.go:48-50 | the unsubscribe case unlists and closes the listener |
| Broker.Broker.Subscribe | pkg/channel/broker.go:64-75 | queues a fresh listener, or an error that changes nothing once stopped |
| Broker.Broker.Publish | pkg/channel/broker.go:86-96 | queues the message behind those that wait, at most 8, or an error that changes nothing once stopped |
| BrokerRuns.CloseSafety | pkg/channel/broker.go:36-50 | in every ordered run nothing sends on or closes a closed listener, and after the stop every registered listener was closed exactly once |
| BrokerRuns.Delivery | pkg/channel/broker.go:45-59 | every listener was offered exactly what was dispatched between its registration and its release, or until now; what it got and still has is an in-order duplicate-free selection of that, and accepted plus dropped is everything offered |
| BrokerRuns.PublishIsFifo | pkg/channel/broker.go:52-96 | in every run, ordered or not, what was dispatched and what waits is what was published, in the order of the calls |
| BrokerRuns.DeliveredInOrder | pkg/channel/broker.go:52-59 | what a listener accepts are published messages at ever later positions in the order of the Publish calls |
| BrokerRuns.DropsOnlyWhenFull | pkg/channel/broker.go:54-58 | a dispatch drops for exactly the subscribers with 8 messages unread |
| BrokerRuns.OrderedIsExact | pkg/channel/broker.go:45-50 | no ordered continuation of a step panics if and only if the step does not register a listener whose unsubscribe was taken before |
| BrokerRuns.OvertakingHappens | pkg/channel/broker.go:64-96 | a run from the start to the state in which the loop may take the unsubscribe first |
| BrokerRuns.OvertakenSubscribePanics | pkg/channel/broker.go:45-59 | otherwise a closed listener becomes a subscriber and the next dispatch panics |
| LiveView.NoGap | internal/app/client/sniffer/controller.go:17-33 | with the listener registered before the snapshot, every record ever added is in the snapshot, was evicted or cleared before it, or is offered to the listener |
| LiveView.SnapshotHolds | internal/app/client/sniffer/controller.go:30-33 | the snapshot holds the records added before it and neither evicted nor cleared by then, no others, and no later event changes it |
| LiveView.SnapshotIsExact | internal/app/client/sniffer/controller.go:17-33 | a snapshot leaves no gap in any continuation if and only if the broker has registered the listener by then, or never will |
| LiveView.EarlySnapshotMisses | internal/app/client/sniffer/controller.go:17-33 | while the listener may still be registered a snapshot can miss a record for good, whatever is queued in the broker |
| LiveView.EarlySnapshotHappens | internal/app/client/sniffer/controller.go:17-17 | a run from the start to that situation |
| Template.Apply | internal/pkg/template/template.go:16-27 | the result is that of the replacements in some order of the map, then the erasure; for plain literals, plain values and harmless keys it is the simultaneous substitution |
| Template.OrderIndependent | internal/pkg/template/template.go:16-27 | for literals and values without "{{" that do not end in "{", and harmless keys, every order gives the simultaneous substitution with unknown tokens erased |
| Template.PlainIsExact | internal/pkg/template/template.go:19-24 | a value is put in as it is in every template, map and order if and only if it has no "{{" and does not end in "{" |
| Template.KeyIsExact | internal/pkg/template/template.go:19-21 | a key replaces its own tokens and nothing else in every template, map and order if and only if it has no "}" or its pattern "{{key}}" is not itself the text of a template |
| Template.BraceInKeyDependsOnOrder | internal/pkg/template/template.go:19-21 | with a key that contains "}}" two orders of the same map give different texts |
| Template.ReplaceFills | internal/pkg/template/template.go:19-21 | one replacement of a harmless key fills exactly the tokens with that name, whatever the values |
| Template.EraseFilled | internal/pkg/template/template.go:23-24 | after all replacements the erasure removes exactly the remaining well-formed tokens, for any keys and plain values |
| Template.ErasesExactly | internal/pkg/template/template.go:23-24 | a token is erased if and only if it holds one word of letters, digits and underscores with blanks around it |
| Template.BraceInValueDependsOnOrder | internal/pkg/template/template.go:19-21 | with "{" in a value two orders of the same map give different texts |
| PercentEncoding.RoundTrip | web/client/app/providers/Woole.js:33-33 | decodeURIComponent undoes encodeURIComponent on every well-formed string (section 2.1 of RFC 3986, UTF-8 of RFC 3629) |
| PercentEncoding.EncodedIsClean | web/client/app/providers/Woole.js:45-45 | encoded text holds none of "?", "&" and "=" |
| PercentEncoding.EncodesExactly | web/client/app/providers/Woole.js:45-45 | which characters stay, and for the others one to four octets in capital hexadecimal |
| PercentEncoding.EncodeFront | web/client/app/providers/Woole.js:45-45 | a text is encoded character by character |
| PercentEncoding.Utf8Exactly | web/client/app/providers/Woole.js:45-45 | the octets are the UTF-8 form (section 3 of RFC 3629): their number, their leads and the value they add up to |
| PercentEncoding.DecoderIsStrict | web/client/app/providers/Woole.js:33-33 | the octets decoded to a character are exactly its UTF-8 form, so that overlong forms and surrogates are refused |
| PercentEncoding.PlainDecodes | web/client/app/providers/Woole.js:33-33 | text without "%" decodes to itself |
| QueryParams.Request.DecodeQueryParams | web/client/app/providers/Woole.js:23-37 | reads the map the query denotes, leaves the request alone without a query, and throws exactly on a malformed escape |
| QueryParams.Request.EncodeQueryParams | web/client/app/providers/Woole.js:39-52 | replaces the query by the encoded map, for whatever order the keys are listed in |
| QueryParams.SplitJoin | web/client/app/providers/Woole.js:28-46 | split undoes join when no part holds the separator |
| QueryParams.JoinSplit | web/client/app/providers/Woole.js:24-28 | join undoes split and no part holds the separator |
| QueryParams.QueryExactly | web/client/app/providers/Woole.js:24-28 | the query of any url is everything behind the first "?" |
| QueryParams.PairExactly | web/client/app/providers/Woole.js:32-33 | a piece without "=" has the value "", and what follows a second "=" is dropped |
| QueryParams.FailTogether | web/client/app/providers/Woole.js:31-34 | reading throws if and only if some piece holds a malformed escape |
| QueryParams.LastPieceWins | web/client/app/providers/Woole.js:30-34 | otherwise the keys are those the pieces name, except "__proto__", each with the value of its last piece |
| QueryParams.PairsInOrder | web/client/app/providers/Woole.js:42-46 | the pieces follow the listing of the keys, encoded key "=" encoded value |
| QueryParams.EncodeThenParse | web/client/app/providers/Woole.js:23-52 | for every url, map and key order the part before "?" is kept and the entries come back, except the keys "" and "__proto__" |
| QueryParams.RoundTripExactly | web/client/app/providers/Woole.js:23-52 | the same map comes back if and only if it is not empty and has neither the key "" nor "__proto__" |
| QueryParams.RoundTripRequest | web/client/app/providers/Woole.js:23-52 | on a request object in place the parameters survive if and only if all keys are "" or none is "" or "__proto__" |
| Duration.ParseDuration | pkg/parser/text.go:24-74 | any text yields its meaning: 0, the maximum, the wrapped total of the captured pieces, or the first error |
| Duration.UnitsExactly | pkg/parser/text.go:49-71 | a whole number with d, h, m, min, s, ms or ns in either case is that number of 86400 s, 3600 s, 60 s, 60 s, 1 s, 10^6 ns or 1 ns, wrapped to 64 bits; any other word is refused, and so is a number above 2^63 - 1 |
| Duration.ZeroAndMax | pkg/parser/text.go:27-33 | "0" is 0 and "max" is 2^63 - 1 |
| Duration.CapitalsAreSmall | pkg/parser/text.go:25-25 | writing capital for small letters changes the result of no text |
| Duration.SeparatorsExactly | pkg/parser/text.go:16-16 | of the characters that are neither digit nor point, exactly space, tab, new line, return and form feed may stand between two pieces |
| DurationFormat.ScanOfPrint | pkg/parser/text.go:16-16 | a text made of well-formed pieces matches, and in no other way than by those pieces |
| DurationFormat.PrintOfScan | pkg/parser/text.go:16-16 | whatever matches is the text of well-formed pieces |
| DurationFormat.FieldsOfPrint | pkg/parser/text.go:137-156 | each field of a matching text matches again, and captures the last piece in it |
| Duration.ParsedIsReading | pkg/parser/text.go:24-74 | for a text made of well-formed pieces, which lower-casing leaves alone, ParseDuration returns the total of the last piece of every field |
| Duration.CaseIsIgnored | pkg/parser/text.go:24-25 | a text that differs from such a text in case only has the same result |
| Duration.TotalIsWrappedSum | pkg/parser/text.go:42-71 | the loop succeeds exactly on whole numbers that fit, and its wrapping steps add up to the exact sum wrapped once |
| Duration.ParsesExactly | pkg/parser/text.go:24-74 | ParseDuration succeeds on a matching text exactly when the last number of every field is whole and fits, and then returns the wrapped sum of those pieces |
| Duration.SumsAllExactly | pkg/parser/text.go:24-74 | on a text of whole numbers ParseDuration returns the sum of all pieces if and only if the pieces with another one glued behind them sum to a multiple of 2^64, that is to zero for sums below it |
| Duration.SpacedIsExact | pkg/parser/text.go:24-74 | with white space between whole-number pieces ParseDuration returns the wrapped sum, which is the exact one if and only if that fits in 64 bits |
| Duration.NothingElseParses | pkg/parser/text.go:137-142 | success means "0", "max" or the text of well-formed pieces |
| Duration.FractionIsRefused | pkg/parser/text.go:49-52 | ParseDuration errs on a text with a fraction at the end of a field, although the expression matches it |
| Duration.GluedFraction | pkg/parser/text.go:16-16 | a fraction in front of a glued piece matches if and only if it has one or two digits, and then counts for nothing |
| Duration.GluedIsLast | pkg/parser/text.go:145-155 | ParseDuration returns half an hour for "2h30m", two hours and a half for "2h 30m" |

## Left out

- gRPC, TLS, sockets, HTTP proxying, compression and file loading: streams are sequences that may lose their end and break, proxying is any response.
- Oversized messages on receive, panics inside handlers, and messages with a wrong step from a client other than this one: outside the machines. A client task may be abandoned without a reply.
- Blocking: a send on a full or closed channel waits or panics in Go. The machines take the step only when it goes through, and the methods of `Session` and `Broker` require it.
- ServerService.GetRecordWhenReady: the reply of the receiver is set inside the call, and two free channel slots are required instead of waiting for them; the interleavings are those of `Protocol`.
- ServerService.SendServerMessages: covers the messages queued at the call; messages queued later and several senders are steps of `Protocol`.
- SessionManager.CreateOrRetrieveSession: shared-key authentication is left out, GenerateBearer is taken as a deterministic function of the key, the random suffix is a parameter.
- SessionManager.SessionManager.Register: the check for an occupied slot and the write are one step; two registrations racing for one id are not modelled.
- The idle timer firing and Deregister are one step of `Lifecycle`; an idle answer (503) by the HTTP handler is not modelled.
- Mutexes: a critical section is one atomic step. Data races on `IsIdle` and `ExpireAt` are not modelled.
- Runs are bounded to fewer than 2^32 ids per counter; past that ids repeat (`Sequence.IssuedIdsCoincide`).
- ServerElapsed is a field of the server's record rather than of its response, and the client stores it in the record.
- RecordStore.Records.SetServerElapsed: does not publish the update to the broker; `LiveView` follows the records themselves.
- Starting a broker while callers subscribe, and restarting a stopped one.
- connectClient: the fallback from TLS to plain text is part of a pass's outcome; waiting between attempts is not modelled.
- Duration.ParseDuration: error texts are not modelled; characters are Unicode scalar values, so malformed UTF-8 is not covered.
- Duration.SumsAllExactly: a fraction glued in front of another piece is ignored by the code, and is not part of the sum compared here.
- Template.OrderIndependent: covers literals without "{{" that do not end in "{"; the conditions on values and on keys are exact (`Template.PlainIsExact`, `Template.KeyIsExact`).
- ParseBytes (floating-point rounding), URL and redirect rewriting, generated code, flags, logging, help page text, and the web user interface.
