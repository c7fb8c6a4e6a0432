# agent-waked: a verified model

`agent-waked` is a daemon that turns signed HTTP events into wake frames for
coding-agent adapters connected over a local socket. When nobody is there to be
woken it keeps the event in a durable queue, and when the queue gives up it
keeps a dead letter. This project models the machinery that has to stay right
while connections come and go, several drains run at once and the process
restarts, and proves what that machinery promises.

`dafny verify dfyconfig.toml` checks everything.

## How the model is laid out

- `Tables`, `Retention`, `Store`: the three durable tables as values, what each
  store call does to them, what one retention sweep may remove, and the
  `WakeStore` object whose methods make those changes.
- `Subscribers`, `Router`: live sessions, ack futures and the admission checks,
  as functions and as the `Router` and `SocketServer` objects.
- `Daemon`: the whole daemon as one labelled transition system. A step is what
  runs between two suspension points, so any number of fan-outs, drains, ack
  waiters, operator redrives, sweeps and restarts interleave. `Sessions`,
  `Conservation`, `SendBound`, `InFlight` and `FanOut` each prove one invariant
  of it and what the invariant means over every run; `RowFates` follows single
  rows, and `DrainLetters` the letter a drain writes, through a run.
- `Settling`, `Draining`, `Reconnect`, `FanTurns`, `Redriving`, `Retained`: what
  the steps achieve, said without the functions that make them: what an ack
  takes out, what a drain claims and sends, what a reconnecting session gets, why
  a destination is counted undeliverable, what a redrive marks, and why a letter
  or a replay id went.
- `DedupeWindow`, `FifoDedupe`, `RateLimit`, `Heartbeat`: replay windows, the
  token bucket and the ping/pong reaper.
- `Addressing`, `Json`, `Loader`, `Migration`, `MigrationMeaning`: which
  destinations an event reaches, the loader for both vocabularies of the
  configuration file, `config migrate`, and when migrating preserves meaning.
- `HumanAlerts`, `LoopGuard`, `ActivityLru`, `DeferredInject`, `EnvBlock`,
  `EnvOutside`: the retry ledger for people, the notify-on-idle guard, the
  activity list, the deferred-inject buffer, and the managed block of an `.env`
  file, for files with one well-formed block and for any file at all.

## Choices a reader should know

- SQL leaves ties under `ORDER BY ... LIMIT` open. A capped deletion is any
  selection of that many least rows, and the results hold for all of them.
- Session ids and ack ids are numbers handed out in order; they stand for fresh
  ULIDs. Row ids are an AUTOINCREMENT key and are never reused.
- Each store call takes one clock reading.
- `deliver` and `drain_pending` suspend at every frame they send, so they are
  step machines rather than methods. The loop that queues undeliverable
  destinations at the end of `deliver` has no suspension point and is one step.
- A heartbeat ping is two steps, the write and its return; pongs are handled in
  between as at any other time.
- `prune` is one step of the transition system. What a crash inside it costs is
  `Conservation.CutShortLoses`.
- A dispatch to a principal without channels writes a letter with an empty
  ledger; the retry chains of `HumanAlerts` have at least one channel.
- A destination table, like any Python dict, has unique names (`ValidConfig`).
- The checks that look only inside one configuration value (a URI, one delivery
  channel, the `listen`, `state`, `wake` and `vault` blocks) are parameters of
  the loader; the migration results hold whatever they accept.
- Where `config migrate` raises, or would key a table by something that is not
  text, `MigrateRaw` has no result.

## Where the code and its documentation differ

The model follows the code.

- Capped eviction of dead letters has three tiers, not two: redriven, then
  failed, then never retried, because NULL sorts below both
  (`daemon/src/agent_waked/store.py:706`). A human alert whose redrive failed is
  evicted before a queue entry nobody retried. `Retention.DocumentedOrderIff`
  says exactly when the documented order is met.
- `daemon/README.md:156` describes a pending row per destination. The table is
  keyed on the event id alone, so a fan-out leaves at most one row
  (`FanOut.OneRowForFirstUndeliverable`).
- `queued_next_session` is answered in a durable mode even when the queue
  refused the event. `FanOut.QueuedAnswerIff` says exactly when the answer is
  true, and `FanOut.RefusedYetAnsweredQueued` is a run in which it is not.
- `prune` commits its deletions before it writes the dead letters of the rows it
  expired; `Conservation.CutShortLoses` says exactly what dying in between costs, and
  `Conservation.KilledBeforePromotion` is a table that loses its event.
- Redriving a human alert from the command line does not write the channels it
  reached back to the letter, so a second redrive may repeat them
  (`HumanAlerts.NextRedriveSafeIff`, `HumanAlerts.PartialRedriveRepeats`).
- `config migrate` prints a v1 file in the v2 vocabulary. The meaning is kept
  exactly for the documents `MigrationMeaning.PreservedIffPortable` describes,
  and the `delivery` alias exactly when no principal had an empty channel table.
- The `.env` editor is documented as clobbering nothing outside its block. It
  keeps the lines outside exactly in files where every begun block with a plain
  line after it has an end after it (`EnvOutside.RemovalKeepsIff`,
  `EnvOutside.MergeKeepsIff`; `EnvOutside.UnclosedFile` is a file it damages).
- A timeout is logged as no pong since the last ping. A pong handled while the
  ping is still being written is overwritten when the write returns, so a peer
  that answered can be timed out (`Heartbeat.AnsweredYetTimedOut`);
  `Heartbeat.PromptPeerTimedOutIff` says exactly when.
- A wake is documented to follow the silent events before it. With several
  threads that is certain exactly when no thread had anything in its hands as
  the wake arrived (`DeferredInject.WakeFollowsIff`); `DeferredInject.WakeOvertakes`
  is a run in which it fails.

## Model

| member | source | states |
|---|---|---|
| Conservation.NothingLost | daemon/src/agent_waked/store.py:389-479 | over every run, each id ever queued is still queued, or acked, or dead-lettered, or among the letters that retention or an operator removed |
| RowFates.IssuedRowAccounted | daemon/src/agent_waked/router.py:474-543 | over every run a row id that was issued is still queued if and only if no step took it: its own ack, the drain that gave it up, or a sweep at or after its expiry; and whatever those two take has its event dead-lettered by then, the letter perhaps already removed |
| RowFates.StepTakesIff | daemon/src/agent_waked/store.py:476-479 | a step removes a queued row exactly when it is the row's ack, its removal by the drain that gave it up, or a sweep that finds it expired |
| RowFates.EverQueuedTracked | daemon/src/agent_waked/store.py:389-479 | over every run, an event that was in the queue at any point is still queued at the end, or acked, or dead-lettered, or among the letters removed since |
| Settling.AckTakesRow | daemon/src/agent_waked/router.py:524-543 | in every reachable state a waiter that settles with an ack takes its own row out of the queue and leaves every other row in its place; a nack, or a frame that did not come from the queue, leaves the queue as it was |
| Settling.GiveUpLeavesQueue | daemon/src/agent_waked/router.py:739-752 | a waiter that times out or is cancelled changes no table |
| Settling.FirstAnswerKept | daemon/src/agent_waked/router.py:769-773 | the first answer to a frame is kept as it came; later ones, and those to other frames, change nothing |
| Settling.AckSettlesForGood | daemon/src/agent_waked/router.py:524-543 | once an ack has settled a row, whatever happens next, its id is never queued, never taken by a drain and never counted as claimed again |
| DrainLetters.OwnLetterFirst | daemon/src/agent_waked/router.py:454-491 | over every run, when a drain is about to remove a row it gave up, the letter it wrote for that very claim still stands or has itself been removed |
| DrainLetters.StepKeepsLetters | daemon/src/agent_waked/store.py:514-771 | no step reuses a letter's id or renames one, and a queue letter that leaves is noted |
| Conservation.StaleAckHarmless | daemon/src/agent_waked/router.py:524-543 | once a row has left the queue, a late ack for it removes nothing, even if the same event was queued again since |
| Conservation.CutShortLoses | daemon/src/agent_waked/store.py:725-755 | dying between the sweep's commit and its promotions loses an expired row's event if and only if its promotion was not written and no older letter names it |
| Conservation.KilledBeforePromotion | daemon/src/agent_waked/store.py:725-755 | a concrete table: one expired row, killed after the commit and before its promotion, and the event is neither queued nor dead-lettered |
| Conservation.GoneForGood | daemon/src/agent_waked/store.py:476-479 | a row id that has left the queue never comes back in any continuation |
| Conservation.StepRedriveEnqueue | daemon/src/agent_waked/cli/queue.py:235-237 | an operator's re-queueing of a letter keeps every admitted event accounted for, even if its marking never follows |
| Conservation.StepRedriveMark | daemon/src/agent_waked/cli/queue.py:235-237 | marking a letter as redriven or failed keeps every admitted event accounted for |
| Conservation.Step | daemon/src/agent_waked/router.py:436-543 | every step of the daemon keeps the bookkeeping behind `NothingLost`: valid tables, copies that belong to their row ids, and removals whose event is dead-lettered first |
| SendBound.SendsBounded | daemon/src/agent_waked/router.py:454-491 | over every run a row is sent at most as often as it was claimed and as the attempt limit allows, and only to a session serving the destination it was queued for |
| SendBound.ExhaustedClaim | daemon/src/agent_waked/router.py:474-491 | a claim past the limit sends nothing and writes a letter for the event with attempts at or above the limit |
| SendBound.SendsAreAttempts | daemon/src/agent_waked/store.py:457-474 | two sends of one row carry different attempt numbers |
| Draining.DrainTakesOldest | daemon/src/agent_waked/router.py:454-466 | in every reachable state a drain that comes to a destination its session is the latest to serve takes exactly the rows addressed there and not expired that have fewer than 100 older ones, oldest first, each with one more attempt; nothing else in the tables changes |
| Draining.DrainPassesOver | daemon/src/agent_waked/router.py:454-461 | a name whose destination is gone, or that another session or nobody serves, is passed over and nothing is claimed |
| Draining.EveryTakenRowSent | daemon/src/agent_waked/router.py:463-522 | over every run, whatever interleaves: once a drain has worked through the rows it took and no send of its failed, each within the attempt limit was written in exactly one frame, to the drain's own session |
| Draining.SelectedByRank | daemon/src/agent_waked/store.py:444-474 | a claim takes an offered row exactly when fewer than its limit of offered rows are older |
| Draining.OnOfferForItsTime | daemon/src/agent_waked/store.py:389-442 | a queued row is on offer under its own destination, or its source when it has none, until the pending time has passed, and outlives exactly the sweeps before that |
| Reconnect.ReconnectDelivers | daemon/src/agent_waked/router.py:436-522 | in every reachable state, draining a session that is the latest to serve a destination, alone and with every send returning, writes each of the 100 oldest rows waiting there with an attempt left to that session in exactly one new frame |
| Reconnect.RowsRun | daemon/src/agent_waked/router.py:463-522 | a drain running alone, with every send returning, works through all the rows it has in hand and leaves rows addressed elsewhere alone |
| InFlight.AccountingHolds | daemon/src/agent_waked/router.py:698-773 | in every reachable state a live subscriber's count is its outstanding waiters plus those that gave up, and every waiter settles once |
| InFlight.GuardNeverDecides | daemon/src/agent_waked/router.py:764-767 | when a delivery of a live subscriber ends, its count is positive and falls by one |
| InFlight.EarlyAckNotLost | daemon/src/agent_waked/router.py:637-680 | an ack that arrives while its frame is still being written is there, unchanged, whenever the waiter looks |
| InFlight.AnswerStays | daemon/src/agent_waked/router.py:769-773 | no step changes an answered future that still has an owner |
| FanOut.EveryDestinationOnce | daemon/src/agent_waked/router.py:568-680 | each destination an event resolved to got exactly one live frame, to the most recently subscribed eligible session, or none and counts undeliverable; nothing else got a frame |
| FanOut.StatusTruthful | daemon/src/agent_waked/router.py:301-354 | the answer is `queued` exactly when some frame of the event was written; otherwise the delivery mode decides between the other two |
| FanOut.QueuedAnswerIff | daemon/src/agent_waked/router.py:328-347 | over every run and for both answering steps, an event answered `queued_next_session` is in the queue if and only if it was there already or the queue had room for it |
| FanOut.RefusedYetAnsweredQueued | daemon/src/agent_waked/router.py:339-347 | with a queue of one row, the second of two unrouted events is answered `queued_next_session` and is not queued |
| FanOut.OneFramePerDestination | daemon/src/agent_waked/router.py:568-680 | running, answered or cut off, a fan-out frames each of its destinations at most once |
| FanOut.OneRowForFirstUndeliverable | daemon/src/agent_waked/router.py:320-347 | finishing queues one row, for the first undeliverable destination in route order, exactly when durable, something was undeliverable, there is room and the id is not queued; else the queue is unchanged |
| FanOut.FirstNameOnly | daemon/src/agent_waked/store.py:389-442 | queueing one event under several names is queueing it under the first |
| FanTurns.AddressedExactly | daemon/src/agent_waked/router.py:213-252 | an event goes to exactly the configured destinations that some route lets its source reach and that are what it asks for, each once; it is refused only if it asked for something and there are none |
| FanTurns.DurableIff | daemon/src/agent_waked/router.py:276-299 | an event may be queued exactly when it asks for a durable delivery, or asks for none and the daemon's default is one |
| FanTurns.TurnTaken | daemon/src/agent_waked/router.py:598-680 | in every reachable state, at its turn a destination somebody serves has one new frame handed to the latest session to serve it; one nobody serves is counted undeliverable at once |
| FanTurns.UndeliverableOnlyIf | daemon/src/agent_waked/router.py:598-663 | over every run a destination is counted undeliverable only at its own turn, because no live session served it then, or because its send failed |
| Sessions.AdmissionHolds | daemon/src/agent_waked/socket_server.py:278-368 | over every run: at most 16 connections, every capped destination within its cap, every claim on an existing destination open to the adapter, and the order list names exactly the live sessions |
| Sessions.ServesWhatItClaims | daemon/src/agent_waked/router.py:254-272 | in every reachable state a live session serves a configured destination exactly when it claims its name |
| Subscribers.HelloAdmits | daemon/src/agent_waked/socket_server.py:278-340 | a hello is admitted exactly when a slot is free and no permitted name it asks for is full, and then serves exactly the permitted names it asked for, each once; otherwise nothing changes |
| Subscribers.LeavingRemoves | daemon/src/agent_waked/router.py:561-566 | leaving takes the session out of the table and the order and nothing else; hanging up frees its slot too |
| Subscribers.MostRecentServes | daemon/src/agent_waked/router.py:254-272 | a destination gets the most recently subscribed eligible session, and some session whenever one is eligible |
| Subscribers.HelloAdmission | daemon/src/agent_waked/socket_server.py:278-340 | a hello, admitted or refused, keeps every admission cap |
| Subscribers.UnsubscribeAdmission | daemon/src/agent_waked/router.py:561-566 | leaving, by eviction or by hanging up, keeps every admission cap |
| Subscribers.ServableMembers | daemon/src/agent_waked/router.py:162-198 | a hello may serve exactly the named destinations that exist and accept its adapter, each once |
| Router.Router.constructor | daemon/src/agent_waked/router.py:109-128 | a new router has no subscribers, no order and no waiting acks |
| Router.Router.SubscriberFor | daemon/src/agent_waked/router.py:254-272 | the search from the newest subscription back finds the last serving session |
| Router.Router.DestinationsForHello | daemon/src/agent_waked/router.py:162-198 | the loop collects the servable names in the order the hello gives them |
| Router.Router.DestinationLoad | daemon/src/agent_waked/router.py:200-211 | counts the live sessions that claim a destination |
| Router.Router.Subscribe | daemon/src/agent_waked/router.py:545-559 | adds a session with a new id at the end of the order, nothing in flight |
| Router.Router.Unsubscribe | daemon/src/agent_waked/router.py:561-566 | removes a session and its place in the order, nothing else |
| Router.Router.RegisterAck | daemon/src/agent_waked/router.py:698-703 | hands out a new ack id with an unset future |
| Router.Router.ResolveAck | daemon/src/agent_waked/router.py:769-773 | the first answer sets the future; later and unknown ones change nothing |
| Router.Router.EndDelivery | daemon/src/agent_waked/router.py:764-767 | lowers a live session's count by one, not below zero |
| Router.SocketServer.constructor | daemon/src/agent_waked/socket_server.py:108-123 | a new server has no connections and meets every cap |
| Router.SocketServer.DestinationsOverCap | daemon/src/agent_waked/socket_server.py:352-368 | lists exactly the requested names whose destination is full |
| Router.SocketServer.Handshake | daemon/src/agent_waked/socket_server.py:258-340 | changes the registry as an admission or not at all, and keeps every cap |
| Router.SocketServer.Teardown | daemon/src/agent_waked/socket_server.py:212-256 | frees the session and its slot, and keeps every cap |
| Retention.PruneEvictsByRank | daemon/src/agent_waked/store.py:661-720 | no surviving letter ranks before an evicted one, and un-redriven losses are max(0, overflow - redriven) |
| Retention.UnredrivenLosses | daemon/src/agent_waked/store.py:695-720 | any capped eviction gives up exactly max(0, overflow - redriven) letters that were not redriven |
| Retention.PruneBounds | daemon/src/agent_waked/store.py:641-760 | after a sweep the dedupe table is within its cap and the letters within theirs but for the rows the sweep itself promoted |
| Retention.SweepKeepsLetterIff | daemon/src/agent_waked/store.py:674-722 | a letter survives a sweep, unchanged, exactly when it is no older than the dead-letter retention and not among the cap's victims |
| Retention.CapTakesExcess | daemon/src/agent_waked/store.py:645-722 | the caps take only what is within its retention, exactly as much as there is too much of, and nothing while it fits |
| Retention.CapTakesCheapest | daemon/src/agent_waked/store.py:695-710 | whatever the cap takes is no dearer than any letter it leaves: redriven before failed before untried, then queue entries before replies before human alerts, then oldest first |
| Retention.CapTakesOldestIds | daemon/src/agent_waked/store.py:649-658 | the dedupe cap takes the ids seen longest ago |
| Retained.LetterAccounted | daemon/src/agent_waked/store.py:599-722 | over every run a letter that was written is still there if and only if no step discarded it: a purge that asks for it, or a sweep that finds it past its retention or among the cap's victims |
| Retained.SweptLetterJustified | daemon/src/agent_waked/store.py:674-722 | in every reachable state, a letter a sweep drops was past the dead-letter retention, or the cap's full number of others within theirs stayed, none of them cheaper |
| Retained.ForgottenIdJustified | daemon/src/agent_waked/store.py:641-659 | only a sweep forgets a replay id, and only past the dedupe retention or when the cap's full number stayed, none of them seen before it |
| Retention.PruneKeepsPromotions | daemon/src/agent_waked/store.py:725-755 | every row a sweep expires has its own letter, written whole, when the sweep ends |
| Retention.PrunedValid | daemon/src/agent_waked/store.py:616-771 | a sweep leaves well-formed tables |
| Retention.LeastExists | daemon/src/agent_waked/store.py:695-720 | a capped eviction always has a legal choice of victims |
| Retention.DocumentedOrderIff | daemon/src/agent_waked/store.py:695-710 | every eviction follows the documented order if and only if no failed letter documentedly outranks a never-redriven one |
| Retention.FailedAlertGoesFirst | daemon/src/agent_waked/store.py:706 | a concrete table on which a failed human alert must be evicted before a never-redriven queue entry |
| Store.WakeStore.constructor | daemon/src/agent_waked/store.py:225-287 | opening a database sweeps it and starts the insert count at zero |
| Store.WakeStore.CheckAndRecordEvent | daemon/src/agent_waked/store.py:360-380 | answers whether the id was there, records it at this time if not, and every 256th call sweeps |
| Store.WakeStore.EnqueuePending | daemon/src/agent_waked/store.py:389-442 | adds one row if there is room and the id is new, says so, and otherwise changes nothing |
| Store.WakeStore.ClaimPending | daemon/src/agent_waked/store.py:444-474 | returns up to 100 oldest claimable rows with one more attempt counted in the table and in the copies |
| Store.WakeStore.CountAttempts | daemon/src/agent_waked/store.py:457-474 | one more attempt on exactly the claimed rows |
| Store.WakeStore.DeletePending | daemon/src/agent_waked/store.py:476-479 | removes the row with this id and no other |
| Store.WakeStore.DeadLetter | daemon/src/agent_waked/store.py:514-553 | writes one letter under a new id |
| Redriving.MarkedTruthfully | daemon/src/agent_waked/cli/queue.py:235-237 | over every run, whatever the daemon does between a redrive's two calls: the letter is marked redriven exactly when the event had room and was queued anew, else failed, and no other letter changes |
| Store.WakeStore.MarkRedriven | daemon/src/agent_waked/store.py:582-589 | sets one letter's redrive status and nothing else |
| Store.WakeStore.PurgeDeadLetters | daemon/src/agent_waked/store.py:599-614 | removes and counts exactly the letters the operator asked for |
| Store.WakeStore.Prune | daemon/src/agent_waked/store.py:616-771 | exactly the letters, replay ids and rows within their own retention stay, but for the caps' victims, the expired rows are promoted, and the report counts what went |
| Store.WakeStore.Sweep | daemon/src/agent_waked/store.py:641-726 | the deletions that commit together: letters by the dead-letter retention, ids by the dedupe retention, rows by their expiry, then both caps |
| Store.WakeStore.SweepDedupe | daemon/src/agent_waked/store.py:641-659 | keeps exactly the ids seen within the dedupe retention but for the oldest beyond the cap, and counts both deletions |
| Store.WakeStore.SweepDead | daemon/src/agent_waked/store.py:674-722 | keeps exactly the letters no older than the dead-letter retention but for the cap's victims, and counts both deletions |
| Store.WakeStore.PromoteAll | daemon/src/agent_waked/store.py:728-755 | each expired row becomes one letter, in row order |
| Tables.SelectedOldest | daemon/src/agent_waked/store.py:444-474 | a claim leaves out a claimable row only when its limit went to older rows |
| Tables.EnqueueValid | daemon/src/agent_waked/store.py:389-442 | queueing keeps one row per event and never reuses a row id |
| Tables.ClaimValid | daemon/src/agent_waked/store.py:444-474 | claiming keeps the tables well formed |
| Tables.RemovePendingValid | daemon/src/agent_waked/store.py:476-479 | removing a row keeps the tables well formed |
| DedupeWindow.WindowBound | daemon/src/agent_waked/store.py:360-380 | between calls the window holds at most its cap plus the inserts since the last sweep, fewer than 256 |
| DedupeWindow.AdmittedTwice | daemon/src/agent_waked/store.py:641-659 | an id is new twice only if a sweep in between dropped it, past its TTL or as one of the oldest |
| DedupeWindow.FindSweep | daemon/src/agent_waked/store.py:641-659 | finds the sweep that dropped a recorded id |
| DedupeWindow.SweepKeepsNewest | daemon/src/agent_waked/store.py:641-659 | with a clock that never steps back any capped sweep, the operator's, the opening one or the one a check makes, keeps the most recently admitted ids |
| DedupeWindow.RecordedAdmission | daemon/src/agent_waked/store.py:360-380 | every id a sweep looks at was put there by some admission, perhaps the sweeping check's own |
| DedupeWindow.AdmissionExists | daemon/src/agent_waked/store.py:360-380 | every id in the window was put there by an admission whose time it carries |
| Addressing.ComputeRouted | daemon/src/agent_waked/addressing.py:329-343 | the loop over routes computes the routed destinations in order: exactly those some route lets the sender reach, each once |
| Addressing.RoutedExactly | daemon/src/agent_waked/addressing.py:313-343 | a sender reaches exactly the configured destinations that a route of its own or of `*` lists, or whose owner it names when it lists none, each once |
| Addressing.NamedInOrder | daemon/src/agent_waked/addressing.py:313-327 | the names a route lists denote their destinations in the order of the list |
| Addressing.EarlierRoutesFirst | daemon/src/agent_waked/addressing.py:329-343 | adding routes only appends to what a sender reaches |
| Addressing.ResolveExactly | daemon/src/agent_waked/addressing.py:368-409 | an event goes to exactly the destinations some route lets its sender reach that fit its narrowing, and is refused exactly when it asked for something none of them fits |
| RateLimit.RateBound | daemon/src/agent_waked/ingest.py:240-260 | requests on one key let through in any closed interval number at most burst + rate * length, whatever other keys do |
| RateLimit.TokensInRange | daemon/src/agent_waked/ingest.py:252-260 | tokens stay between zero and the burst |
| RateLimit.SpentPlusLeft | daemon/src/agent_waked/ingest.py:252-260 | tokens spent plus tokens left never exceed one burst plus the refill |
| RateLimit.RetryExact | daemon/src/agent_waked/ingest.py:252-260 | after a refusal, with no call between, a call is allowed if and only if it comes at least the hinted time later |
| RateLimit.BurstAllowed | daemon/src/agent_waked/ingest.py:252-260 | of calls made together on a key never seen before, exactly as many go through as the burst has whole tokens |
| RateLimit.HeaderSuffices | daemon/src/agent_waked/ingest.py:210-213 | waiting the whole seconds of the Retry-After header is enough, and one second less is not, unless the header names the one second it always names |
| RateLimit.KeysIndependent | daemon/src/agent_waked/ingest.py:252-260 | a call on one key leaves every other key's level alone |
| RateLimit.SourceRateLimiter.constructor | daemon/src/agent_waked/ingest.py:240-250 | a new limiter has no buckets |
| RateLimit.SourceRateLimiter.Allow | daemon/src/agent_waked/ingest.py:252-260 | answers, hints and charges the caller's bucket as the bucket functions say |
| FifoDedupe.Dedupe.constructor | daemon/src/agent_waked/ingest.py:133-138 | a new window is empty |
| FifoDedupe.Dedupe.Check | daemon/src/agent_waked/ingest.py:143-153 | true exactly for an id among the last `max` admitted, with set and queue in step |
| FifoDedupe.ReadmittedAfterMax | daemon/src/agent_waked/ingest.py:143-153 | an id is admitted again only after at least `max` other admissions |
| Heartbeat.FlagMeansUnanswered | daemon/src/agent_waked/socket_server.py:197-199 | over every run the flag is up exactly when some ping's write returned and no pong has been handled since |
| Heartbeat.TimedOutIff | daemon/src/agent_waked/socket_server.py:176-196 | over every run a tick times a peer out if and only if no pong was handled since a ping's write returned and the peer is idle or was busy at four ticks since |
| Heartbeat.PromptPeerTimedOutIff | daemon/src/agent_waked/socket_server.py:197-199 | a peer that answers every ping before the next tick is timed out if and only if its answer was handled while the ping was still being written, and it is idle or out of forgiveness |
| Heartbeat.PromptPeerNeverTimedOut | daemon/src/agent_waked/socket_server.py:176-199 | if no pong is ever handled while a ping is being written, a peer that answers every ping is never timed out |
| Heartbeat.AnsweredYetTimedOut | daemon/src/agent_waked/socket_server.py:197-199 | a run in which the peer answers its only ping and is timed out at the next tick |
| Heartbeat.SilentPeerReaped | daemon/src/agent_waked/socket_server.py:171-210 | a peer silent over six ticks is marked by the sixth, whatever came before and whatever it has in flight |
| Heartbeat.FiveTicksTolerated | daemon/src/agent_waked/socket_server.py:171-210 | six is tight: a peer busy at every tick survives five |
| Heartbeat.FirstMarkExact | daemon/src/agent_waked/socket_server.py:171-210 | exactly when a peer that never answers is first marked: when writing its ping fails, at a later tick that finds it idle, or at the sixth however busy it is |
| Heartbeat.ForgivenessBounded | daemon/src/agent_waked/socket_server.py:176-199 | over every run at most four misses are forgiven, only while a ping is unanswered, and no flag is up while a ping is being written |
| Heartbeat.ForgivenCount | daemon/src/agent_waked/socket_server.py:176-188 | the misses forgiven are the busy ticks since the ping's write returned, up to four |
| Heartbeat.PatienceFalls | daemon/src/agent_waked/socket_server.py:171-210 | short of a pong every tick marks the peer or uses up patience, and nothing else gives any back |
| Heartbeat.WalkExact | daemon/src/agent_waked/socket_server.py:175-205 | a walk gives each connection on its way exactly one tick and marks exactly those that their own tick marks |
| Heartbeat.Server.constructor | daemon/src/agent_waked/socket_server.py:108-123 | a new server watches nobody |
| Heartbeat.Server.Connect | daemon/src/agent_waked/socket_server.py:307-316 | a new connection owes nothing |
| Heartbeat.Server.BeginRound | daemon/src/agent_waked/socket_server.py:171-175 | a round walks a snapshot with nobody marked yet |
| Heartbeat.Server.Judge | daemon/src/agent_waked/socket_server.py:176-196 | a connection that owes a pong is forgiven or marked, as its own history says |
| Heartbeat.Server.WritePing | daemon/src/agent_waked/socket_server.py:197-198 | a connection that owes none is written a ping, and the round suspends there |
| Heartbeat.Server.JudgeOn | daemon/src/agent_waked/socket_server.py:175-196 | the loop gives one tick to each connection up to the next that owes no pong, and collects those marked |
| Heartbeat.Server.Advance | daemon/src/agent_waked/socket_server.py:175-199 | the round walks on to the next suspension or to its end |
| Heartbeat.Server.PingReturned | daemon/src/agent_waked/socket_server.py:198-199 | the flag goes up when the write returns, and the round walks on |
| Heartbeat.Server.PingFailed | daemon/src/agent_waked/socket_server.py:200-205 | a write that fails marks the connection, and the round walks on |
| Heartbeat.Server.Pong | daemon/src/agent_waked/socket_server.py:406-408 | a pong, at any time, clears the flag and the forgiveness of its own connection |
| Loader.NormaliseSenders | daemon/src/agent_waked/config.py:235-363 | the sender loop accepts exactly when every sender has its entries in the form each takes, keeps their order, and reads secrets, callback, identity and both allowlists each from its own key |
| Loader.SenderLoadsIff | daemon/src/agent_waked/config.py:235-363 | a sender loads if and only if exactly one secret key is there in its form, both allowlists and the identity are absent or of the right form, and each part is what its own key says, item by item |
| Loader.DestinationLoadsIff | daemon/src/agent_waked/config.py:466-519 | a destination loads if and only if its adapter, session, owner and connection cap are absent or of the right form, and each part is what its own key says |
| Loader.RouteLoadsIff | daemon/src/agent_waked/config.py:540-618 | a route loads if and only if its sender, owner and destinations are declared and agree, and each part is what its own key says |
| Loader.PrincipalLoadsIff | daemon/src/agent_waked/config.py:622-658 | a principal loads if and only if its channels are where they belong and each passes its check, and they are read in order |
| Loader.LoadedAsWritten | daemon/src/agent_waked/config.py:150-445 | an accepted file has the version, vocabulary and blocks the loader demands, a vault if any secret is kept there, and is read table by table as written |
| Loader.LegacyTablesRead | daemon/src/agent_waked/addressing.py:135-200 | a v1 file gives each source, in order, a destination of its own name with the adapter its routing names and the owner it declares, and a route to it |
| Loader.LegacyDeliveryRead | daemon/src/agent_waked/config.py:778-790 | a v1 file's `delivery` table is read person by person |
| Loader.LegacyPrincipalsRead | daemon/src/agent_waked/addressing.py:135-200 | a v1 file's principals are those of its `delivery` table as they are, then, without channels, every other owner a source declares |
| Loader.ValidateDestinationsBlock | daemon/src/agent_waked/config.py:451-520 | accepts exactly the tables all of whose destinations have the right form, and reads each from its own entry |
| Loader.ValidateRoutesBlock | daemon/src/agent_waked/config.py:523-619 | accepts exactly the lists all of whose routes have the right form and name what is there, and reads each from its own entry |
| Loader.ValidatePrincipals | daemon/src/agent_waked/config.py:622-658 | accepts exactly the tables all of whose principals have the right form, and reads each from its own entry |
| Loader.Derive | daemon/src/agent_waked/addressing.py:135-200 | the legacy loops give one destination per source and every named principal an entry |
| Migration.Migrate | daemon/src/agent_waked/cli/config_cmd.py:73-126 | the loops assemble the migrated document |
| Migration.MigrateSenders | daemon/src/agent_waked/cli/config_cmd.py:90-99 | the sender loop moves each `principal_id` to `identity` and keeps the rest |
| Migration.CarryOver | daemon/src/agent_waked/cli/config_cmd.py:101-110 | the loop carries over exactly the listed keys that are there |
| MigrationMeaning.PreservedIffPortable | daemon/src/agent_waked/cli/config_cmd.py:73-126 | an accepted v1 document migrates to one that is accepted and means the same if and only if every source has a name, no source's routing names an empty adapter, and no `identity` differs from its `principal_id` |
| MigrationMeaning.PortablePreserved | daemon/src/agent_waked/config.py:378-409 | for a portable document the v2 loader gives the same senders, principals, destinations, routed destinations of every sender and out-of-band principals |
| MigrationMeaning.AliasPreservedIff | daemon/src/agent_waked/config.py:387-402 | the `delivery` alias survives if and only if no principal had an empty channel table |
| MigrationMeaning.EarlyAdopterChanges | daemon/src/agent_waked/config.py:346-363 | a concrete accepted v1 document, with `identity` and no `principal_id`, whose meaning migration changes |
| MigrationMeaning.SenderMigrated | daemon/src/agent_waked/cli/config_cmd.py:90-99 | a migrated sender keeps its secrets, callback, identity and both allowlists |
| MigrationMeaning.PrincipalsMigrated | daemon/src/agent_waked/config.py:622-658 | the v2 loader reads the migrated principals as the v1 loader derived them |
| MigrationMeaning.DestinationReads | daemon/src/agent_waked/config.py:466-519 | exactly which derived destinations the v2 loader takes, and as what |
| HumanAlerts.NoChannelTwice | daemon/src/agent_waked/delivery.py:263-383 | over any chain of retries, cancellations included, no channel is reported delivered twice, and the chain ends delivered exactly when its attempts covered every channel |
| HumanAlerts.DeliveredIffCovered | daemon/src/agent_waked/delivery.py:300-383 | one attempt ends delivered if and only if the ledger with what just landed covers every channel, and it never reports a skipped one |
| HumanAlerts.VisitReports | daemon/src/agent_waked/delivery.py:263-330 | an attempt reports every channel, with the status it earned, unless cancelled on the way |
| HumanAlerts.VisitExactly | daemon/src/agent_waked/delivery.py:263-330 | an attempt goes through the channels in order up to the first whose call is cancelled, and reports each as skipped when the ledger has it, delivered when its adapter is there and the call lands, else failed |
| HumanAlerts.OverallExactly | daemon/src/agent_waked/delivery.py:331-383 | the attempt's status says whether it was cut off, and otherwise whether any channel failed and any was delivered |
| HumanAlerts.NextRedriveSafeIff | daemon/src/agent_waked/cli/queue.py:350-375 | a further command-line redrive of one letter cannot repeat a channel if and only if no earlier redrive of it delivered anything |
| HumanAlerts.PartialRedriveRepeats | daemon/src/agent_waked/cli/queue.py:350-375 | a concrete redrive that reaches one of two channels and, made again, reaches it again |
| HumanAlerts.HumanDelivery.constructor | daemon/src/agent_waked/delivery.py:114-132 | a new dispatcher has written and lost nothing |
| HumanAlerts.HumanDelivery.Deliver | daemon/src/agent_waked/delivery.py:216-383 | status, results and exactly one durable trace, a letter or a counted loss, unless delivered or addressed to nobody |
| HumanAlerts.HumanDelivery.DeadLetter | daemon/src/agent_waked/delivery.py:134-198 | a letter that cannot be written is counted as a lost alert |
| LoopGuard.PublishesIff | adapters/opencode/src/idle-notify.ts:183-213 | over every trace a publish goes ahead if and only if the latest ack or disconnect is an ack excluding the source, no attempt since saw the file route it here, and this file, when readable, is v0 or v1 and does not |
| LoopGuard.GuardMeansCleared | adapters/opencode/src/idle-notify.ts:444-460 | what the three guard variables say, in terms of the trace alone |
| LoopGuard.LoopGuardState.constructor | adapters/opencode/src/idle-notify.ts:427-446 | at start nothing is confirmed, accepted or latched |
| LoopGuard.LoopGuardState.SetAcceptedSources | adapters/opencode/src/idle-notify.ts:448-455 | an ack replaces the snapshot and drops exactly the latches it does not accept |
| LoopGuard.LoopGuardState.InvalidateAcceptedSources | adapters/opencode/src/idle-notify.ts:458-460 | a disconnect withdraws the confirmation and keeps the rest |
| LoopGuard.LoopGuardState.PublishRefused | adapters/opencode/src/idle-notify.ts:183-213 | refuses exactly when the guard does not clear the source, and latches a loop seen on disk |
| ActivityLru.RecencyList | adapters/opencode/src/idle-notify.ts:499-527 | the list is ordered by last activity, free of duplicates and at most 512 long |
| ActivityLru.EvictedOnlyAsOrphan | adapters/opencode/src/idle-notify.ts:503-527 | a session is pushed out only after 512 other sessions were active since its own last activity |
| ActivityLru.WakesPaidFor | adapters/opencode/src/idle-notify.ts:675-718 | notifying idles of a session never outnumber its activity marks |
| ActivityLru.ActiveBetweenWakes | adapters/opencode/src/idle-notify.ts:703-718 | a session that may notify at an idle was active since its previous idle |
| ActivityLru.ActiveSessions.constructor | adapters/opencode/src/idle-notify.ts:499-503 | at start no session is active |
| ActivityLru.ActiveSessions.NoteSessionActivity | adapters/opencode/src/idle-notify.ts:503-527 | moves a session to the end and evicts from the front down to the cap |
| ActivityLru.ActiveSessions.ForgetSession | adapters/opencode/src/idle-notify.ts:539-541 | drops one session |
| ActivityLru.ActiveSessions.SessionIdle | adapters/opencode/src/idle-notify.ts:703-718 | notifies exactly for a listed session, and uses the mark up |
| DeferredInject.NothingDropped | adapters/claude/src/agent_wake_claude/channel.py:107-181 | over every interleaving each event received is emitted, buffered or in a thread's hands, as multisets, and the buffer is below 64 whenever the lock is free |
| DeferredInject.WakeFollowsIff | adapters/claude/src/agent_wake_claude/channel.py:165-181 | in every reachable state, whatever is scheduled afterwards, a wake is sent after everything that arrived before it if and only if no thread had anything in its hands when the wake arrived |
| DeferredInject.WakeOvertakes | adapters/claude/src/agent_wake_claude/channel.py:107-181 | a run of two threads in which the wake goes out before an earlier silent event |
| DeferredInject.Channel.constructor | adapters/claude/src/agent_wake_claude/channel.py:95-105 | at start nothing is deferred or sent |
| DeferredInject.Channel.EmitDeferred | adapters/claude/src/agent_wake_claude/channel.py:148-162 | sends a batch whole and in order |
| DeferredInject.Channel.Send | adapters/claude/src/agent_wake_claude/channel.py:85-92 | sends one event after everything already sent |
| DeferredInject.Channel.DeferSilentEvent | adapters/claude/src/agent_wake_claude/channel.py:107-130 | one thread alone: what went out then what waits is what came in; the 64th event flushes |
| DeferredInject.Channel.FlushSilentEvents | adapters/claude/src/agent_wake_claude/channel.py:133-145 | empties the buffer in order and counts it |
| DeferredInject.Channel.EmitWakeEvent | adapters/claude/src/agent_wake_claude/channel.py:165-181 | one thread alone: a wake goes out after every silent event before it |
| EnvBlock.MergeIdempotent | daemon/src/agent_waked/cli/install_harness.py:532-600 | merging twice is merging once, and the second merge reports no change |
| EnvBlock.MergeKeepsOutside | daemon/src/agent_waked/cli/install_harness.py:575-600 | in the merged file the lines outside the block keep content and order, up to one blank line when a block is first appended |
| EnvBlock.MergeReads | daemon/src/agent_waked/cli/install_harness.py:545-565 | after a merge every requested name reads as its value outside the block if it has one, else as requested |
| EnvBlock.SkippedExactly | daemon/src/agent_waked/cli/install_harness.py:551-563 | a merge skips exactly the requested names the file binds to another value outside the block |
| EnvBlock.UnchangedIff | daemon/src/agent_waked/cli/install_harness.py:565-573 | a merge reports no change exactly when the block already binds every variable it is to write to the value requested, and nothing else |
| EnvBlock.MergeLayout | daemon/src/agent_waked/cli/install_harness.py:575-600 | a merge replaces the block in place or appends one |
| EnvBlock.RemoveAfterMerge | daemon/src/agent_waked/cli/install_harness.py:603-627 | removing after a merge gives back the lines outside, up to one trailing blank line, and reports exactly the names written |
| EnvBlock.RemoveLayout | daemon/src/agent_waked/cli/install_harness.py:603-627 | removal keeps exactly the lines outside the block |
| EnvBlock.UnclosedBlockSwallowsRest | daemon/src/agent_waked/cli/install_harness.py:575-627 | when the only sentinel is one begin, every line after it goes, on merge and on removal |
| EnvOutside.RemovalKeepsIff | daemon/src/agent_waked/cli/install_harness.py:603-627 | for every file: removal keeps exactly the lines outside the block if and only if every begun block with a plain line after it has an end after it |
| EnvOutside.MergeKeepsIff | daemon/src/agent_waked/cli/install_harness.py:532-600 | for every file: a merge keeps the lines outside the block, up to the separator it adds, under exactly the same condition |
| EnvOutside.MergeLeaves | daemon/src/agent_waked/cli/install_harness.py:575-600 | for every file: outside its blocks the merged file has what removal would have kept, and the separator |
| EnvOutside.UnclosedFile | daemon/src/agent_waked/cli/install_harness.py:575-627 | a concrete file that loses its second setting on merge and on removal |
| EnvBlock.ParseExistingEnvKeys | daemon/src/agent_waked/cli/install_harness.py:507-529 | the flag-driven loop reads the last assignment of each name, with or without the block |
| EnvBlock.MergeEnvFileBlock | daemon/src/agent_waked/cli/install_harness.py:532-600 | new lines, changed names and skipped names of a merge |
| EnvBlock.Partition | daemon/src/agent_waked/cli/install_harness.py:551-563 | splits the requested variables into those to write and those another value already holds |
| EnvBlock.RewriteBlock | daemon/src/agent_waked/cli/install_harness.py:575-600 | the flag-driven loop puts the block where the old one ended, or after the other lines |
| EnvBlock.RemoveEnvFileBlock | daemon/src/agent_waked/cli/install_harness.py:603-627 | new lines and removed names of a removal |

## Left out

- RateLimit.RetryExact: over reals, so it does not model the rounding of float time and tokens.
- RateLimit.HeaderSuffices: over reals, for the same reason.
- RateLimit.RateBound: needs a clock that does not step back; `time.monotonic` is taken at its word.
- Heartbeat.Server.BeginRound: does not model the closing of marked connections or connections that leave; a round walks its own snapshot to the end.
- Heartbeat.SilentPeerReaped: counts ticks that take place; the loop waits for each ping in turn, so a write that never returns stops the ticks of every other connection.
- Loader.NormaliseSenders: does not model which error message a refused file gets, only that it is refused.
- EnvBlock.MergeEnvFileBlock: works on lines; joining them into a file and splitting it again is left out, and with it values that contain line breaks.
- SQLite, asyncio, sockets, file locks and signals: tables are sequences and maps, suspension points are step boundaries.
- A second process writing the database between the statements of one `deliver` finish; operator commands interleave between store calls.
- Signatures, secret backends, the vault and environment lookup.
- The webhook and email channels and the outbox: a channel call lands, fails or is cancelled.
- The network guard's address tables; JSON, URL and regular-expression parsing.
- Reloading the configuration during a run: destinations, routes and caps are fixed.
- The legacy view of a hand-built v1 configuration that never went through the loader.
- The deliver path of a daemon without a store, which is the live-only mode with nothing queued.
- Columns that no decision reads: the pending row's target and enqueue time, error texts of letters, request ids.
- A registered connection whose `hello_ack` could not be sent stays registered; nothing is claimed about when it goes.
- `doctor`, printing, logging, queue-accumulation warnings, the Windows service, the archived and the Hermes adapters: reporting or plumbing.
- Frame validators, the label registry and the reply buses: the shape of protocol frames, which labels a session took so that events can be routed to it, and how a reply gets back to its sender.
