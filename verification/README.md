# A verified model of the multi-pod websocket server

Clients talk to one of several pods over websockets. The pods share one Redis:
each has an inbox stream with a consumer group, and a hash records on which pod,
and over which connection, each client lives. This project models the parts
whose correctness is not visible in any one function, and proves what they keep.

**The streams router** (`pkg/streams/router.go`). `RedisStreams` models one
stream with its consumer group: entries, the last-delivered id, the pending
list. `Cluster` puts one stream per pod next to a clock and defines every atomic
step: publish, read, claim, process, acknowledge, force-acknowledge, trim, delete
a stream. `Cluster.Decide` is `processMessage`: deliver, move to another pod's
stream, keep pending, or drop for one of eight reasons, all results of outside calls
(`isLocal`, `deliver`, lookups, XADD, the heartbeat check) being arbitrary. The
fields `token`, `copy`, `held`, `kept`, `log`, `handed` and `finished` are
history that no step branches on. `Outcomes` says what a pass, and a publish, comes to
in terms of the state it leaves, independently of that function. `WellFormed` is the
invariant of every run; `Conservation`, `NoLoss`, `Stranding`, `Departures`, `StreamLaws`, `TrimFirst` and
`Rerouting` rest on it. `JanitorLock` is the lease lock around a drain. `StreamIds`
holds ids, their text form and the textual comparison.

`Router` is the imperative side: a class for one router whose loops (consume,
auto-claim, trim, and the drain with its reclaim loop, read rounds,
force-acknowledge and delete) are proved to produce runs of those atomic steps.
Between any two commands of a loop, and between the effect of a pass and its XACK,
`Router.Redis.Others` lets other pods, publishers and janitors take any number of
steps and time pass. So every law about runs holds of the loops, whoever else is at
work; an entry that others have claimed or acknowledged meanwhile is still
processed, as the code does. What a loop achieves (which entries it takes, what it
leaves) is stated for `alone` runs, in which the others may publish to the loop's
stream but leave its consumer group to the loop, as the janitors' lock is meant to
ensure for a dead pod. Any command may fail, except on a `healthy` Redis, which answers
every one; there the contracts say that the loops do go through with their work. A
`thorough` Redis trims all that an approximate trim may. The answers of the outside
world are fixed beforehand (`outside`), one set for each pass, so a contract can say
that a pass acted on what it was told. `Batches`, `Rounds`, `Ticks` and `Drains` hold
what the loops keep from one command to the next.

**Session ownership** (`client.go`, `pool.go`, `clientmanager.go`,
`router_factory.go` in `pkg/websocket`). `Sessions` gives the effect of each
handler on its pod's pool, the presence rows and the `force_close` messages, and
a fleet of pods on which they interleave with heartbeats, crashes and the
presence cleanup; a delivered `force_close` follows `Cluster.Decide`.
`SessionHandlers` is the object side, with connection identity, proved against
those functions. `SessionOutcomes` says for each handler, by the fleet before and after,
exactly when a row, a pool entry, the gauge or a message changes; `Ownership`,
`Presence`, `SessionLedger` and `ForceClose` prove the laws over runs.

**gRPC sequencing** (`pkg/grpc/server.go`). `Sequencing` specifies both tracker
paths, `MessageServer` is the server object proved against it, `Transcripts` says by
position what a whole list of messages sends, saves and answers, and `UnaryMutex`
interleaves concurrent unary calls at the level of lock, raise, read, unlock.

**The cart** (`parseCartItems`, `AddOrUpdateCartItems`). `CartRequest` and
`CartUpdate` hold the loops and what they compute, `CartLaws` the conservation
law from the request to the cart. `GoStrings` has the string and integer
functions both rely on, `Positions` a way to speak of chosen positions of a list.

**Starters admission** (`GetPDPStarters`). `Starters` has the handler and every
interleaving of requests, goroutines and renamed clients.

Redis commands are atomic and follow Redis 7: a claim deletes pending records
whose entry is gone from the stream, whatever their idle time, and counts them. Time
is a non-decreasing number of milliseconds and new ids are never ahead of it.
`MAXLEN ~` may drop any number of old entries as long as MAXLEN remain, and unread
ones it drops are recorded as lost. Pods are numbered from 0.

## What does not hold

Some expected properties are false of the code. Each is stated with the exact
condition under which it holds, or with the input that refutes it.

- Trimming a dead pod's stream before the drain is not harmless. The reclaim
  loop stops at the first claim that returns nothing, and a claim whose records
  were all trimmed returns nothing; the younger pending messages behind it are
  then force-acknowledged undelivered. On the other hand the trim makes room for
  the read rounds to reach more. `TrimFirst.TrimFirstDrain` gives the exact
  condition under which a drain delivers and re-publishes the same,
  `TrimFirst.TrimFirstCanStrand` a case.
- The comment on `trimLoop` (`pkg/streams/router.go:842-843`) says that pending
  entries are preserved. The code takes the later of two ids, so all stored
  pending entries are preserved if and only if none of them lies before the
  retention cutoff (`StreamLaws.TrimSparesPendingExactly`).
- A pending entry that is trimmed away while nobody holds it is not retried: no
  claim returns it, and it ends as a drop (`Stranding.StrandedIsNeverDelivered`).
- A drain looks whether the stream is empty, and then deletes it. An error of XLEN
  or XPENDING reads as an empty stream, and what is published after the look is
  deleted with it. `Drains.UnreadIsDeletedExactly` says exactly when unread entries
  are deleted, `Drains.UnansweredLook` and `Drains.PublishedAfterTheLook` give a case
  of each.
- Ids are compared as text, which is the numeric order only while the clock
  parts agree in the sense of `StreamIds.ClocksAgree`.
- `Register` reads a failed heartbeat check as a dead pod and forgets a live
  owner's row. It is the only Redis failure that breaks ownership coverage;
  `Ownership.UnansweredHeartbeat` says exactly when it does.
- A process without a router tells nobody that it takes a client over, and a
  `force_close` can be dropped for its age, trimmed or force-acknowledged;
  `Ownership.RegisterWithoutRouter`, `Ownership.CloseWithoutRouter`,
  `Ownership.OverAgeHandling` and `Ownership.LosingAForceClose` say exactly when
  coverage is lost that way.
- A `force_close` names no connection, so one can close the connection that the
  client's row records. A step puts a recorded connection in that danger if and only if
  it is one of the three in `ForceClose.Harms` (`ForceClose.HarmlessStep`); after a run
  without them only a janitor can still do it, to a client of its own pod
  (`ForceClose.SparesTheRecorded`). There is a run for each of the four.
- A presence row can be left behind without its connection. A step does that if and only
  if it is one of the five in `Presence.LeavesRow` (`Presence.BackedStep`), among them a
  registration that closes the owner on its own pod and then fails.
- The gauge of open connections drifts from the pool size by the terms in
  `SessionLedger.GaugeLedger`.
- The unary path treats a `control` message as a chunk, the stream path does not.
- `StreamToServer` answers with success when its last message could not be
  published.
- A JSON quantity that needs more than 53 binary digits enters the cart as a
  neighbouring number (`CartRequest.JsonIntegers`).
- Cart items with different ids can be matched to one order-form line, of which
  the last one wins and the other quantities are lost.
- The starters goroutine reads the client id when it starts; a client that
  registers under another id just before leaves its entry behind for good.

## Model

| member | source | states |
|---|---|---|
| WellFormed.RunInv | pkg/streams/router.go:135-188 | in every run the streams and pending lists stay sorted, cursors never pass the last id, and the stored entries at or below a group's cursor are exactly those ever handed out |
| Conservation.ExactlyOnceAccount | pkg/streams/router.go:239-343 | in every run with processing atomic with its XACK: copies within reach (unread, stored or in hand) + stranded copies + deliveries + drops of each published message are exactly 1, and 0 for anything never published |
| NoLoss.NoSilentLoss | pkg/streams/router.go:239-343 | in every run, with crashes between effect and XACK, late and repeated acknowledgements: each published message has a copy within reach, or is on record as delivered or dropped, or has only a stranded copy |
| Stranding.StrandedIsNeverDelivered | pkg/streams/router.go:363-387 | in every run with processing atomic with its XACK, from the moment on at which a message is pending, trimmed and in nobody's hands: it is never delivered nor within reach again, and stays so until it is dropped |
| Departures.UnreadLeavesOnRecord | pkg/streams/router.go:152-187 | in every run, atomic or not, an entry once unread is unread still, or a read of the run has handed it out, or it is on record as trimmed or deleted |
| Outcomes.PassOutcomes | pkg/streams/router.go:239-343 | by the state it leaves, a pass keeps the entry pending, delivers it, moves it to a given pod as a fresh unread copy, or puts it on record as dropped for a given reason, each if and only if the stated condition on the age, the windows and the answers of the outside calls holds |
| Outcomes.RescuedFromTheDead | pkg/streams/router.go:327-335 | in every run with processing atomic with its XACK, a message in time for a client that is not local and recorded on the source pod: it lives on as exactly one unread copy in the worker's stream and none anywhere else if and only if that pod has no heartbeat and XADD succeeds; it is dropped as the source's own if and only if that pod has a heartbeat, and as not re-published if and only if it has none and XADD fails |
| Outcomes.RaceLocalDelivery | pkg/streams/router.go:316-325 | a client recorded on the worker's own pod but not local yet: delivered on the spot if and only if the send succeeds, else on record as dropped |
| Outcomes.OneCopyThere | pkg/streams/router.go:104-131 | in the same runs a message that a pass has moved has its one copy where it was moved to |
| Outcomes.PublishOutcome | pkg/streams/router.go:104-131 | a publish leaves the message unread at the end of that pod's stream, under its own token, and changes nothing else but for evictions of old entries |
| Drains.UnreadIsDeletedExactly | pkg/streams/router.go:562-573 | the end of a drain deletes unread entries if and only if the delete goes through on a stream that looked empty (nothing pending or XPENDING failed, no entries or XLEN failed), and either XLEN failed while entries were unread or something was appended since the look |
| Drains.PublishedAfterTheLook | pkg/streams/router.go:562-573 | a run in which every command succeeds and a message published after the look is deleted |
| Drains.UnansweredLook | pkg/streams/router.go:562-573 | a run in which XLEN fails and an unread message is deleted |
| Rerouting.HopsAreBounded | pkg/streams/router.go:239-343 | presence fixed, in every run with processing atomic with its XACK from every state such a run reaches, whatever else happens in it: the hops of a message + its copies left outside its client's stream never exceed the copies there at the start, which are at most 1 |
| Rerouting.ReachesItsClient | pkg/streams/router.go:239-276 | wherever in such a run the client's pod passes over the message with the client in its pool, the send successful and the age within the limit: it is delivered there, to its client, with its payload, once, with no copy left anywhere |
| Rerouting.OneHopThenDelivered | pkg/streams/router.go:239-343 | from any held entry whose pass moves it to the recorded pod there is such a run: the hop, waiting, reads of the loop's own size as the backlog takes, and the pass that delivers it |
| Rerouting.WrongStreamMovesOn | pkg/streams/router.go:316-342 | a pass of a pod other than the recorded one delivers on the spot or moves the entry to the recorded pod |
| TrimFirst.TrimFirstDrain | pkg/streams/router.go:490-556 | for all answers of the outside world a drain, reclaim loop and read rounds together, yields the same with and without the trim if and only if both conditions hold |
| TrimFirst.TrimFirstReclaim | pkg/streams/router.go:490-528 | for all answers of the outside world the reclaim loop delivers and re-publishes the same with and without the preceding trim, if and only if its first claim still meets a stored record, or did not before either, or nothing deliverable is left |
| TrimFirst.TrimFirstReads | pkg/streams/router.go:530-556 | for all answers of the outside world the read rounds yield the same with and without the trim if and only if nothing that the freed room lets them reach can be delivered by any pass |
| TrimFirst.RoundsAllOrNothing | pkg/streams/router.go:507-528 | the reclaim loop works through every stored due entry, or through none when its first claim meets only trimmed ones |
| TrimFirst.TrimFirstCanStrand | pkg/streams/router.go:490-528 | a stream whose young pending message is worked on without the trim and not with it |
| TrimFirst.RunsAreGapless | pkg/streams/router.go:490-500 | in every run a pending record whose entry is gone is older than everything still stored |
| StreamLaws.MessagesAreGenuine | pkg/streams/router.go:104-131 | whatever is stored, pending, delivered or dropped anywhere was published to that very client with that very payload |
| StreamLaws.GroupCreationIsExact | pkg/streams/router.go:141-145 | (re)creating a group at 0-0 at any moment of any run makes exactly those stored entries readable that were never handed out |
| StreamLaws.ReadsNeverReplay | pkg/streams/router.go:154-161 | no read of any run hands out an entry a second time |
| StreamLaws.RetriesAreBounded | pkg/streams/router.go:216-234 | no entry is left pending more than window / idle time + 1 times by passes of the worker that holds it, and the pass after that settles it; passes over an entry that somebody else has claimed meanwhile leave no trace and are not counted |
| StreamLaws.TrimAtOldestPendingIsSafe | pkg/streams/router.go:863-868 | everything below the oldest pending id has been read and acknowledged, and a trim there removes nothing that could still be delivered |
| StreamLaws.TrimSparesPendingExactly | pkg/streams/router.go:842-868 | an exact trim at the loop's floor spares every stored pending entry if and only if no stored pending entry lies before the cutoff, in every well-formed stream, also one whose oldest pending entry is gone |
| StreamLaws.TrimCanTakePending | pkg/streams/router.go:842-868 | a pending entry that such a trim takes away |
| StreamLaws.TrimFloorIsTheLater | pkg/streams/router.go:857-868 | the floor picked by text is the numerically later id if and only if the clock parts agree; equally many digits suffice |
| StreamIds.CutoffComparison | pkg/streams/router.go:815-840 | against an id "ms-0" the textual comparison equals the numeric one if and only if the clock parts agree |
| StreamIds.ComparisonCanFail | pkg/streams/router.go:815-840 | ids of 9 ms and 10 ms, which the text orders the wrong way round |
| StreamIds.CutoffIsAge | pkg/streams/router.go:858-868 | an id lies before the cutoff if and only if it is older than the retention |
| Stranding.ClaimedIsStored | pkg/streams/router.go:509-516 | a claim returns stored entries only |
| Ticks.TickIs | pkg/streams/router.go:363-387 | a claim and its passes come to what a tick is to achieve: the stretch from the start id until COUNT records are dealt with, all due and stored records of it, in order, passed over, gone ones off the list, and the next start after the stretch |
| Ticks.TickAdvances | pkg/streams/router.go:363-387 | a tick that begins where the last one ended passes over what was due among the next COUNT of the records listed at first |
| Router.Router.AutoClaimTicks | pkg/streams/router.go:363-387 | alone, on a Redis that answers and with a group, ticks for COUNT records each that together cover the pending list pass over every record that was due at the start and is still stored in the end |
| Router.Router.DrainDeadPod | pkg/streams/router.go:478-586 | a drain ends and is a run, whatever others do; alone, no unread entry goes but by a pass or on record, and unread entries are deleted exactly when UnreadIsDeletedExactly says; without a failing command nothing is left pending and at least ten reads' worth of what the trim leaves goes off the front; if moreover nothing is appended, what goes is exactly the unread ones among the k oldest entries, all beyond the retention, and then exactly ten reads' worth, passed over, the rest is untouched, the stream is deleted exactly when it is left empty, and with the clock still the passes are exactly the rounds TrimFirstDrain speaks of |
| Router.Router.JanitorPasses | pkg/streams/router.go:417-474 | any number of ticks, some skipped for a heartbeat or the lock, some failing, is a run; alone, no unread entry goes but by a pass or on record, n drains without a failing command take the first n * 10 * COUNT unread entries or all, even while others keep publishing, and if nothing is appended and none fails only entries beyond the retention and entries passed over go |
| Router.Router.TrimDead | pkg/streams/router.go:484-500 | what was not older than the retention, one hour unless configured, is still there, and what is older is not if the trim takes all it may; alone, makes sure of the group, and if nothing is appended the front loses exactly the unread ones among the k oldest entries, all of which are beyond the retention |
| Router.Router.CloseDead | pkg/streams/router.go:558-585 | alone, leaves the pending list's end, all acknowledged if XPENDING and XACK answer, and deletes the stream exactly when it looks empty and the delete succeeds, with what the commands met |
| Router.Router.ReclaimAll | pkg/streams/router.go:502-528 | ends while less than the idle time passes, with whatever others do, and is a run; alone, it leaves the unread part but for new entries, and with the clock still it processes exactly the rounds analysed in TrimFirst |
| Router.Router.ReadRounds | pkg/streams/router.go:531-556 | is a run; alone, the rounds take at least as many of the first unread entries as they asked for, exactly those and in order if nothing is appended; without errors they ask for 10 * COUNT |
| Router.Router.ForceAckAllPending | pkg/streams/router.go:590-636 | ends and is a run, others acting before each XPENDING and each XACK; alone, it acknowledges the oldest records and puts each on record as dropped, all of them unless a command fails |
| JanitorLock.OneDrainAtATime | pkg/streams/router.go:454-465 | in every run, crashes included, at most one janitor drains a pod within its lease |
| JanitorLock.LateReleaseIsHarmless | pkg/streams/router.go:648-652 | a release that comes after the lease takes the lock from nobody |
| JanitorLock.OverrunCanOverlap | pkg/streams/router.go:454-465 | a drain that outlives its lease can be joined by a second one |
| JanitorLock.AcquiringTakesAFreeLock | pkg/streams/router.go:640-644 | in every run a janitor gets the lock if and only if no key is there or its lease is over, with a token never used before and one lease from now; otherwise nothing changes |
| JanitorLock.ReleasingFrees | pkg/streams/router.go:648-652 | after every run, a janitor that is through within its lease leaves no key, and whoever asks next gets the lock |
| JanitorLock.TheLockComesFree | pkg/streams/router.go:640-644 | after every run, even if the holder has died, whoever asks after one lease gets the lock |
| Ownership.OwnershipCoverage | pkg/websocket/client.go:538-584 | in every run in which every heartbeat check of a registration is answered, every evicting process has a router and every force_close is worked on within the age limit and not trimmed, evicted by MAXLEN or force-acknowledged before, whatever else fails: each pool entry is the one in the client's row, or its pod has an unacknowledged force_close for it |
| Ownership.SingleOwner | pkg/websocket/client.go:657-707 | in the same runs, once a client's force_close messages are worked off, at most one pod holds it, with the very connection its row records |
| Ownership.TakeoverTellsTheOthers | pkg/websocket/client.go:657-707 | a successful registration owns row and pool entry, and every other pod still holding the client has been told to close it |
| Ownership.UnansweredHeartbeat | pkg/websocket/client.go:664-674 | a registration whose heartbeat check fails loses coverage if and only if the row's pod holds the client and has no force_close waiting |
| Ownership.RegisterWithoutRouter | pkg/websocket/client.go:560-562 | without a router a registration loses coverage if and only if it overwrites the row of another pod that holds the client and has no force_close waiting |
| Ownership.CloseWithoutRouter | pkg/websocket/client.go:513-532 | likewise a close that removes such a row |
| Ownership.OverAgeHandling | pkg/streams/router.go:250-263 | a force_close beyond the age limit loses coverage if and only if it was the last one for a pool entry that its client's row does not name |
| Ownership.LosingAForceClose | pkg/streams/router.go:863-868 | a force_close trimmed, evicted or force-acknowledged loses coverage if and only if it was the last one for a pool entry that its client's row does not name |
| Ownership.HandlingCovers | pkg/websocket/router_factory.go:92-99 | a force_close, handled within the age limit by its pod or a janitor, delivered, moved or dropped, keeps coverage |
| Ownership.AlwaysGrounded | pkg/websocket/client.go:626-751 | in every run rows and pools name connections of their own pod, and pods with connections have a heartbeat |
| Presence.PresenceIsThePools | pkg/websocket/client.go:95-111 | in every run without a step that leaves a row behind, with heartbeat answers, routers and force_close messages worked on in time: once no force_close waits for a client, it is recorded with a pod and a connection if and only if that pod holds that connection for it |
| Presence.BackedStep | pkg/websocket/client.go:513-751 | in any state of a run, while each row stands for a connection its pod holds, a step keeps that so if and only if it is none of five: a registration that closes the owner on its own pod and then fails, a local close or the recorded connection's exit whose row is not removed, a force_close that closes the recorded connection, the crash of a recorded pod |
| SessionOutcomes.ExitOutcome | pkg/websocket/client.go:95-111 | when a connection's socket closes, its row goes together with the last-seen time if and only if the pool held it under its client id and Redis answered; its pool entry goes, counted down, if and only if the pool held it; nothing of any other connection, client or pod changes |
| SessionOutcomes.RegisterReply | pkg/websocket/client.go:626-751 | each of the nine answers of a registration is given if and only if its condition on fields, row, token, heartbeat and failing calls holds |
| SessionOutcomes.RegisterOutcome | pkg/websocket/client.go:626-751 | row and pool entry become the new connection's if and only if the client is free or let go of and callback and row go through; an owner on this pod is closed already before that; a row whose pod is down goes without a replacement; otherwise nothing of the client changes |
| SessionOutcomes.RegisterCounts | pkg/websocket/client.go:676-716 | exactly when a registration raises or lowers the gauge, takes an entry over in place, renames the connection, or tells the recorded pod |
| SessionOutcomes.CloseReply | pkg/websocket/client.go:513-532 | each of the five answers of a close is given if and only if its condition holds |
| SessionOutcomes.CloseOutcome | pkg/websocket/client.go:513-532 | row and last-seen time go if and only if the token is right, the owner lets go and Redis removes them, be the owner on this pod or not; the pool entry goes if and only if the owner is on this pod |
| SessionOutcomes.CloseCounts | pkg/websocket/client.go:538-584 | exactly when a close lowers the gauge or tells the recorded pod |
| SessionOutcomes.OthersUntouched | pkg/websocket/client.go:513-751 | registering for a client or closing its session changes no row, last-seen time or pool entry of another client, no other pod, and no connection's pod |
| SessionOutcomes.HandleOutcome | pkg/websocket/router_factory.go:92-99 | a pass over a force_close closes the pool's connection of the client, without counting it down, if and only if it is in time and the pool holds one; it goes on to another pod's stream, waits, or is used up, each exactly when stated |
| SessionLedger.GaugeLedger | pkg/websocket/client.go:95-111 | in every run each pod's gauge is its pool size + entries overwritten + entries force-closed - registrations that failed late, hence the pool size exactly when those cancel out |
| SessionLedger.CleanupAfterAnything | pkg/streams/router.go:733-773 | whatever happened since the scan, the script deletes the row if and only if it is the scanned one, its pod has no heartbeat now and the client was last seen before the cutoff; no pool holds that connection, no other row changes |
| SessionLedger.RowsAreProtected | pkg/websocket/clientmanager.go:145-159 | a row changes hands or goes only by a registration or close with the right token, the holder's own exit, or because its pod is down |
| SessionLedger.PoolsAreProtected | pkg/websocket/pool.go:33-56 | a connection leaves a pool only by a registration or an authorised close on its own pod, its own exit, a force_close for its client, or a crash |
| SessionLedger.ExitTouchesOnlyItsOwn | pkg/websocket/client.go:95-111 | the exit of one connection's Read changes no row or pool entry of any other connection |
| ForceClose.HarmlessStep | pkg/websocket/client.go:538-584 | while no pod that holds a recorded connection has a force_close waiting for its client, a step keeps that so if and only if it is no registration on a pod with one waiting, no registration or close that tells the owner and then fails, and no pass that moves one to the pod that holds the recorded connection |
| ForceClose.SparesTheRecorded | pkg/websocket/router_factory.go:92-99 | after any run without such steps, a pass over a force_close closes a recorded connection if and only if it is a janitor's, in time, in a dead pod's stream, for a client that its own pod holds and is recorded for |
| ForceClose.HandleCloses | pkg/websocket/router_factory.go:92-99 | in any state a pass closes the recorded connection if and only if its own pod holds it and the message is within the age limit, and it changes no other pod |
| SessionLedger.LateForceCloseHitsTheNewOwner | pkg/websocket/router_factory.go:92-99 | a run after which a force_close closes the connection that the row records |
| ForceClose.ReroutedForceCloseHitsTheNewOwner | pkg/streams/router.go:335-342 | a run in which the old connection has left and its force_close is moved to the new owner's pod and closes the recorded connection |
| ForceClose.FailedTakeoverHitsTheOwner | pkg/websocket/client.go:676-688 | a run in which a registration tells the owner and then fails, and the recorded connection is closed |
| ForceClose.JanitorHitsItsOwnClient | pkg/streams/router.go:266-279 | a run in which a janitor, working on a dead pod's stream, closes the recorded connection of its own pod |
| Sequencing.StreamAndUnaryAgree | pkg/grpc/server.go:254-371 | for every list of messages and publish results the two tracker paths give the same answers if and only if no message is a control message; then payloads, history and trackers agree too |
| Sequencing.TrackerCountsTheTurn | pkg/grpc/server.go:418-430 | the tracker holds for each message id the number of its chunks since its last setup or completed |
| Sequencing.ChunksAreNumberedInTurn | pkg/grpc/server.go:441-468 | a chunk goes out with the number of chunks of its turn so far, itself included, so each turn reads 1, 2, 3, ... whatever lies between |
| Sequencing.ClientStreamHidesItsLastError | pkg/grpc/server.go:207-243 | a client stream ends in the success response exactly when its last message could not be sent, and otherwise in that message's own response |
| Transcripts.HistoryInOrder | pkg/grpc/server.go:471-516 | for every list of messages, streamed or sent one by one: the history grows by exactly the messages that are completed, did not fail in publishing, are not final output and can be stored, each once, in order, under the contact without its scheme |
| Transcripts.PayloadsInOrder | pkg/grpc/server.go:294-371 | likewise exactly one payload goes out for each message that is published and not a blank rationale, in order, to its contact, of the kind and with the content the message calls for, a chunk under its number within its turn |
| Transcripts.AnswersInOrder | pkg/grpc/server.go:294-371 | likewise each message is answered in its turn, with an error if and only if publishing failed or it was a setup for an offline client, with the code, text, final flag and number that calls for |
| Transcripts.UnaryIsStreamOfChunks | pkg/grpc/server.go:254-290 | sending messages one by one, from whatever came before, is streaming them with the control messages turned into chunks |
| Transcripts.SchemeGoes | pkg/grpc/server.go:76-86 | a contact loses what stands before its first colon, and the colon; one without a colon stays |
| Transcripts.NumbersWrap | pkg/grpc/server.go:461-467 | a response carries the chunk's number as it is if and only if it fits 32 bits, else modulo 2^32 |
| UnaryMutex.NumbersAreAPermutation | pkg/grpc/server.go:271-288 | however concurrent unary calls interleave, from any tracker, each message id's numbers are a permutation of the next n, n being its calls |
| UnaryMutex.SomeCallCanGo | pkg/grpc/server.go:273-276 | as long as a call is not done some call can go on |
| CartLaws.CartConservation | pkg/vtex/client.go:256-288 | the cart never grows by more than the inputs' quantities, and by exactly that if and only if no two inputs match one line and no line overflows |
| CartLaws.RequestReachesTheCart | pkg/websocket/client.go:1218-1272 | from the raw request on: the cart grows by what the request asks for if and only if no merged sum overflows, no two items match one line and no line overflows; where a merged sum overflows, on carts without negative quantities |
| CartLaws.UnmatchedLineStays | pkg/vtex/client.go:256-269 | a line that no input is matched to is left as it is |
| CartLaws.ResultsAreTheLastWord | pkg/vtex/client.go:264-268 | the quantity reported for an input is its line's final one, unless a later input is matched to that line |
| CartLaws.LinesAreRaised | pkg/vtex/client.go:256-269 | a matched line ends as it began but for its quantity, raised by the last input matched to it |
| CartLaws.AdditionsInOrder | pkg/vtex/client.go:270-280 | one line is added for each input that no line matches, in order, with its id and quantity, which is also what is reported |
| CartLaws.VariantsShareALine | pkg/vtex/client.go:190-213 | ids that differ only after a '#' are always matched to the same line |
| CartUpdate.VariantsAreCut | pkg/vtex/client.go:190-195 | an id is cut at its first '#', unless nothing comes before it |
| CartUpdate.MatchesExactly | pkg/vtex/client.go:197-213 | a line matches by its own, its product or its reference id, whichever is not empty and agrees |
| CartRequest.MergingConserves | pkg/websocket/client.go:1229-1247 | the merged quantities add up to those of the request if and only if no merged sum overflows |
| CartRequest.FirstOccurrenceOrder | pkg/websocket/client.go:1254-1271 | each id occurs once, in the order in which the request first names it, and none is left out |
| CartRequest.CallbackAgrees | pkg/websocket/client.go:1242-1263 | the callback reports the same id and seller, and a quantity that reads as the one put into the cart |
| CartRequest.MergedExactly | pkg/websocket/client.go:1238-1263 | an id has the seller of the first item that names it; the callback has that item as it came, but for the merged quantity if others name the id, and 1 if none is given |
| CartRequest.ShapeExactly | pkg/websocket/client.go:1197-1216 | each of the three shape errors is given if and only if the request names no items, lists none, or lists one that is not an object; otherwise its items are read as they are |
| CartRequest.RefusedExactly | pkg/websocket/client.go:1223-1236 | a request of objects is accepted if and only if every item has id, seller and no quantity or one that stands for a positive integer within 64 bits; else it is refused for the first item that has not |
| CartRequest.ItemExactly | pkg/websocket/client.go:1223-1236 | how much of an item is wanted, and that a missing id or seller is reported before its quantity |
| CartRequest.QuantityExactly | pkg/websocket/client.go:1374-1413 | a quantity of any notation is accepted as n if and only if it stands for n, n is positive and fits 64 bits |
| CartRequest.RefusalExactly | pkg/websocket/client.go:1374-1413 | it is refused as not positive if and only if it is not text and stands for a fitting integer that is not positive, and else as not an integer |
| CartRequest.QuantityNotations | pkg/websocket/client.go:1374-1413 | an integer, written as digits or as text with space around it, is accepted as itself if and only if it is positive and fits 64 bits, and refused with the error of its notation otherwise |
| CartRequest.JsonIntegers | pkg/websocket/client.go:116-116 | a JSON integer enters as the nearest float64, hence as itself if and only if it is one, positive and fits; every integer of up to 53 binary digits is one |
| CartRequest.JsonRounds | pkg/websocket/client.go:1374-1384 | 9007199254740993 enters the cart as 9007199254740992 |
| Starters.StartersAdmission | pkg/websocket/client.go:332-374 | in every run without such a start: one live request per client id, as many entries as live requests, permits at most entries, own deletions only, and nothing left when nobody is |
| Starters.PermitsAreBounded | pkg/websocket/client.go:337-374 | in every run the permits held are those of the requests at work and at most the semaphore's size, none without a semaphore |
| Starters.MatchedTake | pkg/websocket/client.go:332-374 | entries stay matched one to one with live requests, each deleting its own, in every step if and only if it is not the start of a goroutine whose client has changed its id |
| Starters.RenamingLeavesAnEntry | pkg/websocket/client.go:372-374 | a run with such a start that ends with nobody at work and the old id still refused |
| Starters.AskThenAdmit | pkg/websocket/client.go:332-340 | the two steps of a handler, uninterrupted, amount to that |
| Starters.AskingIsExact | pkg/websocket/client.go:332-340 | a request is taken on if and only if its client has none in flight and a permit is left, which it then holds with an entry under the client's id; a refused one leaves nothing behind |
| Starters.RunningGivesBack | pkg/websocket/client.go:372-374 | a request taken on that runs to its end gives back entry, permit and place |
| Router.Router.ProcessMessage | pkg/streams/router.go:239-343 | on every path one pass is an enabled run: one Process step for an entry in hand, or its effect, then anything others do, then its XACK, and that also for an entry others took over |
| Router.Router.ProcessLocal | pkg/streams/router.go:266-282 | delivery from the own pool, with the re-check of presence after a failed send, as the verdict of the decision function |
| Router.Router.ProcessElsewhere | pkg/streams/router.go:297-342 | the race-local delivery, the source-pod rule and the re-publish, as the verdict of the decision function |
| Router.Router.PublishToClient | pkg/streams/router.go:104-131 | appends to the looked-up pod's stream; else records the failed lookup, the offline client or the failed append, with an error except for the offline client |
| Router.Router.ShouldRetryMessage | pkg/streams/router.go:216-234 | keeps the entry exactly while it is within the whole window after a failed lookup, half of it for an offline client |
| Router.Router.ProcessAll | pkg/streams/router.go:182-186 | passes over exactly the batch, in its order, with other workers' steps in between, as a run; alone, each entry is still in hand when its turn comes and new entries only come behind the unread ones |
| Router.Router.ReadRound | pkg/streams/router.go:532-556 | a read and its passes are a run; alone, they take the COUNT oldest unread entries in order, whatever is published meanwhile, or report that there are none |
| Router.Router.ClaimRound | pkg/streams/router.go:509-528 | a claim and its passes are a run that lets fewer records be stale for the rest of the idle time; alone and answered, they are exactly one stretch of the pending list, and go on with the rounds analysed in TrimFirst |
| Router.Router.ConsumeOnce | pkg/streams/router.go:152-187 | the same for a round of the consume loop; after a NOGROUP reply the group is there if its creation succeeded |
| Router.Router.AutoClaimOnce | pkg/streams/router.go:363-387 | a tick of the auto-claim loop is a run; alone and answered, it passes over exactly the due and stored records of the stretch from the start id until COUNT records are dealt with, in order, takes the gone ones off the pending list, and says where the stretch ended; the unread part stays unless others append; after a NOGROUP reply the group is there if its creation succeeded |
| Router.Router.TrimOnce | pkg/streams/router.go:858-868 | a tick of the trim loop, others acting before XPENDING and before XTRIM, is a run that ends in one enabled Trim step at the later, as text, of the cutoff and the pending id that XPENDING listed; if it listed none, exactly the entries older than the retention lie below the floor, and a trim that takes all it may keeps exactly the others |
| Router.Router.Look | pkg/streams/router.go:562-566 | XLEN and XPENDING with others acting before each; alone, says empty if and only if XLEN failed or found no entries and XPENDING failed or found nothing pending |
| Router.Redis.XReadGroup | pkg/streams/router.go:154-161 | hands out the oldest unread entries, as the Read step |
| Router.Redis.XAutoClaim | pkg/streams/router.go:509-516 | scans from the start id until COUNT records are dealt with, gone or due, returns those due and stored and where to go on, as the Claim step |
| Router.Redis.XPendingIds | pkg/streams/router.go:594-600 | lists the oldest pending ids, 500 at most |
| Router.Redis.XAckAll | pkg/streams/router.go:615-620 | acknowledges and records what is still pending of the ids, all of them if they are the oldest |
| Router.Redis.XTrimMinId | pkg/streams/router.go:868-868 | drops some of the entries below the floor, oldest first |
| JanitorLock.LockKey.AcquireLock | pkg/streams/router.go:640-644 | takes the key with a lease exactly when no unexpired lock holds it |
| JanitorLock.LockKey.ReleaseLock | pkg/streams/router.go:648-652 | deletes the key only while it holds the releaser's token |
| SessionHandlers.ClientPool.Register | pkg/websocket/pool.go:23-28 | the pool maps the client to this connection and is otherwise unchanged |
| SessionHandlers.ClientPool.Unregister | pkg/websocket/pool.go:33-42 | removes the entry if and only if it is this very connection |
| SessionHandlers.ClientPool.ForceClose | pkg/websocket/pool.go:46-56 | removes and returns whatever connection the client has |
| SessionHandlers.ClientManager.GetConnectedClient | pkg/websocket/clientmanager.go:55-79 | the client's row, or that there is none |
| SessionHandlers.ClientManager.AddConnectedClient | pkg/websocket/clientmanager.go:97-119 | overwrites the client's row and leaves last-seen alone |
| SessionHandlers.ClientManager.RemoveConnectedClient | pkg/websocket/clientmanager.go:122-141 | removes row and last-seen unconditionally, the latter only if its own command succeeds |
| SessionHandlers.ClientManager.RemoveConnectedClientIf | pkg/websocket/clientmanager.go:145-183 | removes both if and only if the row has the given connection id, and says so |
| SessionHandlers.ClientManager.UpdateClientTTL | pkg/websocket/clientmanager.go:186-201 | records when the client was last seen |
| SessionHandlers.ClientManager.CleanupScript | pkg/streams/router.go:733-748 | the script's effect is the sweep that CleanupAfterAnything is about |
| SessionHandlers.App.PublishForceClose | pkg/websocket/client.go:563-582 | publishes to the pod in the client's row |
| SessionHandlers.App.EvictConnectedClient | pkg/websocket/client.go:538-584 | closes a local owner and counts it down, tells the remote owner's pod, or nobody without a router |
| SessionHandlers.App.Join | pkg/websocket/client.go:704-716 | enters the pool, and counts the connection only if its trigger succeeds |
| SessionHandlers.App.Admit | pkg/websocket/client.go:684-716 | client id first, then row, pool, trigger and gauge, stopping at the first failure |
| SessionHandlers.App.Register | pkg/websocket/client.go:626-751 | reply and effect, for every combination of failing calls, are those of the specification used in the fleet |
| SessionHandlers.App.CloseClientSession | pkg/websocket/client.go:513-532 | likewise for closing a session |
| SessionHandlers.App.ReadExit | pkg/websocket/client.go:95-111 | likewise for what Read defers |
| SessionHandlers.App.DeliverForceClose | pkg/websocket/router_factory.go:92-99 | closes the pool's connection of that client and leaves the gauge alone |
| MessageServer.Server.Publish | pkg/grpc/server.go:674-718 | what goes out, to the contact without its scheme, only on a successful publish |
| MessageServer.Server.SendDeltaWithSeq | pkg/grpc/server.go:441-468 | publishes the numbered chunk; the response carries the number as a 32-bit integer |
| MessageServer.Server.HandleDeltaMessage | pkg/grpc/server.go:418-430 | raises the tracker's number for the message id, or uses 1 without a tracker |
| MessageServer.Server.HandleRationaleMessage | pkg/grpc/server.go:376-414 | forwards the trimmed sentence, or nothing if it is blank |
| MessageServer.Server.HandleControlMessage | pkg/grpc/server.go:595-622 | forwards the control payload under its content as type |
| MessageServer.Server.HandleCompletedMessage | pkg/grpc/server.go:471-516 | sends the end, and saves the message to history unless it is final output, the publish failed or the history refuses it |
| MessageServer.Server.HandleSetup | pkg/grpc/server.go:297-343 | start sent, PUBLISH_ERROR or CLIENT_OFFLINE |
| MessageServer.Server.ProcessStreamMessageWithSeq | pkg/grpc/server.go:294-371 | is one step of the stream path, with or without a tracker |
| MessageServer.Server.NextNumber | pkg/grpc/server.go:273-276 | the next number of the message id |
| MessageServer.Server.ProcessStreamMessageWithUnarySeq | pkg/grpc/server.go:254-290 | is one step of the unary path |
| MessageServer.Server.StreamMessages | pkg/grpc/server.go:128-177 | answers every message of the stream in order, with its own tracker, up to the first response that cannot be sent; the RPC's error |
| MessageServer.Server.SendMessage | pkg/grpc/server.go:180-204 | one unary step, its error turned into a PROCESSING_ERROR response |
| MessageServer.Server.StreamToServer | pkg/grpc/server.go:207-243 | the closing response that ClientStreamHidesItsLastError is about, or none and an error if receiving breaks off |
| CartRequest.Collect | pkg/websocket/client.go:1197-1216 | the items of a request, or which of the three shape errors it has |
| CartRequest.ReadItem | pkg/websocket/client.go:1223-1236 | an item's quantity, 1 if absent, or the first of its problems |
| CartRequest.MergeItem | pkg/websocket/client.go:1238-1263 | one more item merged: order, quantities and callback copies stay those of the items so far |
| CartRequest.Assemble | pkg/websocket/client.go:1266-1272 | the merged items and callback copies in order |
| CartRequest.ParseCartItems | pkg/websocket/client.go:1196-1273 | the first problem in item order rejects; otherwise one item per id with its first seller and the wrapped sum of its quantities |
| CartUpdate.OrderFormItemMatchesInput | pkg/vtex/client.go:197-213 | true exactly when a non-empty candidate id agrees with the input |
| CartUpdate.FindOrderFormItem | pkg/vtex/client.go:215-222 | the first matching line, or that there is none |
| CartUpdate.OrderForm.UpdateItems | pkg/vtex/client.go:182-188 | sets the listed quantities in order |
| CartUpdate.OrderForm.AddItems | pkg/vtex/client.go:174-180 | appends a line per item |
| CartUpdate.PlanItems | pkg/vtex/client.go:252-280 | applying the planned updates gives each line its quantity plus the last input matched to it; the additions are the inputs that match no line, in order; one result per input |
| CartUpdate.AddOrUpdateCartItems | pkg/vtex/client.go:236-289 | the order form after the call, for each combination of failing calls; updates stay made when only the addition fails |
| Starters.App.LoadOrStore | pkg/websocket/client.go:332-335 | says whether the entry was there, and it is there afterwards |
| Starters.App.TryAcquire | pkg/websocket/client.go:337-337 | takes a permit exactly when there is a semaphore with one left |
| Starters.App.GetPDPStarters | pkg/websocket/client.go:310-372 | accepts exactly valid requests of clients with none in flight while a permit is left, and gives each refusal exactly when it applies; takes entry and permit together or neither |
| Starters.App.Finish | pkg/websocket/client.go:373-374 | gives back the permit and deletes the entry of the id it was started with |

## Left out

- The Redis client, connection failures inside a command, clustering and persistence of Redis.
- `Delete`: XGROUP DESTROY and DEL are one step, with nobody in between.
- `Delete`: a stream is taken not to be deleted in the very millisecond of its last append, after which Redis could give out the same ids again.
- XAUTOCLAIM's internal limit of ten times COUNT scanned records: a scan ends at COUNT records dealt with or at the end of the list.
- `ReclaimAll`: ends by proof while less than the idle time passes; beyond that records claimed in it become due again and the loop can go on. Its equality with the rounds of `TrimFirst` is stated for a clock that stands still and no appends to the same stream.
- `TrimFirstDrain`: takes exact trims of any prefix below the cutoff, and one moment for all claims of the loop, as do `TrimFirstReclaim` and `TrimFirstReads`.
- `ReachesItsClient`: that a read and a pass of the client's pod do come is scheduling and is not claimed; `OneHopThenDelivered` shows that they can.
- `JanitorPasses`: the SCAN over stream keys; whether a tick finds the pod dead and gets the lock is left open, and what the lock guarantees is proved in `JanitorLock`.
- `RetriesAreBounded`: passes over an entry that somebody else has claimed meanwhile and that leave it pending; they change nothing, and how many there are is up to how many hands it has been in.
- `OwnershipCoverage`: takes Register, close and exit of Read as one step each, and pods that keep their heartbeat while they hold connections.
- `App.Register`: the domain allow-list, the fetch of history and the ready_for_message reply; the gauge is summed over its labels and metrics are taken as configured.
- `NextNumber`: wrap-around of the 64-bit counter after 2^63 chunks of one message.
- `ParseCartItemQuantity`: a float outside the 64-bit range is rejected, as Go does on amd64; arm64 saturates instead. Its float case is stated on reals; which of them JSON integers come to is in `JsonIntegers`.
- `AddItems`: VTEX's own handling of an added or updated line is taken to be appending it and setting its quantity.
- `Starters.App.GetPDPStarters`: the optional product fields and the call of the Lambda function with its replies.
- `tryUnmarshalStreamPayload` and delivery of ordinary payloads: JSON and socket writes are results of `deliver`.
- `observabilityLoop`, heartbeat and ticker scheduling, logging and alerts: nothing depends on them.
- HTTP and websocket plumbing, uploads, voice, Flows and VTEX marketing calls, token signing.
- History pagination, caches, configuration defaults not named above, mocks and generated code: nothing in them is more than one function's own affair.
