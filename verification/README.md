# A verified model of the field server's control plane

The field server is the control plane of a live audio relay: people and AI workers publish audio
into rooms of a media server, listeners receive it, and the control plane decides who may speak,
what happens when somebody leaves, is replaced or is thrown out, what is sent to the translation
service, and what is reported as usage. This project models the parts of it that hold state over
time and proves what they are for. Everything here is Dafny 4.11; `dafny verify dfyconfig.toml`
checks it all.

One module per file, except the three of `RateLimit.dfy`.

| file | what it models |
|---|---|
| `SilenceGate.dfy` | the streaming silence gate, proved equal to a filter that has no state |
| `TranslateWorker.dfy` | the make-before-break worker: send loop, readers, receive loop, renewal, clean-up |
| `Captions.dfy` | the numbering of caption utterances |
| `Identity.dfy` | printing and parsing speaker identities |
| `Leases.dfy` | the lease table and its transactions |
| `LeaseProtocol.dfy` | publish, takeover, close, rotation and restart against the room and its webhooks |
| `LeaseSteps.dfy` | what each step of that protocol does, in terms of leases, rooms and queues |
| `Webhooks.dfy` | the webhook handlers, redelivery and the audit log; refines the lease protocol's handler |
| `WebhookSteps.dfy` | what each webhook does from delivery to end, in terms of leases, on-air state and log |
| `Reconcile.dfy` | the start-up loops over leases and participants; refines the lease protocol's restart |
| `AiGraph.dfy` | the dependency graph of AI channels and every step that changes it |
| `Cascade.dfy` | the cycle check and the cascade, as the loops they are |
| `Credentials.dfy` | passwords and generation, with a crash possible between any two atomic steps |
| `Usage.dfy` | usage sessions and the reporter that drains them |
| `RateLimit.dfy` | event windows, the sliding-window limiter, the failure lock |
| `Listeners.dfy` | issued listeners, their counts, and heartbeats |
| `LockOrder.dfy` | the routes' locks and why they cannot deadlock |
| `Common.dfy` | the option type |

## How it is modelled

* One transaction, or one stretch of code between two awaits, is one atomic step. Objects that the
  program updates in place are classes; their methods are tied to functions on values, and the
  properties are proved about those functions and about whole runs of steps.
* Times are real numbers and clocks do not run backwards. Nonces and listener ids are fresh.
* The media server, the translation service and HTTP appear only through their answers: success or
  failure of a removal, who is listed, which events arrive. Loudness, the digit table of the
  regular expressions, white space and the hash function are parameters.
* The lease protocol keeps the webhook events of one identity in order and interleaves different
  identities freely; a failed handler leaves its event undelivered. Answers of the media server may
  be out of date when the waiting coroutine gets them: the removal and the resumption of the route
  or handler are separate steps, and so are listing the room and acting on the list.

## What turned out not to hold, and exactly when it does

* *A speaker in the room holds its lease or its join is still undelivered.* Not in every run: a
  route that acts on an answer that is out of date can take the lease of a speaker whose join has
  been accepted meanwhile. `SafeIffNotStale` and `SafeRuns` say that this is the only way, step by
  step and over whole runs; `LateRemoval` and `LostDeparture` are two such runs. `AlwaysSafe`
  proves the property for all runs in which departures are notified and nothing comes between a
  removal and its answer (listings may still be late).
* *After `run` no session is active or draining.* The clean-up waits several times, and a
  cancellation of the supervising task at one of the waits skips the rest. `CleanIffNotCut` says
  exactly when the clean-up is complete, `CutShort` is a run that leaves two sessions unclosed.
  `NeverLost` holds regardless: every connected session is active, draining or handed over.
* *Only the active session ends the receive loop.* An event whose handling raises ends it too,
  whichever session sent it: audio that cannot be decoded, a caption that is no text, an event that
  is no object (`OldSessionEnds`; `OldSessionEndsLoop` is a run). So does a failing audio sink
  (`InStep`). A null event reads like the end of its session's stream, while the reader goes on.
* *Send and administrator password differ.* They can be made equal by changing the configuration
  under a stored password. `DistinctStep` gives the exact condition, `ClashHappens` a run.
* *A rotating start leaves no lease of an older generation.* Row and leases are written in two
  transactions, and a crash between them leaves the old leases: `LeasesStep` says only that does,
  `LeaseLeftOver` is a run. `LeftOverUntil` says exactly how long such a lease stays: until the
  reconciliation of a start if it was joined, a new lease or a release on its channel, or a
  rotation. `OlderLeasesGo` adds that an unjoined one blocks its channel for the join grace only.
* *A webhook id is logged once.* Ids are cut to 128 characters before they are compared, so two
  longer ids with the same beginning count as one and the second event is missed:
  `LongIdsCollide`.
* *A parsed identity is the printed one.* The parser accepts one trailing newline and decimal
  digits of other scripts: `NewlineAccepted`, `ParsedShape`. What the server issues round-trips:
  `RoundTrip` gives the exact condition.
* *Live listeners never exceed the count.* That needs a heartbeat to be stored within 3570 seconds
  of touching its row: `LateBeat`.
* *A session is posted at most ten times.* A restart while a post is under way loses its answer
  without counting an attempt. `PostCap` says when a session stays within ten: a given-up one
  exactly if no answer was lost, an accepted one exactly if failures and lost answers together are
  at most nine. `ElevenPosts` is a run with eleven posts, `MorePosts` one with any number. That a
  session is never posted again once its acceptance is known, or once given up, holds in every run:
  `NeverAgain`. An acceptance whose answer is lost is not known to the server.

## Model

| member | source | states |
|---|---|---|
| SilenceGating.SilenceGate.Feed | api/app/translate_worker.py:224-269 | over any sequence of calls the returned chunks are the stateless filter `Passed` of everything fed; sent bytes are the bytes returned, sent plus gated bytes the bytes fed |
| SilenceGating.SilenceGate.Buffer | api/app/translate_worker.py:271-277 | adds to the gated bytes and keeps the trimmed suffix that fits the pre-roll |
| SilenceGating.SilenceGate.Send | api/app/translate_worker.py:231-241 | a disabled gate, or an open one on a loud chunk, passes exactly that chunk |
| SilenceGating.SilenceGate.FeedQuiet | api/app/translate_worker.py:242-253 | an open gate passes a quiet chunk exactly while the run stays below the hangover |
| SilenceGating.SilenceGate.Close | api/app/translate_worker.py:247-253 | closing returns nothing and starts the stored suffix afresh with this chunk |
| SilenceGating.SilenceGate.StoreQuiet | api/app/translate_worker.py:256-258 | a closed gate returns nothing for a quiet chunk and stays sound |
| SilenceGating.SilenceGate.Resume | api/app/translate_worker.py:259-269 | a loud chunk reopens the gate and moves the stored bytes from gated to sent |
| SilenceGating.WithheldNeedsHangover | api/app/translate_worker.py:237-253 | whatever is withheld ends an unbroken quiet stretch of at least the hangover bytes |
| SilenceGating.QuietRun | api/app/translate_worker.py:239-242 | the silence counter weighs the longest quiet suffix |
| SilenceGating.SettledStays | api/app/translate_worker.py:259-269 | once a loud chunk has come, later audio changes no decision about earlier chunks |
| SilenceGating.QuietDecidesNothing | api/app/translate_worker.py:255-258 | a quiet chunk changes no earlier decision |
| SilenceGating.LoudReleases | api/app/translate_worker.py:259-269 | a loud chunk releases from the run before it exactly what lies within the pre-roll bytes |
| SilenceGating.LoudReopens | api/app/translate_worker.py:259-269 | the output grows by the longest suffix since closing that fits, then the loud chunk |
| SilenceGating.QuietPasses | api/app/translate_worker.py:242-246 | in the stateless filter too a quiet chunk passes exactly below the hangover |
| SilenceGating.LongestFitDecides | api/app/translate_worker.py:276-277 | trimming from the front leaves exactly the chunks from which the rest fits |
| SilenceGating.TrimmedIsSuffix | api/app/translate_worker.py:271-277 | what trimming leaves is the longest fitting suffix |
| SilenceGating.ClosedQuiet | api/app/translate_worker.py:255-258 | while closed, quiet audio adds no output and no closing |
| SilenceGating.InvCloses | api/app/translate_worker.py:247-253 | the gate's counters agree with the whole history when it closes |
| SilenceGating.InvResumes | api/app/translate_worker.py:259-269 | and when it resumes |
| TranslateWorking.TranslateWorker.Begin | api/app/translate_worker.py:446-447 | the first session is made, and is the active one while it connects |
| TranslateWorking.TranslateWorker.Connected | api/app/translate_worker.py:448-458 | only a connected first session starts the loops and its reader; a failed connect goes to the clean-up |
| TranslateWorking.TranslateWorker.Renew | api/app/translate_worker.py:661-674 | a new session becomes active, the old one drains, at the same instant; a failed connect changes nothing |
| TranslateWorking.TranslateWorker.DrainAndClose | api/app/translate_worker.py:676-683 | exactly that session passes from draining to closing |
| TranslateWorking.TranslateWorker.FeedGate | api/app/translate_worker.py:561-575 | the chunks to send are what the gate returned, in order, and that is the stateless filter |
| TranslateWorking.TranslateWorker.AppendNext | api/app/translate_worker.py:574-575 | the next chunk goes to the session that is active at that moment |
| TranslateWorking.TranslateWorker.AppendDone | api/app/translate_worker.py:574-575 | a chunk counts as sent when its append has returned; one whose append raised is lost and ends the send loop |
| TranslateWorking.TranslateWorker.ReadSession | api/app/translate_worker.py:596-610 | events, null included, go to the queue in order and the reader goes on; it stops after reporting an end or an error |
| TranslateWorking.TranslateWorker.Take | api/app/translate_worker.py:618-638 | the loop takes the oldest message and ends exactly when that message ends it |
| TranslateWorking.HandleMessage | api/app/translate_worker.py:619-721 | usable audio of at least one sample is the frame to play and does not end the loop, no other message gives a frame; whether a message ends the loop |
| TranslateWorking.TranslateWorker.PlayDone | api/app/translate_worker.py:710-721 | a played frame is counted once; a refused one ends the loop |
| TranslateWorking.TranslateWorker.EndLoops | api/app/translate_worker.py:462-473 | the end of a loop cancels all readers and starts the clean-up, with owners unchanged |
| TranslateWorking.TranslateWorker.CloseSessions | api/app/translate_worker.py:764-771 | the closes begin, with the first of the draining sessions in some order, or the active one |
| TranslateWorking.TranslateWorker.StaleDone | api/app/translate_worker.py:769-776 | the next stale session is closed; after the last, draining is emptied and the active one is closed |
| TranslateWorking.TranslateWorker.ActiveDone | api/app/translate_worker.py:775-777 | once the active session's close has returned none is active or draining and every connected one was handed over |
| TranslateWorking.TranslateWorker.Cancelled | api/app/translate_worker.py:880-891 | a cancellation starts the clean-up, or, within it, ends it where it is |
| TranslateWorking.NeverLost | api/app/translate_worker.py:432-475 | in every reachable state, cancellations anywhere, each connected session is active, draining or handed over, and only one of them until its close in the clean-up begins |
| TranslateWorking.CleanIffNotCut | api/app/translate_worker.py:466-475 | when the run is over none is active or draining exactly if no cancellation came in the clean-up before the last close had returned |
| TranslateWorking.CutShort | api/app/translate_worker.py:470-475 | a run that a cancellation ends with one session active and one draining, neither of them closed |
| TranslateWorking.OldSessionEndsLoop | api/app/translate_worker.py:618-638 | after a renewal, undecodable audio of the replaced session ends the receive loop |
| TranslateWorking.OldSessionEnds | api/app/translate_worker.py:618-638 | the messages that end the loop: of any session a malformed delta or an event that is no object, of the active one also its end, failure, error, closed or null event |
| TranslateWorking.NothingAfterEnd | api/app/translate_worker.py:621-638 | nothing is heard after the message that ends the loop, whatever follows |
| TranslateWorking.NothingLost | api/app/translate_worker.py:612-638 | until then the frames of all sessions are heard in queue order, whichever are active |
| TranslateWorking.HeardByPosition | api/app/translate_worker.py:710-721 | what is heard is, position by position, exactly the usable audio of at least one sample among the messages |
| TranslateWorking.Heard | api/app/translate_worker.py:612-638 | in every reachable state the frames played are those of the messages taken, up to the one that ended the loop |
| TranslateWorking.TakeKeeps | api/app/translate_worker.py:618-638 | taking a message keeps that |
| TranslateWorking.Regroup | api/app/translate_worker.py:567-575 | regrouping the appends by session, in the order sessions were made, keeps their order |
| TranslateWorking.SentBySession | api/app/translate_worker.py:567-575 | what the successive sessions were sent, with the chunk under way, the one lost and those waiting, concatenates to the gate's output |
| TranslateWorking.SentBegins | api/app/translate_worker.py:573-575 | giving a chunk to the active session keeps that |
| TranslateWorking.SentReturns | api/app/translate_worker.py:574-575 | so does the return of an append, or its failure |
| TranslateWorking.SentMoves | api/app/translate_worker.py:666-667 | and so does every change of sessions, also while an append is under way |
| TranslateWorking.RenewKeeps | api/app/translate_worker.py:663-674 | every connected session stays exactly one of active, draining and handed over |
| TranslateWorking.CloseAllKeeps | api/app/translate_worker.py:769-776 | the beginning of the closes keeps every session accounted for |
| TranslateWorking.StaleClosedKeeps | api/app/translate_worker.py:769-776 | and so does each return of one |
| Captions.EndsAtTerminator | api/app/translate_worker.py:291-294 | a delta ends an utterance exactly if only white space follows its last terminator |
| Captions.UtteranceTracker.NextId | api/app/translate_worker.py:324-336 | the number given is the one the whole history of that kind calls for |
| Captions.SameUtterance | api/app/translate_worker.py:305-311 | numbers start at 1, never fall, rise by at most one, and are equal exactly if between no delta ends an utterance and no pause reaches the gap |
| Captions.Settled | api/app/translate_worker.py:300-302 | a number once given does not depend on later deltas |
| Captions.Independent | api/app/translate_worker.py:304-305 | kinds are numbered independently |
| Identity.RoundTrip | api/app/identity.py:8-33 | parsing a printed identity gives its fields back exactly if the channel has two digits and the nonce is non-empty ASCII alphanumeric |
| Identity.PrintInjective | api/app/db.py:724 | comparing issued identities as strings is comparing all four fields |
| Identity.ParsePrinted | api/app/identity.py:19-33 | what parsing a printed identity gives, for any fields |
| Identity.ParsedShape | api/app/identity.py:8-10 | whatever parses has the prescribed shape, up to one final newline |
| Identity.PrintExample | api/app/db.py:724 | the written form, by an example |
| Identity.NewlineAccepted | api/app/identity.py:8-10 | an identity with a final newline parses like the one without |
| Leases.Lifetime | api/app/db.py:741-755 | a lease blocks others for the join grace, once joined for its lifetime, after an extension for a lifetime from then |
| Leases.Acquires | api/app/db.py:725-755 | who is refused, read off the row, and what everybody else gets |
| Leases.HolderChanges | api/app/db.py:774-809 | what release, join mark and extension do to the lease of that identity |
| Leases.OnlyTheHolder | api/app/db.py:774-809 | release, join mark and extension touch only a lease held by that identity |
| Leases.LeaseTable.AcquireLease | api/app/db.py:702-739 | acquires unless the existing lease is alive, and then changes nothing |
| Leases.LeaseTable.ForceAcquire | api/app/db.py:757-772 | overwrites whatever was there by an unjoined lease |
| Leases.LeaseTable.ReleaseIfIdentity | api/app/db.py:774-783 | deletes the lease exactly if that identity holds it |
| Leases.LeaseTable.MarkLeaseJoined | api/app/db.py:789-795 | records the join on that identity's lease only |
| Leases.LeaseTable.ExtendIfIdentity | api/app/db.py:797-809 | renews the lifetime of that identity's lease only |
| LeaseProtocol.SafeIffNotStale | api/app/main.py:776-825 | from a sound state a step, removals and departures notified or not and aborted connections included, leaves every speaker with its lease or an undelivered join exactly if no route acts on an outdated answer |
| LeaseProtocol.LostJoin | api/app/webhook.py:151-190 | what the steps leave out, a join that is never notified, is safe at once exactly if the speaker holds the lease or an older join is to come |
| LeaseProtocol.SafeRuns | api/app/main.py:1351-1399 | a run is safe throughout exactly if none of its steps does |
| LeaseProtocol.SafeFromTheStart | api/app/main.py:776-825 | the same from an empty server |
| LeaseProtocol.AlwaysSafe | api/app/webhook.py:151-190 | all runs with notified departures and prompt answers to the routes' removals are safe: through failures, grace overwrites, extension, takeover, rejoin, rotation, restart |
| LeaseProtocol.OrderlyIsSafe | api/app/webhook.py:269-283 | the same from any sound state |
| LeaseProtocol.OneSpeaker | api/app/webhook.py:174-190 | two speakers of a channel without undelivered joins are one, and hold its joined lease |
| LeaseProtocol.StaleIsUnsafe | api/app/main.py:1373-1385 | an outdated answer does leave somebody in the room without lease and without a join to come |
| LeaseProtocol.LateRemoval | api/app/main.py:1374-1385 | a run in which a takeover's removal is answered late and ends unsafe, without any departure of its own accord |
| LeaseProtocol.LostDeparture | api/app/main.py:799-810 | a run in which a departure is never notified and a publish acts on an old list |
| LeaseProtocol.TakeoverOutdates | api/app/main.py:1379-1385 | after a takeover no identity issued before for the channel is ever admitted again, in any run; the new one is |
| LeaseProtocol.AlwaysDated | api/app/db.py:816-824 | in every run epochs only grow and no issued identity is ahead of its channel's |
| LeaseProtocol.IssuedNow | api/app/main.py:807-810 | what a step issues holds the lease and carries the channel's epoch and the generation of that moment |
| LeaseProtocol.PresentKeepsLease | api/app/main.py:799-803 | a publish that finds the holder present issues nothing and extends the holder's lease by a full lifetime |
| LeaseSteps.PublishDecides | api/app/main.py:799-812 | without a lease, or from two minutes after an unused one was issued, a publish gets the channel for an hour; before it is refused; nothing else changes |
| LeaseSteps.SecondPublish | api/app/db.py:749-755 | the same in numbers: refused after 100 seconds, served after 200 |
| LeaseSteps.PublishLooksForHolder | api/app/main.py:799-801 | a joined lease is looked up in the room, and an error there counts as present |
| LeaseSteps.PublishAfterListing | api/app/main.py:801-812 | an absent holder's channel is given away at once; a present one's lease is extended by an hour |
| LeaseSteps.TakeoverLooks | api/app/main.py:1373-1385 | without a lease a takeover takes effect at once, else the holder's removal comes first |
| LeaseSteps.TakeoverResumes | api/app/main.py:1379-1385 | after it the epoch is one higher and the channel belongs to an identity of it |
| LeaseSteps.CloseLooks | api/app/main.py:679-685 | a close waits for the holder's removal if there is a lease, and takes effect at once if not |
| LeaseSteps.CloseResumes | api/app/main.py:684-685 | after it the channel is closed with its epoch kept, and has no lease |
| LeaseSteps.JoinDelivered | api/app/webhook.py:160-190 | a join is accepted exactly from an unblocked identity of the generation, not of an older epoch, that holds the lease; otherwise its removal begins |
| LeaseSteps.DepartureDelivered | api/app/webhook.py:269-283 | a departure releases the lease exactly if this identity holds it |
| LeaseSteps.HandlerResumes | api/app/webhook.py:136-149 | a removal that worked has its event done with, one that failed leaves it |
| LeaseSteps.Rotates | api/app/db.py:521-533 | a rotation starts the next generation without leases and with an empty room |
| LeaseSteps.Restarts | api/app/state.py:475-482 | a restart keeps room and events and releases the joined leases of the absent |
| LeaseSteps.ChannelOpens | api/app/db.py:613-630 | a channel that is not open is opened, a known one with its epoch |
| LeaseProtocol.StepKeepsInv | api/app/main.py:658-685 | all other steps keep the invariant behind it |
| LeaseProtocol.ToldStep | api/app/webhook.py:151-190 | orderly steps keep it, are never outdated, and keep departures accounted for |
| LeaseProtocol.RoomDeliver | api/app/webhook.py:151-190 | delivering a join or a departure keeps what speakers in the room rely on |
| LeaseProtocol.RoomReply | api/app/webhook.py:136-149 | so does a handler whose removal has succeeded or failed |
| LeaseProtocol.RoomIssue | api/app/db.py:715-739 | overwriting an unjoined lease harms no accepted speaker |
| LeaseProtocol.RoomPublishResume | api/app/main.py:799-812 | releasing an absent holder's lease and issuing a new one harms nobody unless the list is outdated |
| LeaseProtocol.TellJoined | api/app/main.py:799-805 | every joined lease's holder is in the room or has its departure undelivered |
| Webhooks.WebhookProcessor.Handle | api/app/webhook.py:37-80 | one delivery up to its first await: ignored if committed, logged, skipped for other rooms, dispatched, committed on success |
| Webhooks.WebhookProcessor.RecordSignalEvent | api/app/webhook.py:82-134 | logs an audited event unless its id is logged, and only then touches usage |
| Webhooks.WebhookProcessor.Join | api/app/webhook.py:151-190 | marks a rightful speaker's lease joined; everybody else but listeners is removed |
| Webhooks.WebhookProcessor.Publish | api/app/webhook.py:192-237 | only the lease holder of an open channel with the right track name gets as far as the listing |
| Webhooks.WebhookProcessor.AfterListing | api/app/webhook.py:238-245 | sets the channel on air unless the publisher has a second track |
| Webhooks.WebhookProcessor.Unpublish | api/app/webhook.py:247-267 | takes the channel off air for the lease holder's event only |
| Webhooks.WebhookProcessor.Leave | api/app/webhook.py:269-283 | releases the lease and clears on-air for the lease holder's event only |
| Webhooks.WebhookProcessor.AfterRemoval | api/app/webhook.py:136-149 | the event is committed only if the removal succeeded |
| Webhooks.OncePerId | api/app/state.py:150-178 | over any deliveries every id is logged at most once and has at most one usage operation |
| Webhooks.RecordTwice | api/app/db.py:276-302 | a redelivered event is not logged again and has no second usage effect |
| Webhooks.LongIdsCollide | api/app/state.py:160 | two ids of 128 characters or more collide exactly if they agree on the first 128 |
| Webhooks.CommittedIsIgnored | api/app/webhook.py:47-49 | a committed id changes nothing at all |
| Webhooks.CommittedForEver | api/app/db.py:827-849 | and never again does, after any further run |
| Webhooks.CommittedIffCompleted | api/app/webhook.py:37-80 | over any run of deliveries, replies and restarts an id is committed exactly if a handler of an event with that id has ended with success; failed and suspended ones commit nothing |
| Webhooks.CommittedWasDelivered | api/app/webhook.py:63-80 | nothing is committed that was not delivered, in the run or to a handler still waiting at its start |
| Webhooks.CommitsOnSuccess | api/app/webhook.py:63-80 | each segment of a handler commits its own id, and only if the handler ends there with success |
| Webhooks.NoLeaseFromEvents | api/app/webhook.py:189-283 | no run of webhooks creates a lease or changes a holder |
| Webhooks.OthersKeepLeases | api/app/webhook.py:174-190 | no delivery changes a lease that the event's identity does not hold |
| Webhooks.LeaseUntouched | api/app/webhook.py:280-283 | a lease survives any run of other identities' events unchanged |
| Webhooks.CommitMeans | api/app/webhook.py:151-190 | what an immediate commit says about the lease, per kind of event |
| Webhooks.RefinesHandle | api/app/webhook.py:151-283 | on speakers' joins and departures the processor does what the lease protocol's handler does |
| WebhookSteps.JoinEnforced | api/app/webhook.py:151-190 | a join marks the lease joined and is committed exactly from its unblocked, current holder; everybody else waits for a removal, with nothing else changed |
| WebhookSteps.DepartureEnforced | api/app/webhook.py:269-283 | a departure or aborted connection of the lease holder releases the lease and takes the channel off air; any other changes neither |
| WebhookSteps.PublishEnforced | api/app/webhook.py:192-237 | a published track goes on to the listing exactly for the lease holder of an open channel and that channel's track; otherwise a removal begins |
| WebhookSteps.ListingDecides | api/app/webhook.py:238-245 | one track: the channel goes on air and the event is committed; more: a removal begins, with nothing else changed |
| WebhookSteps.PublishedToTheEnd | api/app/webhook.py:192-245 | from delivery to end a channel goes on air exactly for a rightful publisher of a single track |
| WebhookSteps.RemovalDecides | api/app/webhook.py:136-149 | a removal that worked commits the event, one that failed does not |
| WebhookSteps.UnpublishEnforced | api/app/webhook.py:247-267 | an ended track of the lease holder takes the channel off air, any other does not |
| WebhookSteps.Ignored | api/app/webhook.py:56-61 | events of other rooms, of other kinds and about nobody are committed and do nothing |
| WebhookSteps.StrangerJoins | api/app/webhook.py:157-172 | who may join without being a speaker |
| WebhookSteps.StrangerPublishes | api/app/webhook.py:199-207 | who is not removed for publishing without being a speaker |
| WebhookSteps.LedgerGrows | api/app/webhook.py:82-134 | which deliveries are logged, under ids cut to 128 characters, and which of them open or close a usage session |
| Reconciling.Reconciler.Reconcile | api/app/state.py:463-502 | leases, removals and on-air after one listing; aborted exactly if a removal fails |
| Reconciling.Reconciler.ReleaseMissing | api/app/state.py:475-482 | exactly the joined leases of absent holders are released |
| Reconciling.Reconciler.MatchSpeakers | api/app/state.py:484-502 | exactly the speakers without lease are removed, exactly the publishing holders' channels are on air |
| Reconciling.SpeakersHold | api/app/state.py:491-502 | a listed participant is left in the room exactly if it is no speaker or holds its channel's lease |
| Reconciling.JoinedArePresent | api/app/state.py:475-482 | a lease survives, unchanged, exactly if unjoined or its holder is left in the room |
| Reconciling.OnAirMeans | api/app/state.py:494-497 | on air are exactly the channels whose lease holder is listed with a track |
| Reconciling.IssuedAreReadable | api/app/state.py:469-473 | leases as the server issues them can be matched with listed identities |
| Reconciling.OlderLeasesGo | api/app/state.py:475-482 | in a room of its own generation a start releases joined leases of older ones; unjoined ones block publishing for the join grace only |
| Reconciling.RefinesRestart | api/app/state.py:463-502 | on the lease protocol's states this is its restart: same leases, and removed is exactly who holds none |
| AiGraph.AlwaysAcyclic | api/app/main.py:1085-1117 | the open AI graph is acyclic in every reachable state, with any steps between the choice of the slot, the check and the insert |
| AiGraph.CreationExact | api/app/main.py:1091-1113 | a creation with nothing in between succeeds exactly for a free slot but the floor's, and another channel as source that is the floor or open and does not lead to the slot; the epoch of a reused slot is kept |
| AiGraph.CheckRemembers | api/app/main.py:1092-1103 | the check alone: what it lets through and what it refuses |
| AiGraph.OtherSteps | api/app/db.py:596-669 | the other steps, row by row |
| AiGraph.CloseSetMeans | api/app/db.py:651-668 | closing a set of channels closes just those and changes nothing else |
| AiGraph.StepKeepsInv | api/app/db.py:596-669 | each step keeps it, slot reuse included |
| AiGraph.InsertKeepsAcyclic | api/app/main.py:1102-1113 | an edge to a source whose chain misses the slot closes no cycle |
| AiGraph.FewerEdgesKeep | api/app/db.py:633-669 | human creations, closings and epoch changes only remove edges and keep what the check found |
| AiGraph.HarmlessMeansUnreachable | api/app/main.py:1750-1769 | on an acyclic graph the chain ends clear of the slot exactly if it does not reach it |
| AiGraph.AcyclicEnds | api/app/main.py:1750-1769 | on an acyclic graph every chain ends |
| AiGraph.RepeatNeverEnds | api/app/main.py:1762-1763 | a chain that meets a channel again never ends |
| Cascade.Channels.AiSourceCycle | api/app/main.py:1750-1769 | on any table the loop ends, and refuses exactly if the chain, which the floor ends, does not end or meets the output slot before |
| Cascade.RefusedMeans | api/app/main.py:1750-1769 | with a human floor and an acyclic graph it refuses a slot exactly if the chain reaches it |
| Cascade.Channels.CreateAiChannel | api/app/main.py:1091-1113 | the guards as the route runs them, with the cycle check, decide the same, and the table stays acyclic |
| Cascade.Channels.CloseDependents | api/app/main.py:1772-1827 | ends under any interference with rows and leases; each channel is closed once, having been open AI on its level's frontier under its lock, where a frontier is the source or what the level before closed; without interference exactly the closure is closed, no orphan is left, and just its leases are gone |
| Cascade.Channels.CloseLevel | api/app/main.py:1788-1826 | one level, in ascending order, of channels on one frontier |
| Cascade.Channels.CloseIfDependent | api/app/main.py:1800-1825 | the check under the lock decides |
| Cascade.Channels.CreateChannel | api/app/db.py:596-631 | opens a slot that is not open, keeping the epoch of a reused one |
| Cascade.Channels.CloseChannel | api/app/db.py:633-642 | closes the channel and deletes its lease |
| Cascade.Channels.LowestFreeSlot | api/app/db.py:586-594 | the smallest free slot, if there is one |
| Cascade.ClosureByFixpoint | api/app/main.py:1788-1826 | a set of dependents that absorbs its own dependents is exactly what depends on the source |
| Cascade.NoOrphans | api/app/main.py:1772-1786 | after closing it no open AI channel listens to the source or to a closed one |
| LockOrder.RoutesFinish | api/app/state.py:327-336 | any number of routes, left early anywhere, in any order: while one is unfinished some coroutine can step |
| LockOrder.NoDeadlock | api/app/state.py:251-262 | nobody can step exactly if all are finished, which is after exactly as many steps as there were operations |
| LockOrder.Follow | api/app/state.py:251-262 | from any waiting coroutine the holders lead to one that can step |
| LockOrder.StepSound | api/app/state.py:102-108 | a lock is never held by more than it admits: two for the hashing semaphore, one otherwise |
| LockOrder.Exclusive | api/app/state.py:102-108 | in every schedule two coroutines share no lock but the hashing semaphore, which at most two hold |
| LockOrder.ChannelSection | api/app/main.py:776-782 | publish and takeover work under the rotation lock and their channel's |
| LockOrder.CloseSection | api/app/main.py:647-658 | so does a close |
| LockOrder.CreateSection | api/app/main.py:1085-1091 | and the opening of an AI channel |
| LockOrder.PasswordSection | api/app/main.py:984-999 | a channel password is checked under its key's lock and the semaphore |
| LockOrder.RotationSection | api/app/main.py:707-709 | tokens and password changes come under the rotation lock |
| LockOrder.CascadeMeans | api/app/main.py:1799-1800 | a cascade takes its channels' locks one by one |
| LockOrder.RollbackMeans | api/app/main.py:1158-1191 | a rollback takes its channel's lock again, alone, and then the cascade's |
| LockOrder.SweepMeans | api/app/main.py:218-249 | the sweep takes an idle channel's lock and then its cascade's |
| LockOrder.RoutesFit | api/app/main.py:647-689 | every route takes locks of rising rank only and gives all back |
| LockOrder.CascadeBlock | api/app/main.py:1799-1800 | a cascade may run under the rotation lock, whatever its channels |
| LockOrder.SweepBlock | api/app/main.py:218-249 | so may the idle sweep |
| LockOrder.EarlyExit | api/app/main.py:984-1009 | leaving at any point keeps to the order |
| Usage.QueueDrains | api/app/usage_reporter.py:59-84 | n pending sessions and no new ones: none is pending after floor(11n/100)+11 flushes, for any answers |
| Usage.FlushProgress | api/app/usage_reporter.py:67-84 | a flush lowers the remaining total by a full batch, or every pending session's rest by one |
| Usage.TotalDrops | api/app/usage_reporter.py:68-83 | the total of (11 - attempts) drops by at least the batch |
| Usage.UsageReporter.Flush | api/app/usage_reporter.py:59-84 | one flush is the step of the draining argument, and reports the right numbers |
| Usage.UsageReporter.Begin | api/app/usage_reporter.py:63-77 | picks the oldest batch, gives up exhausted sessions, posts exactly the pending ones with attempts left, and is the posting step of the runs below |
| Usage.UsageReporter.Finish | api/app/usage_reporter.py:78-84 | an accepted post marks exactly its sessions pushed, a failed one counts one attempt each |
| Usage.PostsAccounted | api/app/usage_reporter.py:59-84 | in every run, restarts included, the posts of a session are its failed attempts, its lost answers, the accepted one and the one under way; attempts stay within 10 |
| Usage.PostCap | api/app/usage_reporter.py:67-84 | a session stays within ten posts if no restart lost an answer; given up, exactly then; accepted, exactly if failures and lost answers are at most nine |
| Usage.NeverAgain | api/app/db.py:422-456 | a session marked pushed, after acceptance or given up, is never posted again in any run |
| Usage.MorePosts | api/app/usage_reporter.py:78-83 | for every number of restarts during a post, a run that posts one session that many times more than ten |
| Usage.ElevenPosts | api/app/usage_reporter.py:78-83 | a run with eleven posts of one session |
| Usage.FlushComposes | api/app/usage_reporter.py:67-84 | both halves together are one flush |
| Usage.UsageLedger.OpenSession | api/app/db.py:353-381 | opens exactly if the subject has no open session |
| Usage.UsageLedger.CloseSession | api/app/db.py:383-392 | ends exactly the subject's open session |
| Usage.UsageLedger.CloseForChannel | api/app/db.py:394-405 | ends exactly the channel's open sessions |
| Usage.UsageLedger.CloseStale | api/app/db.py:407-420 | ends exactly the overlong open sessions, at their start plus the limit |
| Usage.UsageLedger.PendingSessions | api/app/db.py:422-444 | the oldest pending sessions, at most a batch, all if fewer |
| Usage.UsageLedger.MarkPushed | api/app/db.py:446-456 | exactly these sessions leave the queue for good, stamped with the time; all others are as before |
| Usage.UsageLedger.BumpAttempts | api/app/db.py:458-466 | exactly these sessions have one flush less to go; the queue stays the same |
| Usage.UsageLedger.Purge | api/app/db.py:468-475 | exactly the sessions pushed before the cutoff disappear; nothing else changes |
| Usage.PurgeExact | api/app/db.py:468-475 | the same for a purge in a run |
| Usage.FlushRows | api/app/usage_reporter.py:67-84 | what a flush does to each session: exhausted ones are given up, the others posted and answered, and the rest left alone |
| RateLimiting.RateLimiter.Check | api/app/rate_limit.py:19-29 | accepts exactly if fewer than the limit were accepted in the window; the wait returned is 1 to 61 seconds, enough, and not a whole second too long |
| RateLimiting.RateLimiter.Expire | api/app/rate_limit.py:22-24 | the popping loop leaves exactly the recent hits |
| RateLimiting.SlidingWindow | api/app/rate_limit.py:19-29 | over any run every half-open 60 second window holds at most the limit of accepted calls per key |
| RateLimiting.AcceptedExactly | api/app/rate_limit.py:22-29 | a call is accepted exactly if fewer than the limit were, or the limit-th last of those lies at least 60 seconds back |
| Windows.CountMeans | api/app/rate_limit.py:22-29 | the count of a window is the number of its events |
| RateLimiting.AcceptedSpaced | api/app/rate_limit.py:23-28 | accepted calls the limit apart in number are a window apart in time |
| RateLimiting.RetryFits | api/app/rate_limit.py:25-27 | the wait is sufficient and nearly necessary |
| FailureLocking.LockWindow | api/app/rate_limit.py:42-56 | any half-open window of the lock length admits at most the limit of failures |
| FailureLocking.LockLongWindow | api/app/rate_limit.py:42-56 | a window of length T at most limit * (floor(T / lock) + 1) |
| FailureLocking.FirstFailures | api/app/rate_limit.py:50-56 | the first failures are let through, and the one that reaches the limit locks for the lock length |
| FailureLocking.RefusedWhileLocked | api/app/rate_limit.py:42-56 | an attempt is refused exactly until the lock is over, and counts otherwise |
| FailureLocking.FailureLock.IsLocked | api/app/rate_limit.py:42-48 | locked exactly before the deadline, with the wait in whole seconds |
| FailureLocking.FailureLock.RecordFailure | api/app/rate_limit.py:50-56 | the failure that reaches the limit locks that key only and starts counting afresh |
| FailureLocking.FailureLock.RecordSuccess | api/app/rate_limit.py:58-61 | forgets that key's failures and lock |
| FailureLocking.FailureLock.Attempted | api/app/main.py:984-1006 | a serialised wrong attempt extends the run of the window bound |
| Credentials.CrashConsistent | api/app/state.py:343-424 | fixed configuration, any changes, any crashes: hash of the effective passwords stored, passwords differ, leases current, generation one plus the committed send changes |
| Credentials.FixedRun | api/app/state.py:410-424 | the same from any sound state |
| Credentials.StepKeepsInv | api/app/state.py:343-424 | stored hash and memory stay consistent in every step, for any configurations |
| Credentials.GenerationStep | api/app/state.py:377-398 | the generation grows by one exactly with a committed send change, a rotating start and the first start |
| Credentials.RotatesIfChanged | api/app/state.py:412-424 | with a collision-free hash a start rotates exactly if an effective password changed |
| Credentials.DistinctStep | api/app/state.py:353-376 | the passwords differ after every step except a start into a clash |
| Credentials.ClashHappens | api/app/state.py:81-82 | a run into such a clash |
| Credentials.LeasesStep | api/app/state.py:424-428 | leases of an older generation come about exactly by a crash between a rotating start's two transactions |
| Credentials.LeaseLeftOver | api/app/state.py:424-428 | a run into such a crash, after which the server is up with a lease of an older generation |
| Credentials.LeftOverUntil | api/app/state.py:424-482 | in every run a left-over lease stays exactly until a start's reconciliation if joined, a new lease or release on its channel, or a rotation |
| Credentials.LeftOverIsUnjoined | api/app/state.py:475-482 | once the server is up no left-over lease is joined |
| Credentials.SingleLeases | api/app/db.py:725-795 | issuing, joining and releasing a lease changes just that lease |
| Credentials.AppState.Bootstrap | api/app/state.py:410-428 | the start's choice of generation, with the leases cleared exactly if it rotates |
| Credentials.AppState.ChangeAdminPassword | api/app/state.py:343-357 | password and hash in one transaction, generation kept; refused exactly if equal to the send password |
| Credentials.AppState.ChangeSendPassword | api/app/state.py:364-398 | nothing changes unless the rooms rotated; then password, next generation and hash together, leases gone |
| Listeners.CountsExact | api/app/db.py:852-943 | in every run the count of a channel is its number of issued rows |
| Listeners.ListenersStay | api/app/db.py:886-943 | with prompt heartbeats live listeners stay issued and never exceed the count |
| Listeners.LateBeat | api/app/db.py:886-915 | a beat can outlive its row exactly if it is stored too long after the touch |
| Listeners.StepKeepsInv | api/app/main.py:728-745 | each step keeps both |
| Listeners.HeartbeatMeans | api/app/main.py:735-744 | a heartbeat counts for an issued listener on its own channel, renews its row, and is kept for 30 seconds |
| Listeners.IssueMeans | api/app/db.py:852-864 | an issue adds one row and one to the count |
| Listeners.PurgesMean | api/app/db.py:925-943 | a purge removes exactly the rows not touched for an hour, or the beats that have expired |
| Listeners.LiveBounded | api/app/db.py:909-915 | live heartbeats of a channel are at most its count |
| Listeners.ListenerStore.IssueListener | api/app/db.py:852-864 | row and count in one transaction |
| Listeners.ListenerStore.TouchIssuedListener | api/app/db.py:886-899 | renews exactly an issued row of that channel |
| Listeners.ListenerStore.OnHeartbeat | api/app/main.py:728-745 | touch, then store unless refused |
| Listeners.ListenerStore.PurgeExpiredIssuedListeners | api/app/db.py:929-943 | drops expired rows and counts the rest anew |
| Listeners.ListenerStore.PurgeExpiredHeartbeats | api/app/db.py:925-927 | drops expired beats only |

## Left out

- AlwaysSafe: assumes that departures are notified and that nothing comes between a route's removal and its answer; without either the property is false (`LateRemoval`, `LostDeparture`); `SafeIffNotStale` is exact without them.
- LeaseProtocol.SafeIffNotStale: takes every join to be notified in the end, however late; `LostJoin` says what one that is not does at once.
- LeaseProtocol.Restarted: takes the listing of a restart as current and the removal of speakers without a lease as departures; webhooks of departures that are lost while the process is down are departures never notified.
- LeaseProtocol.Rotated: is the commit of a send password change; the deletion of the older rooms before it appears as departures, and events are taken to name their room.
- LeaseProtocol: track-name and second-track enforcement appear as departures and the block list as a free choice per delivery; token lifetimes are not limited, so a token can be used at any time.
- AI leases in the lease protocol: an AI channel is closed even if the removal fails, and its token provider replaces leases without removing the older identity, so the property is not claimed for them.
- Cascade.Channels.CloseDependents: what other coroutines do to the table is arbitrary between the candidate query, the check under the lock and the closing; after the check the slot is closed whatever it holds by then, as the code does.
- TranslateWorking.TranslateWorker: when a renewal is due, and how long a session drains, is left to the environment; captions are taken from the queue but their publication is not modelled; frames dropped before the gate are not either.
- TranslateWorking.CleanIffNotCut: a close of the active session that raises, which the session class of the source never does, is not a case of its own; it would end the clean-up as a cancellation there does.
- Webhooks.LeaseUntouched: speaks, like `NoLeaseFromEvents`, of runs in which only webhooks get a turn; the other run theorems let the routes change generation, room, channels, leases and on-air state at any time.
- Webhooks.OncePerId: no purge of the audit log happens in between; an event that fails for longer than the log's retention of 30 days would be logged again.
- Webhooks: strikes, the contents of log entries and the attribution of usage sessions are left out; a usage operation is only counted.
- Credentials.LeftOverUntil: takes a room to admit and list identities of its own generation only; when a new lease may replace an older one is left open here and decided by `Leases.LeaseTable.AcquireLease`.
- Credentials: requests are authenticated elsewhere; the rules for new passwords matter only in that they are not empty.
- LockOrder: awaits other than for locks are taken to end, as the source bounds them; the recording manager's own lock is not part of the model.
- RateLimiting.RateLimiter: a limit of 0 and clocks that run backwards are excluded; the source assumes neither occurs.
- Usage.QueueDrains: speaks of flushes that find no new session; the conversion of a session into the reported event is formatting and left out.
- Audio arithmetic, token signing, password hashing, HTTP routing and response bodies, recordings, web pages and deployment files are foreign calls or presentation.
- Restoring AI channels after a start, and its failure branch, which closes a channel without cascade.
