# einvoice-bridge, modelled and proved in Dafny

A model of the three places where einvoice-bridge can go wrong silently, and proofs of what each of them keeps.

**The outbox protocol.** Two tables, `invoices` and `outbox_events`, are changed by the HTTP API, a submitter, a poller and a canceller. Almost no UPDATE tests the status a row had, so that the lifecycle is respected depends on who can own which outbox event. `Outbox` has one function per SQL transaction, `Decisions` what a worker decides for one event, and `Protocol` interleaves everything: every transaction, query and LHDN call is its own step, replies are arbitrary, any database operation may fail, the process may crash at any point. `Repo` and `Workers` are the same code in its own imperative form, proved against those functions; `EndToEnd.SoloPassIsHandle` ties the whole-pass view to the interleaved one.

**The OAuth token cache.** `OAuth` interleaves any number of `access_token` callers over a memory cache, a database row and one lock, with callers dropped and processes restarted anywhere; `TokenClient` is the method itself.

**The signed document.** `Json`, `KeyOrder`, `JsonParser`, `CanonicalForm` and `Compactness` give RFC 8785 text, a reader for it, the round trip, and what the text looks like; `Ubl` and `Recovery` build, sign and embed as `ubl.rs` does and prove that the signed bytes can be recovered from what LHDN receives.

Main results. Over every run of any length with any interleaving, crashes and failed operations included:

- event ownership, the lifecycle and the write-once columns (`Lifecycle`), on the inductive invariant of `Invariant`, `InvariantProofs` and `ProtocolInvariant`;
- everything the tables say was said by LHDN about that invoice (`Evidence`);
- what becomes of everything LHDN says (`Fates`): it was committed and shows for ever, or is being carried by the worker that heard it, or was dropped by a crash or a failed operation; so an answer is missing from the tables exactly when a pass that carried it was lost. That happens: `Mishaps` gives runs in which LHDN took a document whose invoice ends Failed, and agreed to a cancellation whose invoice stays Valid;
- a request of the API is accepted exactly when its row, its time and its body allow it (`Requests`);
- calls, handlings and cancel requests are accounted for exactly (`Accounting`, `Guarantees`, `Totals`, `Conservation`), and nothing is given up before its backoffs have been waited out (`Guarantees`, `CancelTiming`);
- every stored document verifies against itself and says what its payload says (`EndToEnd`, `Contents`).

Over every interleaving at a clock that stands still, the three workers and the API together come to rest, if no submit answer takes a document without giving it a uuid (`Rest`); such an answer, once committed, keeps the poller busy for ever. `Drain` says the same, more precisely, of one worker ticking alone, and `Outcomes` what one undisturbed pass leaves behind for each answer.

`Settings` holds the configuration; its `build` field is the document builder, of which the protocol uses only `SettingsOk`, and `EndToEnd.UblSettingsOk` shows that the real builder meets it. `History` is bookkeeping of the model.

## Where the code and its comments disagree

The model follows the code.

- crates/adapters/src/lhdn/client.rs:104 promises a token valid for at least the leeway. A token just fetched is returned whatever `expires_in` is. `TokenClient.LeewayKeptIff` says exactly when the promise holds, and `TokenClient.LeewayCanFail` names an input.
- crates/adapters/src/worker/poller.rs:129-130 and 141 say that a poll event without an invoice is dropped and one without a uuid marked as failed, by faking an exhausted retry. The code moves the event to time 0 and nothing ever deletes it: it is handled again in every tick, for ever (`StuckPolls.StuckForEver`), and the poller's loop never reaches its shutdown branch (`Drain.PollerDrainsIff`). Enough of them starve all other polls (`StuckPolls.ParkedFillTheBatch`).
- The comment on `fail_poll` (crates/adapters/src/repo.rs:390-393) says that an exhausted budget leaves the status alone. That is so when the last answer was an error; when the last answer was "still Submitted" the row becomes Invalid (`Outcomes.PollOutcome`).
- crates/adapters/src/worker/submitter.rs:79-81 speaks of a full batch; the loop goes round again whenever any event was handled, and the model does so.
- `map_unique_violation` (crates/adapters/src/repo.rs:834-841) reports a clash of the generated id as a duplicate reference.

A property of the public method rather than of this program: a caller of `access_token` whose future is dropped between the two writes (crates/adapters/src/lhdn/client.rs:131-142) leaves an old, stale token in memory. `OAuth.CachesAgreeIff` says exactly when cache and row agree, and `OAuth.DroppedKeeperDiverges` is a run in which they do not. Nothing in this program drops such a future - its callers are the workers, awaited to the end (crates/bin/src/main.rs:74-109) - so `OAuth.CachesAgree` applies to it. What holds in either case is that a token served from memory is the stored one (`OAuth.ServedTokenIsStored`).

## Model

| member | source | states |
|---|---|---|
| Lifecycle.EventOwnership | crates/adapters/src/repo.rs:54-759 | in every reachable state an invoice has at most one outbox event; a submit event exactly when Pending, a poll event exactly when Submitted without a recorded error, a cancel event only when Valid, none when Invalid, Failed or Cancelled |
| Lifecycle.RunMakesProgress | crates/adapters/src/repo.rs:187-759 | over every run an invoice never disappears, each step moves its status along an edge of the lifecycle or not at all, final states are absorbing, and columns written at creation, submission and validation never change again |
| Lifecycle.StepMakesProgress | crates/adapters/src/repo.rs:187-759 | the same for one step of any kind from any state that meets the invariant, although no UPDATE looks at the old status |
| Lifecycle.CommitStamps | crates/adapters/src/repo.rs:196-208 | a commit stamps the row with its own clock, submission time included; the time of an agreed cancellation is the clock at the answer |
| Lifecycle.SnapshotsStayCurrent | crates/adapters/src/worker/submitter.rs:105-178 | whatever interleaves, from fetch to commit every unhandled event of a batch is in the table with the kind, invoice and attempts it was fetched with, and a loaded row equals the row in the table |
| Lifecycle.ReferencesUnique | crates/adapters/src/repo.rs:54-103 | two rows whose stored payloads have the same code number are the same row, and that code number is the row's reference |
| ProtocolInvariant.StepKeepsInv | crates/adapters/src/worker/poller.rs:103-289 | the invariant of tables and workers' memories is kept by every step: API, fetch, load, call, answer, second read, commit, failed operation, crash, clock |
| ProtocolInvariant.RunKeepsInv | crates/bin/src/main.rs:70-79 | hence it holds in every state of every run of one submitter, one poller, one canceller and the API |
| InvariantProofs.CommitKeeps | crates/adapters/src/repo.rs:187-759 | every worker transaction that fits the event it settles keeps the table invariant and changes nothing about any other invoice |
| InvariantProofs.CreateKeeps | crates/adapters/src/repo.rs:54-103 | an accepted invoice keeps the table invariant and leaves all others as they were |
| InvariantProofs.EnqueueCancelKeeps | crates/adapters/src/repo.rs:457-545 | so does an accepted cancel request |
| InvariantProofs.AcceptedCancelHasNoEvent | crates/adapters/src/repo.rs:480-520 | a request that passes the checks meets an invoice with no outbox event at all |
| InvariantProofs.PlanFits | crates/adapters/src/worker/canceller.rs:115-143 | a worker that settles an event without calling LHDN does so with a transaction that fits the event's row; for a submission never for want of a row or a reference |
| InvariantProofs.VerdictFits | crates/adapters/src/worker/submitter.rs:150-285 | whatever LHDN answers, the transaction decided on fits the event's row: kind, attempts, backoff from the clock read, ceiling, document of one build |
| InvariantProofs.HandleKeeps | crates/adapters/src/worker/submitter.rs:128-178 | one undisturbed pass of any worker keeps the table invariant and touches one invoice |
| Evidence.NothingInvented | crates/adapters/src/worker/submitter.rs:186-238 | in every reachable state: a submission uid and uuid come from a reply that did not reject that reference; long id, link and validation time from a Valid reply; Cancelled, Invalid and Failed rest on an answer that says so (or a build error); every recorded error other than a build error or a failed cancel check quotes an answer; all of them answers to calls for that very invoice |
| Evidence.StepKeepsEvidence | crates/adapters/src/worker/poller.rs:161-289 | every step keeps that, including transactions decided but not yet committed |
| Evidence.VerdictHasEvidence | crates/adapters/src/worker/submitter.rs:186-285 | the transaction decided on an answer puts into the row what that answer contains |
| Evidence.SubmissionHasEvidence | crates/adapters/src/worker/submitter.rs:193-220 | the rejection, or else the uuid, picked from a submission reply is one that reply lists under the row's reference |
| Evidence.HeardFromCalls | crates/adapters/src/worker/poller.rs:154-157 | an answer is only ever recorded for an invoice by the step that answers a call in flight for it |
| Fates.AnswersAccounted | crates/adapters/src/worker/submitter.rs:150-238 | in every reachable state and for each thing LHDN can say that ends a phase (taken, turned down, valid, invalid, cancelled, cancellation agreed): it was said about an invoice exactly when a transaction writing it was committed, is being carried by a worker, or was dropped; committed ones show in the row; a dropped submission answer counts as an interrupted pass |
| Fates.StepKeepsFates | crates/adapters/src/repo.rs:187-759 | every step, crashes and failed operations included, keeps that account |
| Fates.MissingIffLost | crates/adapters/src/worker/poller.rs:154-250 | an answer that neither shows in the row nor is being carried was heard if and only if it was dropped |
| Fates.DroppedBy | crates/adapters/src/worker/submitter.rs:105-125 | an answer becomes dropped exactly when the process crashes or the worker's operation fails while it carries it |
| Fates.FailedThoughTakenIff | crates/adapters/src/worker/submitter.rs:193-211 | a Failed invoice was taken by LHDN if and only if a pass carrying the acceptance was lost, and then the count of interrupted passes is positive |
| Fates.NotCancelledThoughAgreedIff | crates/adapters/src/worker/canceller.rs:145-157 | an invoice without event that is not Cancelled was agreed to be cancelled if and only if a pass carrying the agreement was lost |
| Fates.VerdictWritesWhatIsSaid | crates/adapters/src/worker/poller.rs:161-250 | the transaction decided on an answer writes down exactly what the answer says of the row's reference |
| Mishaps.TakenYetFailed | crates/adapters/src/worker/submitter.rs:150-238 | for every configuration and payload that builds there is a run - answer, crash, resubmission, rejection - that ends Failed though LHDN took the document |
| Mishaps.AgreedYetValid | crates/adapters/src/worker/canceller.rs:145-193 | and one - agreement, crash, second request, conflict - that ends Valid without event though LHDN agreed to the cancellation |
| Outcomes.SubmitOutcome | crates/adapters/src/worker/submitter.rs:128-285 | after an undisturbed submit pass with no failed operation: Submitted if and only if LHDN answered without rejecting the reference, and then a poll event due at once replaces the submit event; Pending, retried after the backoff, if and only if the error was a rate limit, a 5xx, a transport or a storage failure and budget is left; otherwise Failed with the event gone |
| Outcomes.PollOutcome | crates/adapters/src/worker/poller.rs:124-289 | after an undisturbed poll pass with no failed operation over a row with a uuid: the status is exactly the one reported, Invalid also when the budget ran out while Submitted; polling goes on exactly when LHDN still validates, or one of the same four errors met, and budget is left; a Submitted row has its event or an error, never neither |
| Outcomes.CancelOutcome | crates/adapters/src/worker/canceller.rs:115-193 | after an undisturbed cancel pass with no failed operation: Cancelled exactly when LHDN agreed and the check was made before validation time plus 259200; retried exactly when one of the same four errors met and budget is left; otherwise Valid with an error |
| Outcomes.SubmitWrites | crates/adapters/src/worker/submitter.rs:128-285 | every column and event such a submit pass writes, for a build error, each kind of refusal, a rejection (the first listed for the reference) and an acceptance (the first listed uuid, or none) |
| Outcomes.PollWrites | crates/adapters/src/worker/poller.rs:161-289 | every column and event such a poll pass writes: link, long id, validation time or else the clock at the answer, deadline 259200 seconds later, errors, next attempt |
| Outcomes.CancelWrites | crates/adapters/src/worker/canceller.rs:128-193 | every column and event such a cancel pass writes, the cancellation time being the clock at the answer |
| Outcomes.OrphanWrites | crates/adapters/src/worker/poller.rs:124-136 | an event without a row: a submission or cancellation is deleted, a poll moved to time 0 at its ceiling |
| Outcomes.FailureWritesNothing | crates/adapters/src/worker/submitter.rs:105-125 | a pass reports an error exactly when an operation it needed failed - load, commit, or the second read after a rejection - and then the tables are as before |
| Outcomes.CancelChecks | crates/adapters/src/worker/canceller.rs:196-218 | the check refuses for no uuid, else for no reason, else for a deadline not after now, and otherwise lets the call through |
| Requests.CancelAcceptedIff | crates/adapters/src/repo.rs:480-520 | in every state that meets the invariant a cancel request naming a row is accepted if and only if the row is Valid, now is before validation time plus 259200 and no event of its is live; it is refused as not cancellable, past the window or already requested exactly in the remaining cases; acceptance writes reason and cancel event |
| Requests.CancelNotFoundIff | crates/adapters/src/repo.rs:463-478 | it is refused as not found exactly when no row has the reference |
| Requests.CancelEndpoint | crates/adapters/src/api.rs:130-148 | the endpoint changes the tables exactly when its body has a reason that is not blank and the above holds, and stores the trimmed reason |
| Requests.SubmitEndpoint | crates/adapters/src/api.rs:95-116 | the endpoint changes the tables exactly when its body has a reference that is not blank and no row has it trimmed; the new row holds the trimmed reference, the raw payload, the time, and nothing else |
| Requests.AcceptedInTime | crates/adapters/src/repo.rs:485-489 | in every reachable state every cancel request ever accepted had a reason and came before validation time plus 259200 |
| Accounting.StepKeepsAccounts | crates/adapters/src/worker/submitter.rs:128-285 | every step keeps the counts of calls, the remaining handling budget and the ledger of cancel requests |
| Accounting.RunKeepsAccounts | crates/adapters/src/worker/submitter.rs:246-283 | hence they hold in every state of every run |
| Accounting.WeightDrops | crates/adapters/src/worker/poller.rs:226-287 | handling an event of a row with a uuid strictly lowers the attempts its invoice can still cost, over submit, poll and cancel together |
| Guarantees.SubmitCallsBounded | crates/adapters/src/worker/submitter.rs:128-178 | calls to submit one invoice are at most the ceiling plus passes lost after a call; while Pending they are exactly attempts plus lost passes plus one in flight |
| Guarantees.NoCallAfterPending | crates/adapters/src/worker/submitter.rs:128-178 | a step that submits an invoice to LHDN finds it Pending |
| Guarantees.HandlingsBounded | crates/adapters/src/worker/poller.rs:226-287 | committed handlings of an invoice never exceed submit ceiling plus poll ceiling plus cancel ceiling per accepted cancel request, unless its uuid is empty |
| Totals.AllHandlingsBounded | crates/adapters/src/worker/poller.rs:226-287 | all committed handlings together never exceed invoices times submit and poll ceilings plus cancel ceiling times accepted cancel requests, while no uuid is empty |
| Guarantees.CancelCallsAreSafe | crates/adapters/src/worker/canceller.rs:128-143 | every cancel call in flight is for a Valid invoice with a uuid, was checked before validation time plus 259200, and carries the reason of the request that enqueued the event, though the status is never read |
| Guarantees.CancelRefusalsAreDeadlines | crates/adapters/src/worker/canceller.rs:196-218 | the canceller refuses without calling only when the stored deadline has passed; its other refusals cannot happen |
| Guarantees.MissingReferenceUnreachable | crates/domain/src/ubl.rs:52-58 | a loaded submission never fails for want of a reference, and the code number built from the raw payload is the row's reference |
| Guarantees.DeliveryNotGivenUpEarly | crates/adapters/src/worker/submitter.rs:265-285 | with ceiling 8, an invoice failed on a rate limit, a 5xx, a transport or a storage failure took 8 attempts and at least 15150 seconds since it was accepted |
| Guarantees.PollingNotGivenUpEarly | crates/adapters/src/worker/poller.rs:226-275 | with ceiling 60, polling is given up, for want of a result or for such an error, no sooner than 46010 seconds after submission |
| Guarantees.CancellingNotGivenUpEarly | crates/adapters/src/worker/canceller.rs:159-193 | with ceiling 8, a cancellation is given up for such an error only at the ceiling and no sooner than 15150 seconds after its request was accepted |
| CancelTiming.RunKeepsCancelsTimely | crates/adapters/src/worker/canceller.rs:159-193 | in every reachable state a live cancel event is due no sooner than its request plus all its backoffs so far |
| Guarantees.RetriesWaitTheirTurn | crates/adapters/src/worker/mod.rs:26-47 | in every reachable state a live event is due no sooner than creation, submission or accepted cancel request plus all its backoffs so far |
| Guarantees.ColumnsNeverDisagree | crates/adapters/src/repo.rs:66-97 | next attempt time set exactly when Pending and equal to the event's, attempts equal in both tables, submission time and uuid set exactly when ever submitted, deadline always 72 hours after validation, Failed and Invalid carry an error, Pending exactly after a failed attempt, Cancelled never |
| Backoff.SubmitWaitClosedForm | crates/adapters/src/worker/mod.rs:26-33 | total wait after k failures is 30, 150, then 750 + 3600 (k - 3) seconds, which fixes every single backoff |
| Backoff.PollWaitClosedForm | crates/adapters/src/worker/mod.rs:38-47 | total wait after k polls is 5, 20, 50, then 110 + 300 (k - 4) up to the tenth, then 1910 + 900 (k - 10) seconds, which fixes every single backoff |
| Conservation.CreatedInvoicesBalance | crates/adapters/src/repo.rs:93-98 | created invoices = live submit events + Failed + ever submitted, in every reachable state |
| Conservation.SubmittedInvoicesBalance | crates/adapters/src/repo.rs:221-420 | ever submitted = live poll events + ever Valid + Invalid + cancelled by LHDN + polling failed |
| Conservation.CancelRequestsBalance | crates/adapters/src/repo.rs:593-652 | accepted cancel requests = completed + refused + live cancel events |
| Drain.HandleAllDrains | crates/adapters/src/worker/submitter.rs:105-125 | one worker alone, no operation failing, no uuid empty: handling a batch takes exactly its events out of the due set, and lowers twice the due submissions plus due polls plus due cancels by at least their number |
| Drain.TickDrains | crates/adapters/src/worker/canceller.rs:94-112 | such a tick handles as many events as its limit allows and leaves exactly that many fewer due |
| Drain.TickHandlesNothingIff | crates/adapters/src/worker/poller.rs:80-100 | a tick handles nothing exactly when nothing is due |
| Drain.SubmitterAndCancellerDrain | crates/adapters/src/worker/canceller.rs:71-91 | a submitter or canceller ticking alone at a fixed clock with no failed operation has nothing due after more ticks than events were |
| Drain.PollerDrainsIff | crates/adapters/src/worker/poller.rs:80-100 | a poller ticking alone comes to rest if and only if no due poll event belongs to a row with an empty uuid |
| Rest.CommitsBounded | crates/bin/src/main.rs:70-79 | at a fixed clock, from idle workers, whatever interleaves, crashes or fails: commits plus what is still due (submissions twice) never exceed what was due plus two per accepted invoice and one per accepted cancel request, if no submit answer leaves a document without uuid |
| Rest.WorkersComeToRest | crates/bin/src/main.rs:70-79 | and without faults all worker steps that have an event in hand or fetch one number at most six times that plus 15 |
| Rest.StepKeepsRest | crates/adapters/src/worker/poller.rs:103-159 | every interleaved step keeps that no stuck poll is due, from an assumption on submit answers only |
| Rest.IdleCanBeBusyIff | crates/adapters/src/repo.rs:244-267 | idle workers can take such a step exactly when some event is due, so rest means nothing left to do |
| Rest.NoUuidIsStuckIff | crates/adapters/src/repo.rs:187-233 | a committed submission leaves a stuck poll due at once exactly when it was given no uuid |
| Rest.StuckNeverRests | crates/adapters/src/worker/poller.rs:138-152 | a stuck poll that is due is due in every later state of every run, so the poller never rests again |
| StuckPolls.BecomesStuckIff | crates/adapters/src/worker/submitter.rs:193-220 | a row gets an empty uuid exactly when a submission reply does not reject its code number and either does not accept it or accepts it with an empty uuid |
| StuckPolls.HandlingParks | crates/adapters/src/worker/poller.rs:138-152 | the first handling of such a row's poll event sets it to the ceiling and to time 0 and changes no row |
| StuckPolls.ParkedIsFixpoint | crates/adapters/src/worker/poller.rs:138-152 | handling it again changes nothing, whatever the world does |
| StuckPolls.StuckForEver | crates/adapters/src/repo.rs:426-443 | in every continuation of every run it stays, its row stays Submitted, and once parked it never changes |
| StuckPolls.ParkedFillTheBatch | crates/adapters/src/repo.rs:244-267 | with s such events a batch of limit b contains min(s, b) of them, and other polls only while s < b |
| Repo.InvoiceRepo.CreatePending | crates/adapters/src/repo.rs:54-103 | inserts the Pending row and its submit event due now, or refuses a taken reference and changes nothing |
| Repo.InvoiceRepo.RequestCancellation | crates/adapters/src/repo.rs:457-545 | stores the reason and enqueues a cancel event exactly when the row is Valid, before its deadline and has none; otherwise says which check failed and changes nothing |
| Repo.InvoiceRepo.DueEvents | crates/adapters/src/repo.rs:139-161 | returns due events of the kind, each once, earliest first, as many as the limit allows, no omitted one being earlier |
| Repo.SelectNext | crates/adapters/src/repo.rs:244-267 | taking the earliest remaining event next keeps the selection sorted, complete and duplicate-free |
| Repo.InvoiceRepo.SelectByRef | crates/adapters/src/repo.rs:463-478 | finds a row with the reference exactly when there is one |
| Repo.InvoiceRepo.CompleteSubmission | crates/adapters/src/repo.rs:187-233 | the whole new state: row Submitted with its document, submit event gone, poll event due now; nothing when the row is gone |
| Repo.InvoiceRepo.MarkValid | crates/adapters/src/repo.rs:290-327 | the whole new state after validation |
| Repo.InvoiceRepo.MarkInvalid | crates/adapters/src/repo.rs:330-357 | the whole new state after a failed validation |
| Repo.InvoiceRepo.MarkCancelledViaPoll | crates/adapters/src/repo.rs:361-388 | the whole new state after a cancellation seen while polling; the error column is not cleared |
| Repo.InvoiceRepo.FailPoll | crates/adapters/src/repo.rs:394-420 | error recorded, status kept, event gone |
| Repo.InvoiceRepo.ReschedulePoll | crates/adapters/src/repo.rs:426-443 | only the event changes |
| Repo.InvoiceRepo.CompleteCancel | crates/adapters/src/repo.rs:593-621 | the whole new state after an agreed cancellation |
| Repo.InvoiceRepo.FailCancel | crates/adapters/src/repo.rs:626-652 | error recorded, status kept, event gone |
| Repo.InvoiceRepo.RescheduleCancel | crates/adapters/src/repo.rs:655-672 | only the event changes |
| Repo.InvoiceRepo.FailPermanently | crates/adapters/src/repo.rs:679-710 | the whole new state after delivery is given up |
| Repo.InvoiceRepo.Reschedule | crates/adapters/src/repo.rs:720-759 | attempts, error and next time on the row, the same attempts and time on the event |
| Workers.Worker.ProcessSubmit | crates/adapters/src/worker/submitter.rs:128-238 | one pass leaves the tables as `Handle` says and reports success exactly when every operation it needed succeeded |
| Workers.Worker.ProcessPoll | crates/adapters/src/worker/poller.rs:124-159 | the same for the poller |
| Workers.Worker.ProcessCancel | crates/adapters/src/worker/canceller.rs:115-157 | the same for the canceller |
| Workers.Worker.HandleDetails | crates/adapters/src/worker/poller.rs:161-250 | each reported status leads to its one transaction |
| Workers.Worker.Tick | crates/adapters/src/worker/submitter.rs:105-125 | handles every event of one legal selection in order, an error in one not stopping the rest, and counts them all: as many as are due, up to the batch size of its kind |
| Workers.Worker.RunUntilIdle | crates/adapters/src/worker/submitter.rs:71-102 | the loop between two looks at the shutdown signal terminates with nothing due and the invariant kept |
| OAuth.SingleFlight | crates/adapters/src/lhdn/client.rs:108-143 | however many callers there are and whichever are dropped, at most one is past the lock |
| OAuth.ReturnedIsStored | crates/adapters/src/lhdn/client.rs:109-142 | over every run a returned token is the one in the row, text and expiry, and for a call served from memory the one in the cache |
| OAuth.TokensGenuine | crates/adapters/src/lhdn/client.rs:188-196 | every token in cache, row, a caller's hands or a result was answered by the endpoint, its expiry being the clock at the answer plus the granted seconds, or was in the row at the start |
| OAuth.ServedTokenIsStored | crates/adapters/src/lhdn/client.rs:145-153 | whenever the lock is free, a token the memory cache would serve is the one in the row |
| OAuth.CachesAgree | crates/adapters/src/lhdn/client.rs:131-142 | if no caller is dropped between the two writes, a populated memory cache equals the row whenever the lock is free, even when stale |
| OAuth.CachesAgreeIff | crates/adapters/src/lhdn/client.rs:131-142 | over every run, whenever the lock is free, a populated memory cache differs from the row exactly when the last write of the cache, restart or drop of a caller between the two writes was such a drop with another token in hand |
| OAuth.DroppedKeeperDiverges | crates/adapters/src/lhdn/client.rs:131-142 | a run that ends so |
| OAuth.LeewayForAllIff | crates/adapters/src/lhdn/client.rs:104-106 | however callers interleave, a returned token outlives the leeway at the last check or answer its caller saw exactly when it was a stored one or granted for more than 60 seconds |
| OAuth.FetchOnlyWhenStale | crates/adapters/src/lhdn/client.rs:119-130 | a token is asked for only when neither cache nor row holds a fresh one |
| OAuth.FetchRate | crates/adapters/src/lhdn/oauth.rs:24-27 | if replies grant e > 60 seconds and no refresh is lost, any window of length L has at most 1 + L / (e - 60) fetches |
| OAuth.StepKeepsInv | crates/adapters/src/lhdn/client.rs:108-143 | every interleaved step keeps the lock and freshness invariant behind these |
| TokenClient.LhdnClient.AccessToken | crates/adapters/src/lhdn/client.rs:108-143 | returns the cached token when valid for more than 60 seconds at either look, else the row's under the same test, else the endpoint's with its expiry; what is kept in cache and row and which error is returned in each case; other environments' rows stay |
| TokenClient.OauthTokenStore.Upsert | crates/adapters/src/lhdn/token_repo.rs:38-59 | overwrites the row of one environment only |
| TokenClient.LeewayKeptIff | crates/adapters/src/lhdn/client.rs:104-106 | the returned token outlives the leeway exactly when it came from a cache or was granted for more than 60 seconds |
| TokenClient.LeewayCanFail | crates/adapters/src/lhdn/client.rs:104-106 | a token granted for 60 seconds is returned although already counted as expiring |
| TokenClient.SoloCallMatches | crates/adapters/src/lhdn/client.rs:108-143 | a call run alone among the interleaved callers, whatever it meets and however the clock moves, leaves cache and row as the method does, returns what it returns, and leaves the lock free |
| CanonicalForm.PrintThenParse | crates/domain/src/canonicalize.rs:19-27 | for values without numbers, text printed in any member order reads back as the value, all escapes included |
| CanonicalForm.CanonicalFormIsUnique | crates/domain/src/canonicalize.rs:5-10 | two such values have the same canonical text exactly when they are equal up to member order |
| CanonicalForm.CanonicalizeIsIdempotent | crates/domain/src/canonicalize.rs:90-96 | canonicalising what was read from any member order gives the canonical text, so doing it twice is doing it once |
| CanonicalForm.CanonicalMembersAscend | crates/domain/src/canonicalize.rs:5-7 | a canonical object is its members as key, colon, canonical value, commas between, ordered so that of two keys the first is a proper prefix of the other in UTF-16 code units or has the smaller unit where they first differ |
| CanonicalForm.KeyOrderExists | crates/domain/src/canonicalize.rs:5-7 | every object has its keys in that order |
| CanonicalForm.CanonicalText | crates/domain/src/canonicalize.rs:19-21 | the canonical text of null, booleans, strings and arrays, the items in their order |
| CanonicalForm.EscapesOfCharacter | crates/domain/src/canonicalize.rs:19-21 | which escape each character gets inside a literal, as section 3.2.2.2 of RFC 8785 lists them, and that all others stand as they are |
| KeyOrder.KeyLtIsBefore | crates/domain/src/canonicalize.rs:5-6 | the key order of the model is that order on code units |
| KeyOrder.UnitsConcatenate | crates/domain/src/canonicalize.rs:5-6 | the code units of a text are those of its characters in turn |
| KeyOrder.UnitsOfCharacter | crates/domain/src/canonicalize.rs:5-6 | below 0x10000 the code itself, above it the surrogate pair |
| Compactness.CanonicalTextIsCompact | crates/domain/src/canonicalize.rs:5-10 | the canonical text of such a value has no whitespace outside string literals, no raw control character inside them, and escapes only what must be escaped, in the shortest form |
| CanonicalForm.StringRoundTrip | crates/domain/src/canonicalize.rs:19-21 | every string survives escaping and reading, control characters included |
| KeyOrder.AscendingOrderIsUnique | crates/domain/src/canonicalize.rs:5-7 | only one ordering of the same keys is ascending by UTF-16 code units |
| KeyOrder.UnitsInjective | crates/domain/src/canonicalize.rs:5-7 | strings with the same UTF-16 code units are equal, so distinct keys never tie |
| Text.TrimSplits | crates/adapters/src/api.rs:99-105 | trimming removes exactly the white prefix and suffix and leaves no white end |
| Text.WhiteSpaceListed | crates/adapters/src/api.rs:99-105 | white are exactly the 25 characters with the Unicode property White_Space |
| Ubl.EmbedSignature | crates/domain/src/ubl.rs:128-189 | the two members are set in `Invoice[0]`, malformed documents are refused as the code refuses them, and stripping the result is stripping the original |
| Ubl.StripUndoesEmbed | crates/domain/src/ubl.rs:178-188 | removing the two members undoes embedding |
| Recovery.BuildResult | crates/domain/src/ubl.rs:47-99 | a payload builds exactly when it has a reference that is not blank and the signing time formats, and how signature, text, hash and code number depend on each other |
| Contents.SubmittedTextSays | crates/domain/src/ubl.rs:47-189 | for every payload: it builds exactly when `invoice_ref` is a string that is not blank and the time formats; then the signed and the submitted text read back as documents written out in full: trimmed `invoice_ref`, `issue_date`, `issue_time` and `currency` or their defaults, signature, certificate, digest and signing time each in its place, and the constants |
| Contents.EmbeddingSays | crates/domain/src/ubl.rs:176-188 | embedding sets `UBLExtensions` and `Signature` of `Invoice[0]` and nothing else; it fails exactly without an `Invoice` array, or without an object at its head, each with its own error |
| Contents.FieldsReadBack | crates/domain/src/ubl.rs:106-124 | a reader of the submitted text finds under `ID`, `IssueDate`, `IssueTime`, `DocumentCurrencyCode` and `TaxCurrencyCode` exactly the payload's `invoice_ref` (trimmed), `issue_date`, `issue_time` and `currency` (or its default) |
| Recovery.SignedPayloadIsRecoverable | crates/domain/src/ubl.rs:60-98 | for every payload that builds, reading the submitted text, deleting the two members and canonicalising gives exactly the signed payload |
| Recovery.SignedPayloadDeterminesInvoice | crates/domain/src/ubl.rs:106-124 | two payloads have the same signed text exactly when reference, date, time and currency agree after trimming and defaulting |
| Recovery.SignedDocumentVerifiesItself | crates/domain/src/ubl.rs:74-98 | the signature value found inside the submitted text is the signature of the payload recovered from that text |
| Recovery.FieldLookup | crates/domain/src/ubl.rs:116-123 | each UBL member holds the value it is named for, and neither signature member is there before signing |
| Recovery.SignatureAtPath | crates/domain/src/ubl.rs:135-174 | the signature value sits at its place in the extension tree |
| EndToEnd.UblSettingsOk | crates/domain/src/ubl.rs:47-99 | the real builder meets what the protocol asks of it |
| EndToEnd.StoredDocumentsVerify | crates/adapters/src/repo.rs:187-208 | in every reachable state every stored document recovers the canonical invoice of its own row's payload, and stored and embedded signature are both that text's signature |
| EndToEnd.StoredDocumentsSay | crates/adapters/src/repo.rs:187-208 | in every reachable state every stored document reads back as the signed document of its own row's payload members and reference, the stored signature in its place |
| EndToEnd.SoloPassIsHandle | crates/adapters/src/worker/submitter.rs:128-178 | a worker left alone, whatever fails and however the clock moves, takes the tables, step by step, where one whole pass takes them |

## Left out

- HTTP, TLS, Axum routing, wire formats and tracing: LHDN is an arbitrary reply, the API two operations; the mapping of errors to HTTP status codes, `get_invoice`, `healthz`, `validate_taxpayer`, environment parsing, `LhdnEnv` URLs and `lhdn_variant_name` are finite tables or plumbing.
- RSA, SHA-256, base64 and PKCS#12: arbitrary functions held by `Signer`; so is the formatting of the signing time, which may fail.
- CanonicalForm.PrintThenParse: values without numbers only; so also the next three.
- CanonicalForm.CanonicalFormIsUnique: values without numbers only.
- CanonicalForm.CanonicalizeIsIdempotent: values without numbers only.
- Compactness.CanonicalTextIsCompact: values without numbers only.
- Numbers: number formatting (section 3.2.2.3 of RFC 8785) and number reading are the libraries' and no document that `ubl.rs` builds contains a number; `Num` carries its text.
- The UTF-8 encoding of canonical text, and the nesting limit of the JSON reader: text is a sequence of characters and the reader accepts any depth.
- The stored payload text is represented by the value it reads back as, so the branch for an unreadable stored payload is not modelled.
- `error_json` and `last_error` are structured notes, not JSON text.
- SQLite itself: transactions are atomic and serialisable, ids from AUTOINCREMENT fresh, the foreign key enforced. Several processes on one database are outside the model, as ownership assumes one worker of each kind.
- Integers are unbounded; overflow of 64-bit seconds in `now + expires_in` is not modelled. The clock is positive and never goes back.
- Workers.Worker.RunUntilIdle: the part of `run` up to a tick that handles nothing; the sleep, the shutdown channel and `poll_interval` are not modelled. The loops of the three workers are one class with a kind.
- Rows are never deleted by any code, so the branches for an event without a row are modelled but only shown unreachable.
- Outcomes.SubmitOutcome: one pass nobody disturbs and in which no operation fails; what is lost otherwise is the subject of Fates.
- Outcomes.PollOutcome: as above, for a row with a uuid.
- Outcomes.CancelOutcome: as above.
- Drain.HandleAllDrains: one worker alone; the interleaved form is Rest.CommitsBounded.
- Drain.TickDrains: as above.
- Drain.SubmitterAndCancellerDrain: as above.
- Drain.PollerDrainsIff: as above; the interleaved forms are Rest.CommitsBounded and Rest.StuckNeverRests.
- Fates.MissingIffLost: says nothing of refusals, which leave only a count and an error behind, nor of what LHDN did without its answer reaching the client.
- Guarantees.CancelCallsAreSafe: says that the deadline check was passed in time; it does not say that the cancellation time recorded later lies inside the window, which the code does not ensure.
- Guarantees.HandlingsBounded: does not bound handlings of a row with an empty uuid, which are unbounded (StuckPolls.StuckForEver), nor passes whose commit failed, which count nothing.
- Rest.WorkersComeToRest: supposes no crash and no failed operation; Rest.CommitsBounded allows both but bounds only commits.
- OAuth.FetchRate: supposes that no refresh is lost between the request and the storing of its token; a crash, a dropped caller or a failed store there makes the next caller fetch at once.
