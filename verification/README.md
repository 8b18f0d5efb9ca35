# Verified models of the concurrent protocols and the verification toolchain

This project models the parts of the application where an interleaving, a crash or an odd input decides
whether data survives, and proves what those parts are for. It is written in Dafny 4.11;
`dafny verify dfyconfig.toml` checks all of it. It models the code; it never calls it.

## How the models are built

Two forms are used, following the code.

* **Operations as written.** Where the code changes a row, a set of keys, a file or a loop variable, the
  model is a class with those fields and methods with those statements (`BillingCheckouts`,
  `BillingCustomers`, `LockedRow`, `StripeClient`, `Account`, `Notifications`, `CodeStore`, `TokenStore`,
  `RefreshStore`, `ReceiptStore`, `LocalObjectStorage`, `Project`, and the loops of the scheduler, the CSS
  reader and the import analyses). Each method's contract gives its whole new state.
* **Interleavings.** Where callers run concurrently, the model is a state machine. A state holds the shared
  data and the position of every caller; an event is one await of one caller, one action of the provider or
  the user, a crash, or a tick of the clock. `Step` makes one event happen and `Run` a list of them, so a
  statement about `Run(Initial(), es)` for all `es` is a statement about every reachable state.

| module | what it models |
|---|---|
| `Checkout` | the one-hour Checkout reservation and `create_checkout` |
| `PlanChange`, `PlanRequest`, `PlanAcceptance`, `ForgottenKeys` | version-checked plan changes, their crash points and retries |
| `CustomerSetup` | reserving, creating and binding the provider customer |
| `SubscriptionSync` | syncs and plan changes that store the snapshot under the customer's row lock |
| `ProfilePhoto`, `PhotoService` | the photo object store and row, compare-and-swap and compensation |
| `Outbox`, `OutboxRuns` | the leased lifecycle-mail queue |
| `CounterLedger`, `EmailCodes`, `EmailCodeGuarantees`, `EmailCodeRuns` | emailed codes under WATCH/MULTI/EXEC, and the counters that limit them |
| `VerificationToken`, `RefreshSessions` | verification tokens and refresh sessions in Redis |
| `Scheduler`, `Receipts`, `ReceiptReuse`, `ParallelReuse` | the command scheduler, its receipt cache, and the two together |
| `CssRules`, `CssPrinting` | the brace parser, and that it undoes printing |
| `ImportAnalysis` | the import worklist, the persistence search and the schema fixed point |
| `ObjectKeys`, `LocalStorage` | key and type limits and the local record format |
| `ApplyPlan` | multi-file apply with backup and rollback |

## What is assumed

* **Payment provider.** The same idempotency key with the same parameters replays the recorded answer; with
  other parameters it is rejected. Keys may be forgotten after 24 hours. A session cannot complete at or after
  its `expires_at`. A creation with less than 30 minutes left is refused. A completed session's subscription is
  in the next listing. A call made within the 20-second limit of the provider context arrives within it.
  Whether a prorated charge succeeds, when a pending update lapses, when the running phase began and whether
  cancellation may be edited while a schedule is attached are left open (`Terms`).
  A phase that is running began before the period's end.
* **Database.** Conditional updates and transactions are atomic, row locks exclude, and the outcome of a failed
  commit is settled before its error is returned. `Notifications.claim` is one transaction together with the row
  it returns.
* **Redis.** Single commands are atomic; EXEC aborts when a watched key was written or expired after its WATCH;
  lifetimes are whole seconds.
* **One clock**, which only moves forward.
* **Injective or fresh values.** Digests, HMACs, file-name hashes and the plan version hash stand for what is
  hashed. UUIDs, nonces, leases and tokens are the next unused number.

## Where the code does less than one might hope

* `services/billing_notifications.py:71-72` says that older payloads cannot roll the stored plan back. Every
  sync keeps that, and every plan change whose upgrade call uses a new key (`SubscriptionSync.NeverGoesBack`).
  But an upgrade stores the answer of its own keyed call, and the provider answers a key it has on record with
  what it answered then. `AnswerIsOldIffOnRecord` and `StoresOtherIffOnRecord` say exactly when an accepted
  upgrade stores something else than the provider shows; `RetryGoesBack` is a run in which a newer snapshot is
  overwritten, for every plan that can be upgraded.
* `store_refresh_token` resets the index's lifetime to the current setting. If the setting was shortened, an
  older session outlives the index and escapes `delete_refresh_token`. `ShorterSettingLosesSessions` gives the
  run; `StoreKeepsExactlyWhen` is the condition a caller can test.
* A committed email-code transaction is serial except for one thing: a counter's remaining life is read some
  seconds before it is written back. `CommittedIssueIsSerial` and `CommittedGuessIsSerial` give the exact drift
  and when there is none; `IssueDrifts` and `GuessDrifts` are runs that have it.
* A limit of n is a limit per life of a counter. In an arbitrary window up to 2n - 1 events fit, and no more
  (`TwiceLimitLessOneFits`, `TwiceLimitPerWindow`); at most n fit in a window that is counted from the opening
  of a life (`LimitFromOpening`).
* Reusing a receipt agrees with running the command if and only if the command is one that a receipt can speak
  for: whenever it passes and leaves output that looks to a receipt like some output d, it passes on d and leaves d
  alone (`ReuseAgreesExactlyWhen`). For commands that produce nothing this means that a pass on one output is a pass
  on every output and changes none (`NonProducers`); for producing commands, that they pass again on what they left and
  leave it (`Producers`). `ViolationShows` turns every violation into a run that differs.
* A half-made schedule can be resumed only while the provider remembers the creation key. Afterwards a request
  is accepted only on what it can manage (`OnlyDirect`), so the retry is refused and the schedule stays, which is
  safe (`ForgottenRetry`) but needs an operator.

## Model

| member | source | states |
|---|---|---|
| `Checkout.NeverTwoLive` | src/backend/app/services/billing.py:467-508 | After any interleaving of callers, completions, closures, cancellations, lost callers, forgotten keys and clock ticks, two live subscriptions of the customer are the same one. |
| `Checkout.NewSessionOnlyWithoutLive` | src/backend/app/services/billing.py:479-503 | In every run a new session is made only at a moment when the customer has nothing live, however long ago its caller listed. |
| `Checkout.TurnedAway` | src/backend/app/services/billing.py:480-481 | Whoever lists while something is live is never given a session, whatever happens afterwards. |
| `Checkout.OpenSessionIsCurrent` | src/backend/app/services/billing.py:480-503 | A session the provider would still let complete carries the key, price and truncated deadline of the reservation now in the row. |
| `Checkout.AnswerIsForThePriceAsked` | src/backend/app/services/billing.py:485-490 | A caller that is answered with a URL is answered with a session for the price it asked for. |
| `Checkout.OneSessionPerKey` | src/backend/app/services/billing.py:500-502 | One creation key never makes two sessions, even after the provider has forgotten it. |
| `Checkout.ReplacedOnlyWhenDead` | src/backend/app/models/billing.py:203-222 | When a reservation is replaced, no session that exists then can complete at any later time. |
| `Checkout.ReplacementKills` | src/backend/app/models/billing.py:213-222 | The step that changes the row leaves no completable session, the deadline having been truncated to seconds. |
| `Checkout.StaysDead` | src/backend/app/services/billing.py:483-499 | A session that cannot complete stays so for every continuation. |
| `Checkout.CompletableIsCurrent` | src/backend/app/models/billing.py:203-236 | Under the invariant only the last reservation can own a completable session. |
| `Checkout.RunKeeps` | src/backend/app/services/billing.py:467-508 | Every event list keeps the inductive invariant over history, sessions, subscriptions and what each caller knows. |
| `Checkout.ForgottenIsPast` | src/backend/app/services/billing.py:483-488 | If the key was forgotten, no earlier session used it as long as its deadline still satisfies the provider's margin. |
| `Checkout.CheckedCreateIsAccepted` | src/backend/app/services/billing.py:483-490 | A caller that passes the 31-minute test and calls within a minute is not refused by the provider's 30-minute rule. |
| `Checkout.AloneReserves` | src/backend/app/models/billing.py:205-236 | With no reservation in force, the four statements end in a new one-hour reservation held by the caller. |
| `Checkout.UndisturbedReserve` | src/backend/app/models/billing.py:205-236 | The interleaved reservation steps with nobody in between leave the row, and give the caller the reservation, that `BillingCheckouts.Reserve` promises: the one in force or a new one. |
| `Checkout.HolderSucceeds` | src/backend/app/services/billing.py:479-503 | The holder of a new reservation, with nothing live, gets an open session for its price that ends with the reservation. |
| `Checkout.HolderIsAnswered` | src/backend/app/services/billing.py:479-503 | At any moment of the hour a holder with nothing live gets a conflict for another price or with less than 31 minutes left, else the reservation's session if there is one, else a new one that ends with the reservation. |
| `Checkout.BillingCheckouts.ReplaceExpired` | src/backend/app/models/billing.py:213-222 | Only an expired row is replaced, and then by the whole renewal. |
| `Checkout.BillingCheckouts.Insert` | src/backend/app/models/billing.py:226-236 | A row is inserted only where there was none. |
| `Checkout.BillingCheckouts.Reserve` | src/backend/app/models/billing.py:205-236 | An unexpired reservation is returned unchanged; otherwise the caller's own, one hour long, is stored and returned. |
| `PlanChange.CrashThenRetry` | src/backend/app/services/billing.py:657-809 | A request that dies after any number of provider calls and is sent again ends in the provider state of a run without the crash, or is refused and changes nothing. |
| `PlanChange.AnyCrashesThenRetry` | src/backend/app/services/billing.py:657-809 | The same for any number of dying deliveries before one that completes. |
| `PlanChange.OnlyItsOwnScheduleIsResumed` | src/backend/app/services/billing.py:675-707 | A schedule that could not be managed is resumed only if this request's own creation key made it, it is untouched, and the version without it is the expected one. |
| `PlanChange.RefusalsStay` | src/backend/app/services/billing.py:708-716 | Waiting never turns a refusal into an acceptance. |
| `PlanChange.SameCallsFinish` | src/backend/app/services/billing.py:723-805 | Replaying a call list after a crash anywhere in it ends where the uninterrupted list ends. |
| `PlanChange.RetryFinishes` | src/backend/app/services/billing.py:674-805 | Whatever a retry decides to do from a crashed state finishes the original list. |
| `PlanChange.FreeOrKeepRetry` | src/backend/app/services/billing.py:723-735 | Retry of release-then-cancel: whichever of the calls had happened. |
| `PlanChange.UpgradeRetry` | src/backend/app/services/billing.py:741-763 | Retry of release-then-upgrade: whichever of the calls had happened. |
| `PlanChange.PeriodRetry` | src/backend/app/services/billing.py:764-805 | Retry of resume, create, update: a half-made schedule is picked up and given the same phases. |
| `PlanChange.FreeOrKeepAchieves` | src/backend/app/services/billing.py:723-735 | Uninterrupted, free and keep end without a schedule, with cancellation as asked and reported as pending only for free. |
| `PlanChange.UpgradeAchieves` | src/backend/app/services/billing.py:741-763 | Uninterrupted, an upgrade from a Plus to a Pro plan that is paid has the new price and period at once and nothing pending; unpaid, it keeps the price, waits for its payment and may not be changed. Either way the schedule is gone. |
| `PlanChange.PeriodAchieves` | src/backend/app/services/billing.py:764-805 | Uninterrupted, any other change keeps the running phase, from its own start and at the old price, to the period's end, then sells the new price for a month or a year as the plan says, and is reported as pending and manageable; where the provider does not let cancellation be edited under a schedule it is refused exactly when there are both, with nothing changed. |
| `PlanChange.LapsedUpgradeIsReplayed` | src/backend/app/services/billing.py:741-763 | An unpaid upgrade whose pending update has lapsed is accepted again under its old key and version, and the provider only replays its recorded answer. |
| `PlanChange.EnoughBudget` | src/backend/app/services/billing.py:723-805 | No request makes more than three calls. |
| `PlanAcceptance.ManageableExactlyWhen` | src/backend/app/services/billing.py:569-620 | What may be managed, in terms of the subscription, its schedule and the known prices alone. |
| `PlanAcceptance.PendingIs` | src/backend/app/services/billing.py:601-620 | What is shown as coming: the plan of our schedule's first phase after the period, else the end if cancelled, else nothing. |
| `PlanAcceptance.AcceptedExactlyWhen` | src/backend/app/services/billing.py:657-740 | A request with nothing on record is accepted iff there is one subscription, the customer's, that may be changed and reads as expected, in time and with the plan on sale. |
| `PlanAcceptance.RefusedAs` | src/backend/app/services/billing.py:669-740 | Which error a refused request gets, in the order of the checks. |
| `PlanAcceptance.HalfMadeIsResumed` | src/backend/app/services/billing.py:675-707 | A change that died right after creating its schedule, sent again in time, is accepted and completes, although the schedule may not be managed. |
| `PlanAcceptance.StoppedAfterRelease` | src/backend/app/services/billing.py:724-750 | A request that dies right after detaching the schedule keeps the price; an upgrade also keeps a cancellation. |
| `PlanAcceptance.DoneExactlyWhen` | src/backend/app/services/billing.py:723-805 | A request is done only when all its calls were made, and crashed only when they were not. |
| `ForgottenKeys.OnlyDirect` | src/backend/app/services/billing.py:675-716 | A request with nothing on record is accepted only on a subscription it can manage as it is, so a half-made schedule is not resumed. |
| `ForgottenKeys.ForgottenRetry` | src/backend/app/services/billing.py:657-809 | A request that died anywhere and is sent again after the provider forgot all its keys is refused and changes nothing, or leaves the provider as a run without the crash would have, apart from the record. |
| `PlanChange.ExecKeepsWellFormed` | src/backend/app/services/billing.py:723-805 | Calls keep the schedule table, the attached schedule and the journal consistent. |
| `PlanRequest.StripeClient.Send` | src/backend/app/services/billing.py:728-730 | A keyed call is replayed, rejected for other parameters, refused or carried out and journalled. |
| `PlanRequest.ReleaseThenEdit` | src/backend/app/services/billing.py:723-763 | The statements of release-then-edit do what the specified call list does, for every crash point. |
| `PlanRequest.ChangeAtPeriodEnd` | src/backend/app/services/billing.py:764-805 | The statements of a period-end change do what the specified call list does, for every crash point. |
| `PlanRequest.TryResume` | src/backend/app/services/billing.py:675-707 | The recovery guard decides as specified and leaves the provider as it was. |
| `PlanRequest.ChangeSubscription` | src/backend/app/services/billing.py:657-809 | The request as written equals the specified attempt in outcome and provider state, for every crash point. |
| `CustomerSetup.OneCustomerForAll` | src/backend/app/services/billing.py:217-231 | In every interleaving at most one provider customer is made, and all callers who are told a customer are told that one. |
| `CustomerSetup.BoundOnce` | src/backend/app/models/billing.py:107-150 | The creation key and time of the row never change; a bound customer stays while the user exists. |
| `CustomerSetup.CreatedInsideReplayWindow` | src/backend/app/services/billing.py:222-229 | Every creation that the provider answers arrives less than 24 hours after the row was drawn up. |
| `CustomerSetup.GuardIsNeeded` | src/backend/app/services/billing.py:223-226 | Where the 23-hour guard answers reconciliation, a creation would have made a second customer. |
| `CustomerSetup.AloneSucceeds` | src/backend/app/services/billing.py:217-231 | A caller alone makes the customer, binds it and is told it. |
| `CustomerSetup.AloneResumes` | src/backend/app/services/billing.py:217-231 | A caller alone that finds an unbound row inside the guard, wherever its owner died, binds the customer that was made, or makes it. |
| `CustomerSetup.ReturningCustomer` | src/backend/app/services/billing.py:219-221 | A caller that finds a bound row, whatever its age, is told that customer, and nothing is made or changed. |
| `CustomerSetup.ReconciliationExactlyWhen` | src/backend/app/services/billing.py:222-226 | Of all steps, only the check of an unbound row 23 hours old answers reconciliation, and it always does. |
| `CustomerSetup.BillingCustomers.Reserve` | src/backend/app/models/billing.py:107-128 | An existing row is returned; a new one only for an existing user. |
| `CustomerSetup.BillingCustomers.Bind` | src/backend/app/models/billing.py:130-150 | The first bound customer stays and is what every caller gets. |
| `SubscriptionSync.NeverGoesBack` | src/backend/app/services/billing.py:427-452 | However syncs, plan changes and provider changes interleave, a stored snapshot is replaced only by one all of whose reads came later in provider history, as long as no upgrade call reuses a key on record. |
| `SubscriptionSync.RunKeeps` | src/backend/app/models/billing.py:59-84 | Every run keeps the invariant: only the lock holder is under way, stored snapshots are genuine readings, recorded answers show the subscription upgraded. |
| `SubscriptionSync.AnswerIsOldIffOnRecord` | src/backend/app/services/billing.py:740-763 | In every run an accepted upgrade is answered with a version older than the current one if and only if its key is on record. |
| `SubscriptionSync.StoresOtherIffOnRecord` | src/backend/app/services/billing.py:740-763 | With the provider unchanged since the request's listing, what an accepted upgrade stores differs from what the provider shows if and only if its key is on record. |
| `SubscriptionSync.RetryGoesBack` | src/backend/app/services/billing.py:750-763 | The run: a charge fails, the pending update lapses, the lapse is synced, the request is sent again; the snapshot then shows a change waiting for payment that the provider has dropped. |
| `SubscriptionSync.FromTheStart` | src/backend/app/services/billing_notifications.py:70-73 | The same between any two points of a run from an empty row. |
| `SubscriptionSync.SettlesOnProviderState` | src/backend/app/services/billing.py:427-452 | From any state: once the provider is quiet, whoever acquires the lock, and everybody after, stores exactly what the provider shows. |
| `SubscriptionSync.SyncStores` | src/backend/app/services/billing.py:436-452 | A sync alone: an incomplete page leaves the row, an empty one stores nothing, several subscriptions store uncertainty, one is stored as it is, unless its schedule cannot be read. |
| `SubscriptionSync.OtherChangeStores` | src/backend/app/services/billing.py:806-809 | A plan change other than an upgrade stores its subscription as the provider shows it after its calls. |
| `SubscriptionSync.DecidesExactlyWhen` | src/backend/app/services/billing.py:674-719 | A plan change goes on iff the subscription it listed may be changed, is the customer's, reads as expected and is in time. |
| `SubscriptionSync.UpgradeTakes` | src/backend/app/services/billing.py:751-760 | An upgrade call with a new key changes exactly its subscription, paid or unpaid. |
| `SubscriptionSync.LockedRow.Sync` | src/backend/app/services/billing.py:432-452 | Result and both columns in every case: no customer, snapshot kept, incomplete page, none, several, or one subscription with its identity, plan, status, currency, period, cancellation, schedule and payment due. |
| `ProfilePhoto.CommittedPhotoExists` | src/backend/app/services/profile_photo.py:82-146 | In every interleaving, with any storage call failing and any commit ambiguous, the committed reference names a stored object. |
| `ProfilePhoto.UrlDeterminesReference` | src/backend/app/models/profile_photo.py:49-58 | Whenever the conditional update matches by URL, the whole row is the one its caller has read. |
| `ProfilePhoto.NothingLeftBehind` | src/backend/app/services/profile_photo.py:65-146 | Without failures and with everybody finished, the store holds exactly the current reference. |
| `ProfilePhoto.RunKeeps` | src/backend/app/services/profile_photo.py:65-146 | Every event list keeps the inductive invariant, account deletion included. |
| `ProfilePhoto.SwapKeeps` | src/backend/app/models/profile_photo.py:43-62 | A swap that goes through makes the previous reference unreachable for good. |
| `ProfilePhoto.CompensateKeeps` | src/backend/app/services/profile_photo.py:82-97 | Compensation after an ambiguous commit never removes a reference that is or will be committed. |
| `ProfilePhoto.CleanKeeps` | src/backend/app/services/profile_photo.py:65-80 | Cleanup removes only references that are not and never will be committed. |
| `ProfilePhoto.UndisturbedUpload` | src/backend/app/services/profile_photo.py:99-132 | An upload alone replaces row and object and removes the old object. |
| `ProfilePhoto.UndisturbedDelete` | src/backend/app/services/profile_photo.py:134-146 | A deletion alone clears the row and removes the object. |
| `PhotoService.Collect` | src/backend/app/services/profile_photo.py:101-105 | A body is refused if and only if all its chunks together exceed the limit; otherwise it is their concatenation. |
| `PhotoService.JoinedInOrder` | src/backend/app/services/profile_photo.py:101-105 | Every byte of a chunk comes after all bytes of the chunks before it, in its place. |
| `PhotoService.Account.Swap` | src/backend/app/models/profile_photo.py:42-62 | The conditional update, its answer and its effect under each fate of the commit. |
| `PhotoService.Account.Cleanup` | src/backend/app/services/profile_photo.py:65-80 | The object goes only if it belongs to the storage in use and the call has effect. |
| `PhotoService.Account.Compensate` | src/backend/app/services/profile_photo.py:82-97 | The own object goes unless the row cannot be read or refers to it. |
| `PhotoService.Account.Settle` | src/backend/app/services/profile_photo.py:118-132 | The rest of an upload from its swap on, against the state machine. |
| `PhotoService.Account.Upload` | src/backend/app/services/profile_photo.py:99-132 | The upload as written, for every fate of its calls, ends where the state machine's uninterrupted caller ends. |
| `PhotoService.Account.Delete` | src/backend/app/services/profile_photo.py:134-146 | The deletion as written ends where the state machine's uninterrupted caller ends. |
| `Outbox.Notifications.Add` | src/backend/app/models/notification.py:37-47 | A known key keeps its row; a new one is added; all else stays. |
| `Outbox.Notifications.Sweep` | src/backend/app/models/notification.py:53-71 | The two clean-up statements in order; no expired row keeps a payload. |
| `Outbox.Notifications.Claim` | src/backend/app/models/notification.py:50-102 | Nothing is claimed iff nobody should be; otherwise the job that has waited longest, with payload, time and attempts left and in nobody's hands, is leased under a new token for five minutes. |
| `Outbox.Notifications.Earliest` | src/backend/app/models/notification.py:81-86 | The chosen row is eligible and none eligible has an earlier availability. |
| `Outbox.Notifications.Retry` | src/backend/app/models/notification.py:126-148 | An operator revives exactly failed rows with payload and time left, without touching the expiry. |
| `Outbox.Notifications.Finish` | src/backend/app/models/notification.py:151-167 | Only the lease the worker was given finishes the job; the payload goes when it was sent or skipped, and it is due again after 2, 4, 8, 16 or 30 minutes. |
| `Outbox.Notifications.Queue` | src/backend/app/services/notifications.py:56-66 | One job per key, none when mail is off or an earlier key is known. |
| `Outbox.Notifications.Settle` | src/backend/app/services/notifications.py:74-94 | Under its lease: mail that went out closes the job as sent without its payload, mail that did not keeps the payload and is due again, or failed after five attempts; switched-off mail is skipped, account deletion needing e-mail only. |
| `Outbox.Notifications.Deliver` | src/backend/app/services/notifications.py:69-94 | Up to ten rounds, each of which claims the longest waiting job and leaves it sent, kept for later, failed or skipped as its mail went; fewer only when nothing is eligible. |
| `Outbox.RoundEnds` | src/backend/app/services/notifications.py:74-94 | What a round leaves, round by round. |
| `Outbox.WaitingIsEligible` | src/backend/app/models/notification.py:54-80 | The rows the claim may take after its clean-up are the jobs somebody should deliver now. |
| `Outbox.DelayIsBackoff` | src/backend/app/models/notification.py:157 | The retry delays in seconds, attempt by attempt. |
| `Outbox.SweepKeeps` | src/backend/app/models/notification.py:53-71 | The clean-up keeps the row invariant, changes no closed row, kind or expiry, and erases expired payloads. |
| `Outbox.LeaseKeeps` | src/backend/app/models/notification.py:91-100 | Leasing keeps the row invariant and changes no closed row, kind or expiry. |
| `OutboxRuns.RowsStayConsistent` | src/backend/app/models/notification.py:38-167 | In every reachable state a lease is set iff sending, a payload is absent iff sent, skipped or expired, attempts are at most five; expiry never moves, closed rows never change, no row is lost. |
| `OutboxRuns.SendsAreBounded` | src/backend/app/services/notifications.py:69-94 | Hand-overs of one job never exceed 5 x (1 + successful operator retries). |
| `OutboxRuns.ClaimErasesExpired` | src/backend/app/models/notification.py:54-58 | After any claim no row past its expiry has a payload. |
| `OutboxRuns.StaleFinishDoesNothing` | src/backend/app/models/notification.py:161-167 | A worker that has lost its lease can never change the table with it again, whatever happens before it tries. |
| `OutboxRuns.StaleForever` | src/backend/app/models/notification.py:90-100 | A lease token a row has lost never comes back. |
| `OutboxRuns.OneLeaseHolder` | src/backend/app/models/notification.py:161-165 | Of two workers on one job at most one still has its lease. |
| `OutboxRuns.LeaseExcludes` | src/backend/app/models/notification.py:72-100 | For five minutes nobody else can claim a leased job. |
| `OutboxRuns.SuccessfulDeliveryCloses` | src/backend/app/services/notifications.py:93-94 | A delivery that works, finished under its own lease, closes the job and erases its payload. |
| `OutboxRuns.OtherOutcomes` | src/backend/app/services/notifications.py:74-92 | In every run a delivery that failed, finished under its own lease, keeps the payload and is due again, or failed after the fifth attempt; a skipped job is closed. |
| `OutboxRuns.RoundIsSteps` | src/backend/app/services/notifications.py:69-94 | One round of a delivery run is these steps: claim, then skip, or send and finish. |
| `EmailCodeGuarantees.SpentAtMostOnce` | src/backend/app/utils/account_verification.py:73-113 | In every interleaving of single commands each issued code is consumed at most once. |
| `EmailCodeGuarantees.WrongGuessesAreBounded` | src/backend/app/utils/account_verification.py:90-108 | Wrong guesses: at most the limit per life of the failure key, at most 2 x limit - 1 in any window, at most the limit in a window counted from the opening of a life. |
| `EmailCodeGuarantees.IssuesAreBounded` | src/backend/app/utils/account_verification.py:47-66 | Codes are a cooldown apart, at most the limit per life of the budget, at most 2 x limit - 1 in any request window, at most the limit in one counted from the opening of a life. |
| `EmailCodeGuarantees.CommittedIssueIsSerial` | src/backend/app/utils/account_verification.py:44-69 | A committed issue equals the undisturbed one except that the budget expires later by the seconds between reading and writing its lifetime; equal iff there was no budget or no such delay. |
| `EmailCodeGuarantees.CommittedGuessIsSerial` | src/backend/app/utils/account_verification.py:85-112 | The same for a committed guess and the failure key; a right guess is equal outright. |
| `EmailCodes.CodeStore.Issue` | src/backend/app/utils/account_verification.py:28-70 | When a code is sent, what is stored, and that a refusal always names a positive wait. |
| `EmailCodes.CodeStore.Consume` | src/backend/app/utils/account_verification.py:73-113 | A guess is valid iff it is below the limit and equal to the code in force; which keys are left in each case. |
| `EmailCodeRuns.IssueThenConsume` | src/backend/app/utils/account_verification.py:28-113 | Below the limit, a guess after a sent code is accepted iff it is that code and the code has not expired; accepted it uses the code up unless kept, otherwise it is counted. |
| `CounterLedger.ChargeKeeps` | src/backend/app/utils/account_verification.py:53-65 | Charging a counter with the lifetime read before keeps its books, whether the key was there or not. |
| `CounterLedger.ExpiryKeeps` | src/backend/app/utils/account_verification.py:97-108 | Expiry ends a lifetime no earlier than a window after it began. |
| `CounterLedger.LimitPerLife` | src/backend/app/utils/account_verification.py:106-108 | Limit + 1 charges in a row span two lifetimes. |
| `CounterLedger.LifeBetween` | src/backend/app/utils/account_verification.py:106-108 | Charges with a whole lifetime between them are a window apart. |
| `CounterLedger.LimitFromOpening` | src/backend/app/utils/account_verification.py:106-108 | Limit + 1 charges in a row, counted from the opening of a lifetime, span a window. |
| `CounterLedger.TwiceLimitPerWindow` | src/backend/app/utils/account_verification.py:106-108 | Any 2 x limit charges in a row span a window. |
| `EmailCodeRuns.TwiceLimitLessOneFits` | src/backend/app/utils/account_verification.py:90-108 | The bound is attained: for every limit and every window of two seconds or more a run has 2 x limit - 1 wrong guesses inside one window. |
| `EmailCodeRuns.IssuedCodeIsTheOneAccepted` | src/backend/app/utils/account_verification.py:47-110 | In every run: after a committed issue a consumer alone, in time and below the limit, is accepted iff its guess is the issued code; accepted it spends the nonce unless kept and touches no counter, otherwise it is counted. |
| `EmailCodeRuns.ConsumerAlone` | src/backend/app/utils/account_verification.py:85-110 | A consumer alone below the limit is accepted iff its guess is the code in force. |
| `EmailCodeRuns.GuessDrifts` | src/backend/app/utils/account_verification.py:97-109 | A run whose committed guess leaves other keys than the undisturbed one. |
| `EmailCodeRuns.IssueDrifts` | src/backend/app/utils/account_verification.py:53-66 | A run whose committed issue leaves other keys than the undisturbed one. |
| `VerificationToken.ConsumedAtMostOnce` | src/backend/app/utils/token.py:159-183 | In every interleaving of single commands a token is consumed at most once, for the user it was issued to. |
| `VerificationToken.ConsumedWhileLatest` | src/backend/app/utils/token.py:174-180 | A commit happens only while the user's pointer names the token, and removes both keys. |
| `VerificationToken.ReplacedTokenFails` | src/backend/app/utils/token.py:109-119 | A re-issue that moves the pointer aborts a consumer that has read the old one. |
| `VerificationToken.AloneSucceeds` | src/backend/app/utils/token.py:159-180 | A consumer alone with the latest token succeeds. |
| `VerificationToken.StoreAlone` | src/backend/app/utils/token.py:109-119 | A storer alone replaces the user's previous token and points to the new one. |
| `VerificationToken.TokenStore.Store` | src/backend/app/utils/token.py:109-119 | Uninterrupted, the user's previous token goes and the new one is in place. |
| `VerificationToken.TokenStore.Consume` | src/backend/app/utils/token.py:159-183 | Uninterrupted, exactly the latest token of its user is accepted, once. |
| `RefreshSessions.SessionsStayIndexed` | src/backend/app/utils/token.py:45-67 | Under one lifetime setting, after any operations, each live session is in its owner's index, which lives at least as long. |
| `RefreshSessions.DeletedUntilNextLogin` | src/backend/app/utils/token.py:207-217 | After deletion no session of the user verifies until that user stores a new one. |
| `RefreshSessions.StoreKeepsExactlyWhen` | src/backend/app/utils/token.py:45-67 | Storing keeps the invariant if and only if no other session of the user outlives the new one. |
| `RefreshSessions.ShorterSettingLosesSessions` | src/backend/app/utils/token.py:52-67 | With a shortened setting a session outlives its index and survives deletion. |
| `RefreshSessions.DeleteKeeps` | src/backend/app/utils/token.py:207-217 | Deletion keeps the invariant, leaves no session of the user, and takes nobody else's unless it is under an id of this user's. |
| `RefreshSessions.StoredSessionVerifies` | src/backend/app/utils/token.py:45-67 | A stored session verifies for its lifetime and no longer, for its user and its token alone; other sessions as before. |
| `RefreshSessions.PageHasToken` | src/backend/app/utils/token.py:74-82 | A page of a live session has a CSRF token, the old one or the one drawn, for as long as the session lives. |
| `RefreshSessions.RefreshStore.StoreToken` | src/backend/app/utils/token.py:45-67 | The session, its CSRF lifetime and the index after storing; the new session verifies. |
| `RefreshSessions.RefreshStore.VerifyToken` | src/backend/app/utils/token.py:135-149 | Verified iff the stored session has this user and token. |
| `RefreshSessions.RefreshStore.DeleteToken` | src/backend/app/utils/token.py:207-217 | Every indexed session and CSRF key goes, then the index. |
| `Scheduler.Dependencies` | scripts/verification_runner.py:12-34 | Each command waits exactly for the one right before it in its lane, and packaging for all before it. |
| `Scheduler.Execute` | scripts/verification_runner.py:37-102 | For every list, number of jobs and completion order: the trace is a legal run with nothing left running, it passes iff nothing fails, then with everything done; else the first failure is reported; unresolved dependencies never are. |
| `Scheduler.StartReady` | scripts/verification_runner.py:83-90 | One pass leaves nothing running only when nothing is pending or something has failed. |
| `Scheduler.Drain` | scripts/verification_runner.py:91-98 | Exactly the finished commands leave the running set. |
| `Scheduler.SomethingIsReady` | scripts/verification_runner.py:82-90 | With nothing running, nothing failed and something pending, some pending command has all it needs. |
| `Scheduler.AtMostJobs` | scripts/verification_runner.py:84-85 | Never more than the allowed number run, and no command is in two places. |
| `Scheduler.LanesKeepOrder` | scripts/verification_runner.py:28-33 | Whatever has begun has all earlier commands of its lane passed. |
| `Scheduler.StartsInOrder` | scripts/verification_runner.py:12-34 | At every start: earlier commands of the lane have passed, none of them is running, and for packaging all earlier commands have passed. |
| `Scheduler.RunningTogether` | scripts/verification_runner.py:12-34 | Two commands run side by side only when exactly one is a backend check, and the later one does not package. |
| `Scheduler.NothingStartsAfterFailure` | scripts/verification_runner.py:84-98 | After a failure only running commands are collected. |
| `Scheduler.Verdict` | scripts/verification_runner.py:99-102 | At the end no failure is on record iff no command fails, and then all are done. |
| `Receipts.ReceiptMeansPassed` | scripts/verification_cache.py:105-149 | In every interleaving, killed executors included, a receipt on disk means the last actual run of its command exited 0 under that source, command and context, with the source unchanged at the end. |
| `Receipts.FailureLeavesNoReceipt` | scripts/verification_runner.py:60-76 | A run that failed, or was killed, leaves no receipt, whatever was there. |
| `Receipts.KeyedBy` | scripts/verification_cache.py:82-111 | A command sent to the frontend is keyed by the frontend's source, as the command that runs there; any other by the main repository's. |
| `Receipts.ArtifactsAre` | scripts/verification_cache.py:88-102 | What is remembered of the output, by the targets of the command. |
| `Receipts.ReceiptStore.Check` | scripts/verification_cache.py:129-137 | Reusable iff enabled, same key, younger than a day and not from the future, with vouched and unchanged output. |
| `Receipts.ReceiptStore.Invalidate` | scripts/verification_cache.py:139-140 | Exactly this command's receipt goes. |
| `Receipts.ReceiptStore.Save` | scripts/verification_cache.py:142-149 | Written only if enabled and the source is still the one at the start. |
| `ParallelReuse.CachedEqualsUncached` | scripts/verification_runner.py:37-102 | For every list without a producing command in the backend lane, any numbers of jobs and any two orders the scheduler allows, an execution with receipts and a forced one give the same verdict, and leave the same output when they pass. |
| `ParallelReuse.OrderDoesNotMatter` | scripts/verification_runner.py:79-102 | An execution passes iff each frontend command passes on the output of those before it and each backend command passes; the output is then that of the frontend commands in list order. |
| `ParallelReuse.SoundOrBad` | scripts/verification_runner.py:51-98 | At every moment: nothing has failed and the output, receipts and verdicts so far are those of the list order, or no order could have passed. |
| `ParallelReuse.BackendIsSteady` | scripts/verification_runner.py:13-18 | The verdict of a backend command is the same on every output, and a pass leaves the output alone. |
| `ParallelReuse.SomeExecution` | scripts/verification_runner.py:79-102 | Every list has an execution, for every number of jobs. |
| `ParallelReuse.StartAndFinish` | scripts/verification_runner.py:51-77 | A start and its finish with nobody in between are one command run with receipts, or one forced run. |
| `ReceiptReuse.ReuseAgreesExactlyWhen` | scripts/verification_cache.py:105-149 | Reusing a command's receipts agrees with running it, in verdict and output, iff a pass whose output looks to a receipt like another output means a pass on that other output that leaves it alone. |
| `ReceiptReuse.ViolationShows` | scripts/verification_cache.py:129-149 | Tools that violate the condition: from no receipts, one run, and another output found, reuse and running disagree. |
| `ReceiptReuse.NonProducers` | scripts/verification_cache.py:88-91 | What the condition says of commands that produce nothing. |
| `ReceiptReuse.Producers` | scripts/verification_cache.py:89-102 | What the condition says of commands that produce output: they pass again on what they left, and leave it. |
| `ReceiptReuse.Packagers` | scripts/verification_cache.py:99-101 | Packaging is never reused, so nothing is asked of it. |
| `ReceiptReuse.ReuseIsRunning` | scripts/verification_cache.py:129-137 | Under the condition a reusable receipt means that running would pass and change nothing. |
| `ReceiptReuse.CachedStep` | scripts/verification_runner.py:51-77 | Under the condition, one command: same verdict and output, and every receipt stays backed by a passing run. |
| `ReceiptReuse.OneJobAgrees` | scripts/verification_runner.py:51-77 | One job at a time, for any list: same verdict and output with receipts and without, also when it fails. |
| `ReceiptReuse.ReusedAfterPassing` | scripts/verification_cache.py:129-149 | What has just passed with output that can be vouched for is reused for a day. |
| `CssRules.Match` | scripts/verification_scope.py:251-256 | Brace counting finds the position of the matching brace inside the range, or there is none. |
| `CssRules.ParseRange` | scripts/verification_scope.py:242-262 | The cursor loop yields what the recursive definition reads of the range, refusals included. |
| `CssRules.ParseBody` | scripts/verification_scope.py:257-261 | A block with blocks in it is a group, any other a rule. |
| `CssRules.ReadRules` | scripts/verification_scope.py:234-265 | Comments removed, quoted braces refused, the rest read from end to end. |
| `CssRules.AcceptedBlock` | scripts/verification_scope.py:244-262 | Accepted text starts with a matched block around accepted text and goes on with accepted text. |
| `CssRules.EveryBraceMatched` | scripts/verification_scope.py:251-256 | In accepted text each opening brace is matched by a closing one. |
| `CssRules.CloseExtends` | scripts/verification_scope.py:251-254 | Text after a match does not move it. |
| `CssPrinting.ReadingUndoesPrinting` | scripts/verification_scope.py:234-265 | Reading the printed text of any forest of rules and non-empty groups, free of braces, quotes and comment markers, gives exactly its records. |
| `CssPrinting.ReadPrinted` | scripts/verification_scope.py:242-262 | The same below any list of enclosing headers; headers and bodies come back stripped. |
| `CssPrinting.ReadBlock` | scripts/verification_scope.py:245-262 | One printed block in front of anything is read as that block and then the rest. |
| `CssPrinting.CloseNode` | scripts/verification_scope.py:251-254 | A printed node closes its own braces at every depth. |
| `CssPrinting.NothingToRemove` | scripts/verification_scope.py:236 | Text without comment markers is left alone. |
| `CssPrinting.CommentGoes` | scripts/verification_scope.py:236 | The first comment goes, up to its first end, and what follows is treated the same way. |
| `CssPrinting.UnclosedStays` | scripts/verification_scope.py:236 | A comment that is never closed stays. |
| `CssPrinting.QuotedBraceIsRefused` | scripts/verification_scope.py:237-239 | Text with a brace between two quotes on one line is refused. |
| `CssPrinting.StripIs` | scripts/verification_scope.py:250-261 | Headers and bodies lose all blanks at both ends and nothing else. |
| `CssPrinting.CleanForest` | scripts/verification_scope.py:236-239 | Printing brings in no quote and no comment marker. |
| `ImportAnalysis.Reverse` | scripts/verification_backend.py:340-348 | The reverse table holds exactly the consumers of each module, the entry point excepted. |
| `ImportAnalysis.Reached` | scripts/verification_backend.py:349-355 | A module is reached iff a chain of consumers leads to it from a changed module. |
| `ImportAnalysis.MainOnlyAsSeed` | scripts/verification_backend.py:346-349 | The entry point is reached only as a seed. |
| `ImportAnalysis.ClosedHoldsChains` | scripts/verification_backend.py:351-355 | Any closed set with the seeds holds every chain, so the reached set is the least. |
| `ImportAnalysis.Search` | scripts/verification_backend.py:357-367 | The depth-first search with its shared set: a positive answer is real, a negative one closes what it has newly seen. |
| `ImportAnalysis.PersistentModel` | scripts/verification_backend.py:357-367 | True iff a module that uses the database is reachable along model imports, cycles included. |
| `ImportAnalysis.PersistenceIs` | scripts/verification_backend.py:362-367 | A module is persistent iff it uses the ORM, imports the database, or imports a model that is. |
| `ImportAnalysis.HarmlessPath` | scripts/verification_backend.py:357-367 | No chain leaves a closed set without database users for one. |
| `ImportAnalysis.Schemas` | scripts/check_backend_architecture.py:83-92 | The loop ends with exactly the classes that have a finite derivation from a schema base. |
| `ImportAnalysis.SchemaIs` | scripts/check_backend_architecture.py:21-92 | A class is a schema iff it is one of the four bases, or has a schema among its bases and otherwise only schemas and the generic marker. |
| `ImportAnalysis.FixedPointHolds` | scripts/check_backend_architecture.py:83-92 | Every fixed point holds every derivation, so the result is the least. |
| `ObjectKeys.HeaderFits` | src/backend/app/core/object_storage/local.py:84-90 | The header of any accepted key, type and size is at most 1024 characters, so within the reader's 4096. |
| `ObjectKeys.LoadsUndoesDumps` | src/backend/app/core/object_storage/local.py:84-86 | Reading the header text gives back key, size and type. |
| `ObjectKeys.NumberOfDecimal` | src/backend/app/core/object_storage/local.py:84-86 | The printed size is digits and reads back as the size. |
| `ObjectKeys.DecimalLength` | src/backend/app/core/object_storage/local.py:84-86 | A number below 10^k prints in at most k digits. |
| `ObjectKeys.ValidTexts` | src/backend/app/core/object_storage/base.py:40-55 | Accepted keys and types are ASCII without quotes, so they need no escapes. |
| `ObjectKeys.KeyIs` | src/backend/app/core/object_storage/base.py:40-48 | A key is 1 to 512 of the allowed characters, starts with a letter or digit, and has no empty, dot or dot-dot between its slashes. |
| `ObjectKeys.TypeIs` | src/backend/app/core/object_storage/base.py:51-55 | A content type is at most 255 characters: two non-empty names around the one slash. |
| `LocalStorage.RecordReadsBack` | src/backend/app/core/object_storage/local.py:84-136 | Every record that is written is read back unchanged, with and without its data. |
| `LocalStorage.OtherLengthIsCorrupt` | src/backend/app/core/object_storage/local.py:117-136 | Every proper prefix and every extension of a record is corrupt. |
| `LocalStorage.OtherKeyIsCorrupt` | src/backend/app/core/object_storage/local.py:127 | A record found under another key is corrupt. |
| `LocalStorage.TooLargeIsDescribed` | src/backend/app/core/object_storage/local.py:109-113 | A record larger than the limit is not read, but still described. |
| `LocalStorage.HeaderAcceptedExactlyWhen` | src/backend/app/core/object_storage/local.py:117-136 | Which headers are accepted: at most 4096 bytes, version 1, this key, as many bytes as the file has, a valid type. |
| `LocalStorage.LengthOfBigEndian` | src/backend/app/core/object_storage/local.py:90 | The length prefix reads back. |
| `LocalStorage.RecordParts` | src/backend/app/core/object_storage/local.py:84-92 | Where prefix, header and data lie in a record. |
| `LocalStorage.ReaderExists` | src/backend/app/core/object_storage/local.py:124 | The assumption on the JSON reader can be met. |
| `LocalStorage.LocalObjectStorage.Store` | src/backend/app/core/object_storage/local.py:74-100 | Which error, in which order, without effect; otherwise the visible map has this entry and all others as before. |
| `LocalStorage.LocalObjectStorage.Get` | src/backend/app/core/object_storage/local.py:138-140 | Exactly what the visible map holds; not found iff there is no file. |
| `LocalStorage.LocalObjectStorage.Delete` | src/backend/app/core/object_storage/local.py:146-148 | The key leaves the visible map; all others stay. |
| `ApplyPlan.Project.Apply` | scripts/project_init.py:87-120 | Wherever the process dies and however it ends: a first part of the plan is done, and none of it unless every existing planned file has a private backup of its bytes. On failure every file is as before; else every planned path has its content and mode and no other path changed. |
| `ApplyPlan.NothingIsLost` | scripts/project_init.py:98-118 | So at every moment the original bytes of each file are in its place or in its backup. |
| `ApplyPlan.Project.WriteBackup` | scripts/project_init.py:100-104 | The private backup is created and then written; a process that dies in between leaves it empty. |
| `ApplyPlan.Project.BackUp` | scripts/project_init.py:95-104 | All existing planned files are backed up, or the first failure or the end of the process stops it. |
| `ApplyPlan.Project.RollBack` | scripts/project_init.py:111-118 | Undoing the writes that were made restores every file, created ones included; a process that dies in between has undone the last of them. |
| `ApplyPlan.Project.WriteAtomic` | scripts/project_init.py:123-133 | The file is replaced with content and mode, or nothing changed. |
| `ApplyPlan.AfterAt` | scripts/project_init.py:107-110 | After n writes the first n paths have their planned content, all others are as before. |

## Left out

- HTTP routers, dependencies, OAuth, SMTP, templates, Celery wiring, server-sent events, logging and tracing: input and output around the modelled logic.
- The provider, the database and Redis beyond the rules listed above.
- Aliasing and in-place update inside interleavings: state machines work on values. The uninterrupted operations are modelled in place beside them.
- Price and plan validation, `plans`, portal, invoices, payment methods, profile and setup sessions in billing: field checks and pass-through. `PlanChange` takes the confirmed prices as given.
- The lookup of a pending update's invoice URL in `_managed_response`, and its `payment_url` and `pending_effective_at` fields.
- SubscriptionSync.StoresOtherIffOnRecord: one configuration throughout, with every price on sale known for the plan it is sold as; the invoice link of an answer is not part of the snapshot. Calls of a plan change other than the upgrade show as changes of the provider.
- User deletion in `Checkout`: an account with a Checkout row cannot be deleted.
- ForgottenKeys.ForgottenRetry: all keys of the request are forgotten together, and the provider does not change on its own between the crash and the retry.
- The eight-attempt bound of the WATCH loops: a further attempt is a new transaction of the same caller, so the models allow any number.
- Outbox.Notifications.Claim: the gap between the commit and the re-read of the leased row is not modelled; neither is a row whose lease was swept in that gap.
- Image decoding: an upload's image is given as present or absent.
- Partial failure inside one storage or database call beyond "done", "failed but done" and "failed and not done".
- ParallelReuse.CachedEqualsUncached: sources and context do not change during the execution; a start looks for the receipt and a finish runs the command in one step on the output it finds; the list has no producing command in the backend lane. The frontend is a submodule, so its receipts are in a directory of their own, while both repositories build into the same output directory.
- How `snapshot`, `context` and `artifacts` collect what they digest, `miss_reason`, log files and printed output.
- `Scheduler` models threads by the order in which they start and are collected.
- Errors of the local storage are told apart only as far as the model can cause them: a refused disk is "unavailable", not "access denied" or "not found". Symbolic links, irregular files, `initialize` and `check_connection` are not modelled.
- The JSON grammar: the header reader is any function that reads back what is written; a strict one is given.
- ApplyPlan.Project.Apply: parent directories that were created stay, errors other than `OSError` are not modelled, and at most one backup and one write fail; rollback succeeds unless the process dies. Reading the files and creating directories are not counted as operations.
- Finding imports and class bases in syntax trees, git access, and the rules that turn reached modules into commands: the import graph and class table are given.
- `css_impact` and the selection of tests from changed rules.
- Login-failure counting, OAuth state and password-reset consumption: separate reads and writes without the stronger guarantees.
- `scripts/env.py`: its grammar is that of an external parser.
- Inbox, inquiries, API keys, the last-admin rule, health and demo caches, contract comparison: would only add easier members.
