# Verification of the deploy-service control plane

This project models the control plane of the Go service under `deploy-service/internal`, over its in-memory
stores, and proves what its documentation and tests promise of it. It has five parts.

* **Billing guard** (`Reserve`, `Projects`, `Guard`, `GuardService`, `GuardRuns`, `GuardBudget`, `GuardHistory`,
  `GuardProgress`, `GuardOrder`, `GuardMoney`). Deploys reserve money in a map under a mutex, with balances that were read
  outside it; the guard takes users through a grace period to suspension and deletion. `GuardService` is the code
  as it runs; `GuardRuns` is a step system with deploys split at the lock and handlers split between reading and
  writing a project, in which money, projects and manual actions may change between any two steps. The other modules
  prove what holds over all of its runs.
* **Money** (`Users`, `Metering`, `Ledger`, `Charging`, `LedgerService`). Balances, the transaction journal, gateway
  payments, usage metering and the monthly bill.
* **Releases** (`Releases`, `ReleaseService`, `ReleaseGroups`, `ReleaseRuns`, `ReleaseCopies`, `ReleaseEffects`,
  `ReleaseHistory`, `ReleaseReplay`, `ReleaseStatuses`, `ReleaseOrder`, `ReleaseOutcomes`). Webhooks and the sync of
  GitHub runs bind run ids to release records along two independent paths. `ReleaseHistory` is a step system in which
  a sync is split where it waits for GitHub.
* **Names** (`Text`, `Names`, `NameMeaning`). Stage slugs, workflow paths, Kubernetes names.
* **Alerts** (`Alerts`). At most one Telegram message per key and time to live.

Each class keeps the fields of the Go type it models, and each of its methods is proved equal to a function on
values (`Enforce`, `PendingAfter`, `Notified`, `Webhook`, `SyncJobs`, `Serve` and so on). The results are lemmas
about those functions, most of them over every run of a step system. `GuardMoney`, `Charging`, `ReleaseOutcomes`,
`NameMeaning` and the end of `Alerts` say what the functions amount to in plain amounts, words and keys. Amounts of
money are `real`, times are `int`. What the surroundings decide is a parameter: map and listing orders, provisioner and gateway answers, what GitHub
reports, generated ids, the clock. `dafny verify dfyconfig.toml` checks everything.

## Results that differ from what one would expect

* A manual resume keeps the deletion date of an earlier automatic suspension, so a project that is resumed and later
  suspended by hand goes with the first overdue tick (`GuardProgress.ResumeKeepsTheDueDate`). The safety theorem
  therefore promises an unbroken suspension exactly for projects nobody resumed (if no handler wrote them back either).
* The `1e-9` cut-off of a release is exact only because no reserve is below 0.405; on arbitrary maps reserve and
  release restore the map only under a condition (`GuardBudget.ReserveThenReleaseRestores`).
* A payment is marked as succeeded before it is credited, so a payment of a user who does not exist is marked and
  lost (`Ledger.NotificationCreditsIff`, `LostPayment`). Repeated gateway ids, on the other hand, do no harm.
* No operation books a refund, so the refund term of the guard is zero in every run (`Ledger.RefundTermIsZero`).
* The in-memory usage store leaves load-balancer hours out of the monthly bill, though they are charged. Charges stay
  within that bill exactly as long as those hours cost no more than the storage that is billed without being charged
  (`Ledger.MemoryBillCoversIff`, `BalancerIsNotBilled`); with the SQL aggregate they always do.
* A metering window over the first instant of a month is charged and in neither month's bill
  (`Ledger.StraddlingWindowIsNotBilled`, with the exact condition for both bills together in `TwoBillsCoverIff`).
* A refused deploy stamps the grace period with a time it read before the lock, so a tick that found money may lie
  between stamp and refusal (`GuardHistory.StampBeforeMoney`). The guarantees count the period from the stamp and
  what the guard saw from the refusal.
* Handlers that call out between reading and writing a project write the old status and dates back, and thereby undo
  what the guard did meanwhile (`GuardHistory.WriteBackUndoesTheTick`). The progress result excludes such a write.
* A sync lists the releases, waits for GitHub, and then writes the listed placeholder back. If a webhook or another
  sync has bound a run to it meanwhile and the stage is handed a new run, the binding is overwritten, and no release
  carries the first run any more unless it comes up again (`ReleaseHistory.BindingStaysInARunIff`, `RunIsLostIff`,
  `ReleaseStatuses.OvertakenSyncLosesARun`). Run ids stay unique all the same.
* The last recognised delivery wins, however late it is: a delayed `in_progress` sets a finished release back to
  building until the run is reported again (`ReleaseStatuses.LastWordCounts`, `DeliveriesCommuteIff`).
* A webhook with an unrecognised status drops the binding of its run. Delivered again it is harmless unless the
  repository has a second project in which nobody waits, because which project is found depends on a map order
  (`ReleaseReplay.ReplayIsHarmlessIff`, `SharedRepositoryBreaksReplay`).
* The error text of InitiateTopUp names a minimum of 900 RUB; the code asks for 1, and the model follows the code.

## Model

| member | source | states |
|---|---|---|
| `GuardHistory.AutoDeletionIsEarned` | deploy-service/internal/service/billing_guard.go:198-271 | Safety over every run: a project the guard deletes was suspended by the guard at least the retention period earlier, at least the grace period after the stamp of a step that found nothing available. If no handler wrote an old copy of it back it stayed suspended throughout exactly if nobody resumed it, and if neither happened every look at its owner from that step to the deletion saw no money and no exemption. |
| `GuardHistory.GraceOrigin` | deploy-service/internal/service/billing_guard.go:34-36 | A running grace period was started by a tick or a refused deploy that found nothing available; it bears the time of the tick, or the time at which the deploy read the funds, outside the lock; no tick since that step found money, and none since the stamp iff none did between the two. |
| `GuardHistory.StampBeforeMoney` | deploy-service/internal/service/billing_guard.go:28-52 | Such a tick does occur: in four legal steps a deploy reads an empty account, the account is topped up, a tick finds the money, and the deploy is refused and stamps a time before the tick. |
| `GuardHistory.DeployOrigin` | deploy-service/internal/service/billing_guard.go:13-34 | What a deploy brings to the lock, snapshot and time, was read in an earlier step and is not newer than it. |
| `GuardHistory.ScheduleOrigin` | deploy-service/internal/service/billing_guard.go:353-366 | Every deletion date in any reachable state stems from an automatic suspension after a full grace period, also one that a handler has written back; without a resume or a write-back nothing has eased since. |
| `GuardHistory.CopyOrigin` | deploy-service/internal/service/project_service.go:383-384 | What a handler writes back is the record as it was in some earlier state. |
| `GuardHistory.WriteBackUndoesTheTick` | deploy-service/internal/service/project_service.go:384-485 | Whatever a tick makes of a project between the reading and the writing of a handler, status and dates are afterwards those that the handler read. |
| `GuardProgress.UnpaidProjectsGo` | deploy-service/internal/service/billing_guard.go:211-232 | Bounded progress: ticks without money a grace period and then a retention period apart suspend an active project with the second and delete it with the third, unless its owner resumes or deletes it or a handler writes an old copy back in between. |
| `GuardProgress.TickPutsOnGrace` | deploy-service/internal/service/billing_guard.go:211-216 | After any tick that saw no money the owner is on grace, counted from that tick at the latest. |
| `GuardProgress.NeverSuspendedAndDeletedAtOnce` | deploy-service/internal/service/billing_guard.go:222-231 | No tick deletes a project it found active, whatever fails and even with a retention period of zero. |
| `GuardProgress.ResumeKeepsTheDueDate` | deploy-service/internal/service/project_service.go:703-721 | The old deletion date survives a manual resume: after a later manual suspension the next overdue tick spares the project exactly if that old date still lies ahead. |
| `GuardProgress.ResumeThenSuspend` | deploy-service/internal/service/project_service.go:683-721 | A resume followed by a manual suspension leaves the store exactly as it was, the old schedule included. |
| `GuardBudget.PendingIsAlwaysExact` | deploy-service/internal/service/billing_guard.go:36-68 | In every interleaving of reading, committing, repeated releasing and everything else, each user's pending entry is the exact sum of the outstanding reservations and is present iff there is one. |
| `GuardBudget.ReleaseKeepsExact` | deploy-service/internal/service/billing_guard.go:61-66 | One release keeps that exactness: because every reserve is at least 0.405, what is left is zero or far above the 1e-9 cut-off, so deleting the entry loses nothing. |
| `GuardBudget.CommitKeepsExact` | deploy-service/internal/service/billing_guard.go:51-52 | One commit keeps that exactness for every user. |
| `GuardBudget.OutstandingIsZeroOrLarge` | deploy-service/internal/service/billing_guard.go:62-66 | The reservations of a user sum to zero if none is outstanding and to at least 0.405 otherwise. |
| `GuardBudget.PrepareReadsALargeReserve` | deploy-service/internal/service/billing_guard.go:27-33 | Whatever a deploy asks for, the reserve computed from true books is at least 0.405. |
| `GuardBudget.ReserveThenReleaseRestores` | deploy-service/internal/service/billing_guard.go:36-68 | On any map, reserve followed by release restores it iff the user had no entry within the cut-off. |
| `GuardBudget.ReserveThenReleaseInARun` | deploy-service/internal/service/billing_guard.go:36-68 | In every reachable state that condition holds, so reserve followed by release restores the map. |
| `GuardBudget.CommitFitsFundsRead` | deploy-service/internal/service/billing_guard.go:36-51 | A granted reservation and everything else outstanding for the user fit in the funds the request has read. |
| `GuardBudget.NoOvercommit` | deploy-service/internal/service/billing_guard.go:13-52 | If a user's funds do not fall while something is open, outstanding reservations never exceed the current funds, although balances are read outside the lock. |
| `GuardOrder.EachOwnerOnce` | deploy-service/internal/service/billing_guard.go:273-282 | The owners that are enforced are exactly the named owners of projects that are not deleted, each once, for every listing. |
| `GuardOrder.LookIsPrivate` | deploy-service/internal/service/billing_guard.go:98-128 | What the guard finds about one user does not change when another user's projects and grace entries do. |
| `GuardOrder.InTurnSettles` | deploy-service/internal/service/billing_guard.go:273-288 | All passes together do to each project and grace entry what its owner's finding at the start calls for, with no order in the result. |
| `GuardOrder.ListingOrderDoesNotMatter` | deploy-service/internal/service/billing_guard.go:273-288 | The final state is the same for every order in which List returns the projects. |
| `GuardOrder.PassGoesThroughIff` | deploy-service/internal/service/billing_guard.go:273-288 | A whole pass succeeds iff every owner exists and no project is broken that its owner's pass, by the state at the start, suspends or deletes; then it ends in the state of all passes in turn. |
| `GuardOrder.PassesAgree` | deploy-service/internal/service/billing_guard.go:273-288 | Two passes over the same state, with any two listings, both succeed or both fail, and end in the same state if they succeed. |
| `GuardRuns.TickIsBounded` | deploy-service/internal/service/billing_guard.go:198-271 | A pass over one user leaves every project as it is but for clearing a schedule (when funded), suspending an active project or deleting a due one (after the grace period) of that user. |
| `GuardRuns.SmoothTick` | deploy-service/internal/service/billing_guard.go:187-271 | When no call that the pass makes would fail it succeeds iff the user exists and gives every project its effect, independent of the listing. |
| `GuardRuns.PassSucceedsIff` | deploy-service/internal/service/billing_guard.go:187-271 | The pass of one user succeeds iff the user exists and, when the grace period is over, no project is broken that is to be suspended or deleted. |
| `GuardRuns.RunKeepsProjects` | deploy-service/internal/service/project_service.go:265-291 | No step removes a project record or changes its owner, and the clock of a run does not go back. |
| `Guard.MineIsExact` | deploy-service/internal/service/billing_guard.go:130-139 | The filtered listing holds each live project of the user once and nothing else. |
| `Guard.SpentFromListing` | deploy-service/internal/service/billing_guard.go:290-303 | The monthly spend summed in listing order equals the sum over the set of live projects, so no listing order changes it. |
| `GuardService.ProjectService.constructor` | deploy-service/internal/service/project_service.go:27-63 | A new service has nothing pending and nobody on grace. |
| `GuardService.ProjectService.ListBillingProjects` | deploy-service/internal/service/billing_guard.go:130-139 | The loop returns exactly the live projects of the user, in listing order. |
| `GuardService.ProjectService.CalculateUserSpentThisMonth` | deploy-service/internal/service/billing_guard.go:290-303 | The accumulation loop returns the sum of the costs of the projects in the list that are not deleted. |
| `GuardService.ProjectService.LoadBillingSnapshot` | deploy-service/internal/service/billing_guard.go:141-165 | The snapshot holds balance, spend, refunds and exemption of the user, or nothing for an unknown user. |
| `GuardService.ProjectService.PrepareDeploy` | deploy-service/internal/service/billing_guard.go:13-34 | The unlocked half of a deploy: the request that the step system prepares, time included, or a failure for an unknown owner. |
| `GuardService.ProjectService.CommitReserve` | deploy-service/internal/service/billing_guard.go:36-52 | The locked half, field by field: granted iff not exempt and balance - spend + refund, less what is pending for the user, reaches the reserve; the pending entry grows by the reserve; a refusal with nothing left stamps the time read before the lock. |
| `GuardService.ProjectService.EnsureGraceDeadline` | deploy-service/internal/service/billing_guard.go:327-333 | Starts the grace period unless it runs, and returns its deadline. |
| `GuardService.ProjectService.LoadBillingState` | deploy-service/internal/service/billing_guard.go:98-128 | Snapshot, live projects and grace deadline of the user, and available = balance - the costs of the live projects + refund - what is pending. |
| `GuardService.ProjectService.EvaluateBillingGuard` | deploy-service/internal/service/billing_guard.go:198-233 | The decision in all four situations: solvent or exempt, unwarned, in grace, out of grace with the exact batches. |
| `GuardService.ProjectService.ClearDeletionSchedule` | deploy-service/internal/service/billing_guard.go:335-351 | Writes back every suspended copy in the list with its schedule cleared, however old the copies are, and stops at the first that is unknown. |
| `Guard.CurrentCopiesCleared` | deploy-service/internal/service/billing_guard.go:335-351 | When the copies are current, as they are within a pass, this clears the schedules of the suspended projects in the list and touches nothing else. |
| `GuardService.ProjectService.SuspendProjectForNonPayment` | deploy-service/internal/service/billing_guard.go:353-366 | Writes an active copy back as suspended with suspension and deletion date, even when the provisioner call then fails; refuses any other copy. |
| `GuardService.ProjectService.ApplyBillingDecision` | deploy-service/internal/service/billing_guard.go:235-271 | The new grace map and store for each kind of decision, and what a failure part-way leaves behind. |
| `GuardService.ProjectService.SuspendBatch` | deploy-service/internal/service/billing_guard.go:256-262 | The suspend loop suspends the batch up to and including the first project whose call fails. |
| `GuardService.ProjectService.DeleteBatch` | deploy-service/internal/service/billing_guard.go:263-269 | The delete loop deletes the batch up to the first failing call and leaves that project half-deleted. |
| `GuardService.ProjectService.CarryOut` | deploy-service/internal/service/billing_guard.go:256-270 | Both loops together: deletions are attempted when every suspension went through. |
| `GuardService.ProjectService.DeleteNext` | deploy-service/internal/service/billing_guard.go:263-266 | One round of the delete loop. |
| `GuardService.ProjectService.EnforceBillingGuard` | deploy-service/internal/service/billing_guard.go:187-196 | One enforcement of one user is the tick of the step system. |
| `GuardService.ProjectService.VisitProject` | deploy-service/internal/service/billing_guard.go:275-286 | One iteration: a project without owner, a deleted one and one of an owner met before are skipped, the others start a turn. |
| `GuardService.ProjectService.EnforceNextOwner` | deploy-service/internal/service/billing_guard.go:279-285 | One round of the loop is one turn, on a true listing of the store it finds. |
| `GuardService.ProjectService.EnforceAllBillingGuards` | deploy-service/internal/service/billing_guard.go:273-288 | The loop enforces each owner once in order of first appearance, and stops at the first failure: a whole pass in the sense of PassesAgree. |
| `GuardService.ProjectService.SuspendProject` | deploy-service/internal/service/project_service.go:683-701 | A manual suspension sets no deletion date; the record changes even if the environment call fails. |
| `GuardService.ProjectService.ResumeProject` | deploy-service/internal/service/project_service.go:703-721 | A manual resume changes the status only, and only after the environment came up; dates stay. |
| `GuardService.ProjectService.DeleteProject` | deploy-service/internal/service/project_service.go:265-291 | A deletion leaves the record as deleted, or as deleting when the environment call fails. |
| `GuardService.BudgetHold.constructor` | deploy-service/internal/service/billing_guard.go:54-68 | A hold starts unreleased. |
| `GuardService.BudgetHold.Release` | deploy-service/internal/service/billing_guard.go:55-67 | The first call takes the amount back, with the cut-off; every later call does nothing. |
| `Reserve.ReserveBounds` | deploy-service/internal/service/project_service.go:636-657 | For nonnegative spend every reserve lies between 0.405 and 8.452 RUB. |
| `Reserve.ReserveBoundsAreTight` | deploy-service/internal/service/project_service.go:636-657 | Both bounds are met by concrete requests. |
| `Reserve.ReserveIsMonotone` | deploy-service/internal/service/project_service.go:636-681 | The reserve grows with replicas, spend, the dedicated load balancer and the profile order starter, balanced, performance. |
| `Projects.ProjectStore.constructor` | deploy-service/internal/store/memory/project_store.go:13-15 | A new store is empty. |
| `Projects.ProjectStore.Create` | deploy-service/internal/store/memory/project_store.go:17-27 | Adds a project under a new id, refuses a known id. |
| `Projects.ProjectStore.GetByID` | deploy-service/internal/store/memory/project_store.go:29-35 | Finds exactly the stored record. |
| `Projects.ProjectStore.List` | deploy-service/internal/store/memory/project_store.go:37-47 | Every stored project once, in an order nobody controls. |
| `Projects.ProjectStore.Update` | deploy-service/internal/store/memory/project_store.go:49-99 | Replaces a known record field by field: status, dates and the balancer flag always, the five settings unless the new record leaves them blank. |
| `GuardMoney.DeployIsGrantedIff` | deploy-service/internal/service/billing_guard.go:13-52 | Over every run, in balances, refunds and costs: a deploy of a user who is not exempt gets its reserve iff balance + refund, as read, cover the costs of the user's live projects, everything pending at the lock, and the reserve; the refusal starts the grace period, unless it runs, iff nothing is left even without the reserve. |
| `GuardMoney.SpentIsTheSum` | deploy-service/internal/service/billing_guard.go:290-303 | The month's spend is zero without live projects, each live project adds its own cost once, any other adds nothing. |
| `GuardMoney.ReserveWasRead` | deploy-service/internal/service/project_service.go:636-681 | The reserve of a deploy in literals: 0.45, 0.85 or 1.6 by the requested service type, or the project's if none is requested, times the profile and the replica factor, plus 8 percent of the spend up to 3. |
| `GuardMoney.PassLeavesAloneIff` | deploy-service/internal/service/billing_guard.go:198-216 | A pass leaves a user alone iff exempt or balance + refund exceed spend and pending: then grace ends, suspended projects lose their dates and no status changes; anybody else is on grace, from now if not before. |
| `GuardMoney.OverduePassInPlainTerms` | deploy-service/internal/service/billing_guard.go:218-233 | When grace is over and nothing fails, each running project of the user ends suspended with both dates set, each due one deleted, and any other as it was. |
| `GuardMoney.FailingPassInPlainTerms` | deploy-service/internal/service/billing_guard.go:256-270 | A failing pass leaves one broken project stuck: suspended on record with nothing deleted, or half-deleted with everything that ran suspended. |
| `Guard.CopiesClearedIff` | deploy-service/internal/service/billing_guard.go:335-351 | With copies of any age: clearing fails iff a copy with a schedule is of a project that is gone, and what it writes is suspended without dates. |
| `Ledger.LedgerIsConserved` | deploy-service/internal/app/app.go:309-369 | After any sequence of registrations, top-ups, notifications and usage collection each balance is the default balance plus the user's journal entries; top-ups are positive, charges negative, nothing else is booked. |
| `Ledger.CreditedExactlyOnce` | deploy-service/internal/service/auth_service.go:124-186 | Over every run with duplicated, reordered and unknown notifications, and even with repeated gateway ids, a user's credits are the direct top-ups plus the payments marked succeeded, once each. |
| `Ledger.NotificationCreditsIff` | deploy-service/internal/service/auth_service.go:162-186 | A payment is marked before it is credited: the credit matches the mark iff the payer exists and the amount is positive (or zero, when there is nothing to lose). |
| `Ledger.NotificationIsIdempotent` | deploy-service/internal/service/auth_service.go:160-175 | Over every run: after a notification of a known payment another one of it changes nothing, whenever it comes and whatever happened in between; a notification of an unknown payment changes nothing. |
| `Ledger.LostPayment` | deploy-service/internal/service/auth_service.go:124-186 | The failing case as a run: an unknown payer starts a payment and the gateway reports it paid; it is marked succeeded, nothing is credited, and no notification after any further steps makes up for it. |
| `Ledger.WhereTheMoneyIs` | deploy-service/internal/service/auth_service.go:89-113 | Both results in one equation: balance = default + direct top-ups + succeeded payments + charges. |
| `Ledger.RefundTermIsZero` | deploy-service/internal/service/billing_guard.go:305-317 | No modelled operation books a refund, so the refund term of the guard's available sum is always zero. |
| `Ledger.ChargesFollowRecords` | deploy-service/internal/app/app.go:309-369 | In runs of any length the records between two times are what ticks between them read, with disjoint windows, and what the project is charged by those ticks is at most the cost of the records, and equal to it if every owner was known. |
| `Ledger.ChargesNeverExceedTheBill` | deploy-service/internal/app/app.go:309-369 | In runs of any length what a project is charged for the windows of a month so far is at most its bill for that month; with known owners they agree iff storage is free or was constant over windows that tile the month so far. |
| `Ledger.JournalIsCharged` | deploy-service/internal/app/app.go:350-367 | Where all windows lie between the two times the charges are the whole of what the journal holds against the project. |
| `Ledger.MemoryBillCoversIff` | deploy-service/internal/store/memory/usage_store.go:23-38 | The same with the in-memory aggregate: the bill covers the charges iff the load-balancer hours, which it drops, cost no more than storage is billed above its charges. |
| `Ledger.WithoutBalancerMemoryBillCovers` | deploy-service/internal/store/memory/usage_store.go:23-38 | So it covers them whenever the project had no dedicated load balancer in a window of the month. |
| `Ledger.BalancerIsNotBilled` | deploy-service/internal/app/app.go:323-367 | A run with one tick in which a project is charged for its dedicated load balancer alone and the in-memory bill is zero. |
| `Ledger.TwoMonthsSplit` | deploy-service/internal/app/app.go:217-218 | The charges of two months are those for the windows of each and those for windows over the turn between them. |
| `Ledger.TwoBillsCoverIff` | deploy-service/internal/app/app.go:217-218 | Both bills together cover both months iff the charges over the turn are no more than what the two bill for storage above its charges. |
| `Ledger.StraddlingWindowIsNotBilled` | deploy-service/internal/app/app.go:217-218 | A run with one tick whose window lies over the turn of the month: it is charged, and both months' bills are zero. |
| `LedgerService.BillingTransactionStore.constructor` | deploy-service/internal/store/memory/billing_transaction_store.go:11-13 | A new journal is empty. |
| `LedgerService.BillingTransactionStore.Record` | deploy-service/internal/store/memory/billing_transaction_store.go:15-20 | Appends, and changes nothing already written. |
| `LedgerService.BillingTransactionStore.ListByUser` | deploy-service/internal/store/memory/billing_transaction_store.go:22-32 | The user's transactions, in order. |
| `LedgerService.CalculateUserRefunds` | deploy-service/internal/service/billing_guard.go:305-317 | The sum of the user's positive refunds in the whole journal. |
| `LedgerService.YooKassaPaymentStore.constructor` | deploy-service/internal/store/memory/yookassa_payment_store.go:18-20 | A new payment list is empty. |
| `LedgerService.YooKassaPaymentStore.Create` | deploy-service/internal/store/memory/yookassa_payment_store.go:22-27 | Appends, without a look at the gateway id. |
| `LedgerService.YooKassaPaymentStore.GetByYooKassaID` | deploy-service/internal/store/memory/yookassa_payment_store.go:29-38 | The first payment with the gateway id. |
| `LedgerService.YooKassaPaymentStore.MarkSucceeded` | deploy-service/internal/store/memory/yookassa_payment_store.go:40-51 | Marks the first payment with the gateway id in place and leaves all others. |
| `LedgerService.MoneyService.Register` | deploy-service/internal/service/auth_service.go:24-64 | Adds the user with the default balance iff email and password are not blank and the email is free. |
| `LedgerService.MoneyService.TopUpBalance` | deploy-service/internal/service/auth_service.go:89-113 | Adds a positive amount to a known user's balance, and one entry of that amount to the journal; refuses everything else. |
| `LedgerService.MoneyService.InitiateTopUp` | deploy-service/internal/service/auth_service.go:124-158 | Keeps a pending payment iff the amount is at least 1 and the gateway accepted. |
| `LedgerService.MoneyService.HandleYooKassaWebhook` | deploy-service/internal/service/auth_service.go:162-186 | Marks, then credits; fails iff a payment that was still open could not be credited. |
| `LedgerService.MoneyService.CollectAndStoreUsage` | deploy-service/internal/app/app.go:309-369 | The loop over the listing takes from every user exactly the price of what was measured for the user's running projects, owners with several projects included, and touches no other field. |
| `LedgerService.MoneyService.Charge` | deploy-service/internal/app/app.go:321-367 | One project: the price of the measured level over the window leaves the owner's balance and enters the journal iff it is positive and the owner is known. |
| `Charging.TickTakes` | deploy-service/internal/app/app.go:309-369 | A tick takes from every user the sum, over the user's running and measured projects, of hours * (cores * core rate + memory * memory rate + balancer rate if used) + storage * storage rate * hours / 720 + egress * egress rate, where that is positive, and leaves the rest of the record alone. |
| `Charging.ProjectIsCharged` | deploy-service/internal/app/app.go:343-366 | One project of a tick: that price leaves the owner's balance and is booked as one negative entry, iff it is positive and the owner known; nobody else's record changes. |
| `Charging.ProjectIsRecorded` | deploy-service/internal/app/app.go:321-342 | The usage record of a tick, field by field, in terms of what was measured and the hours of the window. |
| `Metering.BillCoversCharges` | deploy-service/internal/monetization/engine.go:39-74 | For nonnegative usage and tariff and disjoint periods in the month the sum of the period costs is at most the bill, with equality iff storage is free or was constant over periods that tile the month so far. |
| `Metering.DisjointPeriodsFit` | deploy-service/internal/monetization/engine.go:56-62 | Disjoint periods inside the month have a total length of at most the elapsed month, for any number of periods in any order. |
| `Metering.MemoryCoversRecordsIff` | deploy-service/internal/store/memory/usage_store.go:23-38 | On any records the in-memory bill covers their cost iff the dropped load-balancer hours cost no more than storage is billed above its charges. |
| `Metering.UsageStore.constructor` | deploy-service/internal/store/memory/usage_store.go:12-14 | A new store is empty. |
| `Metering.UsageStore.Record` | deploy-service/internal/store/memory/usage_store.go:16-21 | Appends. |
| `Metering.UsageStore.AggregateForProject` | deploy-service/internal/store/memory/usage_store.go:23-38 | The loop returns sums, and the maximum for storage, over the project's records inside the window; load-balancer hours stay zero. |
| `ReleaseHistory.RecordsStayTidy` | deploy-service/internal/service/project_service.go:741-958 | Over every run mixing webhooks, bootstraps, atomic rollbacks, stage changes and syncs that overlap each other and all of these while they wait for GitHub: no two releases share a nonzero run id, every open release without a run is a bootstrap placeholder in a stage of its own project, and every stage has a canonical slug. |
| `ReleaseReplay.ReplayIsHarmlessIff` | deploy-service/internal/service/project_service.go:741-825 | Delivering a webhook twice equals delivering it once, up to update times and whichever project of the repository the second delivery finds, iff its status is recognised, or its run is known, or no project owns it, or nobody waits for it, or in every project that owns it somebody waits in the stage with its slug. |
| `ReleaseReplay.ThisReplayIsHarmlessIff` | deploy-service/internal/service/project_service.go:741-825 | The same for one given second delivery: it must reach a project in which somebody waits, unless one of the other conditions holds. |
| `ReleaseReplay.SharedRepositoryBreaksReplay` | deploy-service/internal/service/project_service.go:744-813 | A reachable failing case: two live projects share a repository, one was bootstrapped, and a queued run is announced; the delivery that finds the bootstrapped project changes nothing, the one that finds the other creates a release. |
| `ReleaseHistory.RecordsEndure` | deploy-service/internal/service/project_service.go:741-958 | Over every run no release or stage is lost or moved, and a placeholder that has changed has a run. |
| `ReleaseHistory.BindingStaysInARunIff` | deploy-service/internal/service/project_service.go:885-934 | Over every run: a GitHub run stays with its release through all later steps iff none of them is a stage of a sync that listed the release before the run was bound to it and is handed a further new run. |
| `ReleaseHistory.RecordsPersist` | deploy-service/internal/service/project_service.go:741-958 | Over every run without such a step every GitHub run stays with the release it was first bound to. |
| `ReleaseHistory.StepPersistsIff` | deploy-service/internal/service/project_service.go:911-927 | One step leaves all runs with their releases iff it is not a stage of a sync whose placeholder has been bound since the listing and which is handed a new run. |
| `ReleaseHistory.RunIsLostIff` | deploy-service/internal/service/project_service.go:911-927 | A step takes a run out of the records altogether iff it overwrites the release of the run and is not handed the run again after that. |
| `ReleaseHistory.StepKeepsCopies` | deploy-service/internal/service/project_service.go:728-731 | Whatever happens while a sync waits, its copies are of placeholders that are where they were, and current until a run is bound. |
| `ReleaseReplay.WebhookBindsTheRun` | deploy-service/internal/service/project_service.go:741-825 | A recognised status of a run with an owner ends on exactly one release, with image and stage following, and touches no other release. |
| `ReleaseStatuses.WebhookStatuses` | deploy-service/internal/service/project_service.go:741-825 | The status of every run after a delivery: the recognised status for its own run, pending for one that got a release though the status is not recognised, and unchanged for all others. |
| `ReleaseStatuses.LastWordCounts` | deploy-service/internal/service/project_service.go:741-958 | Over every run of the system the status of a GitHub run is the one that the last recognised delivery or stage of a sync gave to it, however late that came, unless a sync has unseated the run since. |
| `ReleaseStatuses.HeardRunsAreBound` | deploy-service/internal/service/project_service.go:741-958 | Over every run exactly one release carries a GitHub run that has been given a status and has not been unseated since, and no release any other. |
| `ReleaseStatuses.DeliveriesCommuteIff` | deploy-service/internal/service/project_service.go:804-813 | Two recognised deliveries of one run leave it with the status of the later one, so they commute iff they map to the same status. |
| `ReleaseStatuses.OvertakenSyncLosesARun` | deploy-service/internal/service/project_service.go:864-927 | A reachable run of the system in which a sync lists a placeholder, a webhook binds a run to it, and the stage, handed one new run, takes the placeholder: no release carries the first run any more. |
| `ReleaseOutcomes.DeliveryOutcome` | deploy-service/internal/service/project_service.go:741-825 | After a delivery in known words about a run with a release or an owner exactly one release carries the run: Success after completed with success, Failed after completed otherwise, Building after in_progress; its stage is active after a success, failed after a failure and untouched otherwise, and no other release or stage that was there changes. |
| `ReleaseOutcomes.KnownRunDelivered` | deploy-service/internal/service/project_service.go:804-824 | For a run that a release carries only status, image and time change; with any other words nothing does. |
| `ReleaseOutcomes.WaitingReleaseDelivered` | deploy-service/internal/service/project_service.go:777-788 | A placeholder takes the run, and commit and message where the payload gives them; with other words no release changes. |
| `ReleaseOutcomes.NewReleaseDelivered` | deploy-service/internal/service/project_service.go:789-802 | The release that is made for a run nobody waits for, field by field, in the stage of its slug; it stays pending with other words. |
| `ReleaseOutcomes.ShownRunOutcome` | deploy-service/internal/service/project_service.go:885-956 | From every reachable state a run that GitHub shows to a stage of a sync ends on exactly one release: Success, Failed, Building, or Pending for queued, requested and waiting, unless it was bound to the placeholder since the listing; if that is news and no later run of the stage is completed, the release's stage ends active after a success and failed after a failure. |
| `ReleaseOutcomes.SyncOutcome` | deploy-service/internal/service/project_service.go:827-958 | A sync that nothing interrupts leaves every run that GitHub shows for a stage on exactly one release with that status. |
| `ReleaseOutcomes.StageShowsTheLastWord` | deploy-service/internal/service/project_service.go:885-1015 | The same about one stage of a sync and its copy of the placeholder, in any sound state. |
| `ReleaseOutcomes.PathsAgree` | deploy-service/internal/service/project_service.go:891-908 | The two paths agree: in any reachable state a run that a webhook has delivered and a sync is then shown in the same words changes no record. |
| `ReleaseOutcomes.KnownRunSynced` | deploy-service/internal/service/project_service.go:891-908 | A known run changes nothing if its release has the status that the words mean, and else status and time of that release, with the stage following. |
| `ReleaseOutcomes.PlaceholderSynced` | deploy-service/internal/service/project_service.go:911-934 | The placeholder takes run, commit, status and time; its message gives way iff it is empty or the bootstrap text. |
| `ReleaseOutcomes.NewReleaseSynced` | deploy-service/internal/service/project_service.go:937-955 | The release that a sync makes for a run, field by field, in the stage of the slug. |
| `ReleaseEffects.WebhookKeepsTidy` | deploy-service/internal/service/project_service.go:741-825 | Every webhook, whichever way it goes, keeps run ids unique and lets nobody new wait. |
| `ReleaseEffects.StageKeepsTidy` | deploy-service/internal/service/project_service.go:885-956 | Every stage of a sync keeps both, even when the placeholder has been bound since the listing. |
| `ReleaseEffects.AnyRunsInOrder` | deploy-service/internal/service/project_service.go:885-956 | Such a stage moves no release and overwrites none but the placeholder. |
| `ReleaseEffects.RollbackKeepsTidy` | deploy-service/internal/service/project_service.go:1282-1325 | A rollback record is closed again before anything else runs, so it is never mistaken for a placeholder. |
| `ReleaseCopies.StageStatuses` | deploy-service/internal/service/project_service.go:885-956 | The status of every run after one stage of a sync, however old its copy of the placeholder: a run that was bound to the placeholder meanwhile keeps only what comes after the first new run. |
| `ReleaseCopies.StagePersistsIff` | deploy-service/internal/service/project_service.go:911-934 | One stage moves no run away from a release iff its placeholder has not been bound since the listing or no run it is handed is new. |
| `ReleaseCopies.StageBindsIff` | deploy-service/internal/service/project_service.go:885-956 | One stage binds a run that it is handed to exactly one release carrying the status of the run, except iff that very run was bound to the placeholder since the listing and the first new run comes after it. |
| `ReleaseCopies.StageGrowthExactly` | deploy-service/internal/service/project_service.go:911-956 | The exact number of releases one stage creates: one for each new run but the first where a placeholder was listed, and one more for a run that is overwritten and comes up again. |
| `ReleaseCopies.OldListingBindsEveryRun` | deploy-service/internal/service/project_service.go:873-957 | A whole sync on a listing that may be old moves no run and binds every run with a known status to exactly one release carrying that status, as long as no stage whose placeholder has been bound since is handed a new run. |
| `ReleaseRuns.SyncBindsEveryRun` | deploy-service/internal/service/project_service.go:885-956 | On a listing that is not old one sync does so always, and adds per stage one release for each new run but the first where a placeholder waits. |
| `ReleaseRuns.SyncGrowth` | deploy-service/internal/service/project_service.go:907-956 | The exact growth of the release count over all stages. |
| `ReleaseRuns.StageRuns` | deploy-service/internal/service/project_service.go:885-956 | What the runs of one stage do to the status of every run id, and that they keep run ids unique. |
| `ReleaseRuns.StageOrderDoesNotMatter` | deploy-service/internal/service/project_service.go:873-957 | The status of every run after a sync depends only on which runs were handed to it. |
| `ReleaseRuns.SyncIsIdempotent` | deploy-service/internal/service/project_service.go:885-956 | A second sync that is handed no new run changes no release and no stage, update times included. |
| `ReleaseOrder.SyncTwiceIsSyncOnce` | deploy-service/internal/service/project_service.go:723-731 | From every reachable state, a second sync over the same feed, which lists and groups the releases anew, changes no release and no stage. |
| `ReleaseOrder.SyncFiles` | deploy-service/internal/service/project_service.go:937-955 | A sync keeps every record in its project and stage, and files new releases only under slugs that its grouping holds. |
| `ReleaseOrder.LaterGrouping` | deploy-service/internal/service/project_service.go:847-871 | After such a sync the grouping of the new listing has no new slug and no earlier time. |
| `ReleaseOrder.StageBindsTheFeedIff` | deploy-service/internal/service/project_service.go:873-957 | From every reachable state, whatever webhooks and other syncs have done since the listing, a stage of a sync binds each run that GitHub shows to it to exactly one release with the status of the run, except iff the run was bound to the placeholder of the stage since the listing and the first new run is shown after it. |
| `ReleaseOrder.StageGrowsBy` | deploy-service/internal/service/project_service.go:911-956 | With the exact growth of the release count. |
| `ReleaseOrder.SyncBindsTheFeed` | deploy-service/internal/service/project_service.go:827-958 | From every reachable state a sync that nothing interrupts binds each run that GitHub shows for a stage to exactly one release with the status of the run, with the exact growth of the release count. |
| `ReleaseOrder.StageIsAStep` | deploy-service/internal/service/project_service.go:873-880 | What GitHub shows to a stage of an open sync makes a legal step of the runs. |
| `ReleaseOrder.SyncIsARun` | deploy-service/internal/service/project_service.go:827-958 | A sync that nothing interrupts is a run of its steps, the listing and then its stages in any order, and ends in the records that the outer loop computes. |
| `ReleaseOrder.EverySyncAgrees` | deploy-service/internal/service/project_service.go:827-958 | Two syncs of the same reachable records over the same feed, each walking the releases and the stages in its own order, leave every run with the same status. |
| `ReleaseOrder.JobsForAreDistinct` | deploy-service/internal/service/project_service.go:873-880 | No run of the feed is handed to two stages or twice to one. |
| `ReleaseGroups.GroupingDescribes` | deploy-service/internal/service/project_service.go:847-871 | The grouping holds exactly the slugs of the listed releases, each with the newest creation time and one of the newest unbound pending or building releases. |
| `ReleaseGroups.JobsForFit` | deploy-service/internal/service/project_service.go:864-873 | When the listing is that of the records every stage works on a current copy of a placeholder, and no two stages share one. |
| `ReleaseOrder.GroupingsAgree` | deploy-service/internal/service/project_service.go:847-871 | Which stages a sync asks about, and since when, does not depend on the order of the releases. |
| `ReleaseOrder.AnswersAreBound` | deploy-service/internal/integration/github/github_automation.go:231-255 | No run without an id is ever shown. |
| `ReleaseOrder.CreatedStageMayBeAdded` | deploy-service/internal/service/project_service.go:1452-1476 | A stage that CreateStage accepts is one that the runs allow: its slug is canonical and free. |
| `ReleaseOrder.StagesGetDisjointRuns` | deploy-service/internal/integration/github/github_automation.go:231-243 | Filtering one feed by the paths of two different stages never yields the same run twice. |
| `Releases.FindLatestDeployWorkflowRun` | deploy-service/internal/integration/github/github_automation.go:231-255 | The filter loop returns exactly the runs with the asked path (or any deploy path) that are not older than the time minus two minutes. |
| `ReleaseService.ReleaseStore.constructor` | deploy-service/internal/store/memory/release_store.go:11-13 | A new store is empty. |
| `ReleaseService.ReleaseStore.Create` | deploy-service/internal/store/memory/release_store.go:15-20 | Writes the record under its id. |
| `ReleaseService.ReleaseStore.GetByID` | deploy-service/internal/store/memory/release_store.go:22-27 | Finds exactly the stored record. |
| `ReleaseService.ReleaseStore.ListByProject` | deploy-service/internal/store/memory/release_store.go:29-39 | Every release of the project once, in any order. |
| `ReleaseService.ReleaseStore.Update` | deploy-service/internal/store/memory/release_store.go:41-46 | Writes the record under its id. |
| `ReleaseService.ReleaseStore.GetByWorkflowRunID` | deploy-service/internal/store/memory/release_store.go:48-57 | Some release with the run id, or none if there is none. |
| `ReleaseService.StageStore.constructor` | deploy-service/internal/store/memory/stage_store.go:9-11 | A new store is empty. |
| `ReleaseService.StageStore.Create` | deploy-service/internal/store/memory/stage_store.go:13-18 | Writes the record under its id. |
| `ReleaseService.StageStore.GetByID` | deploy-service/internal/store/memory/stage_store.go:20-25 | Finds exactly the stored record. |
| `ReleaseService.StageStore.GetBySlug` | deploy-service/internal/store/memory/stage_store.go:27-36 | Some stage of the project with the slug, or none if there is none. |
| `ReleaseService.StageStore.Update` | deploy-service/internal/store/memory/stage_store.go:56-61 | Writes the record under its id. |
| `ReleaseService.ReleaseService.constructor` | deploy-service/internal/service/project_service.go:27-63 | The service works on the stores it is given. |
| `ReleaseService.ReleaseService.HandleGitHubWebhook` | deploy-service/internal/service/project_service.go:741-825 | The handler does what the step system calls a webhook: known run, owner search, stage, placeholder or new release, status; it keeps run ids and slugs unique. |
| `ReleaseService.ReleaseService.FindProject` | deploy-service/internal/service/project_service.go:744-764 | Some live project of the repository, or none if there is none or the payload names no repository. |
| `ReleaseService.ReleaseService.Matches` | deploy-service/internal/service/project_service.go:752-760 | A project matches iff it is live and its repository is the named one, case and margins ignored. |
| `ReleaseService.ReleaseService.StageSlugOf` | deploy-service/internal/service/project_service.go:767-775 | The explicit slug, else the slug of the workflow path, else production. |
| `ReleaseService.ReleaseService.BindRun` | deploy-service/internal/service/project_service.go:777-802 | A placeholder is given the run in memory only; a new release is stored at once. |
| `ReleaseService.ReleaseService.HandleUnknownRun` | deploy-service/internal/service/project_service.go:742-824 | For a run that no release carries the handler looks for the project, and does nothing if there is none. |
| `ReleaseService.ReleaseService.HandleUnseenRun` | deploy-service/internal/service/project_service.go:765-824 | The handler for a run that no release carries, once the project is found. |
| `ReleaseService.ReleaseService.HandleKnownRun` | deploy-service/internal/service/project_service.go:804-824 | The handler for a run that a release carries. |
| `ReleaseService.ReleaseService.FinishWebhook` | deploy-service/internal/service/project_service.go:804-824 | An unrecognised status stores nothing; any other stores release and stage status. |
| `ReleaseService.ReleaseService.FindPendingReleaseWithoutWorkflow` | deploy-service/internal/service/project_service.go:577-596 | One of the newest open releases of the stage without a run, or none if there is none. |
| `ReleaseService.ReleaseService.ResolveReleaseStageID` | deploy-service/internal/service/project_service.go:565-575 | The stage with the slug; a missing production stage is created, and goes unused when its environment fails. |
| `ReleaseService.ReleaseService.GetOrCreateProductionStage` | deploy-service/internal/service/project_service.go:1328-1333 | Creates the production stage iff the project has none. |
| `ReleaseService.ReleaseService.ProvisionStage` | deploy-service/internal/service/project_service.go:1406-1441 | The stage record is kept as failed when its environment does not come up. |
| `ReleaseService.ReleaseService.UpdateStageStatusFromRelease` | deploy-service/internal/service/project_service.go:988-1015 | A success activates the release's stage, a failure fails it, nothing else touches it. |
| `ReleaseService.ReleaseService.GroupByStage` | deploy-service/internal/service/project_service.go:847-871 | The first loop computes the grouping that GroupingDescribes is about. |
| `ReleaseService.ReleaseService.StageSlugOfRelease` | deploy-service/internal/service/project_service.go:849-854 | The slug of the release's stage, or production if it has none. |
| `ReleaseService.ReleaseService.NoteRelease` | deploy-service/internal/service/project_service.go:860-870 | A later release moves the time, a later candidate takes the placeholder's place. |
| `ReleaseService.ReleaseService.SyncKnownRun` | deploy-service/internal/service/project_service.go:891-908 | A known run rewrites its release and stage iff the status is new. |
| `ReleaseService.ReleaseService.ClaimPending` | deploy-service/internal/service/project_service.go:911-934 | The run takes the placeholder, whose message gives way to the commit message if it is the bootstrap text. |
| `ReleaseService.ReleaseService.CreateForRun` | deploy-service/internal/service/project_service.go:937-955 | The run gets a release of its own, in the stage of the slug if there is one. |
| `ReleaseService.ReleaseService.SyncOneRun` | deploy-service/internal/service/project_service.go:885-956 | The body of the inner loop is the step whose effect on run ids and statuses is proved. |
| `ReleaseService.ReleaseService.SyncStage` | deploy-service/internal/service/project_service.go:885-956 | The inner loop over the runs of one stage, with the placeholder as it was listed, whatever has become of the record: the stage step of the runs. |
| `ReleaseService.ReleaseService.SyncNextStage` | deploy-service/internal/service/project_service.go:873-957 | One round of the outer loop. |
| `ReleaseService.ReleaseService.SyncStages` | deploy-service/internal/service/project_service.go:873-957 | The outer loop takes every stage of the grouping once, in any order. |
| `ReleaseService.ReleaseService.SyncLatestUnresolvedRelease` | deploy-service/internal/service/project_service.go:827-958 | The whole sync of any listing, however old, or nothing at all without a repository or a token; it keeps run ids and slugs unique. |
| `ReleaseService.ReleaseService.ListReleases` | deploy-service/internal/service/project_service.go:723-731 | Lists the releases, syncs every stage of that listing once in some order with what GitHub answers, and returns every release of the project; without project, repository or token nothing changes. |
| `ReleaseService.ReleaseService.RollbackToRelease` | deploy-service/internal/service/project_service.go:1259-1325 | Adds one closed release that copies a successful target with an image, and succeeds iff money and cluster allowed it. |
| `ReleaseService.ReleaseService.ApplyRollback` | deploy-service/internal/service/project_service.go:1282-1325 | The record ends as success or failure of the cluster call. |
| `ReleaseService.ReleaseService.CreateBootstrapPendingRelease` | deploy-service/internal/service/project_service.go:547-563 | A placeholder iff the bootstrap produced a pull request. |
| `ReleaseService.ReleaseService.SlugOfName` | deploy-service/internal/service/project_service.go:1460-1467 | A blank name and a name without letters or digits both end in the empty slug. |
| `ReleaseService.ReleaseService.AcceptStage` | deploy-service/internal/service/project_service.go:1452-1474 | A stage is accepted iff the caller owns the project, the slug is not empty and not taken, and the cluster answers. |
| `ReleaseService.ReleaseService.CreateStageWithSlug` | deploy-service/internal/service/project_service.go:1452-1476 | The same once the slug is known. |
| `ReleaseService.ReleaseService.CreateStage` | deploy-service/internal/service/project_service.go:1452-1476 | An accepted stage is stored, as failed when its environment does not come up; slugs stay unique. |
| `ReleaseService.ReleaseService.RemoveStage` | deploy-service/internal/service/project_service.go:1528-1540 | The stage is marked before its environment is taken down, and again after. |
| `ReleaseService.ReleaseService.DeleteStage` | deploy-service/internal/service/project_service.go:1513-1543 | The owner may delete any stage but production; it stays as deleting when the cluster fails. |
| `Names.SlugsAreTheFixedPoints` | deploy-service/internal/service/project_service.go:609-634 | Every result is lower-case letters, digits and single inner dashes; the function is idempotent and leaves alone exactly the slugs. |
| `NameMeaning.SlugIsTheWords` | deploy-service/internal/service/project_service.go:609-634 | The slug of a name is the words of letters and digits in its lower case, in order, joined by single dashes, whatever separates them. |
| `NameMeaning.SanitizedIsThePiece` | deploy-service/internal/integration/github/github_automation.go:559-576 | The sanitized text runs from the first to the last letter or digit, keeps those, and has a dash for every other character in between. |
| `NameMeaning.ParseIsExact` | deploy-service/internal/service/project_service.go:1688-1700 | Which slug any path stands for: production for its two file names, the name between deploy-service- and .yml, and none for any other file. |
| `NameMeaning.CanonicalNames` | deploy-service/internal/integration/kubernetes/kubectl_provisioner.go:1425-1461 | Canonical ids that fit are kept whole behind project- and vcluster-. |
| `NameMeaning.GeneratedIDsAgreeIff` | deploy-service/internal/domain/uuid.go:9-15 | Generated ids are equal iff the random bytes are, up to the bits of version and variant. |
| `Names.EmptySlug` | deploy-service/internal/service/project_service.go:609-634 | A name has an empty slug iff its lower case holds no letter and no digit. |
| `Names.BuildSlug` | deploy-service/internal/service/project_service.go:615-631 | The loop over the runes with its lastDash flag computes the specified text. |
| `Names.SlugifyStageName` | deploy-service/internal/service/project_service.go:609-634 | The method is the slug function that the results are about. |
| `Names.SanitizeFixesSlugs` | deploy-service/internal/integration/github/github_automation.go:559-576 | sanitizeName leaves alone exactly the plain names, hence every slug. |
| `Names.PrintThenParse` | deploy-service/internal/service/project_service.go:1677-1700 | The slug read back from a printed path is the slug iff it holds no slash; the empty slug reads back as production. |
| `Names.WorkflowPathRoundTrip` | deploy-service/internal/integration/github/github_automation.go:258-277 | For every stage that can exist the path written to the repository, the path looked up and the slug read back agree. |
| `Names.WorkflowPathsAreInjective` | deploy-service/internal/service/project_service.go:1677-1682 | Two stages share a workflow path only if they share a slug. |
| `Names.NamesAreLabels` | deploy-service/internal/integration/kubernetes/kubectl_provisioner.go:1425-1461 | For every id both names are labels of RFC 1035: 1 to 63 characters, a letter first, a letter or digit last, even after truncation. |
| `Names.NamesAreInjective` | deploy-service/internal/integration/kubernetes/kubectl_provisioner.go:1425-1461 | Different canonical ids of at most 55 (54) characters get different namespaces (vcluster names). |
| `Names.LongerIDsCollide` | deploy-service/internal/integration/kubernetes/kubectl_provisioner.go:1436-1439 | The limit is sharp: an id of 55 characters shares its namespace with every longer id it begins. |
| `Names.NewIDIsCanonical` | deploy-service/internal/domain/uuid.go:9-15 | Generated ids are canonical and 36 characters long, for all random bytes. |
| `Names.GeneratedProjectsAreApart` | deploy-service/internal/domain/uuid.go:9-15 | Different generated ids never share a namespace or a vcluster name. |
| `Users.AlwaysInStep` | deploy-service/internal/store/memory/user_store.go:17-171 | After any operations with new ids the maps by id and by email hold the same users, so both lookups agree. |
| `Users.CreateKeepsStepIffFresh` | deploy-service/internal/store/memory/user_store.go:17-26 | Create looks at the email only: it keeps the maps in step iff the email is taken or the id is new. |
| `Users.EditKeepsStep` | deploy-service/internal/store/memory/user_store.go:76-171 | Every update keeps the maps in step and the set of users. |
| `Users.UserStore.constructor` | deploy-service/internal/store/memory/user_store.go:13-15 | A new store is empty. |
| `Users.UserStore.Create` | deploy-service/internal/store/memory/user_store.go:17-26 | Adds the user under both keys, refuses a known email. |
| `Users.UserStore.GetByEmail` | deploy-service/internal/store/memory/user_store.go:28-33 | Finds exactly the stored record. |
| `Users.UserStore.GetByID` | deploy-service/internal/store/memory/user_store.go:35-40 | Finds exactly the stored record. |
| `Users.UserStore.GetByTelegramUsername` | deploy-service/internal/store/memory/user_store.go:42-52 | Some user with that name, case ignored, or none if there is none. |
| `Users.UserStore.UpdateBalance` | deploy-service/internal/store/memory/user_store.go:76-87 | The balance changes in both maps, and nothing else. |
| `Users.UserStore.UpdateGitHubToken` | deploy-service/internal/store/memory/user_store.go:89-100 | The token changes in both maps, and nothing else. |
| `Users.UserStore.UpdateTelegramSettings` | deploy-service/internal/store/memory/user_store.go:102-123 | The four settings change in both maps; an empty name clears every trace of Telegram and nothing else. |
| `Users.UserStore.LinkTelegramChat` | deploy-service/internal/store/memory/user_store.go:125-140 | The chat is linked in both maps and the code used up. |
| `Users.UserStore.DisableTelegramNotifications` | deploy-service/internal/store/memory/user_store.go:142-153 | Notifications go off in both maps. |
| `Users.UserStore.ClearTelegramSettings` | deploy-service/internal/store/memory/user_store.go:155-171 | All Telegram settings go in both maps. |
| `Users.AtSignIsOptional` | deploy-service/internal/store/memory/user_store.go:42-52 | One leading at sign and margins make no difference to the name that is looked up; a second at sign does. |
| `Alerts.RateLimit` | deploy-service/internal/service/notification_service.go:138-195 | Over every run of user and system alerts a half-open window of length W holds at most ceil(W/ttl) attempts for a key whose requests ask for at least ttl. |
| `Alerts.RateLimitIsTight` | deploy-service/internal/service/notification_service.go:148-157 | The bound is met by requests exactly one time to live apart. |
| `Alerts.HeldBackIffRecent` | deploy-service/internal/service/notification_service.go:148-157 | With one time to live per key an alert is held back iff the key was attempted within the last time to live. |
| `Alerts.SystemAlertReaches` | deploy-service/internal/service/notification_service.go:164-195 | After any history a system alert is attempted for exactly the administrators with a chat for whom it was not attempted within the time to live, each under a key of their own; just once each, and so as often as there are such administrators, if the loop takes less than the time to live. |
| `Alerts.FirstSystemAlert` | deploy-service/internal/service/notification_service.go:164-195 | From an empty cache such an alert makes as many attempts as there are different administrators with a chat. |
| `Alerts.NotificationService.constructor` | deploy-service/internal/service/notification_service.go:41-48 | A new service has an empty cache and no administrators. |
| `Alerts.NotificationService.SendUserAlert` | deploy-service/internal/service/notification_service.go:138-162 | An attempt is made iff there is a sender, the user has a chat and wants alerts, and the user's key is not shut; then the key is shut for the time to live. |
| `Alerts.NotificationService.Deliver` | deploy-service/internal/service/notification_service.go:148-161 | The locked part: suppress, or remember the time to live and attempt. |
| `Alerts.NotificationService.SendSystemAlert` | deploy-service/internal/service/notification_service.go:164-195 | The loop attempts the alert for exactly those administrators with a chat whose own key is not shut when their turn comes, just once for each if it takes less than the time to live. |
| `Alerts.NotificationService.AlertAdmin` | deploy-service/internal/service/notification_service.go:171-193 | One administrator's turn: an attempt under the key of that id iff there is a chat and the key is not shut. |

## Left out

- HTTP handlers, router, middleware, the console and logging: plumbing.
- Kubernetes, vcluster, GitHub, Loki, Prometheus, Telegram and YooKassa clients: each is a parameter that answers with success, failure or data.
- Postgres stores: only the sums and the maximum of the usage aggregate are used. The Postgres project store never writes the suspension and deletion dates, so the guard results hold for the in-memory store.
- Password hashes, tokens and encryption: foreign primitives. Generated ids are assumed to be new; a sync draws the id of a release for a run from an injective function of the run.
- Rounding of floating-point numbers: amounts are exact.
- Provisioning of a project and its retries: runs of the guard start from provisioned projects, and runs of the release system start without releases and stages.
- Two guard ticks, webhooks or payment notifications at the same time: the code does not lock these, and each is one step here, as is a rollback, a manual resume or deletion (which call the cluster between reading and writing), and a stage of a sync once GitHub has answered. The two halves of a deploy reservation and its release, handlers between reading and writing a project, and syncs between listing the releases and processing each stage interleave freely with everything else.
- Clock readings inside one operation: each guard tick, webhook, sync and rollback reads the clock once; a deploy reads it where the code does, before the lock. Update times of projects and stages are not kept.
- The exemption test on the email address: a boolean of the account.
- Failures of GetProjectCost and of the stores: the in-memory stores and the engine over them do not fail.
- Zero times: a sync takes the latest creation time of a stage, which is never Go's zero time for a stored release.
- Lower-casing and case folding outside ASCII: exact for the letters whose lower case or fold is ASCII, all other letters are left as they are.
- Tie-breaking: among equally new placeholders the code picks by map order, and the model allows any of them.
- StageStore.ListByProject (a project's stages sorted by time, for display), user lookups by link code and by chat id (searches like the one by user name), SetAdminTelegramUsernames (sets the list before the service starts), message texts, stage display names and URLs: none of them decides anything that the results speak of.
- One feed for each sync: the code asks GitHub anew for every stage, the model lets all these answers come from the same list of runs.
- Resource limits of a profile and the pressure alert after a charge: they read nothing back.
- Metering.AggregateForProject in SQL: the aggregate is for amounts that are not negative, because the specified maximum starts at zero.
- ReleaseService.ReleaseService.SyncStages: processes its stages one after the other; what others do in between is in the runs of ReleaseHistory.
- ReleaseService.ReleaseService.HandleGitHubWebhook: asks for a nonzero run id, because run id 0 marks an unbound release.
