# A verified model of the RT-App core

RT-App sells prepaid usage. An account has a plan whose allowance is counted in short, day, week and
period windows, additional credits that do not expire, holds for calls that have not been settled
yet, and a statement in which every change is an entry. Every operation reads a few rows, computes
the new account with its entries and receipts, and sends one version-guarded transaction, which is
retried when another client was faster. Smaller protocols use the same store: idempotent work,
refresh-token rotation, migrations under a lease and plan versions. Around them are a module
manager, an in-memory queue and a cache.

This project models that logic in Dafny and proves what it promises: that statement and balances
agree, that held credits stay covered and pay for what they reserved, that a key is never charged
twice, and that all of this survives any interleaving of any number of clients. `dafny verify
dfyconfig.toml` checks everything.

## How the project is built

- **Data and windows.** `Plans`, `Windows` (lazy renewal by floor division), `IdleWalk` (the window by
  window walk of the statement, and that it agrees with the division), `Rollover` and `Conservation`
  (entries for windows that close and open), `IdleExpiries` (where the two meet), `Accounts`, `Pricing`.
- **One operation.** `Operations.Decide` is one attempt of an operation, from the rows it read and one
  reading of the clock to what it commits. `Drafts` and `Service` are the same attempts as the source
  runs them - a working copy of the account changed step by step, loops over products and holds, rows
  read and written - and are proved to compute exactly `Decide` and to leave exactly those rows.
- **What each operation means.** `Present` says in plain terms which plan serves, what its windows leave,
  what is held, which cap applies and what a charge does; `Outcomes`, `ReservationOutcomes` and
  `AccountOutcomes` say with these, for every operation, what it answers and every field it writes.
- **Whole histories of one account.** `Books.Run` applies operations one after the other: any sequence
  of charges, recorded credits, reservations, settlements, releases, assignments of credits and plans,
  unpaid choices and changes of plan, and sweeps, with any clock readings. `Lifecycle`,
  `Statement`, `Histories`, `Charges`, `Retries`, `Coverage`, `CoveredRuns`, `ModelCaps`, `Solvency`,
  `Replacements`, `BalanceLaw`, `BalancedRuns` and `BalancedHistories` prove what every history keeps,
  and `Samples` has the short histories that show where a promise ends.
- **Many clients.** `Store` is the guarded store, `Transactions` the writes of a commit,
  `Interleavings` a step relation in which any number of clients read, decide, commit, conflict,
  retry and give up at any moment. Its main theorem says that the store is always that of a history;
  `Progress` and `Concurrency` state for every interleaving what this gives: agreement of statement and
  account, the reservation lifecycle, charging at most once, solvency, the balance law, limits, cover
  and caps.
- **Other parts.** `Preflight`, `Idempotency`, `Sessions`, `Migrations`, `PlanHistory`, `ModuleGraph`,
  `ModuleManager`, `JsKeys`, `MemoryQueue`, `LruCache`, `Calendar`.

Credits, money and times are whole numbers (epoch milliseconds); prices are real numbers until they
are rounded. Hashes are taken as injective: an entry's seed stands for its digest, an input for its
fingerprint, a secret for its hash. Random ids and secrets are fresh values.

## Where the code and its promises differ

- **The balance law.** `rt-app/docs/polyglot/subscriptions-reservations.md:115-118` promises that the
  credits of all entries sum to the allowance left in the open windows plus the additional credits.
  An expiry also charges the allowance of every idle window, which no entry granted; and when a
  running plan is changed in mid-window its counter is carried over while the new window is granted
  in full. In every history the law holds after every call if and only if no call that committed
  found a window slept through or went on with use that the statement does not hold open
  (`BalancedHistories.BalancedHistory`); for a change of a running plan this is the use that it
  carries over (`BalancedHistories.ChangedPlanUnbalances`). `Samples.IdleWeeksUnbalance` and
  `Samples.ChangedPlanExceedsAndUnbalances` are histories in which it fails. The exact law, with both
  terms, holds always (`BalanceLaw.StatementBalances`).
- **Plan changes and limits.** Counters carried over to a smaller plan can exceed its limits. The limits
  are kept through a history if and only if every change of a running plan finds room for what it
  carries over (`Solvency.CountersStayWithinLimits`; `Samples.ChangedPlanExceedsAndUnbalances`).
- **Holds and the plan.** When another plan takes over, the holds stay covered if and only if what it
  offers at once and the additional credits suffice (`Replacements.CoverAfterReplacement`); when the
  plan ends, the additional credits alone must (`Solvency.CoverWithoutAPlan`, and
  `Samples.CoverEndsWithThePlan` where they do not).
- **Model caps.** A settlement counts whatever was used, so it can overrun a cap
  (`Samples.SettlementOverrunsTheCap`); it keeps the caps exactly when the use fits
  (`ModelCaps.SettlementKeepsCapsIfItFits`).
- **Short windows** restart at the look that finds them ended, so when the account is looked at
  matters, in exactly one situation (`Windows.NormalizationIsPathIndependent`).
- **The migration lock** is deleted on release and created again at version 1. A runner that stalled
  through a takeover, a release and a new beginning can meet its own version again and revert a
  migration from under the others (`Migrations.ReleasedLockRepeatsVersions`). As long as the row is
  not created anew while such a runner is still there, the history stays a prefix.
- **Disposal of modules** is the reverse of their creation except for names that are array indices,
  which JavaScript lists first (`ModuleManager.DisposalReversesCreation`).

## Model

| member | source | states |
|---|---|---|
| Windows.Normalize | rt-app/core-go/subscriptions/accounts.go:20-69 | the imperative renewal and window moves compute `Normalized`, which the next rows describe window by window |
| Windows.MoveWindows | rt-app/core-go/subscriptions/accounts.go:46-63 | the windows of one product, moved in the source's order, are `MoveCounter`: those that have ended begin anew, see Windows.EndedWindowsBeginAnew |
| Windows.CountersMoveOnce | rt-app/core-go/subscriptions/accounts.go:33-64 | however the products are visited, each counter moves exactly once and the counters of other products keep their value |
| Windows.NormalizationIsPathIndependent | rt-app/core-go/subscriptions/accounts.go:20-69 | looking at an entitlement on the way gives the same result as looking only at the end, if and only if the plan renews in between or no short window is opened by the first look and still open at the second |
| Windows.NormalizedBracketsNow | rt-app/core-go/subscriptions/accounts.go:20-69 | afterwards no day, week or short window of a product of the plan has ended, those that had started contain the present, and so does a renewed period |
| Windows.EndedWindowsBeginAnew | rt-app/core-go/subscriptions/accounts.go:33-64 | where the plan does not renew, a window that has ended begins anew with nothing used in it, at any rate, whole windows after its start (a short one at the look itself); every other window, what it counts, and the use of the period stay as they were |
| Windows.RenewedPlansBeginAnew | rt-app/core-go/subscriptions/accounts.go:22-32 | a plan that renews itself begins the period that holds the present, whole periods after the old one, with nothing used in any window at any rate |
| IdleWalk.CountSkipped | rt-app/core-go/subscriptions/ledger.go:572-577 | the loop over idle windows computes `Walk` with its bound of 520 |
| IdleWalk.FollowingIsNext | rt-app/core-go/subscriptions/ledger.go:560-566 | one step of the walk leads from the window that holds t to the next one by division, and ends just after t |
| IdleWalk.WalkMeetsWindowStarts | rt-app/core-go/subscriptions/ledger.go:560-577 | from a window start the walk strictly increases, stands only on window starts, and its n-th stop is the n-th window by division |
| IdleWalk.WalkMissesNoWindow | rt-app/core-go/subscriptions/ledger.go:560-577 | every window start up to where the walk has come was one of its stops |
| IdleWalk.WalkCountsWindows | rt-app/core-go/subscriptions/ledger.go:572-577 | the number of steps is the difference of the window numbers, cut off at the bound |
| IdleWalk.NormalizedLandsOnTheLattice | rt-app/core-go/subscriptions/accounts.go:27-57 | for every plan that renews at this look or is within its period, the floor divisions of the usage counters (period, then week) land on the same window start as the walk, and the account stays on the lattice |
| Rollover.CloseWindow | rt-app/core-go/subscriptions/ledger.go:548-605 | the imperative closing of a window computes `Close` |
| Rollover.PutWindow | rt-app/core-go/subscriptions/ledger.go:387-406 | setting a window is a JavaScript property assignment: in place when known, else at the position its key gives it |
| Rollover.InsertWindow | rt-app/core-go/subscriptions/ledger.go:394-405 | the search for the first larger index or string key inserts where `Inserted` does |
| Rollover.Roll | rt-app/core-go/subscriptions/ledger.go:507-545 | the imperative rollover computes `RolledOver`, about which the next rows are |
| Conservation.SortingIsDetermined | rt-app/core-go/subscriptions/ledger.go:611-643 | any arrangement of the entries in the comparator's order is the one that is returned, so the sorting algorithm does not matter and no entry is lost or doubled |
| Conservation.SortingKeepsTotals | rt-app/core-go/subscriptions/ledger.go:611-643 | sorting changes no sum over the entries |
| Conservation.EntriesAreChronological | rt-app/core-go/subscriptions/ledger.go:607-643 | the returned entries are the generated ones in order of time; at the same time windows that close come before those that open, the former latest first and the latter in order |
| Conservation.WindowsDoNotOverlap | rt-app/core-go/subscriptions/ledger.go:548-605 | a window that does not go on closes now or at its natural end, whichever is earlier, and none closes after its successor of the same product opens |
| Conservation.WindowsOpenOnTime | rt-app/core-go/subscriptions/ledger.go:523-542 | a window opens at its start, or when it replaces one of another plan not before the present |
| Conservation.StoredInOrder | rt-app/core-go/subscriptions/ledger.go:387-416 | the stored windows are in JavaScript property order, one per product |
| Conservation.StoredLookup | rt-app/core-go/subscriptions/ledger.go:517-522 | the stored state names exactly the windows of the current entitlement |
| Conservation.RolloverConserves | rt-app/core-go/subscriptions/ledger.go:507-605 | open before + granted + what windows that stay open are raised by = consumed + reported unused + open after; the credits of the entries are granted - unused - skipped weeks' allowance |
| Conservation.RolloverSettles | rt-app/core-go/subscriptions/ledger.go:507-545 | rolling over again with the same current windows, whatever the counters and the clock, emits nothing and keeps the state |
| Conservation.AllowanceIsConserved | rt-app/core-go/subscriptions/ledger.go:507-605 | over any sequence of rollovers, plan changes included: allowance granted (or raised) = allowance consumed + Details.Unused + what is left open |
| Conservation.ExpiryCountsIdleWindows | rt-app/core-go/subscriptions/ledger.go:567-605 | an expiry closes at the natural end of its window, is missing exactly when nothing is left, and charges Unused + SkippedWeeks * allowance where SkippedWeeks is the number of whole windows in between |
| IdleExpiries.RolloverReportsIdleWindows | rt-app/core-go/subscriptions/accounts.go:152-187 | for an account whose entitlement goes on: the window stays open exactly while the present is in it; otherwise the entries report what was left of it and exactly the whole windows between the stored week and the one the usage counters jump to |
| JsKeys.KeysKeepTheirOrder | rt-app/core-ts/src/RTAppManager.ts:99-111 | object keys are listed in the order they were set if and only if that order puts array indices first, ascending |
| JsKeys.IndicesAreDecimal | rt-app/core-go/subscriptions/ledger.go:410-421 | a key is an array index if and only if it is the decimal form of a number up to 2^32 - 2 |
| Store.MemoryStore.Get | rt-app/core-go/nosql/memory.go:30-42 | the row of a key, or none, and nothing changes |
| Store.MemoryStore.Transact | rt-app/core-go/nosql/memory.go:46-79 | all writes or none: a repeated key is refused first, then a failed guard, and a refusal changes nothing |
| Store.CheckKeys | rt-app/core-go/nosql/memory.go:60-62 | no two writes name the same row, if and only if it says so |
| Store.EveryWriteTakesEffect | rt-app/core-go/nosql/memory.go:70-77 | every write of a committed transaction takes effect, whatever its place |
| Store.UnwrittenKeysKeepTheirRow | rt-app/core-go/nosql/memory.go:70-77 | rows that no write names stay as they are |
| Pricing.PricingIsMonotone | rt-app/core-go/subscriptions/credits.go:265-268 | more input and output tokens never cost fewer credits |
| Pricing.ChargeCoversThePrice | rt-app/core-go/subscriptions/credits.go:265-268 | input tokens at the input price and output tokens at the output price, per thousand: the charge is the least whole number of credits, not below the minimum, that covers this up to half a millionth |
| Pricing.ProviderCostIsRounded | rt-app/core-go/subscriptions/credits.go:277-287 | the provider cost is input tokens at the input cost and output tokens at the output cost, to the nearest ten-thousandth |
| Drafts.NormalizeAccount | rt-app/core-go/subscriptions/accounts.go:65-67 | an assigned plan nested in the account is normalized with it |
| Drafts.SumHeld | rt-app/core-go/subscriptions/reservations.go:173-181 | the loop sums the unexpired holds of a product |
| Drafts.SumHeldAtRate | rt-app/core-go/subscriptions/limits.go:86-91 | the loop sums the unexpired holds of a product at one rate |
| Drafts.AccountDraft.Free | rt-app/core-go/subscriptions/reservations.go:191-198 | what a new charge can use beside the holds; that charges take the allowance first is Outcomes.ConsumeTakesTheAllowanceFirst |
| Drafts.AccountDraft.Append | rt-app/core-go/subscriptions/accounts.go:190-214 | an entry gets the next sequence number and what is available, and is folded into the totals |
| Drafts.AccountDraft.Settle | rt-app/core-go/subscriptions/accounts.go:217-229 | the windows owed since the stored account are appended before anything else |
| Drafts.AccountDraft.Sweep | rt-app/core-go/subscriptions/reservations.go:281-316 | exactly the expired holds leave the account, each with its release entry |
| Drafts.MarkReceipts | rt-app/core-go/subscriptions/reservations.go:296-305 | the receipts of swept holds that are still active are marked expired, except the caller's own |
| Drafts.AccountDraft.TakeHold | rt-app/core-go/subscriptions/reservations.go:507-518 | removes the first hold of a key and nothing else |
| Drafts.AccountDraft.Charge | rt-app/core-go/subscriptions/usage.go:86-103 | a charge changes the counter of every window, the rate counter, the balance and the total as `Taken` says |
| Drafts.AccountDraft.Overflow | rt-app/core-go/subscriptions/limits.go:108-116 | the first window of a cap that a charge would overflow |
| Service.AttemptConsume | rt-app/core-go/subscriptions/usage.go:40-124 | one attempt of Consume, run step by step, decides as `DecideConsume`; see Outcomes.ConsumeIsAnswered |
| Service.ChargeUsage | rt-app/core-go/subscriptions/usage.go:60-118 | the part after the checks, run step by step: refused with the full window or the model's, or charged as Outcomes.ConsumeTakesTheAllowanceFirst says |
| Service.AttemptRecord | rt-app/core-go/subscriptions/usage.go:197-246 | one attempt of RecordCredits with a positive amount |
| Service.AttemptGrantCredits | rt-app/core-go/subscriptions/accounts.go:807-898 | one attempt of assigning additional credits |
| Service.AttemptGrantPlan | rt-app/core-go/subscriptions/accounts.go:807-898 | one attempt of assigning a plan |
| Service.AttemptChange | rt-app/core-go/subscriptions/accounts.go:418-472 | one attempt of choosing an unpaid plan: a running period and its counters go on |
| Service.AttemptReserve | rt-app/core-go/subscriptions/reservations.go:357-435 | one attempt of Reserve, run step by step, decides as `DecideReserve`; see ReservationOutcomes.ReserveIsAnswered and ReserveHolds |
| Service.AttemptSettle | rt-app/core-go/subscriptions/reservations.go:464-597 | one attempt of Settle, run step by step, decides as `DecideSettle`; what that answers and commits is said by ReservationOutcomes.SettleIsAnswered and SettleTakesTheAllowanceFirst |
| Service.AttemptRelease | rt-app/core-go/subscriptions/reservations.go:616-669 | one attempt of Release, run step by step, decides as `DecideRelease`; what that answers and commits is said by ReservationOutcomes.ReleaseIsAnswered and ReleaseGivesBack |
| Service.AttemptMaintain | rt-app/core-go/subscriptions/overview.go:166-197 | the sweep of one account: renew, settle windows, release expired holds, write only when something changed |
| Service.Subscriptions.ReadReceipts | rt-app/core-go/subscriptions/reservations.go:296-301 | the receipts of the holds to sweep, as the store has them |
| Service.Subscriptions.Writes | rt-app/core-go/subscriptions/reservations.go:428-433 | the writes of a commit: account, the operation's own row, swept receipts, entries |
| Service.Subscriptions.Perform | rt-app/core-go/subscriptions/usage.go:31-125 | one attempt of an operation on a store that records a user's books answers as it does alone, leaves rows that record the books after it, and touches no other user's rows |
| Present.AllowanceIsTheTightestWindow | rt-app/core-go/subscriptions/accounts.go:72-109 | the allowance left is the largest number of credits that the running plan - the administrator's assignment first, else the account's own - has room for in every window |
| Present.HeldIsTheSum | rt-app/core-go/subscriptions/reservations.go:173-181 | what is held of a product is the sum of its unexpired holds |
| Present.HeldAtRateIsTheSum | rt-app/core-go/subscriptions/limits.go:86-91 | what is held at a rate is the sum of its unexpired holds of that rate |
| Present.CapIsConfigured | rt-app/core-go/subscriptions/limits.go:22-68 | a rate is capped as the plan has it in the settings now, or as the subscribed plan has it when the settings no longer do, and only under a running plan |
| Present.CapNamesTheFirstWindow | rt-app/core-go/subscriptions/limits.go:71-116 | a cap refuses for the shortest window in which what was used, what is held and the new credits exceed it, and for no other reason |
| Present.FullWindowIsTheFirst | rt-app/core-go/subscriptions/usage.go:68-79 | a refused charge names the shortest full window, the period when no shorter one is full |
| Present.ChargeIsTaken | rt-app/core-go/subscriptions/usage.go:86-103 | a charge counts what the allowance pays in every window of the product of the plan that serves, all that was used at a capped rate, takes the rest from the additional credits, and changes nothing else |
| Outcomes.ConsumeIsAnswered | rt-app/core-go/subscriptions/usage.go:40-84 | a valid charge under a new key commits if and only if the plan that serves runs, is paid for when payment is required, has the product, the credits are available beside the holds and the cap has room; else it is refused for the first of these that fails |
| Outcomes.ConsumeIsChecked | rt-app/core-go/subscriptions/usage.go:31-50 | credits must be 1 to a thousand million; the same charge again is repeated, another one under its key refused |
| Outcomes.ConsumeTakesTheAllowanceFirst | rt-app/core-go/subscriptions/usage.go:60-118 | a committed charge takes min(credits, allowance left) from the allowance and only the rest from the additional credits, whatever is held; usage row, entry, counters and balances say so, and nothing else changes |
| ReservationOutcomes.EstimatesAreFair | rt-app/core-go/subscriptions/credits.go:234-260 | an estimate is refused without its rate or for impossible tokens, and otherwise is the fair price at the first rate of that id |
| ReservationOutcomes.ReserveIsAnswered | rt-app/core-go/subscriptions/reservations.go:357-412 | a valid reservation under a new key commits if and only if nothing forbids a charge, fewer than 25 holds are live, the credits are available beside them and the cap has room; else it is refused for the first of these that fails |
| ReservationOutcomes.ReserveIsChecked | rt-app/core-go/subscriptions/reservations.go:335-367 | an estimate without a rate, tokens or credits out of range, or a time to live outside a second and a day are refused; the same reservation again is repeated, another one under its key refused |
| ReservationOutcomes.ReserveHolds | rt-app/core-go/subscriptions/reservations.go:382-435 | a committed reservation holds the credits asked for, or the fair price of the estimate, for its time to live (15 minutes unless said otherwise); hold, receipt and entry say the same, the receipt also who made it, and nothing else changes |
| ReservationOutcomes.UsersReachTheirOwn | rt-app/core-go/subscriptions/reservations.go:439-448 | a valid settlement or release is answered "not found" if and only if there is no receipt of the key, or a user asks for one that another source made (or tokens are reported at a rate that is gone) |
| ReservationOutcomes.SettlementsAreChecked | rt-app/core-go/subscriptions/reservations.go:111-140 | a settlement of credits or tokens out of range, or of an invalid key, is refused as a bad request |
| ReservationOutcomes.SettleIsAnswered | rt-app/core-go/subscriptions/reservations.go:464-498 | what a settlement answers: repeated for the same usage, refused for another or after a release, else it commits, also when the reservation has expired |
| ReservationOutcomes.SettleTakesTheAllowanceFirst | rt-app/core-go/subscriptions/reservations.go:499-597 | a committed settlement charges the reported usage (tokens at their fair price) or all that is available beside the other holds, if that is less, min(charged, allowance left) of it from the allowance; receipt, entry, hold, counters and balances say so, and nothing else changes (for holds with distinct keys, as in every history by Lifecycle.OperationKeepsLifecycle) |
| ReservationOutcomes.ReleaseIsAnswered | rt-app/core-go/subscriptions/reservations.go:616-630 | a release within reach commits if and only if the reservation is active, is repeated when it was released or has expired, and refused when it was settled |
| ReservationOutcomes.ReleaseGivesBack | rt-app/core-go/subscriptions/reservations.go:630-669 | a committed release drops the live hold and gives back what it held, or marks the receipt of an expired one, and changes nothing else |
| AccountOutcomes.AdditionIsAnswered | rt-app/core-go/subscriptions/usage.go:143-215 | additional credits are added once for each request, to a product that some plan has, up to a thousand million in all; the same request is repeated, another under its key refused |
| AccountOutcomes.AdditionAdds | rt-app/core-go/subscriptions/usage.go:197-246 | what is added is on the balance and available at once, the entry says so with the money paid, and nothing else changes |
| AccountOutcomes.RecordedDebitIsACharge | rt-app/core-go/subscriptions/usage.go:172-186 | a recorded debit is a charge of as many credits |
| AccountOutcomes.AssignmentIsAnswered | rt-app/core-go/subscriptions/accounts.go:807-846 | a plan of the settings is assigned once for each request |
| AccountOutcomes.AssignmentBeginsNow | rt-app/core-go/subscriptions/accounts.go:847-898 | an assigned plan begins now, unused, for one period of its own, and the account's own plan stays beside it |
| AccountOutcomes.ChoiceIsAnswered | rt-app/core-go/subscriptions/accounts.go:418-437 | an unpaid plan of the settings is chosen once for each request, and not again while it runs |
| AccountOutcomes.ChoiceGoesOnOrBeginsNow | rt-app/core-go/subscriptions/accounts.go:438-472 | a chosen plan takes over the running period with its counters, or begins now for one period of its own |
| AccountOutcomes.MaintenanceSweeps | rt-app/core-go/subscriptions/overview.go:166-197 | the sweep commits if and only if the plan is due, a window closed or opened, or a hold expired; it renews the plan that is due, settles windows, drops expired holds, and does nothing else |
| AccountOutcomes.WindowsAreReported | rt-app/core-go/subscriptions/accounts.go:190-236 | settling windows appends one entry for each window that closed or opened, in order, with its time, credits, kind, details and what is available |
| AccountOutcomes.ExpiriesAreReported | rt-app/core-go/subscriptions/reservations.go:281-316 | sweeping appends one entry for each expired hold, in order, dated when its time was up and giving back what it held |
| Lifecycle.OperationKeepsLifecycle | rt-app/core-go/subscriptions/reservations.go:281-670 | after every operation a hold is on the account exactly when its receipt is active with the same product, credits and times, never more than 25; receipts only move active to settled, released or expired, and expired to settled |
| Lifecycle.SweepFinds | rt-app/core-go/subscriptions/reservations.go:281-316 | the sweep keeps exactly the live holds and reports exactly the expired ones |
| Lifecycle.ExpiredRows | rt-app/core-go/subscriptions/reservations.go:296-305 | the sweep marks the receipts of the expired holds and changes no other row |
| Statement.ConsumeAgrees | rt-app/core-go/subscriptions/usage.go:60-124 | a charge and its entries keep account and statement in agreement |
| Statement.SettleAgrees | rt-app/core-go/subscriptions/reservations.go:499-597 | a settlement and its entries do, with the held credits given back |
| Statement.ReserveAgrees | rt-app/core-go/subscriptions/reservations.go:382-435 | a reservation does, with the credits it holds |
| Statement.ReleaseAgrees | rt-app/core-go/subscriptions/reservations.go:630-669 | a release does, whether or not its hold was still there |
| Histories.StatementDeterminesTheAccount | rt-app/core-go/subscriptions/accounts.go:190-229 | in every history the sequence numbers the entries, the totals are ApplyTotals folded over them, each balance is what was added less all fromBalance, totalConsumed is the sum of the charges, the entries' held values sum to the holds, and the lifecycle holds |
| Histories.TotalsAreTheSums | rt-app/core-go/subscriptions/ledger.go:256-287 | in every history credits in, out and expired are the sums of the positive, negative and expiring credits of the entries, and money paid and granted is the sum per currency |
| Histories.ReceiptsMoveForward | rt-app/core-go/subscriptions/reservations.go:464-669 | between any two points of any history a receipt only moves forward |
| Charges.ChargedAtMostOnce | rt-app/core-go/subscriptions/reservations.go:464-669 | in every history a usage key has one entry exactly when its row exists and charges what the row says; a reservation has one settlement entry exactly when its receipt is settled, which then says how and charges exactly that, one release entry exactly when released, and is never charged unless settled |
| Charges.HistoryIsAccounted | rt-app/core-go/subscriptions/usage.go:40-124 | every key's entries match its row, in every history |
| Retries.RepeatedCallIsReplayed | rt-app/core-go/subscriptions/usage.go:41-50 | a committed call made again at any later point of any history commits nothing and repeats its answer |
| Retries.ReusedKeyConflicts | rt-app/core-go/subscriptions/reservations.go:362-367 | another request under the key of a committed one - charge, record, reservation, assignment or change of plan - is refused at any later point and commits nothing |
| Coverage.TimeKeepsCover | rt-app/core-go/subscriptions/reservations.go:191-198 | the passage of time uncovers no hold while the entitlement stays |
| Coverage.TakenIsGood | rt-app/core-go/subscriptions/usage.go:64-103 | a charge out of what is spendable leaves every hold of every product covered, every counter in its limits and every balance non-negative |
| CoveredRuns.ServingKeepsCover | rt-app/core-go/subscriptions/reservations.go:382-435 | so does every operation that does not replace the entitlement |
| CoveredRuns.HoldsStayCovered | rt-app/core-go/subscriptions/reservations.go:183-198 | while the entitlement stays active and is not replaced: allowance left + additional credits >= live held credits for every product, after any run of operations and at any later instant |
| CoveredRuns.SettlementIsPaid | rt-app/core-go/subscriptions/reservations.go:520-525 | what a settlement charges is the usage or everything spendable, whichever is less |
| CoveredRuns.SettlingPaysForTheReservation | rt-app/core-go/subscriptions/reservations.go:486-525 | settling a live hold with no more than it reserved is never refused, leaves nothing uncovered and charges exactly the usage |
| CoveredRuns.MaintenanceRenewsAsLooking | rt-app/core-go/subscriptions/overview.go:178-187 | the sweep renews an entitlement exactly as looking does, if and only if it is active or not due |
| Replacements.SweepingRenewsAsLooking | rt-app/core-go/subscriptions/overview.go:177-187 | so in every history, where unpaid plans are always active, sweeping an account and looking at it bring it to the same present |
| Replacements.HistoryIsOrdinary | rt-app/core-go/subscriptions/accounts.go:442-450 | in every history an unpaid plan is active, an assigned one is the administrator's, and both are plans of the settings |
| Replacements.CoverAfterReplacement | rt-app/core-go/subscriptions/accounts.go:847-880 | right after a plan was assigned or changed the holds are covered if and only if, for every product, they are at most what the new plan offers at once (with the counters it goes on with) plus the additional credits |
| ModelCaps.CapsStayKeptOverRuns | rt-app/core-go/subscriptions/limits.go:57-152 | used + held at a capped rate stays within the cap in every window, after any run in which settlements report no more than their own hold, and at any later instant |
| ModelCaps.HistoriesKeepCaps | rt-app/core-go/subscriptions/limits.go:57-152 | it does from every point of a history where nothing is held and no rate was counted, as after a plan was assigned |
| ModelCaps.ServingKeepsCaps | rt-app/core-go/subscriptions/limits.go:57-152 | each such operation keeps every cap of every product and rate |
| ModelCaps.SettlementKeepsCapsIfItFits | rt-app/core-go/subscriptions/reservations.go:536-538 | a settlement keeps the caps if and only if the reserved rate's cap has room for all that was used |
| ModelCaps.TimeKeepsCaps | rt-app/core-go/subscriptions/accounts.go:46-63 | the per-rate counters begin anew with their windows and never lose room in between |
| Solvency.HistoryIsSolvent | rt-app/core-go/subscriptions/usage.go:64-103 | in every history, plan changes included, no balance is negative and every receipt costs what its estimate costs |
| Solvency.CountersStayWithinLimits | rt-app/core-go/subscriptions/accounts.go:94-109 | in every history the counters were within the limits of their plans after every call, if and only if every change of a running plan that committed found room for the counters it carried over |
| Solvency.ChosenPlanKeepsLimits | rt-app/core-go/subscriptions/accounts.go:438-451 | a change of plan leaves every counter within its limits if and only if each counter it carries over, its ended windows begun anew, fits the product of the new plan |
| Solvency.HistoriesStayCovered | rt-app/core-go/subscriptions/reservations.go:183-198 | from any point of a history where nothing is held, the holds taken afterwards on one entitlement stay covered |
| Solvency.CoverWithoutAPlan | rt-app/core-go/subscriptions/reservations.go:191-198 | without an active plan the holds are covered if and only if the additional credits suffice |
| BalanceLaw.StatementBalances | rt-app/core-go/cmd/contract-host/subscriptions.go:374-438 | the exact law, every history and product: credits + idle charges = rest of the open window + additional credits + drift of plan changes |
| BalancedRuns.BalancedUnlessSlept | rt-app/docs/polyglot/subscriptions-reservations.md:115-118 | under one entitlement a balanced statement ends balanced if and only if no commit found a whole window with an allowance unused |
| BalancedRuns.RunFallsBehind | rt-app/docs/polyglot/subscriptions-reservations.md:115-118 | the credits only ever fall behind what the account holds, and do so exactly when a window was slept through |
| BalancedRuns.NothingDrifts | rt-app/core-go/subscriptions/accounts.go:217-229 | between two looks at one entitlement settling its windows adds nothing beside its entries |
| BalancedRuns.AssignedPlanIsInUse | rt-app/core-go/subscriptions/accounts.go:847-880 | an assigned plan meets the premises of the law from the start |
| BalancedRuns.ChosenPlanIsInUse | rt-app/core-go/subscriptions/accounts.go:438-453 | so does a plan chosen anew |
| BalancedHistories.BalancedHistory | rt-app/docs/polyglot/subscriptions-reservations.md:115-118 | every history, every product, plans assigned, chosen, changed and ended: the statement was balanced after every call if and only if no commit slept through a window or went on with use that the statement does not hold open |
| BalancedHistories.BalancedUnlessDisturbed | rt-app/docs/polyglot/subscriptions-reservations.md:115-118 | the same for any one commit on an account that any history leaves |
| BalancedHistories.ChangedPlanUnbalances | rt-app/core-go/subscriptions/accounts.go:438-453 | a change of a running plan leaves a balanced statement balanced if and only if the week's use that it carries over is zero (or, beyond the old allowance, the excess) |
| BalancedHistories.NewPlanUnbalances | rt-app/core-go/subscriptions/accounts.go:847-880 | a plan that begins anew does so if and only if no window was slept through, overdrawn, or assigned again at the moment it began with use already counted |
| BalancedHistories.NewWindowsAreUnused | rt-app/core-go/subscriptions/accounts.go:131-149 | as long as the statement goes on under one plan, a window it opens has no use yet and one it keeps open has the same allowance |
| Samples.IdleWeeksUnbalance | rt-app/docs/polyglot/subscriptions-reservations.md:115-118 | a plan is chosen and credits are recorded two weeks later: the statement is unbalanced |
| Samples.ChangedPlanExceedsAndUnbalances | rt-app/core-go/subscriptions/accounts.go:438-453 | a plan is chosen, used and changed for a smaller one: the statement is unbalanced and a counter beyond its limit |
| Samples.CoverEndsWithThePlan | rt-app/core-go/subscriptions/reservations.go:191-198 | credits are held on an assigned plan that ends before the hold does: nothing covers it any more |
| Samples.SettlementOverrunsTheCap | rt-app/core-go/subscriptions/reservations.go:536-538 | a reservation within the cap of its model is settled with more than it held: the cap is overrun |
| Transactions.GuardMeansCurrent | rt-app/core-go/subscriptions/values.go:113-118 | as rows are never deleted and versions only grow, a guard holds if and only if the row is still as it was read |
| Transactions.TransactionGrows | rt-app/core-go/nosql/memory.go:46-79 | a transaction of such writes deletes nothing and raises the version of every row it changes |
| Transactions.CommitRecords | rt-app/core-go/subscriptions/usage.go:113-124 | the writes of a committed decision turn rows that record some books into rows that record the books after it |
| Transactions.OthersKeepTheirBooks | rt-app/core-go/subscriptions/usage.go:113-124 | and leave the rows of every other user alone |
| Interleavings.CommittedReadsAreCurrent | rt-app/core-go/nosql/memory.go:46-79 | every row that a committed decision rests on was still as read |
| Interleavings.CommitOutdates | rt-app/core-go/subscriptions/values.go:113-118 | a commit outdates every other client's reading of that account |
| Interleavings.EveryInterleavingIsSerial | rt-app/core-go/subscriptions/values.go:113-147 | in every state that any interleaving reaches, the rows of every user are what the committed calls leave when run alone in commit order, with clocks that do not go back |
| Progress.UndisturbedIsRecorded | rt-app/core-go/subscriptions/values.go:135-147 | a decision on rows that are still as read commits and is recorded as the operation alone |
| Progress.UndisturbedAttemptsCommit | rt-app/core-go/subscriptions/values.go:135-147 | in every reachable state an attempt that was not disturbed is never refused by the store |
| Progress.CallAloneIsApplied | rt-app/core-go/subscriptions/values.go:135-147 | in every reachable state an idle client that nobody interrupts has its call: what is committed is exactly what the operation alone decides on the user's books, or nothing when it is refused |
| Progress.ConflictsAreRetried | rt-app/core-go/subscriptions/values.go:135-147 | a conflict changes nothing and begins the call anew with nothing read; the eighth one ends it |
| Progress.EightAttemptsAtMost | rt-app/core-go/subscriptions/values.go:135-147 | in no interleaving does a call make more than eight attempts |
| Progress.EveryStoreIsInOrder | rt-app/core-go/subscriptions/reservations.go:335-670 | in every state of every interleaving: statement and account agree, holds and receipts match, every key was charged at most once, no balance is negative |
| Concurrency.EveryStoreKeepsItsLaws | rt-app/core-go/subscriptions/values.go:135-147 | in every state of every interleaving the rows record books for which the exact balance law, the condition of the documented one and that of the limits hold |
| Concurrency.HoldsStayCoveredAmongClients | rt-app/core-go/subscriptions/reservations.go:183-198 | among any number of clients the holds of a user stay covered, as long as what the user commits runs on one entitlement |
| Concurrency.CapsStayKeptAmongClients | rt-app/core-go/subscriptions/limits.go:57-152 | and the caps are kept, as long as settlements stay within their holds |
| Preflight.PreflightPredictsReserve | rt-app/core-go/subscriptions/reservations.go:699-795 | for a new key and fewer than 25 holds, reserving succeeds if and only if Preflight says it fits, and is otherwise refused for the reason Preflight gives |
| Preflight.Degrade | rt-app/core-go/subscriptions/limits.go:228-269 | the offered rate is another one, strictly cheaper, within the credits, its own cap and the margin; no suitable rate is dearer, the first of equals wins, and none is offered exactly when none suits |
| Preflight.OfferedRateCanBeReserved | rt-app/core-go/subscriptions/limits.go:228-269 | the same step at an offered rate can be reserved at once |
| ReservationOutcomes.OffersFit | rt-app/core-go/subscriptions/limits.go:228-269 | a rate is offered if and only if it is another one that costs the provider less (or as much for fewer credits), is available, has room under its cap, and keeps the margin |
| Idempotency.WorkRunsAtMostOnce | rt-app/core-go/idempotency/idempotency.go:180-227 | over any interleaving with failing work, lost replies and crashes, the work of a key runs at most once, and all callers told of success had the same input and get the same result |
| Idempotency.CompletedStays | rt-app/core-go/idempotency/idempotency.go:325-350 | a completed claim is never changed again |
| Idempotency.EveryInterleavingIsSound | rt-app/core-go/idempotency/idempotency.go:280-350 | an executor that runs or records the work of a key owns its claim, in every reachable state |
| Idempotency.Claims.Acquire | rt-app/core-go/idempotency/idempotency.go:280-313 | a new key is claimed; a known one answers conflict for another input, else its result, that it is uncertain, or that it is pending |
| Idempotency.Claims.Transition | rt-app/core-go/idempotency/idempotency.go:325-350 | only the owner's unfinished claim takes the new state |
| Idempotency.Claims.Execute | rt-app/core-go/idempotency/idempotency.go:180-227 | an undisturbed call runs the work exactly when the key is new, and otherwise answers conflict, result, uncertain or pending and changes nothing |
| Idempotency.AloneRunsOnce | rt-app/core-go/idempotency/idempotency.go:180-227 | the steps of an undisturbed executor do what Execute does: a new key runs the work once and keeps and tells its result (or becomes uncertain), a known one tells what its claim says |
| Sessions.RotationIsOrderly | rt-app/core-go/auth/sessions.go:202-281 | over any interleaving a rotated secret is never rotated again and is honoured only within the grace window, a revocation is final, nothing happens at or after the expiry set at sign-in, and the expiry never changes |
| Sessions.OnlyTheLastSecretsAreHonoured | rt-app/core-go/auth/sessions.go:202-281 | a refresh that commits was presented the last committed secret, or the stored previous one within the grace window; any other secret revokes the session |
| Sessions.LastSecretIsHonoured | rt-app/core-go/auth/sessions.go:202-281 | in every reachable state of a live session the holder of the last secret gets a new one and revokes nothing, and may repeat the call with the same secret when the answer was lost |
| Sessions.UnfitUsersGetNothing | rt-app/core-go/auth/sessions.go:220-247 | a refresh by a banned or unfit user, or of a dead session, changes nothing and yields nothing |
| Sessions.RevocationEndsTheSession | rt-app/core-go/auth/sessions.go:371-392 | a revocation that nobody disturbs ends a live session at once and leaves a dead one alone |
| Sessions.LostRacesAreRetried | rt-app/core-go/auth/sessions.go:202-281 | a write that finds the row changed does nothing and begins again with nothing read; the fourth one gives up |
| Sessions.FourAttemptsAtMost | rt-app/core-go/auth/sessions.go:202-281 | in no interleaving does a call make more than four attempts |
| Sessions.Auth.WriteSession | rt-app/core-go/auth/sessions.go:171-176 | the write takes effect exactly when the row still has the version that was read |
| Sessions.Auth.RefreshToken | rt-app/core-go/auth/sessions.go:202-281 | one undisturbed attempt: a dead session or unfit user changes nothing, reuse yields no token |
| Sessions.Auth.RevokeSession | rt-app/core-go/auth/sessions.go:371-392 | revokes exactly live sessions |
| Migrations.HistoryStaysAPrefix | rt-app/core-go/migrations/migrations.go:586-691 | whatever Ups and Downs run, stall, fail, crash, take over and release, the applied migrations are a prefix of the plan, if the lock row is never created anew in another runner's tenure |
| Migrations.TargetsGoOn | rt-app/core-go/migrations/migrations.go:307-312 | all, steps (negative ones too) and named targets always select what directly follows or ends the applied prefix |
| Migrations.TargetsInNumbers | rt-app/core-go/migrations/migrations.go:601-677 | how many: an Up takes all that are pending, or min(n, pending), or with a negative step leaves as many; a Down takes one or min(n, applied); a named target is included, and missing exactly when it is not a candidate; a Down refuses when one of its targets cannot be reverted |
| Migrations.TakenOverRecordsNothing | rt-app/core-go/migrations/migrations.go:350-391 | a runner whose expired lease was taken over records nothing, whether its successor is still there or has released the lock |
| Migrations.TakenOverStaysSilent | rt-app/core-go/migrations/migrations.go:350-405 | and nothing over the whole of any run until it begins anew |
| Migrations.LeasesAreAwaited | rt-app/core-go/migrations/migrations.go:350-391 | a lease lasts a minute from the step that takes or renews it, and nobody begins while one runs |
| Migrations.TakenLeasesHaveRunOut | rt-app/core-go/migrations/migrations.go:350-380 | in every run a lock row that is still as its taker found it has expired when it is taken |
| Migrations.StepStaysExclusive | rt-app/core-go/migrations/migrations.go:350-405 | while there is a lock row, at most one runner knows its version |
| Migrations.StepStaysInPlan | rt-app/core-go/migrations/migrations.go:586-691 | every single step keeps the prefix |
| Migrations.ReleasedLockRepeatsVersions | rt-app/core-go/migrations/migrations.go:396-405 | the premise is needed: a run from nothing, with a release and a new lock, in which a stalled Down reverts the first migration from under the others |
| Migrations.Session.Acquire | rt-app/core-go/migrations/migrations.go:350-380 | the lock is taken exactly when it is missing or expired |
| Migrations.Session.CommitWith | rt-app/core-go/migrations/migrations.go:383-391 | records are written, and the lease renewed, exactly when the lock row is as this runner left it |
| Migrations.Session.Release | rt-app/core-go/migrations/migrations.go:396-405 | the lock row is deleted only while it is this runner's |
| Migrations.Session.Up | rt-app/core-go/migrations/migrations.go:586-632 | undisturbed, a finished Up applies exactly the number of next migrations that its target says in numbers; it refuses exactly when its target is not pending, and stops at the first that fails |
| Migrations.Session.Down | rt-app/core-go/migrations/migrations.go:636-691 | undisturbed, a finished Down reverts exactly the number of latest migrations that its target says, latest first; it refuses exactly when its target is not applied or one of them is irreversible, and none when another lease runs |
| PlanHistory.HistoriesAreGapless | rt-app/core-go/subscriptions/service.go:119-489 | after any calls the history of a plan holds exactly the versions below the current one, and a version, once there, names the same content for ever |
| PlanHistory.CallIsOrderly | rt-app/core-go/subscriptions/service.go:119-489 | each of save, edit, restore, link and publish keeps this |
| PlanHistory.EditsAreSaved | rt-app/core-go/subscriptions/service.go:205-297 | an accepted create, update, archive, new version or restore leaves the plan with the given content and flags, under its next version exactly when the content changed or a version was asked for, Stripe ids kept only otherwise; the other plans are as before and in their places |
| PlanHistory.EditIsAnswered | rt-app/core-go/subscriptions/service.go:205-297 | which edits are accepted, what the others are refused for, and that a refused one changes nothing |
| PlanHistory.SavedAsGiven | rt-app/core-go/subscriptions/service.go:159-186 | every plan of an accepted save is found as it was given, in its place |
| PlanHistory.StripeIdsAreAttached | rt-app/core-go/subscriptions/service.go:314-489 | linking sets the Stripe ids of the named plans and publishing those of the pending one, which is then managed; nothing else of any plan changes |
| PlanHistory.SavesNeverCollide | rt-app/core-go/subscriptions/service.go:159-168 | the create of a history row never meets an existing row |
| PlanHistory.RestoringBringsTheContentBack | rt-app/core-go/subscriptions/service.go:263-297 | restoring a version makes a new version with the content the old one had |
| PlanHistory.FirstVersionsAreOrderly | rt-app/core-go/subscriptions/settings.go:23-45 | a catalog of distinct plans in their first version is a place to start |
| PlanHistory.PlanService.SaveSettings | rt-app/core-go/subscriptions/service.go:119-201 | the save walks the plans, collects the history rows and writes all or nothing |
| PlanHistory.NextVersions | rt-app/core-go/subscriptions/service.go:159-186 | the loop gives every changed plan its next version and archives its previous one |
| PlanHistory.PlanIdFromName | rt-app/core-go/subscriptions/settings.go:354-375 | the id is the first of name, name-2, name-3, ... that no plan has, and one is always found |
| PlanHistory.DecimalsDiffer | rt-app/core-go/subscriptions/settings.go:366-374 | different suffixes give different ids, which is why the search ends |
| ModuleGraph.Walker.Visit | rt-app/core-ts/src/RTAppManager.ts:26-39 | the depth-first visit ends, and either appends what a module needs or names a path to an unknown module or a cycle |
| ModuleGraph.Order | rt-app/core-ts/src/RTAppManager.ts:26-39 | an order is found if and only if nothing reachable is unknown or on a cycle; it lists each module once, after its dependencies |
| ModuleGraph.OrderListsTheReachable | rt-app/core-ts/src/RTAppManager.ts:26-39 | an order lists exactly the modules that the names reach |
| ModuleGraph.OrderExcludesObstacles | rt-app/core-ts/src/RTAppManager.ts:26-39 | where there is an order there is no such path |
| ModuleManager.Manager.SetModule | rt-app/core-ts/src/RTAppManager.ts:17-24 | modules may be set until loading starts |
| ModuleManager.Manager.CreateInstance | rt-app/core-ts/src/RTAppManager.ts:41-60 | a module is created once, after the providers of its bindings |
| ModuleManager.Manager.Load | rt-app/core-ts/src/RTAppManager.ts:62-82 | repeated loads initialize each module at most once and only after its dependencies; nothing is created without an order of the whole graph; a failure is final |
| ModuleManager.Manager.InitializeAll | rt-app/core-ts/src/RTAppManager.ts:72-79 | initialization goes on in order up to the first failure |
| ModuleManager.Manager.Dispose | rt-app/core-ts/src/RTAppManager.ts:99-111 | every instance is disposed of once, in the reverse of the order the instances are listed in |
| ModuleManager.DisposalReversesCreation | rt-app/core-ts/src/RTAppManager.ts:99-111 | that is the reverse of their creation if and only if no array index was created out of turn |
| ModuleManager.DependentsGoFirst | rt-app/core-ts/src/RTAppManager.ts:99-111 | then every module goes before what it depends on |
| ModuleManager.IndexNamesBreakTheOrder | rt-app/core-ts/src/RTAppManager.ts:99-111 | names for which it is not |
| MemoryQueue.MemoryQueue.Publish | rt-app/core-go/queue/memory.go:88-100 | an accepted message goes to the end of the queue; a full queue or invalid message changes nothing |
| MemoryQueue.MemoryQueue.Receive | rt-app/core-go/queue/memory.go:103-127 | the first visible messages in publish order are leased, each under a receipt of its own; leased ones are left alone |
| MemoryQueue.LeasedAt | rt-app/core-go/queue/memory.go:103-127 | which entries a receive leases, and that a visible one is left only when the limit was reached before it |
| MemoryQueue.MemoryQueue.LeasesAreExclusive | rt-app/core-go/queue/memory.go:190-195 | two deliveries that hold a lease at once are of different messages, and neither was settled |
| MemoryQueue.MemoryQueue.Ack | rt-app/core-go/queue/memory.go:197-205 | only a holder removes its message, once; accepted = pending + dead-lettered + acknowledged throughout |
| MemoryQueue.MemoryQueue.Retry | rt-app/core-go/queue/memory.go:207-219 | only a holder gives its message back, in its place, and its receipt is void |
| MemoryQueue.MemoryQueue.Extend | rt-app/core-go/queue/memory.go:221-232 | only a holder renews its lease |
| MemoryQueue.MemoryQueue.DeadLetter | rt-app/core-go/queue/memory.go:234-246 | only a holder sets its message aside, while there is room |
| MemoryQueue.MemoryQueue.RetryFailure | rt-app/core-go/queue/memory.go:146-159 | a dead letter returns to the end of the queue once, while there is room |
| MemoryQueue.BackoffIsLegal | rt-app/core-go/queue/queue.go:280-287 | a worker's delay is whole seconds, legal, and never above its maximum nor the exponential |
| MemoryQueue.DelaysAreDrawnEvenly | rt-app/core-go/queue/queue.go:280-287 | every whole number of seconds up to min(maximum, base * 2^min(attempts - 1, 20)) has an equal share of the random numbers |
| LruCache.GetReturnsTheLastSet | rt-app/core-go/cache/memory.go:53-116 | over every history a Get returns only what was last set, not deleted and not expired; and returns it as long as fewer other keys than the capacity were used since |
| LruCache.ItemStays | rt-app/core-go/cache/memory.go:72-105 | only an item with a full capacity of more recently used ones is evicted |
| LruCache.ItemsWereLastSet | rt-app/core-go/cache/memory.go:53-116 | the items are within capacity, under distinct keys, each as it was last set |
| LruCache.Memory.Get | rt-app/core-go/cache/memory.go:53-69 | list and index stay in bijection; a hit moves to the back, an expired item is dropped |
| LruCache.Memory.Set | rt-app/core-go/cache/memory.go:72-105 | expired items go first, then the least recently used beyond the capacity; an invalid entry changes nothing |
| LruCache.Memory.DropExpired | rt-app/core-go/cache/memory.go:86-93 | exactly the expired items are dropped, the others keep their order |
| LruCache.Memory.Evict | rt-app/core-go/cache/memory.go:99-103 | exactly the newest items within the capacity are kept |
| LruCache.Memory.Delete | rt-app/core-go/cache/memory.go:108-116 | the item of the key goes, nothing else |
| Calendar.FormulaCountsDays | rt-app/core-go/queue/message.go:239-250 | the closed formula equals the recursive count of days by the Gregorian leap-year rule, for every year and month, and is 0 at 1970-01 |
| Calendar.MonthsFollow | rt-app/core-go/queue/message.go:239-250 | successive months differ by exactly the month's length |
| Calendar.DaysRollOver | rt-app/core-go/queue/message.go:193-236 | a day past the end of its month is a day of the next one |
| Calendar.MidnightIsTheNextDay | rt-app/core-go/queue/message.go:193-236 | hour 24 of a date is the first moment of the next day, month or year |
| Calendar.InstantCountsMilliseconds | rt-app/core-go/queue/message.go:193-236 | an instant is the milliseconds since 1970 by whole calendar days, hours, minutes less the offset, seconds and milliseconds; none exactly for fields or instants out of range |

## Left out

- Courtesy resets (`Reset` in rt-app/core-go/subscriptions/accounts.go): they give allowance back without any of the laws above being about them.
- Paid subscriptions: Sync, webhooks, billing operations, the paid branches of Change and Cancel, and the check for a customer of a payment provider; they act on foreign state.
- The unpaid branch of Cancel: it only flags the account and posts an entry of no credits, without settling windows; an account so flagged is covered by the results about entitlements, not by those about histories.
- Preferences, user rows, e-mail, statistics, audit rows and reminders: written beside the account and read by nothing modelled here.
- The provider cost an account has accumulated: `Preflight.Degrade` takes it, and the plan's margin, as given.
- Reasons, names, actors and free details of entries and receipts, and currency validation; that the request of a repeated Record or Grant is the same is equality of the modelled request.
- Whether a plan is enabled or archived when it is chosen.
- The check for an assigned plan that Change makes before its retry loop.
- Several readings of the clock within one attempt are taken as one; settings are constant during a run; the order of the writes inside one transaction is fixed (the store does not depend on it).
- Pages: lists, cursors, and the account pages of Maintenance; a migration history is read in one step.
- JavaScript coercions, NaN, UTF-16 string lengths and the JSON form of rows.
- The file, DynamoDB and PostgreSQL stores, and rows that a database deletes by age.
- What a module's constructor, bindings and `init` do: constructing always succeeds, and which initializations fail is an input.
- Values of the cache: their JSON form, and the check that they have one.
- Message validation, stored checksums and a clash of Stripe prices are inputs (`valid`, `verified`).
- Workers of the queue (`WorkOnce`, `Run`) except for their delay, and inspecting dead letters.
- Session creation, listing and logout, request limits, challenges, multi-factor codes and time-based passwords.
- Seeds, and migrations written for one database engine only.
- HTTP, command lines, deployment, administration pages, overviews and economics reports.
- CoveredRuns.HoldsStayCovered: while one entitlement serves; Replacements.CoverAfterReplacement and Solvency.CoverWithoutAPlan say what is covered when it is replaced or ends.
- ModelCaps.CapsStayKeptOverRuns: for settlements within their own hold; the others are described exactly by ModelCaps.SettlementKeepsCapsIfItFits.
- Conservation.ExpiryCountsIdleWindows: for windows on the lattice of the present period; a plan of another period length that goes on with the counters of the old one may leave it.
- Migrations.HistoryStaysAPrefix: for runs in which no lock row is created anew in another runner's tenure; Migrations.ReleasedLockRepeatsVersions shows that this is needed.
- Service.AttemptGrantCredits: the refusal for a missing or deleted user, whose row is not modelled.
- Service.AttemptGrantPlan: the refusal for a missing or deleted user, whose row is not modelled.
- Service.AttemptChange: the refusals for a disabled plan, for an assigned plan (checked before the retry loop) and for a paid customer.
- Service.Subscriptions.Perform: the retries after a conflict, which the step relation of Interleavings has.
- PlanHistory.PlanIdFromName: the normalization of the name and its cut at 80 characters, which come before the search.
- ModuleManager.Manager.CreateInstance: a class without `init` and an invalid binding field, which make the source throw.
- ModuleManager.Manager.Load: overlapping calls, which the source runs one after the other, are separate calls here.
